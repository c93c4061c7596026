/**
  The string functions of Go's standard library that the code below leans on. A string is a sequence of bytes,
  one `char` to a byte.
*/
module GoStrings {

  // strings.ReplaceAll for a non-empty pattern: the leftmost matches, none overlapping another.
  function ReplaceAll(s: string, pattern: string, with: string): string
    requires pattern != ""
  {
    if |s| < |pattern| then s
    else if s[..|pattern|] == pattern then with + ReplaceAll(s[|pattern|..], pattern, with)
    else [s[0]] + ReplaceAll(s[1..], pattern, with)
  }

  // strings.Join.
  function Join(parts: seq<string>, separator: string): string {
    if |parts| == 0 then ""
    else if |parts| == 1 then parts[0]
    else parts[0] + separator + Join(parts[1..], separator)
  }

  // The position of the first `c`, or the length of `s` when there is none.
  function IndexByte(s: string, c: char): (i: nat)
    ensures i <= |s| && c !in s[..i]
    ensures i < |s| ==> s[i] == c
    ensures i < |s| <==> c in s
  {
    if s == "" then 0 else if s[0] == c then 0 else 1 + IndexByte(s[1..], c)
  }

  /** Replacing a single byte by a single byte goes position by position. */
  lemma {:induction false} ReplaceByte(s: string, a: char, b: char)
    ensures |ReplaceAll(s, [a], [b])| == |s|
    ensures forall i :: 0 <= i < |s| ==> ReplaceAll(s, [a], [b])[i] == if s[i] == a then b else s[i]
  {
    if s != "" {
      ReplaceByte(s[1..], a, b);
      assert s[..1] == [s[0]];
    }
  }
}
