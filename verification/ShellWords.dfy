/**
  How a POSIX shell splits the arguments of a simple command into words, as far as quoting goes: the backslash and
  single quotes of sections 2.2.1 and 2.2.2 of the Shell Command Language (IEEE Std 1003.1) and the token rules of
  its section 2.3. Every unquoted character that starts an expansion, an operator or a comment ends the reading
  with None: what a shell would do then is not a matter of quoting.
*/
module ShellWords {
  import opened Common

  // Where the reader stands: between words, inside one, or inside its single quotes.
  datatype Mode = Between | InWord(text: string) | InQuote(text: string)

  predicate Blank(c: char) { c == ' ' || c == '\t' }

  // Characters that stand for themselves wherever they are in an argument. A shell takes some others so in places - '#'
  // and '~' within a word, say - which this reader does not tell apart.
  predicate Plain(c: char) {
    'a' <= c <= 'z' || 'A' <= c <= 'Z' || '0' <= c <= '9' || c in "-_./:+@,=%^"
  }

  function Text(m: Mode): string { if m.Between? then "" else m.text }

  function Read(s: string, m: Mode): Option<seq<string>>
    decreases |s|
  {
    if s == "" then
      match m
      case Between => Some([])
      case InWord(text) => Some([text])
      case InQuote(_) => None
    else
      var c, rest := s[0], s[1..];
      if m.InQuote? then
        if c == '\'' then Read(rest, InWord(m.text)) else Read(rest, InQuote(m.text + [c]))
      else if Blank(c) then
        if m.Between? then Read(rest, Between) else Cons(m.text, Read(rest, Between))
      else if c == '\'' then Read(rest, InQuote(Text(m)))
      else if c == '\\' then
        if rest == "" then None
        else if rest[0] == '\n' then Read(rest[1..], m)
        else Read(rest[1..], InWord(Text(m) + [rest[0]]))
      else if Plain(c) then Read(rest, InWord(Text(m) + [c]))
      else None
  }

  function Cons(word: string, words: Option<seq<string>>): Option<seq<string>> {
    match words
    case None => None
    case Some(ws) => Some([word] + ws)
  }

  function Words(s: string): Option<seq<string>> { Read(s, Between) }

  predicate PlainWord(s: string) { s != "" && forall c <- s :: Plain(c) }

  /** Plain characters stand for themselves. */
  lemma {:induction false} ReadPlain(s: string, rest: string, m: Mode)
    requires !m.InQuote? && (forall c <- s :: Plain(c)) && (s != "" || m.InWord?)
    ensures Read(s + rest, m) == Read(rest, InWord(Text(m) + s))
  {
    if s == "" {
      assert s + rest == rest && Text(m) + s == Text(m);
    } else {
      assert s[0] in s;
      assert (s + rest)[1..] == s[1..] + rest;
      ReadPlain(s[1..], rest, InWord(Text(m) + [s[0]]));
      assert Text(m) + [s[0]] + s[1..] == Text(m) + s;
    }
  }

  // What the words of a reading weigh, each with the separator behind it.
  function Weight(words: seq<string>): nat {
    if words == [] then 0 else |words[0]| + 1 + Weight(words[1..])
  }

  // What the reader has in hand.
  function InHand(m: Mode): nat { if m.Between? then 0 else |m.text| + 1 }

  /** Words weigh no more than the text they are read from. */
  lemma {:induction false} ReadWeighs(s: string, m: Mode)
    requires Read(s, m).Some?
    ensures Weight(Read(s, m).value) <= |s| + InHand(m) + if m.Between? then 1 else 0
    ensures m.InQuote? ==> Weight(Read(s, m).value) < |s| + InHand(m)
    ensures m.Between? && s == "" ==> Weight(Read(s, m).value) == 0
    decreases |s|
  {
    if s != "" {
      var c, rest := s[0], s[1..];
      if m.InQuote? {
        ReadWeighs(rest, if c == '\'' then InWord(m.text) else InQuote(m.text + [c]));
      } else if Blank(c) {
        ReadWeighs(rest, Between);
      } else if c == '\'' {
        ReadWeighs(rest, InQuote(Text(m)));
      } else if c == '\\' {
        ReadWeighs(rest[1..], if rest[0] == '\n' then m else InWord(Text(m) + [rest[0]]));
      } else {
        ReadWeighs(rest, InWord(Text(m) + [c]));
      }
    }
  }

  /** A text that is read as the one word it looks like is plain: nothing in it was taken away. */
  lemma {:induction false} ReadAsItselfIsPlain(s: string, text: string)
    requires Read(s, InWord(text)) == Some([text + s])
    ensures forall c <- s :: Plain(c)
    decreases |s|
  {
    if s != "" {
      var c, rest := s[0], s[1..];
      assert Weight([text + s]) == |text| + |s| + 1 by { assert [text + s][1..] == []; }
      assert Read(s, InWord(text)).value[0] == text + s;
      if c == '\'' {
        ReadWeighs(rest, InQuote(text));
      } else if c == '\\' {
        ReadWeighs(rest[1..], if rest[0] == '\n' then InWord(text) else InWord(text + [rest[0]]));
      } else if Plain(c) {
        assert text + [c] + rest == text + s;
        ReadAsItselfIsPlain(rest, text + [c]);
        assert s == [c] + rest;
      }
    }
  }

  /** Exactly which words this reader takes unquoted. */
  lemma {:induction false} UnquotedIff(s: string)
    ensures Words(s) == Some([s]) <==> PlainWord(s)
  {
    if PlainWord(s) {
      ReadPlain(s, "", Between);
      assert s + "" == s && "" + s == s;
    }
    if Words(s) == Some([s]) && s != "" {
      var c, rest := s[0], s[1..];
      assert Weight([s]) == |s| + 1 by { assert [s][1..] == []; }
      if Blank(c) {
        ReadWeighs(rest, Between);
      } else if c == '\'' {
        ReadWeighs(rest, InQuote(""));
      } else if c == '\\' {
        ReadWeighs(rest[1..], if rest[0] == '\n' then Between else InWord("" + [rest[0]]));
      } else {
        assert [c] + rest == s && "" + [c] == [c];
        ReadAsItselfIsPlain(rest, [c]);
      }
    }
  }
}
