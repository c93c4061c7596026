/**
  The project-id codec (internal/config/projectid.go): a relative path is turned into one directory name by
  doubling `_` and writing `/` as `_`; names longer than 240 bytes are cut and given a hash suffix. SHA-256 is a
  parameter: any function giving 32 bytes will do for what is proved here.
*/
module ProjectId {
  import opened GoStrings

  newtype byte = b: int | 0 <= b < 256

  type Digest = string -> seq<byte>

  const MAX_PROJECT_ID_LEN := 240
  const PLACEHOLDER := "\0"

  function Escaped(c: char): string {
    match c
    case '_' => "__"
    case '/' => "_"
    case _ => [c]
  }

  function Encoded(path: string): string {
    if path == "" then "" else Escaped(path[0]) + Encoded(path[1..])
  }

  function HexDigit(d: int): char
    requires 0 <= d < 16
  {
    "0123456789abcdef"[d]
  }

  function Hex(bytes: seq<byte>): (s: string)
    ensures |s| == 2 * |bytes|
    ensures '/' !in s && '\0' !in s
  {
    if bytes == [] then ""
    else
      var b := bytes[0] as int;
      assert forall d :: 0 <= d < 16 ==> HexDigit(d) != '/' && HexDigit(d) != '\0';
      [HexDigit(b / 16), HexDigit(b % 16)] + Hex(bytes[1..])
  }

  function HashSuffix(sha256: Digest, path: string): (s: string)
    requires |sha256(path)| == 32
    ensures |s| == 9 && '/' !in s && '\0' !in s
  {
    "_" + Hex(sha256(path)[..4])
  }

  // What the id of `path` is; `PathToProjectID` computes it.
  function ProjectID(path: string, sha256: Digest): string
    requires |sha256(path)| == 32
  {
    var key := Encoded(path);
    if |key| <= MAX_PROJECT_ID_LEN then key
    else key[..MAX_PROJECT_ID_LEN - 9] + HashSuffix(sha256, path)
  }

  lemma {:induction false} EncodedSplit(a: string, b: string)
    ensures Encoded(a + b) == Encoded(a) + Encoded(b)
  {
    if a == "" {
      assert a + b == b;
    } else {
      assert (a + b)[1..] == a[1..] + b;
      EncodedSplit(a[1..], b);
    }
  }

  method PathToProjectID(relPath: string, sha256: Digest) returns (id: string)
    requires |sha256(relPath)| == 32
    ensures id == ProjectID(relPath, sha256)
  {
    if relPath == "" {
      return "";
    }
    var key := "";
    for i := 0 to |relPath|
      invariant key == Encoded(relPath[..i])
    {
      assert relPath[..i + 1] == relPath[..i] + [relPath[i]];
      EncodedSplit(relPath[..i], [relPath[i]]);
      match relPath[i]
      case '_' => key := key + "__";
      case '/' => key := key + "_";
      case c => key := key + [c];
    }
    assert relPath[..|relPath|] == relPath;
    if |key| > MAX_PROJECT_ID_LEN {
      var suffix := "_" + Hex(sha256(relPath)[..4]);
      key := key[..MAX_PROJECT_ID_LEN - |suffix|] + suffix;
    }
    return key;
  }

  function ProjectIDToPath(id: string): string {
    if id == "" then ""
    else
      var s := ReplaceAll(id, "__", PLACEHOLDER);
      var s := ReplaceAll(s, "_", "/");
      ReplaceAll(s, PLACEHOLDER, "_")
  }

  // The three replacements as one scan from the left: a pair of underscores is an underscore, a lone one a slash.
  function Scanned(id: string): string {
    if id == "" then ""
    else if |id| >= 2 && id[0] == '_' && id[1] == '_' then "_" + Scanned(id[2..])
    else if id[0] == '_' then "/" + Scanned(id[1..])
    else if id[0] == '\0' then "_" + Scanned(id[1..])
    else [id[0]] + Scanned(id[1..])
  }

  lemma {:induction false} DecodeScans(id: string)
    ensures ProjectIDToPath(id) == Scanned(id)
  {
    var s := ReplaceAll(id, "__", PLACEHOLDER);
    var t := ReplaceAll(s, "_", "/");
    ReplaceByte(s, '_', '/');
    ReplaceByte(t, '\0', '_');
    assert ProjectIDToPath(id) == ReplaceAll(t, PLACEHOLDER, "_");
    ScanIsPointwise(id);
  }

  // What the last two replacements make of one byte left by the first.
  function Reading(c: char): char {
    if c == '_' then '/' else if c == '\0' then '_' else c
  }

  lemma {:induction false} ScanIsPointwise(id: string)
    ensures var s := ReplaceAll(id, "__", PLACEHOLDER);
            |Scanned(id)| == |s| && forall i :: 0 <= i < |s| ==> Scanned(id)[i] == Reading(s[i])
  {
    if |id| >= 2 {
      if id[..2] == "__" {
        ScanIsPointwise(id[2..]);
      } else {
        assert id[..2][0] == id[0] && id[..2][1] == id[1];
        assert !(id[0] == '_' && id[1] == '_');
        ScanIsPointwise(id[1..]);
      }
    } else if |id| == 1 {
      assert Scanned(id[1..]) == "";
    }
  }

  // What a path must not hold to come back: a slash with a slash or an underscore behind it, or a NUL byte.
  predicate BlurredAt(path: string, i: int) {
    0 <= i < |path| - 1 && path[i] == '/' && (path[i + 1] == '/' || path[i + 1] == '_')
  }

  predicate Clear(path: string) {
    '\0' !in path && forall i :: 0 <= i < |path| - 1 ==> !BlurredAt(path, i)
  }

  lemma {:induction false} EncodedIsSlashFree(path: string)
    ensures '/' !in Encoded(path)
    ensures '\0' in path <==> '\0' in Encoded(path)
  {
    if path != "" {
      EncodedIsSlashFree(path[1..]);
      assert path == [path[0]] + path[1..];
    }
  }

  lemma {:induction false} ScannedIsNulFree(id: string)
    ensures '\0' !in Scanned(id)
  {
    if id == "" {
    } else if |id| >= 2 && id[0] == '_' && id[1] == '_' {
      ScannedIsNulFree(id[2..]);
    } else {
      ScannedIsNulFree(id[1..]);
    }
  }

  lemma {:induction false} ScanUndoesEncode(path: string)
    requires Clear(path)
    ensures Scanned(Encoded(path)) == path
  {
    if path != "" {
      var c, rest := path[0], path[1..];
      assert path == [c] + rest;
      assert forall i :: 0 <= i < |rest| - 1 && BlurredAt(rest, i) ==> BlurredAt(path, i + 1);
      ScanUndoesEncode(rest);
      var id := Encoded(path);
      if c == '_' {
        assert id[2..] == Encoded(rest);
      } else {
        assert id[1..] == Encoded(rest);
        if c == '/' && rest != "" {
          assert !BlurredAt(path, 0);
          assert Encoded(rest)[0] == rest[0];
        }
      }
    }
  }

  // Encoding what was read back from a slash-free, NUL-free name gives the name again.
  lemma {:induction false} EncodeUndoesScan(id: string)
    requires '/' !in id && '\0' !in id
    ensures Encoded(Scanned(id)) == id
  {
    if id == "" {
    } else if |id| >= 2 && id[0] == '_' && id[1] == '_' {
      EncodeUndoesScan(id[2..]);
      assert Scanned(id)[1..] == Scanned(id[2..]);
      assert id == "__" + id[2..];
    } else {
      assert id[0] in id;
      EncodeUndoesScan(id[1..]);
      assert Scanned(id)[1..] == Scanned(id[1..]);
      assert id == [id[0]] + id[1..];
    }
  }

  // No reading of a name leaves a slash in front of an underscore or of another slash.
  lemma {:induction false} ScannedIsClear(id: string)
    requires '/' !in id && '\0' !in id
    ensures Clear(Scanned(id))
  {
    ScannedIsNulFree(id);
    if id == "" {
    } else if |id| >= 2 && id[0] == '_' && id[1] == '_' {
      ScannedIsClear(id[2..]);
      var s := Scanned(id);
      assert forall i :: 0 < i < |s| - 1 && BlurredAt(s, i) ==> BlurredAt(Scanned(id[2..]), i - 1);
    } else {
      ScannedIsClear(id[1..]);
      var s := Scanned(id);
      assert forall i :: 0 < i < |s| - 1 && BlurredAt(s, i) ==> BlurredAt(Scanned(id[1..]), i - 1);
      assert id[0] in id;
      if |id| >= 2 {
        assert id[1] in id;
        assert id[1..][0] == id[1];
      }
    }
  }

  /** Every id is a single directory name of at most 240 bytes, and it holds a NUL byte only if the path does. */
  lemma {:induction false} IdIsOneName(path: string, sha256: Digest)
    requires |sha256(path)| == 32
    ensures '/' !in ProjectID(path, sha256)
    ensures |ProjectID(path, sha256)| <= MAX_PROJECT_ID_LEN
    ensures '\0' !in path ==> '\0' !in ProjectID(path, sha256)
  {
    EncodedIsSlashFree(path);
  }

  /**
    Exactly which paths come back from their id, whatever the hash: those with no NUL byte, no slash followed by a
    slash or an underscore, and an encoding that needs no cutting.
  */
  lemma {:induction false} PathComesBackIff(path: string, sha256: Digest)
    requires |sha256(path)| == 32
    ensures ProjectIDToPath(ProjectID(path, sha256)) == path
       <==> Clear(path) && |Encoded(path)| <= MAX_PROJECT_ID_LEN
  {
    var id := ProjectID(path, sha256);
    DecodeScans(id);
    if Clear(path) && |Encoded(path)| <= MAX_PROJECT_ID_LEN {
      ScanUndoesEncode(path);
    }
    if Scanned(id) == path {
      ScannedIsNulFree(id);
      IdIsOneName(path, sha256);
      EncodeUndoesScan(id);
      ScannedIsClear(id);
    }
  }

  /** Exactly which names are the id of what they read as. */
  lemma {:induction false} IdComesBackIff(id: string, sha256: Digest)
    requires |sha256(ProjectIDToPath(id))| == 32
    ensures ProjectID(ProjectIDToPath(id), sha256) == id
       <==> '/' !in id && '\0' !in id && |id| <= MAX_PROJECT_ID_LEN
  {
    DecodeScans(id);
    if '/' !in id && '\0' !in id {
      EncodeUndoesScan(id);
    }
    ScannedIsNulFree(id);
    IdIsOneName(Scanned(id), sha256);
  }

  /** Two paths that come back never share a directory. */
  lemma {:induction false} ClearPathsNeverCollide(p: string, q: string, sha256: Digest)
    requires |sha256(p)| == 32 && |sha256(q)| == 32
    requires Clear(p) && |Encoded(p)| <= MAX_PROJECT_ID_LEN
    requires Clear(q) && |Encoded(q)| <= MAX_PROJECT_ID_LEN
    requires ProjectID(p, sha256) == ProjectID(q, sha256)
    ensures p == q
  {
    PathComesBackIff(p, sha256);
    PathComesBackIff(q, sha256);
  }

  /** Outside that domain two short, NUL-free paths can share one. */
  lemma {:induction false} BlurredPathsCollide(sha256: Digest)
    requires |sha256("a/_b")| == 32 && |sha256("a_/b")| == 32
    ensures ProjectID("a/_b", sha256) == ProjectID("a_/b", sha256) == "a___b"
  {
    EncodedSplit("a/", "_b");
    EncodedSplit("a_", "/b");
    assert Encoded("a/") == "a_" && Encoded("_b") == "__b";
    assert Encoded("a_") == "a__" && Encoded("/b") == "_b";
    assert "a/" + "_b" == "a/_b" && "a_" + "/b" == "a_/b";
  }

  /* ---- names that are cut ---- */

  // What a lower-case hexadecimal digit is worth, or 16.
  function DigitValue(c: char): int {
    if '0' <= c <= '9' then c as int - '0' as int else if 'a' <= c <= 'f' then c as int - 'a' as int + 10 else 16
  }

  lemma {:induction false} DigitReads(d: int)
    requires 0 <= d < 16
    ensures DigitValue(HexDigit(d)) == d
  {
    var s := "0123456789abcdef";
    assert s[d] == if d < 10 then '0' + d as char else 'a' + (d - 10) as char;
  }

  /** Two lower-case digits for every byte, the high one first. */
  lemma {:induction false} HexReads(bytes: seq<byte>, i: nat)
    requires i < |bytes|
    ensures var hi, lo := DigitValue(Hex(bytes)[2 * i]), DigitValue(Hex(bytes)[2 * i + 1]);
      hi < 16 && lo < 16 && 16 * hi + lo == bytes[i] as int
  {
    var b := bytes[0] as int;
    DigitReads(b / 16);
    DigitReads(b % 16);
    var head, rest := [HexDigit(b / 16), HexDigit(b % 16)], Hex(bytes[1..]);
    assert Hex(bytes) == head + rest;
    if i > 0 {
      HexReads(bytes[1..], i - 1);
      assert (head + rest)[2 * i] == rest[2 * (i - 1)] && (head + rest)[2 * i + 1] == rest[2 * (i - 1) + 1];
    }
  }

  lemma {:induction false} HexTells(a: seq<byte>, b: seq<byte>)
    requires |a| == |b| && Hex(a) == Hex(b)
    ensures a == b
  {
    forall i | 0 <= i < |a| ensures a[i] == b[i] {
      HexReads(a, i);
      HexReads(b, i);
    }
  }

  /** Two paths that are both cut share an id exactly if their encodings start alike and so do their digests. */
  lemma {:induction false} CutIdsShareIff(a: string, b: string, sha256: Digest)
    requires |sha256(a)| == 32 && |sha256(b)| == 32 && |Encoded(a)| > 240 && |Encoded(b)| > 240
    ensures ProjectID(a, sha256) == ProjectID(b, sha256)
       <==> Encoded(a)[..231] == Encoded(b)[..231] && sha256(a)[..4] == sha256(b)[..4]
  {
    var x, y, h, k := Encoded(a)[..231], Encoded(b)[..231], Hex(sha256(a)[..4]), Hex(sha256(b)[..4]);
    var ia, ib := ProjectID(a, sha256), ProjectID(b, sha256);
    assert ia == x + ("_" + h) && ib == y + ("_" + k);
    assert ia[..231] == x && ib[..231] == y && ia[232..] == h && ib[232..] == k;
    if ia == ib { HexTells(sha256(a)[..4], sha256(b)[..4]); }
  }
}
