/**
  The command-line fragment a supervisor is given for its sub-runs (cmd/code.go, buildSubRunArgs) and the quoting
  it uses for paths (cmd/runner_overrides.go, shellQuoteSingle).
*/
module SubRunArgs {
  import opened Common
  import opened GoStrings
  import opened ShellWords

  const ESCAPED_QUOTE := "'\\''"

  function ShellQuoteSingle(s: string): string {
    "'" + ReplaceAll(s, "'", ESCAPED_QUOTE) + "'"
  }

  // The escape leaves the quotes, adds one, and comes back in.
  lemma {:induction false} ReadEscapedQuote(tail: string, text: string)
    ensures Read(ESCAPED_QUOTE + tail, InQuote(text)) == Read(tail, InQuote(text + "'"))
  {
    var s0, s1, s3 := ESCAPED_QUOTE + tail, "\\''" + tail, "'" + tail;
    assert s0[0] == '\'' && s0[1..] == s1;
    assert s1[0] == '\\' && s1[1..][0] == '\'' && s1[1..][1..] == s3;
    assert s3[0] == '\'' && s3[1..] == tail;
    assert Read(s0, InQuote(text)) == Read(s1, InWord(text));
    assert Read(s1, InWord(text)) == Read(s3, InWord(text + ['\'']));
    assert Read(s3, InWord(text + ['\''])) == Read(tail, InQuote(text + ['\'']));
    assert text + ['\''] == text + "'";
  }

  lemma ReadOne(c: char, tail: string, text: string)
    ensures c != '\'' ==> Read([c] + tail, InQuote(text)) == Read(tail, InQuote(text + [c]))
    ensures Read("'" + tail, InQuote(text)) == Read(tail, InWord(text))
  {
    assert ([c] + tail)[1..] == tail && ("'" + tail)[1..] == tail;
  }

  // From inside the quotes, the escaped text and the closing quote give the text.
  lemma {:induction false} ReadEscaped(s: string, rest: string, text: string)
    ensures Read(ReplaceAll(s, "'", ESCAPED_QUOTE) + "'" + rest, InQuote(text)) == Read(rest, InWord(text + s))
  {
    hide Read;
    if s == "" {
      ReadOne(' ', rest, text);
      assert "" + "'" + rest == "'" + rest && text + s == text;
    } else {
      var c, more := s[0], s[1..];
      var tail := ReplaceAll(more, "'", ESCAPED_QUOTE) + "'" + rest;
      assert s[..1] == [c];
      assert text + [c] + more == text + s;
      ReadEscaped(more, rest, text + [c]);
      if c == '\'' {
        ReadEscapedQuote(tail, text);
        assert ReplaceAll(s, "'", ESCAPED_QUOTE) + "'" + rest == ESCAPED_QUOTE + tail;
      } else {
        ReadOne(c, tail, text);
        assert ReplaceAll(s, "'", ESCAPED_QUOTE) + "'" + rest == [c] + tail;
      }
    }
  }

  /** Wherever a shell stands outside quotes, a quoted text is read as that text, whatever it holds and whatever
      comes before or after it. */
  lemma {:induction false} QuotedReadsBack(s: string, rest: string, m: Mode)
    requires !m.InQuote?
    ensures Read(ShellQuoteSingle(s) + rest, m) == Read(rest, InWord(Text(m) + s))
  {
    ReadEscaped(s, rest, Text(m));
    assert ShellQuoteSingle(s) + rest == "'" + (ReplaceAll(s, "'", ESCAPED_QUOTE) + "'" + rest);
  }

  /** On its own it is that one word, the empty one included. */
  lemma {:induction false} QuotedIsOneWord(s: string)
    ensures Words(ShellQuoteSingle(s)) == Some([s])
  {
    QuotedReadsBack(s, "", Between);
    assert ShellQuoteSingle(s) + "" == ShellQuoteSingle(s) && "" + s == s;
  }

  // The fields of CodeOptions that reach a sub-run.
  datatype CodeOptions = CodeOptions(agent: string, cheaperModel: bool, containerName: string, effort: string,
                                     model: string, maxBudgetUSD: string, maxBudgetBatch: string)

  // A word of the fragment, written as it is or in quotes.
  datatype Part = Raw(word: string) | Quoted(word: string)

  function Written(p: Part): string {
    match p
    case Raw(word) => word
    case Quoted(word) => ShellQuoteSingle(word)
  }

  function WrittenAll(ps: seq<Part>): (r: seq<string>)
    ensures |r| == |ps| && forall i :: 0 <= i < |ps| ==> r[i] == Written(ps[i])
  {
    if ps == [] then [] else [Written(ps[0])] + WrittenAll(ps[1..])
  }

  function Meant(ps: seq<Part>): (r: seq<string>)
    ensures |r| == |ps| && forall i :: 0 <= i < |ps| ==> r[i] == ps[i].word
  {
    if ps == [] then [] else [ps[0].word] + Meant(ps[1..])
  }

  predicate Readable(p: Part) { p.Raw? ==> PlainWord(p.word) }

  /** A line of such words, one space apart, is read as those words. */
  lemma {:induction false} LineReadsBack(ps: seq<Part>)
    requires forall p <- ps :: Readable(p)
    ensures Words(Join(WrittenAll(ps), " ")) == Some(Meant(ps))
  {
    if ps != [] {
      var p, more := ps[0], ps[1..];
      var rest := if more == [] then "" else " " + Join(WrittenAll(more), " ");
      assert p in ps;
      assert WrittenAll(ps)[1..] == WrittenAll(more);
      assert Join(WrittenAll(ps), " ") == Written(p) + rest;
      if p.Raw? {
        ReadPlain(p.word, rest, Between);
      } else {
        QuotedReadsBack(p.word, rest, Between);
      }
      assert "" + p.word == p.word;
      LineReadsBack(more);
      assert Read(Join(WrittenAll(ps), " "), Between) == Read(rest, InWord(p.word));
      if more == [] {
        assert Meant(ps) == [p.word];
      } else {
        assert rest[1..] == Join(WrittenAll(more), " ");
        assert Blank(rest[0]);
      }
    }
  }

  // The options of the command line that are passed on.
  datatype Flag = Agent | Profile | CheaperModel | ContainerName | Effort | Model | MaxBudget | MaxBudgetBatch
                | Project | Org | WorkDir

  function Name(flag: Flag): string {
    match flag
    case Agent => "--agent"
    case Profile => "--profile"
    case CheaperModel => "--cheaper-model"
    case ContainerName => "--container-name"
    case Effort => "--effort"
    case Model => "--model"
    case MaxBudget => "--max-budget-usd"
    case MaxBudgetBatch => "--max-budget-usd-batch"
    case Project => "--project"
    case Org => "--org"
    case WorkDir => "--work-dir"
  }

  // --flag value, when there is a value.
  function Given(flag: Flag, value: string): seq<Part> {
    if value == "" then [] else [Raw(Name(flag)), Raw(value)]
  }

  function GivenPath(flag: Flag, value: string): seq<Part> {
    if value == "" then [] else [Raw(Name(flag)), Quoted(value)]
  }

  function Flat(groups: seq<seq<Part>>): seq<Part> {
    if groups == [] then [] else Flat(groups[..|groups| - 1]) + groups[|groups| - 1]
  }

  // The words of the fragment, in order; an agent makes the profile moot.
  function SubRunParts(opts: CodeOptions, subRunProfile: string, sourceDir: string, orgPath: string,
                       workDir: string): seq<seq<Part>>
  {
    [if opts.agent != "" then Given(Agent, opts.agent) else Given(Profile, subRunProfile),
     if opts.cheaperModel then [Raw(Name(CheaperModel))] else [],
     Given(ContainerName, opts.containerName),
     Given(Effort, opts.effort),
     Given(Model, opts.model),
     Given(MaxBudget, opts.maxBudgetUSD),
     Given(MaxBudgetBatch, opts.maxBudgetBatch),
     GivenPath(Project, sourceDir),
     GivenPath(Org, orgPath),
     GivenPath(WorkDir, workDir)]
  }

  predicate PlainField(value: string) { value == "" || PlainWord(value) }

  // The unquoted values in use are words a shell takes as they are.
  predicate PlainFields(opts: CodeOptions, subRunProfile: string) {
    && (if opts.agent != "" then PlainField(opts.agent) else PlainField(subRunProfile))
    && PlainField(opts.containerName)
    && PlainField(opts.effort)
    && PlainField(opts.model)
    && PlainField(opts.maxBudgetUSD)
    && PlainField(opts.maxBudgetBatch)
  }

  predicate AllReadable(ps: seq<Part>) { forall p <- ps :: Readable(p) }

  lemma {:induction false} FlatReadable(groups: seq<seq<Part>>)
    requires forall g <- groups :: AllReadable(g)
    ensures AllReadable(Flat(groups))
  {
    if groups != [] {
      FlatReadable(groups[..|groups| - 1]);
      assert groups[|groups| - 1] in groups;
    }
  }

  lemma {:induction false} FlagReadable(flag: Flag, value: string)
    ensures AllReadable(GivenPath(flag, value))
    ensures PlainField(value) ==> AllReadable(Given(flag, value))
  {
    hide Name;
    NameIsPlain(flag);
  }

  lemma {:induction false} NameIsPlain(flag: Flag)
    ensures PlainWord(Name(flag))
  {
    hide Plain;
    forall c | c in "-abcdefghijklmnopqrstuvwxyz" ensures Plain(c) {
      LettersArePlain(c);
    }
    match flag {
      case Agent => case Profile => case CheaperModel => case ContainerName => case Effort => case Model =>
      case MaxBudget => case MaxBudgetBatch => case Project => case Org => case WorkDir =>
    }
  }

  lemma {:induction false} LettersArePlain(c: char)
    requires c == '-' || 'a' <= c <= 'z'
    ensures Plain(c)
  {
  }

  lemma {:induction false} PartsReadable(opts: CodeOptions, subRunProfile: string, sourceDir: string,
                                         orgPath: string, workDir: string)
    requires PlainFields(opts, subRunProfile)
    ensures AllReadable(Flat(SubRunParts(opts, subRunProfile, sourceDir, orgPath, workDir)))
  {
    hide Flat, PlainWord, AllReadable, Name, Given, GivenPath;
    var groups := SubRunParts(opts, subRunProfile, sourceDir, orgPath, workDir);
    FlagReadable(Agent, opts.agent);
    FlagReadable(Profile, subRunProfile);
    assert AllReadable(groups[1]) by { CheaperReadable(); }
    FlagReadable(ContainerName, opts.containerName);
    FlagReadable(Effort, opts.effort);
    FlagReadable(Model, opts.model);
    FlagReadable(MaxBudget, opts.maxBudgetUSD);
    FlagReadable(MaxBudgetBatch, opts.maxBudgetBatch);
    FlagReadable(Project, sourceDir);
    FlagReadable(Org, orgPath);
    FlagReadable(WorkDir, workDir);
    FlatReadable(groups);
  }

  lemma {:induction false} CheaperReadable()
    ensures AllReadable([Raw(Name(CheaperModel))]) && AllReadable([])
  {
    NameIsPlain(CheaperModel);
  }

  lemma {:induction false} FlagWritten(flag: Flag, value: string)
    ensures WrittenAll(Given(flag, value)) == if value == "" then [] else [Name(flag), value]
    ensures WrittenAll(GivenPath(flag, value)) == if value == "" then [] else [Name(flag), ShellQuoteSingle(value)]
  {
    hide ShellQuoteSingle;
  }

  lemma {:induction false} CheaperWritten()
    ensures WrittenAll([Raw(Name(CheaperModel))]) == [Name(CheaperModel)] && WrittenAll([]) == []
  {
  }

  /** A shell reads the fragment as the options given, in order. */
  lemma {:induction false} FragmentReadsBack(opts: CodeOptions, subRunProfile: string, sourceDir: string,
                                             orgPath: string, workDir: string)
    requires PlainFields(opts, subRunProfile)
    ensures var ps := Flat(SubRunParts(opts, subRunProfile, sourceDir, orgPath, workDir));
            Words(Join(WrittenAll(ps), " ")) == Some(Meant(ps))
  {
    hide *;
    PartsReadable(opts, subRunProfile, sourceDir, orgPath, workDir);
    var ps := Flat(SubRunParts(opts, subRunProfile, sourceDir, orgPath, workDir));
    AllAreReadable(ps);
    LineReadsBack(ps);
  }

  lemma {:induction false} AllAreReadable(ps: seq<Part>)
    requires AllReadable(ps)
    ensures forall p <- ps :: Readable(p)
  {
  }

  // What is written once k groups are done.
  function WrittenUpTo(groups: seq<seq<Part>>, k: nat): seq<string>
    requires k <= |groups|
  {
    WrittenAll(Flat(groups[..k]))
  }

  lemma {:induction false} WrittenNext(groups: seq<seq<Part>>, k: nat)
    requires k < |groups|
    ensures WrittenUpTo(groups, 0) == []
    ensures WrittenUpTo(groups, k + 1) == WrittenUpTo(groups, k) + WrittenAll(groups[k])
  {
    assert groups[..k + 1][..k] == groups[..k];
    assert Flat(groups[..k + 1]) == Flat(groups[..k]) + groups[k];
  }

  // An optional flag and its value go to the end of what was written before.
  lemma {:induction false} Put(groups: seq<seq<Part>>, k: nat, was: seq<string>, flag: Flag, value: string,
                               path: bool, parts: seq<string>)
    requires k < |groups| && groups[k] == if path then GivenPath(flag, value) else Given(flag, value)
    requires was == WrittenUpTo(groups, k)
    requires value == "" ==> parts == was
    requires value != "" ==> parts == was + [Name(flag), if path then ShellQuoteSingle(value) else value]
    ensures parts == WrittenUpTo(groups, k + 1)
  {
    hide Name, Given, GivenPath, ShellQuoteSingle, WrittenUpTo, WrittenAll;
    WrittenNext(groups, k);
    FlagWritten(flag, value);
  }

  lemma {:induction false} AllWritten(groups: seq<seq<Part>>)
    ensures WrittenUpTo(groups, |groups|) == WrittenAll(Flat(groups))
  {
    assert groups[..|groups|] == groups;
  }

  /** The fragment, and what a shell makes of it: the options as given, every path as one word however it is
      spelt. */
  method BuildSubRunArgs(opts: CodeOptions, subRunProfile: string, sourceDir: string, orgPath: string,
                         workDir: string) returns (args: string)
    ensures var ps := Flat(SubRunParts(opts, subRunProfile, sourceDir, orgPath, workDir));
            && args == Join(WrittenAll(ps), " ")
            && (PlainFields(opts, subRunProfile) ==> Words(args) == Some(Meant(ps)))
  {
    hide Flat, Name, Given, GivenPath, Written, WrittenAll, WrittenUpTo, Join, Words, Meant, PlainFields, ShellQuoteSingle;
    ghost var groups := SubRunParts(opts, subRunProfile, sourceDir, orgPath, workDir);
    var parts: seq<string> := [];
    if opts.agent != "" {
      parts := parts + [Name(Agent), opts.agent];
    } else if subRunProfile != "" {
      parts := parts + [Name(Profile), subRunProfile];
    }
    assert parts == WrittenUpTo(groups, 1) by {
      WrittenNext(groups, 0);
      FlagWritten(Agent, opts.agent);
      FlagWritten(Profile, subRunProfile);
    }
    if opts.cheaperModel {
      parts := parts + [Name(CheaperModel)];
    }
    assert parts == WrittenUpTo(groups, 2) by {
      WrittenNext(groups, 1);
      CheaperWritten();
    }
    ghost var was := parts;
    if opts.containerName != "" {
      parts := parts + [Name(ContainerName), opts.containerName];
    }
    Put(groups, 2, was, ContainerName, opts.containerName, false, parts);
    was := parts;
    if opts.effort != "" {
      parts := parts + [Name(Effort), opts.effort];
    }
    Put(groups, 3, was, Effort, opts.effort, false, parts);
    was := parts;
    if opts.model != "" {
      parts := parts + [Name(Model), opts.model];
    }
    Put(groups, 4, was, Model, opts.model, false, parts);
    was := parts;
    if opts.maxBudgetUSD != "" {
      parts := parts + [Name(MaxBudget), opts.maxBudgetUSD];
    }
    Put(groups, 5, was, MaxBudget, opts.maxBudgetUSD, false, parts);
    was := parts;
    if opts.maxBudgetBatch != "" {
      parts := parts + [Name(MaxBudgetBatch), opts.maxBudgetBatch];
    }
    Put(groups, 6, was, MaxBudgetBatch, opts.maxBudgetBatch, false, parts);
    was := parts;
    if sourceDir != "" {
      parts := parts + [Name(Project), ShellQuoteSingle(sourceDir)];
    }
    Put(groups, 7, was, Project, sourceDir, true, parts);
    was := parts;
    if orgPath != "" {
      parts := parts + [Name(Org), ShellQuoteSingle(orgPath)];
    }
    Put(groups, 8, was, Org, orgPath, true, parts);
    was := parts;
    if workDir != "" {
      parts := parts + [Name(WorkDir), ShellQuoteSingle(workDir)];
    }
    Put(groups, 9, was, WorkDir, workDir, true, parts);
    AllWritten(groups);
    args := Join(parts, " ");
    if PlainFields(opts, subRunProfile) {
      FragmentReadsBack(opts, subRunProfile, sourceDir, orgPath, workDir);
    }
  }

  // An option with its value, if there is one.
  function OptionWords(name: string, value: string): seq<string> { if value == "" then [] else [name, value] }

  /** What a shell hands to the sub-run: each option that is set, under its own name and in this order. */
  lemma {:induction false} OptionsSpelled(opts: CodeOptions, subRunProfile: string, sourceDir: string, orgPath: string,
                                          workDir: string)
    ensures Meant(Flat(SubRunParts(opts, subRunProfile, sourceDir, orgPath, workDir)))
         == (if opts.agent != "" then ["--agent", opts.agent] else OptionWords("--profile", subRunProfile))
          + (if opts.cheaperModel then ["--cheaper-model"] else [])
          + OptionWords("--container-name", opts.containerName) + OptionWords("--effort", opts.effort) + OptionWords("--model", opts.model)
          + OptionWords("--max-budget-usd", opts.maxBudgetUSD) + OptionWords("--max-budget-usd-batch", opts.maxBudgetBatch)
          + OptionWords("--project", sourceDir) + OptionWords("--org", orgPath) + OptionWords("--work-dir", workDir)
  {
    var groups := SubRunParts(opts, subRunProfile, sourceDir, orgPath, workDir);
    forall flag: Flag, value ensures Meant(Given(flag, value)) == OptionWords(Name(flag), value) == Meant(GivenPath(flag, value)) {
      FlagMeant(flag, value);
    }
    CheaperMeant();
    hide Given, GivenPath, Meant;
    MeantFlat(groups);
    TenGroups(groups);
  }

  lemma {:induction false} FlagMeant(flag: Flag, value: string)
    ensures Meant(Given(flag, value)) == OptionWords(Name(flag), value) == Meant(GivenPath(flag, value))
  {
    hide Name;
  }

  lemma {:induction false} CheaperMeant()
    ensures Meant([Raw(Name(CheaperModel))]) == ["--cheaper-model"] && Meant([]) == []
  {
  }

  function MeantGroups(groups: seq<seq<Part>>): seq<string> {
    if groups == [] then [] else MeantGroups(groups[..|groups| - 1]) + Meant(groups[|groups| - 1])
  }

  lemma {:induction false} MeantConcat(a: seq<Part>, b: seq<Part>)
    ensures Meant(a + b) == Meant(a) + Meant(b)
  {
  }

  lemma {:induction false} MeantFlat(groups: seq<seq<Part>>)
    ensures Meant(Flat(groups)) == MeantGroups(groups)
  {
    if groups != [] {
      MeantFlat(groups[..|groups| - 1]);
      MeantConcat(Flat(groups[..|groups| - 1]), groups[|groups| - 1]);
    }
  }

  lemma {:induction false} MeantNext(groups: seq<seq<Part>>, k: nat, sofar: seq<string>)
    requires k < |groups| && MeantGroups(groups[..k]) == sofar
    ensures MeantGroups(groups[..k + 1]) == sofar + Meant(groups[k])
  {
    assert groups[..k + 1][..k] == groups[..k];
  }

  lemma {:induction false} TenGroups(g: seq<seq<Part>>)
    requires |g| == 10
    ensures MeantGroups(g) == Meant(g[0]) + Meant(g[1]) + Meant(g[2]) + Meant(g[3]) + Meant(g[4]) + Meant(g[5]) + Meant(g[6])
                              + Meant(g[7]) + Meant(g[8]) + Meant(g[9])
  {
    assert MeantGroups(g[..0]) == [] && g[..10] == g;
    MeantNext(g, 0, []);
    hide *;
    var s := Meant(g[0]);
    assert [] + s == s;
    MeantNext(g, 1, s);
    s := s + Meant(g[1]);
    MeantNext(g, 2, s);
    s := s + Meant(g[2]);
    MeantNext(g, 3, s);
    s := s + Meant(g[3]);
    MeantNext(g, 4, s);
    s := s + Meant(g[4]);
    MeantNext(g, 5, s);
    s := s + Meant(g[5]);
    MeantNext(g, 6, s);
    s := s + Meant(g[6]);
    MeantNext(g, 7, s);
    s := s + Meant(g[7]);
    MeantNext(g, 8, s);
    s := s + Meant(g[8]);
    MeantNext(g, 9, s);
  }
}
