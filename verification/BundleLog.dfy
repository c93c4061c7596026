/** internal/flow/reporters_bundle_log.go: one bundle.jsonl per exec, fed by
    bundles that report at the same time. */
module BundleLog {
  import opened Common
  import opened FlowBundle
  import opened FlowMeaning
  import opened FlowMachine
  import opened FlowRefinement
  import opened FlowLaws

  // A bundle that has started and not ended: its lines so far, until its file is open.
  datatype Entry = Entry(buffer: seq<What>, file: Option<string>)

  datatype Log = Log(bundles: map<string, Entry>, files: map<string, seq<What>>)

  /** The events that become lines. */
  predicate IsLine(w: What) {
    w.BundleStart? || w.BundleEnd? || w.ActionStart? || w.ActionEnd? || w.AgentExecStart? || w.AgentExecEnd?
  }

  function Lines(ws: seq<What>): seq<What> {
    if ws == [] then [] else Lines(ws[..|ws| - 1]) + if IsLine(ws[|ws| - 1]) then [ws[|ws| - 1]] else []
  }

  function Contents(files: map<string, seq<What>>, path: string): seq<What> {
    if path in files then files[path] else []
  }

  /** write: to the file once it is open, to the buffer before; an unknown bundle is ignored. */
  function Append(l: Log, name: string, w: What): Log {
    if name !in l.bundles then l
    else
      var st := l.bundles[name];
      match st.file
      case None => l.(bundles := l.bundles[name := st.(buffer := st.buffer + [w])])
      case Some(path) => l.(files := l.files[path := Contents(l.files, path) + [w]])
  }

  /** What the reporter does with one event of the named bundle, whose log file is
      at path; every open and write succeeds. */
  function Tell(l: Log, name: string, path: string, w: What): Log {
    match w
    case BundleStart(_, _) => Append(l.(bundles := l.bundles[name := Entry([], None)]), name, w)
    case AgentExecStart =>
      if name !in l.bundles then l.(files := l.files[path := Contents(l.files, path)])
      else
        Log(l.bundles[name := Entry([], Some(path))], l.files[path := Contents(l.files, path) + l.bundles[name].buffer + [w]])
    case BundleEnd(_) =>
      if name !in l.bundles then l
      else
        var st := l.bundles[name];
        Log(l.bundles - {name}, if st.file.None? then l.files else l.files[st.file.value := Contents(l.files, st.file.value) + [w]])
    case _ => if IsLine(w) then Append(l, name, w) else l
  }

  class BundleLogReporter {
    var bundles: map<string, Entry>
    var files: map<string, seq<What>>

    function View(): Log
      reads this
    {
      Log(bundles, files)
    }

    constructor ()
      ensures View() == Log(map[], map[])
    {
      bundles, files := map[], map[];
    }

    method Write(name: string, w: What)
      modifies this
      ensures View() == Append(old(View()), name, w)
    {
      if name !in bundles { return; }
      var st := bundles[name];
      match st.file
      case None => bundles := bundles[name := st.(buffer := st.buffer + [w])];
      case Some(path) => files := files[path := Contents(files, path) + [w]];
    }

    method BundleStart(name: string, w: What)
      requires w.BundleStart?
      modifies this
      ensures View() == Tell(old(View()), name, "", w)
    {
      bundles := bundles[name := Entry([], None)];
      Write(name, w);
    }

    /** Open the file, flush the buffer line by line, then write. */
    method AgentExecStart(name: string, path: string)
      modifies this
      ensures View() == Tell(old(View()), name, path, FlowBundle.AgentExecStart)
    {
      if path !in files { files := files[path := []]; }
      if name !in bundles { return; }
      var buffer := bundles[name].buffer;
      ghost var before := files[path];
      ghost var fs := files;
      assert before + buffer[..0] == before && fs[path := before] == fs;
      var i := 0;
      while i < |buffer|
        invariant i <= |buffer| && bundles == old(bundles)
        invariant path in files && files == fs[path := before + buffer[..i]]
      {
        files := files[path := files[path] + [buffer[i]]];
        assert before + buffer[..i] + [buffer[i]] == before + buffer[..i + 1];
        i := i + 1;
      }
      assert buffer[..i] == buffer;
      bundles := bundles[name := Entry([], Some(path))];
      Write(name, FlowBundle.AgentExecStart);
    }

    /** ActionStart, ActionEnd and AgentExecEnd. */
    method Event(name: string, w: What)
      requires w.ActionStart? || w.ActionEnd? || w.AgentExecEnd?
      modifies this
      ensures View() == Tell(old(View()), name, "", w)
    {
      Write(name, w);
    }

    method BundleEnd(name: string, w: What)
      requires w.BundleEnd?
      modifies this
      ensures View() == Tell(old(View()), name, "", w)
    {
      if name !in bundles { return; }
      var st := bundles[name];
      bundles := bundles - {name};
      if st.file.Some? { files := files[st.file.value := Contents(files, st.file.value) + [w]]; }
    }
  }

  /* ---- any interleaving ---- */

  datatype Note = Note(name: string, what: What)

  function TellAll(notes: seq<Note>, path: string -> string): Log {
    if notes == [] then Log(map[], map[])
    else
      var n := notes[|notes| - 1];
      Tell(TellAll(notes[..|notes| - 1], path), n.name, path(n.name), n.what)
  }

  /** One bundle's own events, in order. */
  function Of(notes: seq<Note>, name: string): seq<What> {
    if notes == [] then []
    else Of(notes[..|notes| - 1], name) + if notes[|notes| - 1].name == name then [notes[|notes| - 1].what] else []
  }

  /** A bundle starts once, first, and ends once, last, if at all. */
  ghost predicate Proper(ws: seq<What>) {
    forall i | 0 <= i < |ws| :: (ws[i].BundleStart? <==> i == 0) && (ws[i].BundleEnd? ==> i == |ws| - 1)
  }

  predicate Executing(ws: seq<What>) {
    exists i | 0 <= i < |ws| :: ws[i].AgentExecStart?
  }

  predicate Ended(ws: seq<What>) {
    ws != [] && ws[|ws| - 1].BundleEnd?
  }

  /** What the reporter knows of a bundle that has reported ws. */
  ghost predicate Knows(l: Log, name: string, path: string, ws: seq<What>) {
    && (if ws == [] || Ended(ws) then name !in l.bundles
        else name in l.bundles
             && l.bundles[name] == if Executing(ws) then Entry([], Some(path)) else Entry(Lines(ws), None))
    && (if Executing(ws) then path in l.files && l.files[path] == Lines(ws) else path !in l.files)
  }

  lemma LinesSnoc(ws: seq<What>, w: What)
    ensures Lines(ws + [w]) == Lines(ws) + if IsLine(w) then [w] else []
    ensures Executing(ws + [w]) <==> Executing(ws) || w.AgentExecStart?
  {
    assert (ws + [w])[..|ws|] == ws;
    if Executing(ws) {
      var i :| 0 <= i < |ws| && ws[i].AgentExecStart?;
      assert (ws + [w])[i].AgentExecStart?;
    }
    if w.AgentExecStart? { assert (ws + [w])[|ws|].AgentExecStart?; }
  }

  lemma OwnEvent(l: Log, name: string, path: string, ws: seq<What>, w: What)
    requires Proper(ws + [w]) && Knows(l, name, path, ws)
    ensures Knows(Tell(l, name, path, w), name, path, ws + [w])
  {
    LinesSnoc(ws, w);
    assert (ws + [w])[|ws|] == w;
    if ws != [] { assert (ws + [w])[|ws| - 1] == ws[|ws| - 1]; }
    hide Executing;
    if ws == [] { NothingYet(); }
  }

  lemma NothingYet()
    ensures Lines([]) == [] && !Executing([])
  {
  }

  lemma OtherEvent(l: Log, name: string, path: string, ws: seq<What>, other: string, otherPath: string, w: What)
    requires other != name && otherPath != path && Knows(l, name, path, ws)
    requires other in l.bundles && l.bundles[other].file.Some? ==> l.bundles[other].file.value != path
    ensures Knows(Tell(l, other, otherPath, w), name, path, ws)
  {
  }

  /** An open file is its own bundle's. */
  lemma {:induction false} FilesAreOwn(notes: seq<Note>, path: string -> string)
    ensures forall n | n in TellAll(notes, path).bundles && TellAll(notes, path).bundles[n].file.Some? ::
              TellAll(notes, path).bundles[n].file.value == path(n)
  {
    if notes != [] { FilesAreOwn(notes[..|notes| - 1], path); }
  }

  lemma {:induction false} ProperPrefix(ws: seq<What>, w: What)
    requires Proper(ws + [w])
    ensures Proper(ws)
  {
    forall i | 0 <= i < |ws| ensures (ws[i].BundleStart? <==> i == 0) && (ws[i].BundleEnd? ==> i == |ws| - 1) {
      assert (ws + [w])[i] == ws[i];
    }
  }

  /** Whatever the other bundles do: a bundle that has reached the agent has a file
      with exactly its own lines in the order it reported them, buffered or not;
      one that has not has written nothing. */
  lemma {:induction false} LogIsOwnEvents(notes: seq<Note>, path: string -> string, name: string)
    requires forall n | n in notes && n.name != name :: path(n.name) != path(name)
    requires Proper(Of(notes, name))
    ensures Knows(TellAll(notes, path), name, path(name), Of(notes, name))
  {
    if notes == [] {
      NothingYet();
    } else {
      var n, rest := notes[|notes| - 1], notes[..|notes| - 1];
      var ws := Of(rest, name);
      if n.name == name {
        ProperPrefix(ws, n.what);
        LogIsOwnEvents(rest, path, name);
        OwnEvent(TellAll(rest, path), name, path(name), ws, n.what);
      } else {
        assert ws + [] == ws;
        LogIsOwnEvents(rest, path, name);
        FilesAreOwn(rest, path);
        OtherEvent(TellAll(rest, path), name, path(name), ws, n.name, path(n.name), n.what);
      }
    }
  }

  /* ---- on the engine's schedules ---- */

  /** The notes a run's events are to the reporter: what a bundle reports, under its name. */
  function NotesOf(s: Step, es: seq<Event>): seq<Note> {
    if es == [] then []
    else
      var e := es[|es| - 1];
      var at := StepAt(s, e.at);
      NotesOf(s, es[..|es| - 1]) + if at.Some? && at.value.Leaf? then [Note(at.value.bundle.name, e.what)] else []
  }

  /** No two bundles of the tree share a name. */
  ghost predicate UniqueNames(s: Step) {
    forall a, b | StepAt(s, a).Some? && StepAt(s, b).Some? && StepAt(s, a).value.Leaf? && StepAt(s, b).value.Leaf?
                  && StepAt(s, a).value.bundle.name == StepAt(s, b).value.bundle.name :: a == b
  }

  lemma {:induction false} NotesAreAt(s: Step, es: seq<Event>, a: Addr)
    requires UniqueNames(s) && StepAt(s, a).Some? && StepAt(s, a).value.Leaf?
    ensures Of(NotesOf(s, es), StepAt(s, a).value.bundle.name) == At(es, a)
  {
    hide At, StepAt;
    if es == [] {
      assert At(es, a) == [] by { EmptyAt(a); }
    } else {
      var n := |es| - 1;
      var e, name := es[n], StepAt(s, a).value.bundle.name;
      NotesAreAt(s, es[..n], a);
      assert es == es[..n] + [e];
      AtLast(es[..n], e, a);
      var before, at := NotesOf(s, es[..n]), StepAt(s, e.at);
      if at.Some? && at.value.Leaf? {
        OfSnoc(before, Note(at.value.bundle.name, e.what), name);
      } else {
        assert NotesOf(s, es) == before + [] == before;
      }
    }
  }

  lemma EmptyAt(a: Addr)
    ensures At([], a) == []
  {
  }

  lemma AtLast(es: seq<Event>, e: Event, a: Addr)
    ensures At(es + [e], a) == At(es, a) + (if e.at == a then [e.what] else [])
    ensures At(es, a) + [] == At(es, a)
  {
    AtConcat(es, [e], a);
    assert [e][1..] == [];
  }

  lemma OfSnoc(notes: seq<Note>, n: Note, name: string)
    ensures Of(notes + [n], name) == Of(notes, name) + if n.name == name then [n.what] else []
  {
    assert (notes + [n])[..|notes|] == notes;
  }

  lemma WholeRunIsProper(b: Bundle, env: Env, db: bool)
    ensures Proper(BundleTrace(b, env, db))
  {
    var t := BundleTrace(b, env, db);
    forall i | 0 <= i < |t| ensures (t[i].BundleStart? <==> i == 0) && (t[i].BundleEnd? ==> i == |t| - 1) {
      BundleBrackets(b, env, db, i);
    }
  }

  /** On every schedule of a tree of uniquely named bundles: a bundle that reached
      its agent has a bundle.jsonl holding exactly its own events in order; any
      other has none. */
  lemma LogOnEverySchedule(s: Step, env: Env, db: bool, cs: seq<Choice>, spent: real, a: Addr, path: string -> string)
    requires UniqueNames(s) && Finished(RunOf(Start(s, env, db), cs, db, spent).proc)
    requires StepAt(s, a).Some? && StepAt(s, a).value.Leaf?
    requires forall m, n: string | m != n :: path(m) != path(n)
    ensures var tr := RunOf(Start(s, env, db), cs, db, spent).trace;
      var files, p := TellAll(NotesOf(s, tr), path).files, path(StepAt(s, a).value.bundle.name);
      if Executing(At(tr, a)) then p in files && files[p] == Lines(At(tr, a)) else p !in files
  {
    hide At, StepAt, RunOf, Start, TellAll, NotesOf, Lines, Executing, StageTrace, Finished;
    var tr, b := RunOf(Start(s, env, db), cs, db, spent).trace, StepAt(s, a).value.bundle;
    RunLegal(s, env, db, cs, spent, a);
    if At(tr, a) != [] {
      var e :| At(tr, a) == BundleTrace(b, e, db);
      WholeRunIsProper(b, e, db);
    }
    NotesAreAt(s, tr, a);
    LogIsOwnEvents(NotesOf(s, tr), path, b.name);
  }

  /** Which events a log file holds: how the bundle and each of its hooks started and ended, and when the agent did. */
  lemma {:induction false} LinesTell(ws: seq<What>, w: What)
    ensures w in Lines(ws) <==> w in ws && match w
      case BundleStart(_, _) => true
      case BundleEnd(_) => true
      case ActionStart(_, _) => true
      case ActionEnd(_, _, _) => true
      case AgentExecStart => true
      case AgentExecEnd(_) => true
      case _ => false
  {
    if ws != [] {
      LinesTell(ws[..|ws| - 1], w);
      assert ws == ws[..|ws| - 1] + [ws[|ws| - 1]];
    }
  }
}
