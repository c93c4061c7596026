/** internal/container/docker_exec.go: clones of a container the user manages. */
module DockerExecContainer {
  import opened Common
  import opened GoHeap

  // KeyedPrepareGuard; only its identity matters here.
  class Guard {
    constructor () { }
  }

  datatype Contents = Contents(name: string, template: string, workDir: string, cli: string,
                               forwardEnv: seq<string>, precheck: seq<string>, env: Option<Env>)

  predicate HasPlaceholder(s: string) {
    exists i | 0 <= i < |s| - 1 :: s[i] == '{' && s[i + 1] == '{'
  }

  function Resolved(s: string, r: string -> string): string { if HasPlaceholder(s) then r(s) else s }

  /** What holds two opening braces somewhere is resolved, anything else stays as it is. */
  lemma PlaceholdersResolved(before: string, after: string, s: string, r: string -> string)
    ensures Resolved(before + "{{" + after, r) == r(before + "{{" + after)
    ensures (forall x, y :: s != x + "{{" + y) ==> Resolved(s, r) == s
  {
    var p := before + "{{" + after;
    assert p[|before|] == '{' && p[|before| + 1] == '{';
    if HasPlaceholder(s) {
      var i :| 0 <= i < |s| - 1 && s[i] == '{' && s[i + 1] == '{';
      assert s == s[..i] + "{{" + s[i + 2..];
    }
  }

  class DockerExec {
    var containerName: string
    var execTemplate: string
    var workDir: string
    var hostCLIPath: string
    var forwardEnv: Slice
    var precheckCmd: Slice
    var env: Table?
    var guard: Guard?

    function Memory(): set<object>
      reads this
    {
      {this, forwardEnv.cells, precheckCmd.cells} + Tables(env)
    }

    ghost predicate Valid()
      reads this
    {
      SliceOk(forwardEnv) && SliceOk(precheckCmd) && forwardEnv.cells != precheckCmd.cells
    }

    function View(): Contents
      requires Valid()
      reads this, Memory()
    {
      Contents(containerName, execTemplate, workDir, hostCLIPath, Items(forwardEnv), Items(precheckCmd),
               Told(env))
    }

    constructor (name: string, template: string, workDir: string, cli: string,
                 forwardEnv: Slice, precheck: Slice, env: Table?, guard: Guard?)
      requires SliceOk(forwardEnv) && SliceOk(precheck) && forwardEnv.cells != precheck.cells
      ensures Valid() && Memory() == {this, forwardEnv.cells, precheck.cells} + Tables(env) && this.guard == guard
      ensures View() == Contents(name, template, workDir, cli, Items(forwardEnv), Items(precheck),
                                 Told(env))
    {
      containerName, execTemplate, this.workDir, hostCLIPath := name, template, workDir, cli;
      this.forwardEnv, precheckCmd, this.env, this.guard := forwardEnv, precheck, env, guard;
    }

    /** Clone: the same view on memory of its own, and the same guard. */
    method Clone() returns (c: DockerExec)
      requires Valid()
      ensures c.Valid() && fresh(c.Memory())
      ensures c.View() == View() && c.guard == guard
    {
      var f := CopyOf(forwardEnv);
      var p := CopyOf(precheckCmd);
      var e := CopyOfTable(env);
      c := new DockerExec(containerName, execTemplate, workDir, hostCLIPath, f, p, e, guard);
    }

    method UseSharedPrepareGuard()
      requires Valid()
      modifies this
      ensures Valid() && View() == old(View()) && Memory() == old(Memory()) && fresh(guard)
    {
      guard := new Guard();
    }

    /** ResolveTemplates: the name and the working directory, where they have a placeholder. */
    method ResolveTemplates(r: string -> string)
      requires Valid()
      modifies this
      ensures Valid() && Memory() == old(Memory()) && guard == old(guard)
      ensures View() == old(View()).(name := Resolved(old(View()).name, r), workDir := Resolved(old(View()).workDir, r))
    {
      if HasPlaceholder(containerName) { containerName := r(containerName); }
      if HasPlaceholder(workDir) { workDir := r(workDir); }
    }

    /** SetContainerName, and what Prepare does with the name it resolved. */
    method SetContainerName(name: string)
      requires Valid()
      modifies this
      ensures Valid() && Memory() == old(Memory()) && guard == old(guard) && View() == old(View()).(name := name)
    {
      containerName := name;
    }

    method ApplyAgentEnv(more: Env)
      requires Valid()
      modifies Memory()
      ensures Valid() && fresh(Memory() - old(Memory())) && guard == old(guard)
      ensures View() == old(View()).(env := WithEnv(old(View()).env, more))
    {
      if more == map[] { return; }
      if env == null { env := new Table(map[]); }
      env.SetAll(more);
    }

    /** ApplyContainerExtra: there are no extra arguments here. */
    method ApplyContainerExtra(forward: seq<string>, more: Env)
      requires Valid()
      modifies Memory()
      ensures Valid() && fresh(Memory() - old(Memory())) && guard == old(guard)
      ensures View() == old(View()).(forwardEnv := old(View()).forwardEnv + forward, env := WithEnv(old(View()).env, more))
    {
      forwardEnv := Append(forwardEnv, forward);
      if more != map[] {
        if env == null { env := new Table(map[]); }
        env.SetAll(more);
      }
    }
  }

  datatype Op =
    | Resolve(r: string -> string)
    | SetName(name: string)
    | AgentEnv(env: Env)
    | Extra(forward: seq<string>, env: Env)

  function Effect(v: Contents, op: Op): Contents {
    match op
    case Resolve(r) => v.(name := Resolved(v.name, r), workDir := Resolved(v.workDir, r))
    case SetName(n) => v.(name := n)
    case AgentEnv(e) => v.(env := WithEnv(v.env, e))
    case Extra(forward, e) => v.(forwardEnv := v.forwardEnv + forward, env := WithEnv(v.env, e))
  }

  // One of the two acts: the clone or the original.
  datatype Turn = Turn(onClone: bool, op: Op)

  /** What a turn does to the view of one side. */
  function After(v: Contents, turn: Turn, onClone: bool): Contents {
    if turn.onClone == onClone then Effect(v, turn.op) else v
  }

  function Effects(v: Contents, turns: seq<Turn>, onClone: bool): Contents
    decreases |turns|
  {
    if turns == [] then v else Effects(After(v, turns[0], onClone), turns[1..], onClone)
  }

  lemma NextEffects(v: Contents, turns: seq<Turn>, onClone: bool)
    ensures Effects(v, turns, onClone)
         == if turns == [] then v else Effects(After(v, turns[0], onClone), turns[1..], onClone)
  {
  }

  method Apply(d: DockerExec, op: Op)
    requires d.Valid()
    modifies d.Memory()
    ensures d.Valid() && fresh(d.Memory() - old(d.Memory())) && d.guard == old(d.guard)
    ensures d.View() == Effect(old(d.View()), op)
  {
    match op
    case Resolve(r) => d.ResolveTemplates(r);
    case SetName(n) => d.SetContainerName(n);
    case AgentEnv(e) => d.ApplyAgentEnv(e);
    case Extra(forward, e) => d.ApplyContainerExtra(forward, e);
  }

  /** An operation on one of two containers that keep apart is not seen by the other. */
  method ApplyBeside(d: DockerExec, op: Op, other: DockerExec)
    requires d.Valid() && other.Valid() && d.Memory() !! other.Memory()
    modifies d.Memory()
    ensures d.Valid() && other.Valid() && d.Memory() !! other.Memory()
    ensures fresh(d.Memory() - old(d.Memory())) && d.guard == old(d.guard)
    ensures d.View() == Effect(old(d.View()), op)
    ensures other.View() == old(other.View()) && other.Memory() == old(other.Memory()) && other.guard == old(other.guard)
  {
    hide Effect;
    Apply(d, op);
  }

  method TakeTurn(d: DockerExec, c: DockerExec, turn: Turn)
    requires d.Valid() && c.Valid() && d.Memory() !! c.Memory()
    modifies d.Memory(), c.Memory()
    ensures d.Valid() && c.Valid() && d.Memory() !! c.Memory()
    ensures fresh(d.Memory() - old(d.Memory())) && fresh(c.Memory() - old(c.Memory()))
    ensures d.View() == After(old(d.View()), turn, false) && c.View() == After(old(c.View()), turn, true)
    ensures d.guard == old(d.guard) && c.guard == old(c.guard)
  {
    hide Effect;
    if turn.onClone {
      ApplyBeside(c, turn.op, d);
    } else {
      ApplyBeside(d, turn.op, c);
    }
  }

  /** Two containers that keep apart: whatever is done to them, in whatever order, each ends as if the other did not
      exist. */
  method TakeTurns(d: DockerExec, c: DockerExec, turns: seq<Turn>)
    requires d.Valid() && c.Valid() && d.Memory() !! c.Memory()
    modifies d.Memory(), c.Memory()
    ensures d.Valid() && c.Valid() && d.Memory() !! c.Memory()
    ensures d.View() == Effects(old(d.View()), turns, false) && c.View() == Effects(old(c.View()), turns, true)
    ensures d.guard == old(d.guard) && c.guard == old(c.guard)
    decreases |turns|
  {
    hide *;
    NextEffects(d.View(), turns, false);
    NextEffects(c.View(), turns, true);
    if turns != [] {
      TakeTurn(d, c, turns[0]);
      TakeTurns(d, c, turns[1..]);
    }
  }

  /** Clone separation, and the guard is still shared. */
  method CloneKeepsApart(d: DockerExec, turns: seq<Turn>) returns (c: DockerExec)
    requires d.Valid()
    modifies d.Memory()
    ensures c.Valid() && d.Valid() && c.Memory() !! d.Memory()
    ensures c.View() == Effects(old(d.View()), turns, true) && d.View() == Effects(old(d.View()), turns, false)
    ensures c.guard == d.guard == old(d.guard)
  {
    c := d.Clone();
    TakeTurns(d, c, turns);
  }
}
