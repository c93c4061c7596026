/** internal/container/docker.go: a container and its clones keep apart. */
module DockerContainer {
  import opened Common
  import opened GoHeap

  // sync.Once and its error; only its identity matters here.
  class Guard {
    constructor () { }
  }

  // What a container says, without its memory.
  datatype Contents = Contents(image: string, dockerfile: string, tmpDir: string, writable: bool,
                       forwardEnv: seq<string>, volumes: seq<string>, args: seq<string>, env: Option<Env>)

  class Docker {
    var image: string
    var dockerfile: string
    var dockerfileTmpDir: string
    var sourceWritable: bool
    var forwardEnv: Slice
    var extraVolumes: Slice
    var extraArgs: Slice
    var env: Table?
    var guard: Guard?

    /** The memory only this container may write. */
    function Memory(): set<object>
      reads this
    {
      {this, forwardEnv.cells, extraVolumes.cells, extraArgs.cells} + Tables(env)
    }

    /** Slices within their arrays, each with an array of its own. */
    ghost predicate Valid()
      reads this
    {
      && SliceOk(forwardEnv) && SliceOk(extraVolumes) && SliceOk(extraArgs)
      && forwardEnv.cells != extraVolumes.cells && forwardEnv.cells != extraArgs.cells && extraVolumes.cells != extraArgs.cells
    }

    function View(): Contents
      requires Valid()
      reads this, Memory()
    {
      Contents(image, dockerfile, dockerfileTmpDir, sourceWritable,
        Items(forwardEnv), Items(extraVolumes), Items(extraArgs), Told(env))
    }

    constructor (image: string, dockerfile: string, tmpDir: string, writable: bool,
                 forwardEnv: Slice, volumes: Slice, args: Slice, env: Table?, guard: Guard?)
      requires SliceOk(forwardEnv) && SliceOk(volumes) && SliceOk(args)
      requires forwardEnv.cells != volumes.cells && forwardEnv.cells != args.cells && volumes.cells != args.cells
      ensures Valid() && Memory() == {this, forwardEnv.cells, volumes.cells, args.cells} + Tables(env) && this.guard == guard
      ensures View() == Contents(image, dockerfile, tmpDir, writable, Items(forwardEnv), Items(volumes), Items(args),
                                 Told(env))
    {
      this.image, this.dockerfile, dockerfileTmpDir, sourceWritable := image, dockerfile, tmpDir, writable;
      this.forwardEnv, extraVolumes, extraArgs, this.env, this.guard := forwardEnv, volumes, args, env, guard;
    }

    /** Clone: the same view on memory of its own, and the same guard. */
    method Clone() returns (c: Docker)
      requires Valid()
      ensures c.Valid() && fresh(c.Memory())
      ensures c.View() == View() && c.guard == guard
    {
      ghost var was := View();
      var f := CopyOf(forwardEnv);
      var v := CopyOf(extraVolumes);
      var a := CopyOf(extraArgs);
      var e := CopyOfTable(env);
      assert was == Contents(image, dockerfile, dockerfileTmpDir, sourceWritable, Items(f), Items(v), Items(a),
                             Told(e));
      assert fresh(Tables(e));
      assert View() == was;
      hide *;
      c := new Docker(image, dockerfile, dockerfileTmpDir, sourceWritable, f, v, a, e, guard);
    }

    method UseSharedPrepareGuard()
      requires Valid()
      modifies this
      ensures Valid() && View() == old(View()) && Memory() == old(Memory()) && fresh(guard)
    {
      guard := new Guard();
    }

    /** ResolveTemplates: in place in the slices, a new map for the environment. */
    method ResolveTemplates(r: string -> string)
      requires Valid()
      modifies Memory()
      ensures Valid() && fresh(Memory() - old(Memory())) && guard == old(guard)
      ensures View() == old(View()).(args := Mapped(old(View().args), r), volumes := Mapped(old(View().volumes), r),
                                     env := if old(env) == null then None else Some(MappedEnv(old(View()).env.value, r)))
    {
      Rewrite(extraArgs, r);
      Rewrite(extraVolumes, r);
      if env != null { env := new Table(MappedEnv(env.entries, r)); }
    }

    /** ApplyAgentEnv: into the map, which may have to be made first. */
    method ApplyAgentEnv(more: Env)
      requires Valid()
      modifies Memory()
      ensures Valid() && fresh(Memory() - old(Memory())) && guard == old(guard)
      ensures View() == old(View()).(env := WithEnv(old(View()).env, more))
    {
      if more == map[] { return; }
      if env == null { env := new Table(map[]); }
      env.SetAll(more);
    }

    /** ApplyContainerExtra: appends, possibly into spare capacity. */
    method ApplyContainerExtra(args: seq<string>, forward: seq<string>, more: Env)
      requires Valid()
      modifies Memory()
      ensures Valid() && fresh(Memory() - old(Memory())) && guard == old(guard)
      ensures View() == old(View()).(args := old(View()).args + args, forwardEnv := old(View()).forwardEnv + forward,
                                     env := WithEnv(old(View()).env, more))
    {
      extraArgs := Append(extraArgs, args);
      forwardEnv := Append(forwardEnv, forward);
      if more != map[] {
        if env == null { env := new Table(map[]); }
        env.SetAll(more);
      }
    }

    method SetSourceWritable(writable: bool)
      requires Valid()
      modifies this
      ensures Valid() && Memory() == old(Memory()) && guard == old(guard) && View() == old(View()).(writable := writable)
    {
      sourceWritable := writable;
    }

    /** cleanupDockerfileTmpDir, which Prepare runs on whichever clone builds the image. */
    method CleanupDockerfileTmpDir()
      requires Valid()
      modifies this
      ensures Valid() && Memory() == old(Memory()) && guard == old(guard) && View() == old(View()).(tmpDir := "")
    {
      dockerfileTmpDir := "";
    }
  }

  // Anything that is done to a container between cloning and running.
  datatype Op =
    | Resolve(r: string -> string)
    | AgentEnv(env: Env)
    | Extra(args: seq<string>, forward: seq<string>, env: Env)
    | Writable(writable: bool)
    | Cleanup

  /** What an operation does to the view. */
  function Effect(v: Contents, op: Op): Contents {
    match op
    case Resolve(r) =>
      v.(args := Mapped(v.args, r), volumes := Mapped(v.volumes, r), env := if v.env.None? then None else Some(MappedEnv(v.env.value, r)))
    case AgentEnv(e) => v.(env := WithEnv(v.env, e))
    case Extra(args, forward, e) => v.(args := v.args + args, forwardEnv := v.forwardEnv + forward, env := WithEnv(v.env, e))
    case Writable(w) => v.(writable := w)
    case Cleanup => v.(tmpDir := "")
  }

  // One of the two acts: the clone or the original.
  datatype Turn = Turn(onClone: bool, op: Op)

  /** What a turn does to the view of one side. */
  function After(v: Contents, turn: Turn, onClone: bool): Contents {
    if turn.onClone == onClone then Effect(v, turn.op) else v
  }

  function Effects(v: Contents, turns: seq<Turn>, onClone: bool): Contents
    decreases |turns|
  {
    if turns == [] then v else Effects(After(v, turns[0], onClone), turns[1..], onClone)
  }

  lemma NextEffects(v: Contents, turns: seq<Turn>, onClone: bool)
    ensures Effects(v, turns, onClone)
         == if turns == [] then v else Effects(After(v, turns[0], onClone), turns[1..], onClone)
  {
  }

  method Apply(d: Docker, op: Op)
    requires d.Valid()
    modifies d.Memory()
    ensures d.Valid() && fresh(d.Memory() - old(d.Memory())) && d.guard == old(d.guard)
    ensures d.View() == Effect(old(d.View()), op)
  {
    match op
    case Resolve(r) => d.ResolveTemplates(r);
    case AgentEnv(e) => d.ApplyAgentEnv(e);
    case Extra(args, forward, e) => d.ApplyContainerExtra(args, forward, e);
    case Writable(w) => d.SetSourceWritable(w);
    case Cleanup => d.CleanupDockerfileTmpDir();
  }

  /** An operation on one of two containers that keep apart is not seen by the other. */
  method ApplyBeside(d: Docker, op: Op, other: Docker)
    requires d.Valid() && other.Valid() && d.Memory() !! other.Memory()
    modifies d.Memory()
    ensures d.Valid() && other.Valid() && d.Memory() !! other.Memory()
    ensures fresh(d.Memory() - old(d.Memory())) && d.guard == old(d.guard)
    ensures d.View() == Effect(old(d.View()), op)
    ensures other.View() == old(other.View()) && other.Memory() == old(other.Memory()) && other.guard == old(other.guard)
  {
    hide Effect;
    Apply(d, op);
  }

  method TakeTurn(d: Docker, c: Docker, turn: Turn)
    requires d.Valid() && c.Valid() && d.Memory() !! c.Memory()
    modifies d.Memory(), c.Memory()
    ensures d.Valid() && c.Valid() && d.Memory() !! c.Memory()
    ensures fresh(d.Memory() - old(d.Memory())) && fresh(c.Memory() - old(c.Memory()))
    ensures d.View() == After(old(d.View()), turn, false) && c.View() == After(old(c.View()), turn, true)
    ensures d.guard == old(d.guard) && c.guard == old(c.guard)
  {
    hide Effect;
    if turn.onClone {
      ApplyBeside(c, turn.op, d);
    } else {
      ApplyBeside(d, turn.op, c);
    }
  }

  /** Two containers that keep apart: whatever is done to them, in whatever order, each ends as if the other did not
      exist. */
  method TakeTurns(d: Docker, c: Docker, turns: seq<Turn>)
    requires d.Valid() && c.Valid() && d.Memory() !! c.Memory()
    modifies d.Memory(), c.Memory()
    ensures d.Valid() && c.Valid() && d.Memory() !! c.Memory()
    ensures d.View() == Effects(old(d.View()), turns, false) && c.View() == Effects(old(c.View()), turns, true)
    ensures d.guard == old(d.guard) && c.guard == old(c.guard)
    decreases |turns|
  {
    hide *;
    NextEffects(d.View(), turns, false);
    NextEffects(c.View(), turns, true);
    if turns != [] {
      TakeTurn(d, c, turns[0]);
      TakeTurns(d, c, turns[1..]);
    }
  }

  /** Clone separation, and the guard is still shared. */
  method CloneKeepsApart(d: Docker, turns: seq<Turn>) returns (c: Docker)
    requires d.Valid()
    modifies d.Memory()
    ensures c.Valid() && d.Valid() && c.Memory() !! d.Memory()
    ensures c.View() == Effects(old(d.View()), turns, true) && d.View() == Effects(old(d.View()), turns, false)
    ensures c.guard == d.guard == old(d.guard)
  {
    c := d.Clone();
    TakeTurns(d, c, turns);
  }
}
