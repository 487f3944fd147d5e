/** The core's run_method as one thread executes it (src/et_core/et_core.cpp), over real memory:
    an arena that execute overwrites in place, inputs it borrows and may write, owned storage, and a
    mutex that is not recursive. */
module EtCore {
  import opened Values
  import opened Marshal
  import opened Protocol
  import opened Sequential

  /** std::mutex. Locking it twice from one thread is not allowed, so no caller may. */
  class Mutex {
    var held: bool

    constructor ()
      ensures !held
    {
      held := false;
    }

    method Lock()
      requires !held
      modifies this
      ensures held
    {
      held := true;
    }

    method Unlock()
      requires held
      modifies this
      ensures !held
    {
      held := false;
    }
  }

  /** What the core hands out for the execute at position `k` of a log. */
  function CoreResult(c: Config, r: Rid, log: seq<Access>, k: nat): Result<seq<View<seq<byte>>>>
    requires k < |log|
  {
    var reply := ReplyAt(c, r, log, k);
    if reply.Values? then CopyAll(Replay(c, r, log[..k + 1]).arena, reply.evs) else Err(ExecutionFailed)
  }

  /** What the execute at position `k` of a log leaves in the inputs it borrowed. */
  function WritesAt(c: Config, r: Rid, log: seq<Access>, k: nat): seq<seq<byte>>
    requires k < |log| && log[k].Exec?
  {
    c.writes(r, Replay(c, r, log[..k]), log[k].method_, log[k].inputs)
  }

  // ---------- borrowed inputs ----------

  /** A tensor built with from_blob: it points at the caller's memory. */
  datatype Blob = Blob(data: array<byte>, sizes: seq<int>, scalarType: int)

  function ReadBlob(b: Blob): Input
    reads b.data
  {
    Input(b.data[..], b.sizes, b.scalarType)
  }

  /** The tensors over the borrowed memory as it is now. */
  ghost function ReadBlobs(blobs: seq<Blob>): (inputs: seq<Input>)
    reads set b | b in blobs :: b.data
  {
    seq(|blobs|, i requires 0 <= i < |blobs| reads set b | b in blobs :: b.data => ReadBlob(blobs[i]))
  }

  function Pointers(blobs: seq<Blob>): seq<array<byte>> {
    seq(|blobs|, i requires 0 <= i < |blobs| => blobs[i].data)
  }

  /** The tensors over the caller's buffers as they are now. */
  ghost function TensorsOver(inputs: seq<Desc<array<byte>>>): seq<Input>
    reads set d | d in inputs :: d.data
  {
    seq(|inputs|, i requires 0 <= i < |inputs| reads set d | d in inputs :: d.data =>
      ToInput(Desc(inputs[i].data[..], inputs[i].shape, inputs[i].scalarType)))
  }

  /** The loop of from_blob calls: sizes are narrowed, memory is not copied. */
  method BuildTensors(inputs: seq<Desc<array<byte>>>) returns (blobs: seq<Blob>)
    ensures |blobs| == |inputs| && forall i | 0 <= i < |inputs| :: blobs[i].data == inputs[i].data
    ensures ReadBlobs(blobs) == TensorsOver(inputs)
  {
    blobs := [];
    for i := 0 to |inputs|
      invariant |blobs| == i
      invariant forall j | 0 <= j < i :: blobs[j] == Blob(inputs[j].data, SizesOf(inputs[j].shape), inputs[j].scalarType)
    {
      blobs := blobs + [Blob(inputs[i].data, SizesOf(inputs[i].shape), inputs[i].scalarType)];
    }
  }

  /** The Module writes into what it borrowed, one input after the other. */
  method WriteInputs(bufs: seq<array<byte>>, writes: seq<seq<byte>>)
    modifies set i | 0 <= i < |bufs| :: bufs[i]
    ensures forall i | 0 <= i < |bufs| :: bufs[i][..] == LastWrite(bufs, writes, bufs[i], old(bufs[i][..]))
  {
    for i := 0 to |bufs|
      invariant forall j | 0 <= j < |bufs| :: bufs[j][..] == LastWrite(bufs[..i], writes, bufs[j], old(bufs[j][..]))
    {
      assert bufs[..i + 1][..i] == bufs[..i];
      if i < |writes| && |writes[i]| == bufs[i].Length { Overwrite(bufs[i], writes[i]); }
    }
    assert bufs[..|bufs|] == bufs;
  }

  /** The Module of one Runtime and the accesses made so far. */
  class Module {
    const c: Config
    const r: Rid
    const lock: Mutex          // whoever uses the Module must hold it
    var internal: Internal
    var arena: array<byte>
    ghost var log: seq<Access>

    function State(): Mod
      reads this, arena
    {
      Mod(internal, arena[..])
    }

    ghost predicate Valid()
      reads this, arena
    {
      State() == Replay(c, r, log)
    }

    constructor (c: Config, r: Rid, lock: Mutex)
      ensures this.c == c && this.r == r && this.lock == lock && log == [] && Valid() && fresh(arena)
    {
      this.c := c;
      this.r := r;
      this.lock := lock;
      internal := c.loaded(r).internal;
      log := [];
      var bytes := c.loaded(r).arena;
      arena := new byte[|bytes|](i requires 0 <= i < |bytes| => bytes[i]);
    }

    /** Any use of the Module may overwrite the whole arena, or move it. */
    method Use(a: Access) returns (reply: Reply)
      requires Valid() && lock.held
      modifies this, arena
      ensures Valid() && log == old(log) + [a] && (arena == old(arena) || fresh(arena))
      ensures reply == ReplyAt(c, r, log, |old(log)|)
      ensures State() == Protocol.Perform(c, r, old(State()), a).0
    {
      var (m, answer) := Protocol.Perform(c, r, State(), a);
      if |m.arena| == arena.Length {
        Overwrite(arena, m.arena);
      } else {
        arena := new byte[|m.arena|](i requires 0 <= i < |m.arena| => m.arena[i]);
      }
      internal := m.internal;
      reply := answer;
      log := log + [a];
      assert arena[..] == m.arena;
      ReplayAppend(c, r, old(log), a);
    }

    /** An execute, with its outputs still in the arena: it reads the borrowed inputs as they are and
        may leave something else in them. */
    method Execute(name: string, blobs: seq<Blob>) returns (reply: Reply)
      requires Valid() && SaneModule(c) && lock.held
      requires forall i | 0 <= i < |blobs| :: blobs[i].data != arena
      modifies this, arena, set i | 0 <= i < |blobs| :: blobs[i].data
      ensures Valid() && log == old(log) + [Exec(name, old(ReadBlobs(blobs)))] && (arena == old(arena) || fresh(arena))
      ensures reply == ReplyAt(c, r, log, |log| - 1)
      ensures reply.Values? ==> forall k | 0 <= k < |reply.evs| :: Sane(arena.Length, reply.evs[k])
      ensures CoreResult(c, r, log, |log| - 1) == if reply.Values? then CopyAll(arena[..], reply.evs) else Err(ExecutionFailed)
      ensures forall i | 0 <= i < |blobs| ::
        blobs[i].data[..] == LastWrite(Pointers(blobs), WritesAt(c, r, log, |log| - 1), blobs[i].data, old(blobs[i].data[..]))
    {
      ghost var before := State();
      ghost var inputs := ReadBlobs(blobs);
      reply := UseInputs(name, blobs);
      assert log[..|log|] == log && log[..|log| - 1] == old(log);
      if reply.Values? {
        assert SaneOutputs(c.execute(r, before, name, inputs));
        assert reply.evs == c.execute(r, before, name, inputs).1.value;
      }
    }

    method UseInputs(name: string, blobs: seq<Blob>) returns (reply: Reply)
      requires Valid() && lock.held
      requires forall i | 0 <= i < |blobs| :: blobs[i].data != arena
      modifies this, arena, set i | 0 <= i < |blobs| :: blobs[i].data
      ensures Valid() && log == old(log) + [Exec(name, old(ReadBlobs(blobs)))] && (arena == old(arena) || fresh(arena))
      ensures reply == ReplyAt(c, r, log, |old(log)|)
      ensures State() == Protocol.Perform(c, r, old(State()), Exec(name, old(ReadBlobs(blobs)))).0
      ensures
        var writes := c.writes(r, old(State()), name, old(ReadBlobs(blobs)));
        forall i | 0 <= i < |blobs| ::
          blobs[i].data[..] == LastWrite(Pointers(blobs), writes, blobs[i].data, old(blobs[i].data[..]))
    {
      var inputs := [];
      for i := 0 to |blobs|
        invariant inputs == ReadBlobs(blobs)[..i]
      {
        assert blobs[i] in blobs;
        inputs := inputs + [ReadBlob(blobs[i])];
      }
      assert inputs == ReadBlobs(blobs);
      var writes := c.writes(r, State(), name, inputs);
      reply := Use(Exec(name, inputs));
      label Used:
      var bufs := Pointers(blobs);
      assert forall i | 0 <= i < |blobs| :: bufs[i] == blobs[i].data;
      WriteInputs(bufs, writes);
      assert arena[..] == old@Used(arena[..]);
    }
  }

  method Overwrite(mem: array<byte>, bytes: seq<byte>)
    requires |bytes| == mem.Length
    modifies mem
    ensures mem[..] == bytes
  {
    for i := 0 to mem.Length
      invariant forall j | 0 <= j < i :: mem[j] == bytes[j]
    {
      mem[i] := bytes[i];
    }
  }

  // ---------- owned outputs ----------

  function ReadArray(v: View<array<byte>>): View<seq<byte>>
    reads if v.TensorView? then {v.data} else {}
  {
    match v
    case TensorView(data, shape, st) => TensorView(data[..], shape, st)
    case IntView(x) => IntView(x)
    case DoubleView(bits) => DoubleView(bits)
    case BoolView(f) => BoolView(f)
    case StringView(s) => StringView(s)
  }

  /** The bytes a view points at. */
  function Behind(v: View<array<byte>>): seq<byte>
    reads if v.TensorView? then {v.data} else {}
  {
    if v.TensorView? then v.data[..] else []
  }

  ghost function ReadArrays(views: seq<View<array<byte>>>): (r: seq<View<seq<byte>>>)
    reads set v | v in views && v.TensorView? :: v.data
    ensures |r| == |views| && forall i | 0 <= i < |views| :: r[i] == ReadArray(views[i])
  {
    if views == [] then [] else ReadArrays(views[..|views| - 1]) + [ReadArray(views[|views| - 1])]
  }

  /** How many of the outputs are tensors. */
  function Tensors(evs: seq<EValue>): nat {
    if evs == [] then 0 else Tensors(evs[..|evs| - 1]) + (if evs[|evs| - 1].Tensor? then 1 else 0)
  }

  /** std::vector of owned buffers: `slots` is its allocation, which moves when a push finds it full. */
  class Vector {
    var slots: array<array?<byte>>
    var size: nat

    ghost predicate Valid()
      reads this, slots
    {
      size <= slots.Length && forall i | 0 <= i < size :: slots[i] != null
    }

    ghost function Contents(): (bufs: seq<array<byte>>)
      requires Valid()
      reads this, slots
      ensures |bufs| == size
    {
      seq(size, i requires 0 <= i < size && Valid() reads this, slots => slots[i])
    }

    constructor ()
      ensures Valid() && Contents() == [] && fresh(slots)
    {
      slots := new array?<byte>[0];
      size := 0;
    }

    method Move(capacity: nat)
      requires Valid() && size <= capacity
      modifies this
      ensures Valid() && Contents() == old(Contents()) && fresh(slots) && slots.Length == capacity
    {
      var bigger := new array?<byte>[capacity];
      for i := 0 to size
        invariant unchanged(this) && unchanged(slots)
        invariant forall j | 0 <= j < i :: bigger[j] == slots[j]
      {
        bigger[i] := slots[i];
      }
      slots := bigger;
    }

    method Reserve(n: nat)
      requires Valid()
      modifies this
      ensures Valid() && Contents() == old(Contents()) && n <= slots.Length && (slots == old(slots) || fresh(slots))
    {
      if slots.Length < n { Move(n); }
    }

    /** The slots move exactly when there is no room. */
    method PushBack(buf: array<byte>)
      requires Valid()
      modifies this, slots
      ensures Valid() && Contents() == old(Contents()) + [buf]
      ensures if old(size) < old(slots.Length) then slots == old(slots) else fresh(slots)
    {
      if size == slots.Length { Move(2 * size + 1); }
      slots[size] := buf;
      size := size + 1;
    }

    method Back() returns (buf: array<byte>)
      requires Valid() && size > 0
      ensures buf == Contents()[|Contents()| - 1]
    {
      buf := slots[size - 1];
    }
  }

  /** `ForwardState`: one storage buffer per tensor, and one view per output. */
  class ForwardState {
    const storage: Vector
    var views: seq<View<array<byte>>>

    ghost predicate Valid()
      reads this, storage, storage.slots
    {
      storage.Valid()
    }

    constructor ()
      ensures Valid() && storage.Contents() == [] && views == [] && fresh(storage) && fresh(storage.slots)
    {
      storage := new Vector();
      views := [];
    }

    /** The first |views| outputs are copied, and there is room for a tensor in every output. */
    ghost predicate Holds(arena: seq<byte>, evs: seq<EValue>)
      reads this, storage, storage.slots, if storage.Valid() then set b | b in storage.Contents() else {}
    {
      && storage.Valid()
      && |views| <= |evs| <= storage.slots.Length
      && Copied(storage.Contents(), views, arena, evs)
    }

    method PushValue(v: View<array<byte>>, ghost arena: seq<byte>, ghost evs: seq<EValue>)
      requires Holds(arena, evs) && |views| < |evs| && !v.TensorView? && !evs[|views|].Tensor?
      requires CopyOne(arena, evs[|views|]) == Ok(ReadArray(v))
      modifies this`views
      ensures Holds(arena, evs) && views == old(views) + [v]
    {
      hide Copied;
      CopiedValue(storage.Contents(), views, v, arena, evs);
      views := views + [v];
    }

    /** The reserved room suffices: the slots stay where they are. */
    method PushTensor(buf: array<byte>, shape: seq<nat>, st: int, ghost arena: seq<byte>, ghost evs: seq<EValue>)
      requires Holds(arena, evs) && |views| < |evs| && evs[|views|].Tensor? && buf !in storage.Contents()
      requires CopyOne(arena, evs[|views|]) == Ok(TensorView(buf[..], shape, st))
      modifies this`views, storage, storage.slots
      ensures Holds(arena, evs) && views == old(views) + [TensorView(buf, shape, st)]
      ensures storage.Contents() == old(storage.Contents()) + [buf] && storage.slots == old(storage.slots)
    {
      StorageFits(this, arena, evs);
      hide Copied, Tensors, CopyOne;
      CopiedTensor(storage.Contents(), views, buf, shape, st, arena, evs);
      storage.PushBack(buf);
      var back := storage.Back();
      views := views + [TensorView(back, shape, st)];
    }
  }

  /** `views` are the first outputs in order, and tensor view `i` points at the buffer whose number is
      the number of tensors before it. */
  ghost predicate Copied(bufs: seq<array<byte>>, views: seq<View<array<byte>>>, arena: seq<byte>, evs: seq<EValue>)
    reads set b | b in bufs
  {
    && |views| <= |evs| && |bufs| == Tensors(evs[..|views|])
    && (forall i, j | 0 <= i < j < |bufs| :: bufs[i] != bufs[j])
    && forall i | 0 <= i < |views| ::
         && (views[i].TensorView? <==> evs[i].Tensor?)
         && (views[i].TensorView? ==> Tensors(evs[..i]) < |bufs| && views[i].data == bufs[Tensors(evs[..i])])
         && CopyOne(arena, evs[i]) == Ok(ReadArray(views[i]))
  }

  lemma CopiedValue(bufs: seq<array<byte>>, views: seq<View<array<byte>>>, v: View<array<byte>>,
                    arena: seq<byte>, evs: seq<EValue>)
    requires Copied(bufs, views, arena, evs) && |views| < |evs| && !v.TensorView? && !evs[|views|].Tensor?
    requires CopyOne(arena, evs[|views|]) == Ok(ReadArray(v))
    ensures Copied(bufs, views + [v], arena, evs)
  {
    TensorsGrow(evs, |views|);
  }

  lemma CopiedTensor(bufs: seq<array<byte>>, views: seq<View<array<byte>>>, buf: array<byte>, shape: seq<nat>, st: int,
                     arena: seq<byte>, evs: seq<EValue>)
    requires Copied(bufs, views, arena, evs) && |views| < |evs| && evs[|views|].Tensor? && buf !in bufs
    requires CopyOne(arena, evs[|views|]) == Ok(TensorView(buf[..], shape, st))
    ensures Copied(bufs + [buf], views + [TensorView(buf, shape, st)], arena, evs)
  {
    TensorsGrow(evs, |views|);
  }

  lemma {:induction false} FewTensors(evs: seq<EValue>)
    ensures Tensors(evs) <= |evs|
  {
    if evs == [] {
    } else {
      FewTensors(evs[..|evs| - 1]);
    }
  }

  /** There is never more storage than outputs: reserving one slot for each is enough. */
  lemma StorageFits(fs: ForwardState, arena: seq<byte>, evs: seq<EValue>)
    requires fs.Holds(arena, evs)
    ensures |fs.storage.Contents()| <= |fs.views| <= |evs| <= fs.storage.slots.Length
  {
    FewTensors(evs[..|fs.views|]);
  }

  /** memcpy out of the arena into a buffer of its own. */
  method CopyBytes(src: array<byte>, offset: nat, n: nat) returns (buf: array<byte>)
    requires offset + n <= src.Length
    ensures fresh(buf) && buf[..] == src[offset..offset + n]
  {
    buf := new byte[n];
    for i := 0 to n
      invariant forall j | 0 <= j < i :: buf[j] == src[offset + j]
    {
      buf[i] := src[offset + i];
    }
  }

  lemma TensorsGrow(evs: seq<EValue>, k: nat)
    requires k < |evs|
    ensures Tensors(evs[..k + 1]) == Tensors(evs[..k]) + (if evs[k].Tensor? then 1 else 0)
  {
    assert evs[..k + 1][..k] == evs[..k];
  }

  /** One turn of the loop: output number |fs.views| leaves the arena, unless it cannot. Earlier views
      and storage stay, and no slot moves. */
  method CopyNext(fs: ForwardState, arena: array<byte>, evs: seq<EValue>) returns (ok: bool)
    requires fs.Holds(arena[..], evs) && |fs.views| < |evs| && Sane(arena.Length, evs[|fs.views|])
    modifies fs`views, fs.storage, fs.storage.slots
    ensures ok <==> !evs[|old(fs.views)|].Other?
    ensures fs.Holds(arena[..], evs) && |fs.views| == |old(fs.views)| + (if ok then 1 else 0)
    ensures old(fs.views) <= fs.views
    ensures fs.storage.slots == old(fs.storage.slots) && old(fs.storage.Contents()) <= fs.storage.Contents()
    ensures forall b | b in fs.storage.Contents() :: b in old(fs.storage.Contents()) || fresh(b)
    ensures ok ==> var v := fs.views[|old(fs.views)|]; IsViewOf(arena[..], evs[|old(fs.views)|], v, Behind(v))
  {
    hide Copied, Tensors;
    ok := true;
    match evs[|fs.views|] {
      case Int(i) => fs.PushValue(IntView(i), arena[..], evs);
      case Double(bits) => fs.PushValue(DoubleView(bits), arena[..], evs);
      case Bool(b) => fs.PushValue(BoolView(if b then 1 else 0), arena[..], evs);
      case String(at, n) => fs.PushValue(StringView(arena[at..at + n]), arena[..], evs);
      case Other => ok := false;
      case Tensor(offset, n, sizes, st) =>
        var buf := CopyBytes(arena, offset, n);
        fs.PushTensor(buf, sizes, st, arena[..], evs);
    }
  }

  /** The loop holds each output as the value it stands for: a tensor's bytes are behind its view. */
  lemma HoldsMeans(fs: ForwardState, arena: seq<byte>, evs: seq<EValue>)
    requires fs.Holds(arena, evs)
    ensures forall i | 0 <= i < |fs.views| :: IsViewOf(arena, evs[i], fs.views[i], Behind(fs.views[i]))
  {
    forall i | 0 <= i < |fs.views| ensures IsViewOf(arena, evs[i], fs.views[i], Behind(fs.views[i])) {
      CopyOneMeans(arena, evs[i]);
    }
  }

  /** At every turn what the loop holds is the atomic snapshot of the outputs so far. */
  lemma HoldsIsSnapshot(fs: ForwardState, arena: seq<byte>, evs: seq<EValue>)
    requires fs.Holds(arena, evs)
    ensures CopyAll(arena, evs[..|fs.views|]) == Ok(ReadArrays(fs.views))
    ensures |fs.views| == |evs| ==> CopyAll(arena, evs) == Ok(ReadArrays(fs.views))
    ensures |fs.views| < |evs| && evs[|fs.views|].Other? ==> CopyAll(arena, evs) == Err(UnsupportedOutput)
  {
    CopyAllByIndex(arena, evs, ReadArrays(fs.views));
  }

  /** The copy-out loop: it refines the atomic snapshot. On success the views are the snapshot's;
      otherwise the fault is that of the first unsupported output. The arena is only read, and only
      under its lock; and the slots reserved before the loop are the ones in use after it. */
  method CopyOutputs(lock: Mutex, arena: array<byte>, evs: seq<EValue>) returns (fs: ForwardState, fault: Option<Fault>)
    requires lock.held
    requires forall k | 0 <= k < |evs| :: Sane(arena.Length, evs[k])
    ensures fresh(fs) && fresh(fs.storage) && fresh(fs.storage.slots) && fs.storage.Valid() && fs.Holds(arena[..], evs)
    ensures forall b | b in fs.storage.Contents() :: fresh(b)
    ensures fault.None? ==> |fs.views| == |evs| && CopyAll(arena[..], evs) == Ok(ReadArrays(fs.views))
    ensures fault.Some? ==> CopyAll(arena[..], evs) == Err(fault.value)
    ensures fault.None? ==> forall i | 0 <= i < |evs| :: IsViewOf(arena[..], evs[i], fs.views[i], Behind(fs.views[i]))
  {
    fs := new ForwardState();
    fault := None;
    fs.storage.Reserve(|evs|);
    assert fs.Holds(arena[..], evs);
    ghost var reserved := fs.storage.slots;
    hide *;
    while |fs.views| < |evs| && fault.None?
      invariant |fs.views| <= |evs| && fresh(fs) && fresh(fs.storage) && fresh(reserved) && fs.storage.slots == reserved
      invariant fs.storage.Valid() && forall b | b in fs.storage.Contents() :: fresh(b)
      invariant fs.Holds(arena[..], evs)
      invariant fault.Some? ==> |fs.views| < |evs| && evs[|fs.views|].Other? && fault.value == UnsupportedOutput
      modifies fs, fs.storage, reserved
      decreases |evs| - |fs.views|, fault.None?
    {
      ghost var before := fs.storage.Contents();
      var ok := CopyNext(fs, arena, evs);
      assert fs.storage.Valid() by { HoldsValid(fs, arena[..], evs); }
      assert forall b | b in fs.storage.Contents() :: b in before || fresh(b);
      if !ok { fault := Some(UnsupportedOutput); }
    }
    HoldsIsSnapshot(fs, arena[..], evs);
    HoldsMeans(fs, arena[..], evs);
  }

  lemma HoldsValid(fs: ForwardState, arena: seq<byte>, evs: seq<EValue>)
    requires fs.Holds(arena, evs)
    ensures fs.storage.Valid()
  {
  }

  // ---------- the Runtime ----------

  /** The process state the guard looks at. */
  class Process {
    var env: Option<string>
    var files: set<string>

    constructor (env: Option<string>, files: set<string>)
      ensures this.env == env && this.files == files
    {
      this.env := env;
      this.files := files;
    }
  }

  /** What guard_openvino makes of the metadata and the environment. */
  function GuardFault(c: Config, meta: Reply, env: Option<string>, files: set<string>): Option<Fault> {
    if !meta.Meta? then Some(LoadFailed)
    else if OPENVINO !in meta.info.backends then None
    else if c.registered && env.Some? && env.value != "" && env.value in files then None
    else Some(BackendMissing)
  }

  /** Does a Module in state `m` run `name` in this process? */
  predicate LetsThrough(c: Config, r: Rid, m: Mod, name: string, env: Option<string>, files: set<string>) {
    var info := c.readMeta(r, m, name).1;
    info.Some? && (OPENVINO in info.value.backends ==> c.registered && env.Some? && env.value != "" && env.value in files)
  }

  /** And if not, why. */
  function RefusalOf(c: Config, r: Rid, m: Mod, name: string): Fault {
    if c.readMeta(r, m, name).1.None? then LoadFailed else BackendMissing
  }

  predicate InGuard(pc: PC) {
    (pc.AccessOut? && pc.use.Guard?) || pc.CheckBackend? || pc.CheckEnv? || pc.CheckFile?
  }

  /** Where a thread of the protocol stands once the guard is through with the process as it is in `sh`. */
  function GuardEnd(c: Config, t: Tid, sh: Shared, th: Thread): PC
    requires th.call.Some? && Shape(th)
    decreases if th.pc.AccessOut? then 3 else if th.pc.CheckBackend? then 2 else if th.pc.CheckEnv? then 1 else 0
  {
    if !InGuard(th.pc) then th.pc
    else
      var th' := Act(c, t, sh, th).th;
      if InGuard(th'.pc) then GuardEnd(c, t, sh, th') else th'.pc
  }

  /** The guard decides as the protocol's steps do, one check after the other: on to the execute, or
      unwinding with the same fault. They change nothing on the way. */
  lemma {:induction false} GuardIsProtocols(c: Config, t: Tid, sh: Shared, th: Thread)
    requires th.call.Some? && Shape(th) && InGuard(th.pc)
    ensures Act(c, t, sh, th).sh == sh
    ensures th.pc.AccessOut? ==>
      var refusal := GuardFault(c, th.pc.reply, sh.env, sh.files);
      GuardEnd(c, t, sh, th) == if refusal.None? then ExecWait else Unwind(refusal.value)
    ensures th.pc.CheckBackend? ==>
      GuardEnd(c, t, sh, th) == if c.registered && PathGood(sh) then ExecWait else Unwind(BackendMissing)
    ensures th.pc.CheckEnv? ==> GuardEnd(c, t, sh, th) == if PathGood(sh) then ExecWait else Unwind(BackendMissing)
    ensures th.pc.CheckFile? ==> GuardEnd(c, t, sh, th) == if th.pc.path in sh.files then ExecWait else Unwind(BackendMissing)
    decreases if th.pc.AccessOut? then 3 else if th.pc.CheckBackend? then 2 else if th.pc.CheckEnv? then 1 else 0
  {
    var th' := Act(c, t, sh, th).th;
    if InGuard(th'.pc) { GuardIsProtocols(c, t, sh, th'); }
  }

  /** What the guard is for: a method that enters the delegate is let through only when the delegate is
      there and the variable names a regular file; and whatever else it refuses is unreadable. */
  lemma GuardProtects(c: Config, r: Rid, log: seq<Access>, k: nat, env: Option<string>, files: set<string>)
    requires Honest(c) && k < |log| && log[k].MetaRead?
    ensures
      var info := c.readMeta(r, Replay(c, r, log[..k]), log[k].name).1;
      var usable := c.registered && env.Some? && env.value != "" && env.value in files;
      var refusal := GuardFault(c, ReplyAt(c, r, log, k), env, files);
      && (refusal == Some(LoadFailed) <==> info.None?)
      && (refusal == Some(BackendMissing) <==> info.Some? && OPENVINO in info.value.backends && !usable)
      && (refusal.None? <==> info.Some? && (OPENVINO in info.value.backends ==> usable))
      && (refusal.None? && c.delegates(r, log[k].name) ==> usable)
  {
    ReplyMeans(c, r, log, k);
  }

  /** `views` are what the execute at position `k` computed, output by output. */
  ghost predicate HandsOut(c: Config, r: Rid, log: seq<Access>, k: nat, views: seq<View<array<byte>>>)
    reads set v | v in views && v.TensorView? :: v.data
  {
    && k < |log| && log[k].Exec?
    && var (m, outputs) := c.execute(r, Replay(c, r, log[..k]), log[k].method_, log[k].inputs);
       && outputs.Some? && |views| == |outputs.value|
       && forall i | 0 <= i < |views| :: IsViewOf(m.arena, outputs.value[i], views[i], Behind(views[i]))
  }

  /** What the core hands out is what the Module computed; it fails when the Module did, or for an
      output without Python form. */
  lemma CoreMeans(c: Config, r: Rid, log: seq<Access>, k: nat, views: seq<View<array<byte>>>)
    requires k < |log| && log[k].Exec?
    ensures CoreResult(c, r, log, k) == Ok(ReadArrays(views)) ==> HandsOut(c, r, log, k, views)
    ensures
      var outputs := c.execute(r, Replay(c, r, log[..k]), log[k].method_, log[k].inputs).1;
      var res := CoreResult(c, r, log, k);
      && (res.Err? <==> outputs.None? || exists i :: 0 <= i < |outputs.value| && outputs.value[i].Other?)
      && (res.Err? ==> res.fault == if outputs.None? then ExecutionFailed else UnsupportedOutput)
  {
    ExecuteAt(c, r, log, k);
    ReplyMeans(c, r, log, k);
    var (m, outputs) := c.execute(r, Replay(c, r, log[..k]), log[k].method_, log[k].inputs);
    if outputs.Some? {
      UnsupportedIffOther(m.arena, outputs.value);
      if CoreResult(c, r, log, k) == Ok(ReadArrays(views)) {
        forall i | 0 <= i < |views| ensures IsViewOf(m.arena, outputs.value[i], views[i], Behind(views[i])) {
          CopyOneMeans(m.arena, outputs.value[i]);
        }
      }
    }
  }

  /** run_method from log `before` to `log`: one metadata read; then either the guard's refusal, or one
      execute of `inputs` and the sequential result at its place. */
  ghost predicate Handled(c: Config, r: Rid, env: Option<string>, files: set<string>, name: string, inputs: seq<Input>,
                          before: seq<Access>, log: seq<Access>, result: Result<seq<View<seq<byte>>>>)
  {
    && |log| > |before| && log[..|before| + 1] == before + [MetaRead(name)]
    && var refusal := GuardFault(c, ReplyAt(c, r, log, |before|), env, files);
       if refusal.Some? then result == Err(refusal.value) && |log| == |before| + 1
       else
         && log == before + [MetaRead(name)] + [Exec(name, inputs)]
         && CoreResult(c, r, log, |before| + 1) == result
  }

  class Runtime {
    const module_: Module
    const mutex: Mutex

    /** Between calls the mutex is free and the Module is where its log takes it. */
    ghost predicate Valid()
      reads this, mutex, module_, module_.arena
    {
      !mutex.held && module_.lock == mutex && module_.Valid()
    }

    constructor (c: Config, r: Rid)
      ensures Valid() && fresh(mutex) && fresh(module_) && fresh(module_.arena)
      ensures module_.c == c && module_.r == r && module_.log == []
    {
      var lock := new Mutex();
      module_ := new Module(c, r, lock);
      mutex := lock;
    }

    /** One metadata access under the mutex, whatever it answers. */
    method MethodUsesBackend(name: string, backend: string) returns (res: Result<bool>)
      requires Valid()
      modifies mutex, module_, module_.arena
      ensures Valid() && module_.log == old(module_.log) + [MetaRead(name)]
      ensures module_.arena == old(module_.arena) || fresh(module_.arena)
      ensures
        var reply := ReplyAt(module_.c, module_.r, module_.log, |old(module_.log)|);
        res == if reply.Meta? then Ok(backend in reply.info.backends) else Err(LoadFailed)
      ensures
        var info := module_.c.readMeta(module_.r, old(module_.State()), name).1;
        if info.Some? then res == Ok(backend in info.value.backends) else res == Err(LoadFailed)
    {
      mutex.Lock();
      var reply := module_.Use(MetaRead(name));
      mutex.Unlock();
      res := if reply.Meta? then Ok(backend in reply.info.backends) else Err(LoadFailed);
    }

    method MethodNames() returns (res: Result<seq<string>>)
      requires Valid()
      modifies mutex, module_, module_.arena
      ensures Valid() && module_.log == old(module_.log) + [NamesRead]
      ensures module_.arena == old(module_.arena) || fresh(module_.arena)
      ensures
        var reply := ReplyAt(module_.c, module_.r, module_.log, |old(module_.log)|);
        res == if reply.Names? then Ok(reply.names) else Err(LoadFailed)
      ensures
        var names := module_.c.readNames(module_.r, old(module_.State())).1;
        if names.Some? then res == Ok(names.value) else res == Err(LoadFailed)
    {
      mutex.Lock();
      var reply := module_.Use(NamesRead);
      mutex.Unlock();
      res := if reply.Names? then Ok(reply.names) else Err(LoadFailed);
    }

    /** Takes the mutex itself, so it must run before run_method does. */
    method GuardOpenvino(p: Process, name: string) returns (fault: Option<Fault>)
      requires Valid()
      modifies mutex, module_, module_.arena
      ensures Valid() && module_.log == old(module_.log) + [MetaRead(name)]
      ensures module_.arena == old(module_.arena) || fresh(module_.arena)
      ensures fault == GuardFault(module_.c, ReplyAt(module_.c, module_.r, module_.log, |old(module_.log)|), p.env, p.files)
      ensures
        var info := module_.c.readMeta(module_.r, old(module_.State()), name).1;
        var usable := module_.c.registered && p.env.Some? && p.env.value != "" && p.env.value in p.files;
        && (fault == Some(LoadFailed) <==> info.None?)
        && (fault == Some(BackendMissing) <==> info.Some? && OPENVINO in info.value.backends && !usable)
        && (fault.None? <==> info.Some? && (OPENVINO in info.value.backends ==> usable))
      ensures fault.None? && Honest(module_.c) && module_.c.delegates(module_.r, name)
          ==> module_.c.registered && p.env.Some? && p.env.value != "" && p.env.value in p.files
    {
      var uses := MethodUsesBackend(name, OPENVINO);
      if uses.Err? { return Some(uses.fault); }
      if !uses.value { return None; }
      if !module_.c.registered { return Some(BackendMissing); }
      var lib := p.env;
      if lib.None? || lib.value == "" { return Some(BackendMissing); }
      if lib.value !in p.files { return Some(BackendMissing); }
      return None;
    }

    /** The locked section: execute and every copy out of the arena, under one acquisition. */
    method ExecuteAndCopy(name: string, blobs: seq<Blob>) returns (fs: ForwardState?, fault: Option<Fault>)
      requires Valid() && SaneModule(module_.c)
      requires forall i | 0 <= i < |blobs| :: blobs[i].data != module_.arena
      modifies mutex, module_, module_.arena, set i | 0 <= i < |blobs| :: blobs[i].data
      ensures Valid() && module_.log == old(module_.log) + [Exec(name, old(ReadBlobs(blobs)))]
      ensures module_.arena == old(module_.arena) || fresh(module_.arena)
      ensures fs == null <==> fault.Some?
      ensures CoreResult(module_.c, module_.r, module_.log, |old(module_.log)|)
           == (if fs != null then Ok(ReadArrays(fs.views)) else Err(fault.value))
      ensures fs != null ==> Delivered(fs) && fresh(fs) && forall b | b in fs.storage.Contents() :: fresh(b)
      ensures
        var writes := WritesAt(module_.c, module_.r, module_.log, |old(module_.log)|);
        forall i | 0 <= i < |blobs| ::
          blobs[i].data[..] == LastWrite(Pointers(blobs), writes, blobs[i].data, old(blobs[i].data[..]))
    {
      hide CopyAll, CoreResult, ReplyAt, Replay, ReadArray, ReadArrays, Tensors, CopyOne, ForwardState.Holds,
           LastWrite, Pointers, WritesAt, ReadBlobs;
      mutex.Lock();
      var reply := module_.Execute(name, blobs);
      if reply.Values? {
        var copied, bad := CopyOutputs(mutex, module_.arena, reply.evs);
        mutex.Unlock();
        fs, fault := (if bad.None? then copied else null), bad;
      } else {
        mutex.Unlock();
        fs, fault := null, Some(ExecutionFailed);
      }
    }

    /** `fs` holds all outputs of the last access. */
    ghost predicate Delivered(fs: ForwardState)
      reads this, module_, module_.arena, fs, fs.storage, fs.storage.slots,
            if fs.storage.Valid() then set b | b in fs.storage.Contents() else {}
    {
      && module_.log != []
      && var reply := ReplyAt(module_.c, module_.r, module_.log, |module_.log| - 1);
         && reply.Values? && fs.Holds(module_.arena[..], reply.evs) && |fs.views| == |reply.evs|
         && forall k | 0 <= k < |reply.evs| :: Sane(module_.arena.Length, reply.evs[k])
    }

    /** What run_method does once the guard has let it pass. */
    method RunUnguarded(name: string, inputs: seq<Desc<array<byte>>>) returns (fs: ForwardState?, fault: Option<Fault>)
      requires Valid() && SaneModule(module_.c)
      requires forall i | 0 <= i < |inputs| :: inputs[i].data != module_.arena
      modifies mutex, module_, module_.arena, set i | 0 <= i < |inputs| :: inputs[i].data
      ensures Valid() && (module_.arena == old(module_.arena) || fresh(module_.arena))
      ensures fs == null <==> fault.Some?
      ensures
        var c, r, k := module_.c, module_.r, |old(module_.log)|;
        && module_.log == old(module_.log) + [Exec(name, old(TensorsOver(inputs)))]
        && CoreResult(c, r, module_.log, k) == (if fs != null then Ok(ReadArrays(fs.views)) else Err(fault.value))
        && forall i | 0 <= i < |inputs| ::
             inputs[i].data[..] ==
               LastWrite(Buffers(inputs), WritesAt(c, r, module_.log, k), inputs[i].data, old(inputs[i].data[..]))
      ensures fs != null ==> Delivered(fs) && fresh(fs) && forall b | b in fs.storage.Contents() :: fresh(b)
    {
      hide CoreResult, Replay, ReadArrays, LastWrite, WritesAt, TensorsOver, ReadBlobs, Delivered;
      var blobs := BuildTensors(inputs);
      assert Pointers(blobs) == Buffers(inputs);
      fs, fault := ExecuteAndCopy(name, blobs);
    }

    /** run_method. Refused calls never execute and write nothing; otherwise there is one execute,
        whose outcome is the sequential one at its place and which leaves in the inputs what its
        Module writes; every exit leaves the mutex free; and the outputs are in new buffers. */
    method RunMethod(p: Process, name: string, inputs: seq<Desc<array<byte>>>)
      returns (fs: ForwardState?, fault: Option<Fault>)
      requires Valid() && SaneModule(module_.c)
      requires forall i | 0 <= i < |inputs| :: inputs[i].data != module_.arena
      modifies mutex, module_, module_.arena, set i | 0 <= i < |inputs| :: inputs[i].data
      ensures Valid() && (module_.arena == old(module_.arena) || fresh(module_.arena))
      ensures fs == null <==> fault.Some?
      ensures Handled(module_.c, module_.r, p.env, p.files, name, old(TensorsOver(inputs)), old(module_.log), module_.log,
                      if fs != null then Ok(ReadArrays(fs.views)) else Err(fault.value))
      ensures forall i | 0 <= i < |inputs| ::
        inputs[i].data[..] ==
          if |module_.log| == |old(module_.log)| + 1 then old(inputs[i].data[..])
          else LastWrite(Buffers(inputs), WritesAt(module_.c, module_.r, module_.log, |old(module_.log)| + 1),
                         inputs[i].data, old(inputs[i].data[..]))
      ensures fs != null ==> Delivered(fs) && fresh(fs) && forall b | b in fs.storage.Contents() :: fresh(b)
      ensures fs != null ==> HandsOut(module_.c, module_.r, module_.log, |old(module_.log)| + 1, fs.views)
      ensures |module_.log| > |old(module_.log)| + 1
         <==> LetsThrough(module_.c, module_.r, old(module_.State()), name, p.env, p.files)
      ensures |module_.log| == |old(module_.log)| + 1
          ==> fault == Some(RefusalOf(module_.c, module_.r, old(module_.State()), name))
      ensures Honest(module_.c) && module_.c.delegates(module_.r, name) && |module_.log| > |old(module_.log)| + 1
          ==> module_.c.registered && p.env.Some? && p.env.value != "" && p.env.value in p.files
    {
      hide HandsOut, CoreResult, Replay, ReplyAt, ReadArrays, LastWrite, WritesAt, TensorsOver, Delivered, GuardFault, Buffers;
      fault := GuardOpenvino(p, name);
      ghost var guarded := module_.log;
      if fault.Some? { return null, fault; }
      fs, fault := RunUnguarded(name, inputs);
      PrefixAgrees(module_.c, module_.r, guarded, module_.log, |guarded| - 1);
      if fs != null { CoreMeans(module_.c, module_.r, module_.log, |guarded|, fs.views); }
    }
  }

  function Buffers(inputs: seq<Desc<array<byte>>>): seq<array<byte>> {
    seq(|inputs|, i requires 0 <= i < |inputs| => inputs[i].data)
  }
}
