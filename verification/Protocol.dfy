/** The protocol around a `Module` that is not thread-safe: any number of Python threads share
    any number of Runtimes, the GIL, one `exec_mutex` per Runtime, the process environment, the
    once-only load of the OpenVINO delegate, and the buffers of their arrays. One action of one
    thread is one lock, read, execute, copy, write or unlock; threads make calls on whatever
    objects they have been given so far. */
module Protocol {
  import opened Values
  import opened Marshal

  type Tid = nat
  type Rid = nat
  type BufId = nat

  // ---------- the Module: an opaque deterministic transition ----------

  type Internal(==, !new)

  /** State of one `Module`: whatever ExecuTorch keeps, and the arena its outputs point into. */
  datatype Mod = Mod(internal: Internal, arena: seq<byte>)

  datatype TensorMeta = TensorMeta(shape: seq<int>, scalarType: int, isMemoryPlanned: bool)
  datatype MetaInfo = MetaInfo(backends: set<string>, inputs: seq<TensorMeta>, outputs: seq<TensorMeta>)

  /** The environment of the protocol. The function fields are the foreign code. */
  datatype Config = Config(
    loaded: Rid -> Mod,                                        // after Module::load
    readNames: (Rid, Mod) -> (Mod, Option<seq<string>>),       // Module::method_names
    readMeta: (Rid, Mod, string) -> (Mod, Option<MetaInfo>),   // Module::method_meta
    execute: (Rid, Mod, string, seq<Input>) -> (Mod, Option<seq<EValue>>),
    writes: (Rid, Mod, string, seq<Input>) -> seq<seq<byte>>,  // what execute leaves in the borrowed inputs
    delegates: (Rid, string) -> bool,         // does executing this method enter the delegate's load?
    decode: seq<byte> -> Option<string>,      // strict UTF-8
    registered: bool,                         // backend_available("OpenvinoBackend")
    wheel: Option<string>,                    // what _wheel_lib_path returns; None when it raises
    env0: Option<string>,                     // OPENVINO_LIB_PATH at start-up
    files0: set<string>)                      // regular files at start-up

  const OPENVINO := "OpenvinoBackend"

  /** The one thing asked of the Module: metadata owns up to the OpenVINO delegate. */
  ghost predicate Honest(c: Config) {
    forall r: Rid, m: Mod, name: string ::
      c.readMeta(r, m, name).1.Some? && c.delegates(r, name)
      ==> OPENVINO in c.readMeta(r, m, name).1.value.backends
  }

  /** Every output of an execute lies in the arena it leaves, with the byte count of its sizes. */
  ghost predicate SaneModule(c: Config) {
    forall r: Rid, m: Mod, name: string, inputs: seq<Input> :: SaneOutputs(c.execute(r, m, name, inputs))
  }

  predicate SaneOutputs(result: (Mod, Option<seq<EValue>>)) {
    result.1.Some? ==> forall k | 0 <= k < |result.1.value| :: Sane(|result.0.arena|, result.1.value[k])
  }

  /** What is asked of the environment: honest metadata, and that the empty path is no file. */
  ghost predicate Trusted(c: Config) { Honest(c) && "" !in c.files0 }

  /** One use of a Module under its mutex, and what it answers. */
  datatype Access = NamesRead | MetaRead(name: string) | Exec(method_: string, inputs: seq<Input>)
  datatype Reply = Failed | Names(names: seq<string>) | Meta(info: MetaInfo) | Values(evs: seq<EValue>)

  function Perform(c: Config, r: Rid, m: Mod, a: Access): (Mod, Reply) {
    match a
    case NamesRead =>
      var (m', res) := c.readNames(r, m);
      (m', match res case None => Failed case Some(ns) => Names(ns))
    case MetaRead(name) =>
      var (m', res) := c.readMeta(r, m, name);
      (m', match res case None => Failed case Some(info) => Meta(info))
    case Exec(name, inputs) =>
      var (m', res) := c.execute(r, m, name, inputs);
      (m', match res case None => Failed case Some(evs) => Values(evs))
  }

  // ---------- calls, threads and state ----------

  /** Call number `n` of thread `t`. */
  datatype Turn = Turn(t: Tid, n: nat)

  /** A call on Runtime `rt`. Arrays are references to buffers; a Program or a Method is known by
      the call that returned it. `via` is None for a caller that skips the Python layer. */
  datatype Call =
    | RunMethod(rt: Rid, name: string, args: seq<NdArray<BufId>>, via: Option<Turn>)
    | ReadMeta(rt: Rid, name: string)                    // method_meta, method_uses_backend
    | ReadNames(rt: Rid)                                 // method_names
    | LoadMethod(rt: Rid, name: string, program: Turn)   // Program.load_method
    | Resolve(rt: Rid)                                   // Program.__init__

  datatype Outcome<D> =
    | Returned(values: seq<PyValue<D>>)
    | Raised(fault: Fault)
    | Answered(reply: Reply)
    | Opened                             // load_method: a Method
    | Resolved(needed: bool)             // a Program; needed: some method uses OpenVINO

  /** A finished call, the positions of its last metadata read and of its execute in the
      Runtime's log, its outcome, and what the outcome's arrays held when it returned. */
  datatype Record = Record(call: Call, meta: Option<nat>, exec: Option<nat>,
                           outcome: Outcome<BufId>, seen: Outcome<seq<byte>>)

  /** Who is reading metadata: the guard in run_method, a metadata binding, or the resolver. */
  datatype Use = Guard | Direct | ForNames | ForUses(names: seq<string>, i: nat)

  datatype PC =
    | Start
    // metadata access
    | AccessWait(use: Use) | AccessIn(use: Use) | AccessOut(use: Use, reply: Reply)
    | Answer(reply: Reply)
    // run_method
    | Marshalling
    | CheckBackend | CheckEnv | CheckFile(path: string)
    | ExecWait | ExecIn | CopyOut(evs: seq<EValue>, views: seq<View<BufId>>) | Abort(fault: Fault)
    | GilWait(views: seq<View<BufId>>) | Build(views: seq<View<BufId>>, out: seq<PyValue<BufId>>)
    | Unwind(fault: Fault) | Raising(fault: Fault)
    // ensure_openvino_lib_path
    | ScanHeld(names: seq<string>, i: nat, hit: bool) | Scan(names: seq<string>, i: nat, hit: bool)
    | IsFile(path: string) | FindWheel | SetEnv(path: string)

  /** A thread: its call in progress (not begun yet when `pc` is Start), the inputs it keeps
      alive, its log positions, and the calls it has finished. */
  datatype Thread = Thread(call: Option<Call>, pc: PC, held: seq<Desc<BufId>>,
                           meta: Option<nat>, exec: Option<nat>, done: seq<Record>)

  /** What a buffer was allocated for: by the caller, or as storage or result `k` of call `n` of `t`. */
  datatype Owner = CallerOf | StorageOf(t: Tid, n: nat, k: nat) | ResultOf(t: Tid, n: nat, k: nat)
  datatype Buffer = Buffer(owner: Owner, bytes: seq<byte>)

  /** The delegate's dlopen under std::call_once. */
  datatype Loader = Unloaded | Loaded(path: string) | Poisoned

  datatype Shared = Shared(
    mods: map<Rid, Mod>,             // Modules touched so far
    turns: map<Rid, seq<Turn>>,      // per Runtime: who took the mutex, in order
    log: map<Rid, seq<Access>>,      // per Runtime: the accesses they made
    heap: map<BufId, Buffer>,
    next: BufId,
    env: Option<string>,
    files: set<string>,              // regular files
    loader: Loader)

  datatype State = State(gil: Option<Tid>, mutex: map<Rid, Tid>, sh: Shared, threads: seq<Thread>)

  function ModOf(c: Config, sh: Shared, r: Rid): Mod {
    if r in sh.mods then sh.mods[r] else c.loaded(r)
  }

  function LogOf(sh: Shared, r: Rid): seq<Access> {
    if r in sh.log then sh.log[r] else []
  }

  function TurnsOf(sh: Shared, r: Rid): seq<Turn> {
    if r in sh.turns then sh.turns[r] else []
  }

  function Bytes(heap: map<BufId, Buffer>, b: BufId): seq<byte> {
    if b in heap then heap[b].bytes else []
  }

  /** The path check of the guard (and of the delegate's dlopen). */
  predicate PathGood(sh: Shared) {
    sh.env.Some? && sh.env.value != "" && sh.env.value in sh.files
  }

  function ReadPy(heap: map<BufId, Buffer>, p: PyValue<BufId>): PyValue<seq<byte>> {
    match p
    case PyArray(b, shape, d) => PyArray(Bytes(heap, b), shape, d)
    case PyInt(i) => PyInt(i)
    case PyFloat(bits) => PyFloat(bits)
    case PyBool(b) => PyBool(b)
    case PyStr(s) => PyStr(s)
  }

  function ReadAll(heap: map<BufId, Buffer>, values: seq<PyValue<BufId>>): seq<PyValue<seq<byte>>> {
    seq(|values|, i requires 0 <= i < |values| => ReadPy(heap, values[i]))
  }

  /** What a caller sees when it looks at an outcome now. */
  function Seen(heap: map<BufId, Buffer>, o: Outcome<BufId>): Outcome<seq<byte>> {
    match o
    case Returned(values) => Returned(ReadAll(heap, values))
    case Raised(f) => Raised(f)
    case Answered(reply) => Answered(reply)
    case Opened => Opened
    case Resolved(needed) => Resolved(needed)
  }

  // ---------- which locks a program point holds ----------

  predicate HoldsGil(pc: PC) {
    || pc.Marshalling? || pc.Build? || pc.Raising? || pc.Answer? || pc.ScanHeld?
    || ((pc.AccessWait? || pc.AccessIn? || pc.AccessOut?) && pc.use != Guard)
  }

  predicate HoldsMutex(pc: PC) {
    pc.AccessIn? || pc.AccessOut? || pc.ExecIn? || pc.CopyOut? || pc.Abort?
  }

  // ---------- the steps ----------

  datatype GilOp = GilKeep | GilTake | GilDrop | GilPulse   // Pulse: an action under the GIL
  datatype MutexOp = MutexKeep | MutexTake | MutexDrop

  datatype Effect = Effect(sh: Shared, th: Thread, gil: GilOp, mutex: MutexOp)

  /** Program points that go with the call in progress. */
  predicate Shape(th: Thread) {
    if th.call.None? then th.pc.Start? && th.held == []
    else
      var call := th.call.value;
      match th.pc
      case Start => th.held == []
      case AccessWait(u) => UseFits(u, call)
      case AccessIn(u) => UseFits(u, call)
      case AccessOut(u, _) => UseFits(u, call)
      case Answer(_) => UseFits(Direct, call)
      case Marshalling => call.RunMethod? && |th.held| <= |call.args|
      case CopyOut(evs, views) => call.RunMethod? && |views| <= |evs|
      case Build(views, out) => call.RunMethod? && |out| <= |views|
      case Raising(_) => true
      case ScanHeld(names, i, _) => call.Resolve? && i <= |names|
      case Scan(names, i, _) => call.Resolve? && i <= |names|
      case IsFile(_) => call.Resolve?
      case FindWheel => call.Resolve?
      case SetEnv(_) => call.Resolve?
      case _ => call.RunMethod?
  }

  predicate UseFits(u: Use, call: Call) {
    match u
    case Guard => call.RunMethod?
    case Direct => call.ReadMeta? || call.ReadNames? || call.LoadMethod?
    case ForNames => call.Resolve?
    case ForUses(names, i) => call.Resolve? && i < |names|
  }

  function AccessFor(u: Use, call: Call): Access
    requires UseFits(u, call)
  {
    match u
    case Guard => MetaRead(call.name)
    case Direct => if call.ReadMeta? then MetaRead(call.name) else NamesRead
    case ForNames => NamesRead
    case ForUses(names, i) => MetaRead(names[i])
  }

  /** The tensors run_method builds over the borrowed inputs. */
  function InputsOf(heap: map<BufId, Buffer>, held: seq<Desc<BufId>>): seq<Input> {
    seq(|held|, i requires 0 <= i < |held| =>
      ToInput(Desc(Bytes(heap, held[i].data), held[i].shape, held[i].scalarType)))
  }

  /** The arrays behind references, as they are now. */
  function Contents(heap: map<BufId, Buffer>, args: seq<NdArray<BufId>>): seq<NdArray<seq<byte>>> {
    seq(|args|, i requires 0 <= i < |args| => NdArray(args[i].dtype, args[i].shape, Bytes(heap, args[i].data)))
  }

  function Alloc(sh: Shared, owner: Owner, bytes: seq<byte>): Shared {
    sh.(heap := sh.heap[sh.next := Buffer(owner, bytes)], next := sh.next + 1)
  }

  /** The call ends: keepalives are dropped and its outcome recorded. */
  function Finish(sh: Shared, th: Thread, outcome: Outcome<BufId>): Thread
    requires th.call.Some?
  {
    Thread(None, Start, [], None, None,
           th.done + [Record(th.call.value, th.meta, th.exec, outcome, Seen(sh.heap, outcome))])
  }

  function StartStep(sh: Shared, th: Thread): Effect
    requires th.call.Some?
  {
    match th.call.value
    case RunMethod(_, _, _, _) => Effect(sh, th.(pc := Marshalling), GilTake, MutexKeep)
    case Resolve(_) => Effect(sh, th.(pc := AccessWait(ForNames)), GilTake, MutexKeep)
    case _ => Effect(sh, th.(pc := AccessWait(Direct)), GilTake, MutexKeep)
  }

  /** Taking the mutex gives the thread the next place in the Runtime's log. */
  function TakeStep(t: Tid, sh: Shared, th: Thread): Effect
    requires th.call.Some? && Shape(th) && (th.pc.AccessWait? || th.pc.ExecWait?)
  {
    var r := th.call.value.rt;
    var place := Some(|LogOf(sh, r)|);
    Effect(sh.(turns := sh.turns[r := TurnsOf(sh, r) + [Turn(t, |th.done|)]]),
           if th.pc.ExecWait? then th.(pc := ExecIn, exec := place) else th.(pc := AccessIn(th.pc.use), meta := place),
           GilKeep, MutexTake)
  }

  function ReadStep(c: Config, sh: Shared, th: Thread): Effect
    requires th.call.Some? && Shape(th) && th.pc.AccessIn?
  {
    var r, a := th.call.value.rt, AccessFor(th.pc.use, th.call.value);
    var (m, reply) := Perform(c, r, ModOf(c, sh, r), a);
    Effect(sh.(mods := sh.mods[r := m], log := sh.log[r := LogOf(sh, r) + [a]]),
           th.(pc := AccessOut(th.pc.use, reply)), GilKeep, MutexKeep)
  }

  /** Dropping the mutex after a metadata read, and what each user does with the reply. */
  function ReplyStep(sh: Shared, th: Thread): Effect
    requires th.call.Some? && Shape(th) && th.pc.AccessOut?
  {
    var pc' := match th.pc.use
      case Guard =>
        if !th.pc.reply.Meta? then Unwind(LoadFailed)
        else if OPENVINO in th.pc.reply.info.backends then CheckBackend
        else ExecWait
      case Direct => if th.pc.reply.Failed? then Raising(LoadFailed) else Answer(th.pc.reply)
      case ForNames => if th.pc.reply.Names? then ScanHeld(th.pc.reply.names, 0, false) else Raising(LoadFailed)
      case ForUses(names, i) =>
        if !th.pc.reply.Meta? then Raising(LoadFailed)
        else ScanHeld(names, i + 1, OPENVINO in th.pc.reply.info.backends);
    Effect(sh, th.(pc := pc'), GilKeep, MutexDrop)
  }

  /** One `make_held_input`; after the last one the GIL is released. */
  function MarshalStep(sh: Shared, th: Thread): Effect
    requires th.call.Some? && Shape(th) && th.pc.Marshalling?
  {
    var args, k := th.call.value.args, |th.held|;
    if k == |args| then Effect(sh, th.(pc := AccessWait(Guard)), GilDrop, MutexKeep)
    else match MakeHeldInput(args[k])
      case Err(f) => Effect(sh, th.(pc := Raising(f)), GilKeep, MutexKeep)
      case Ok(d) => Effect(sh, th.(held := th.held + [d]), GilKeep, MutexKeep)
  }

  /** The end of a metadata call; load_method looks for its name in the list. */
  function AnswerTo(call: Call, reply: Reply): Outcome<BufId> {
    if !call.LoadMethod? then Answered(reply)
    else if reply.Names? && call.name in reply.names then Opened
    else Raised(LoadFailed)
  }

  /** The checks of guard_openvino, outside every lock. */
  function GuardStep(c: Config, sh: Shared, th: Thread): Effect
    requires th.pc.CheckBackend? || th.pc.CheckEnv? || th.pc.CheckFile?
  {
    var pc' := match th.pc
      case CheckBackend => if c.registered then CheckEnv else Unwind(BackendMissing)
      case CheckEnv =>
        if sh.env.None? || sh.env.value == "" then Unwind(BackendMissing) else CheckFile(sh.env.value)
      case _ => if th.pc.path in sh.files then ExecWait else Unwind(BackendMissing);
    Effect(sh, th.(pc := pc'), GilKeep, MutexKeep)
  }

  /** Executing a delegated method enters the once-only load; there is no second chance. */
  function LoadDelegate(sh: Shared): Loader {
    if sh.loader != Unloaded then sh.loader
    else if PathGood(sh) then Loaded(sh.env.value) else Poisoned
  }

  function Borrowed(held: seq<Desc<BufId>>): seq<BufId> {
    seq(|held|, i requires 0 <= i < |held| => held[i].data)
  }

  function WriteBack(heap: map<BufId, Buffer>, bufs: seq<BufId>, writes: seq<seq<byte>>): map<BufId, Buffer> {
    map b | b in heap :: heap[b].(bytes := LastWrite(bufs, writes, b, heap[b].bytes))
  }

  /** The execute: it advances the Module and may write into the inputs it borrows. */
  function ExecStep(c: Config, sh: Shared, th: Thread): Effect
    requires th.call.Some? && Shape(th) && th.pc.ExecIn?
  {
    var r, name := th.call.value.rt, th.call.value.name;
    var inputs, before := InputsOf(sh.heap, th.held), ModOf(c, sh, r);
    var (m, reply) := Perform(c, r, before, Exec(name, inputs));
    var loader := if c.delegates(r, name) then LoadDelegate(sh) else sh.loader;
    var failed := !reply.Values? || (c.delegates(r, name) && loader == Poisoned);
    Effect(sh.(mods := sh.mods[r := m], log := sh.log[r := LogOf(sh, r) + [Exec(name, inputs)]],
               heap := WriteBack(sh.heap, Borrowed(th.held), c.writes(r, before, name, inputs)), loader := loader),
           th.(pc := if failed then Abort(ExecutionFailed) else CopyOut(reply.evs, [])), GilKeep, MutexKeep)
  }

  /** One turn of the copy-out loop, reading the arena as it is now; then unlock. */
  function CopyStep(c: Config, t: Tid, sh: Shared, th: Thread): Effect
    requires th.call.Some? && Shape(th) && th.pc.CopyOut?
  {
    var evs, views := th.pc.evs, th.pc.views;
    var k := |views|;
    if k == |evs| then Effect(sh, th.(pc := GilWait(views)), GilKeep, MutexDrop)
    else match CopyOne(ModOf(c, sh, th.call.value.rt).arena, evs[k])
      case Err(f) => Effect(sh, th.(pc := Abort(f)), GilKeep, MutexKeep)
      case Ok(v) =>
        var (sh', v') := StoreView(sh, StorageOf(t, |th.done|, k), v);
        Effect(sh', th.(pc := CopyOut(evs, views + [v'])), GilKeep, MutexKeep)
  }

  function StoreView(sh: Shared, owner: Owner, v: View<seq<byte>>): (Shared, View<BufId>) {
    match v
    case TensorView(data, shape, st) => (Alloc(sh, owner, data), TensorView(sh.next, shape, st))
    case IntView(x) => (sh, IntView(x))
    case DoubleView(bits) => (sh, DoubleView(bits))
    case BoolView(f) => (sh, BoolView(f))
    case StringView(s) => (sh, StringView(s))
  }

  function StorePy(sh: Shared, owner: Owner, p: PyValue<seq<byte>>): (Shared, PyValue<BufId>) {
    match p
    case PyArray(data, shape, d) => (Alloc(sh, owner, data), PyArray(sh.next, shape, d))
    case PyInt(i) => (sh, PyInt(i))
    case PyFloat(bits) => (sh, PyFloat(bits))
    case PyBool(b) => (sh, PyBool(b))
    case PyStr(s) => (sh, PyStr(s))
  }

  /** The bytes behind a stored view or result. */
  function ReadView(heap: map<BufId, Buffer>, v: View<BufId>): View<seq<byte>> {
    match v
    case TensorView(b, shape, st) => TensorView(Bytes(heap, b), shape, st)
    case IntView(x) => IntView(x)
    case DoubleView(bits) => DoubleView(bits)
    case BoolView(f) => BoolView(f)
    case StringView(s) => StringView(s)
  }

  /** One `copy_out` under the GIL; after the last one the list is returned. */
  function BuildStep(c: Config, t: Tid, sh: Shared, th: Thread): Effect
    requires th.call.Some? && Shape(th) && th.pc.Build?
  {
    var views, out := th.pc.views, th.pc.out;
    var k := |out|;
    if k == |views| then Effect(sh, Finish(sh, th, Returned(out)), GilDrop, MutexKeep)
    else match PyOne(c.decode, ReadView(sh.heap, views[k]), k)
      case Err(f) => Effect(sh, th.(pc := Raising(f)), GilKeep, MutexKeep)
      case Ok(p) =>
        var (sh', p') := StorePy(sh, ResultOf(t, |th.done|, k), p);
        Effect(sh', th.(pc := Build(views, out + [p'])), GilKeep, MutexKeep)
  }

  /** ensure_openvino_lib_path between its metadata reads. The GIL may change hands anywhere
      between two of these actions, so reading and writing the variable is not atomic. */
  function ResolverStep(c: Config, sh: Shared, th: Thread): Effect
    requires th.call.Some? && Shape(th)
    requires th.pc.ScanHeld? || th.pc.Scan? || th.pc.IsFile? || th.pc.FindWheel? || th.pc.SetEnv?
  {
    match th.pc
    case ScanHeld(names, i, hit) => Effect(sh, th.(pc := Scan(names, i, hit)), GilDrop, MutexKeep)
    case Scan(names, i, hit) =>
      if hit then
        Effect(sh, th.(pc := if sh.env.Some? then IsFile(sh.env.value) else FindWheel), GilPulse, MutexKeep)
      else if i < |names| then
        Effect(sh, th.(pc := AccessWait(ForUses(names, i))), GilTake, MutexKeep)
      else
        Effect(sh, Finish(sh, th, Resolved(false)), GilPulse, MutexKeep)
    case IsFile(p) =>
      Effect(sh, Finish(sh, th, if p in sh.files then Resolved(true) else Raised(BackendMissing)), GilPulse, MutexKeep)
    case FindWheel =>
      if c.wheel.None? then Effect(sh, Finish(sh, th, Raised(BackendMissing)), GilPulse, MutexKeep)
      else Effect(sh, th.(pc := SetEnv(c.wheel.value)), GilPulse, MutexKeep)
    case SetEnv(p) => Effect(sh.(env := Some(p)), Finish(sh, th, Resolved(true)), GilPulse, MutexKeep)
  }

  /** What thread `t` does next, apart from waiting for the locks it asks for. */
  function Act(c: Config, t: Tid, sh: Shared, th: Thread): Effect
    requires th.call.Some? && Shape(th)
  {
    match th.pc
    case Start => StartStep(sh, th)
    case AccessWait(_) => TakeStep(t, sh, th)
    case ExecWait => TakeStep(t, sh, th)
    case AccessIn(_) => ReadStep(c, sh, th)
    case AccessOut(_, _) => ReplyStep(sh, th)
    case Answer(reply) => Effect(sh, Finish(sh, th, AnswerTo(th.call.value, reply)), GilDrop, MutexKeep)
    case Marshalling => MarshalStep(sh, th)
    case CheckBackend => GuardStep(c, sh, th)
    case CheckEnv => GuardStep(c, sh, th)
    case CheckFile(_) => GuardStep(c, sh, th)
    case ExecIn => ExecStep(c, sh, th)
    case CopyOut(_, _) => CopyStep(c, t, sh, th)
    case Abort(f) => Effect(sh, th.(pc := Unwind(f)), GilKeep, MutexDrop)
    case GilWait(views) => Effect(sh, th.(pc := Build(views, [])), GilTake, MutexKeep)
    case Build(_, _) => BuildStep(c, t, sh, th)
    case Unwind(f) => Effect(sh, th.(pc := Raising(f)), GilTake, MutexKeep)
    case Raising(f) => Effect(sh, Finish(sh, th, Raised(f)), GilDrop, MutexKeep)
    case _ => ResolverStep(c, sh, th)
  }

  // ---------- actions ----------

  /** A thread's step, a new call of a thread, a new array of a caller, the collection of a buffer
      nobody refers to, or a new file. */
  datatype Action =
    | Run(t: Tid)
    | Issue(u: Tid, call: Call)
    | NewArray(bytes: seq<byte>)
    | Collect(b: BufId)
    | Create(path: string)

  predicate LocksFree(s: State, r: Rid, e: Effect) {
    && ((e.gil == GilTake || e.gil == GilPulse) ==> s.gil == None)
    && (e.mutex == MutexTake ==> r !in s.mutex)
  }

  /** Thread `t` has an unfinished call and the locks its next action asks for are free. */
  predicate Enabled(c: Config, s: State, t: Tid) {
    && t < |s.threads| && s.threads[t].call.Some? && Shape(s.threads[t])
    && LocksFree(s, s.threads[t].call.value.rt, Act(c, t, s.sh, s.threads[t]))
  }

  function ThreadNext(c: Config, s: State, t: Tid): State
    requires Enabled(c, s, t)
  {
    var th := s.threads[t];
    var e := Act(c, t, s.sh, th);
    State(match e.gil case GilTake => Some(t) case GilDrop => None case _ => s.gil,
          match e.mutex
          case MutexTake => s.mutex[th.call.value.rt := t]
          case MutexDrop => s.mutex - {th.call.value.rt}
          case MutexKeep => s.mutex,
          e.sh,
          s.threads[t := e.th])
  }

  /** The thread keeps nothing alive that is buffer `b`: until marshalling is over its argument
      list does that, and then the keepalives. */
  predicate Unpinned(th: Thread, b: BufId) {
    && (th.call.Some? && th.call.value.RunMethod? && (th.pc.Start? || th.pc.Marshalling?) ==>
          forall i | 0 <= i < |th.call.value.args| :: th.call.value.args[i].data != b)
    && (forall i | 0 <= i < |th.held| :: th.held[i].data != b)
    && (th.pc.CopyOut? || th.pc.GilWait? || th.pc.Build? ==>
          forall i | 0 <= i < |th.pc.views| :: !(th.pc.views[i].TensorView? && th.pc.views[i].data == b))
    && (th.pc.Build? ==> ValuesAvoid(th.pc.out, b))
    && (forall n | 0 <= n < |th.done| :: OutcomeAvoids(th.done[n].outcome, b))
  }

  predicate ValuesAvoid(values: seq<PyValue<BufId>>, b: BufId) {
    forall i | 0 <= i < |values| :: !(values[i].PyArray? && values[i].buffer == b)
  }

  predicate OutcomeAvoids(o: Outcome<BufId>, b: BufId) {
    o.Returned? ==> ValuesAvoid(o.values, b)
  }

  // ---------- what threads can call ----------

  /** Call `g` has finished. */
  predicate Finished(s: State, g: Turn) {
    g.t < |s.threads| && g.n < |s.threads[g.t].done|
  }

  function RecordOf(s: State, g: Turn): Record
    requires Finished(s, g)
  {
    s.threads[g.t].done[g.n]
  }

  /** Call `g` has been issued. */
  predicate HasCall(s: State, g: Turn) {
    Finished(s, g) || (g.t < |s.threads| && g.n == |s.threads[g.t].done| && s.threads[g.t].call.Some?)
  }

  function CallOf(s: State, g: Turn): Call
    requires HasCall(s, g)
  {
    if Finished(s, g) then RecordOf(s, g).call else s.threads[g.t].call.value
  }

  /** Buffer `b` is behind an argument of call `g`. */
  predicate PassedBy(s: State, g: Turn, b: BufId) {
    && HasCall(s, g) && CallOf(s, g).RunMethod?
    && exists i :: 0 <= i < |CallOf(s, g).args| && CallOf(s, g).args[i].data == b
  }

  /** Call `g` returned a Program over Runtime `r`. */
  predicate IsProgram(s: State, g: Turn, r: Rid) {
    Finished(s, g) && RecordOf(s, g).call == Resolve(r) && RecordOf(s, g).outcome.Resolved?
  }

  /** Call `h` returned the Method `name` of a Program over Runtime `r`. */
  predicate IsMethod(s: State, h: Turn, r: Rid, name: string) {
    && Finished(s, h) && RecordOf(s, h).outcome.Opened?
    && RecordOf(s, h).call.LoadMethod? && RecordOf(s, h).call.rt == r && RecordOf(s, h).call.name == name
  }

  /** Array number `i` of finished call `g`. */
  predicate ReturnedArray(s: State, g: Turn, i: nat) {
    && Finished(s, g) && RecordOf(s, g).outcome.Returned?
    && i < |RecordOf(s, g).outcome.values| && RecordOf(s, g).outcome.values[i].PyArray?
  }

  function ArrayBuffer(s: State, g: Turn, i: nat): BufId
    requires ReturnedArray(s, g, i)
  {
    RecordOf(s, g).outcome.values[i].buffer
  }

  /** Buffer `b` is behind an array a caller made or was given. */
  predicate PythonArray(s: State, b: BufId) {
    && b in s.sh.heap
    && match s.sh.heap[b].owner
       case CallerOf => true
       case StorageOf(_, _, _) => false
       case ResultOf(t, n, i) => ReturnedArray(s, Turn(t, n), i) && ArrayBuffer(s, Turn(t, n), i) == b
  }

  predicate Callable(s: State, call: Call) {
    match call
    case RunMethod(r, name, args, via) =>
      && (forall i | 0 <= i < |args| :: PythonArray(s, args[i].data))
      && (via.Some? ==> IsMethod(s, via.value, r, name))
    case LoadMethod(r, _, program) => IsProgram(s, program, r)
    case _ => true
  }

  // ---------- runs ----------

  predicate CanDo(c: Config, s: State, a: Action) {
    match a
    case Run(t) => Enabled(c, s, t)
    case Issue(t, call) => t < |s.threads| && s.threads[t].call.None? && Callable(s, call)
    case NewArray(_) => true
    case Collect(b) => b in s.sh.heap && forall t | 0 <= t < |s.threads| :: Unpinned(s.threads[t], b)
    case Create(path) => path != ""
  }

  function Next(c: Config, s: State, a: Action): State
    requires CanDo(c, s, a)
  {
    match a
    case Run(t) => ThreadNext(c, s, t)
    case Issue(t, call) => s.(threads := s.threads[t := s.threads[t].(call := Some(call))])
    case NewArray(bytes) => s.(sh := Alloc(s.sh, CallerOf, bytes))
    case Collect(b) => s.(sh := s.sh.(heap := s.sh.heap - {b}))
    case Create(path) => s.(sh := s.sh.(files := s.sh.files + {path}))
  }

  /** A process at start-up, with `count` threads that have made no call. */
  function Initial(c: Config, count: nat): State {
    State(None, map[], Shared(map[], map[], map[], map[], 0, c.env0, c.files0, Unloaded),
          seq(count, t => Thread(None, Start, [], None, None, [])))
  }

  predicate Feasible(c: Config, s: State, run: seq<Action>)
    decreases |run|
  {
    run == [] || (CanDo(c, s, run[0]) && Feasible(c, Next(c, s, run[0]), run[1..]))
  }

  function After(c: Config, s: State, run: seq<Action>): State
    requires Feasible(c, s, run)
    decreases |run|
  {
    if run == [] then s else After(c, Next(c, s, run[0]), run[1..])
  }

  /** Some run from start-up, with any number of threads and any calls, ends in `s`. */
  ghost predicate Reachable(c: Config, s: State) {
    exists count: nat, run: seq<Action> :: Feasible(c, Initial(c, count), run) && After(c, Initial(c, count), run) == s
  }
}
