/** What every reachable state satisfies: each thread's progress agrees with the sequential
    reference at the positions its accesses have in the log. */
module Invariant {
  import opened Values
  import opened Marshal
  import opened Protocol
  import opened Locks
  import opened Sequential

  // ---------- facts about the log ----------

  ghost predicate Logged(sh: Shared, r: Rid, k: Option<nat>, a: Access) {
    k.Some? && k.value < |LogOf(sh, r)| && LogOf(sh, r)[k.value] == a
  }

  /** Access number `k` was `a` and its sequential answer is `reply`. */
  ghost predicate Replied(c: Config, sh: Shared, r: Rid, k: Option<nat>, a: Access, reply: Reply) {
    Logged(sh, r, k, a) && ReplyAt(c, r, LogOf(sh, r), k.value) == reply
  }

  /** The guard let `name` pass: metadata read, and the path fit if the delegate needs it. */
  ghost predicate Cleared(c: Config, sh: Shared, r: Rid, name: string, k: Option<nat>) {
    && Logged(sh, r, k, MetaRead(name))
    && var reply := ReplyAt(c, r, LogOf(sh, r), k.value);
       reply.Meta? && (OPENVINO in reply.info.backends ==> c.registered && PathGood(sh))
  }

  /** The metadata of `name` names the OpenVINO delegate. */
  ghost predicate SawOpenvino(c: Config, sh: Shared, r: Rid, name: string, k: Option<nat>) {
    && Logged(sh, r, k, MetaRead(name))
    && var reply := ReplyAt(c, r, LogOf(sh, r), k.value);
       reply.Meta? && OPENVINO in reply.info.backends
  }

  /** At some point the Module listed exactly `names` as its methods. */
  ghost predicate Listed(c: Config, sh: Shared, r: Rid, names: seq<string>) {
    exists k: nat :: Replied(c, sh, r, Some(k), NamesRead, Names(names))
  }

  /** `a` is the execute `call` asks for: its method, on tensors of its arguments' shapes and dtypes. */
  ghost predicate IsExecOf(call: Call, a: Access) {
    call.RunMethod? && a.Exec? && a.method_ == call.name && Describes(call.args, a.inputs)
  }

  ghost predicate ExecLogged(sh: Shared, call: Call, k: Option<nat>) {
    k.Some? && k.value < |LogOf(sh, call.rt)| && IsExecOf(call, LogOf(sh, call.rt)[k.value])
  }

  // ---------- facts about buffers ----------

  ghost predicate Owned(sh: Shared, b: BufId, owner: Owner) {
    b in sh.heap && sh.heap[b].owner == owner
  }

  /** Storage or a result of call `n` of `t`. */
  predicate Private(owner: Owner, t: Tid, n: nat) { !owner.CallerOf? && owner.t == t && owner.n == n }

  ghost predicate Lent(sh: Shared, t: Tid, n: nat, b: BufId) {
    b in sh.heap && !Private(sh.heap[b].owner, t, n)
  }

  /** All arguments are alive. */
  ghost predicate ArgsOk(sh: Shared, t: Tid, n: nat, args: seq<NdArray<BufId>>) {
    forall i | 0 <= i < |args| :: Lent(sh, t, n, args[i].data)
  }

  /** The first |held| arguments are described over their own buffers, and those are alive. */
  ghost predicate HeldOk(sh: Shared, t: Tid, n: nat, args: seq<NdArray<BufId>>, held: seq<Desc<BufId>>) {
    && |held| <= |args|
    && forall i | 0 <= i < |held| :: MakeHeldInput(args[i]) == Ok(held[i]) && Lent(sh, t, n, held[i].data)
  }

  /** The first |views| outputs are copied as the snapshot `arena` has them. */
  ghost predicate ViewsOk(sh: Shared, t: Tid, n: nat, arena: seq<byte>, evs: seq<EValue>, views: seq<View<BufId>>) {
    && |views| <= |evs|
    && forall i | 0 <= i < |views| ::
         && (views[i].TensorView? ==> Owned(sh, views[i].data, StorageOf(t, n, i)))
         && CopyOne(arena, evs[i]) == Ok(ReadView(sh.heap, views[i]))
  }

  ghost predicate ValuesOwned(sh: Shared, t: Tid, n: nat, values: seq<PyValue<BufId>>) {
    forall i | 0 <= i < |values| :: values[i].PyArray? ==> Owned(sh, values[i].buffer, ResultOf(t, n, i))
  }

  function ReadViews(heap: map<BufId, Buffer>, views: seq<View<BufId>>): seq<View<seq<byte>>> {
    seq(|views|, i requires 0 <= i < |views| => ReadView(heap, views[i]))
  }

  /** `q` is `p` up to the bytes of an array. */
  predicate Similar(p: PyValue<BufId>, q: PyValue<seq<byte>>) {
    if p.PyArray? then q.PyArray? && q.shape == p.shape && q.dtype == p.dtype else q == ReadPy(map[], p)
  }

  predicate Resemble(values: seq<PyValue<BufId>>, seen: seq<PyValue<seq<byte>>>) {
    |seen| == |values| && forall i | 0 <= i < |values| :: Similar(values[i], seen[i])
  }

  // ---------- how each call ends ----------

  /** When run_method raises `f`: which access failed, and that nothing later was reached. */
  ghost predicate FaultOk(c: Config, sh: Shared, call: Call, meta: Option<nat>, exec: Option<nat>, f: Fault)
    requires call.RunMethod?
  {
    if exec.Some? then
      && ExecLogged(sh, call, exec) && Cleared(c, sh, call.rt, call.name, meta)
      && SeqOutcome(c, call.rt, LogOf(sh, call.rt), exec.value) == Raised(f)
    else if meta.Some? then
      && AllMapped(call.args) && Logged(sh, call.rt, meta, MetaRead(call.name))
      && var reply := ReplyAt(c, call.rt, LogOf(sh, call.rt), meta.value);
         if reply.Failed? then f == LoadFailed
         else f == BackendMissing && SawOpenvino(c, sh, call.rt, call.name, meta)
              && !(c.registered && c.env0.Some? && c.env0.value in c.files0)
    else
      f == DtypeUnmapped && !AllMapped(call.args)
  }

  ghost predicate RunRecordOk(c: Config, sh: Shared, t: Tid, n: nat, rec: Record)
    requires rec.call.RunMethod?
  {
    match rec.outcome
    case Raised(f) => rec.seen == Raised(f) && FaultOk(c, sh, rec.call, rec.meta, rec.exec, f)
    case Returned(values) =>
      && ExecLogged(sh, rec.call, rec.exec) && Cleared(c, sh, rec.call.rt, rec.call.name, rec.meta)
      && ValuesOwned(sh, t, n, values)
      && rec.seen == SeqOutcome(c, rec.call.rt, LogOf(sh, rec.call.rt), rec.exec.value)
      && rec.seen.Returned? && Resemble(values, rec.seen.values)
    case _ => false
  }

  /** How a metadata call ends on `reply`. */
  function MetaOutcome(call: Call, reply: Reply): Outcome<BufId> {
    if reply.Failed? then Raised(LoadFailed) else AnswerTo(call, reply)
  }

  /** `method_meta`, `method_uses_backend`, `method_names` and `load_method` answer as the
      sequential reference. */
  ghost predicate MetaRecordOk(c: Config, sh: Shared, rec: Record)
    requires UseFits(Direct, rec.call)
  {
    && rec.exec == None && Logged(sh, rec.call.rt, rec.meta, AccessFor(Direct, rec.call))
    && rec.outcome == MetaOutcome(rec.call, ReplyAt(c, rec.call.rt, LogOf(sh, rec.call.rt), rec.meta.value))
  }

  ghost predicate Plain(c: Config, r: Rid, names: seq<string>, upTo: nat) {
    upTo <= |names| && forall i | 0 <= i < upTo :: !c.delegates(r, names[i])
  }

  /** `Program.__init__`: needed exactly when some listed method uses OpenVINO, and then the
      variable is set; a value found at start-up was checked. */
  ghost predicate ResolveRecordOk(c: Config, sh: Shared, rec: Record)
    requires rec.call.Resolve?
  {
    && rec.exec == None
    && match rec.outcome
       case Resolved(needed) =>
         if needed then
           && (exists name :: SawOpenvino(c, sh, rec.call.rt, name, rec.meta))
           && sh.env.Some? && (c.env0.Some? ==> PathGood(sh))
         else
           exists names :: Listed(c, sh, rec.call.rt, names) && Plain(c, rec.call.rt, names, |names|)
       case Raised(f) => ResolveFaultOk(c, sh, rec.call.rt, rec.meta, f)
       case _ => false
  }

  /** Does the process start with a path the resolver can use? */
  predicate Resolvable(c: Config) {
    if c.env0.Some? then c.env0.value in c.files0 else c.wheel.Some? && c.wheel.value in c.files0
  }

  /** Why `Program.__init__` raises: its metadata could not be read, or a method needs OpenVINO and
      no usable path was there from the start. */
  ghost predicate ResolveFaultOk(c: Config, sh: Shared, r: Rid, meta: Option<nat>, f: Fault) {
    || (f == LoadFailed && exists a :: Replied(c, sh, r, meta, a, Failed))
    || (f == BackendMissing && !Resolvable(c) && exists name :: SawOpenvino(c, sh, r, name, meta))
  }

  ghost predicate RecordOk(c: Config, sh: Shared, t: Tid, n: nat, rec: Record) {
    match rec.call
    case RunMethod(_, _, _, _) => RunRecordOk(c, sh, t, n, rec)
    case Resolve(_) => ResolveRecordOk(c, sh, rec)
    case _ => MetaRecordOk(c, sh, rec)
  }

  // ---------- calls in progress ----------

  ghost predicate RunOk(c: Config, sh: Shared, t: Tid, th: Thread)
    requires th.call.Some? && Shape(th) && th.call.value.RunMethod?
  {
    var call, n := th.call.value, |th.done|;
    var r, k := call.rt, th.exec;
    var full := HeldOk(sh, t, n, call.args, th.held) && |th.held| == |call.args|;
    match th.pc
    case Start => ArgsOk(sh, t, n, call.args) && th.meta == None && k == None
    case Marshalling => ArgsOk(sh, t, n, call.args) && HeldOk(sh, t, n, call.args, th.held) && th.meta == None && k == None
    case AccessWait(_) => full && th.meta == None && k == None
    case AccessIn(_) => full && k == None
    case AccessOut(_, reply) => full && k == None && Replied(c, sh, r, th.meta, MetaRead(call.name), reply)
    case CheckBackend => full && k == None && SawOpenvino(c, sh, r, call.name, th.meta)
    case CheckEnv => full && k == None && SawOpenvino(c, sh, r, call.name, th.meta) && c.registered
    case CheckFile(p) =>
      full && k == None && SawOpenvino(c, sh, r, call.name, th.meta) && c.registered && sh.env == Some(p) && p != ""
    case ExecWait => full && k == None && Cleared(c, sh, r, call.name, th.meta)
    case ExecIn => full && Cleared(c, sh, r, call.name, th.meta)
    case CopyOut(evs, views) =>
      && full && Cleared(c, sh, r, call.name, th.meta) && ExecLogged(sh, call, k)
      && ReplyAt(c, r, LogOf(sh, r), k.value) == Protocol.Values(evs)
      && ViewsOk(sh, t, n, Replay(c, r, LogOf(sh, r)[..k.value + 1]).arena, evs, views)
    case Abort(f) => full && k.Some? && FaultOk(c, sh, call, th.meta, k, f)
    case GilWait(views) => full && Built(c, sh, t, th, views, [])
    case Build(views, out) => full && Built(c, sh, t, th, views, out)
    case Unwind(f) => full && FaultOk(c, sh, call, th.meta, k, f)
    case Raising(f) => HeldOk(sh, t, n, call.args, th.held) && FaultOk(c, sh, call, th.meta, k, f)
    case _ => false
  }

  /** All outputs are copied, and the first |out| of them are Python values. */
  ghost predicate Built(c: Config, sh: Shared, t: Tid, th: Thread, views: seq<View<BufId>>, out: seq<PyValue<BufId>>)
    requires th.call.Some? && th.call.value.RunMethod?
  {
    var call, n := th.call.value, |th.done|;
    var r, k := call.rt, th.exec;
    && Cleared(c, sh, r, call.name, th.meta) && ExecLogged(sh, call, k)
    && ReplyAt(c, r, LogOf(sh, r), k.value).Values?
    && var evs := ReplyAt(c, r, LogOf(sh, r), k.value).evs;
       && |views| == |evs|
       && ViewsOk(sh, t, n, Replay(c, r, LogOf(sh, r)[..k.value + 1]).arena, evs, views)
       && |out| <= |views| && ValuesOwned(sh, t, n, out)
       && forall i | 0 <= i < |out| :: PyOne(c.decode, ReadView(sh.heap, views[i]), i) == Ok(ReadPy(sh.heap, out[i]))
  }

  ghost predicate MetaOk(c: Config, sh: Shared, th: Thread)
    requires th.call.Some? && Shape(th) && UseFits(Direct, th.call.value)
  {
    var r, a := th.call.value.rt, AccessFor(Direct, th.call.value);
    && th.exec == None && th.held == []
    && match th.pc
       case Start => true
       case AccessWait(_) => true
       case AccessIn(_) => true
       case AccessOut(_, reply) => Replied(c, sh, r, th.meta, a, reply)
       case Answer(reply) => !reply.Failed? && Replied(c, sh, r, th.meta, a, reply)
       case Raising(f) => f == LoadFailed && Replied(c, sh, r, th.meta, a, Failed)
       case _ => false
  }

  ghost predicate ResolveOk(c: Config, sh: Shared, th: Thread)
    requires th.call.Some? && Shape(th) && th.call.value.Resolve?
  {
    var r, call := th.call.value.rt, th.call.value;
    && th.exec == None && th.held == []
    && match th.pc
       case Start => true
       case AccessWait(u) => ScanOk(c, sh, r, u)
       case AccessIn(u) => ScanOk(c, sh, r, u)
       case AccessOut(u, reply) => ScanOk(c, sh, r, u) && Replied(c, sh, r, th.meta, AccessFor(u, call), reply)
       case ScanHeld(names, i, hit) => Progressed(c, sh, r, th.meta, names, i, hit)
       case Scan(names, i, hit) => Progressed(c, sh, r, th.meta, names, i, hit)
       case IsFile(p) => (exists name :: SawOpenvino(c, sh, r, name, th.meta)) && sh.env == Some(p)
       case FindWheel => (exists name :: SawOpenvino(c, sh, r, name, th.meta)) && c.env0.None?
       case SetEnv(p) => (exists name :: SawOpenvino(c, sh, r, name, th.meta)) && c.env0.None? && c.wheel == Some(p)
       case Raising(f) => ResolveFaultOk(c, sh, r, th.meta, f)
       case _ => false
  }

  ghost predicate ScanOk(c: Config, sh: Shared, r: Rid, u: Use) {
    u.ForUses? ==> Listed(c, sh, r, u.names) && Plain(c, r, u.names, u.i)
  }

  ghost predicate Progressed(c: Config, sh: Shared, r: Rid, meta: Option<nat>, names: seq<string>, i: nat, hit: bool) {
    if hit then exists name :: SawOpenvino(c, sh, r, name, meta)
    else Listed(c, sh, r, names) && Plain(c, r, names, i)
  }

  ghost predicate InProgress(c: Config, sh: Shared, t: Tid, th: Thread)
    requires Shape(th)
  {
    if th.call.None? then th.meta == None && th.exec == None
    else match th.call.value
      case RunMethod(_, _, _, _) => RunOk(c, sh, t, th)
      case Resolve(_) => ResolveOk(c, sh, th)
      case _ => MetaOk(c, sh, th)
  }

  ghost predicate ThreadOk(c: Config, sh: Shared, t: Tid, th: Thread) {
    && Shape(th)
    && (forall n | 0 <= n < |th.done| :: RecordOk(c, sh, t, n, th.done[n]))
    && InProgress(c, sh, t, th)
  }

  // ---------- the shared part ----------

  /** OPENVINO_LIB_PATH is what it was at start-up, or was unset and now is the wheel's file;
      the once-only load never failed. */
  ghost predicate EnvOk(c: Config, sh: Shared) {
    && (sh.env == c.env0 || (c.env0.None? && c.wheel.Some? && sh.env == c.wheel))
    && "" !in sh.files && c.files0 <= sh.files
    && sh.loader != Poisoned
    && (sh.loader.Loaded? ==> sh.env == Some(sh.loader.path) && PathGood(sh))
  }

  predicate HeapOk(sh: Shared) { forall b | b in sh.heap :: b < sh.next }

  /** Each Module is where the accesses of its log, one after the other, take it. */
  ghost predicate ModsOk(c: Config, sh: Shared) {
    forall r: Rid :: ModOf(c, sh, r) == Replay(c, r, LogOf(sh, r))
  }

  /** Has `th` taken its place in the log but not yet made its access? */
  predicate Pending(th: Thread) { th.pc.AccessIn? || th.pc.ExecIn? }

  function Ticket(th: Thread): Option<nat> {
    if th.pc.AccessIn? || th.pc.AccessOut? then th.meta else th.exec
  }

  /** Whoever is inside a Module makes, or has made, the last entry in its log. */
  ghost predicate LastEntry(sh: Shared, th: Thread) {
    th.call.Some? && HoldsMutex(th.pc) ==>
      Ticket(th).Some? && Ticket(th).value + (if Pending(th) then 0 else 1) == |LogOf(sh, th.call.value.rt)|
  }

  // ---------- whose the accesses are ----------

  function ExecOf(s: State, g: Turn): Option<nat>
    requires HasCall(s, g)
  {
    if Finished(s, g) then RecordOf(s, g).exec else s.threads[g.t].exec
  }

  function MetaOf(s: State, g: Turn): Option<nat>
    requires HasCall(s, g)
  {
    if Finished(s, g) then RecordOf(s, g).meta else s.threads[g.t].meta
  }

  /** Somebody inside the Module of `r` has yet to make its access. */
  predicate Underway(s: State, r: Rid) {
    r in s.mutex && s.mutex[r] < |s.threads| && Pending(s.threads[s.mutex[r]])
  }

  /** Place `k` of `r` is a call's on `r`; if its access is an execute, it is that call's only one. */
  ghost predicate EntryOk(s: State, r: Rid, k: nat)
    requires k < |TurnsOf(s.sh, r)|
  {
    var g := TurnsOf(s.sh, r)[k];
    && HasCall(s, g) && CallOf(s, g).rt == r
    && (k < |LogOf(s.sh, r)| && LogOf(s.sh, r)[k].Exec? ==> ExecOf(s, g) == Some(k))
  }

  /** Place `k`, if there is one, was given to `g`. */
  ghost predicate PlaceOf(s: State, g: Turn, k: Option<nat>)
    requires HasCall(s, g)
  {
    k.Some? ==> k.value < |TurnsOf(s.sh, CallOf(s, g).rt)| && TurnsOf(s.sh, CallOf(s, g).rt)[k.value] == g
  }

  ghost predicate TurnsOk(s: State) {
    && (forall r: Rid :: |TurnsOf(s.sh, r)| == |LogOf(s.sh, r)| + (if Underway(s, r) then 1 else 0))
    && (forall r: Rid, k: nat | k < |TurnsOf(s.sh, r)| :: EntryOk(s, r, k))
    && (forall g: Turn | HasCall(s, g) :: PlaceOf(s, g, ExecOf(s, g)) && PlaceOf(s, g, MetaOf(s, g)))
  }

  // ---------- whose the buffers are ----------

  /** Buffer `b` is nothing a call in progress has made. */
  ghost predicate Public(s: State, b: BufId) {
    && b < s.sh.next
    && (b in s.sh.heap && !s.sh.heap[b].owner.CallerOf? ==> Finished(s, Turn(s.sh.heap[b].owner.t, s.sh.heap[b].owner.n)))
  }

  ghost predicate ArgsPublic(s: State) {
    forall g: Turn, b: BufId | PassedBy(s, g, b) :: Public(s, b)
  }

  ghost predicate Inv(c: Config, s: State) {
    && LocksOk(s)
    && EnvOk(c, s.sh) && HeapOk(s.sh) && ModsOk(c, s.sh)
    && (forall t | 0 <= t < |s.threads| :: ThreadOk(c, s.sh, t, s.threads[t]))
    && (forall t | 0 <= t < |s.threads| :: LastEntry(s.sh, s.threads[t]))
    && TurnsOk(s) && ArgsPublic(s)
  }

  // ---------- stability: what other actions leave alone ----------

  /** From `sh` to `sh'` logs grow at the end, what `th` refers to stays alive, what its call in
      progress has made keeps its bytes, a set variable keeps its value and files do not vanish. */
  ghost predicate Keeps(sh: Shared, sh': Shared, t: Tid, th: Thread) {
    && (forall r: Rid :: LogOf(sh, r) <= LogOf(sh', r))
    && (forall b | b in sh.heap :: Unpinned(th, b) ||
          (b in sh'.heap && sh'.heap[b].owner == sh.heap[b].owner
           && (Private(sh.heap[b].owner, t, |th.done|) ==> sh'.heap[b] == sh.heap[b])))
    && (sh.env.Some? ==> sh'.env == sh.env)
    && sh.files <= sh'.files
  }

  lemma LoggedKept(c: Config, sh: Shared, sh': Shared, r: Rid, k: Option<nat>, a: Access)
    requires LogOf(sh, r) <= LogOf(sh', r) && Logged(sh, r, k, a)
    ensures Logged(sh', r, k, a)
    ensures ReplyAt(c, r, LogOf(sh', r), k.value) == ReplyAt(c, r, LogOf(sh, r), k.value)
    ensures SeqOutcome(c, r, LogOf(sh', r), k.value) == SeqOutcome(c, r, LogOf(sh, r), k.value)
    ensures LogOf(sh', r)[..k.value + 1] == LogOf(sh, r)[..k.value + 1]
  {
    PrefixAgrees(c, r, LogOf(sh, r), LogOf(sh', r), k.value);
  }

  lemma ExecKept(c: Config, sh: Shared, sh': Shared, call: Call, k: Option<nat>)
    requires LogOf(sh, call.rt) <= LogOf(sh', call.rt) && ExecLogged(sh, call, k)
    ensures ExecLogged(sh', call, k)
    ensures ReplyAt(c, call.rt, LogOf(sh', call.rt), k.value) == ReplyAt(c, call.rt, LogOf(sh, call.rt), k.value)
    ensures SeqOutcome(c, call.rt, LogOf(sh', call.rt), k.value) == SeqOutcome(c, call.rt, LogOf(sh, call.rt), k.value)
    ensures LogOf(sh', call.rt)[..k.value + 1] == LogOf(sh, call.rt)[..k.value + 1]
  {
    LoggedKept(c, sh, sh', call.rt, k, LogOf(sh, call.rt)[k.value]);
  }

  lemma ClearedKept(c: Config, sh: Shared, sh': Shared, r: Rid, name: string, k: Option<nat>)
    requires LogOf(sh, r) <= LogOf(sh', r) && (sh.env.Some? ==> sh'.env == sh.env) && sh.files <= sh'.files
    ensures Cleared(c, sh, r, name, k) ==> Cleared(c, sh', r, name, k)
    ensures SawOpenvino(c, sh, r, name, k) ==> SawOpenvino(c, sh', r, name, k)
  {
    if Logged(sh, r, k, MetaRead(name)) { LoggedKept(c, sh, sh', r, k, MetaRead(name)); }
  }

  lemma SomeSawKept(c: Config, sh: Shared, sh': Shared, r: Rid, k: Option<nat>)
    requires LogOf(sh, r) <= LogOf(sh', r) && (sh.env.Some? ==> sh'.env == sh.env) && sh.files <= sh'.files
    requires exists name :: SawOpenvino(c, sh, r, name, k)
    ensures exists name :: SawOpenvino(c, sh', r, name, k)
  {
    var name :| SawOpenvino(c, sh, r, name, k);
    ClearedKept(c, sh, sh', r, name, k);
  }

  lemma ListedKept(c: Config, sh: Shared, sh': Shared, r: Rid, names: seq<string>)
    requires LogOf(sh, r) <= LogOf(sh', r) && Listed(c, sh, r, names)
    ensures Listed(c, sh', r, names)
  {
    var k: nat :| Replied(c, sh, r, Some(k), NamesRead, Names(names));
    LoggedKept(c, sh, sh', r, Some(k), NamesRead);
    assert Replied(c, sh', r, Some(k), NamesRead, Names(names));
  }

  lemma ResolveFaultKept(c: Config, sh: Shared, sh': Shared, r: Rid, meta: Option<nat>, f: Fault)
    requires LogOf(sh, r) <= LogOf(sh', r) && (sh.env.Some? ==> sh'.env == sh.env) && sh.files <= sh'.files
    requires ResolveFaultOk(c, sh, r, meta, f)
    ensures ResolveFaultOk(c, sh', r, meta, f)
  {
    if f == LoadFailed {
      var a :| Replied(c, sh, r, meta, a, Failed);
      LoggedKept(c, sh, sh', r, meta, a);
      assert Replied(c, sh', r, meta, a, Failed);
    } else {
      SomeSawKept(c, sh, sh', r, meta);
    }
  }

  lemma FaultKept(c: Config, sh: Shared, sh': Shared, call: Call, meta: Option<nat>, exec: Option<nat>, f: Fault)
    requires call.RunMethod? && FaultOk(c, sh, call, meta, exec, f)
    requires LogOf(sh, call.rt) <= LogOf(sh', call.rt) && (sh.env.Some? ==> sh'.env == sh.env) && sh.files <= sh'.files
    ensures FaultOk(c, sh', call, meta, exec, f)
  {
    ClearedKept(c, sh, sh', call.rt, call.name, meta);
    if exec.Some? {
      ExecKept(c, sh, sh', call, exec);
    } else if meta.Some? {
      LoggedKept(c, sh, sh', call.rt, meta, MetaRead(call.name));
    }
  }

  lemma RecordKept(c: Config, sh: Shared, sh': Shared, t: Tid, th: Thread, n: nat)
    requires Keeps(sh, sh', t, th) && n < |th.done| && RecordOk(c, sh, t, n, th.done[n])
    ensures RecordOk(c, sh', t, n, th.done[n])
  {
    var rec := th.done[n];
    var r := rec.call.rt;
    match rec.call
    case RunMethod(_, name, _, _) =>
      if rec.outcome.Raised? {
        FaultKept(c, sh, sh', rec.call, rec.meta, rec.exec, rec.outcome.fault);
      } else {
        ClearedKept(c, sh, sh', r, name, rec.meta);
        ExecKept(c, sh, sh', rec.call, rec.exec);
        var values := rec.outcome.values;
        forall i | 0 <= i < |values| && values[i].PyArray? ensures Owned(sh', values[i].buffer, ResultOf(t, n, i)) {
          assert !OutcomeAvoids(rec.outcome, values[i].buffer);
          assert !Unpinned(th, values[i].buffer);
        }
      }
    case Resolve(_) =>
      if rec.outcome == Resolved(true) {
        SomeSawKept(c, sh, sh', r, rec.meta);
      } else if rec.outcome == Resolved(false) {
        var names :| Listed(c, sh, r, names) && Plain(c, r, names, |names|);
        ListedKept(c, sh, sh', r, names);
      } else {
        ResolveFaultKept(c, sh, sh', r, rec.meta, rec.outcome.fault);
      }
    case _ =>
      LoggedKept(c, sh, sh', r, rec.meta, AccessFor(Direct, rec.call));
  }

  lemma HeldKept(sh: Shared, sh': Shared, t: Tid, th: Thread, args: seq<NdArray<BufId>>)
    requires Keeps(sh, sh', t, th) && HeldOk(sh, t, |th.done|, args, th.held)
    ensures HeldOk(sh', t, |th.done|, args, th.held)
  {
    forall i | 0 <= i < |th.held| ensures Lent(sh', t, |th.done|, th.held[i].data) {
      assert !Unpinned(th, th.held[i].data);
    }
  }

  lemma ArgsKept(sh: Shared, sh': Shared, t: Tid, th: Thread)
    requires th.call.Some? && th.call.value.RunMethod? && (th.pc.Start? || th.pc.Marshalling?)
    requires Keeps(sh, sh', t, th) && ArgsOk(sh, t, |th.done|, th.call.value.args)
    ensures ArgsOk(sh', t, |th.done|, th.call.value.args)
  {
    var args := th.call.value.args;
    forall i | 0 <= i < |args| ensures Lent(sh', t, |th.done|, args[i].data) {
      assert !Unpinned(th, args[i].data);
    }
  }

  lemma ViewsKept(sh: Shared, sh': Shared, t: Tid, th: Thread, arena: seq<byte>, evs: seq<EValue>)
    requires Keeps(sh, sh', t, th) && (th.pc.CopyOut? || th.pc.GilWait? || th.pc.Build?)
    requires ViewsOk(sh, t, |th.done|, arena, evs, th.pc.views)
    ensures ViewsOk(sh', t, |th.done|, arena, evs, th.pc.views)
    ensures forall i | 0 <= i < |th.pc.views| :: ReadView(sh'.heap, th.pc.views[i]) == ReadView(sh.heap, th.pc.views[i])
  {
    var views := th.pc.views;
    forall i | 0 <= i < |views| && views[i].TensorView?
      ensures Owned(sh', views[i].data, StorageOf(t, |th.done|, i))
      ensures Bytes(sh'.heap, views[i].data) == Bytes(sh.heap, views[i].data)
    {
      assert !Unpinned(th, views[i].data);
    }
  }

  lemma BuiltKept(c: Config, sh: Shared, sh': Shared, t: Tid, th: Thread, out: seq<PyValue<BufId>>)
    requires th.call.Some? && th.call.value.RunMethod? && Keeps(sh, sh', t, th)
    requires (th.pc.GilWait? && out == []) || (th.pc.Build? && out == th.pc.out)
    requires Built(c, sh, t, th, th.pc.views, out)
    ensures Built(c, sh', t, th, th.pc.views, out)
  {
    var call, n := th.call.value, |th.done|;
    ClearedKept(c, sh, sh', call.rt, call.name, th.meta);
    ExecKept(c, sh, sh', call, th.exec);
    var log := LogOf(sh, call.rt);
    ViewsKept(sh, sh', t, th, Replay(c, call.rt, log[..th.exec.value + 1]).arena, ReplyAt(c, call.rt, log, th.exec.value).evs);
    forall i | 0 <= i < |out| && out[i].PyArray?
      ensures Owned(sh', out[i].buffer, ResultOf(t, n, i)) && Bytes(sh'.heap, out[i].buffer) == Bytes(sh.heap, out[i].buffer)
    {
      assert !ValuesAvoid(out, out[i].buffer);
      assert !Unpinned(th, out[i].buffer);
    }
  }

  predicate BeforeExec(pc: PC) {
    pc.Start? || pc.Marshalling? || pc.AccessWait? || pc.AccessIn? || pc.AccessOut?
    || pc.CheckBackend? || pc.CheckEnv? || pc.CheckFile? || pc.ExecWait?
  }

  lemma RunKeptBeforeExec(c: Config, sh: Shared, sh': Shared, t: Tid, th: Thread)
    requires Shape(th) && th.call.Some? && th.call.value.RunMethod? && Keeps(sh, sh', t, th) && BeforeExec(th.pc)
    requires RunOk(c, sh, t, th)
    ensures RunOk(c, sh', t, th)
  {
    var call := th.call.value;
    if th.pc.Start? || th.pc.Marshalling? { ArgsKept(sh, sh', t, th); }
    if !th.pc.Start? { HeldKept(sh, sh', t, th, call.args); }
    ClearedKept(c, sh, sh', call.rt, call.name, th.meta);
    if th.pc.AccessOut? { LoggedKept(c, sh, sh', call.rt, th.meta, MetaRead(call.name)); }
  }

  lemma RunKeptInExec(c: Config, sh: Shared, sh': Shared, t: Tid, th: Thread)
    requires Shape(th) && th.call.Some? && th.call.value.RunMethod? && Keeps(sh, sh', t, th)
    requires th.pc.ExecIn? || th.pc.CopyOut? || th.pc.Build? || th.pc.GilWait?
    requires RunOk(c, sh, t, th)
    ensures RunOk(c, sh', t, th)
  {
    var call := th.call.value;
    var r := call.rt;
    HeldKept(sh, sh', t, th, call.args);
    if th.pc.GilWait? {
      BuiltKept(c, sh, sh', t, th, []);
    } else if th.pc.Build? {
      BuiltKept(c, sh, sh', t, th, th.pc.out);
    } else {
      ClearedKept(c, sh, sh', r, call.name, th.meta);
      if th.pc.CopyOut? {
        ExecKept(c, sh, sh', call, th.exec);
        ViewsKept(sh, sh', t, th, Replay(c, r, LogOf(sh, r)[..th.exec.value + 1]).arena, th.pc.evs);
      }
    }
  }

  lemma RunKept(c: Config, sh: Shared, sh': Shared, t: Tid, th: Thread)
    requires Shape(th) && th.call.Some? && th.call.value.RunMethod? && Keeps(sh, sh', t, th)
    requires RunOk(c, sh, t, th)
    ensures RunOk(c, sh', t, th)
  {
    if BeforeExec(th.pc) {
      RunKeptBeforeExec(c, sh, sh', t, th);
    } else if th.pc.Abort? || th.pc.Unwind? || th.pc.Raising? {
      FaultKept(c, sh, sh', th.call.value, th.meta, th.exec, th.pc.fault);
      HeldKept(sh, sh', t, th, th.call.value.args);
    } else {
      RunKeptInExec(c, sh, sh', t, th);
    }
  }

  lemma ResolveKept(c: Config, sh: Shared, sh': Shared, th: Thread)
    requires Shape(th) && th.call.Some? && th.call.value.Resolve?
    requires (forall r: Rid :: LogOf(sh, r) <= LogOf(sh', r)) && (sh.env.Some? ==> sh'.env == sh.env) && sh.files <= sh'.files
    requires ResolveOk(c, sh, th)
    ensures ResolveOk(c, sh', th)
  {
    var r := th.call.value.rt;
    match th.pc
    case AccessWait(u) => if u.ForUses? { ListedKept(c, sh, sh', r, u.names); }
    case AccessIn(u) => if u.ForUses? { ListedKept(c, sh, sh', r, u.names); }
    case AccessOut(u, _) =>
      if u.ForUses? { ListedKept(c, sh, sh', r, u.names); }
      LoggedKept(c, sh, sh', r, th.meta, AccessFor(u, th.call.value));
    case ScanHeld(names, _, hit) => if hit { SomeSawKept(c, sh, sh', r, th.meta); } else { ListedKept(c, sh, sh', r, names); }
    case Scan(names, _, hit) => if hit { SomeSawKept(c, sh, sh', r, th.meta); } else { ListedKept(c, sh, sh', r, names); }
    case IsFile(_) => SomeSawKept(c, sh, sh', r, th.meta);
    case FindWheel => SomeSawKept(c, sh, sh', r, th.meta);
    case SetEnv(_) => SomeSawKept(c, sh, sh', r, th.meta);
    case Raising(f) => ResolveFaultKept(c, sh, sh', r, th.meta, f);
    case _ =>
  }

  lemma ThreadKept(c: Config, sh: Shared, sh': Shared, t: Tid, th: Thread)
    requires ThreadOk(c, sh, t, th) && Keeps(sh, sh', t, th)
    ensures ThreadOk(c, sh', t, th)
  {
    forall n | 0 <= n < |th.done| ensures RecordOk(c, sh', t, n, th.done[n]) {
      RecordKept(c, sh, sh', t, th, n);
    }
    if th.call.Some? {
      match th.call.value
      case RunMethod(_, _, _, _) => RunKept(c, sh, sh', t, th);
      case Resolve(_) => ResolveKept(c, sh, sh', th);
      case _ =>
        if Logged(sh, th.call.value.rt, th.meta, AccessFor(Direct, th.call.value)) {
          LoggedKept(c, sh, sh', th.call.value.rt, th.meta, AccessFor(Direct, th.call.value));
        }
    }
  }
}
