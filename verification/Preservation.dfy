/** Every action of every thread keeps the invariant. */
module Preservation {
  import opened Values
  import opened Marshal
  import opened Protocol
  import opened Sequential
  import opened Invariant

  /** Logs and heap only grow, only an execute writes and only into what it borrows, a set
      variable keeps its value, files do not vanish. */
  ghost predicate Extends(sh: Shared, sh': Shared, th: Thread) {
    && (forall r: Rid :: LogOf(sh, r) <= LogOf(sh', r))
    && sh.next <= sh'.next && (forall b | b in sh'.heap :: b in sh.heap || sh.next <= b)
    && (forall b | b in sh.heap :: b in sh'.heap && sh'.heap[b].owner == sh.heap[b].owner
          && (sh'.heap[b] == sh.heap[b] || (th.pc.ExecIn? && b in Borrowed(th.held))))
    && (sh.env.Some? ==> sh'.env == sh.env)
    && sh.files <= sh'.files
  }

  /** What one action does to the log and the Module of its Runtime `r`: whoever had a place makes
      its access, and nobody else touches them. */
  ghost predicate ModuleEffect(c: Config, sh: Shared, th: Thread, e: Effect)
    requires th.call.Some?
  {
    var r := th.call.value.rt;
    && (forall q: Rid | q != r :: LogOf(e.sh, q) == LogOf(sh, q) && ModOf(c, e.sh, q) == ModOf(c, sh, q))
    && if Pending(th) then
         && |LogOf(e.sh, r)| == |LogOf(sh, r)| + 1 && LogOf(sh, r) <= LogOf(e.sh, r)
         && ModOf(c, e.sh, r) == Perform(c, r, ModOf(c, sh, r), LogOf(e.sh, r)[|LogOf(sh, r)|]).0
       else
         LogOf(e.sh, r) == LogOf(sh, r) && ModOf(c, e.sh, r) == ModOf(c, sh, r)
  }

  ghost predicate Ready(c: Config, sh: Shared, t: Tid, th: Thread) {
    && th.call.Some? && ThreadOk(c, sh, t, th)
    && EnvOk(c, sh) && HeapOk(sh) && ModsOk(c, sh) && LastEntry(sh, th)
  }

  ghost predicate GoodEffect(c: Config, sh: Shared, th: Thread, e: Effect)
    requires th.call.Some?
  {
    Extends(sh, e.sh, th) && HeapOk(e.sh) && EnvOk(c, e.sh) && ModuleEffect(c, sh, th, e) && LastEntry(e.sh, e.th)
  }

  lemma ModsFollow(c: Config, sh: Shared, th: Thread, e: Effect)
    requires th.call.Some? && ModsOk(c, sh) && ModuleEffect(c, sh, th, e)
    ensures ModsOk(c, e.sh)
  {
    var r := th.call.value.rt;
    var log, log' := LogOf(sh, r), LogOf(e.sh, r);
    if Pending(th) {
      assert log' == log + [log'[|log|]];
      ReplayAppend(c, r, log, log'[|log|]);
    }
    forall q: Rid ensures ModOf(c, e.sh, q) == Replay(c, q, LogOf(e.sh, q)) {
      assert ModOf(c, sh, q) == Replay(c, q, LogOf(sh, q));
    }
  }

  // ---------- the once-only load ----------

  /** A method the guard let pass enters the delegate's load only with a usable path. */
  lemma ClearedMeansGood(c: Config, sh: Shared, r: Rid, name: string, k: Option<nat>)
    requires Honest(c) && Cleared(c, sh, r, name, k) && c.delegates(r, name)
    ensures PathGood(sh) && c.registered
  {
    assert c.readMeta(r, Replay(c, r, LogOf(sh, r)[..k.value]), name).1.Some?;
  }

  lemma LoadSucceeds(c: Config, t: Tid, sh: Shared, th: Thread)
    requires Honest(c) && Ready(c, sh, t, th) && th.pc.ExecIn?
    ensures c.delegates(th.call.value.rt, th.call.value.name) ==>
      LoadDelegate(sh).Loaded? && sh.env == Some(LoadDelegate(sh).path) && PathGood(sh)
  {
    if c.delegates(th.call.value.rt, th.call.value.name) {
      ClearedMeansGood(c, sh, th.call.value.rt, th.call.value.name, th.meta);
    }
  }

  // ---------- shared state ----------

  ghost predicate Sound(c: Config, sh: Shared, th: Thread) {
    th.call.Some? && Shape(th) && EnvOk(c, sh) && HeapOk(sh) && LastEntry(sh, th)
  }

  lemma TakeEffects(c: Config, t: Tid, sh: Shared, th: Thread)
    requires Sound(c, sh, th) && (th.pc.AccessWait? || th.pc.ExecWait?)
    ensures GoodEffect(c, sh, th, Act(c, t, sh, th))
  {
  }

  lemma ReadEffects(c: Config, t: Tid, sh: Shared, th: Thread)
    requires Sound(c, sh, th) && th.pc.AccessIn?
    ensures GoodEffect(c, sh, th, Act(c, t, sh, th))
  {
  }

  /** At most one buffer is allocated; the log, the Module and its holder stay. */
  ghost predicate Local(c: Config, sh: Shared, th: Thread, e: Effect) {
    && (e.sh == sh || exists owner, bytes :: e.sh == Alloc(sh, owner, bytes))
    && !Pending(th) && !Pending(e.th)
    && (HoldsMutex(e.th.pc) ==> HoldsMutex(th.pc) && Ticket(e.th) == Ticket(th) && e.th.call == th.call)
  }

  lemma LocalIsGood(c: Config, sh: Shared, th: Thread, e: Effect)
    requires Sound(c, sh, th) && Local(c, sh, th, e)
    ensures GoodEffect(c, sh, th, e)
  {
    assert forall r: Rid :: LogOf(e.sh, r) == LogOf(sh, r) && ModOf(c, e.sh, r) == ModOf(c, sh, r);
  }

  lemma ReplyIsLocal(c: Config, t: Tid, sh: Shared, th: Thread)
    requires th.call.Some? && Shape(th) && (th.pc.AccessOut? || th.pc.Answer? || th.pc.Start?)
    ensures Local(c, sh, th, Act(c, t, sh, th))
  {
  }

  lemma RunIsLocal(c: Config, t: Tid, sh: Shared, th: Thread)
    requires th.call.Some? && Shape(th)
    requires th.pc.Marshalling? || th.pc.CheckBackend? || th.pc.CheckEnv? || th.pc.CheckFile? || th.pc.Abort?
          || th.pc.GilWait? || th.pc.Unwind? || th.pc.Raising?
    ensures Local(c, sh, th, Act(c, t, sh, th))
  {
  }

  lemma OutputIsLocal(c: Config, t: Tid, sh: Shared, th: Thread)
    requires th.call.Some? && Shape(th) && (th.pc.CopyOut? || th.pc.Build?)
    ensures Local(c, sh, th, Act(c, t, sh, th))
  {
  }

  lemma ExecEffects(c: Config, t: Tid, sh: Shared, th: Thread)
    requires Honest(c) && Ready(c, sh, t, th) && th.pc.ExecIn?
    ensures GoodEffect(c, sh, th, Act(c, t, sh, th))
  {
    hide ResolveOk, MetaOk, ResolveRecordOk, MetaRecordOk;
    LoadSucceeds(c, t, sh, th);
  }

  lemma ResolverIsLocal(c: Config, t: Tid, sh: Shared, th: Thread)
    requires th.call.Some? && Shape(th)
    requires th.pc.ScanHeld? || th.pc.Scan? || th.pc.IsFile? || th.pc.FindWheel?
    ensures Local(c, sh, th, Act(c, t, sh, th))
  {
  }

  /** The resolver's write cannot change a variable that is set: it found it unset at start-up. */
  lemma SetEffects(c: Config, t: Tid, sh: Shared, th: Thread)
    requires Sound(c, sh, th) && th.pc.SetEnv? && c.env0.None? && c.wheel == Some(th.pc.path)
    ensures GoodEffect(c, sh, th, Act(c, t, sh, th))
  {
    var e := Act(c, t, sh, th);
    assert forall r: Rid :: LogOf(e.sh, r) == LogOf(sh, r) && ModOf(c, e.sh, r) == ModOf(c, sh, r);
  }

  lemma Effects(c: Config, t: Tid, sh: Shared, th: Thread)
    requires Honest(c) && Ready(c, sh, t, th)
    ensures GoodEffect(c, sh, th, Act(c, t, sh, th))
  {
    if th.pc.ScanHeld? || th.pc.Scan? || th.pc.IsFile? || th.pc.FindWheel? {
      ResolverIsLocal(c, t, sh, th);
      LocalIsGood(c, sh, th, Act(c, t, sh, th));
    } else if th.pc.SetEnv? {
      SetEffects(c, t, sh, th);
    } else if th.pc.ExecIn? {
      ExecEffects(c, t, sh, th);
    } else if th.pc.CopyOut? || th.pc.Build? {
      OutputIsLocal(c, t, sh, th);
      LocalIsGood(c, sh, th, Act(c, t, sh, th));
    } else if th.pc.AccessWait? || th.pc.ExecWait? {
      TakeEffects(c, t, sh, th);
    } else if th.pc.AccessIn? {
      ReadEffects(c, t, sh, th);
    } else if th.pc.AccessOut? || th.pc.Answer? || th.pc.Start? {
      ReplyIsLocal(c, t, sh, th);
      LocalIsGood(c, sh, th, Act(c, t, sh, th));
    } else {
      RunIsLocal(c, t, sh, th);
      LocalIsGood(c, sh, th, Act(c, t, sh, th));
    }
  }

  // ---------- the acting thread ----------

  /** The acting thread still agrees with the sequential reference after its action. */
  ghost predicate Advanced(c: Config, t: Tid, sh: Shared, th: Thread)
    requires th.call.Some? && Shape(th)
  {
    var e := Act(c, t, sh, th);
    ThreadOk(c, e.sh, t, e.th)
  }

  /** What held of the thread before its action still holds in the shared state after it. */
  ghost predicate Lifted(c: Config, t: Tid, sh: Shared, th: Thread)
    requires th.call.Some? && Shape(th)
  {
    var sh' := Act(c, t, sh, th).sh;
    Extends(sh, sh', th) && ThreadOk(c, sh', t, th)
  }

  /** A complete list of keepalives describes the arguments' tensors. */
  lemma HeldDescribes(sh: Shared, t: Tid, n: nat, args: seq<NdArray<BufId>>, held: seq<Desc<BufId>>)
    requires HeldOk(sh, t, n, args, held) && |held| == |args|
    ensures Describes(args, InputsOf(sh.heap, held))
  {
    forall i | 0 <= i < |args|
      ensures ScalarTypeOf(args[i].dtype).Ok?
      ensures InputsOf(sh.heap, held)[i] ==
        ToInput(Desc(InputsOf(sh.heap, held)[i].bytes, args[i].shape, ScalarTypeOf(args[i].dtype).value))
    {
      assert MakeHeldInput(args[i]) == Ok(held[i]);
    }
  }

  /** After `Finish` the finished call is recorded and no other has begun. */
  lemma FinishedOk(c: Config, sh: Shared, t: Tid, th: Thread, o: Outcome<BufId>)
    requires th.call.Some? && ThreadOk(c, sh, t, th)
    requires RecordOk(c, sh, t, |th.done|, Record(th.call.value, th.meta, th.exec, o, Seen(sh.heap, o)))
    ensures ThreadOk(c, sh, t, Finish(sh, th, o))
  {
  }

  lemma AccessAdvances(c: Config, t: Tid, sh: Shared, th: Thread)
    requires Ready(c, sh, t, th)
    requires th.pc.AccessWait? || th.pc.Start? || th.pc.ExecWait?
    requires Lifted(c, t, sh, th)
    ensures Advanced(c, t, sh, th)
  {
  }

  lemma ReadReplied(c: Config, t: Tid, sh: Shared, th: Thread)
    requires Ready(c, sh, t, th) && th.pc.AccessIn?
    ensures
      var e := Act(c, t, sh, th);
      && e.th == th.(pc := e.th.pc) && e.th.pc == AccessOut(th.pc.use, e.th.pc.reply)
      && Replied(c, e.sh, th.call.value.rt, th.meta, AccessFor(th.pc.use, th.call.value), e.th.pc.reply)
  {
    hide RecordOk, RunOk, MetaOk, ResolveOk, EnvOk;
    var r := th.call.value.rt;
    assert ModOf(c, sh, r) == Replay(c, r, LogOf(sh, r));
    ReplayAppend(c, r, LogOf(sh, r), AccessFor(th.pc.use, th.call.value));
  }

  lemma ReadDone(c: Config, sh: Shared, t: Tid, th: Thread, reply: Reply)
    requires th.call.Some? && ThreadOk(c, sh, t, th) && th.pc.AccessIn?
    requires Replied(c, sh, th.call.value.rt, th.meta, AccessFor(th.pc.use, th.call.value), reply)
    ensures ThreadOk(c, sh, t, th.(pc := AccessOut(th.pc.use, reply)))
  {
    hide RecordOk, Replied, HeldOk, ScanOk;
  }

  lemma ReadAdvances(c: Config, t: Tid, sh: Shared, th: Thread)
    requires Ready(c, sh, t, th) && th.pc.AccessIn?
    requires Lifted(c, t, sh, th)
    ensures Advanced(c, t, sh, th)
  {
    var e := Act(c, t, sh, th);
    ReadReplied(c, t, sh, th);
    hide Act, Replied, ThreadOk;
    ReadDone(c, e.sh, t, th, e.th.pc.reply);
  }

  lemma AnswerAdvances(c: Config, t: Tid, sh: Shared, th: Thread)
    requires Ready(c, sh, t, th)
    requires th.pc.Answer? || (th.pc.AccessOut? && th.pc.use.Direct?)
    ensures Advanced(c, t, sh, th)
  {
    if th.pc.Answer? { FinishedOk(c, sh, t, th, AnswerTo(th.call.value, th.pc.reply)); }
  }

  lemma GuardReplyAdvances(c: Config, t: Tid, sh: Shared, th: Thread)
    requires Ready(c, sh, t, th) && th.pc.AccessOut? && th.pc.use.Guard?
    ensures Advanced(c, t, sh, th)
  {
    hide ResolveOk, MetaOk, ResolveRecordOk, MetaRecordOk;
    HeldDescribes(sh, t, |th.done|, th.call.value.args, th.held);
  }

  lemma ScanReplyAdvances(c: Config, t: Tid, sh: Shared, th: Thread)
    requires Honest(c) && Ready(c, sh, t, th) && th.pc.AccessOut? && !th.pc.use.Direct? && !th.pc.use.Guard?
    ensures Advanced(c, t, sh, th)
  {
    hide RunRecordOk, MetaRecordOk, RunOk, MetaOk;
    var r, k := th.call.value.rt, th.meta.value;
    if th.pc.use.ForUses? && th.pc.reply.Meta? {
      var name := th.pc.use.names[th.pc.use.i];
      if OPENVINO in th.pc.reply.info.backends {
        assert SawOpenvino(c, sh, r, name, th.meta);
      } else {
        assert c.readMeta(r, Replay(c, r, LogOf(sh, r)[..k]), name).1.Some?;
      }
    } else if th.pc.use.ForNames? && th.pc.reply.Names? {
      assert Replied(c, sh, r, Some(k), NamesRead, Names(th.pc.reply.names));
    } else {
      assert Replied(c, sh, r, th.meta, AccessFor(th.pc.use, th.call.value), Failed);
    }
  }

  lemma GuardAdvances(c: Config, t: Tid, sh: Shared, th: Thread)
    requires Ready(c, sh, t, th)
    requires th.pc.CheckBackend? || th.pc.CheckEnv? || th.pc.CheckFile?
    ensures Advanced(c, t, sh, th)
  {
    hide ResolveOk, MetaOk, ResolveRecordOk, MetaRecordOk;
    HeldDescribes(sh, t, |th.done|, th.call.value.args, th.held);
  }

  lemma MarshalAdvances(c: Config, t: Tid, sh: Shared, th: Thread)
    requires Ready(c, sh, t, th) && th.pc.Marshalling?
    ensures Advanced(c, t, sh, th)
  {
    hide ResolveOk, MetaOk, ResolveRecordOk, MetaRecordOk;
    var args, k := th.call.value.args, |th.held|;
    if k < |args| && MakeHeldInput(args[k]).Err? {
      assert MakeHeldInput(args[k]).fault == DtypeUnmapped;
      assert ScalarTypeOf(args[k].dtype).Err?;
    }
  }

  lemma UnwindAdvances(c: Config, t: Tid, sh: Shared, th: Thread)
    requires Ready(c, sh, t, th) && (th.pc.Abort? || th.pc.Unwind?)
    ensures Advanced(c, t, sh, th)
  {
    hide RecordOk, FaultOk, HeldOk;
  }

  lemma CopiedAdvances(c: Config, t: Tid, sh: Shared, th: Thread)
    requires Ready(c, sh, t, th) && th.pc.GilWait?
    ensures Advanced(c, t, sh, th)
  {
    hide RecordOk, HeldOk;
  }

  lemma RaisingAdvances(c: Config, t: Tid, sh: Shared, th: Thread)
    requires Ready(c, sh, t, th) && th.pc.Raising?
    ensures Advanced(c, t, sh, th)
  {
    FinishedOk(c, sh, t, th, Raised(th.pc.fault));
  }

  /** What the execute answered, in terms of the log it is now in. */
  ghost predicate Executed(c: Config, sh: Shared, th: Thread, pc: PC)
    requires th.call.Some?
  {
    var call, k := th.call.value, th.exec;
    && ExecLogged(sh, call, k)
    && var reply := ReplyAt(c, call.rt, LogOf(sh, call.rt), k.value);
       pc == if reply.Values? then CopyOut(reply.evs, []) else Abort(ExecutionFailed)
  }

  lemma ExecLogs(c: Config, t: Tid, sh: Shared, th: Thread)
    requires th.call.Some? && Shape(th) && th.pc.ExecIn?
    requires c.delegates(th.call.value.rt, th.call.value.name) ==> LoadDelegate(sh) != Poisoned
    ensures
      var e, r, a := Act(c, t, sh, th), th.call.value.rt, Exec(th.call.value.name, InputsOf(sh.heap, th.held));
      var reply := Perform(c, r, ModOf(c, sh, r), a).1;
      && LogOf(e.sh, r) == LogOf(sh, r) + [a]
      && e.th == th.(pc := if reply.Values? then CopyOut(reply.evs, []) else Abort(ExecutionFailed))
  {
  }

  lemma ExecAnswers(c: Config, t: Tid, sh: Shared, th: Thread)
    requires Honest(c) && Ready(c, sh, t, th) && th.pc.ExecIn?
    ensures
      var e := Act(c, t, sh, th);
      e.th == th.(pc := e.th.pc) && Executed(c, e.sh, th, e.th.pc)
  {
    LoadSucceeds(c, t, sh, th);
    HeldDescribes(sh, t, |th.done|, th.call.value.args, th.held);
    ExecLogs(c, t, sh, th);
    hide Act, RecordOk, Describes, HeldOk, ResolveOk, MetaOk, Cleared, EnvOk, Perform;
    var r, a := th.call.value.rt, Exec(th.call.value.name, InputsOf(sh.heap, th.held));
    assert ModOf(c, sh, r) == Replay(c, r, LogOf(sh, r));
    ReplayAppend(c, r, LogOf(sh, r), a);
  }

  lemma ExecDone(c: Config, sh: Shared, t: Tid, th: Thread, pc: PC)
    requires th.call.Some? && ThreadOk(c, sh, t, th) && th.pc.ExecIn? && Executed(c, sh, th, pc)
    ensures ThreadOk(c, sh, t, th.(pc := pc))
  {
    hide RecordOk, HeldOk, Cleared, Describes, ReplyAt, Replay, ResolveOk, MetaOk;
  }

  lemma ExecAdvances(c: Config, t: Tid, sh: Shared, th: Thread)
    requires Honest(c) && Ready(c, sh, t, th) && th.pc.ExecIn?
    requires Lifted(c, t, sh, th)
    ensures Advanced(c, t, sh, th)
  {
    var e := Act(c, t, sh, th);
    ExecAnswers(c, t, sh, th);
    hide Act, ThreadOk, Executed;
    ExecDone(c, e.sh, t, th, e.th.pc);
  }

  /** What the copying loop reads is the snapshot of the arena right after the execute. */
  lemma CopyReads(c: Config, t: Tid, sh: Shared, th: Thread)
    requires Ready(c, sh, t, th) && th.pc.CopyOut?
    ensures
      var r := th.call.value.rt;
      ModOf(c, sh, r).arena == Replay(c, r, LogOf(sh, r)[..th.exec.value + 1]).arena
  {
    var log := LogOf(sh, th.call.value.rt);
    assert log[..th.exec.value + 1] == log;
    assert ModOf(c, sh, th.call.value.rt) == Replay(c, th.call.value.rt, log);
  }

  lemma CopyEnds(c: Config, t: Tid, sh: Shared, th: Thread)
    requires Ready(c, sh, t, th) && th.pc.CopyOut? && |th.pc.views| == |th.pc.evs|
    ensures ThreadOk(c, sh, t, th.(pc := GilWait(th.pc.views)))
  {
    hide ResolveOk, MetaOk, ResolveRecordOk, MetaRecordOk;
  }

  lemma CopyAborts(c: Config, t: Tid, sh: Shared, th: Thread, arena: seq<byte>)
    requires Ready(c, sh, t, th) && th.pc.CopyOut? && |th.pc.views| < |th.pc.evs|
    requires arena == Replay(c, th.call.value.rt, LogOf(sh, th.call.value.rt)[..th.exec.value + 1]).arena
    requires CopyOne(arena, th.pc.evs[|th.pc.views|]).Err?
    ensures ThreadOk(c, sh, t, th.(pc := Abort(CopyOne(arena, th.pc.evs[|th.pc.views|]).fault)))
  {
    hide RecordOk, CopyOne, CopyAll, PyAll, Cleared, Describes, HeldOk, ModsOk, EnvOk, LastEntry, ResolveOk, MetaOk;
    CopyAllByIndex(arena, th.pc.evs, ReadViews(sh.heap, th.pc.views));
  }

  lemma CopyExtends(c: Config, t: Tid, sh: Shared, th: Thread, arena: seq<byte>, v: View<BufId>)
    requires th.call.Some? && ThreadOk(c, sh, t, th) && th.pc.CopyOut? && |th.pc.views| < |th.pc.evs|
    requires arena == Replay(c, th.call.value.rt, LogOf(sh, th.call.value.rt)[..th.exec.value + 1]).arena
    requires v.TensorView? ==> Owned(sh, v.data, StorageOf(t, |th.done|, |th.pc.views|))
    requires CopyOne(arena, th.pc.evs[|th.pc.views|]) == Ok(ReadView(sh.heap, v))
    ensures ThreadOk(c, sh, t, th.(pc := CopyOut(th.pc.evs, th.pc.views + [v])))
  {
    hide ResolveOk, MetaOk, ResolveRecordOk, MetaRecordOk;
  }

  lemma CopyAdvances(c: Config, t: Tid, sh: Shared, th: Thread)
    requires Ready(c, sh, t, th) && th.pc.CopyOut?
    requires Lifted(c, t, sh, th)
    ensures Advanced(c, t, sh, th)
  {
    hide ResolveOk, MetaOk, ResolveRecordOk, MetaRecordOk, RunRecordOk, Replay, ReplyAt, SeqOutcome, FaultOk, Cleared;
    var evs, views := th.pc.evs, th.pc.views;
    CopyReads(c, t, sh, th);
    var arena := ModOf(c, sh, th.call.value.rt).arena;
    if |views| == |evs| {
      CopyEnds(c, t, sh, th);
    } else {
      match CopyOne(arena, evs[|views|])
      case Err(_) => CopyAborts(c, t, sh, th, arena);
      case Ok(v) =>
        var (sh', v') := StoreView(sh, StorageOf(t, |th.done|, |views|), v);
        CopyExtends(c, t, sh', th, arena, v');
    }
  }

  /** At every turn of the building loop the views are the atomic snapshot's and the list so far is
      the reference's list of the first |out| of them; so it ends as the reference, or fails as it. */
  lemma BuildMatches(c: Config, t: Tid, sh: Shared, th: Thread)
    requires Ready(c, sh, t, th) && th.pc.Build?
    ensures
      var r, k, views, out := th.call.value.rt, th.exec.value, ReadViews(sh.heap, th.pc.views), ReadAll(sh.heap, th.pc.out);
      var seqOutcome := SeqOutcome(c, r, LogOf(sh, r), k);
      && CopyAll(Replay(c, r, LogOf(sh, r)[..k + 1]).arena, ReplyAt(c, r, LogOf(sh, r), k).evs) == Ok(views)
      && PyAll(c.decode, views[..|out|]) == Ok(out)
      && (|out| == |views| ==> seqOutcome == Returned(out))
      && (|out| < |views| && PyOne(c.decode, views[|out|], |out|).Err? ==>
            seqOutcome == Raised(PyOne(c.decode, views[|out|], |out|).fault))
  {
    var views, out := ReadViews(sh.heap, th.pc.views), ReadAll(sh.heap, th.pc.out);
    var r, k := th.call.value.rt, th.exec.value;
    var arena, evs := Replay(c, r, LogOf(sh, r)[..k + 1]).arena, ReplyAt(c, r, LogOf(sh, r), k).evs;
    CopyAllByIndex(arena, evs, views);
    PyFromByIndex(c.decode, views, out, 0);
    assert out[0..] == out;
  }

  lemma BuildEnds(c: Config, t: Tid, sh: Shared, th: Thread)
    requires Ready(c, sh, t, th) && th.pc.Build? && |th.pc.out| == |th.pc.views|
    ensures ThreadOk(c, sh, t, Finish(sh, th, Returned(th.pc.out)))
  {
    hide ResolveOk, MetaOk, ResolveRecordOk, MetaRecordOk;
    BuildMatches(c, t, sh, th);
    FinishedOk(c, sh, t, th, Returned(th.pc.out));
  }

  lemma BuildFault(c: Config, t: Tid, sh: Shared, th: Thread, f: Fault)
    requires Ready(c, sh, t, th) && th.pc.Build? && |th.pc.out| < |th.pc.views|
    requires PyOne(c.decode, ReadView(sh.heap, th.pc.views[|th.pc.out|]), |th.pc.out|) == Err(f)
    ensures FaultOk(c, sh, th.call.value, th.meta, th.exec, f)
  {
    BuildMatches(c, t, sh, th);
    hide RecordOk, PyOne, PyAll, CopyAll, CopyOne, SeqOutcome, Replay, ReplyAt, Cleared, Describes, HeldOk;
  }

  lemma BuildRaises(c: Config, t: Tid, sh: Shared, th: Thread, f: Fault)
    requires Ready(c, sh, t, th) && th.pc.Build? && |th.pc.out| < |th.pc.views|
    requires PyOne(c.decode, ReadView(sh.heap, th.pc.views[|th.pc.out|]), |th.pc.out|) == Err(f)
    ensures ThreadOk(c, sh, t, th.(pc := Raising(f)))
  {
    BuildFault(c, t, sh, th, f);
    RaisingOk(c, t, sh, th, f);
    hide *;
  }

  lemma RaisingOk(c: Config, t: Tid, sh: Shared, th: Thread, f: Fault)
    requires th.call.Some? && ThreadOk(c, sh, t, th) && th.pc.Build? && FaultOk(c, sh, th.call.value, th.meta, th.exec, f)
    ensures ThreadOk(c, sh, t, th.(pc := Raising(f)))
  {
    hide RecordOk, FaultOk, Built, HeldOk, ResolveOk, MetaOk;
  }

  lemma BuildExtends(c: Config, sh: Shared, t: Tid, th: Thread, p: PyValue<BufId>)
    requires th.call.Some? && ThreadOk(c, sh, t, th) && th.pc.Build? && |th.pc.out| < |th.pc.views|
    requires p.PyArray? ==> Owned(sh, p.buffer, ResultOf(t, |th.done|, |th.pc.out|))
    requires PyOne(c.decode, ReadView(sh.heap, th.pc.views[|th.pc.out|]), |th.pc.out|) == Ok(ReadPy(sh.heap, p))
    ensures ThreadOk(c, sh, t, th.(pc := Build(th.pc.views, th.pc.out + [p])))
  {
    hide ResolveOk, MetaOk, ResolveRecordOk, MetaRecordOk;
  }

  lemma BuildAdvances(c: Config, t: Tid, sh: Shared, th: Thread)
    requires Ready(c, sh, t, th) && th.pc.Build?
    requires Lifted(c, t, sh, th)
    ensures Advanced(c, t, sh, th)
  {
    hide ResolveOk, MetaOk, ResolveRecordOk, MetaRecordOk;
    var views, out := th.pc.views, th.pc.out;
    if |out| == |views| {
      BuildEnds(c, t, sh, th);
    } else {
      var v := views[|out|];
      match PyOne(c.decode, ReadView(sh.heap, v), |out|)
      case Err(f) => BuildRaises(c, t, sh, th, f);
      case Ok(p) =>
        var (sh', p') := StorePy(sh, ResultOf(t, |th.done|, |out|), p);
        assert ReadView(sh'.heap, v) == ReadView(sh.heap, v) && ReadPy(sh'.heap, p') == p;
        BuildExtends(c, sh', t, th, p');
    }
  }

  lemma ScanHeldAdvances(c: Config, t: Tid, sh: Shared, th: Thread)
    requires Ready(c, sh, t, th) && th.pc.ScanHeld?
    ensures Advanced(c, t, sh, th)
  {
    hide RecordOk, RunOk, MetaOk, ModsOk, LastEntry;
  }

  lemma ScanAdvances(c: Config, t: Tid, sh: Shared, th: Thread)
    requires Ready(c, sh, t, th) && th.pc.Scan?
    ensures Advanced(c, t, sh, th)
  {
    hide RunRecordOk, MetaRecordOk, RunOk, MetaOk, ModsOk, LastEntry;
    if !th.pc.hit && th.pc.i == |th.pc.names| {
      assert Listed(c, sh, th.call.value.rt, th.pc.names) && Plain(c, th.call.value.rt, th.pc.names, |th.pc.names|);
      FinishedOk(c, sh, t, th, Resolved(false));
    }
  }

  lemma FileAdvances(c: Config, t: Tid, sh: Shared, th: Thread)
    requires Ready(c, sh, t, th) && th.pc.IsFile?
    ensures Advanced(c, t, sh, th)
  {
    hide RunRecordOk, MetaRecordOk, RunOk, MetaOk, ModsOk, LastEntry;
    FinishedOk(c, sh, t, th, if th.pc.path in sh.files then Resolved(true) else Raised(BackendMissing));
  }

  lemma WheelAdvances(c: Config, t: Tid, sh: Shared, th: Thread)
    requires Ready(c, sh, t, th) && th.pc.FindWheel?
    ensures Advanced(c, t, sh, th)
  {
    hide RunRecordOk, MetaRecordOk, RunOk, MetaOk, ModsOk, LastEntry;
    if c.wheel.None? { FinishedOk(c, sh, t, th, Raised(BackendMissing)); }
  }

  lemma SetAdvances(c: Config, t: Tid, sh: Shared, th: Thread)
    requires Ready(c, sh, t, th) && th.pc.SetEnv?
    requires Lifted(c, t, sh, th)
    ensures Advanced(c, t, sh, th)
  {
    hide RunRecordOk, MetaRecordOk, RunOk, MetaOk;
    FinishedOk(c, Act(c, t, sh, th).sh, t, th, Resolved(true));
  }

  /** An execute writes into nothing that a call in progress has made for itself. */
  lemma ExtendsKeeps(sh: Shared, sh': Shared, th: Thread, u: Tid, other: Thread)
    requires Extends(sh, sh', th)
    requires th.pc.ExecIn? ==> forall b | b in Borrowed(th.held) :: Lent(sh, u, |other.done|, b)
    ensures Keeps(sh, sh', u, other)
  {
  }

  lemma Lifts(c: Config, t: Tid, sh: Shared, th: Thread)
    requires Ready(c, sh, t, th) && Extends(sh, Act(c, t, sh, th).sh, th)
    ensures Lifted(c, t, sh, th)
  {
    hide Act;
    ExtendsKeeps(sh, Act(c, t, sh, th).sh, th, t, th);
    ThreadKept(c, sh, Act(c, t, sh, th).sh, t, th);
  }

  lemma Advances(c: Config, t: Tid, sh: Shared, th: Thread)
    requires Honest(c) && Ready(c, sh, t, th)
    requires Extends(sh, Act(c, t, sh, th).sh, th)
    ensures Advanced(c, t, sh, th)
  {
    Lifts(c, t, sh, th);
    assert th.call.Some? && Shape(th);
    hide *;
    match th.pc
    case ScanHeld(_, _, _) => ScanHeldAdvances(c, t, sh, th);
    case Scan(_, _, _) => ScanAdvances(c, t, sh, th);
    case IsFile(_) => FileAdvances(c, t, sh, th);
    case FindWheel => WheelAdvances(c, t, sh, th);
    case SetEnv(_) => SetAdvances(c, t, sh, th);
    case AccessWait(_) => AccessAdvances(c, t, sh, th);
    case Start => AccessAdvances(c, t, sh, th);
    case ExecWait => AccessAdvances(c, t, sh, th);
    case AccessIn(_) => ReadAdvances(c, t, sh, th);
    case AccessOut(use, _) =>
      if use.Direct? { AnswerAdvances(c, t, sh, th); }
      else if use.Guard? { GuardReplyAdvances(c, t, sh, th); }
      else { ScanReplyAdvances(c, t, sh, th); }
    case Answer(_) => AnswerAdvances(c, t, sh, th);
    case CheckBackend => GuardAdvances(c, t, sh, th);
    case CheckEnv => GuardAdvances(c, t, sh, th);
    case CheckFile(_) => GuardAdvances(c, t, sh, th);
    case Marshalling => MarshalAdvances(c, t, sh, th);
    case ExecIn => ExecAdvances(c, t, sh, th);
    case CopyOut(_, _) => CopyAdvances(c, t, sh, th);
    case Build(_, _) => BuildAdvances(c, t, sh, th);
    case Abort(_) => UnwindAdvances(c, t, sh, th);
    case Unwind(_) => UnwindAdvances(c, t, sh, th);
    case GilWait(_) => CopiedAdvances(c, t, sh, th);
    case Raising(_) => RaisingAdvances(c, t, sh, th);
  }
}
