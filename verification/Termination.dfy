/** Every schedule ends: a lexicographic measure over all threads decreases at each action. */
module Termination {
  import opened Values
  import opened Protocol
  import opened Locks
  import opened Turns

  /** Answers still to come whose size only the Module knows: execute, or the list of methods. */
  function OpenAnswers(th: Thread): nat {
    if th.call.None? then 0
    else match th.pc
      case Start => if th.call.value.RunMethod? || th.call.value.Resolve? then 1 else 0
      case Marshalling => 1
      case AccessWait(u) => UseOpen(u)
      case AccessIn(u) => UseOpen(u)
      case AccessOut(u, _) => if u.Guard? then 1 else 0
      case CheckBackend => 1
      case CheckEnv => 1
      case CheckFile(_) => 1
      case ExecWait => 1
      case ExecIn => 1
      case _ => 0
  }

  function UseOpen(u: Use): nat { if u.Guard? || u.ForNames? then 1 else 0 }

  /** Actions left until the call in progress ends or the next open answer arrives. */
  function Remaining(th: Thread): nat
    requires Shape(th)
  {
    if th.call.None? then 0
    else match th.pc
      case Start => if th.call.value.RunMethod? then |th.call.value.args| + 20 else 12
      case AccessWait(u) => UseCost(u) + 4
      case AccessIn(u) => UseCost(u) + 3
      case AccessOut(u, reply) => UseCost(u) + 2 + (if u.ForNames? && reply.Names? then 6 * |reply.names| + 11 else 0)
      case Answer(_) => 1
      case Marshalling => |th.call.value.args| - |th.held| + 18
      case CheckBackend => 12
      case CheckEnv => 11
      case CheckFile(_) => 10
      case ExecWait => 9
      case ExecIn => 8
      case CopyOut(evs, views) => 2 * |evs| - |views| + 5
      case Abort(_) => 3
      case GilWait(views) => |views| + 4
      case Build(views, out) => |views| - |out| + 3
      case Unwind(_) => 2
      case Raising(_) => 1
      case ScanHeld(names, i, hit) => if hit then 5 else 6 * (|names| - i) + 6
      case Scan(names, i, hit) => if hit then 4 else 6 * (|names| - i) + 5
      case IsFile(_) => 3
      case FindWheel => 3
      case SetEnv(_) => 2
  }

  function UseCost(u: Use): nat {
    match u
    case Guard => 12
    case Direct => 4
    case ForNames => 5
    case ForUses(names, i) => if i < |names| then 6 * (|names| - i) else 0
  }

  predicate Smaller(a: nat, b: nat, a': nat, b': nat) { a' < a || (a' == a && b' < b) }

  predicate Progress(th: Thread, th': Thread)
    requires Shape(th) && Shape(th')
  {
    Smaller(OpenAnswers(th), Remaining(th), OpenAnswers(th'), Remaining(th'))
  }

  lemma FinishProgress(sh: Shared, th: Thread, o: Outcome<BufId>)
    requires th.call.Some? && Shape(th) && !th.pc.Start?
    ensures Progress(th, Finish(sh, th, o))
  {
  }

  lemma AccessProgress(c: Config, t: Tid, sh: Shared, th: Thread)
    requires th.call.Some? && Shape(th) && Disciplined(th, Act(c, t, sh, th))
    requires th.pc.AccessWait? || th.pc.AccessIn? || th.pc.AccessOut? || th.pc.Start? || th.pc.ExecWait?
    ensures Progress(th, Act(c, t, sh, th).th)
  {
  }

  lemma RunProgress(c: Config, t: Tid, sh: Shared, th: Thread)
    requires th.call.Some? && Shape(th) && Disciplined(th, Act(c, t, sh, th))
    requires th.pc.Marshalling? || th.pc.CheckBackend? || th.pc.CheckEnv? || th.pc.CheckFile? || th.pc.Abort?
          || th.pc.GilWait? || th.pc.Unwind? || th.pc.Raising? || th.pc.Answer?
    ensures Progress(th, Act(c, t, sh, th).th)
  {
    if th.pc.Raising? { FinishProgress(sh, th, Raised(th.pc.fault)); }
    if th.pc.Answer? { FinishProgress(sh, th, AnswerTo(th.call.value, th.pc.reply)); }
  }

  lemma ExecProgress(c: Config, t: Tid, sh: Shared, th: Thread)
    requires th.call.Some? && Shape(th) && Disciplined(th, Act(c, t, sh, th))
    requires th.pc.ExecIn? || th.pc.CopyOut? || th.pc.Build?
    ensures Progress(th, Act(c, t, sh, th).th)
  {
    if th.pc.Build? { FinishProgress(sh, th, Returned(th.pc.out)); }
  }

  lemma ResolverProgress(c: Config, t: Tid, sh: Shared, th: Thread)
    requires th.call.Some? && Shape(th) && Disciplined(th, Act(c, t, sh, th))
    requires th.pc.ScanHeld? || th.pc.Scan? || th.pc.IsFile? || th.pc.FindWheel? || th.pc.SetEnv?
    ensures Progress(th, Act(c, t, sh, th).th)
  {
    FinishProgress(sh, th, Resolved(true));
    FinishProgress(sh, th, Resolved(false));
    FinishProgress(sh, th, Raised(BackendMissing));
  }

  lemma ThreadProgress(c: Config, t: Tid, sh: Shared, th: Thread)
    requires th.call.Some? && Shape(th)
    ensures Shape(Act(c, t, sh, th).th) && Progress(th, Act(c, t, sh, th).th)
  {
    Discipline(c, t, sh, th);
    if th.pc.ScanHeld? || th.pc.Scan? || th.pc.IsFile? || th.pc.FindWheel? || th.pc.SetEnv? {
      ResolverProgress(c, t, sh, th);
    } else if th.pc.ExecIn? || th.pc.CopyOut? || th.pc.Build? {
      ExecProgress(c, t, sh, th);
    } else if th.pc.AccessWait? || th.pc.AccessIn? || th.pc.AccessOut? || th.pc.Start? || th.pc.ExecWait? {
      AccessProgress(c, t, sh, th);
    } else {
      RunProgress(c, t, sh, th);
    }
  }

  // ---------- the global measure ----------

  predicate Shapes(ths: seq<Thread>) { forall t | 0 <= t < |ths| :: Shape(ths[t]) }

  function TotalOpen(ths: seq<Thread>): nat
    requires Shapes(ths)
  {
    if ths == [] then 0
    else assert Shapes(ths[1..]); OpenAnswers(ths[0]) + TotalOpen(ths[1..])
  }

  function TotalRemaining(ths: seq<Thread>): nat
    requires Shapes(ths)
  {
    if ths == [] then 0
    else assert Shapes(ths[1..]); Remaining(ths[0]) + TotalRemaining(ths[1..])
  }

  lemma {:induction false} TotalsUpdate(ths: seq<Thread>, t: nat, th': Thread)
    requires Shapes(ths) && t < |ths| && Shape(th')
    ensures Shapes(ths[t := th'])
    ensures TotalOpen(ths[t := th']) == TotalOpen(ths) - OpenAnswers(ths[t]) + OpenAnswers(th')
    ensures TotalRemaining(ths[t := th']) == TotalRemaining(ths) - Remaining(ths[t]) + Remaining(th')
  {
    assert Shapes(ths[1..]);
    if t == 0 {
      assert ths[t := th'][1..] == ths[1..];
    } else {
      TotalsUpdate(ths[1..], t - 1, th');
      assert ths[t := th'][1..] == ths[1..][t - 1 := th'];
    }
  }

  /** Work on the calls already made: a thread's step, or a collection. */
  predicate Working(a: Action) { a.Run? || a.Collect? }

  /** The measure: open answers of all threads, then remaining actions, then live buffers. */
  lemma MeasureDecreases(c: Config, s: State, a: Action)
    requires LocksOk(s) && CanDo(c, s, a) && Working(a)
    ensures LocksOk(Next(c, s, a))
    ensures
      var s' := Next(c, s, a);
      if a.Run? then Smaller(TotalOpen(s.threads), TotalRemaining(s.threads), TotalOpen(s'.threads), TotalRemaining(s'.threads))
      else s'.threads == s.threads && |s'.sh.heap| < |s.sh.heap|
  {
    LocksStep(c, s, a);
    if a.Run? {
      ThreadProgress(c, a.t, s.sh, s.threads[a.t]);
      TotalsUpdate(s.threads, a.t, Act(c, a.t, s.sh, s.threads[a.t]).th);
    } else {
      var h, b := s.sh.heap, a.b;
      assert (h - {b}).Keys == h.Keys - {b};
      assert |h - {b}| == |(h - {b}).Keys| && |h| == |h.Keys|;
    }
  }

  /** Following the schedule from number `from` takes the actions `run` and then cannot go on. */
  ghost predicate EndsAfter(c: Config, s: State, schedule: nat -> Action, from: nat, run: seq<Action>) {
    && (forall i | 0 <= i < |run| :: run[i] == schedule(from + i))
    && Feasible(c, s, run)
    && !CanDo(c, After(c, s, run), schedule(from + |run|))
  }

  lemma EndsAfterPrepend(c: Config, s: State, schedule: nat -> Action, from: nat, rest: seq<Action>)
    requires CanDo(c, s, schedule(from)) && EndsAfter(c, Next(c, s, schedule(from)), schedule, from + 1, rest)
    ensures EndsAfter(c, s, schedule, from, [schedule(from)] + rest)
  {
    var run := [schedule(from)] + rest;
    assert run[0] == schedule(from) && run[1..] == rest;
    forall i | 0 <= i < |run| ensures run[i] == schedule(from + i) {
      if i > 0 { assert run[i] == rest[i - 1]; }
    }
    assert from + 1 + |rest| == from + |run|;
  }

  ghost predicate Rank(s: State, open: nat, remaining: nat, buffers: nat) {
    LocksOk(s) && open == TotalOpen(s.threads) && remaining == TotalRemaining(s.threads) && buffers == |s.sh.heap|
  }

  /** Either the schedule's next action cannot be taken, or taking it lowers the rank. */
  lemma Descend(c: Config, s: State, schedule: nat -> Action, from: nat, open: nat, remaining: nat, buffers: nat)
    returns (s': State, open': nat, remaining': nat, buffers': nat)
    requires Rank(s, open, remaining, buffers) && Working(schedule(from)) && !EndsAfter(c, s, schedule, from, [])
    ensures Rank(s', open', remaining', buffers')
    ensures open' < open || (open' == open && (remaining' < remaining || (remaining' == remaining && buffers' < buffers)))
    ensures forall rest :: EndsAfter(c, s', schedule, from + 1, rest)
                       ==> EndsAfter(c, s, schedule, from, [schedule(from)] + rest)
  {
    s' := Next(c, s, schedule(from));
    MeasureDecreases(c, s, schedule(from));
    open', remaining', buffers' := TotalOpen(s'.threads), TotalRemaining(s'.threads), |s'.sh.heap|;
    forall rest | EndsAfter(c, s', schedule, from + 1, rest)
      ensures EndsAfter(c, s, schedule, from, [schedule(from)] + rest)
    {
      EndsAfterPrepend(c, s, schedule, from, rest);
    }
  }

  /** No schedule runs for ever: any infinite choice of thread steps and collections reaches,
      after finitely many of them, an action that cannot be taken. */
  lemma {:induction false} EveryScheduleEnds(c: Config, s: State, schedule: nat -> Action, from: nat,
                                             open: nat, remaining: nat, buffers: nat)
    requires Rank(s, open, remaining, buffers) && forall n: nat :: Working(schedule(n))
    ensures exists run :: EndsAfter(c, s, schedule, from, run)
    decreases open, remaining, buffers
  {
    hide *;
    if EndsAfter(c, s, schedule, from, []) {
    } else {
      var s', open', remaining', buffers' := Descend(c, s, schedule, from, open, remaining, buffers);
      EveryScheduleEnds(c, s', schedule, from + 1, open', remaining', buffers');
      var rest :| EndsAfter(c, s', schedule, from + 1, rest);
      assert EndsAfter(c, s, schedule, from, [schedule(from)] + rest);
    }
  }

  /** Termination: whatever calls have been made, on whatever arrays, no infinite schedule of thread
      steps and collections can be followed from there. */
  lemma Termination(c: Config, s: State, schedule: nat -> Action)
    requires Reachable(c, s) && forall n: nat :: Working(schedule(n))
    ensures exists run :: EndsAfter(c, s, schedule, 0, run)
  {
    ReachableLocks(c, s);
    assert Rank(s, TotalOpen(s.threads), TotalRemaining(s.threads), |s.sh.heap|);
    hide *;
    EveryScheduleEnds(c, s, schedule, 0, TotalOpen(s.threads), TotalRemaining(s.threads), |s.sh.heap|);
  }

  // ---------- what the end looks like ----------

  /** The calls a run makes on thread `t`, in order. */
  function IssuedTo(run: seq<Action>, t: Tid): seq<Call> {
    if run == [] then []
    else (if run[0].Issue? && run[0].u == t then [run[0].call] else []) + IssuedTo(run[1..], t)
  }

  /** Exactly the Issue actions of the thread count, each once and in order. */
  lemma {:induction false} IssuedInOrder(run: seq<Action>, more: seq<Action>, a: Action, t: Tid)
    ensures IssuedTo([], t) == [] && IssuedTo([a], t) == if a.Issue? && a.u == t then [a.call] else []
    ensures IssuedTo(run + more, t) == IssuedTo(run, t) + IssuedTo(more, t)
  {
    assert [a][1..] == [];
    if run == [] {
      assert run + more == more;
    } else {
      assert (run + more)[1..] == run[1..] + more;
      IssuedInOrder(run[1..], more, a, t);
    }
  }

  /** The calls of a thread, finished or not. */
  function CallsOf(th: Thread): seq<Call> {
    seq(|th.done|, n requires 0 <= n < |th.done| => th.done[n].call) + (if th.call.Some? then [th.call.value] else [])
  }

  /** A thread's step keeps its calls: at most it moves the one in progress to the finished ones. */
  lemma CallsByEffect(th: Thread, e: Effect, t: Tid, sh: Shared)
    requires th.call.Some? && CallsEffect(th, e, t, sh)
    ensures CallsOf(e.th) == CallsOf(th)
  {
    if e.th.done != th.done {
      assert forall n | 0 <= n < |th.done| :: e.th.done[n] == e.th.done[..|th.done|][n];
    }
  }

  lemma CallsByStep(c: Config, s: State, a: Action, t: Tid)
    requires CanDo(c, s, a) && t < |s.threads|
    ensures t < |Next(c, s, a).threads|
    ensures CallsOf(Next(c, s, a).threads[t]) == CallsOf(s.threads[t]) + IssuedTo([a], t)
  {
    if a == Run(t) {
      CallsEffectHolds(c, t, s.sh, s.threads[t]);
      CallsByEffect(s.threads[t], Act(c, t, s.sh, s.threads[t]), t, s.sh);
      hide Act, CallsEffect;
      assert CallsOf(s.threads[t]) + [] == CallsOf(s.threads[t]);
    }
  }

  /** No call is lost, repeated or reordered. */
  lemma {:induction false} CallsKept(c: Config, s: State, run: seq<Action>, t: Tid)
    requires Feasible(c, s, run) && t < |s.threads|
    ensures t < |After(c, s, run).threads|
    ensures CallsOf(After(c, s, run).threads[t]) == CallsOf(s.threads[t]) + IssuedTo(run, t)
    decreases |run|
  {
    hide CanDo, Next, CallsOf;
    if run == [] {
      assert CallsOf(s.threads[t]) + [] == CallsOf(s.threads[t]);
    } else {
      CallsByStep(c, s, run[0], t);
      CallsKept(c, Next(c, s, run[0]), run[1..], t);
      assert IssuedTo(run, t) == IssuedTo([run[0]], t) + IssuedTo(run[1..], t);
    }
  }

  /** Thread `t` has finished the calls `run` made on it: those, each once and in order. */
  ghost predicate AnsweredAll(s: State, run: seq<Action>, t: Tid)
    requires t < |s.threads|
  {
    var done, issued := s.threads[t].done, IssuedTo(run, t);
    s.threads[t].call.None? && |done| == |issued| && forall n | 0 <= n < |done| :: done[n].call == issued[n]
  }

  lemma AnsweredByNow(s: State, run: seq<Action>, t: Tid)
    requires t < |s.threads| && s.threads[t].call.None? && CallsOf(s.threads[t]) == IssuedTo(run, t)
    ensures AnsweredAll(s, run, t)
  {
    forall n | 0 <= n < |s.threads[t].done| ensures s.threads[t].done[n].call == IssuedTo(run, t)[n] {
      assert CallsOf(s.threads[t])[n] == s.threads[t].done[n].call;
    }
  }

  /** When no thread can step, every call made has been answered and every lock is free. */
  lemma QuietMeansDone(c: Config, count: nat, run: seq<Action>)
    requires Feasible(c, Initial(c, count), run)
    requires forall t :: !Enabled(c, After(c, Initial(c, count), run), t)
    ensures
      var s := After(c, Initial(c, count), run);
      s.gil == None && s.mutex == map[] && |s.threads| == count
      && forall t | 0 <= t < count :: AnsweredAll(s, run, t)
  {
    var s0 := Initial(c, count);
    LocksAfter(c, s0, run);
    CountKept(c, s0, run);
    var s := After(c, s0, run);
    forall t | 0 <= t < |s.threads| ensures s.threads[t].call.None? {
      if s.threads[t].call.Some? { var u := SomeThreadCanStep(c, s, t); }
    }
    hide AnsweredAll;
    forall t | 0 <= t < count ensures AnsweredAll(s, run, t) {
      CallsKept(c, s0, run, t);
      assert CallsOf(s0.threads[t]) == [];
      AnsweredByNow(s, run, t);
    }
    if r :| r in s.mutex { HolderCanStep(c, s, r); }
  }

  lemma {:induction false} CountKept(c: Config, s: State, run: seq<Action>)
    requires Feasible(c, s, run)
    ensures |After(c, s, run).threads| == |s.threads|
    decreases |run|
  {
    if run == [] {
    } else {
      CountKept(c, Next(c, s, run[0]), run[1..]);
    }
  }
}
