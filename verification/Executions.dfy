/** Executes along a run: which buffers they borrow and write, and what they are made on. */
module Executions {
  import opened Values
  import opened Marshal
  import opened Protocol
  import opened Sequential
  import opened Invariant
  import opened Turns
  import opened Runs
  import opened Growth

  // ---------- who writes ----------

  /** Thread `t` is about to execute on buffer `b`, which the Module may write. */
  predicate Borrows(s: State, t: Tid, b: BufId) {
    t < |s.threads| && s.threads[t].pc.ExecIn? && b in Borrowed(s.threads[t].held)
  }

  /** What the execute thread `t` is about to make leaves in the buffers it borrows. */
  function WritesOf(c: Config, s: State, t: Tid): seq<seq<byte>>
    requires t < |s.threads| && s.threads[t].call.Some? && s.threads[t].call.value.RunMethod?
  {
    var th := s.threads[t];
    var r := th.call.value.rt;
    c.writes(r, ModOf(c, s.sh, r), th.call.value.name, InputsOf(s.sh.heap, th.held))
  }

  lemma ExecWrites(c: Config, t: Tid, sh: Shared, th: Thread)
    requires th.call.Some? && Shape(th) && th.pc.ExecIn?
    ensures th.call.value.RunMethod?
    ensures
      var r, name := th.call.value.rt, th.call.value.name;
      var writes := c.writes(r, ModOf(c, sh, r), name, InputsOf(sh.heap, th.held));
      Act(c, t, sh, th).sh.heap == WriteBack(sh.heap, Borrowed(th.held), writes)
  {
  }

  /** A step changes the bytes of a buffer exactly when it is an execute that borrows the buffer and
      its Module's last write to it is something else. */
  lemma OnlyExecutesWrite(c: Config, s: State, a: Action, b: BufId)
    requires Trusted(c) && Inv(c, s) && CanDo(c, s, a) && b in s.sh.heap && b in Next(c, s, a).sh.heap
    ensures a.Run? && Borrows(s, a.t, b) ==> s.threads[a.t].call.Some? && s.threads[a.t].call.value.RunMethod?
    ensures
      var before, after := s.sh.heap[b], Next(c, s, a).sh.heap[b];
      after == if a.Run? && Borrows(s, a.t, b)
               then before.(bytes := LastWrite(Borrowed(s.threads[a.t].held), WritesOf(c, s, a.t), b, before.bytes))
               else before
  {
    if a.Run? {
      InvThreadStep(c, s, a.t);
      if s.threads[a.t].pc.ExecIn? { ExecWrites(c, a.t, s.sh, s.threads[a.t]); }
    }
    hide Act, Inv;
  }

  /** Buffer numbers are not used twice. */
  lemma StaysGone(c: Config, s: State, a: Action, b: BufId)
    requires Trusted(c) && Inv(c, s) && CanDo(c, s, a) && b < s.sh.next
    ensures b < Next(c, s, a).sh.next && (b !in s.sh.heap ==> b !in Next(c, s, a).sh.heap)
  {
    hide Act;
    if a.Run? { InvThreadStep(c, s, a.t); }
  }

  /** A buffer that is gone does not come back. */
  lemma {:induction false} NeverBack(c: Config, s: State, run: seq<Action>, b: BufId)
    requires Trusted(c) && Inv(c, s) && Feasible(c, s, run) && b < s.sh.next && b !in s.sh.heap
    ensures b !in After(c, s, run).sh.heap
    decreases |run|
  {
    hide Inv, CanDo, Next;
    if run == [] {
    } else {
      StaysGone(c, s, run[0], b);
      InvStep(c, s, run[0]);
      NeverBack(c, Next(c, s, run[0]), run[1..], b);
    }
  }

  /** No execute of the run borrows `b`. */
  predicate Untouched(c: Config, s: State, run: seq<Action>, b: BufId)
    requires Feasible(c, s, run)
    decreases |run|
  {
    run == [] || (!(run[0].Run? && Borrows(s, run[0].t, b)) && Untouched(c, Next(c, s, run[0]), run[1..], b))
  }

  /** Action number `i` of the run is an execute that borrows `b`. */
  predicate BorrowsAt(c: Config, s: State, run: seq<Action>, i: nat, b: BufId) {
    i < |run| && run[i].Run? && Feasible(c, s, run[..i]) && Borrows(After(c, s, run[..i]), run[i].t, b)
  }

  lemma BorrowsAtTail(c: Config, s: State, run: seq<Action>, i: nat, b: BufId)
    requires Feasible(c, s, run) && 0 < i < |run|
    ensures BorrowsAt(c, s, run, i, b) <==> BorrowsAt(c, Next(c, s, run[0]), run[1..], i - 1, b)
  {
    hide CanDo, Next, Borrows;
    assert run[..i][0] == run[0] && run[..i][1..] == run[1..][..i - 1];
  }

  lemma {:induction false} UntouchedMeans(c: Config, s: State, run: seq<Action>, b: BufId)
    requires Feasible(c, s, run)
    ensures Untouched(c, s, run, b) <==> forall i: nat :: !BorrowsAt(c, s, run, i, b)
    decreases |run|
  {
    hide CanDo, Next, Borrows;
    if run == [] {
    } else {
      var s', rest := Next(c, s, run[0]), run[1..];
      UntouchedMeans(c, s', rest, b);
      assert run[..0] == [];
      assert BorrowsAt(c, s, run, 0, b) <==> run[0].Run? && Borrows(s, run[0].t, b);
      hide BorrowsAt;
      forall i: nat | 0 < i < |run| ensures BorrowsAt(c, s, run, i, b) <==> BorrowsAt(c, s', rest, i - 1, b) {
        BorrowsAtTail(c, s, run, i, b);
      }
      if !Untouched(c, s', rest, b) {
        var j: nat :| BorrowsAt(c, s', rest, j, b);
        BorrowsWithin(c, s', rest, j, b);
        assert BorrowsAt(c, s, run, j + 1, b);
      }
      forall i: nat | BorrowsAt(c, s, run, i, b) ensures !Untouched(c, s, run, b) {
        BorrowsWithin(c, s, run, i, b);
        if i > 0 { assert BorrowsAt(c, s', rest, i - 1, b); }
      }
    }
  }

  lemma BorrowsWithin(c: Config, s: State, run: seq<Action>, i: nat, b: BufId)
    ensures BorrowsAt(c, s, run, i, b) ==> i < |run|
  {
  }

  lemma {:induction false} BytesStay(c: Config, s: State, run: seq<Action>, b: BufId)
    requires Trusted(c) && Inv(c, s) && Feasible(c, s, run) && Untouched(c, s, run, b)
    requires b in s.sh.heap && b in After(c, s, run).sh.heap
    ensures After(c, s, run).sh.heap[b] == s.sh.heap[b]
    decreases |run|
  {
    hide Act, CanDo;
    if run == [] {
    } else {
      var s' := Next(c, s, run[0]);
      InvStep(c, s, run[0]);
      if b !in s'.sh.heap {
        StaysGone(c, s, run[0], b);
        NeverBack(c, s', run[1..], b);
      } else {
        OnlyExecutesWrite(c, s, run[0], b);
        BytesStay(c, s', run[1..], b);
      }
    }
  }

  // ---------- the execute of a call ----------

  /** Call `g` is about to execute. */
  predicate AtExecute(s: State, g: Turn) {
    HasCall(s, g) && !Finished(s, g) && s.threads[g.t].pc.ExecIn?
  }

  /** In `s` the execute of `g` is logged as made in state `before`: at the place it took, its method
      on its arguments with the contents they had. */
  ghost predicate RanOn(before: State, g: Turn, s: State) {
    && AtExecute(before, g) && CallOf(before, g).RunMethod?
    && var call := CallOf(before, g);
       var r, k := call.rt, |LogOf(before.sh, call.rt)|;
       && AllMapped(call.args)
       && k < |LogOf(s.sh, r)| <= |TurnsOf(s.sh, r)| && TurnsOf(s.sh, r)[k] == g
       && LogOf(s.sh, r)[k] == Exec(call.name, InputsFor(Contents(before.sh.heap, call.args)))
  }

  /** The tensors over the keepalives are those of the arguments. */
  lemma InputsAreContents(sh: Shared, t: Tid, n: nat, args: seq<NdArray<BufId>>, held: seq<Desc<BufId>>)
    requires HeldOk(sh, t, n, args, held) && |held| == |args|
    ensures AllMapped(args) && AllMapped(Contents(sh.heap, args))
    ensures InputsOf(sh.heap, held) == InputsFor(Contents(sh.heap, args))
  {
    forall i | 0 <= i < |args|
      ensures ScalarTypeOf(args[i].dtype).Ok?
      ensures InputsOf(sh.heap, held)[i] == ToInput(MakeHeldInput(Contents(sh.heap, args)[i]).value)
    {
      assert MakeHeldInput(args[i]) == Ok(held[i]);
    }
  }

  lemma ExecAppends(c: Config, t: Tid, sh: Shared, th: Thread)
    requires th.call.Some? && th.call.value.RunMethod? && ThreadOk(c, sh, t, th) && th.pc.ExecIn?
    ensures
      var call := th.call.value;
      && AllMapped(call.args)
      && LogOf(Act(c, t, sh, th).sh, call.rt) == LogOf(sh, call.rt) + [Exec(call.name, InputsFor(Contents(sh.heap, call.args)))]
  {
    InputsAreContents(sh, t, |th.done|, th.call.value.args, th.held);
  }

  /** The access of call `g` at some place is an execute. */
  ghost predicate HasExecuted(s: State, g: Turn) {
    exists r: Rid, k: nat :: k < |LogOf(s.sh, r)| && k < |TurnsOf(s.sh, r)| && LogOf(s.sh, r)[k].Exec? && TurnsOf(s.sh, r)[k] == g
  }

  lemma LogHasTurns(c: Config, s: State, r: Rid)
    requires Inv(c, s)
    ensures |LogOf(s.sh, r)| <= |TurnsOf(s.sh, r)|
  {
    assert |TurnsOf(s.sh, r)| == |LogOf(s.sh, r)| + (if Underway(s, r) then 1 else 0);
  }

  /** A step logs an execute only for the call of its thread, at the place that call has. */
  lemma ExecuteGrows(s: State, s': State, t: Tid, e: Effect, r: Rid, k: nat)
    requires TurnsOk(s) && StepOf(s, s', t, e) && LastEntry(s.sh, s.threads[t])
    requires |LogOf(s.sh, r)| <= k < |LogOf(s'.sh, r)| && LogOf(s'.sh, r)[k].Exec?
    ensures s.threads[t].pc.ExecIn? && r == s.threads[t].call.value.rt && k == |LogOf(s.sh, r)|
    ensures k < |TurnsOf(s'.sh, r)| && TurnsOf(s'.sh, r)[k] == Turn(t, |s.threads[t].done|)
  {
    var h := Turn(t, |s.threads[t].done|);
    assert HasCall(s, h) && PlaceOf(s, h, ExecOf(s, h));
  }

  lemma ThreadFacts(c: Config, s: State, t: Tid)
    requires Inv(c, s) && t < |s.threads|
    ensures TurnsOk(s) && ThreadOk(c, s.sh, t, s.threads[t]) && LastEntry(s.sh, s.threads[t])
    ensures s.threads[t].pc.ExecIn? ==> s.threads[t].call.Some? && s.threads[t].call.value.RunMethod?
  {
  }

  lemma StepOnly(c: Config, s: State, a: Action, r: Rid)
    requires CanDo(c, s, a) && LogOf(Next(c, s, a).sh, r) != LogOf(s.sh, r)
    ensures a.Run?
  {
  }

  /** Only call `g` itself makes its execute, and what it appends is the execute on its arguments. */
  lemma ExecuteStep(c: Config, s: State, a: Action, g: Turn)
    requires Trusted(c) && Inv(c, s) && CanDo(c, s, a) && !HasExecuted(s, g) && HasExecuted(Next(c, s, a), g)
    ensures a == Run(g.t) && RanOn(s, g, Next(c, s, a))
  {
    hide Act, Inv, CanDo, Next;
    var s' := Next(c, s, a);
    GrownByStep(c, s, a);
    var r: Rid, k: nat :|
      k < |LogOf(s'.sh, r)| && k < |TurnsOf(s'.sh, r)| && LogOf(s'.sh, r)[k].Exec? && TurnsOf(s'.sh, r)[k] == g;
    LogHasTurns(c, s, r);
    LogHasTurns(c, s', r);
    assert k >= |LogOf(s.sh, r)|;
    StepOnly(c, s, a, r);
    StepExecutes(c, s, a.t, r, k);
  }

  lemma StepExecutes(c: Config, s: State, t: Tid, r: Rid, k: nat)
    requires Trusted(c) && Inv(c, s) && CanDo(c, s, Run(t))
    requires
      var s' := Next(c, s, Run(t));
      |LogOf(s.sh, r)| <= k < |LogOf(s'.sh, r)| <= |TurnsOf(s'.sh, r)| && LogOf(s'.sh, r)[k].Exec?
    ensures
      var g := Turn(t, |s.threads[t].done|);
      TurnsOf(Next(c, s, Run(t)).sh, r)[k] == g && RanOn(s, g, Next(c, s, Run(t)))
  {
    hide Act, CallsEffect;
    IsStepOf(c, s, t);
    ThreadFacts(c, s, t);
    ExecuteGrows(s, Next(c, s, Run(t)), t, Act(c, t, s.sh, s.threads[t]), r, k);
    ExecAppends(c, t, s.sh, s.threads[t]);
    hide ThreadOk, Inv, TurnsOk;
  }

  /** The call goes on with its own execute, or no execute of the run so far borrows `b`. */
  predicate UntouchedUntil(c: Config, s: State, run: seq<Action>, g: Turn, b: BufId)
    requires Feasible(c, s, run)
    decreases |run|
  {
    || run == []
    || (run[0] == Run(g.t) && AtExecute(s, g))
    || (!(run[0].Run? && Borrows(s, run[0].t, b)) && UntouchedUntil(c, Next(c, s, run[0]), run[1..], g, b))
  }

  /** Action number `j` of the run is the execute of call `g` itself. */
  predicate OwnAt(c: Config, s: State, run: seq<Action>, j: nat, g: Turn) {
    j < |run| && run[j] == Run(g.t) && Feasible(c, s, run[..j]) && AtExecute(After(c, s, run[..j]), g)
  }

  lemma OwnAtTail(c: Config, s: State, run: seq<Action>, j: nat, g: Turn)
    requires Feasible(c, s, run) && 0 < j < |run|
    ensures OwnAt(c, s, run, j, g) <==> OwnAt(c, Next(c, s, run[0]), run[1..], j - 1, g)
  {
    hide CanDo, Next, AtExecute;
    assert run[..j][0] == run[0] && run[..j][1..] == run[1..][..j - 1];
  }

  /** No action of the run borrows `b` before the call's own execute. */
  ghost predicate BorrowsAfterOwn(c: Config, s: State, run: seq<Action>, g: Turn, b: BufId) {
    forall i: nat | BorrowsAt(c, s, run, i, b) :: exists j: nat :: j <= i && OwnAt(c, s, run, j, g)
  }

  lemma {:induction false} UntouchedUntilMeans(c: Config, s: State, run: seq<Action>, g: Turn, b: BufId)
    requires Feasible(c, s, run)
    ensures UntouchedUntil(c, s, run, g, b) <==> BorrowsAfterOwn(c, s, run, g, b)
    decreases |run|
  {
    hide CanDo, Next, Borrows, AtExecute;
    if run == [] {
    } else {
      var s', rest := Next(c, s, run[0]), run[1..];
      UntouchedUntilMeans(c, s', rest, g, b);
      assert run[..0] == [];
      assert BorrowsAt(c, s, run, 0, b) <==> run[0].Run? && Borrows(s, run[0].t, b);
      assert OwnAt(c, s, run, 0, g) <==> run[0] == Run(g.t) && AtExecute(s, g);
      forall i: nat | 0 < i < |run|
        ensures BorrowsAt(c, s, run, i, b) <==> BorrowsAt(c, s', rest, i - 1, b)
        ensures OwnAt(c, s, run, i, g) <==> OwnAt(c, s', rest, i - 1, g)
      {
        BorrowsAtTail(c, s, run, i, b);
        OwnAtTail(c, s, run, i, g);
      }
      if !OwnAt(c, s, run, 0, g) && !BorrowsAt(c, s, run, 0, b) { AfterOwnTail(c, s, s', run, g, b); }
    }
  }

  lemma AfterOwnTail(c: Config, s: State, s': State, run: seq<Action>, g: Turn, b: BufId)
    requires run != [] && !OwnAt(c, s, run, 0, g) && !BorrowsAt(c, s, run, 0, b)
    requires forall i: nat | 0 < i < |run| :: BorrowsAt(c, s, run, i, b) <==> BorrowsAt(c, s', run[1..], i - 1, b)
    requires forall i: nat | 0 < i < |run| :: OwnAt(c, s, run, i, g) <==> OwnAt(c, s', run[1..], i - 1, g)
    ensures BorrowsAfterOwn(c, s, run, g, b) <==> BorrowsAfterOwn(c, s', run[1..], g, b)
  {
    var rest := run[1..];
    hide Borrows, AtExecute, Feasible, After;
    if BorrowsAfterOwn(c, s, run, g, b) {
      forall i: nat | BorrowsAt(c, s', rest, i, b) ensures exists j: nat :: j <= i && OwnAt(c, s', rest, j, g) {
        var m := i + 1;
        assert BorrowsAt(c, s, run, m, b);
        var j: nat :| j <= m && OwnAt(c, s, run, j, g);
        var n := j - 1;
        assert OwnAt(c, s', rest, n, g);
      }
    }
    if BorrowsAfterOwn(c, s', rest, g, b) {
      forall i: nat | BorrowsAt(c, s, run, i, b) ensures exists j: nat :: j <= i && OwnAt(c, s, run, j, g) {
        var m := i - 1;
        assert BorrowsAt(c, s', rest, m, b);
        var j: nat :| j <= m && OwnAt(c, s', rest, j, g);
        assert OwnAt(c, s, run, j + 1, g);
      }
    }
  }

  lemma {:induction false} Prefix(c: Config, s: State, run: seq<Action>, i: nat)
    requires Feasible(c, s, run) && i <= |run|
    ensures Feasible(c, s, run[..i]) && Feasible(c, After(c, s, run[..i]), run[i..])
    ensures After(c, After(c, s, run[..i]), run[i..]) == After(c, s, run)
    decreases |run|
  {
    hide CanDo, Next;
    if i == 0 {
      assert run[..0] == [] && run[0..] == run;
    } else {
      Prefix(c, Next(c, s, run[0]), run[1..], i - 1);
      assert run[..i][0] == run[0] && run[..i][1..] == run[1..][..i - 1] && run[1..][i - 1..] == run[i..];
    }
  }

  /** A run in which `g` executes has a moment before that. */
  lemma {:induction false} FindsExecute(c: Config, s: State, run: seq<Action>, g: Turn) returns (i: nat)
    requires Trusted(c) && Inv(c, s) && Feasible(c, s, run) && !HasExecuted(s, g) && HasExecuted(After(c, s, run), g)
    ensures i < |run| && Feasible(c, s, run[..i]) && RanOn(After(c, s, run[..i]), g, After(c, s, run))
    ensures forall b :: UntouchedUntil(c, s, run, g, b) ==> Untouched(c, s, run[..i], b)
    decreases |run|
  {
    hide CanDo, Next, Inv, HasExecuted, AtExecute, Borrows;
    if run == [] {
      assert false;
    }
    var s1 := Next(c, s, run[0]);
    InvStep(c, s, run[0]);
    if HasExecuted(s1, g) {
      i := 0;
      ExecuteStep(c, s, run[0], g);
      assert run[..0] == [];
      GrownByRun(c, s1, run[1..]);
      RanOnStays(c, s, g, s1, After(c, s, run));
    } else {
      var j := FindsExecute(c, s1, run[1..], g);
      i := j + 1;
      assert run[..i][0] == run[0] && run[..i][1..] == run[1..][..j];
      forall b | UntouchedUntil(c, s, run, g, b) ensures Untouched(c, s, run[..i], b) {
        if run[0] == Run(g.t) && AtExecute(s, g) { OwnExecuteLogs(c, s, g); }
      }
    }
  }

  lemma RanOnStays(c: Config, before: State, g: Turn, s: State, s': State)
    requires RanOn(before, g, s) && Grown(s, s') && Inv(c, s')
    ensures RanOn(before, g, s')
  {
    LogHasTurns(c, s', CallOf(before, g).rt);
  }

  /** A call that is about to execute does so with its next action. */
  lemma OwnExecuteLogs(c: Config, s: State, g: Turn)
    requires Trusted(c) && Inv(c, s) && CanDo(c, s, Run(g.t)) && AtExecute(s, g)
    ensures HasExecuted(Next(c, s, Run(g.t)), g)
  {
    hide Act, CallsEffect;
    var th, s' := s.threads[g.t], Next(c, s, Run(g.t));
    ThreadFacts(c, s, g.t);
    ExecAppends(c, g.t, s.sh, th);
    IsStepOf(c, s, g.t);
    var r, k := th.call.value.rt, |LogOf(s.sh, th.call.value.rt)|;
    ExecuteGrows(s, s', g.t, Act(c, g.t, s.sh, th), r, k);
    assert LogOf(s'.sh, r)[k].Exec? && TurnsOf(s'.sh, r)[k] == g;
  }

  /** A call that has not begun has not executed. */
  lemma NotExecutedYet(c: Config, s: State, g: Turn)
    requires Inv(c, s) && HasCall(s, g) && !Finished(s, g) && s.threads[g.t].pc.Start?
    ensures !HasExecuted(s, g)
  {
    assert ThreadOk(c, s.sh, g.t, s.threads[g.t]);
    forall r: Rid, k: nat | k < |LogOf(s.sh, r)| && k < |TurnsOf(s.sh, r)| && TurnsOf(s.sh, r)[k] == g
      ensures !LogOf(s.sh, r)[k].Exec?
    {
      assert EntryOk(s, r, k);
    }
  }

  /** A call has one execute, so the one at place `k` is the one it was seen to make. */
  lemma OnlyExecute(c: Config, s: State, before: State, g: Turn, r: Rid, k: nat)
    requires Inv(c, s) && RanOn(before, g, s)
    requires k < |LogOf(s.sh, r)| && k < |TurnsOf(s.sh, r)| && LogOf(s.sh, r)[k].Exec? && TurnsOf(s.sh, r)[k] == g
    ensures CallOf(before, g).rt == r && |LogOf(before.sh, r)| == k
  {
    var q, m := CallOf(before, g).rt, |LogOf(before.sh, CallOf(before, g).rt)|;
    assert EntryOk(s, r, k) && EntryOk(s, q, m);
  }

  /** Some run goes from `s` to `s'`. */
  ghost predicate Leads(c: Config, s: State, s': State) {
    exists run :: Feasible(c, s, run) && After(c, s, run) == s'
  }

  lemma LeadsGrown(c: Config, s: State, s': State)
    requires Trusted(c) && Reachable(c, s) && Leads(c, s, s')
    ensures Grown(s, s')
  {
    hide CanDo, Next;
    ReachableInv(c, s);
    var run :| Feasible(c, s, run) && After(c, s, run) == s';
    GrownByRun(c, s, run);
  }

  /** Until its execute is made, all arguments of a call are alive. */
  lemma ArgumentsAreAlive(c: Config, s: State, g: Turn, i: nat)
    requires Inv(c, s) && HasCall(s, g) && !Finished(s, g) && CallOf(s, g).RunMethod? && i < |CallOf(s, g).args|
    requires s.threads[g.t].pc.Start? || s.threads[g.t].pc.ExecIn?
    ensures CallOf(s, g).args[i].data in s.sh.heap
  {
    var th := s.threads[g.t];
    assert ThreadOk(c, s.sh, g.t, th) && RunOk(c, s.sh, g.t, th);
    if th.pc.Start? {
      assert Lent(s.sh, g.t, g.n, th.call.value.args[i].data);
    } else {
      assert MakeHeldInput(th.call.value.args[i]) == Ok(th.held[i]) && Lent(s.sh, g.t, g.n, th.held[i].data);
    }
  }

  /** Arguments nobody borrows until then have the same contents when their call executes. */
  lemma SameContents(c: Config, s: State, run: seq<Action>, g: Turn)
    requires Trusted(c) && Inv(c, s) && Feasible(c, s, run)
    requires HasCall(s, g) && !Finished(s, g) && s.threads[g.t].pc.Start? && CallOf(s, g).RunMethod?
    requires AtExecute(After(c, s, run), g) && CallOf(After(c, s, run), g) == CallOf(s, g) && Inv(c, After(c, s, run))
    requires forall i | 0 <= i < |CallOf(s, g).args| :: Untouched(c, s, run, CallOf(s, g).args[i].data)
    ensures Contents(After(c, s, run).sh.heap, CallOf(s, g).args) == Contents(s.sh.heap, CallOf(s, g).args)
  {
    hide CanDo, Next, Inv, Untouched;
    var s', args := After(c, s, run), CallOf(s, g).args;
    forall i | 0 <= i < |args| ensures Bytes(s'.sh.heap, args[i].data) == Bytes(s.sh.heap, args[i].data) {
      ArgumentsAreAlive(c, s, g, i);
      ArgumentsAreAlive(c, s', g, i);
      BytesStay(c, s, run, args[i].data);
    }
  }
}
