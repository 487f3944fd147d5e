/** What stays along runs: calls, records, logs, places, a set variable and files. */
module Growth {
  import opened Protocol
  import opened Invariant
  import opened Preservation
  import opened Turns
  import opened Runs

  /** Calls, their records, logs, places, a set variable and files stay; new places go to calls
      that had not finished. */
  ghost predicate Grown(s: State, s': State) {
    && |s'.threads| == |s.threads|
    && (forall g: Turn | HasCall(s, g) :: HasCall(s', g) && CallOf(s', g) == CallOf(s, g))
    && (forall g: Turn | Finished(s, g) :: Finished(s', g) && RecordOf(s', g) == RecordOf(s, g))
    && (forall r: Rid :: LogOf(s.sh, r) <= LogOf(s'.sh, r) && TurnsOf(s.sh, r) <= TurnsOf(s'.sh, r))
    && (forall r: Rid, k: nat | |TurnsOf(s.sh, r)| <= k < |TurnsOf(s'.sh, r)| :: !Finished(s, TurnsOf(s'.sh, r)[k]))
    && (s.sh.env.Some? ==> s'.sh.env == s.sh.env) && s.sh.files <= s'.sh.files
  }

  lemma GrownByEffect(c: Config, s: State, s': State, t: Tid, e: Effect)
    requires StepOf(s, s', t, e) && GoodEffect(c, s.sh, s.threads[t], e)
    ensures Grown(s, s')
  {
    forall g: Turn | HasCall(s, g) ensures HasCall(s', g) && CallOf(s', g) == CallOf(s, g) { CallsStay(s, s', t, e, g); }
    forall g: Turn | Finished(s, g) ensures Finished(s', g) && RecordOf(s', g) == RecordOf(s, g) { CallsStay(s, s', t, e, g); }
  }

  lemma GrownByStep(c: Config, s: State, a: Action)
    requires Trusted(c) && Inv(c, s) && CanDo(c, s, a)
    ensures Grown(s, Next(c, s, a)) && Inv(c, Next(c, s, a))
  {
    hide Act, Inv;
    InvStep(c, s, a);
    if a.Run? {
      InvThreadStep(c, s, a.t);
      IsStepOf(c, s, a.t);
      GrownByEffect(c, s, Next(c, s, a), a.t, Act(c, a.t, s.sh, s.threads[a.t]));
    } else {
      assert forall r: Rid :: LogOf(Next(c, s, a).sh, r) == LogOf(s.sh, r) && TurnsOf(Next(c, s, a).sh, r) == TurnsOf(s.sh, r);
    }
  }

  lemma GrownTransitive(s: State, s': State, s'': State)
    requires Grown(s, s') && Grown(s', s'')
    ensures Grown(s, s'')
  {
    forall r: Rid, k: nat | |TurnsOf(s.sh, r)| <= k < |TurnsOf(s''.sh, r)| ensures !Finished(s, TurnsOf(s''.sh, r)[k]) {
      if k < |TurnsOf(s'.sh, r)| { assert TurnsOf(s''.sh, r)[k] == TurnsOf(s'.sh, r)[k]; }
    }
  }

  lemma {:induction false} GrownByRun(c: Config, s: State, run: seq<Action>)
    requires Trusted(c) && Inv(c, s) && Feasible(c, s, run)
    ensures Grown(s, After(c, s, run)) && Inv(c, After(c, s, run))
    decreases |run|
  {
    hide Inv, Grown, CanDo, Next;
    if run == [] {
      GrownRefl(s);
    } else {
      GrownByStep(c, s, run[0]);
      GrownByRun(c, Next(c, s, run[0]), run[1..]);
      GrownTransitive(s, Next(c, s, run[0]), After(c, s, run));
    }
  }

  lemma GrownRefl(s: State)
    ensures Grown(s, s)
  {
  }

  /** All places of `g` on Runtime `r` are before all those of `h`. */
  ghost predicate Precedes(s: State, r: Rid, g: Turn, h: Turn) {
    forall j, k | 0 <= j < |TurnsOf(s.sh, r)| && 0 <= k < |TurnsOf(s.sh, r)|
      && TurnsOf(s.sh, r)[j] == g && TurnsOf(s.sh, r)[k] == h :: j < k
  }

  lemma NoPlaceBeforeCall(s: State, r: Rid, h: Turn)
    requires TurnsOk(s) && !HasCall(s, h)
    ensures h !in TurnsOf(s.sh, r)
  {
    forall k | 0 <= k < |TurnsOf(s.sh, r)| ensures TurnsOf(s.sh, r)[k] != h { assert EntryOk(s, r, k); }
  }
}
