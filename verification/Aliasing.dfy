/** The condition in `Permanence.ResultsArePermanent` is needed: which steps keep a buffer whatever
    Modules write, and a run in which a result is passed to a second call that writes into it. */
module Aliasing {
  import opened Values
  import opened Marshal
  import opened Protocol
  import opened Invariant
  import opened Runs
  import opened Executions
  import opened Permanence

  // ---------- what every Module keeps ----------

  /** `c` with Modules that leave `w` in their inputs. */
  function Writing(c: Config, w: (Rid, Mod, string, seq<Input>) -> seq<seq<byte>>): Config {
    c.(writes := w)
  }

  /** The action leaves buffer `b` as it is when Modules write `w`. */
  ghost predicate KeptUnder(c: Config, w: (Rid, Mod, string, seq<Input>) -> seq<seq<byte>>, s: State, a: Action, b: BufId)
    requires b in s.sh.heap
  {
    && CanDo(Writing(c, w), s, a)
    && var s' := Next(Writing(c, w), s, a);
       b in s'.sh.heap && s'.sh.heap[b] == s.sh.heap[b]
  }

  /** What Modules write shows in the execute only. */
  lemma WritesShowInExecute(c: Config, w: (Rid, Mod, string, seq<Input>) -> seq<seq<byte>>, t: Tid, sh: Shared, th: Thread)
    requires th.call.Some? && Shape(th)
    ensures
      var e, e' := Act(c, t, sh, th), Act(Writing(c, w), t, sh, th);
      && e'.gil == e.gil && e'.mutex == e.mutex
      && if th.pc.ExecIn? then
           th.call.value.RunMethod? &&
           var r, name := th.call.value.rt, th.call.value.name;
           e'.sh.heap == WriteBack(sh.heap, Borrowed(th.held), w(r, ModOf(c, sh, r), name, InputsOf(sh.heap, th.held)))
         else
           e' == e
  {
  }

  function Flip(bytes: seq<byte>): (r: seq<byte>)
    ensures |r| == |bytes| && (bytes != [] ==> r != bytes)
  {
    if bytes == [] then [] else [255 - bytes[0]] + bytes[1..]
  }

  function FlipAll(r: Rid, m: Mod, name: string, inputs: seq<Input>): seq<seq<byte>> {
    seq(|inputs|, i requires 0 <= i < |inputs| => Flip(inputs[i].bytes))
  }

  lemma {:induction false} LastWriteHits(bufs: seq<BufId>, writes: seq<seq<byte>>, b: BufId, before: seq<byte>, x: seq<byte>)
    requires b in bufs && |x| == |before| && |bufs| <= |writes|
    requires forall i | 0 <= i < |bufs| && bufs[i] == b :: writes[i] == x
    ensures LastWrite(bufs, writes, b, before) == x
  {
    if bufs[|bufs| - 1] == b {
    } else {
      LastWriteHits(bufs[..|bufs| - 1], writes, b, before, x);
    }
  }

  /** The exact condition, step by step: a buffer keeps its contents whatever Modules write if and
      only if the step is no execute that borrows it, or there is nothing in it. */
  lemma KeptByEveryModule(c: Config, s: State, a: Action, b: BufId)
    requires Trusted(c) && Reachable(c, s) && CanDo(c, s, a) && b in s.sh.heap && b in Next(c, s, a).sh.heap
    ensures (forall w :: KeptUnder(c, w, s, a, b)) <==> !(a.Run? && Borrows(s, a.t, b)) || s.sh.heap[b].bytes == []
  {
    hide Act, Inv, LastWrite;
    ReachableInv(c, s);
    OnlyExecutesWrite(c, s, a, b);
    if a.Run? && Borrows(s, a.t, b) && s.sh.heap[b].bytes != [] {
      BorrowedMayChange(c, s, a.t, b);
      assert !KeptUnder(c, FlipAll, s, a, b);
    } else {
      forall w ensures KeptUnder(c, w, s, a, b) { KeptWithout(c, w, s, a, b); }
    }
  }

  lemma KeptWithout(c: Config, w: (Rid, Mod, string, seq<Input>) -> seq<seq<byte>>, s: State, a: Action, b: BufId)
    requires Trusted(c) && Inv(c, s) && CanDo(c, s, a) && b in s.sh.heap && b in Next(c, s, a).sh.heap
    requires !(a.Run? && Borrows(s, a.t, b)) || s.sh.heap[b].bytes == []
    ensures KeptUnder(c, w, s, a, b)
  {
    OnlyExecutesWrite(c, s, a, b);
    if a.Run? { WritesShowInExecute(c, w, a.t, s.sh, s.threads[a.t]); }
    hide Act, Inv;
  }

  lemma BorrowedMayChange(c: Config, s: State, t: Tid, b: BufId)
    requires Enabled(c, s, t) && Borrows(s, t, b) && b in s.sh.heap && s.sh.heap[b].bytes != []
    ensures !KeptUnder(c, FlipAll, s, Run(t), b)
  {
    var th := s.threads[t];
    WritesShowInExecute(c, FlipAll, t, s.sh, th);
    hide Act, LastWrite;
    var bufs, inputs := Borrowed(th.held), InputsOf(s.sh.heap, th.held);
    var r := th.call.value.rt;
    var writes := FlipAll(r, ModOf(c, s.sh, r), th.call.value.name, inputs);
    LastWriteHits(bufs, writes, b, s.sh.heap[b].bytes, Flip(s.sh.heap[b].bytes));
  }

  // ---------- the failing run ----------

  const UINT8 := DlDtype(UInt, 8, 1)

  /** One byte, in buffer `x`. */
  function OneByte(x: BufId): NdArray<BufId> { NdArray(UINT8, [1], x) }

  /** `c` with Modules that answer [7] and leave 9 in their input. */
  function Scribbling(c: Config): Config {
    c.(readMeta := (r: Rid, m: Mod, name: string) => (m, Some(MetaInfo({}, [], []))),
       execute := (r: Rid, m: Mod, name: string, inputs: seq<Input>) =>
         (Mod(m.internal, [7]), Some([EValue.Tensor(0, 1, [1], 0)])),
       writes := (r: Rid, m: Mod, name: string, inputs: seq<Input>) => [[9]],
       delegates := (r: Rid, name: string) => false)
  }

  lemma ScribblingIsTrusted(c: Config)
    requires "" !in c.files0
    ensures Trusted(Scribbling(c)) && SaneModule(Scribbling(c))
  {
    NumelIsProduct([], [], 1);
  }

  /** One thread, between two calls. */
  predicate Idle(s: State) {
    && |s.threads| == 1 && s.gil == None && s.mutex == map[]
    && s.threads[0] == Thread(None, Start, [], None, None, s.threads[0].done)
  }

  /** The thread's call on the byte in `x`, at program point `pc`. */
  predicate Calling(s: State, x: BufId, pc: PC) {
    && |s.threads| == 1 && s.threads[0].pc == pc && Shape(s.threads[0])
    && s.threads[0].call == Some(RunMethod(0, "forward", [OneByte(x)], None))
  }

  /** The thread calls, and takes the GIL. */
  lemma Begins(c: Config, s: State, from: State, run: seq<Action>, x: BufId) returns (s': State, run': seq<Action>)
    requires Feasible(c, s, run) && After(c, s, run) == from && Idle(from) && PythonArray(from, x)
    ensures Feasible(c, s, run') && After(c, s, run') == s' && Calling(s', x, Marshalling)
    ensures s'.sh == from.sh && s'.gil == Some(0) && s'.mutex == map[]
    ensures s'.threads[0].held == [] && s'.threads[0].done == from.threads[0].done
  {
    s', run' := Extend(c, s, run, Issue(0, RunMethod(0, "forward", [OneByte(x)], None)));
    assert Calling(s', x, Start);
    s', run' := Extend(c, s, run', Run(0));
  }

  /** Marshalling of the one argument. */
  lemma Marshals(c: Config, s: State, from: State, run: seq<Action>, x: BufId) returns (s': State, run': seq<Action>)
    requires Feasible(c, s, run) && After(c, s, run) == from && Calling(from, x, Marshalling)
    requires from.gil == Some(0) && from.mutex == map[] && from.threads[0].held == []
    ensures Feasible(c, s, run') && After(c, s, run') == s' && Calling(s', x, AccessWait(Guard))
    ensures s'.sh == from.sh && s'.gil == None && s'.mutex == map[]
    ensures s'.threads[0].held == [Desc(x, [1], 0)] && s'.threads[0].done == from.threads[0].done
  {
    s', run' := Extend(c, s, run, Run(0));
    assert s'.threads[0].held == [Desc(x, [1], 0)];
    s', run' := Extend(c, s, run', Run(0));
  }

  lemma ReadsMeta(c: Config, s: State, from: State, run: seq<Action>, x: BufId) returns (s': State, run': seq<Action>)
    requires c == Scribbling(c) && Feasible(c, s, run) && After(c, s, run) == from && Calling(from, x, AccessWait(Guard))
    requires from.gil == None && from.mutex == map[]
    ensures Feasible(c, s, run') && After(c, s, run') == s'
    ensures Calling(s', x, AccessOut(Guard, Protocol.Meta(MetaInfo({}, [], []))))
    ensures s'.gil == None && s'.mutex == map[0 := 0] && s'.sh.heap == from.sh.heap && s'.sh.next == from.sh.next
    ensures s'.threads[0].held == from.threads[0].held && s'.threads[0].done == from.threads[0].done
  {
    s', run' := Extend(c, s, run, Run(0));
    assert Calling(s', x, AccessIn(Guard)) && s'.mutex == map[0 := 0];
    s', run' := Extend(c, s, run', Run(0));
  }

  /** The guard, which finds nothing to refuse. */
  lemma Passes(c: Config, s: State, from: State, run: seq<Action>, x: BufId) returns (s': State, run': seq<Action>)
    requires c == Scribbling(c) && Feasible(c, s, run) && After(c, s, run) == from && Calling(from, x, AccessWait(Guard))
    requires from.gil == None && from.mutex == map[]
    ensures Feasible(c, s, run') && After(c, s, run') == s' && Calling(s', x, ExecWait)
    ensures s'.gil == None && s'.mutex == map[] && s'.sh.heap == from.sh.heap && s'.sh.next == from.sh.next
    ensures s'.threads[0].held == from.threads[0].held && s'.threads[0].done == from.threads[0].done
  {
    s', run' := ReadsMeta(c, s, from, run, x);
    s', run' := Extend(c, s, run', Run(0));
  }

  lemma TakesLock(c: Config, s: State, from: State, run: seq<Action>, x: BufId) returns (s': State, run': seq<Action>)
    requires Feasible(c, s, run) && After(c, s, run) == from && Calling(from, x, ExecWait)
    requires from.gil == None && from.mutex == map[]
    ensures Feasible(c, s, run') && After(c, s, run') == s' && Calling(s', x, ExecIn)
    ensures s'.gil == None && s'.mutex == map[0 := 0] && s'.sh.heap == from.sh.heap && s'.sh.next == from.sh.next
    ensures s'.threads[0].held == from.threads[0].held && s'.threads[0].done == from.threads[0].done
  {
    s', run' := Extend(c, s, run, Run(0));
  }

  /** The execute, which writes into `x`. */
  lemma Scribbles(c: Config, s: State, from: State, run: seq<Action>, x: BufId) returns (s': State, run': seq<Action>)
    requires c == Scribbling(c) && Feasible(c, s, run) && After(c, s, run) == from && Calling(from, x, ExecIn)
    requires from.gil == None && from.mutex == map[0 := 0] && from.threads[0].held == [Desc(x, [1], 0)]
    requires x in from.sh.heap && |from.sh.heap[x].bytes| == 1
    ensures Feasible(c, s, run') && After(c, s, run') == s'
    ensures Calling(s', x, CopyOut([EValue.Tensor(0, 1, [1], 0)], []))
    ensures s'.gil == None && s'.mutex == map[0 := 0] && ModOf(c, s'.sh, 0).arena == [7]
    ensures x in s'.sh.heap && s'.sh.heap[x].bytes == [9] && s'.sh.next == from.sh.next
    ensures s'.threads[0].done == from.threads[0].done
  {
    var bufs := Borrowed(from.threads[0].held);
    assert bufs == [x];
    assert LastWrite(bufs, [[9]], x, from.sh.heap[x].bytes) == [9];
    s', run' := Extend(c, s, run, Run(0));
  }

  lemma CopiesOne(c: Config, s: State, from: State, run: seq<Action>, x: BufId) returns (s': State, run': seq<Action>)
    requires Feasible(c, s, run) && After(c, s, run) == from && Calling(from, x, CopyOut([EValue.Tensor(0, 1, [1], 0)], []))
    requires from.gil == None && from.mutex == map[0 := 0] && ModOf(c, from.sh, 0).arena == [7]
    ensures Feasible(c, s, run') && After(c, s, run') == s'
    ensures Calling(s', x, CopyOut([EValue.Tensor(0, 1, [1], 0)], [TensorView(from.sh.next, [1], 0)]))
    ensures s'.gil == None && s'.mutex == map[0 := 0] && Bytes(s'.sh.heap, from.sh.next) == [7]
    ensures s'.sh.next == from.sh.next + 1 && s'.threads[0].done == from.threads[0].done
  {
    s', run' := Extend(c, s, run, Run(0));
  }

  /** The copy-out of the one output. */
  lemma Copies(c: Config, s: State, from: State, run: seq<Action>, x: BufId) returns (s': State, run': seq<Action>)
    requires Feasible(c, s, run) && After(c, s, run) == from && Calling(from, x, CopyOut([EValue.Tensor(0, 1, [1], 0)], []))
    requires from.gil == None && from.mutex == map[0 := 0] && ModOf(c, from.sh, 0).arena == [7]
    ensures Feasible(c, s, run') && After(c, s, run') == s'
    ensures Calling(s', x, GilWait([TensorView(from.sh.next, [1], 0)]))
    ensures s'.gil == None && s'.mutex == map[] && Bytes(s'.sh.heap, from.sh.next) == [7]
    ensures s'.sh.next == from.sh.next + 1 && s'.threads[0].done == from.threads[0].done
  {
    s', run' := CopiesOne(c, s, from, run, x);
    s', run' := Extend(c, s, run', Run(0));
  }

  lemma TakesGil(c: Config, s: State, from: State, run: seq<Action>, x: BufId, b: BufId) returns (s': State, run': seq<Action>)
    requires Feasible(c, s, run) && After(c, s, run) == from && Calling(from, x, GilWait([TensorView(b, [1], 0)]))
    requires from.gil == None && from.mutex == map[]
    ensures Feasible(c, s, run') && After(c, s, run') == s' && Calling(s', x, Build([TensorView(b, [1], 0)], []))
    ensures s'.gil == Some(0) && s'.mutex == map[] && s'.sh == from.sh && s'.threads[0].done == from.threads[0].done
  {
    s', run' := Extend(c, s, run, Run(0));
  }

  lemma Builds(c: Config, s: State, from: State, run: seq<Action>, x: BufId, b: BufId) returns (s': State, run': seq<Action>)
    requires Feasible(c, s, run) && After(c, s, run) == from && Calling(from, x, Build([TensorView(b, [1], 0)], []))
    requires from.gil == Some(0) && from.mutex == map[] && Bytes(from.sh.heap, b) == [7]
    ensures Feasible(c, s, run') && After(c, s, run') == s' && s'.gil == Some(0) && s'.mutex == map[]
    ensures Calling(s', x, Build([TensorView(b, [1], 0)], [PyArray(from.sh.next, [1], NpDtype('u', 1))]))
    ensures s'.threads[0].done == from.threads[0].done
    ensures
      var y := from.sh.next;
      y in s'.sh.heap && s'.sh.heap[y] == Buffer(ResultOf(0, |from.threads[0].done|, 0), [7])
  {
    s', run' := Extend(c, s, run, Run(0));
  }

  /** The list of one array, returned. */
  lemma Returns(c: Config, s: State, from: State, run: seq<Action>, x: BufId, b: BufId) returns (s': State, run': seq<Action>)
    requires Feasible(c, s, run) && After(c, s, run) == from && Calling(from, x, GilWait([TensorView(b, [1], 0)]))
    requires from.gil == None && from.mutex == map[] && Bytes(from.sh.heap, b) == [7]
    ensures Feasible(c, s, run') && After(c, s, run') == s' && Idle(s')
    ensures
      var y, n, done := from.sh.next, |from.threads[0].done|, s'.threads[0].done;
      && |done| == n + 1 && done[n].outcome == Returned([PyArray(y, [1], NpDtype('u', 1))])
      && done[n].seen == Returned([PyArray([7], [1], NpDtype('u', 1))])
      && y in s'.sh.heap && s'.sh.heap[y] == Buffer(ResultOf(0, n, 0), [7])
  {
    s', run' := TakesGil(c, s, from, run, x, b);
    s', run' := Builds(c, s, s', run', x, b);
    s', run' := Extend(c, s, run', Run(0));
  }

  /** One whole call on the byte in `x`, up to the execute. */
  lemma UpToExecute(c: Config, s: State, from: State, run: seq<Action>, x: BufId) returns (s': State, run': seq<Action>)
    requires c == Scribbling(c) && Feasible(c, s, run) && After(c, s, run) == from && Idle(from) && PythonArray(from, x)
    requires |from.sh.heap[x].bytes| == 1
    ensures Feasible(c, s, run') && After(c, s, run') == s'
    ensures Calling(s', x, CopyOut([EValue.Tensor(0, 1, [1], 0)], []))
    ensures s'.gil == None && s'.mutex == map[0 := 0] && ModOf(c, s'.sh, 0).arena == [7]
    ensures x in s'.sh.heap && s'.sh.heap[x].bytes == [9] && s'.threads[0].done == from.threads[0].done
  {
    s', run' := Begins(c, s, from, run, x);
    s', run' := Marshals(c, s, s', run', x);
    s', run' := Passes(c, s, s', run', x);
    s', run' := TakesLock(c, s, s', run', x);
    s', run' := Scribbles(c, s, s', run', x);
  }

  /** A whole call on the byte in `x`. */
  lemma WholeCall(c: Config, s: State, from: State, run: seq<Action>, x: BufId) returns (s': State, run': seq<Action>, y: BufId)
    requires c == Scribbling(c) && Feasible(c, s, run) && After(c, s, run) == from && Idle(from) && PythonArray(from, x)
    requires |from.sh.heap[x].bytes| == 1
    ensures Feasible(c, s, run') && After(c, s, run') == s' && Idle(s')
    ensures
      var n, done := |from.threads[0].done|, s'.threads[0].done;
      && |done| == n + 1 && done[n].outcome == Returned([PyArray(y, [1], NpDtype('u', 1))])
      && done[n].seen == Returned([PyArray([7], [1], NpDtype('u', 1))])
      && y in s'.sh.heap && s'.sh.heap[y] == Buffer(ResultOf(0, n, 0), [7])
  {
    hide Act, CanDo, Next;
    s', run' := UpToExecute(c, s, from, run, x);
    var b := s'.sh.next;
    s', run' := Copies(c, s, s', run', x);
    y := s'.sh.next;
    s', run' := Returns(c, s, s', run', x, b);
  }

  /** The caller's array. */
  lemma StartsWithArray(c: Config) returns (s: State, run: seq<Action>)
    ensures Feasible(c, Initial(c, 1), run) && After(c, Initial(c, 1), run) == s
    ensures Idle(s) && s.threads[0].done == [] && PythonArray(s, 0) && s.sh.heap[0].bytes == [1]
  {
    hide Act;
    s, run := Extend(c, Initial(c, 1), [], NewArray([1]));
  }

  /** `y = m([x])[0]; m([y])`: the second call changes what the first one returned. */
  lemma PassedOnChanges(config: Config) returns (s: State)
    requires "" !in config.files0
    ensures Trusted(Scribbling(config)) && SaneModule(Scribbling(config)) && Reachable(Scribbling(config), s)
    ensures ReturnedArray(s, Turn(0, 0), 0) && Passed(s, ArrayBuffer(s, Turn(0, 0), 0))
    ensures RecordOf(s, Turn(0, 0)).seen == Returned([PyArray([7], [1], NpDtype('u', 1))])
    ensures ReadPy(s.sh.heap, RecordOf(s, Turn(0, 0)).outcome.values[0]) == PyArray([9], [1], NpDtype('u', 1))
  {
    hide Act, CanDo, Next;
    var c := Scribbling(config);
    ScribblingIsTrusted(config);
    assert c == Scribbling(c);
    var run;
    s, run := StartsWithArray(c);
    var y;
    s, run, y := WholeCall(c, Initial(c, 1), s, run, 0);
    assert ReturnedArray(s, Turn(0, 0), 0) && PythonArray(s, y);
    s, run := UpToExecute(c, Initial(c, 1), s, run, y);
    assert CallOf(s, Turn(0, 1)).args[0].data == y && PassedBy(s, Turn(0, 1), y);
  }
}
