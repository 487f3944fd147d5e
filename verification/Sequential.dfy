/** The sequential reference: what one Module answers when the accesses of a log are made
    one after the other, and what a call then returns. No threads, locks or heap here. */
module Sequential {
  import opened Values
  import opened Marshal
  import opened Protocol

  /** The Module after the accesses of `log`. */
  function Replay(c: Config, r: Rid, log: seq<Access>): Mod {
    if log == [] then c.loaded(r)
    else Perform(c, r, Replay(c, r, log[..|log| - 1]), log[|log| - 1]).0
  }

  /** What access number `k` answers. */
  function ReplyAt(c: Config, r: Rid, log: seq<Access>, k: nat): Reply
    requires k < |log|
  {
    Perform(c, r, Replay(c, r, log[..k]), log[k]).1
  }

  /** Execute, snapshot the arena at once, build the outputs. */
  function OutcomeOf(c: Config, arena: seq<byte>, reply: Reply): Outcome<seq<byte>> {
    if !reply.Values? then Raised(ExecutionFailed)
    else match CopyAll(arena, reply.evs)
      case Err(f) => Raised(f)
      case Ok(views) =>
        match PyAll(c.decode, views)
        case Err(f) => Raised(f)
        case Ok(values) => Returned(values)
  }

  /** The outcome of the execute at position `k` when nothing else runs in between. */
  function SeqOutcome(c: Config, r: Rid, log: seq<Access>, k: nat): Outcome<seq<byte>>
    requires k < |log|
  {
    OutcomeOf(c, Replay(c, r, log[..k + 1]).arena, ReplyAt(c, r, log, k))
  }

  /** The tensors of the arrays `args`. */
  ghost function InputsFor(args: seq<NdArray<seq<byte>>>): (inputs: seq<Input>)
    requires AllMapped(args)
    ensures Describes(args, inputs)
  {
    seq(|args|, i requires 0 <= i < |args| => ToInput(MakeHeldInput(args[i]).value))
  }

  /** One tensor for each array, in order. */
  lemma TensorsAreTheArrays(args: seq<NdArray<seq<byte>>>)
    requires AllMapped(args)
    ensures |InputsFor(args)| == |args|
    ensures forall i | 0 <= i < |args| :: IsTensorOf(InputsFor(args)[i], args[i].dtype, args[i].shape, args[i].data)
  {
    forall i | 0 <= i < |args| ensures IsTensorOf(InputsFor(args)[i], args[i].dtype, args[i].shape, args[i].data) {
      InputMeans(args[i]);
    }
  }

  lemma ReplayNext(c: Config, r: Rid, log: seq<Access>, k: nat)
    requires k < |log|
    ensures Replay(c, r, log[..k + 1]) == Perform(c, r, Replay(c, r, log[..k]), log[k]).0
  {
    assert log[..k + 1][..k] == log[..k];
  }

  lemma ReplayAppend(c: Config, r: Rid, log: seq<Access>, a: Access)
    ensures Replay(c, r, log + [a]) == Perform(c, r, Replay(c, r, log), a).0
    ensures ReplyAt(c, r, log + [a], |log|) == Perform(c, r, Replay(c, r, log), a).1
  {
    assert (log + [a])[..|log|] == log;
  }

  lemma PrefixAgrees(c: Config, r: Rid, log: seq<Access>, log': seq<Access>, k: nat)
    requires log <= log' && k < |log|
    ensures log'[k] == log[k] && log'[..k] == log[..k] && log'[..k + 1] == log[..k + 1]
    ensures ReplyAt(c, r, log', k) == ReplyAt(c, r, log, k)
    ensures SeqOutcome(c, r, log', k) == SeqOutcome(c, r, log, k)
  {
    assert log'[..k] == log[..k] && log'[..k + 1] == log[..k + 1];
  }

  // ---------- what the reference means ----------

  /** The Module moves as its own functions say, one access after the other, from where it was loaded. */
  lemma ReplayMeans(c: Config, r: Rid, log: seq<Access>, a: Access)
    ensures Replay(c, r, []) == c.loaded(r)
    ensures a.NamesRead? ==> Replay(c, r, log + [a]) == c.readNames(r, Replay(c, r, log)).0
    ensures a.MetaRead? ==> Replay(c, r, log + [a]) == c.readMeta(r, Replay(c, r, log), a.name).0
    ensures a.Exec? ==> Replay(c, r, log + [a]) == c.execute(r, Replay(c, r, log), a.method_, a.inputs).0
  {
    ReplayAppend(c, r, log, a);
  }

  /** And it answers as they say: nothing is added to, or left out of, what it lists, describes or
      computes. */
  lemma ReplyMeans(c: Config, r: Rid, log: seq<Access>, k: nat)
    requires k < |log|
    ensures log[k].NamesRead? ==>
      var answer := c.readNames(r, Replay(c, r, log[..k])).1;
      ReplyAt(c, r, log, k) == if answer.None? then Failed else Names(answer.value)
    ensures log[k].MetaRead? ==>
      var answer := c.readMeta(r, Replay(c, r, log[..k]), log[k].name).1;
      ReplyAt(c, r, log, k) == if answer.None? then Failed else Meta(answer.value)
    ensures log[k].Exec? ==>
      var answer := c.execute(r, Replay(c, r, log[..k]), log[k].method_, log[k].inputs).1;
      ReplyAt(c, r, log, k) == if answer.None? then Failed else Protocol.Values(answer.value)
  {
  }

  /** What an execute at position `k` did to the Module. */
  lemma ExecuteAt(c: Config, r: Rid, log: seq<Access>, k: nat)
    requires k < |log| && log[k].Exec?
    ensures Replay(c, r, log[..k + 1]) == c.execute(r, Replay(c, r, log[..k]), log[k].method_, log[k].inputs).0
  {
    ReplayNext(c, r, log, k);
  }

  // ---------- what an execute returns ----------

  /** Every output in its place is the value it stands for. */
  ghost predicate ArePythonOf(c: Config, result: (Mod, Option<seq<EValue>>), values: seq<PyValue<seq<byte>>>) {
    && result.1.Some? && |values| == |result.1.value|
    && forall i | 0 <= i < |values| ::
         IsPythonOf(c.decode, result.0.arena, result.1.value[i], values[i], PyBytes(values[i]))
  }

  /** The first output that cannot be given to Python. */
  ghost predicate FirstBad(c: Config, arena: seq<byte>, evs: seq<EValue>, k: nat)
    requires forall i | 0 <= i < |evs| :: Sane(|arena|, evs[i])
  {
    k < |evs| && IsBad(c.decode, arena, evs[k]) && forall i | 0 <= i < k :: !IsBad(c.decode, arena, evs[i])
  }

  /** The snapshot fails exactly when some output has no Python form, whatever stands before it. */
  lemma {:induction false} UnsupportedIffOther(arena: seq<byte>, evs: seq<EValue>)
    ensures CopyAll(arena, evs).Err? <==> exists k :: 0 <= k < |evs| && evs[k].Other?
    ensures CopyAll(arena, evs).Err? ==> CopyAll(arena, evs).fault == UnsupportedOutput
    ensures CopyAll(arena, evs).Ok? ==>
      forall k | 0 <= k < |evs| :: CopyOne(arena, evs[k]) == Ok(CopyAll(arena, evs).value[k])
  {
    if evs == [] {
    } else {
      UnsupportedIffOther(arena, evs[1..]);
      if k :| 0 <= k < |evs[1..]| && evs[1..][k].Other? { assert evs[k + 1].Other?; }
      if k :| 0 <= k < |evs| && evs[k].Other? { assert k > 0 ==> evs[1..][k - 1].Other?; }
    }
  }

  /** Building the list fails exactly when some output does, with the fault of the first one that
      does; a string that is not UTF-8 is named by its number. */
  lemma {:induction false} FirstBadOutputIsNamed(decode: seq<byte> -> Option<string>, views: seq<View<seq<byte>>>, i: nat)
    requires i <= |views|
    ensures PyFrom(decode, views, i).Err? <==> exists k :: i <= k < |views| && PyOne(decode, views[k], k).Err?
    ensures PyFrom(decode, views, i).Err? ==>
      exists k :: i <= k < |views| && PyOne(decode, views[k], k) == Err(PyFrom(decode, views, i).fault)
               && forall j | i <= j < k :: PyOne(decode, views[j], j).Ok?
    ensures PyFrom(decode, views, i).Ok? ==>
      forall j | i <= j < |views| :: PyOne(decode, views[j], j) == Ok(PyFrom(decode, views, i).value[j - i])
    decreases |views| - i
  {
    if i == |views| {
    } else {
      FirstBadOutputIsNamed(decode, views, i + 1);
    }
  }

  /** A list that was returned has each output as the value it stands for. */
  lemma ReturnedMeans(c: Config, r: Rid, log: seq<Access>, k: nat)
    requires k < |log| && log[k].Exec? && SeqOutcome(c, r, log, k).Returned?
    ensures
      var result := c.execute(r, Replay(c, r, log[..k]), log[k].method_, log[k].inputs);
      ArePythonOf(c, result, SeqOutcome(c, r, log, k).values)
  {
    ExecuteAt(c, r, log, k);
    ReplyMeans(c, r, log, k);
    var result := c.execute(r, Replay(c, r, log[..k]), log[k].method_, log[k].inputs);
    var arena, evs := result.0.arena, result.1.value;
    UnsupportedIffOther(arena, evs);
    var views := CopyAll(arena, evs).value;
    FirstBadOutputIsNamed(c.decode, views, 0);
    forall i | 0 <= i < |evs|
      ensures
        var p := SeqOutcome(c, r, log, k).values[i];
        IsPythonOf(c.decode, arena, evs[i], p, PyBytes(p))
    {
      PyOneMeans(c.decode, arena, evs[i], i);
    }
  }

  /** When all outputs have a Python form, the list fails at the first one that cannot be given it. */
  lemma ListFailsAtFirstBad(c: Config, arena: seq<byte>, evs: seq<EValue>, views: seq<View<seq<byte>>>)
    requires |views| == |evs| && forall i | 0 <= i < |evs| :: Sane(|arena|, evs[i])
    requires forall i | 0 <= i < |evs| :: CopyOne(arena, evs[i]) == Ok(views[i])
    ensures PyAll(c.decode, views).Err? <==> exists i :: 0 <= i < |evs| && IsBad(c.decode, arena, evs[i])
    ensures PyAll(c.decode, views).Err? ==>
      exists i :: 0 <= i < |evs| && FirstBad(c, arena, evs, i)
               && PyAll(c.decode, views).fault == (if evs[i].String? then InvalidUtf8(i) else DtypeUnmapped)
  {
    forall i | 0 <= i < |evs| ensures PyOne(c.decode, views[i], i).Err? <==> IsBad(c.decode, arena, evs[i]) {
      PyOneMeans(c.decode, arena, evs[i], i);
    }
    FirstBadOutputIsNamed(c.decode, views, 0);
    hide PyOne, PyFrom, CopyOne, IsBad;
    if PyAll(c.decode, views).Err? {
      var i :| 0 <= i < |views| && PyOne(c.decode, views[i], i) == Err(PyFrom(c.decode, views, 0).fault)
           && forall j | 0 <= j < i :: PyOne(c.decode, views[j], j).Ok?;
      PyOneMeans(c.decode, arena, evs[i], i);
      assert FirstBad(c, arena, evs, i);
    }
  }

  /** How a call ends whose execute did `result`: the execute failed; or some output has no Python form;
      or else the first one that cannot be given to Python is reported, a text by its number; or else
      a list is returned. */
  ghost predicate EndsAs<D(!new)>(c: Config, result: (Mod, Option<seq<EValue>>), outcome: Outcome<D>)
    requires SaneOutputs(result)
  {
    if result.1.None? then outcome == Raised(ExecutionFailed)
    else
      var arena, evs := result.0.arena, result.1.value;
      if exists i :: 0 <= i < |evs| && evs[i].Other? then outcome == Raised(UnsupportedOutput)
      else if exists i :: 0 <= i < |evs| && IsBad(c.decode, arena, evs[i]) then
        exists i :: 0 <= i < |evs| && FirstBad(c, arena, evs, i)
                 && outcome == Raised(if evs[i].String? then InvalidUtf8(i) else DtypeUnmapped)
      else outcome.Returned?
  }

  lemma OutcomeMeans(c: Config, r: Rid, log: seq<Access>, k: nat)
    requires SaneModule(c) && k < |log| && log[k].Exec?
    ensures
      var result := c.execute(r, Replay(c, r, log[..k]), log[k].method_, log[k].inputs);
      SaneOutputs(result) && EndsAs(c, result, SeqOutcome(c, r, log, k))
  {
    ExecuteAt(c, r, log, k);
    ReplyMeans(c, r, log, k);
    var result := c.execute(r, Replay(c, r, log[..k]), log[k].method_, log[k].inputs);
    assert SaneOutputs(result);
    if result.1.Some? {
      var arena, evs := result.0.arena, result.1.value;
      UnsupportedIffOther(arena, evs);
      if CopyAll(arena, evs).Ok? { ListFailsAtFirstBad(c, arena, evs, CopyAll(arena, evs).value); }
    }
  }

  /** Nothing past the guard reports a missing backend or an unreadable method. */
  lemma ExecuteFaults(c: Config, r: Rid, log: seq<Access>, k: nat)
    requires k < |log|
    ensures SeqOutcome(c, r, log, k).Raised? ==>
      SeqOutcome(c, r, log, k).fault != BackendMissing && SeqOutcome(c, r, log, k).fault != LoadFailed
  {
    var arena, reply := Replay(c, r, log[..k + 1]).arena, ReplyAt(c, r, log, k);
    if reply.Values? {
      UnsupportedIffOther(arena, reply.evs);
      if CopyAll(arena, reply.evs).Ok? { FirstBadOutputIsNamed(c.decode, CopyAll(arena, reply.evs).value, 0); }
    }
  }
}
