/** Marshalling between numpy and the core: `make_held_input` and `copy_out`
    (src/binding/module.cpp) and the copy-out of one EValue (src/et_core/et_core.cpp). */
module Marshal {
  import opened Values
  import opened DtypeMap

  datatype DlCode = Float | Int | UInt | Bool | Unknown
  datatype DlDtype = DlDtype(code: DlCode, bits: nat, lanes: nat)

  /** A C-contiguous array as DLPack describes it, over whatever `D` its buffer is. */
  datatype NdArray<D> = NdArray(dtype: DlDtype, shape: seq<nat>, data: D)

  /** `InputDesc`: a borrowed buffer, its shape and its ScalarType code. */
  datatype Desc<D> = Desc(data: D, shape: seq<nat>, scalarType: int)

  /** The tensor handed to `Module::execute`; sizes are 32-bit. */
  datatype Input = Input(bytes: seq<byte>, sizes: seq<int>, scalarType: int)

  // ---------- inputs ----------

  function KindOf(code: DlCode): Result<char> {
    match code
    case Float => Ok('f')
    case Int => Ok('i')
    case UInt => Ok('u')
    case Bool => Ok('b')
    case Unknown => Err(DtypeUnmapped)
  }

  function ScalarTypeOf(dtype: DlDtype): Result<int> {
    match KindOf(dtype.code)
    case Err(f) => Err(f)
    case Ok(kind) => NumpyCodeToScalarType(kind, dtype.bits / 8)
  }

  /** The DLPack code of a kind of element. */
  function DlCodeOf(kind: ElementKind): DlCode {
    match kind
    case Floating => DlCode.Float
    case Signed => DlCode.Int
    case Unsigned => UInt
    case Boolean => DlCode.Bool
    case Raw16 => UInt
  }

  /** An argument's dtype gets the ScalarType of its kind and size, and is refused if there is none;
      bits are counted in whole bytes, and lanes are not looked at. */
  lemma DlpackKeepsMeaning(dtype: DlDtype, st: int)
    ensures ScalarTypeOf(dtype) == Ok(st)
       <==> KindOfElement(st).Some? && dtype.code == DlCodeOf(KindOfElement(st).value) && dtype.bits / 8 == ElementSize(st)
    ensures ScalarTypeOf(dtype).Err? ==> ScalarTypeOf(dtype).fault == DtypeUnmapped
  {
    match KindOf(dtype.code)
    case Err(_) =>
    case Ok(kind) => TablesKeepMeaning(kind, dtype.bits / 8, st);
  }

  /** The descriptor borrows the array's own buffer: nothing is copied. */
  function MakeHeldInput<D>(a: NdArray<D>): Result<Desc<D>> {
    match ScalarTypeOf(a.dtype)
    case Err(f) => Err(f)
    case Ok(st) => Ok(Desc(a.data, a.shape, st))
  }

  /** Every argument has a supported dtype. */
  ghost predicate AllMapped<D>(args: seq<NdArray<D>>) {
    forall i | 0 <= i < |args| :: ScalarTypeOf(args[i].dtype).Ok?
  }

  /** Conversion of an int64 extent to the 32-bit `SizesType`: two's complement wrap. */
  function ToSizesType(d: nat): (r: int)
    ensures -0x8000_0000 <= r < 0x8000_0000
    ensures (r - d) % 0x1_0000_0000 == 0
  {
    var low := d % 0x1_0000_0000;
    if low < 0x8000_0000 then low else low - 0x1_0000_0000
  }

  function SizesOf(shape: seq<nat>): seq<int> {
    seq(|shape|, i requires 0 <= i < |shape| => ToSizesType(shape[i]))
  }

  function ToInput(d: Desc<seq<byte>>): Input {
    Input(d.data, SizesOf(d.shape), d.scalarType)
  }

  /** `inputs` are the tensors of `args`: one for each, of its shape and dtype. */
  ghost predicate Describes<D>(args: seq<NdArray<D>>, inputs: seq<Input>) {
    && AllMapped(args) && |inputs| == |args|
    && forall i | 0 <= i < |args| ::
         inputs[i] == ToInput(Desc(inputs[i].bytes, args[i].shape, ScalarTypeOf(args[i].dtype).value))
  }

  /** Tensor `x` stands for an array: its bytes, its extents narrowed to 32 bits, the ScalarType of its
      dtype. */
  predicate IsTensorOf(x: Input, dtype: DlDtype, shape: seq<nat>, bytes: seq<byte>) {
    && x.bytes == bytes && ScalarTypeOf(dtype) == Ok(x.scalarType) && |x.sizes| == |shape|
    && forall i | 0 <= i < |shape| ::
         -0x8000_0000 <= x.sizes[i] < 0x8000_0000 && (x.sizes[i] - shape[i]) % 0x1_0000_0000 == 0
  }

  lemma InputMeans(a: NdArray<seq<byte>>)
    requires MakeHeldInput(a).Ok?
    ensures IsTensorOf(ToInput(MakeHeldInput(a).value), a.dtype, a.shape, a.data)
  {
    forall i | 0 <= i < |a.shape|
      ensures SizesOf(a.shape)[i] == ToSizesType(a.shape[i]) && (SizesOf(a.shape)[i] - a.shape[i]) % 0x1_0000_0000 == 0 {}
  }

  /** What is in buffer `b` after an execute that borrowed `bufs` and left `writes` in them: the
      last write to it counts, and none changes its length. */
  function LastWrite<B(==)>(bufs: seq<B>, writes: seq<seq<byte>>, b: B, before: seq<byte>): (after: seq<byte>)
    ensures |after| == |before|
    ensures b !in bufs ==> after == before
  {
    if bufs == [] then before
    else
      var i := |bufs| - 1;
      if bufs[i] == b && i < |writes| && |writes[i]| == |before| then writes[i]
      else LastWrite(bufs[..i], writes, b, before)
  }

  /** Write number `i` is to buffer `b` and fits it. */
  predicate WritesTo<B(==)>(bufs: seq<B>, writes: seq<seq<byte>>, b: B, size: nat, i: nat) {
    i < |bufs| && i < |writes| && bufs[i] == b && |writes[i]| == size
  }

  /** After the writes buffer `b` holds the last one that is to it, or what it held if there is none. */
  ghost predicate IsLastWrite<B>(bufs: seq<B>, writes: seq<seq<byte>>, b: B, before: seq<byte>, after: seq<byte>) {
    || (after == before && forall i :: 0 <= i < |bufs| ==> !WritesTo(bufs, writes, b, |before|, i))
    || exists i :: 0 <= i < |bufs| && WritesTo(bufs, writes, b, |before|, i) && after == writes[i]
                && forall j | i < j < |bufs| :: !WritesTo(bufs, writes, b, |before|, j)
  }

  lemma {:induction false} LastWriteMeans<B>(bufs: seq<B>, writes: seq<seq<byte>>, b: B, before: seq<byte>)
    ensures IsLastWrite(bufs, writes, b, before, LastWrite(bufs, writes, b, before))
  {
    if bufs == [] {
    } else {
      var last := |bufs| - 1;
      var init := bufs[..last];
      if WritesTo(bufs, writes, b, |before|, last) {
        assert LastWrite(bufs, writes, b, before) == writes[last];
      } else {
        LastWriteMeans(init, writes, b, before);
        forall i: nat | i < last ensures WritesTo(init, writes, b, |before|, i) <==> WritesTo(bufs, writes, b, |before|, i) {}
        assert LastWrite(bufs, writes, b, before) == LastWrite(init, writes, b, before);
        if exists i :: 0 <= i < |init| && WritesTo(init, writes, b, |before|, i)
             && LastWrite(init, writes, b, before) == writes[i]
             && forall j | i < j < |init| :: !WritesTo(init, writes, b, |before|, j) {
          var i :| 0 <= i < |init| && WritesTo(init, writes, b, |before|, i)
             && LastWrite(init, writes, b, before) == writes[i]
             && forall j | i < j < |init| :: !WritesTo(init, writes, b, |before|, j);
          assert WritesTo(bufs, writes, b, |before|, i);
          forall j: nat | i < j < |bufs| ensures !WritesTo(bufs, writes, b, |before|, j) {
            if j < last { assert !WritesTo(init, writes, b, |before|, j); }
          }
        }
      }
    }
  }

  // ---------- outputs ----------

  /** An output inside the arena; a tensor with the byte count ExecuTorch gives it. */
  predicate Sane(size: nat, ev: EValue) {
    && (ev.Tensor? ==> ev.offset + ev.nbytes <= size && ev.nbytes == Numel(ev.sizes) * ElementSize(ev.scalarType))
    && (ev.String? ==> ev.at + ev.length <= size)
  }

  /** One turn of the copy-out loop: what an EValue becomes once it has left the arena. */
  function CopyOne(arena: seq<byte>, ev: EValue): Result<View<seq<byte>>> {
    match ev
    case Int(i) => Ok(IntView(i))
    case Double(bits) => Ok(DoubleView(bits))
    case Bool(b) => Ok(BoolView(if b then 1 else 0))
    case String(at, n) => Ok(StringView(Slice(arena, at, n)))
    case Tensor(off, n, sizes, st) => Ok(TensorView(Slice(arena, off, n), sizes, st))
    case Other => Err(UnsupportedOutput)
  }

  /** The whole loop as one atomic snapshot of the arena: the first unsupported output wins. */
  function CopyAll(arena: seq<byte>, evs: seq<EValue>): (r: Result<seq<View<seq<byte>>>>)
    ensures r.Ok? ==> |r.value| == |evs|
  {
    if evs == [] then Ok([])
    else match CopyOne(arena, evs[0])
      case Err(f) => Err(f)
      case Ok(v) =>
        match CopyAll(arena, evs[1..])
        case Err(f) => Err(f)
        case Ok(vs) => Ok([v] + vs)
  }

  /** numpy reads product(shape) * itemsize bytes from `data`; `nbytes` is not consulted. */
  function NumpyCopy(data: seq<byte>, shape: seq<nat>, d: NpDtype): seq<byte> {
    var n := Numel(shape) * d.itemsize;
    if n <= |data| then data[..n] else data
  }

  /** `copy_out`: output number `i` as a Python value. */
  function PyOne(decode: seq<byte> -> Option<string>, v: View<seq<byte>>, i: nat): Result<PyValue<seq<byte>>> {
    match v
    case IntView(x) => Ok(PyInt(x))
    case BoolView(x) => Ok(PyBool(x != 0))
    case DoubleView(bits) => Ok(PyFloat(bits))
    case StringView(s) =>
      (match decode(s)
       case None => Err(InvalidUtf8(i))
       case Some(text) => Ok(PyStr(text)))
    case TensorView(data, shape, st) =>
      match ScalarTypeToNumpy(st)
      case Err(f) => Err(f)
      case Ok(d) => Ok(PyArray(NumpyCopy(data, shape, d), shape, d))
  }

  /** `copy_out` over the views from number `i` on: the first one that fails wins. */
  function PyFrom(decode: seq<byte> -> Option<string>, views: seq<View<seq<byte>>>, i: nat)
    : (r: Result<seq<PyValue<seq<byte>>>>)
    requires i <= |views|
    ensures r.Ok? ==> |r.value| == |views| - i
    decreases |views| - i
  {
    if i == |views| then Ok([])
    else match PyOne(decode, views[i], i)
      case Err(f) => Err(f)
      case Ok(p) =>
        match PyFrom(decode, views, i + 1)
        case Err(f) => Err(f)
        case Ok(ps) => Ok([p] + ps)
  }

  function PyAll(decode: seq<byte> -> Option<string>, views: seq<View<seq<byte>>>): Result<seq<PyValue<seq<byte>>>> {
    PyFrom(decode, views, 0)
  }

  // ---------- what outputs become, said of the values themselves ----------

  /** View `v`, over memory that holds `bytes`, is what the core hands out for output `ev` of `arena`. */
  predicate IsViewOf<D(==)>(arena: seq<byte>, ev: EValue, v: View<D>, bytes: seq<byte>) {
    match ev
    case Int(i) => v == IntView(i)
    case Double(bits) => v == DoubleView(bits)
    case Bool(b) => v.BoolView? && (v.flag == 1 || v.flag == 0) && (b <==> v.flag == 1)
    case String(at, n) => v.StringView? && (at + n <= |arena| ==> v.str == arena[at..at + n])
    case Tensor(off, n, sizes, st) =>
      && v.TensorView? && v.shape == sizes && v.scalarType == st
      && (off + n <= |arena| ==> bytes == arena[off..off + n])
    case Other => false
  }

  /** Python value `p`, whose array, if it is one, holds `bytes`, is what a caller gets for output `ev`. */
  predicate IsPythonOf<D(==)>(decode: seq<byte> -> Option<string>, arena: seq<byte>, ev: EValue, p: PyValue<D>,
                              bytes: seq<byte>)
  {
    match ev
    case Int(i) => p == PyInt(i)
    case Double(bits) => p == PyFloat(bits)
    case Bool(b) => p == PyBool(b)
    case String(at, n) => p.PyStr? && (at + n <= |arena| ==> decode(arena[at..at + n]) == Some(p.s))
    case Tensor(off, n, sizes, st) =>
      && p.PyArray? && p.shape == sizes && IsDtypeOf(st, p.dtype)
      && (Sane(|arena|, ev) ==> bytes == arena[off..off + n])
    case Other => false
  }

  function ViewBytes(v: View<seq<byte>>): seq<byte> { if v.TensorView? then v.data else [] }
  function PyBytes(p: PyValue<seq<byte>>): seq<byte> { if p.PyArray? then p.buffer else [] }

  /** An output that has a Python form but cannot be given it: text that is no text, or a tensor of a
      type numpy does not have. */
  predicate IsBad(decode: seq<byte> -> Option<string>, arena: seq<byte>, ev: EValue)
    requires Sane(|arena|, ev)
  {
    match ev
    case String(at, n) => decode(arena[at..at + n]).None?
    case Tensor(_, _, _, st) => KindOfElement(st).None?
    case _ => false
  }

  lemma CopyOneMeans(arena: seq<byte>, ev: EValue)
    ensures CopyOne(arena, ev).Err? <==> ev.Other?
    ensures CopyOne(arena, ev).Err? ==> CopyOne(arena, ev).fault == UnsupportedOutput
    ensures CopyOne(arena, ev).Ok? ==> IsViewOf(arena, ev, CopyOne(arena, ev).value, ViewBytes(CopyOne(arena, ev).value))
  {
  }

  /** Copied out of the arena and then into Python, an output is the value it stands for, or fails. */
  lemma PyOneMeans(decode: seq<byte> -> Option<string>, arena: seq<byte>, ev: EValue, i: nat)
    requires !ev.Other?
    ensures
      var p := PyOne(decode, CopyOne(arena, ev).value, i);
      && (p.Ok? ==> IsPythonOf(decode, arena, ev, p.value, PyBytes(p.value)))
      && (Sane(|arena|, ev) ==> (p.Err? <==> IsBad(decode, arena, ev)))
      && (p.Err? ==> p.fault == if ev.String? then InvalidUtf8(i) else DtypeUnmapped)
  {
    if ev.Tensor? {
      TablesKeepMeaning('f', 4, ev.scalarType);
    }
  }

  // ---------- the loops meet their specifications ----------

  /** What a loop has copied one output at a time is the snapshot of those outputs: it ends in
      exactly the snapshot's views, or at the snapshot's fault. */
  lemma {:induction false} CopyAllByIndex(arena: seq<byte>, evs: seq<EValue>, views: seq<View<seq<byte>>>)
    requires |views| <= |evs|
    requires forall i | 0 <= i < |views| :: CopyOne(arena, evs[i]) == Ok(views[i])
    ensures CopyAll(arena, evs[..|views|]) == Ok(views)
    ensures |views| == |evs| ==> CopyAll(arena, evs) == Ok(views)
    ensures |views| < |evs| && CopyOne(arena, evs[|views|]).Err?
        ==> CopyAll(arena, evs) == Err(CopyOne(arena, evs[|views|]).fault)
  {
    if views == [] {
    } else {
      forall i | 0 <= i < |views[1..]| ensures CopyOne(arena, evs[1..][i]) == Ok(views[1..][i]) {
        assert evs[1..][i] == evs[i + 1] && views[1..][i] == views[i + 1];
      }
      CopyAllByIndex(arena, evs[1..], views[1..]);
      assert views == [views[0]] + views[1..];
      assert |views| < |evs| ==> evs[1..][|views[1..]|] == evs[|views|];
      assert evs[..|views|][1..] == evs[1..][..|views[1..]|];
    }
  }

  /** The same for the Python outputs, from number `i` on. */
  lemma {:induction false} PyFromByIndex(decode: seq<byte> -> Option<string>, views: seq<View<seq<byte>>>,
                                         out: seq<PyValue<seq<byte>>>, i: nat)
    requires i <= |out| <= |views|
    requires forall j | i <= j < |out| :: PyOne(decode, views[j], j) == Ok(out[j])
    ensures PyFrom(decode, views[..|out|], i) == Ok(out[i..])
    ensures |out| == |views| ==> PyFrom(decode, views, i) == Ok(out[i..])
    ensures |out| < |views| && PyOne(decode, views[|out|], |out|).Err?
        ==> PyFrom(decode, views, i) == Err(PyOne(decode, views[|out|], |out|).fault)
    decreases |out| - i
  {
    if i == |out| {
    } else {
      PyFromByIndex(decode, views, out, i + 1);
      assert out[i..] == [out[i]] + out[i + 1..];
    }
  }
}
