/** Values shared by every part of the model: bytes, faults, and the two forms an output
    takes on its way to Python. The type parameter `D` says what stands behind a tensor:
    its bytes (in specifications), a buffer identifier (in the protocol), or an array. */
module Values {
  datatype Option<+T> = None | Some(value: T)
  datatype Result<+T> = Ok(value: T) | Err(fault: Fault)

  type byte = x: int | 0 <= x < 256
  type int64 = x: int | -0x8000_0000_0000_0000 <= x < 0x8000_0000_0000_0000

  /** What an `EtException` of this code base can be about. */
  datatype Fault =
    | DtypeUnmapped
    | LoadFailed
    | BackendMissing
    | ExecutionFailed
    | UnsupportedOutput
    | InvalidUtf8(output: nat)   // names the output, as the message does

  datatype NpDtype = NpDtype(kind: char, itemsize: nat)

  /** An ExecuTorch output value. Tensors and strings are ranges of the Module's arena. */
  datatype EValue =
    | Tensor(offset: nat, nbytes: nat, sizes: seq<nat>, scalarType: int)
    | Int(int_: int64)
    | Double(bits: nat)
    | Bool(bool_: bool)
    | String(at: nat, length: nat)
    | Other                      // list, none, tensor list

  /** `OutputView`: what the core hands to the binding. Booleans travel in `intVal`. */
  datatype View<D> =
    | TensorView(data: D, shape: seq<nat>, scalarType: int)
    | IntView(intVal: int64)
    | DoubleView(doubleBits: nat)
    | BoolView(flag: int64)
    | StringView(str: seq<byte>)

  /** What Python receives. */
  datatype PyValue<D> =
    | PyArray(buffer: D, shape: seq<nat>, dtype: NpDtype)
    | PyInt(i: int64)
    | PyFloat(bits: nat)
    | PyBool(b: bool)
    | PyStr(s: string)

  function Numel(sizes: seq<nat>): nat {
    if sizes == [] then 1 else sizes[0] * Numel(sizes[1..])
  }

  /** The number of elements is the product of the extents, in any grouping; none make a scalar. */
  lemma {:induction false} NumelIsProduct(a: seq<nat>, b: seq<nat>, n: nat)
    ensures Numel([]) == 1 && Numel([n]) == n
    ensures Numel(a + b) == Numel(a) * Numel(b)
  {
    assert [n][1..] == [];
    if a == [] {
      assert a + b == b;
    } else {
      assert (a + b)[1..] == a[1..] + b;
      NumelIsProduct(a[1..], b, n);
      assert a[0] * (Numel(a[1..]) * Numel(b)) == (a[0] * Numel(a[1..])) * Numel(b);
    }
  }

  /** A read of `n` bytes from `offset`; a range that leaves `mem` reads nothing. */
  function Slice(mem: seq<byte>, offset: nat, n: nat): (bytes: seq<byte>)
    ensures offset + n <= |mem| ==> |bytes| == n
  {
    if offset + n <= |mem| then mem[offset..offset + n] else []
  }
}
