/** The two dtype tables (src/binding/dtype_map.cpp). */
module DtypeMap {
  import opened Values

  // ExecuTorch ScalarType codes.
  const BYTE := 0
  const CHAR := 1
  const SHORT := 2
  const INT := 3
  const LONG := 4
  const HALF := 5
  const FLOAT := 6
  const DOUBLE := 7
  const BOOL := 11
  const BFLOAT16 := 15

  function NumpyCodeToScalarType(kind: char, itemsize: nat): Result<int> {
    if kind == 'f' && itemsize == 4 then Ok(FLOAT)
    else if kind == 'f' && itemsize == 8 then Ok(DOUBLE)
    else if kind == 'f' && itemsize == 2 then Ok(HALF)
    else if kind == 'i' && itemsize == 8 then Ok(LONG)
    else if kind == 'i' && itemsize == 4 then Ok(INT)
    else if kind == 'i' && itemsize == 2 then Ok(SHORT)
    else if kind == 'i' && itemsize == 1 then Ok(CHAR)
    else if kind == 'u' && itemsize == 1 then Ok(BYTE)
    else if kind == 'b' && itemsize == 1 then Ok(BOOL)
    else if kind == 'u' && itemsize == 2 then Ok(BFLOAT16)
    else Err(DtypeUnmapped)
  }

  function ScalarTypeToNumpy(code: int): Result<NpDtype> {
    match code
    case 6 => Ok(NpDtype('f', 4))
    case 7 => Ok(NpDtype('f', 8))
    case 5 => Ok(NpDtype('f', 2))
    case 4 => Ok(NpDtype('i', 8))
    case 3 => Ok(NpDtype('i', 4))
    case 2 => Ok(NpDtype('i', 2))
    case 1 => Ok(NpDtype('i', 1))
    case 0 => Ok(NpDtype('u', 1))
    case 11 => Ok(NpDtype('b', 1))
    case 15 => Ok(NpDtype('u', 2))
    case _ => Err(DtypeUnmapped)
  }

  predicate Mapped(code: int) { ScalarTypeToNumpy(code).Ok? }

  /** The tables are mutual inverses: neither accepts a pair the other does not return. */
  lemma TablesAreMutualInverses(kind: char, itemsize: nat, code: int)
    ensures NumpyCodeToScalarType(kind, itemsize) == Ok(code)
       <==> ScalarTypeToNumpy(code) == Ok(NpDtype(kind, itemsize))
  {
  }

  // ---------- what the codes mean ----------

  /** ExecuTorch's element types by kind; bfloat16 travels as raw 16-bit words. */
  datatype ElementKind = Floating | Signed | Unsigned | Boolean | Raw16

  function KindOfElement(st: int): Option<ElementKind> {
    match st
    case 5 => Some(Floating) case 6 => Some(Floating) case 7 => Some(Floating)
    case 1 => Some(Signed) case 2 => Some(Signed) case 3 => Some(Signed) case 4 => Some(Signed)
    case 0 => Some(Unsigned)
    case 11 => Some(Boolean)
    case 15 => Some(Raw16)
    case _ => None
  }

  /** Bytes of one element of a ScalarType, as ExecuTorch counts them in `nbytes()`. */
  function ElementSize(st: int): nat {
    match st
    case 6 => 4 case 3 => 4
    case 7 => 8 case 4 => 8
    case 5 => 2 case 2 => 2 case 15 => 2
    case 1 => 1 case 0 => 1 case 11 => 1
    case _ => 4
  }

  /** numpy's letter for a kind. */
  function Letter(kind: ElementKind): char {
    match kind
    case Floating => 'f'
    case Signed => 'i'
    case Unsigned => 'u'
    case Boolean => 'b'
    case Raw16 => 'u'
  }

  /** Dtype `d` is what numpy calls the elements of ScalarType `st`: same kind, same size. */
  predicate IsDtypeOf(st: int, d: NpDtype) {
    KindOfElement(st).Some? && d.kind == Letter(KindOfElement(st).value) && d.itemsize == ElementSize(st)
  }

  /** Codes, kinds and sizes are those of ExecuTorch's element types. */
  lemma ElementTypesAreKnown()
    ensures KindOfElement(HALF) == KindOfElement(FLOAT) == KindOfElement(DOUBLE) == Some(Floating)
    ensures KindOfElement(CHAR) == KindOfElement(SHORT) == KindOfElement(INT) == KindOfElement(LONG) == Some(Signed)
    ensures KindOfElement(BYTE) == Some(Unsigned) && KindOfElement(BOOL) == Some(Boolean)
    ensures KindOfElement(BFLOAT16) == Some(Raw16)
    ensures ElementSize(HALF) == 2 && ElementSize(FLOAT) == 4 && ElementSize(DOUBLE) == 8
    ensures ElementSize(CHAR) == 1 && ElementSize(SHORT) == 2 && ElementSize(INT) == 4 && ElementSize(LONG) == 8
    ensures ElementSize(BYTE) == 1 && ElementSize(BOOL) == 1 && ElementSize(BFLOAT16) == 2
    ensures HALF == 5 && FLOAT == 6 && DOUBLE == 7 && CHAR == 1 && SHORT == 2 && INT == 3 && LONG == 4
    ensures BYTE == 0 && BOOL == 11 && BFLOAT16 == 15
  {
  }

  /** Both tables keep meaning: a dtype gets the one ScalarType of its kind and size, and a
      ScalarType the one dtype; every ScalarType that has a kind is reached, and nothing else is. */
  lemma TablesKeepMeaning(kind: char, itemsize: nat, st: int)
    ensures NumpyCodeToScalarType(kind, itemsize) == Ok(st) <==> IsDtypeOf(st, NpDtype(kind, itemsize))
    ensures ScalarTypeToNumpy(st).Ok? <==> KindOfElement(st).Some?
    ensures ScalarTypeToNumpy(st).Ok? ==> IsDtypeOf(st, ScalarTypeToNumpy(st).value)
    ensures NumpyCodeToScalarType(kind, itemsize).Err? <==> forall code :: !IsDtypeOf(code, NpDtype(kind, itemsize))
    ensures NumpyCodeToScalarType(kind, itemsize).Err? ==> NumpyCodeToScalarType(kind, itemsize).fault == DtypeUnmapped
    ensures ScalarTypeToNumpy(st).Err? ==> ScalarTypeToNumpy(st).fault == DtypeUnmapped
  {
    if NumpyCodeToScalarType(kind, itemsize).Ok? {
      assert IsDtypeOf(NumpyCodeToScalarType(kind, itemsize).value, NpDtype(kind, itemsize));
    }
  }
}
