/** The crate's `encode` error taxonomy: a code space of its own, separate
    from the configuration codes, for the negative replies of the engine's
    buffer-encoding call. */
module EncodeErrors {
  import opened CTypes

  datatype EncodeErrorKind =
    | OutputBufferTooSmall
    | NoMem
    | InitParamsNotCalled
    | PsychoAcousticError
    | Unknown(errcode: CInt)

  /** `encode::Result<T>`, whose failures carry an `EncodeErrorKind`. */
  datatype EncodeResult<+T> = Ok(value: T) | Err(kind: EncodeErrorKind)

  /** The encode codes that have a named kind of their own. */
  const EncodeCodes: set<int> := {-1, -2, -3, -4}

  /** The kinds the translation can produce: an `Unknown` never shadows a
      code with a name of its own. */
  predicate IsEncodeKind(k: EncodeErrorKind) {
    k.Unknown? ==> k.errcode !in EncodeCodes
  }

  /** `From<c_int> for encode::ErrorKind`: the four named codes get their
      kinds and every other code is kept verbatim inside `Unknown`. */
  function EncodeKindOf(code: CInt): (k: EncodeErrorKind)
    ensures IsEncodeKind(k)
    ensures k.Unknown? <==> code !in EncodeCodes
    ensures k.Unknown? ==> k.errcode == code
  {
    match code
    case -1 => OutputBufferTooSmall
    case -2 => NoMem
    case -3 => InitParamsNotCalled
    case -4 => PsychoAcousticError
    case e => Unknown(e)
  }

  /** The encode status code a kind stands for. */
  function EncodeCodeOf(k: EncodeErrorKind): (code: CInt)
    ensures code < 0 || k.Unknown?
  {
    match k
    case OutputBufferTooSmall => -1
    case NoMem => -2
    case InitParamsNotCalled => -3
    case PsychoAcousticError => -4
    case Unknown(e) => e
  }

  /** The translation loses nothing: the code can be read back from its kind. */
  lemma EncodeCodeOfKind(code: CInt)
    ensures EncodeCodeOf(EncodeKindOf(code)) == code
  {
  }

  /** Every kind the translation can produce comes from the code it stands for. */
  lemma EncodeKindOfCode(k: EncodeErrorKind)
    requires IsEncodeKind(k)
    ensures EncodeKindOf(EncodeCodeOf(k)) == k
  {
  }

  /** Distinct codes give distinct kinds. */
  lemma EncodeKindOfInjective(a: CInt, b: CInt)
    requires EncodeKindOf(a) == EncodeKindOf(b)
    ensures a == b
  {
  }

  /** The kinds the translation produces are exactly the encode kinds. */
  lemma EncodeKindOfOnto(k: EncodeErrorKind)
    ensures IsEncodeKind(k) <==> exists code: CInt :: EncodeKindOf(code) == k
  {
    if IsEncodeKind(k) {
      EncodeKindOfCode(k);
    }
  }
}
