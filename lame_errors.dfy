/** The crate's general error taxonomy: the kinds a configuration call can
    report, the translation of the engine's integer status codes into them,
    and the `check_error!` rule every configuration call goes through, both
    as written and as evidently intended. */
module LameErrors {
  import opened CTypes

  datatype ConfigErrorKind =
    | Uninitialized
    | GenericError
    | NoMem
    | BadBitRate
    | BadSampleFreq
    | InternalError
    | Unknown(errcode: CInt)

  /** The crate's `Result<T>`, whose failures carry a `ConfigErrorKind`. */
  datatype ConfigResult<+T> = Ok(value: T) | Err(kind: ConfigErrorKind)

  /** The status codes that have a named kind of their own. */
  const ConfigCodes: set<int> := {-1, -10, -11, -12, -13}

  /** The kinds the status-code translation can produce: never
      `Uninitialized` (only construction reports that), and never an
      `Unknown` that shadows a code with a name of its own. */
  predicate IsStatusKind(k: ConfigErrorKind) {
    !k.Uninitialized? && (k.Unknown? ==> k.errcode !in ConfigCodes)
  }

  /** `From<c_int> for ErrorKind`: the five named codes get their kinds and
      every other code is kept verbatim inside `Unknown`. */
  function ConfigKindOf(code: CInt): (k: ConfigErrorKind)
    ensures IsStatusKind(k)
    ensures k.Unknown? <==> code !in ConfigCodes
    ensures k.Unknown? ==> k.errcode == code
  {
    match code
    case -1 => GenericError
    case -10 => NoMem
    case -11 => BadBitRate
    case -12 => BadSampleFreq
    case -13 => InternalError
    case e => Unknown(e)
  }

  /** The status code a kind stands for: the reading of the taxonomy from
      kinds back to codes. `Uninitialized` stands for no code. */
  function ConfigCodeOf(k: ConfigErrorKind): (code: CInt)
    requires !k.Uninitialized?
    ensures code < 0 || k.Unknown?
  {
    match k
    case GenericError => -1
    case NoMem => -10
    case BadBitRate => -11
    case BadSampleFreq => -12
    case InternalError => -13
    case Unknown(e) => e
  }

  /** The translation loses nothing: the code can be read back from its kind. */
  lemma ConfigCodeOfKind(code: CInt)
    ensures ConfigCodeOf(ConfigKindOf(code)) == code
  {
  }

  /** Every kind the translation can produce comes from the code it stands for. */
  lemma ConfigKindOfCode(k: ConfigErrorKind)
    requires IsStatusKind(k)
    ensures ConfigKindOf(ConfigCodeOf(k)) == k
  {
  }

  /** Distinct codes give distinct kinds. */
  lemma ConfigKindOfInjective(a: CInt, b: CInt)
    requires ConfigKindOf(a) == ConfigKindOf(b)
    ensures a == b
  {
  }

  /** The kinds the translation produces are exactly the status kinds. */
  lemma ConfigKindOfOnto(k: ConfigErrorKind)
    ensures IsStatusKind(k) <==> exists code: CInt :: ConfigKindOf(code) == k
  {
    if IsStatusKind(k) {
      ConfigKindOfCode(k);
    }
  }

  /** `check_error!` as written. The macro pastes its argument twice, once
      in the test against 0 and once in the translation, and every caller
      passes the foreign call itself. So the engine is called once more
      when its first reply is non-zero, and the kind reported is the
      translation of that second reply. `first` is the first reply;
      `second` is the reply to the repeated call, consulted only when
      `first` is non-zero. */
  function CheckError(first: CInt, second: CInt): (r: ConfigResult<()>)
    ensures r.Ok? <==> first == 0
    ensures r.Err? ==> IsStatusKind(r.kind) && ConfigCodeOf(r.kind) == second
  {
    if first == 0 then Ok(()) else Err(ConfigKindOf(second))
  }

  /** The rule `check_error!` evidently means: evaluate the status once;
      0 is success, any other status is an error whose kind is the
      translation of that same status. */
  function CheckStatus(status: CInt): (r: ConfigResult<()>)
    ensures r.Ok? <==> status == 0
    ensures r.Err? ==> IsStatusKind(r.kind) && ConfigCodeOf(r.kind) == status
  {
    if status == 0 then Ok(()) else Err(ConfigKindOf(status))
  }

  /** The errors the intended rule reports are exactly the status kinds
      other than `Unknown(0)`: zero is success, so it is never an error code. */
  lemma CheckStatusOnto(k: ConfigErrorKind)
    ensures (IsStatusKind(k) && k != Unknown(0)) <==>
            exists status: CInt :: CheckStatus(status) == Err(k)
  {
    if IsStatusKind(k) && k != Unknown(0) {
      ConfigKindOfCode(k);
      assert CheckStatus(ConfigCodeOf(k)) == Err(k);
    }
  }

  /** When the engine answers the repeated call as it answered the first,
      the macro as written gives what the intended rule gives. */
  lemma CheckErrorAgreesOnRepeat(first: CInt, second: CInt)
    requires second == first
    ensures CheckError(first, second) == CheckStatus(first)
  {
  }

  /** The errors the macro as written reports are all the status kinds,
      `Unknown(0)` included. */
  lemma CheckErrorOnto(k: ConfigErrorKind)
    ensures IsStatusKind(k) <==>
            exists first: CInt, second: CInt :: CheckError(first, second) == Err(k)
  {
    if IsStatusKind(k) {
      ConfigKindOfCode(k);
      assert CheckError(-1, ConfigCodeOf(k)) == Err(k);
    }
  }

  /** The macro as written reports `Unknown(0)` exactly when the first reply
      fails and the repeated call succeeds: a failure reported under a
      success code. */
  lemma CheckErrorUnknownZero(first: CInt, second: CInt)
    ensures CheckError(first, second) == Err(Unknown(0)) <==> first != 0 && second == 0
  {
  }

  /** Two replies on which the macro as written and the intended rule
      disagree: a generic error followed by success on the repeat is
      reported as `Unknown(0)`, and a bad bitrate followed by a bad sample
      frequency is reported as the latter. */
  lemma CheckErrorMisreports()
    ensures CheckError(-1, 0) == Err(Unknown(0)) && CheckStatus(-1) == Err(GenericError)
    ensures CheckError(-11, -12) == Err(BadSampleFreq) && CheckStatus(-11) == Err(BadBitRate)
  {
  }
}
