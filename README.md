# lame-rs binding layer, in Dafny

This project models the Rust binding `lame-rs` to the LAME MP3 encoder. The
encoder itself is foreign code. The binding's own logic is its translation
layer:

- the general `ErrorKind` taxonomy and its `From<c_int>` translation of the
  engine's configuration status codes (`-1`, `-10` … `-13`, anything else kept
  verbatim in `Unknown`);
- the separate `encode::ErrorKind` taxonomy and its translation (`-1` … `-4`,
  anything else kept verbatim in `Unknown`);
- the `check_error!` rule: status `0` is `Ok(())`, any other status is an
  error. The macro pastes its argument twice, and every caller passes the
  foreign call itself. So on a non-zero status the engine is called a
  second time, and the error kind is the translation of that second reply
  (see "## Findings");
- `Lame::new`: a null context from `lame_init` is `Uninitialized`, any other
  context is owned by the handle;
- the accessors and setters with their integer casts (`c_int as u32`,
  `u32 as c_int`, `c_int as u8`, `u8 as c_int`), and `init_params`;
- `Lame::encode`: channels of unequal length panic before the engine is
  called; the engine's return is a byte count when it is non-negative and an
  encode error otherwise.

Files:

- `ctypes.dfy` (module `CTypes`): the fixed-width integer types and the casts,
  each stated bit for bit.
- `lame_errors.dfy` (module `LameErrors`): `ConfigErrorKind`, `ConfigKindOf`,
  its inverse reading `ConfigCodeOf`, `CheckError` (the macro as written) and
  `CheckStatus` (the macro as evidently intended).
- `encode_errors.dfy` (module `EncodeErrors`): `EncodeErrorKind`,
  `EncodeKindOf` and its inverse reading `EncodeCodeOf`.
- `lame.dfy` (module `Lame`): the handle `Lame`, `New`, the accessors and
  setters, `InitParams` and `Encode`.

The engine is an oracle. Every foreign call the binding makes is a `Request`
value addressed to the handle's context, with the arguments already cast to
`c_int`. The engine's answer is `engine(ctx, request, attempt)`, where
`engine` is a parameter and `attempt` numbers the repeats of one call within
one operation (0 for the first, 1 for the repeat that `check_error!`
makes), so the two replies may differ. What `lame_init` returns is the parameter `ctx` of `New`; address
`0` is the null pointer. So each operation states two things: what it sends
to the engine, and how it reads the reply.

Each translation has an inverse reading as its partner (`ConfigCodeOf`,
`EncodeCodeOf`, `EncodeReturnOf`). Lemmas in both directions show the
following:

- the translation is injective and the code can be read back;
- the results the translation can give are exactly the well-formed kinds.
  Configuration translation never yields `Uninitialized`. The intended
  single-evaluation rule `CheckStatus` never yields `Unknown(0)`; the macro
  as written yields it exactly when the first reply fails and the repeat
  succeeds. An `Unknown` that `encode` returns always carries
  a code below `-4`.

## Model

| member | source | states |
|---|---|---|
| CTypes.U32OfCInt | src/lib.rs:88-90 | `c_int as u32` keeps the 32 bits: the result is congruent to the input modulo 2^32, equal to it when non-negative, above 2^31 - 1 when the input is negative |
| CTypes.CIntOfU32 | src/lib.rs:92-95 | `u32 as c_int` keeps the 32 bits: equal below 2^31, negative exactly when the value exceeds 2^31 - 1 |
| CTypes.U8OfCInt | src/lib.rs:97-99 | `c_int as u8` keeps the low 8 bits: the result is congruent to the input modulo 256 and equals it when it is in 0..255 |
| CTypes.CIntOfUsize | src/lib.rs:126-128 | `usize as c_int` keeps the low 32 bits: a length up to 2^31 - 1 passes unchanged, a larger one below 2^32 arrives negative |
| CTypes.U32RoundTrip | src/lib.rs:88-95 | a `u32` sent as `c_int` and read back as `u32` is unchanged |
| CTypes.CIntRoundTrip | src/lib.rs:88-95 | a `c_int` read as `u32` and cast back is unchanged |
| CTypes.U8OfCIntSameLowBits | src/lib.rs:97-99 | two `c_int` values read as the same `u8` exactly when they agree modulo 256 |
| LameErrors.ConfigKindOf | src/lib.rs:24-35 | every code gets a kind (totality); `Unknown` exactly for codes outside {-1, -10, -11, -12, -13}, carrying the code itself; never `Uninitialized` |
| LameErrors.ConfigCodeOf | src/lib.rs:26-32 | the code each kind stands for, read from the table the other way round; negative for every named kind |
| LameErrors.ConfigCodeOfKind | src/lib.rs:26-32 | the code can be read back from its kind: -1 is GenericError, -10 NoMem, -11 BadBitRate, -12 BadSampleFreq, -13 InternalError, others Unknown(code) |
| LameErrors.ConfigKindOfCode | src/lib.rs:26-32 | every kind the translation can produce is the translation of the code it stands for |
| LameErrors.ConfigKindOfInjective | src/lib.rs:24-35 | distinct codes never give the same kind |
| LameErrors.ConfigKindOfOnto | src/lib.rs:24-35 | a kind is produced by some code exactly when it is not `Uninitialized` and is not an `Unknown` shadowing a named code |
| LameErrors.CheckError | src/lib.rs:63-71 | the macro as written: `Ok(())` exactly when the first reply is 0; otherwise an error whose kind is never `Uninitialized` and reads back as the reply to the repeated call |
| LameErrors.CheckErrorOnto | src/lib.rs:63-71 | the errors the macro as written reports are exactly the producible kinds, `Unknown(0)` included |
| LameErrors.CheckErrorUnknownZero | src/lib.rs:63-71 | the macro as written reports `Unknown(0)` exactly when the first reply is non-zero and the repeat's reply is 0 |
| LameErrors.CheckErrorMisreports | src/lib.rs:65-68 | replies (-1, 0) give `Unknown(0)` where the single status gives `GenericError`; replies (-11, -12) give `BadSampleFreq` where it gives `BadBitRate` |
| LameErrors.CheckStatus | src/lib.rs:63-71 | the rule evaluated once: `Ok(())` exactly when the status is 0; otherwise an error whose kind is never `Uninitialized` and reads back as that status |
| LameErrors.CheckStatusOnto | src/lib.rs:63-71 | the errors the single-evaluation rule reports are exactly the producible kinds other than `Unknown(0)` |
| LameErrors.CheckErrorAgreesOnRepeat | src/lib.rs:63-71 | when the repeated call's reply equals the first, the macro as written and the single-evaluation rule agree |
| EncodeErrors.EncodeKindOf | src/lib.rs:50-60 | every code gets a kind; `Unknown` exactly for codes outside {-1, -2, -3, -4}, carrying the code itself |
| EncodeErrors.EncodeCodeOf | src/lib.rs:52-57 | the code each encode kind stands for; negative for every named kind |
| EncodeErrors.EncodeCodeOfKind | src/lib.rs:52-57 | the code can be read back from its kind: -1 is OutputBufferTooSmall, -2 NoMem, -3 InitParamsNotCalled, -4 PsychoAcousticError, others Unknown(code) |
| EncodeErrors.EncodeKindOfCode | src/lib.rs:52-57 | every encode kind the translation can produce is the translation of the code it stands for |
| EncodeErrors.EncodeKindOfInjective | src/lib.rs:50-60 | distinct codes never give the same encode kind |
| EncodeErrors.EncodeKindOfOnto | src/lib.rs:50-60 | an encode kind is produced by some code exactly when it is not an `Unknown` shadowing a named code |
| Lame.New | src/lib.rs:78-86 | `Err(Uninitialized)` exactly when the context is null; otherwise the handle holds that very context |
| Lame.NewOnto | src/lib.rs:78-86 | every handle is what construction gives for its own context |
| Lame.EncodeRequest | src/lib.rs:125-128 | the engine receives both channels, the left length as the sample count and the buffer length as the capacity, each cast `usize as c_int` |
| Lame.EncodeOutcome | src/lib.rs:131-135 | `Ok(n)` with `n` the return exactly when it is non-negative; otherwise an encode error that reads back as the return; an `Unknown` carries a code below -4 |
| Lame.EncodeReturnOf | src/lib.rs:131-135 | the engine return an encode result stands for; non-negative exactly for `Ok` |
| Lame.EncodeReturnOfOutcome | src/lib.rs:131-135 | reading the engine's return loses nothing: the return can be recovered from the result |
| Lame.EncodeOutcomeOfReturn | src/lib.rs:131-135 | every well-formed encode result is the reading of the return it stands for |
| Lame.EncodeOutcomeOnto | src/lib.rs:131-135 | the results `encode` can give are exactly counts up to 2^31 - 1 and encode errors whose `Unknown` code is below -4 |
| Lame.Lame.SampleRate | src/lib.rs:88-90 | the result is the engine's value reinterpreted as `u32`: it casts back to exactly that value |
| Lame.Lame.SetSampleRate | src/lib.rs:92-95 | sends the rate cast to `c_int`; succeeds exactly when the first reply is 0, otherwise repeats the call and reports a status kind that reads back as the repeat's reply |
| Lame.Lame.Channels | src/lib.rs:97-99 | the low 8 bits of the engine's value; the value itself when it is in 0..255 |
| Lame.Lame.SetChannels | src/lib.rs:101-104 | sends the count widened to `c_int`; succeeds exactly when the first reply is 0, otherwise repeats the call and reports a status kind that reads back as the repeat's reply |
| Lame.Lame.Quality | src/lib.rs:106-108 | the low 8 bits of the engine's value; the value itself when it is in 0..255 |
| Lame.Lame.SetQuality | src/lib.rs:110-113 | sends the level widened to `c_int`; succeeds exactly when the first reply is 0, otherwise repeats the call and reports a status kind that reads back as the repeat's reply |
| Lame.Lame.InitParams | src/lib.rs:115-118 | succeeds exactly when the first reply is 0, otherwise repeats `lame_init_params` and reports a status kind that reads back as the repeat's reply |
| Lame.Lame.Encode | src/lib.rs:120-137 | requires equal channel lengths (the source panics otherwise, before any engine call); `Ok(n)` with `n` the engine's return exactly when that is non-negative, otherwise the encode error that reads back as it |
| Lame.ConfigCallsAgreeOnRepeat | src/lib.rs:92-118 | for an engine that answers each repeat as it answered the first call, every setter and `init_params` gives the single-evaluation result of the first reply |
| Lame.SetSampleRateMisreports | src/lib.rs:92-95 | an engine whose first reply is -1 and whose repeat succeeds makes `set_sample_rate` report `Unknown(0)`, where the first reply stands for `GenericError` |
| Lame.SampleRateSetThenGet | src/lib.rs:88-95 | if the engine echoes the `c_int` it was sent, `sample_rate()` returns exactly the rate set, also above 2^31 - 1 |

## Left out

- The foreign calls (`ffi::lame_*`). The `ffi` module is not part of this model. Their replies are the oracle's answers.
- The engine's internal state. The oracle is a fixed function of the context, the call and its attempt number, so a sequence of calls across operations is not modelled. Set-then-get is stated only as "if the engine echoes the value, the binding's casts lose nothing": `SampleRateSetThenGet` for the rate, and the second `ensures` of `Channels` and `Quality` for the two `u8` values, which are widened unchanged on the way in.
- `Drop` / `lame_close`. Releasing the context exactly once comes from Rust ownership, not from logic in the binding.
- The bytes the engine writes into `mp3_buffer`. Only the buffer's length reaches the model, through the capacity argument.
- The `error_chain!` wrapping (`Error`, backtraces, `.into()`), and the `Msg(String)` variant that `error_chain!` adds to both `ErrorKind` enums. Neither translation yields `Msg`, so only the listed `ErrorKind` values are modelled.
- Bitrate accessors and setters. They do not exist in `src/lib.rs`.
- Thread safety and concurrent use of the handle. The binding has no concurrency logic.
- Lame.Lame.Encode: the panic on channels of unequal length is a `requires`, not a modelled outcome.

## Findings

| source | as written | input that shows it | evidently intended | confidence | as-written member | corrected member |
|---|---|---|---|---|---|---|
| src/lib.rs:63-71 | `check_error!` pastes `$retn` into both the test (line 65) and the translation (line 68), and every caller (lines 93-94, 102-103, 111-112, 116-117) passes the foreign call itself: a failing call is made a second time, and the kind of the second reply is reported | first reply -1, repeated reply 0: `Err(Unknown(0))`; first reply -11, repeated reply -12: `Err(BadSampleFreq)` | evaluate the status once: `Err(ErrorKind::from(status))` of the status that failed | high, not executed | LameErrors.CheckErrorMisreports | LameErrors.CheckStatus |

The setters and `init_params` are modelled as written, through
`CheckError`. `CheckStatus` is the single-evaluation rule, and
`CheckStatusOnto` proves that it never reports `Unknown(0)`.
`ConfigCallsAgreeOnRepeat` shows that the two coincide whenever the engine
answers the repeated call as it answered the first.
