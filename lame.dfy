/** The `Lame` handle: construction from the engine's context, the
    configuration accessors and setters, `init_params` and `encode`.

    The encoder engine is foreign code. It is modelled as an oracle: every
    call the binding makes is a `Request` value addressed to the handle's
    context, and the engine's reply is whatever `Engine` answers for it.
    An operation that issues the same call twice (the setters and
    `init_params` do, on failure) gets a reply per attempt, numbered from 0,
    so the two replies may differ. The binding's own logic is what it sends
    and how it reads the replies. */
module Lame {
  import opened CTypes
  import opened LameErrors
  import opened EncodeErrors

  /** An address returned by the engine's context allocator; 0 is null. */
  type Address = nat

  const Null: Address := 0

  /** A context the handle may own: never null. */
  type Context = a: Address | a != Null witness 1

  /** The calls the binding makes into the engine (one constructor per
      `lame_*` function it uses), with the arguments it passes, already cast
      to `c_int`. */
  datatype Request =
    | LameGetInSamplerate
    | LameSetInSamplerate(sampleRate: CInt)
    | LameGetNumChannels
    | LameSetNumChannels(channels: CInt)
    | LameGetQuality
    | LameSetQuality(quality: CInt)
    | LameInitParams
    | LameEncodeBuffer(pcmLeft: seq<I16>, pcmRight: seq<I16>, nsamples: CInt, mp3BufferSize: CInt)

  /** The engine's reply to each attempt of each call on each context. */
  type Engine = (Context, Request, nat) -> CInt

  /** The engine answers the repeated attempt of `q` as it answered the
      first. */
  predicate RepeatsReply(engine: Engine, ctx: Context, q: Request) {
    engine(ctx, q, 1) == engine(ctx, q, 0)
  }

  /** `Lame::new`: a null context from the allocator is the `Uninitialized`
      error; any other context becomes the handle's own. */
  function New(ctx: Address): (r: ConfigResult<Lame>)
    ensures r.Err? <==> ctx == Null
    ensures r.Err? ==> r.kind == Uninitialized
    ensures r.Ok? ==> r.value.ptr == ctx
  {
    if ctx == Null then ConfigResult.Err(Uninitialized) else ConfigResult.Ok(Lame(ctx))
  }

  /** Every handle is what construction gives for its own context. */
  lemma NewOnto(h: Lame)
    ensures New(h.ptr) == ConfigResult.Ok(h)
  {
  }

  /** The request `encode` sends: both channels, the left length as the
      sample count and the output buffer's length as its capacity, each
      length cast `usize as c_int`. */
  function EncodeRequest(pcmLeft: seq<I16>, pcmRight: seq<I16>, mp3BufferLen: nat): (q: Request)
    requires |pcmLeft| == |pcmRight|
    ensures q.LameEncodeBuffer? && q.pcmLeft == pcmLeft && q.pcmRight == pcmRight
    ensures (q.nsamples - |pcmLeft|) % TWO_POW_32 == 0
    ensures (q.mp3BufferSize - mp3BufferLen) % TWO_POW_32 == 0
    ensures |pcmLeft| <= I32_MAX ==> q.nsamples == |pcmLeft| == |pcmRight|
    ensures mp3BufferLen <= I32_MAX ==> q.mp3BufferSize == mp3BufferLen
  {
    LameEncodeBuffer(pcmLeft, pcmRight, CIntOfUsize(|pcmLeft|), CIntOfUsize(mp3BufferLen))
  }

  /** The results `encode` can give: a byte count that fits a `c_int`, or an
      encode error whose `Unknown` code is negative and not one of the
      named codes. */
  predicate IsEncodeOutcome(r: EncodeResult<nat>) {
    match r
    case Ok(n) => n <= I32_MAX
    case Err(k) => IsEncodeKind(k) && (k.Unknown? ==> k.errcode < -4)
  }

  /** How `encode` reads the engine's return: a non-negative value is the
      number of bytes written, a negative one an encode error. */
  function EncodeOutcome(retn: CInt): (r: EncodeResult<nat>)
    ensures r.Ok? <==> retn >= 0
    ensures r.Ok? ==> r.value == retn
    ensures r.Err? ==> EncodeCodeOf(r.kind) == retn
    ensures IsEncodeOutcome(r)
  {
    if retn < 0 then EncodeResult.Err(EncodeKindOf(retn)) else EncodeResult.Ok(retn)
  }

  /** The engine return that an `encode` result stands for. */
  function EncodeReturnOf(r: EncodeResult<nat>): (retn: CInt)
    requires IsEncodeOutcome(r)
    ensures r.Ok? <==> retn >= 0
  {
    match r
    case Ok(n) => n
    case Err(k) => EncodeCodeOf(k)
  }

  /** Reading the engine's return loses nothing. */
  lemma EncodeReturnOfOutcome(retn: CInt)
    ensures EncodeReturnOf(EncodeOutcome(retn)) == retn
  {
  }

  /** Every `encode` result comes from the return it stands for. */
  lemma EncodeOutcomeOfReturn(r: EncodeResult<nat>)
    requires IsEncodeOutcome(r)
    ensures EncodeOutcome(EncodeReturnOf(r)) == r
  {
  }

  /** The results `encode` gives are exactly the `IsEncodeOutcome` ones; in
      particular an `Unknown` error never carries a non-negative code. */
  lemma EncodeOutcomeOnto(r: EncodeResult<nat>)
    ensures IsEncodeOutcome(r) <==> exists retn: CInt :: EncodeOutcome(retn) == r
  {
    if IsEncodeOutcome(r) {
      EncodeOutcomeOfReturn(r);
    }
  }

  /** The handle: it owns one non-null engine context for its lifetime. */
  datatype Lame = Lame(ptr: Context) {

    /** `sample_rate()`: the engine's `c_int` reinterpreted as `u32`. */
    function SampleRate(engine: Engine): (r: U32)
      ensures CIntOfU32(r) == engine(ptr, LameGetInSamplerate, 0)
      ensures engine(ptr, LameGetInSamplerate, 0) >= 0 ==> r == engine(ptr, LameGetInSamplerate, 0)
    {
      U32OfCInt(engine(ptr, LameGetInSamplerate, 0))
    }

    /** `set_sample_rate`: sends the rate reinterpreted as `c_int` (a rate
        above 2^31 - 1 arrives negative) and applies `check_error!` as written:
        on failure the call is repeated and the repeat's reply is reported. */
    function SetSampleRate(engine: Engine, sampleRate: U32): (r: ConfigResult<()>)
      ensures var first, second := engine(ptr, LameSetInSamplerate(CIntOfU32(sampleRate)), 0), engine(ptr, LameSetInSamplerate(CIntOfU32(sampleRate)), 1);
              && (r.Ok? <==> first == 0)
              && (r.Err? ==> IsStatusKind(r.kind) && ConfigCodeOf(r.kind) == second)
    {
      CheckError(engine(ptr, LameSetInSamplerate(CIntOfU32(sampleRate)), 0), engine(ptr, LameSetInSamplerate(CIntOfU32(sampleRate)), 1))
    }

    /** `channels()`: the low 8 bits of the engine's `c_int`. */
    function Channels(engine: Engine): (r: U8)
      ensures (engine(ptr, LameGetNumChannels, 0) - r) % 0x100 == 0
      ensures 0 <= engine(ptr, LameGetNumChannels, 0) < 0x100 ==> r == engine(ptr, LameGetNumChannels, 0)
    {
      U8OfCInt(engine(ptr, LameGetNumChannels, 0))
    }

    /** `set_channels`: sends the count widened to `c_int` and applies
        `check_error!` as written. */
    function SetChannels(engine: Engine, channels: U8): (r: ConfigResult<()>)
      ensures var first, second := engine(ptr, LameSetNumChannels(channels), 0), engine(ptr, LameSetNumChannels(channels), 1);
              && (r.Ok? <==> first == 0)
              && (r.Err? ==> IsStatusKind(r.kind) && ConfigCodeOf(r.kind) == second)
    {
      CheckError(engine(ptr, LameSetNumChannels(channels), 0), engine(ptr, LameSetNumChannels(channels), 1))
    }

    /** `quality()`: the low 8 bits of the engine's `c_int`. */
    function Quality(engine: Engine): (r: U8)
      ensures (engine(ptr, LameGetQuality, 0) - r) % 0x100 == 0
      ensures 0 <= engine(ptr, LameGetQuality, 0) < 0x100 ==> r == engine(ptr, LameGetQuality, 0)
    {
      U8OfCInt(engine(ptr, LameGetQuality, 0))
    }

    /** `set_quality`: sends the level widened to `c_int` and applies
        `check_error!` as written. */
    function SetQuality(engine: Engine, quality: U8): (r: ConfigResult<()>)
      ensures var first, second := engine(ptr, LameSetQuality(quality), 0), engine(ptr, LameSetQuality(quality), 1);
              && (r.Ok? <==> first == 0)
              && (r.Err? ==> IsStatusKind(r.kind) && ConfigCodeOf(r.kind) == second)
    {
      CheckError(engine(ptr, LameSetQuality(quality), 0), engine(ptr, LameSetQuality(quality), 1))
    }

    /** `init_params`: commits the configuration and applies `check_error!`
        as written. */
    function InitParams(engine: Engine): (r: ConfigResult<()>)
      ensures var first, second := engine(ptr, LameInitParams, 0), engine(ptr, LameInitParams, 1);
              && (r.Ok? <==> first == 0)
              && (r.Err? ==> IsStatusKind(r.kind) && ConfigCodeOf(r.kind) == second)
    {
      CheckError(engine(ptr, LameInitParams, 0), engine(ptr, LameInitParams, 1))
    }

    /** `encode`: the channels must have the same length (the source panics
        before calling the engine otherwise); the engine's return is read by
        sign. */
    function Encode(engine: Engine, pcmLeft: seq<I16>, pcmRight: seq<I16>, mp3Buffer: seq<U8>): (r: EncodeResult<nat>)
      requires |pcmLeft| == |pcmRight|
      ensures var retn := engine(ptr, EncodeRequest(pcmLeft, pcmRight, |mp3Buffer|), 0);
              && (r.Ok? <==> retn >= 0)
              && (r.Ok? ==> r.value == retn)
              && (r.Err? ==> EncodeCodeOf(r.kind) == retn)
      ensures IsEncodeOutcome(r)
    {
      EncodeOutcome(engine(ptr, EncodeRequest(pcmLeft, pcmRight, |mp3Buffer|), 0))
    }
  }

  /** If the engine reports back the `c_int` the setter sent, the getter
      returns exactly the `u32` that was set, also for rates above 2^31 - 1:
      the binding's two casts lose nothing. */
  lemma SampleRateSetThenGet(h: Lame, engine: Engine, sampleRate: U32)
    requires engine(h.ptr, LameGetInSamplerate, 0) == CIntOfU32(sampleRate)
    ensures h.SampleRate(engine) == sampleRate
  {
  }

  /** When the engine answers each repeated call as it answered the first,
      every configuration call reads its status once, as `check_error!` is
      evidently meant to. */
  lemma ConfigCallsAgreeOnRepeat(h: Lame, engine: Engine, sampleRate: U32, channels: U8, quality: U8)
    ensures var q := LameSetInSamplerate(CIntOfU32(sampleRate));
            RepeatsReply(engine, h.ptr, q) ==> h.SetSampleRate(engine, sampleRate) == CheckStatus(engine(h.ptr, q, 0))
    ensures var q := LameSetNumChannels(channels);
            RepeatsReply(engine, h.ptr, q) ==> h.SetChannels(engine, channels) == CheckStatus(engine(h.ptr, q, 0))
    ensures var q := LameSetQuality(quality);
            RepeatsReply(engine, h.ptr, q) ==> h.SetQuality(engine, quality) == CheckStatus(engine(h.ptr, q, 0))
    ensures RepeatsReply(engine, h.ptr, LameInitParams) ==>
            h.InitParams(engine) == CheckStatus(engine(h.ptr, LameInitParams, 0))
  {
  }

  /** An engine on which `set_sample_rate` as written reports an error the
      first reply does not stand for: the first attempt fails with -1, the
      repeat succeeds, and the caller sees `Unknown(0)`. */
  lemma SetSampleRateMisreports(h: Lame, sampleRate: U32)
    ensures var engine: Engine := (ctx: Context, q: Request, attempt: nat) => if attempt == 0 then -1 else 0;
            && h.SetSampleRate(engine, sampleRate) == ConfigResult.Err(ConfigErrorKind.Unknown(0))
            && CheckStatus(engine(h.ptr, LameSetInSamplerate(CIntOfU32(sampleRate)), 0)) == ConfigResult.Err(GenericError)
  {
  }
}
