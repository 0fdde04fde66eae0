/**
 * Value-level model of the CAST5 algorithm-parameters object: the two fields it
 * holds (an IV and a key length), the three ways of initialising it, the two wire
 * formats it writes, and what a sequence of initialisations leaves behind.
 * The class in module Cast5 is proved against the functions defined here.
 */
module Cast5Parameters {
  import opened Options

  type byte = bv8

  /** Java's `int`. */
  type Int32 = x: int | -0x8000_0000 <= x < 0x8000_0000

  /** The key length of a parameters object nobody has initialised from a structure. */
  const DefaultKeyLength: Int32 := 128

  /** The format name selecting the bare IV bytes. */
  const Raw: string := "RAW"

  /** The fields of the CAST5CBCParameters structure of RFC 2984,
      `SEQUENCE { iv OCTET STRING, keyLength INTEGER }`, registered under OID 1.2.840.113533.7.66.10. */
  datatype CbcParameters = CbcParameters(iv: seq<byte>, keyLength: Int32)

  /**
   * The library code the parameters object relies on and this model does not open:
   * the base class's test for a structured-format name, and the DER writer and reader
   * of CbcParameters. `decode` gives None where the reader throws (bytes that do not
   * parse, or parse as something other than the structure).
   */
  datatype Asn1Support = Asn1Support(
    isAsn1FormatString: string -> bool,
    encode: CbcParameters -> seq<byte>,
    decode: seq<byte> -> Option<CbcParameters>)

  /** The assumption made about the codec: decoding an encoding gives its fields back. (The other
      assumption, that the structured-format test does not accept "RAW", is a `requires` of the
      RAW lemmas below.) */
  ghost predicate RoundTrips(asn1: Asn1Support)
  {
    forall p :: asn1.decode(asn1.encode(p)) == Some(p)
  }

  /** The two fields of the object; `iv` is None until some initialisation succeeds. */
  datatype ParamState = ParamState(iv: Option<seq<byte>>, keyLength: Int32)

  /** The state of a newly constructed object. */
  const Initial := ParamState(None, DefaultKeyLength)

  /** An AlgorithmParameterSpec: an IvParameterSpec carrying its bytes, or any other kind
      (a null spec fails the IvParameterSpec test like any other). */
  datatype ParamSpec = IvSpec(iv: seq<byte>) | OtherSpec(kind: string)

  /** The class object a caller asks `getParameterSpec` for (null is an `OtherSpecClass`). */
  datatype SpecClass = IvSpecClass | OtherSpecClass(kind: string)

  /** The exceptions the model's operations throw. */
  datatype Failure =
    | InvalidParameterSpec       // InvalidParameterSpecException: a spec or spec class other than IvParameterSpec
    | UnknownFormat              // IOException: a format name that is neither structured nor "RAW"
    | MalformedEncoding          // the structure reader rejects the bytes
    | InvalidAlgorithmParameter  // InvalidAlgorithmParameterException from the generator's init

  /** How an initialisation call ended. */
  datatype Outcome = Done | Threw(failure: Failure)

  /** One call of one of the three initialisation methods. */
  datatype InitCall =
    | BySpec(spec: ParamSpec)
    | ByBytes(params: seq<byte>)
    | ByEncoded(params: seq<byte>, format: string)

  // ----- the operations, on values -----

  /** `engineInit(AlgorithmParameterSpec)`. */
  function InitFromSpec(s: ParamState, spec: ParamSpec): (r: Result<ParamState, Failure>)
  {
    match spec
    case IvSpec(b) => Ok(s.(iv := Some(b)))
    case OtherSpec(_) => Err(InvalidParameterSpec)
  }

  /** `engineInit(byte[])`. */
  function InitFromBytes(s: ParamState, params: seq<byte>): (r: ParamState)
  {
    s.(iv := Some(params))
  }

  /** `engineInit(byte[], String)`: structured first, then "RAW", else an IOException. */
  function InitFromEncoded(asn1: Asn1Support, s: ParamState, params: seq<byte>, format: string)
    : (r: Result<ParamState, Failure>)
  {
    if asn1.isAsn1FormatString(format) then
      match asn1.decode(params)
      case None => Err(MalformedEncoding)
      case Some(p) => Ok(ParamState(Some(p.iv), p.keyLength))
    else if format == Raw then
      Ok(InitFromBytes(s, params))
    else
      Err(UnknownFormat)
  }

  /** Any one initialisation call; a call that throws leaves the fields as they were. */
  function Step(asn1: Asn1Support, s: ParamState, call: InitCall): (r: Result<ParamState, Failure>)
  {
    match call
    case BySpec(spec) => InitFromSpec(s, spec)
    case ByBytes(params) => Ok(InitFromBytes(s, params))
    case ByEncoded(params, format) => InitFromEncoded(asn1, s, params, format)
  }

  /** The outcome a caller observes of a call whose effect is `r`. */
  function OutcomeOf(res: Result<ParamState, Failure>): (r: Outcome)
  {
    match res
    case Ok(_) => Done
    case Err(f) => Threw(f)
  }

  /** The fields after a call: the new ones, or the old ones when the call threw. */
  function StateAfter(res: Result<ParamState, Failure>, s: ParamState): (r: ParamState)
  {
    match res
    case Ok(t) => t
    case Err(_) => s
  }

  /** The fields after one initialisation call made on an object holding `s`. */
  function Apply(asn1: Asn1Support, s: ParamState, call: InitCall): (r: ParamState)
  {
    StateAfter(Step(asn1, s, call), s)
  }

  /** The fields after making the calls in order, starting from `s`. */
  function Run(asn1: Asn1Support, s: ParamState, calls: seq<InitCall>): (r: ParamState)
    decreases |calls|
  {
    if calls == [] then s
    else Apply(asn1, Run(asn1, s, calls[..|calls| - 1]), calls[|calls| - 1])
  }

  /** `engineGetEncoded()`: the bare IV. */
  function Encoded(s: ParamState): (r: seq<byte>)
    requires s.iv.Some?
  {
    s.iv.value
  }

  /** The formats for which `engineGetEncoded(String)` reads the IV need an initialised one. */
  predicate CanEncode(asn1: Asn1Support, s: ParamState, format: string)
  {
    (asn1.isAsn1FormatString(format) || format == Raw) ==> s.iv.Some?
  }

  /** `engineGetEncoded(String)`: structured first, then "RAW", else null (never a throw). */
  function EncodedAs(asn1: Asn1Support, s: ParamState, format: string): (r: Option<seq<byte>>)
    requires CanEncode(asn1, s, format)
  {
    if asn1.isAsn1FormatString(format) then Some(asn1.encode(CbcParameters(Encoded(s), s.keyLength)))
    else if format == Raw then Some(Encoded(s))
    else None
  }

  /** `localEngineGetParameterSpec(Class)`. */
  function ParameterSpecFor(s: ParamState, cls: SpecClass): (r: Result<ParamSpec, Failure>)
    requires cls == IvSpecClass ==> s.iv.Some?
  {
    if cls == IvSpecClass then Ok(IvSpec(s.iv.value)) else Err(InvalidParameterSpec)
  }

  /** A call that does not throw, whatever the fields were before it. */
  predicate Succeeds(asn1: Asn1Support, call: InitCall)
  {
    Step(asn1, Initial, call).Ok?
  }

  /** A call that replaces the key length: a structured one whose bytes decode. */
  predicate SetsKeyLength(asn1: Asn1Support, call: InitCall)
  {
    call.ByEncoded? && asn1.isAsn1FormatString(call.format) && asn1.decode(call.params).Some?
  }

  // ----- properties of single calls -----

  /** The RAW format round-trips the IV and keeps the key length it found. */
  lemma RawRoundTrip(asn1: Asn1Support, s: ParamState, b: seq<byte>)
    requires !asn1.isAsn1FormatString(Raw)
    ensures Step(asn1, s, ByEncoded(b, Raw)) == Ok(ParamState(Some(b), s.keyLength))
    ensures EncodedAs(asn1, Apply(asn1, s, ByEncoded(b, Raw)), Raw) == Some(b)
  {
  }

  /** Writing RAW and reading it back into another object restores the IV only: the key length
      is that of the reading object, so a fresh one reports the default of 128. */
  lemma RawRoundTripLosesKeyLength(asn1: Asn1Support, s: ParamState, t: ParamState)
    requires !asn1.isAsn1FormatString(Raw)
    requires s.iv.Some?
    ensures Apply(asn1, t, ByEncoded(EncodedAs(asn1, s, Raw).value, Raw)) == ParamState(s.iv, t.keyLength)
    ensures Apply(asn1, Initial, ByEncoded(EncodedAs(asn1, s, Raw).value, Raw)).keyLength == DefaultKeyLength
  {
  }

  /** Given a codec that round-trips, the structured format restores both fields, whatever the
      reading object held before. */
  lemma StructuredRoundTrip(asn1: Asn1Support, s: ParamState, t: ParamState, format: string)
    requires RoundTrips(asn1)
    requires asn1.isAsn1FormatString(format) && s.iv.Some?
    ensures Step(asn1, t, ByEncoded(EncodedAs(asn1, s, format).value, format)) == Ok(s)
  {
  }

  /** An unknown format name makes reading throw but makes writing return null, and needs no IV. */
  lemma UnknownFormatIsAsymmetric(asn1: Asn1Support, s: ParamState, b: seq<byte>, format: string)
    requires !asn1.isAsn1FormatString(format) && format != Raw
    ensures CanEncode(asn1, s, format) && EncodedAs(asn1, s, format) == None
    ensures Step(asn1, s, ByEncoded(b, format)) == Err(UnknownFormat)
    ensures Apply(asn1, s, ByEncoded(b, format)) == s
  {
  }

  /** The structured test comes first: a name it accepts is never read or written as RAW,
      even the name "RAW". */
  lemma StructuredFormatTakesPrecedence(asn1: Asn1Support, s: ParamState, b: seq<byte>, format: string)
    requires asn1.isAsn1FormatString(format) && s.iv.Some?
    ensures EncodedAs(asn1, s, format) == Some(asn1.encode(CbcParameters(s.iv.value, s.keyLength)))
    ensures Step(asn1, s, ByEncoded(b, format)).Ok? <==> asn1.decode(b).Some?
    ensures Step(asn1, s, ByEncoded(b, format)).Err? ==> Step(asn1, s, ByEncoded(b, format)).error == MalformedEncoding
  {
  }

  /** Initialising from a spec succeeds exactly for an IV spec, sets the IV from it and keeps the key
      length; any other spec throws and changes nothing. */
  lemma SpecInitAcceptsOnlyIvSpec(asn1: Asn1Support, s: ParamState, spec: ParamSpec)
    ensures Step(asn1, s, BySpec(spec)).Ok? <==> spec.IvSpec?
    ensures spec.IvSpec? ==> Apply(asn1, s, BySpec(spec)) == ParamState(Some(spec.iv), s.keyLength)
    ensures !spec.IvSpec? ==> Step(asn1, s, BySpec(spec)) == Err(InvalidParameterSpec)
    ensures !spec.IvSpec? ==> Apply(asn1, s, BySpec(spec)) == s
  {
  }

  /** Asking for the parameter spec succeeds exactly for the IV-spec class, and then gives back the IV
      the object was last initialised with. */
  lemma ParameterSpecOnlyForIvSpecClass(asn1: Asn1Support, s: ParamState, b: seq<byte>, cls: SpecClass)
    requires cls == IvSpecClass ==> s.iv.Some?
    ensures ParameterSpecFor(s, cls).Ok? <==> cls == IvSpecClass
    ensures ParameterSpecFor(s, cls).Err? ==> ParameterSpecFor(s, cls).error == InvalidParameterSpec
    ensures ParameterSpecFor(Apply(asn1, s, BySpec(IvSpec(b))), IvSpecClass) == Ok(IvSpec(b))
  {
  }

  /** Initialising from bytes in the RAW format is initialising from those bytes. */
  lemma RawInitIsByteInit(asn1: Asn1Support, s: ParamState, b: seq<byte>)
    requires !asn1.isAsn1FormatString(Raw)
    ensures Step(asn1, s, ByEncoded(b, Raw)) == Step(asn1, s, ByBytes(b))
  {
  }

  /** Whether a call throws does not depend on the fields it finds; when it does not throw, the IV it
      leaves does not depend on them either, and the key length is kept unless the call replaces it. */
  lemma StepIgnoresPriorState(asn1: Asn1Support, s: ParamState, call: InitCall)
    ensures Step(asn1, s, call).Ok? <==> Succeeds(asn1, call)
    ensures Succeeds(asn1, call) ==> Apply(asn1, s, call).iv == Apply(asn1, Initial, call).iv
    ensures !SetsKeyLength(asn1, call) ==> Apply(asn1, s, call).keyLength == s.keyLength
  {
  }

  // ----- properties of sequences of calls -----

  /** The key length survives every call except a structured initialisation that decodes. */
  lemma {:induction false} KeyLengthFrame(asn1: Asn1Support, s: ParamState, calls: seq<InitCall>)
    requires forall i | 0 <= i < |calls| :: !SetsKeyLength(asn1, calls[i])
    ensures Run(asn1, s, calls).keyLength == s.keyLength
  {
    if calls != [] {
      var init := calls[..|calls| - 1];
      KeyLengthFrame(asn1, s, init);
      StepIgnoresPriorState(asn1, Run(asn1, s, init), calls[|calls| - 1]);
    }
  }

  /** After any calls the key length is the one decoded by the last structured initialisation. */
  lemma {:induction false} KeyLengthFromLastStructuredInit(asn1: Asn1Support, s: ParamState, calls: seq<InitCall>, j: nat)
    requires j < |calls| && SetsKeyLength(asn1, calls[j])
    requires forall i | j < i < |calls| :: !SetsKeyLength(asn1, calls[i])
    ensures Run(asn1, s, calls).keyLength == asn1.decode(calls[j].params).value.keyLength
    decreases |calls|
  {
    var init := calls[..|calls| - 1];
    if j < |calls| - 1 {
      KeyLengthFromLastStructuredInit(asn1, s, init, j);
      StepIgnoresPriorState(asn1, Run(asn1, s, init), calls[|calls| - 1]);
    }
  }

  /** After any calls the IV is the one the last successful call carried: re-initialisation
      overwrites, and nothing of earlier calls remains. */
  lemma {:induction false} IvFromLastSuccessfulInit(asn1: Asn1Support, s: ParamState, calls: seq<InitCall>, j: nat)
    requires j < |calls| && Succeeds(asn1, calls[j])
    requires forall i | j < i < |calls| :: !Succeeds(asn1, calls[i])
    ensures Run(asn1, s, calls).iv == Apply(asn1, Initial, calls[j]).iv
    decreases |calls|
  {
    var init := calls[..|calls| - 1];
    StepIgnoresPriorState(asn1, Run(asn1, s, init), calls[|calls| - 1]);
    if j < |calls| - 1 {
      IvFromLastSuccessfulInit(asn1, s, init, j);
    }
  }

  /** The IV is set after some calls exactly when it was set before them or one of them succeeded. */
  lemma {:induction false} InitialisedIffSomeCallSucceeded(asn1: Asn1Support, s: ParamState, calls: seq<InitCall>)
    ensures Run(asn1, s, calls).iv.Some?
      <==> s.iv.Some? || exists i | 0 <= i < |calls| :: Succeeds(asn1, calls[i])
  {
    if calls != [] {
      var init := calls[..|calls| - 1];
      var last := calls[|calls| - 1];
      InitialisedIffSomeCallSucceeded(asn1, s, init);
      StepIgnoresPriorState(asn1, Run(asn1, s, init), last);
      if exists i | 0 <= i < |calls| :: Succeeds(asn1, calls[i]) {
        var i :| 0 <= i < |calls| && Succeeds(asn1, calls[i]);
        if i < |calls| - 1 {
          assert init[i] == calls[i];
        }
      }
      if exists i | 0 <= i < |init| :: Succeeds(asn1, init[i]) {
        var i :| 0 <= i < |init| && Succeeds(asn1, init[i]);
        assert calls[i] == init[i];
      }
    }
  }
}
