/**
 * The CAST5 parameters object and parameter generator as objects with mutable fields.
 * The init and query methods of AlgParams are proved against the value-level model in
 * Cast5Parameters: the abstract state `State()` after a call is the model's function of
 * the state before it. The random source and the generator are specified by `Stream`,
 * the byte stream the source yields.
 */
module Cast5 {
  import opened Options
  import opened Cast5Parameters

  /** The number of IV bytes the generator draws: one CAST5 block. */
  const IvLength: nat := 8

  /** The name `engineToString` reports. */
  const Description: string := "CAST5 Parameters"

  /** `new byte[src.length]` followed by `System.arraycopy(src, 0, dest, 0, src.length)`. */
  method CopyOf(src: array<byte>) returns (dest: array<byte>)
    ensures fresh(dest) && dest[..] == src[..]
  {
    dest := new byte[src.Length];
    var i := 0;
    while i < src.Length
      invariant 0 <= i <= src.Length
      invariant forall k | 0 <= k < i :: dest[k] == src[k]
    {
      dest[i] := src[i];
      i := i + 1;
    }
  }

  /** A fresh array holding `s`: what the library's `getIV()` and `getEncoded()` hand out. */
  method ArrayOf(s: seq<byte>) returns (a: array<byte>)
    ensures fresh(a) && a[..] == s
  {
    a := new byte[|s|](i requires 0 <= i < |s| => s[i]);
  }

  /** `n` bytes of `source` starting at position `from`. */
  function Stream(source: nat -> byte, from: nat, n: nat): (r: seq<byte>)
    ensures |r| == n
    ensures forall i | 0 <= i < n :: r[i] == source(from + i)
  {
    seq(n, i requires 0 <= i < n => source(from + i))
  }

  /** CAST5.AlgParams. */
  class AlgParams {
    var iv: array?<byte>
    var keyLength: Int32

    /** The two fields as a value; the IV is None while the field is null. */
    function State(): (r: ParamState)
      reads this, iv
    {
      ParamState(if iv == null then None else Some(iv[..]), keyLength)
    }

    constructor ()
      ensures State() == Initial
      ensures iv == null && keyLength == DefaultKeyLength
    {
      iv := null;
      keyLength := DefaultKeyLength;
    }

    /** The bare IV, as a copy the caller may change freely. */
    method EngineGetEncoded() returns (tmp: array<byte>)
      requires iv != null
      ensures fresh(tmp) && tmp[..] == Encoded(State())
    {
      tmp := CopyOf(iv);
    }

    /** The encoding in the named format; null for a name that is neither structured nor "RAW". */
    method EngineGetEncodedAs(asn1: Asn1Support, format: string) returns (r: array?<byte>)
      requires CanEncode(asn1, State(), format)
      ensures r == null <==> EncodedAs(asn1, State(), format) == None
      ensures r != null ==> fresh(r) && Some(r[..]) == EncodedAs(asn1, State(), format)
    {
      if asn1.isAsn1FormatString(format) {
        var raw := EngineGetEncoded();
        r := ArrayOf(asn1.encode(CbcParameters(raw[..], keyLength)));
        return;
      }
      if format == Raw {
        r := EngineGetEncoded();
        return;
      }
      r := null;
    }

    /** An IvParameterSpec over the IV when asked for that class; otherwise an exception. */
    method LocalEngineGetParameterSpec(paramSpec: SpecClass) returns (r: Result<ParamSpec, Failure>)
      requires paramSpec == IvSpecClass ==> iv != null
      ensures r == ParameterSpecFor(State(), paramSpec)
    {
      if paramSpec == IvSpecClass {
        return Ok(IvSpec(iv[..]));
      }
      return Err(InvalidParameterSpec);
    }

    /** Initialise from a spec; only an IvParameterSpec is accepted, and its bytes are copied. */
    method EngineInitSpec(paramSpec: ParamSpec) returns (r: Outcome)
      modifies this
      ensures r == OutcomeOf(InitFromSpec(old(State()), paramSpec))
      ensures State() == StateAfter(InitFromSpec(old(State()), paramSpec), old(State()))
      ensures r.Done? ==> fresh(iv)
      ensures r.Threw? ==> iv == old(iv)
    {
      if paramSpec.IvSpec? {
        iv := ArrayOf(paramSpec.iv);
        return Done;
      }
      return Threw(InvalidParameterSpec);
    }

    /** Initialise from raw IV bytes, copied into a new array; the key length is kept. */
    method EngineInitBytes(params: array<byte>)
      modifies this
      ensures State() == InitFromBytes(old(State()), params[..])
      ensures fresh(iv) && iv != params
    {
      iv := CopyOf(params);
    }

    /** Initialise from an encoding in the named format. */
    method EngineInitEncoded(asn1: Asn1Support, params: array<byte>, format: string) returns (r: Outcome)
      modifies this
      ensures r == OutcomeOf(InitFromEncoded(asn1, old(State()), params[..], format))
      ensures State() == StateAfter(InitFromEncoded(asn1, old(State()), params[..], format), old(State()))
      ensures r.Done? ==> fresh(iv)
      ensures r.Threw? ==> iv == old(iv)
    {
      if asn1.isAsn1FormatString(format) {
        var p := asn1.decode(params[..]);
        if p.None? {
          return Threw(MalformedEncoding);
        }
        keyLength := p.value.keyLength;
        iv := ArrayOf(p.value.iv);
        return Done;
      }
      if format == Raw {
        EngineInitBytes(params);
        return Done;
      }
      return Threw(UnknownFormat);
    }

    /** A fixed label naming the algorithm family, independent of the fields. */
    method EngineToString() returns (r: string)
      ensures r == Description
    {
      r := "CAST5 Parameters";
    }
  }

  /** A SecureRandom reduced to the byte stream it yields: `source(k)` is its k-th byte,
      and `drawn` counts the bytes handed out so far. */
  class SecureRandom {
    const source: nat -> byte
    var drawn: nat

    constructor (source: nat -> byte)
      ensures this.source == source && drawn == 0
    {
      this.source := source;
      drawn := 0;
    }

    /** Fill `bytes` with the next `bytes.Length` bytes of the stream. */
    method NextBytes(bytes: array<byte>)
      modifies this, bytes
      ensures drawn == old(drawn) + bytes.Length
      ensures bytes[..] == Stream(source, old(drawn), bytes.Length)
    {
      var i := 0;
      while i < bytes.Length
        invariant 0 <= i <= bytes.Length
        invariant drawn == old(drawn) + i
        invariant forall k | 0 <= k < i :: bytes[k] == source(old(drawn) + k)
      {
        bytes[i] := source(drawn);
        drawn := drawn + 1;
        i := i + 1;
      }
    }
  }

  /** CAST5.AlgParamGen; `random` is the source the base class may have been given. */
  class AlgParamGen {
    var random: SecureRandom?

    constructor (random: SecureRandom?)
      ensures this.random == random
    {
      this.random := random;
    }

    /** No spec is supported for CAST5 parameter generation: every call throws. */
    method EngineInit(genParamSpec: Option<ParamSpec>, random: SecureRandom?) returns (r: Outcome)
      ensures r == Threw(InvalidAlgorithmParameter)
    {
      r := Threw(InvalidAlgorithmParameter);
    }

    /**
     * A new parameters object holding 8 bytes drawn from `random` and the default key length.
     * When no source was given, one over `defaultSource` is created first and kept.
     */
    method EngineGenerateParameters(defaultSource: nat -> byte) returns (params: AlgParams)
      modifies this, random
      ensures old(random) != null ==> random == old(random) && random.drawn == old(random.drawn) + IvLength
      ensures old(random) == null ==> fresh(random) && random.source == defaultSource && random.drawn == IvLength
      ensures random != null && random.drawn >= IvLength
      ensures fresh(params) && fresh(params.iv)
      ensures params.State() == ParamState(Some(Stream(random.source, random.drawn - IvLength, IvLength)), DefaultKeyLength)
    {
      var iv := new byte[IvLength];
      if random == null {
        random := new SecureRandom(defaultSource);
      }
      random.NextBytes(iv);
      params := new AlgParams();
      var outcome := params.EngineInitSpec(IvSpec(iv[..]));
      assert outcome.Done?;
    }
  }
}
