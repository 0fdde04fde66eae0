# CAST5 algorithm parameters and CMS originator information, in Dafny

This project models two small pieces of the Bouncy Castle provider and CMS library and proves
properties of them.

**CAST5 parameters** (`CAST5.AlgParams`, `CAST5.AlgParamGen`). The parameters object holds an
IV and a key length. The key length defaults to 128. The object can be initialised from an
`IvParameterSpec`, from raw bytes, or from bytes in a named format. It writes two wire
formats:

- `"RAW"`: the bare IV bytes.
- the structured format: the CAST5CBCParameters `SEQUENCE { iv, keyLength }` of RFC 2984,
  under OID 1.2.840.113533.7.66.10.

Format names are dispatched in a fixed order: structured, then `"RAW"`, then the fallback. An
unknown name makes reading throw, but makes writing return null. The generator draws 8 IV
bytes from a random source and wraps them in a new parameters object.

- `cast5_parameters.dfy` (module `Cast5Parameters`) models the object's state as a value. It
  defines one function per operation and proves the format and round-trip properties. It also
  proves what any sequence of initialisations leaves behind.
- `cast5.dfy` (module `Cast5`) has the classes `AlgParams`, `SecureRandom` and `AlgParamGen`.
  Their fields are updated in place, and arrays are copied defensively. The init and query
  methods of `AlgParams` are proved against the functions of `Cast5Parameters`. `SecureRandom`
  and `AlgParamGen` are specified by `Cast5.Stream`, the byte stream the source yields.
  `EngineToString` is specified by its fixed label.

**Originator information** (`OriginatorInformationGenerator`). This is an immutable value with
a certificate list and an optional CRL list. It is built by one of three constructors, and
`generate()` turns it into the OriginatorInfo `(certs SET, crls SET or absent)` of section 6.1
of RFC 5652. `originator_information.dfy` (module `OriginatorInformation`) models it with
datatypes and functions.

`options.dfy` holds the `Option` and `Result` datatypes that both models use.

Collaborators whose code is not part of this model are passed in as values:

- the base class's structured-format test and the CAST5CBCParameters DER writer and reader
  (`Asn1Support`). Two assumptions are made about them, each stated as a `requires` of the
  lemmas that use it:
  - the codec round-trips (`RoundTrips`); only `StructuredRoundTrip` uses it;
  - the base class's structured-format test does not accept the name `"RAW"`. `RawRoundTrip`,
    `RawRoundTripLosesKeyLength` and `RawInitIsByteInit` use it. Without it, the structured test
    at CAST5.java:113 and :167 would send `"RAW"` down the structured path, as
    `StructuredFormatTakesPrecedence` shows;
- the random source, as a byte stream `nat -> byte`;
- the per-entry conversion a store's entries go through (`StoreConversions`).

The code accepts RAW bytes of any length, and so does the model. It does not check for the
8-byte CAST5 block size.

## Model

| member | source | states |
|---|---|---|
| `Cast5.AlgParams.constructor` | crypto/src/org/bouncycastle/jcajce/provider/symmetric/CAST5.java:98-99 | a new object has no IV and key length 128 |
| `Cast5.AlgParams.EngineGetEncoded` | crypto/src/org/bouncycastle/jcajce/provider/symmetric/CAST5.java:101-107 | needs an initialised IV; returns a fresh array equal to the IV and changes nothing |
| `Cast5.ArrayOf` | crypto/src/org/bouncycastle/jcajce/provider/symmetric/CAST5.java:145 | a fresh array holding the given bytes, the copy `getIV()` hands out; used for the spec's IV (:145) and the decoded IV (:174) |
| `Cast5.CopyOf` | crypto/src/org/bouncycastle/jcajce/provider/symmetric/CAST5.java:157-159 | allocate-and-arraycopy gives a fresh array with the source's contents |
| `Cast5.AlgParams.EngineGetEncodedAs` | crypto/src/org/bouncycastle/jcajce/provider/symmetric/CAST5.java:109-125 | returns null exactly when the format is neither structured nor RAW; otherwise a fresh array holding the encoding; reads the IV only for those two formats |
| `Cast5.AlgParams.LocalEngineGetParameterSpec` | crypto/src/org/bouncycastle/jcajce/provider/symmetric/CAST5.java:127-137 | an IV spec over the IV for the IV-spec class, an InvalidParameterSpec failure for any other class |
| `Cast5.AlgParams.EngineInitSpec` | crypto/src/org/bouncycastle/jcajce/provider/symmetric/CAST5.java:139-151 | an IV spec sets a fresh copy of its bytes as the IV and keeps the key length; any other spec throws and leaves both fields as they were |
| `Cast5.AlgParams.EngineInitBytes` | crypto/src/org/bouncycastle/jcajce/provider/symmetric/CAST5.java:153-160 | the IV becomes a fresh array, not the argument, with the argument's contents; the key length is kept |
| `Cast5.AlgParams.EngineInitEncoded` | crypto/src/org/bouncycastle/jcajce/provider/symmetric/CAST5.java:162-186 | structured: both fields replaced by the decoded ones; RAW: as EngineInitBytes; other names and undecodable bytes throw with both fields unchanged |
| `Cast5.AlgParams.EngineToString` | crypto/src/org/bouncycastle/jcajce/provider/symmetric/CAST5.java:188-191 | the fixed label "CAST5 Parameters", whatever the fields hold |
| `Cast5.SecureRandom.NextBytes` | crypto/src/org/bouncycastle/jcajce/provider/symmetric/CAST5.java:77 | fills the buffer with the next bytes of the stream and advances the stream by the buffer's length |
| `Cast5.AlgParamGen.EngineInit` | crypto/src/org/bouncycastle/jcajce/provider/symmetric/CAST5.java:60-66 | throws InvalidAlgorithmParameter for every spec and source, including a null spec |
| `Cast5.AlgParamGen.EngineGenerateParameters` | crypto/src/org/bouncycastle/jcajce/provider/symmetric/CAST5.java:68-92 | creates a source only when none is held; draws exactly 8 bytes from it; returns a new object whose IV is those bytes and whose key length is 128 |
| `Cast5Parameters.RawRoundTrip` | crypto/src/org/bouncycastle/jcajce/provider/symmetric/CAST5.java:179-183 | reading bytes as RAW sets the IV to them and keeps the key length; writing RAW then gives the same bytes back |
| `Cast5Parameters.RawRoundTripLosesKeyLength` | crypto/src/org/bouncycastle/jcajce/provider/symmetric/CAST5.java:118-121 | a RAW write read back elsewhere restores the IV only; the key length is the reader's, 128 for a fresh reader |
| `Cast5Parameters.StructuredRoundTrip` | crypto/src/org/bouncycastle/jcajce/provider/symmetric/CAST5.java:113-116 | if the codec round-trips, a structured write read back restores both fields, whatever the reader held |
| `Cast5Parameters.UnknownFormatIsAsymmetric` | crypto/src/org/bouncycastle/jcajce/provider/symmetric/CAST5.java:123-124 | an unknown name: writing needs no IV and returns null; reading throws UnknownFormat and changes nothing |
| `Cast5Parameters.StructuredFormatTakesPrecedence` | crypto/src/org/bouncycastle/jcajce/provider/symmetric/CAST5.java:167-177 | a name the structured test accepts is always treated as structured, even "RAW"; reading succeeds exactly when the bytes decode |
| `Cast5Parameters.SpecInitAcceptsOnlyIvSpec` | crypto/src/org/bouncycastle/jcajce/provider/symmetric/CAST5.java:143-150 | spec initialisation succeeds iff the spec is an IV spec; on success only the IV changes, otherwise nothing changes |
| `Cast5Parameters.ParameterSpecOnlyForIvSpecClass` | crypto/src/org/bouncycastle/jcajce/provider/symmetric/CAST5.java:131-136 | the spec is given iff the IV-spec class is asked for, and it carries the IV last set from a spec |
| `Cast5Parameters.RawInitIsByteInit` | crypto/src/org/bouncycastle/jcajce/provider/symmetric/CAST5.java:181 | reading in the RAW format is the same call as reading raw bytes |
| `Cast5Parameters.StepIgnoresPriorState` | crypto/src/org/bouncycastle/jcajce/provider/symmetric/CAST5.java:139-186 | whether an initialisation throws, and the IV it sets, do not depend on the prior fields; only a decoded structured read changes the key length |
| `Cast5Parameters.KeyLengthFrame` | crypto/src/org/bouncycastle/jcajce/provider/symmetric/CAST5.java:172 | over any sequence of initialisations without a decoded structured read, the key length stays as it was |
| `Cast5Parameters.KeyLengthFromLastStructuredInit` | crypto/src/org/bouncycastle/jcajce/provider/symmetric/CAST5.java:169-174 | after any sequence of initialisations the key length is the one decoded by the last structured read |
| `Cast5Parameters.IvFromLastSuccessfulInit` | crypto/src/org/bouncycastle/jcajce/provider/symmetric/CAST5.java:145-174 | after any sequence of initialisations the IV is the one carried by the last call that did not throw |
| `Cast5Parameters.InitialisedIffSomeCallSucceeded` | crypto/src/org/bouncycastle/jcajce/provider/symmetric/CAST5.java:98-186 | the IV is set after a sequence of calls iff it was set before or one of the calls did not throw |
| `OriginatorInformation.FromStore` | crypto/src/org/bouncycastle/cms/OriginatorInformationGenerator.java:31-36 | a store converts iff every entry converts; the list then holds each entry's structure, in iteration order |
| `OriginatorInformation.GetCertificatesFromStore` | crypto/src/org/bouncycastle/cms/OriginatorInformationGenerator.java:31 | succeeds iff every store entry is a certificate; the list then holds each entry's structure in iteration order; otherwise a CMSException |
| `OriginatorInformation.GetCrlsFromStore` | crypto/src/org/bouncycastle/cms/OriginatorInformationGenerator.java:35 | succeeds iff every store entry is a CRL; the list then holds each entry's structure in iteration order; otherwise a CMSException |
| `OriginatorInformation.CreateDerSetFromList` | crypto/src/org/bouncycastle/cms/OriginatorInformationGenerator.java:47 | the SET's members are exactly the list's elements, with their multiplicities |
| `OriginatorInformation.FromCertificate` | crypto/src/org/bouncycastle/cms/OriginatorInformationGenerator.java:15-20 | the certificate list is the one-element list holding the holder's structure; the CRL list is absent |
| `OriginatorInformation.FromStores` | crypto/src/org/bouncycastle/cms/OriginatorInformationGenerator.java:28-41 | the certificate list is the certificate store's conversion, and its failure wins; the CRL list is present iff the CRL store is non-null, and is then that store's conversion; a failed CRL conversion throws |
| `OriginatorInformation.FromCertStore` | crypto/src/org/bouncycastle/cms/OriginatorInformationGenerator.java:22-26 | equals the two-store constructor with a null CRL store; when it succeeds the CRL list is absent |
| `OriginatorInformation.Generate` | crypto/src/org/bouncycastle/cms/OriginatorInformationGenerator.java:43-53 | the certificates SET is always emitted and holds exactly `origCerts`; a CRL SET is emitted iff `origCRLs` is present and then holds exactly its elements |
| `OriginatorInformation.SingleCertificateHasNoCrls` | crypto/src/org/bouncycastle/cms/OriginatorInformationGenerator.java:15-20 | the single-certificate constructor emits a SET holding that certificate's structure alone, and no CRL field |
| `OriginatorInformation.CertStoreOnlyHasNoCrls` | crypto/src/org/bouncycastle/cms/OriginatorInformationGenerator.java:22-26 | the store-only constructor equals the two-store one with a null CRL store; its CRL list is absent |
| `OriginatorInformation.FromStoresOutcome` | crypto/src/org/bouncycastle/cms/OriginatorInformationGenerator.java:28-41 | the two-store constructor throws iff an entry fails to convert; otherwise the CRL list is present iff the CRL store is non-null |
| `OriginatorInformation.EmptyCrlStoreIsNotAbsent` | crypto/src/org/bouncycastle/cms/OriginatorInformationGenerator.java:33-40 | an empty CRL store gives a present empty CRL SET, a null one an absent field; both succeed or fail together |
| `OriginatorInformation.GenerateIgnoresOrder` | crypto/src/org/bouncycastle/cms/OriginatorInformationGenerator.java:12-13 | the output depends only on the final fields' elements, not their order; repeated calls give equal results |
| `OriginatorInformation.StoreCertificatesReachSet` | crypto/src/org/bouncycastle/cms/OriginatorInformationGenerator.java:31-51 | a structure is in the emitted certificates SET iff some entry of the certificate store converts to it |

## Left out

- `CAST5.ECB`, `CAST5.CBC` and `CAST5.KeyGen` are left out. They only construct a cipher engine, CBC mode or key generator, and that code is not part of this model.
- `CAST5.Mappings` is left out. It is the provider's name-registration table.
- The provider lookup `AlgorithmParameters.getInstance("CAST5", "BC")` is replaced by `new AlgParams()`. The lookup is a foreign call, so the `RuntimeException` that would wrap its failure is not modelled.
- Randomness is not modelled. The random source is a given byte stream, and the source `new SecureRandom()` would create is the parameter `defaultSource`.
- `AlgParamGen`'s `random` field belongs to its base class, which is not part of this model. The constructor `Cast5.AlgParamGen.constructor` stands for whatever set that field. The base class's key-strength field is not modelled.
- The internals of `isASN1FormatString`, `CAST5CBCParameters`, `ASN1InputStream`, `X509CertificateHolder.toASN1Structure` and `OriginatorInfo` are not modelled. They are library code outside this model, given as function values. No structured round trip is proved beyond the stated `RoundTrips` assumption.
- `CMSUtils` is not part of this model. Its store conversions are modelled as a per-entry conversion over the store's entries, where a failed conversion throws `CMSException`.
- A null spec passed to `engineInit(AlgorithmParameterSpec)` fails the `IvParameterSpec` test and throws, like any `OtherSpec`. A null class passed to `localEngineGetParameterSpec` throws, like any `OtherSpecClass`. `engineInit(null, format)` with a name that is neither structured nor `"RAW"` throws the `IOException` without reading the bytes. The model covers these three cases.
- Null arguments that the source dereferences are not modelled. These are the `byte[]` of `engineInit(byte[])` and of the structured and `"RAW"` paths of `engineInit(byte[], String)`, the certificate holder of the single-certificate constructor, and a null certificate store. In the source each ends in a `NullPointerException`.
- Null `format` strings are not modelled. The base class's format test decides them, and when it rejects one, `format.equals("RAW")` throws a `NullPointerException`.
- Reading the IV before any initialisation is a `requires`. In the source it is a `NullPointerException`, a programming error rather than an outcome. It is required only on the paths that read the IV.
- Decoded key lengths are taken as Java `int` values. The conversion of the ASN.1 INTEGER happens inside the library.
- The order in which DER writes a SET's members is not modelled. An `Asn1Set` is the multiset of its members, so only which members a SET holds, and how often, is stated.
- The `OriginatorInformation` wrapper around the emitted `OriginatorInfo` is not modelled; `Generate` returns the `OriginatorInfo` itself.
- Thread safety of a shared `AlgParams` is left out, because concurrency is not what this code is about.
