/**
 * The CMS OriginatorInformationGenerator: an immutable value holding the originator's
 * certificate structures and, optionally, CRL structures, and the OriginatorInfo
 * `(certs SET, crls SET or absent)` of section 6.1 of RFC 5652 it emits.
 * Certificates and CRLs are opaque element types `C` and `L`.
 */
module OriginatorInformation {
  import opened Options

  /** An X509CertificateHolder, reduced to the certificate structure it wraps. */
  datatype CertificateHolder<C> = CertificateHolder(structure: C)

  /** A Store: the entries its unrestricted query returns, in iteration order. */
  datatype Store<E> = Store(matches: seq<E>)

  /** How a store entry becomes a certificate or a CRL structure; None where the entry is of
      another kind (the library's cast fails). */
  datatype StoreConversions<!E, C, L> = StoreConversions(asCertificate: E -> Option<C>, asCrl: E -> Option<L>)

  /** CMSException, by the collection that could not be processed. */
  datatype CmsException = CertificateProcessingError | CrlProcessingError

  /** An ASN.1 SET, reduced to its members: the order DER imposes on them is not modelled. */
  datatype Asn1Set<T> = Asn1Set(members: multiset<T>)

  /** The OriginatorInfo structure; `crls` None is the absent field. */
  datatype OriginatorInfo<C, L> = OriginatorInfo(certificates: Asn1Set<C>, crls: Option<Asn1Set<L>>)

  /** The generator's two final fields; `origCRLs` None is the Java null. */
  datatype Generator<C, L> = Generator(origCerts: seq<C>, origCRLs: Option<seq<L>>)

  /**
   * The structures of a store's entries in iteration order, or `error` if an entry does not
   * convert (CMSUtils.getCertificatesFromStore and getCRLsFromStore).
   */
  function FromStore<E, S>(entries: seq<E>, convert: E -> Option<S>, error: CmsException)
    : (r: Result<seq<S>, CmsException>)
    ensures r.Ok? <==> forall i | 0 <= i < |entries| :: convert(entries[i]).Some?
    ensures r.Err? ==> r.error == error
    ensures r.Ok? ==> |r.value| == |entries|
    ensures r.Ok? ==> forall i | 0 <= i < |entries| :: convert(entries[i]) == Some(r.value[i])
  {
    if entries == [] then Ok([])
    else
      match convert(entries[0])
      case None => Err(error)
      case Some(s) =>
        match FromStore(entries[1..], convert, error)
        case Err(e) => Err(e)
        case Ok(rest) =>
          assert forall i | 1 <= i < |entries| :: entries[i] == entries[1..][i - 1];
          Ok([s] + rest)
  }

  /** CMSUtils.getCertificatesFromStore: the certificate structures of the store's entries, in
      iteration order, or a CMSException if some entry is not a certificate. */
  function GetCertificatesFromStore<E, C, L>(store: Store<E>, conv: StoreConversions<E, C, L>)
    : (r: Result<seq<C>, CmsException>)
    ensures r.Ok? <==> forall i | 0 <= i < |store.matches| :: conv.asCertificate(store.matches[i]).Some?
    ensures r.Err? ==> r.error == CertificateProcessingError
    ensures r.Ok? ==> |r.value| == |store.matches|
    ensures r.Ok? ==> forall i | 0 <= i < |store.matches| :: conv.asCertificate(store.matches[i]) == Some(r.value[i])
  {
    FromStore(store.matches, conv.asCertificate, CertificateProcessingError)
  }

  /** CMSUtils.getCRLsFromStore: the CRL structures of the store's entries, in iteration order,
      or a CMSException if some entry is not a CRL. */
  function GetCrlsFromStore<E, C, L>(store: Store<E>, conv: StoreConversions<E, C, L>)
    : (r: Result<seq<L>, CmsException>)
    ensures r.Ok? <==> forall i | 0 <= i < |store.matches| :: conv.asCrl(store.matches[i]).Some?
    ensures r.Err? ==> r.error == CrlProcessingError
    ensures r.Ok? ==> |r.value| == |store.matches|
    ensures r.Ok? ==> forall i | 0 <= i < |store.matches| :: conv.asCrl(store.matches[i]) == Some(r.value[i])
  {
    FromStore(store.matches, conv.asCrl, CrlProcessingError)
  }

  /** CMSUtils.createDerSetFromList: a SET holding exactly the list's elements, each as often as
      the list holds it. */
  function CreateDerSetFromList<T>(list: seq<T>): (r: Asn1Set<T>)
    ensures r.members == multiset(list)
    ensures |r.members| == |list|
    ensures forall i | 0 <= i < |list| :: list[i] in r.members
  {
    Asn1Set(multiset(list))
  }

  /** The constructor taking one certificate holder: a one-element certificate list holding the
      holder's structure, and no CRL list. */
  function FromCertificate<C, L>(origCert: CertificateHolder<C>): (r: Generator<C, L>)
    ensures |r.origCerts| == 1 && r.origCerts[0] == origCert.structure
    ensures r.origCRLs == None
  {
    Generator([origCert.structure], None)
  }

  /**
   * The constructor taking a certificate store and a CRL store that may be null. The certificate
   * store is read first, so its CMSException wins; the CRL list is present exactly when the CRL
   * store is, and then holds the CRL store's structures in iteration order.
   */
  function FromStores<E, C, L>(origCerts: Store<E>, origCRLs: Option<Store<E>>, conv: StoreConversions<E, C, L>)
    : (r: Result<Generator<C, L>, CmsException>)
    ensures GetCertificatesFromStore(origCerts, conv).Err? ==> r == Err(CertificateProcessingError)
    ensures r.Ok? ==> Ok(r.value.origCerts) == GetCertificatesFromStore(origCerts, conv)
    ensures r.Ok? ==> (r.value.origCRLs.Some? <==> origCRLs.Some?)
    ensures r.Ok? && origCRLs.Some? ==> Ok(r.value.origCRLs.value) == GetCrlsFromStore(origCRLs.value, conv)
    ensures (GetCertificatesFromStore(origCerts, conv).Ok? && origCRLs.Some? &&
             GetCrlsFromStore(origCRLs.value, conv).Err?) ==> r == Err(CrlProcessingError)
  {
    match GetCertificatesFromStore(origCerts, conv)
    case Err(e) => Err(e)
    case Ok(certs) =>
      match origCRLs
      case None => Ok(Generator(certs, None))
      case Some(crlStore) =>
        match GetCrlsFromStore(crlStore, conv)
        case Err(e) => Err(e)
        case Ok(crls) => Ok(Generator(certs, Some(crls)))
  }

  /** The constructor taking a certificate store alone: the two-store one with a null CRL store,
      so the CRL list is absent. */
  function FromCertStore<E, C, L>(origCerts: Store<E>, conv: StoreConversions<E, C, L>)
    : (r: Result<Generator<C, L>, CmsException>)
    ensures r == FromStores(origCerts, None, conv)
    ensures r.Ok? ==> r.value.origCRLs == None
  {
    FromStores(origCerts, None, conv)
  }

  /**
   * `generate()`: the certificates SET is always emitted and holds exactly the certificate list's
   * elements; the CRL SET is emitted exactly when the CRL list is present, and then holds exactly
   * its elements. It only reads the fields, so equal generators give equal results.
   */
  function Generate<C, L>(g: Generator<C, L>): (r: OriginatorInfo<C, L>)
    ensures r.certificates.members == multiset(g.origCerts)
    ensures r.crls.Some? <==> g.origCRLs.Some?
    ensures g.origCRLs.Some? ==> r.crls.value.members == multiset(g.origCRLs.value)
  {
    if g.origCRLs.Some? then
      OriginatorInfo(CreateDerSetFromList(g.origCerts), Some(CreateDerSetFromList(g.origCRLs.value)))
    else
      OriginatorInfo(CreateDerSetFromList(g.origCerts), None)
  }

  // ----- properties -----

  /** A generator built from one certificate emits a SET holding just that certificate's structure,
      and no CRL field. */
  lemma SingleCertificateHasNoCrls<C, L>(origCert: CertificateHolder<C>)
    ensures Generate<C, L>(FromCertificate(origCert)).certificates.members == multiset{origCert.structure}
    ensures Generate<C, L>(FromCertificate(origCert)).crls == None
  {
  }

  /** The certificate-store constructor is the two-store constructor with a null CRL store, so its
      CRL field is absent. */
  lemma CertStoreOnlyHasNoCrls<E, C, L>(origCerts: Store<E>, conv: StoreConversions<E, C, L>)
    ensures FromCertStore(origCerts, conv) == FromStores(origCerts, None, conv)
    ensures FromCertStore(origCerts, conv).Ok? ==> FromCertStore(origCerts, conv).value.origCRLs == None
  {
  }

  /** The two-store constructor fails exactly when some entry it reads is of the wrong kind; when
      it succeeds, the CRL list is present exactly when the CRL store was given. */
  lemma FromStoresOutcome<E, C, L>(origCerts: Store<E>, origCRLs: Option<Store<E>>, conv: StoreConversions<E, C, L>)
    ensures FromStores(origCerts, origCRLs, conv).Ok? <==>
      (forall i | 0 <= i < |origCerts.matches| :: conv.asCertificate(origCerts.matches[i]).Some?) &&
      (origCRLs.Some? ==> forall i | 0 <= i < |origCRLs.value.matches| :: conv.asCrl(origCRLs.value.matches[i]).Some?)
    ensures FromStores(origCerts, origCRLs, conv).Ok? ==>
      (FromStores(origCerts, origCRLs, conv).value.origCRLs.Some? <==> origCRLs.Some?)
  {
  }

  /** An empty CRL store is not a null one: both constructions succeed or fail together, but the first
      emits a present, empty CRL SET and the second no CRL field at all. */
  lemma EmptyCrlStoreIsNotAbsent<E, C, L>(origCerts: Store<E>, conv: StoreConversions<E, C, L>)
    ensures FromStores(origCerts, Some(Store([])), conv).Ok? <==> FromStores(origCerts, None, conv).Ok?
    ensures FromStores(origCerts, Some(Store([])), conv).Ok? ==>
      Generate(FromStores(origCerts, Some(Store([])), conv).value).crls == Some(Asn1Set(multiset{})) &&
      Generate(FromStores(origCerts, None, conv).value).crls == None
  {
  }

  /** Only the fields decide what `generate()` emits, and not their order: generators whose lists
      hold the same elements emit equal OriginatorInfo values, so repeated calls agree. */
  lemma GenerateIgnoresOrder<C, L>(g: Generator<C, L>, h: Generator<C, L>)
    requires multiset(g.origCerts) == multiset(h.origCerts)
    requires g.origCRLs.Some? <==> h.origCRLs.Some?
    requires g.origCRLs.Some? ==> multiset(g.origCRLs.value) == multiset(h.origCRLs.value)
    ensures Generate(g) == Generate(h)
  {
  }

  /** Every certificate of the store reaches the emitted SET, and every member of the SET comes from
      an entry of the store. */
  lemma StoreCertificatesReachSet<E, C, L>(
    origCerts: Store<E>, origCRLs: Option<Store<E>>, conv: StoreConversions<E, C, L>, c: C)
    requires FromStores(origCerts, origCRLs, conv).Ok?
    ensures c in Generate(FromStores(origCerts, origCRLs, conv).value).certificates.members <==>
      exists i | 0 <= i < |origCerts.matches| :: conv.asCertificate(origCerts.matches[i]) == Some(c)
  {
  }
}
