/**
 * `load_rustls_config` of src/core/config.rs: a three-stage cascade with
 * early returns (certificate chain, private key, TLS builder).
 *
 * PEM parsing and the rustls builder are library calls; the model takes
 * their outcomes as inputs:
 *  - the certificate file: unreadable (`Err`), or the sequence of per-block
 *    parse outcomes in file order;
 *  - the private key file: a key or an error;
 *  - the builder: a total function from the request it receives to a
 *    server configuration or an error.
 * Each `println!` of the source is modelled as the `Diagnostic` it reports,
 * so that which stage decided the result is observable.
 */
module TlsConfig {
  import opened Wrappers

  datatype CertificateDer = CertificateDer(der: seq<bv8>)
  datatype PrivateKeyDer = PrivateKeyDer(der: seq<bv8>)

  /** An error from the PEM reader (unreadable file, malformed block, missing key). */
  datatype PemError = PemError(reason: string)
  /** An error from the rustls builder (key does not match the leaf, unsupported algorithm, ...). */
  datatype TlsError = TlsError(reason: string)
  /** The built rustls `ServerConfig`, opaque here. */
  datatype ServerConfig = ServerConfig(handle: nat)

  datatype ClientAuth = NoClientAuth | ClientCertVerifier(verifier: nat)

  /** What `ServerConfig::builder().with_*_client_auth().with_single_cert(chain, key)` is given. */
  datatype SingleCertRequest = SingleCertRequest(clientAuth: ClientAuth, chain: seq<CertificateDer>, key: PrivateKeyDer)

  type CertFile = Result<seq<Result<CertificateDer, PemError>>, PemError>
  type KeyFile = Result<PrivateKeyDer, PemError>
  type Builder = SingleCertRequest -> Result<ServerConfig, TlsError>

  /** The message the function prints on each early return. */
  datatype Diagnostic =
    | PemFileFailed(pemError: PemError)
    | NoCertificates
    | NoPrivateKey
    | BuildFailed(tlsError: TlsError)

  datatype Loaded = Loaded(config: Option<ServerConfig>, diagnostic: Option<Diagnostic>)

  /**
   * `res.flatten().collect()`: the successfully parsed certificates, in file
   * order; blocks that failed to parse are dropped.
   */
  function Flatten(blocks: seq<Result<CertificateDer, PemError>>): (chain: seq<CertificateDer>)
    ensures |chain| <= |blocks|
    ensures forall c :: c in chain <==> Ok(c) in blocks
    decreases |blocks|
  {
    if blocks == [] then []
    else
      var rest := Flatten(blocks[1..]);
      assert blocks == [blocks[0]] + blocks[1..];
      match blocks[0]
      case Ok(c) => [c] + rest
      case Err(_) => rest
  }

  /** The certificate stage: the chain when the file was read and held at least one certificate. */
  function CertStage(certFile: CertFile): (r: Result<seq<CertificateDer>, Diagnostic>)
    ensures r.Ok? ==> certFile.Ok? && r.value == Flatten(certFile.value) && r.value != []
    ensures certFile.Err? ==> r == Err(PemFileFailed(certFile.error))
    ensures certFile.Ok? && Flatten(certFile.value) == [] ==> r == Err(NoCertificates)
    ensures certFile.Ok? && Flatten(certFile.value) != [] ==> r == Ok(Flatten(certFile.value))
  {
    match certFile
    case Err(e) => Err(PemFileFailed(e))
    case Ok(blocks) =>
      var chain := Flatten(blocks);
      if chain != [] then Ok(chain) else Err(NoCertificates)
  }

  /** The whole cascade, with the diagnostic that an early return prints. */
  function LoadRustlsConfigLogged(certFile: CertFile, keyFile: KeyFile, build: Builder): (r: Loaded)
    ensures r.config.Some? <==> r.diagnostic.None?
  {
    match CertStage(certFile)
    case Err(d) => Loaded(None, Some(d))
    case Ok(chain) =>
      match keyFile
      case Err(_) => Loaded(None, Some(NoPrivateKey))
      case Ok(key) =>
        match build(SingleCertRequest(NoClientAuth, chain, key))
        case Ok(config) => Loaded(Some(config), None)
        case Err(e) => Loaded(None, Some(BuildFailed(e)))
  }

  /** `load_rustls_config`: `Some` exactly when every stage succeeded. */
  function LoadRustlsConfig(certFile: CertFile, keyFile: KeyFile, build: Builder): (r: Option<ServerConfig>)
    ensures r.Some? <==>
      certFile.Ok? && Flatten(certFile.value) != [] && keyFile.Ok? &&
      build(SingleCertRequest(NoClientAuth, Flatten(certFile.value), keyFile.value)).Ok?
    ensures r.Some? ==>
      r.value == build(SingleCertRequest(NoClientAuth, Flatten(certFile.value), keyFile.value)).value
  {
    LoadRustlsConfigLogged(certFile, keyFile, build).config
  }

  // ---------------------------------------------------------------------
  // The certificate chain
  // ---------------------------------------------------------------------

  /** Flattening distributes over concatenation: file order is kept. */
  lemma {:induction false} FlattenAppend(xs: seq<Result<CertificateDer, PemError>>, ys: seq<Result<CertificateDer, PemError>>)
    ensures Flatten(xs + ys) == Flatten(xs) + Flatten(ys)
    decreases |xs|
  {
    if xs != [] {
      assert (xs + ys)[1..] == xs[1..] + ys;
      FlattenAppend(xs[1..], ys);
    } else {
      assert xs + ys == ys;
    }
  }

  /** A parsed block contributes its certificate; a failed one contributes nothing. */
  lemma FlattenSingle(b: Result<CertificateDer, PemError>)
    ensures Flatten([b]) == if b.Ok? then [b.value] else []
  {
  }

  /** A file whose k blocks all parse yields a chain of exactly those k certificates. */
  lemma {:induction false} FlattenAllOk(blocks: seq<Result<CertificateDer, PemError>>)
    requires forall i :: 0 <= i < |blocks| ==> blocks[i].Ok?
    ensures |Flatten(blocks)| == |blocks|
    ensures forall i :: 0 <= i < |blocks| ==> Flatten(blocks)[i] == blocks[i].value
    decreases |blocks|
  {
    if blocks != [] {
      FlattenAllOk(blocks[1..]);
    }
  }

  /** The chain is empty exactly when no block parsed. */
  lemma FlattenEmpty(blocks: seq<Result<CertificateDer, PemError>>)
    ensures Flatten(blocks) == [] <==> forall i :: 0 <= i < |blocks| ==> blocks[i].Err?
  {
    if Flatten(blocks) == [] {
      forall i | 0 <= i < |blocks| ensures blocks[i].Err? {
        assert blocks[i] in blocks;
      }
    } else {
      var c := Flatten(blocks)[0];
      assert Ok(c) in blocks;
    }
  }

  // ---------------------------------------------------------------------
  // Which stage decides
  // ---------------------------------------------------------------------

  /** An unreadable certificate file gives None, whatever the key and builder. */
  lemma CertFileErrorGivesNone(certFile: CertFile, keyFile: KeyFile, build: Builder)
    requires certFile.Err?
    ensures LoadRustlsConfigLogged(certFile, keyFile, build) == Loaded(None, Some(PemFileFailed(certFile.error)))
  {
  }

  /** A file with no parsable certificate gives None, whatever the key and builder. */
  lemma EmptyChainGivesNone(blocks: seq<Result<CertificateDer, PemError>>, keyFile: KeyFile, build: Builder)
    requires forall i :: 0 <= i < |blocks| ==> blocks[i].Err?
    ensures LoadRustlsConfigLogged(Ok(blocks), keyFile, build) == Loaded(None, Some(NoCertificates))
  {
    FlattenEmpty(blocks);
  }

  /** With a usable chain, a key that cannot be loaded gives None, whatever the builder. */
  lemma KeyErrorGivesNone(certFile: CertFile, keyFile: KeyFile, build: Builder)
    requires certFile.Ok? && Flatten(certFile.value) != []
    requires keyFile.Err?
    ensures LoadRustlsConfigLogged(certFile, keyFile, build) == Loaded(None, Some(NoPrivateKey))
  {
  }

  /**
   * A builder failure (a key that does not match the leaf, say) gives None
   * and reports the builder's error; no partial configuration escapes.
   */
  lemma BuildErrorGivesNone(certFile: CertFile, keyFile: KeyFile, build: Builder)
    requires certFile.Ok? && Flatten(certFile.value) != [] && keyFile.Ok?
    requires build(SingleCertRequest(NoClientAuth, Flatten(certFile.value), keyFile.value)).Err?
    ensures LoadRustlsConfigLogged(certFile, keyFile, build) ==
      Loaded(None, Some(BuildFailed(build(SingleCertRequest(NoClientAuth, Flatten(certFile.value), keyFile.value)).error)))
  {
  }

  /** When the certificate stage fails, neither the key nor the builder is consulted. */
  lemma CertStageShortCircuits(certFile: CertFile, key1: KeyFile, key2: KeyFile, build1: Builder, build2: Builder)
    requires CertStage(certFile).Err?
    ensures LoadRustlsConfigLogged(certFile, key1, build1) == LoadRustlsConfigLogged(certFile, key2, build2)
  {
  }

  /** When the key stage fails, the builder is not consulted. */
  lemma KeyStageShortCircuits(certFile: CertFile, keyFile: KeyFile, build1: Builder, build2: Builder)
    requires keyFile.Err?
    ensures LoadRustlsConfigLogged(certFile, keyFile, build1) == LoadRustlsConfigLogged(certFile, keyFile, build2)
  {
  }

  /**
   * The builder sees only the one request the cascade makes: two builders
   * that agree on it give the same result.
   */
  lemma BuilderConsultedOnce(certFile: CertFile, keyFile: KeyFile, build1: Builder, build2: Builder)
    requires certFile.Ok? && keyFile.Ok?
    requires build1(SingleCertRequest(NoClientAuth, Flatten(certFile.value), keyFile.value)) ==
             build2(SingleCertRequest(NoClientAuth, Flatten(certFile.value), keyFile.value))
    ensures LoadRustlsConfigLogged(certFile, keyFile, build1) == LoadRustlsConfigLogged(certFile, keyFile, build2)
  {
  }

  /**
   * A file of k certificate blocks that all parse, with a loadable key and a
   * builder that accepts them, yields the builder's configuration for a chain
   * of exactly those k certificates in file order.
   */
  lemma FullChainLoads(blocks: seq<Result<CertificateDer, PemError>>, key: PrivateKeyDer, build: Builder)
    requires |blocks| >= 1
    requires forall i :: 0 <= i < |blocks| ==> blocks[i].Ok?
    ensures var chain := seq(|blocks|, i requires 0 <= i < |blocks| => blocks[i].value);
      build(SingleCertRequest(NoClientAuth, chain, key)).Ok? ==>
        LoadRustlsConfig(Ok(blocks), Ok(key), build) == Some(build(SingleCertRequest(NoClientAuth, chain, key)).value)
  {
    FlattenAllOk(blocks);
    var chain := seq(|blocks|, i requires 0 <= i < |blocks| => blocks[i].value);
    assert Flatten(blocks) == chain;
  }
}
