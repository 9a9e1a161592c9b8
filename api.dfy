/**
 * The fluent server builder `Api` of src/api.rs.
 *
 * Every Rust setter takes the builder by value (`mut self`), overwrites the
 * fields it targets and hands the builder back; the caller's old binding is
 * moved, so no alias can observe the update. An immutable datatype with
 * record-updating member functions therefore has the same behaviour.
 *
 * The two closure fields are opaque tokens: all the model keeps of them is
 * which value is stored.
 */
module ApiBuilder {
  import opened Wrappers
  import BindAddress

  newtype u16 = x: int | 0 <= x < 0x1_0000
  newtype u32 = x: int | 0 <= x < 0x1_0000_0000
  newtype u64 = x: int | 0 <= x < 0x1_0000_0000_0000_0000

  /** A `crate::routes::Routes` value; its routes are registered only at start time. */
  datatype Routes = Routes(id: nat)

  /** The stored CORS factory: the one `Api::new` installs, or one given to `configure_cors`. */
  datatype CorsFactory = DefaultCors | CustomCors(id: nat)

  const DefaultCertPath: string := "certs/cert.pem"
  const DefaultKeyPath: string := "certs/key.pem"
  const DefaultDbPath: string := "users.db"
  const DefaultAddr: string := "127.0.0.1"
  const DefaultPort: u16 := 8443
  const DefaultRateLimit: (u64, u32) := (3, 20)

  datatype Api = Api(
    certPath: string,
    keyPath: string,
    dbPath: string,
    addr: string,
    port: u16,
    rateLimit: (u64, u32),
    customRoutes: Option<Routes>,
    customCors: CorsFactory)
  {
    /** `Api::new`: the fixed defaults. */
    static function New(): (api: Api)
      ensures api.GetCertPath() == "certs/cert.pem" && api.GetKeyPath() == "certs/key.pem"
      ensures api.GetDbPath() == "users.db"
      ensures api.GetAddr() == "127.0.0.1" && api.GetPort() == 8443
      ensures api.GetRateLimitPerSecond() == 3 && api.GetRateLimitBurstSize() == 20
      ensures api.customRoutes == None && api.customCors == DefaultCors
    {
      Api(DefaultCertPath, DefaultKeyPath, DefaultDbPath, DefaultAddr, DefaultPort,
          DefaultRateLimit, None, DefaultCors)
    }

    /** `certs`: replaces both TLS paths and nothing else. */
    function Certs(cert: string, key: string): (r: Api)
      ensures r.GetCertPath() == cert && r.GetKeyPath() == key
      ensures r.GetDbPath() == GetDbPath() && r.GetAddr() == GetAddr() && r.GetPort() == GetPort()
      ensures r.GetRateLimit() == GetRateLimit()
      ensures r.customRoutes == customRoutes && r.customCors == customCors
    {
      this.(certPath := cert, keyPath := key)
    }

    /** `auth_db`: replaces the database path and nothing else. */
    function AuthDb(path: string): (r: Api)
      ensures r.GetDbPath() == path
      ensures r.GetCertPath() == GetCertPath() && r.GetKeyPath() == GetKeyPath()
      ensures r.GetAddr() == GetAddr() && r.GetPort() == GetPort()
      ensures r.GetRateLimit() == GetRateLimit()
      ensures r.customRoutes == customRoutes && r.customCors == customCors
    {
      this.(dbPath := path)
    }

    /** `rate_limit`: stores the pair as given (no validation, so (0, 0) is kept too). */
    function RateLimit(perSecond: u64, burstSize: u32): (r: Api)
      ensures r.GetRateLimitPerSecond() == perSecond && r.GetRateLimitBurstSize() == burstSize
      ensures r.GetCertPath() == GetCertPath() && r.GetKeyPath() == GetKeyPath()
      ensures r.GetDbPath() == GetDbPath() && r.GetAddr() == GetAddr() && r.GetPort() == GetPort()
      ensures r.customRoutes == customRoutes && r.customCors == customCors
    {
      this.(rateLimit := (perSecond, burstSize))
    }

    /** `bind`: replaces address and port and nothing else. */
    function Bind(address: string, p: u16): (r: Api)
      ensures r.GetAddr() == address && r.GetPort() == p
      ensures r.GetCertPath() == GetCertPath() && r.GetKeyPath() == GetKeyPath()
      ensures r.GetDbPath() == GetDbPath() && r.GetRateLimit() == GetRateLimit()
      ensures r.customRoutes == customRoutes && r.customCors == customCors
    {
      this.(addr := address, port := p)
    }

    /** `configure_routes`: stores the routes (replacing any earlier ones) and nothing else. */
    function ConfigureRoutes(routes: Routes): (r: Api)
      ensures r.customRoutes == Some(routes)
      ensures r.GetCertPath() == GetCertPath() && r.GetKeyPath() == GetKeyPath()
      ensures r.GetDbPath() == GetDbPath() && r.GetAddr() == GetAddr() && r.GetPort() == GetPort()
      ensures r.GetRateLimit() == GetRateLimit() && r.customCors == customCors
    {
      this.(customRoutes := Some(routes))
    }

    /** `configure_cors`: replaces the CORS factory and nothing else. */
    function ConfigureCors(cors: nat): (r: Api)
      ensures r.customCors == CustomCors(cors)
      ensures r.GetCertPath() == GetCertPath() && r.GetKeyPath() == GetKeyPath()
      ensures r.GetDbPath() == GetDbPath() && r.GetAddr() == GetAddr() && r.GetPort() == GetPort()
      ensures r.GetRateLimit() == GetRateLimit() && r.customRoutes == customRoutes
    {
      this.(customCors := CustomCors(cors))
    }

    function GetCertPath(): (path: string) { certPath }
    function GetKeyPath(): (path: string) { keyPath }
    function GetDbPath(): (path: string) { dbPath }
    function GetAddr(): (address: string) { addr }
    function GetPort(): (p: u16) { port }

    /** `get_rate_limit`: the pair whose halves the two component getters return. */
    function GetRateLimit(): (r: (u64, u32))
      ensures r.0 == GetRateLimitPerSecond() && r.1 == GetRateLimitBurstSize()
    {
      rateLimit
    }

    function GetRateLimitPerSecond(): (perSecond: u64) { rateLimit.0 }
    function GetRateLimitBurstSize(): (burstSize: u32) { rateLimit.1 }

    /**
     * `get_bind_addr`: the address, a colon and the port in decimal; the
     * address and port can be read back from it.
     */
    function GetBindAddr(): (r: string)
      ensures |r| > |GetAddr()| + 1
      ensures r[..|GetAddr()|] == GetAddr() && r[|GetAddr()|] == ':'
      ensures BindAddress.IsCanonicalDecimal(r[|GetAddr()| + 1..])
      ensures BindAddress.DecimalValue(r[|GetAddr()| + 1..]) == GetPort() as nat
      ensures BindAddress.ParseBindAddr(r) == Some((GetAddr(), GetPort() as nat))
    {
      BindAddress.BindAddrRoundTrip(addr, port as nat);
      BindAddress.FormatBindAddr(addr, port as nat)
    }
  }

  /** The default builder listens on 127.0.0.1:8443, as does one bound there explicitly. */
  lemma DefaultBindAddr()
    ensures Api.New().GetBindAddr() == "127.0.0.1:8443"
    ensures Api.New().Bind("127.0.0.1", 8443).GetBindAddr() == "127.0.0.1:8443"
  {
    assert BindAddress.NatToDecimal(8443) == "8443";
  }

  /** The documented examples of `certs`, `auth_db` and `rate_limit`. */
  lemma DocumentedSetters()
    ensures Api.New().Certs("path/to/cert.pem", "path/to/key.pem").GetCertPath() == "path/to/cert.pem"
    ensures Api.New().Certs("path/to/cert.pem", "path/to/key.pem").GetKeyPath() == "path/to/key.pem"
    ensures Api.New().AuthDb("path/to/users.db").GetDbPath() == "path/to/users.db"
    ensures Api.New().RateLimit(5, 10).GetRateLimitPerSecond() == 5
    ensures Api.New().RateLimit(5, 10).GetRateLimitBurstSize() == 10
  {
  }

  /** The setters do no validation: a zero rate limit is stored as given. */
  lemma ZeroRateLimitStored(api: Api)
    ensures api.RateLimit(0, 0).GetRateLimit() == (0, 0)
  {
  }

  /** Builders that print the same bind address have the same address and port. */
  lemma BindAddrDeterminesAddrAndPort(a: Api, b: Api)
    ensures a.GetBindAddr() == b.GetBindAddr() ==> a.GetAddr() == b.GetAddr() && a.GetPort() == b.GetPort()
  {
  }

  // ---------------------------------------------------------------------
  // Setter calls as data, to state order properties over whole call chains.
  // ---------------------------------------------------------------------

  datatype Field =
    | CertPathField | KeyPathField | DbPathField | AddrField | PortField
    | RateLimitField | RoutesField | CorsField

  /** One call of a builder setter, with its arguments. */
  datatype Call =
    | SetCerts(cert: string, key: string)
    | SetAuthDb(path: string)
    | SetRateLimit(perSecond: u64, burstSize: u32)
    | SetBind(address: string, p: u16)
    | SetRoutes(routes: Routes)
    | SetCors(cors: nat)

  function Apply(api: Api, c: Call): (r: Api) {
    match c
    case SetCerts(cert, key) => api.Certs(cert, key)
    case SetAuthDb(path) => api.AuthDb(path)
    case SetRateLimit(ps, bs) => api.RateLimit(ps, bs)
    case SetBind(address, p) => api.Bind(address, p)
    case SetRoutes(routes) => api.ConfigureRoutes(routes)
    case SetCors(cors) => api.ConfigureCors(cors)
  }

  /** The fields a call overwrites. */
  function Targets(c: Call): (fields: set<Field>) {
    match c
    case SetCerts(_, _) => {CertPathField, KeyPathField}
    case SetAuthDb(_) => {DbPathField}
    case SetRateLimit(_, _) => {RateLimitField}
    case SetBind(_, _) => {AddrField, PortField}
    case SetRoutes(_) => {RoutesField}
    case SetCors(_) => {CorsField}
  }

  /** `a` and `b` hold the same value in field `f`. */
  predicate Agree(a: Api, b: Api, f: Field) {
    match f
    case CertPathField => a.certPath == b.certPath
    case KeyPathField => a.keyPath == b.keyPath
    case DbPathField => a.dbPath == b.dbPath
    case AddrField => a.addr == b.addr
    case PortField => a.port == b.port
    case RateLimitField => a.rateLimit == b.rateLimit
    case RoutesField => a.customRoutes == b.customRoutes
    case CorsField => a.customCors == b.customCors
  }

  /** A builder is nothing but its eight fields. */
  lemma Extensionality(a: Api, b: Api)
    requires forall f :: Agree(a, b, f)
    ensures a == b
  {
    assert Agree(a, b, CertPathField) && Agree(a, b, KeyPathField) && Agree(a, b, DbPathField);
    assert Agree(a, b, AddrField) && Agree(a, b, PortField) && Agree(a, b, RateLimitField);
    assert Agree(a, b, RoutesField) && Agree(a, b, CorsField);
  }

  /** A call leaves every field it does not target as it was. */
  lemma ApplyFrame(api: Api, c: Call, f: Field)
    requires f !in Targets(c)
    ensures Agree(Apply(api, c), api, f)
  {
  }

  /** A targeted field gets its value from the call's arguments alone. */
  lemma ApplyOverwrites(a: Api, b: Api, c: Call, f: Field)
    requires f in Targets(c)
    ensures Agree(Apply(a, c), Apply(b, c), f)
  {
  }

  /** Calling the same setter twice is the same as calling it once with the second arguments. */
  lemma LastWriteWins(api: Api, c1: Call, c2: Call)
    requires Targets(c1) == Targets(c2)
    ensures Apply(Apply(api, c1), c2) == Apply(api, c2)
  {
    forall f ensures Agree(Apply(Apply(api, c1), c2), Apply(api, c2), f) {
      if f in Targets(c2) {
        ApplyOverwrites(Apply(api, c1), api, c2, f);
      }
    }
    Extensionality(Apply(Apply(api, c1), c2), Apply(api, c2));
  }

  /** Setters that target disjoint fields commute. */
  lemma Commute(api: Api, c1: Call, c2: Call)
    requires Targets(c1) !! Targets(c2)
    ensures Apply(Apply(api, c1), c2) == Apply(Apply(api, c2), c1)
  {
    var a12 := Apply(Apply(api, c1), c2);
    var a21 := Apply(Apply(api, c2), c1);
    forall f ensures Agree(a12, a21, f) {
      if f in Targets(c1) {
        ApplyFrame(Apply(api, c1), c2, f);
        ApplyOverwrites(api, Apply(api, c2), c1, f);
      } else if f in Targets(c2) {
        ApplyOverwrites(Apply(api, c1), api, c2, f);
        ApplyFrame(Apply(api, c2), c1, f);
      } else {
        ApplyFrame(Apply(api, c1), c2, f);
        ApplyFrame(api, c1, f);
        ApplyFrame(Apply(api, c2), c1, f);
        ApplyFrame(api, c2, f);
      }
    }
    Extensionality(a12, a21);
  }

  /** A chain of setter calls, applied left to right as in `Api::new().certs(..).bind(..)`. */
  function ApplyAll(api: Api, calls: seq<Call>): (r: Api)
    decreases |calls|
  {
    if calls == [] then api else ApplyAll(Apply(api, calls[0]), calls[1..])
  }

  lemma {:induction false} ApplyAllAppend(api: Api, xs: seq<Call>, ys: seq<Call>)
    ensures ApplyAll(api, xs + ys) == ApplyAll(ApplyAll(api, xs), ys)
    decreases |xs|
  {
    if xs != [] {
      assert (xs + ys)[1..] == xs[1..] + ys;
      ApplyAllAppend(Apply(api, xs[0]), xs[1..], ys);
    } else {
      assert xs + ys == ys;
    }
  }

  /** Calls that do not target `f` leave it as it was, however many and in whatever order. */
  lemma {:induction false} ApplyAllFrame(api: Api, calls: seq<Call>, f: Field)
    requires forall i :: 0 <= i < |calls| ==> f !in Targets(calls[i])
    ensures Agree(ApplyAll(api, calls), api, f)
    decreases |calls|
  {
    if calls != [] {
      ApplyFrame(api, calls[0], f);
      ApplyAllFrame(Apply(api, calls[0]), calls[1..], f);
    }
  }

  /**
   * The last call that targets a field decides its value: whatever came
   * before, and whatever unrelated calls come after.
   */
  lemma LastWriterDecides(api: Api, before: seq<Call>, c: Call, after: seq<Call>, f: Field)
    requires f in Targets(c)
    requires forall i :: 0 <= i < |after| ==> f !in Targets(after[i])
    ensures Agree(ApplyAll(api, before + [c] + after), Apply(api, c), f)
  {
    var mid := ApplyAll(api, before + [c]);
    ApplyAllAppend(api, before + [c], after);
    ApplyAllAppend(api, before, [c]);
    ApplyAllFrame(mid, after, f);
    ApplyOverwrites(ApplyAll(api, before), api, c, f);
  }

  /** `certs(a, b)` reads back as `a` and `b` whatever unrelated setters run before or after it. */
  lemma CertsReadBack(api: Api, before: seq<Call>, cert: string, key: string, after: seq<Call>)
    requires forall i :: 0 <= i < |after| ==> !after[i].SetCerts?
    ensures ApplyAll(api, before + [SetCerts(cert, key)] + after).GetCertPath() == cert
    ensures ApplyAll(api, before + [SetCerts(cert, key)] + after).GetKeyPath() == key
  {
    LastWriterDecides(api, before, SetCerts(cert, key), after, CertPathField);
    LastWriterDecides(api, before, SetCerts(cert, key), after, KeyPathField);
  }
}
