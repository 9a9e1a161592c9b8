# rusty_api server bootstrap — a Dafny model

This project models the two parts of the `rusty_api` crate that hold logic:

- the fluent server builder `Api` (`src/api.rs`). `Api::new` sets fixed defaults. The setters
  `certs`, `auth_db`, `rate_limit`, `bind`, `configure_routes` and `configure_cors` each overwrite
  their own fields and hand the builder back. The getters read the fields, and `get_bind_addr`
  formats `addr:port`;
- `load_rustls_config` (`src/core/config.rs`), the three-stage cascade that turns a certificate
  file and a key file into a rustls `ServerConfig`. The stages are the certificate chain, then
  the private key, then the TLS builder. It returns `None` at the first stage that fails.

Files:

- `wrappers.dfy`: module `Wrappers`, the `Option` and `Result` values the Rust code returns.
- `bind_address.dfy`: module `BindAddress`. It models `format!("{}:{}", addr, port)`:
  canonical decimal formatting of the port (`NatToDecimal`), and its inverses `DecimalValue`
  and `ParseBindAddr`.
- `api.dfy`: module `ApiBuilder`, the builder. `Api` is an immutable datatype. Every Rust
  setter takes `mut self` by value and returns it, so the caller's old binding is moved and
  nothing can observe the old value; a record update behaves the same. The `u16`, `u32` and
  `u64` widths of port and rate limit are newtypes. The two closure fields are opaque tokens:
  `Routes(id)`, and `CorsFactory` (`DefaultCors` or `CustomCors(id)`). The model keeps only
  which token is stored. Setter calls are also written as data (`Call`, `Apply`, `ApplyAll`),
  so that order properties over whole call chains can be stated.
- `tls_config.dfy`: module `TlsConfig`, the loading cascade as a pure function. Its inputs are
  the outcomes of the library calls:
  - the certificate file is an error, or the per-block parse outcomes in file order;
  - the key file is a key or an error;
  - the builder is a total function from the request it is given to a config or an error.

  Each `println!` on an early return is modelled as the `Diagnostic` it reports. That makes
  visible which stage decided the result.

Behaviour of the code worth knowing:

- A malformed PEM block does not fail the load: `flatten()` drops it, and a file whose blocks
  all fail to parse ends in the "no certificates" branch (`Flatten`, `EmptyChainGivesNone`).
- The setters never validate the rate limit: `(0, 0)` is stored as given (`ZeroRateLimitStored`).
  The only check is the governor's `unwrap` inside `start`, which is not part of this model.
- The default CORS factory is the closure returning `Cors::default()`. It is modelled as the
  token `DefaultCors`; what that policy allows is library behaviour and is not modelled.

## Model

| member | source | states |
|---|---|---|
| ApiBuilder.Api.New | src/api.rs:32-43 | Defaults: cert path "certs/cert.pem", key path "certs/key.pem", db path "users.db", address "127.0.0.1", port 8443, rate limit (3, 20), no custom routes, the default CORS factory |
| ApiBuilder.Api.Certs | src/api.rs:62-66 | Cert and key paths read back as the arguments; db path, address, port, rate limit, routes and CORS are unchanged |
| ApiBuilder.Api.AuthDb | src/api.rs:83-86 | The db path reads back as the argument; every other field is unchanged |
| ApiBuilder.Api.RateLimit | src/api.rs:105-108 | The per-second and burst getters return the arguments as given; every other field is unchanged |
| ApiBuilder.Api.Bind | src/api.rs:126-130 | Address and port read back as the arguments; every other field is unchanged |
| ApiBuilder.Api.ConfigureRoutes | src/api.rs:133-136 | The stored routes become `Some(routes)`, replacing any earlier ones; paths, address, port, rate limit and CORS are unchanged |
| ApiBuilder.Api.ConfigureCors | src/api.rs:157-163 | The CORS factory is replaced by the given one; paths, address, port, rate limit and routes are unchanged |
| ApiBuilder.Api.GetRateLimit | src/api.rs:210-213 | The pair's components equal what the per-second and burst-size getters return |
| ApiBuilder.Api.GetBindAddr | src/api.rs:211 | The result is the address, then ':', then the port as a canonical decimal numeral; parsing it back gives the address and port |
| ApiBuilder.DefaultBindAddr | src/api.rs:123-124 | The default builder's bind address is "127.0.0.1:8443", and so is that of `bind("127.0.0.1", 8443)` |
| ApiBuilder.DocumentedSetters | src/api.rs:58-103 | The documented examples of `certs`, `auth_db` and `rate_limit` read back their arguments |
| ApiBuilder.ZeroRateLimitStored | src/api.rs:105-108 | `rate_limit(0, 0)` is stored without validation |
| ApiBuilder.BindAddrDeterminesAddrAndPort | src/api.rs:211 | Two builders with the same bind address string have the same address and port |
| ApiBuilder.Extensionality | src/api.rs:9-18 | Builders that agree on all eight fields are equal |
| ApiBuilder.ApplyFrame | src/api.rs:62-163 | A setter call leaves every field it does not target unchanged |
| ApiBuilder.ApplyOverwrites | src/api.rs:62-163 | The value a setter writes depends only on its arguments, not on the earlier state |
| ApiBuilder.LastWriteWins | src/api.rs:62-163 | Calling the same setter twice equals calling it once with the second arguments |
| ApiBuilder.Commute | src/api.rs:62-163 | Setters that target disjoint fields commute |
| ApiBuilder.ApplyAllAppend | src/api.rs:62-163 | Running a chain of calls in two parts equals running it at once |
| ApiBuilder.ApplyAllFrame | src/api.rs:62-163 | Any chain of calls that never targets a field leaves it unchanged |
| ApiBuilder.LastWriterDecides | src/api.rs:62-163 | A field's final value is the one written by the last call that targets it, whatever ran before |
| ApiBuilder.CertsReadBack | src/api.rs:58-66 | After `certs(a, b)`, the cert and key paths read `a` and `b`, whatever unrelated setters ran before or after |
| BindAddress.NatToDecimal | src/api.rs:211 | The port is formatted as a canonical decimal numeral: digits only, no leading zero, and "0" exactly for zero |
| BindAddress.DecimalRoundTrip | src/api.rs:211 | Reading the formatted numeral back gives the number |
| BindAddress.CanonicalDecimalRoundTrip | src/api.rs:211 | Every canonical numeral is the formatting of the number it denotes |
| BindAddress.DecimalInjective | src/api.rs:211 | Different ports are formatted differently |
| BindAddress.PortDigits | src/api.rs:209-211 | A `u16` port takes one to five digits |
| BindAddress.FormatBindAddr | src/api.rs:211 | The result is the address, then ':', then a canonical numeral whose value is the port |
| BindAddress.SplitAtLastColon | src/api.rs:211 | Inverse used to show `get_bind_addr` loses nothing (the source never parses an address): splits a string at its last colon, leaving a colon-free tail |
| BindAddress.SplitAtLastColonOf | src/api.rs:211 | Inverse used to show `get_bind_addr` loses nothing (the source never parses an address): a host, ':' and a colon-free tail split back into exactly that host and tail |
| BindAddress.ParseBindAddr | src/api.rs:211 | Inverse of `get_bind_addr` (the source never parses an address): anything it parses formats back to the same string, with a port below 2^16 |
| BindAddress.BindAddrRoundTrip | src/api.rs:211 | Formatting an address and port, then parsing, gives them back, even when the host contains colons |
| TlsConfig.Flatten | src/core/config.rs:14-15 | A certificate is in the chain exactly when some block parsed to it, and the chain is no longer than the file; order and multiplicity are fixed by `FlattenAppend` and `FlattenSingle` |
| TlsConfig.FlattenAppend | src/core/config.rs:14-15 | Flattening distributes over concatenation, so the chain keeps file order |
| TlsConfig.FlattenSingle | src/core/config.rs:14-15 | A parsed block contributes its certificate; a failed block contributes nothing |
| TlsConfig.FlattenAllOk | src/core/config.rs:14-15 | When all k blocks parse, the chain is exactly those k certificates in order |
| TlsConfig.FlattenEmpty | src/core/config.rs:14-20 | The chain is empty if and only if no block parsed |
| TlsConfig.CertStage | src/core/config.rs:14-26 | The certificate stage passes, with the flattened chain, if and only if the file is readable and that chain is non-empty; otherwise it reports the file error or "no certificates" |
| TlsConfig.LoadRustlsConfigLogged | src/core/config.rs:9-48 | Exactly one of the config and the diagnostic is present |
| TlsConfig.LoadRustlsConfig | src/core/config.rs:9-48 | `Some` if and only if the chain is non-empty, the key loaded and the builder accepted that chain and key with no client auth; the config is the builder's |
| TlsConfig.CertFileErrorGivesNone | src/core/config.rs:22-25 | An unreadable certificate file gives None and the PEM-file diagnostic, whatever the key and builder |
| TlsConfig.EmptyChainGivesNone | src/core/config.rs:17-20 | A file in which no block parses gives None and the "no certificates" diagnostic |
| TlsConfig.KeyErrorGivesNone | src/core/config.rs:29-34 | With a usable chain, a key that cannot be loaded gives None and the "no private key" diagnostic |
| TlsConfig.BuildErrorGivesNone | src/core/config.rs:43-46 | A builder error gives None and reports that error; no partial config |
| TlsConfig.CertStageShortCircuits | src/core/config.rs:14-26 | When the certificate stage fails, the result does not depend on the key or the builder |
| TlsConfig.KeyStageShortCircuits | src/core/config.rs:29-35 | When the key fails to load, the result does not depend on the builder |
| TlsConfig.BuilderConsultedOnce | src/core/config.rs:38-47 | The builder is consulted only on the request (no client auth, flattened chain, loaded key); builders that agree there give the same result |
| TlsConfig.FullChainLoads | src/core/config.rs:14-42 | k blocks that all parse, a loaded key and an accepting builder give the builder's config for exactly those k certificates in file order |

## Left out

- `Api::start` (src/api.rs:166-203) is not part of this model. It covers the actix runtime,
  worker spawning, the TLS listener, the Governor and CORS middleware, and the process aborts
  of its `expect` and `unwrap`. It is foreign-library and network plumbing.
- Token-bucket admission: the crate only configures `actix_governor`; the limiter itself is
  library code.
- PEM/DER parsing and rustls `ServerConfig` construction are library calls. They appear only
  as input outcomes: a per-block parse result, a key result, and a builder function.
- How the PEM reader behaves after a malformed block is also library behaviour. The model
  takes the per-block outcome sequence as given.
- All `println!` output is out of scope. Only which message an early return prints is kept,
  as `Diagnostic`. The error texts are not modelled.
- `crate::routes::Routes` and `actix_cors::Cors` are not part of this model. They are opaque
  tokens; what `Routes::configure` registers and what the CORS policy allows are not modelled.
- `get_cert_path`, `get_key_path`, `get_db_path`, `get_addr`, `get_port`,
  `get_rate_limit_per_second` and `get_rate_limit_burst_size` are plain field reads. They
  carry no contract of their own and are described through the setter contracts
  that use them.
