/** The scoped overrides of the platform client's global configuration:
    `with_connection` (core_api/connection.py) and `with_credentials`
    (core_api/credentials.py). The global is an explicit value; the body
    of the `with` block is a function from the configuration it sees to
    the configuration it leaves and its outcome. */
module Scoped {
  import opened Wrappers

  /** The fields of the client's `Config` the overrides touch; `others`
      stands for every other field. */
  datatype Config = Config(hostPort: string, coreUsername: string, corePassword: string, others: map<string, string>)

  /** How the body of a `with` block ends: normally with a value, or by
      raising. */
  datatype Outcome<T> = Returned(value: T) | Raised(error: Error)

  /** `url` with a trailing `/`, added only when missing. */
  function Normalize(url: string): (r: string)
    ensures |r| > 0 && r[|r| - 1] == '/'
    ensures |url| > 0 && url[|url| - 1] == '/' ==> r == url
    ensures !(|url| > 0 && url[|url| - 1] == '/') ==> r == url + "/"
  {
    if |url| > 0 && url[|url| - 1] == '/' then url else url + "/"
  }

  /** Normalising twice is normalising once. */
  lemma NormalizeIdempotent(url: string)
    ensures Normalize(Normalize(url)) == Normalize(url)
  {
  }

  /** `with with_connection(url): body`: the configuration the body sees,
      and the configuration and outcome after the block. */
  function WithConnection<T>(cfg: Config, url: string, body: Config -> (Config, Outcome<T>)):
    (r: (Config, Config, Outcome<T>))
    ensures r.0 == cfg.(hostPort := Normalize(url))
    ensures r.1 == body(r.0).0.(hostPort := cfg.hostPort)
    ensures r.2 == body(r.0).1
  {
    var inside := cfg.(hostPort := Normalize(url));
    var (after, outcome) := body(inside);
    (inside, after.(hostPort := cfg.hostPort), outcome)
  }

  /** Inside the block the host ends with `/` and nothing else differs; on
      any exit, returned or raised, the host is the one before the block. */
  lemma ConnectionRestored<T>(cfg: Config, url: string, body: Config -> (Config, Outcome<T>))
    ensures var r := WithConnection(cfg, url, body);
      && r.0.hostPort == Normalize(url)
      && r.0.coreUsername == cfg.coreUsername && r.0.corePassword == cfg.corePassword
      && r.0.others == cfg.others
      && r.1.hostPort == cfg.hostPort
  {
  }

  /** A body that leaves the configuration alone leaves, after the block,
      exactly the configuration before it. */
  lemma ConnectionRoundTrip<T>(cfg: Config, url: string, body: Config -> (Config, Outcome<T>))
    requires forall c :: body(c).0 == c
    ensures WithConnection(cfg, url, body).1 == cfg
  {
  }

  /** `with with_credentials(auth) as a: body`: the body is given the
      configuration with the two credential fields set, and `auth` itself. */
  function WithCredentials<T>(cfg: Config, auth: (string, string),
                              body: (Config, (string, string)) -> (Config, Outcome<T>)):
    (r: (Config, Config, Outcome<T>))
    ensures r.0 == cfg.(coreUsername := auth.0, corePassword := auth.1)
    ensures r.1 == body(r.0, auth).0.(coreUsername := cfg.coreUsername, corePassword := cfg.corePassword)
    ensures r.2 == body(r.0, auth).1
  {
    var inside := cfg.(coreUsername := auth.0, corePassword := auth.1);
    var (after, outcome) := body(inside, auth);
    (inside, after.(coreUsername := cfg.coreUsername, corePassword := cfg.corePassword), outcome)
  }

  /** Inside the block the credentials are `auth` and nothing else
      differs; on any exit both fields are back to their values before. */
  lemma CredentialsRestored<T>(cfg: Config, auth: (string, string),
                               body: (Config, (string, string)) -> (Config, Outcome<T>))
    ensures var r := WithCredentials(cfg, auth, body);
      && r.0.coreUsername == auth.0 && r.0.corePassword == auth.1
      && r.0.hostPort == cfg.hostPort && r.0.others == cfg.others
      && r.1.coreUsername == cfg.coreUsername && r.1.corePassword == cfg.corePassword
  {
  }

  /** A body that leaves the configuration alone leaves, after the block,
      exactly the configuration before it. */
  lemma CredentialsRoundTrip<T>(cfg: Config, auth: (string, string),
                                body: (Config, (string, string)) -> (Config, Outcome<T>))
    requires forall c, a :: body(c, a).0 == c
    ensures WithCredentials(cfg, auth, body).1 == cfg
  {
  }
}
