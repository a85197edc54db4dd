/** The meta-client: one optional service client per service, built from
    per-service keys and base URLs, handed out by service with an error when
    absent, and closed all together. The environment it can be built from is a
    map from variable names to values. */
module Client {
  import opened Wrappers
  import opened Base
  import opened Services
  import Configuration

  // ---------------------------------------------------------------------------
  // What the constructor builds
  // ---------------------------------------------------------------------------

  /** An optional argument given as a map: absent means None. A value counts
      only when it is non-empty, as Python's truthiness has it. */
  predicate Given(args: map<Service, string>, s: Service)
  {
    s in args && args[s] != []
  }

  /** The base URL the client of `s` is built with: the given one when
      non-empty, else the service's default. */
  function UrlArgument(baseUrls: map<Service, string>, s: Service): string
  {
    if Given(baseUrls, s) then baseUrls[s] else DefaultBaseUrl(s)
  }

  /** The state of a freshly built service client. */
  function FreshState(apiKey: string, baseUrl: string): ClientState
  {
    ClientState(StripTrailingSlashes(baseUrl), apiKey, DefaultApiKeyHeader,
                InstalledHeaders(DefaultApiKeyHeader, apiKey), true)
  }

  /** The service clients the constructor builds, by service. */
  function Planned(apiKeys: map<Service, string>, baseUrls: map<Service, string>): (r: map<Service, ClientState>)
    ensures forall s :: s in r <==> Given(apiKeys, s)
    ensures forall s :: s in r ==> s in apiKeys && r[s].open && r[s].apiKey == apiKeys[s]
  {
    map s | Given(apiKeys, s) :: FreshState(apiKeys[s], UrlArgument(baseUrls, s))
  }

  /** A client is built exactly for the services with a non-empty key; it holds
      that key, sends it in the default header, is open, and its base URL is
      the given non-empty URL, or else the default, without trailing slashes. */
  lemma PlannedClients(apiKeys: map<Service, string>, baseUrls: map<Service, string>, s: Service)
    ensures s in Planned(apiKeys, baseUrls) <==> s in apiKeys && apiKeys[s] != []
    ensures s in Planned(apiKeys, baseUrls) ==>
              var st := Planned(apiKeys, baseUrls)[s];
              && st.apiKey == apiKeys[s] && st.open
              && st.headers[DefaultApiKeyHeader] == apiKeys[s]
              && st.baseUrl == StripTrailingSlashes(if s in baseUrls && baseUrls[s] != [] then baseUrls[s] else DefaultBaseUrl(s))
  {
    if s in Planned(apiKeys, baseUrls) {
      DefaultHeaderCarriesKey(apiKeys[s]);
    }
  }

  /** Two maps of client states with the same services and the same state for
      each are equal. */
  lemma SameStates(a: map<Service, ClientState>, b: map<Service, ClientState>)
    requires a.Keys == b.Keys
    requires forall s :: s in a ==> a[s] == b[s]
    ensures a == b
  {
  }

  /** The constructor's result depends only on which keys are given, their
      values and the URL each service ends up with. */
  lemma PlannedDependsOnArguments(apiKeys: map<Service, string>, baseUrls: map<Service, string>,
                                  apiKeys': map<Service, string>, baseUrls': map<Service, string>)
    requires forall s :: Given(apiKeys, s) <==> Given(apiKeys', s)
    requires forall s :: Given(apiKeys, s) && Given(apiKeys', s) ==>
                           apiKeys[s] == apiKeys'[s] && UrlArgument(baseUrls, s) == UrlArgument(baseUrls', s)
    ensures Planned(apiKeys, baseUrls) == Planned(apiKeys', baseUrls')
  {
    var p := Planned(apiKeys, baseUrls);
    var q := Planned(apiKeys', baseUrls');
    assert p.Keys == q.Keys;
    forall s | s in p ensures p[s] == q[s] {
    }
    SameStates(p, q);
  }

  /** A base URL without a non-empty key builds nothing, and an empty base URL
      is the same as none. */
  lemma BaseUrlAloneIgnored(apiKeys: map<Service, string>, baseUrls: map<Service, string>, s: Service)
    ensures !Given(apiKeys, s) ==> Planned(apiKeys, baseUrls) == Planned(apiKeys, baseUrls - {s})
    ensures Planned(apiKeys, baseUrls[s := ""]) == Planned(apiKeys, baseUrls - {s})
  {
    if !Given(apiKeys, s) {
      forall t | Given(apiKeys, t) ensures UrlArgument(baseUrls, t) == UrlArgument(baseUrls - {s}, t) {
      }
      PlannedDependsOnArguments(apiKeys, baseUrls, apiKeys, baseUrls - {s});
    }
    forall t ensures UrlArgument(baseUrls[s := ""], t) == UrlArgument(baseUrls - {s}, t) {
    }
    PlannedDependsOnArguments(apiKeys, baseUrls[s := ""], apiKeys, baseUrls - {s});
  }

  /** The arguments of one service never change another service's client. */
  lemma PlannedIndependent(apiKeys: map<Service, string>, baseUrls: map<Service, string>, s: Service, t: Service, key: string, url: string)
    requires s != t
    ensures s in Planned(apiKeys[t := key], baseUrls[t := url]) <==> s in Planned(apiKeys, baseUrls)
    ensures s in Planned(apiKeys, baseUrls) ==>
              Planned(apiKeys[t := key], baseUrls[t := url])[s] == Planned(apiKeys, baseUrls)[s]
  {
  }

  /** With only a darkship key and no base URLs, only darkship gets a client,
      on its default URL. */
  lemma OnlyDarkshipKey(key: string)
    requires key != []
    ensures Planned(map[Darkship := key], map[]).Keys == {Darkship}
    ensures Planned(map[Darkship := key], map[])[Darkship].baseUrl == DefaultBaseUrl(Darkship)
  {
    var p := Planned(map[Darkship := key], map[]);
    forall s ensures s in p <==> s == Darkship {
    }
    assert p[Darkship].baseUrl == StripTrailingSlashes(DefaultBaseUrl(Darkship));
    DefaultBaseUrlStoredUnchanged(Darkship);
  }

  /** Closing every client: each state closed, nothing else changed. */
  function ClosedAll(states: map<Service, ClientState>): (r: map<Service, ClientState>)
    ensures r.Keys == states.Keys
    ensures forall s :: s in r ==> !r[s].open
  {
    map s | s in states :: states[s].(open := false)
  }

  /** After closing all, the same services have clients, none is open, and
      closing all again changes nothing. */
  lemma ClosedAllProperties(states: map<Service, ClientState>)
    ensures ClosedAll(states).Keys == states.Keys
    ensures forall s :: s in states ==> !ClosedAll(states)[s].open
    ensures forall s :: s in states ==> ClosedAll(states)[s].(open := true) == states[s].(open := true)
    ensures ClosedAll(ClosedAll(states)) == ClosedAll(states)
  {
  }

  // ---------------------------------------------------------------------------
  // Errors
  // ---------------------------------------------------------------------------

  /** The name a service has in its client's error message. */
  function DisplayName(s: Service): string
  {
    match s
    case Darkship => "Darkship"
    case Darkstorage => "Darkstorage"
    case Shipshack => "Shipshack"
    case Models2Go => "Models2Go"
    case Hostscience => "Hostscience"
    case Aiserve => "Aiserve"
  }

  /** The keyword argument a caller passes the key of `s` as. */
  function KeyArgument(s: Service): string
  {
    Name(s) + "_api_key"
  }

  /** The ValueError raised when the client of `s` was not built. */
  function NotInitialized(s: Service): string
  {
    DisplayName(s) + " client not initialized. Provide " + KeyArgument(s) + " during initialization."
  }

  /** The message tells which argument was missing, and each service has its
      own message. */
  lemma NotInitializedNamesArgument(s: Service, t: Service)
    ensures var m := NotInitialized(s);
            var i := |DisplayName(s)| + |" client not initialized. Provide "|;
            m[i..i + |KeyArgument(s)|] == KeyArgument(s)
    ensures s != t ==> NotInitialized(s) != NotInitialized(t)
  {
    var m := NotInitialized(s);
    assert m == DisplayName(s) + " client not initialized. Provide " + KeyArgument(s) + " during initialization.";
    if s != t {
      if |DisplayName(s)| != |DisplayName(t)| {
        assert |NotInitialized(s)| != |NotInitialized(t)|;
      } else {
        assert NotInitialized(s)[0] == DisplayName(s)[0] && NotInitialized(t)[0] == DisplayName(t)[0];
        assert DisplayName(s)[0] != DisplayName(t)[0];
      }
    }
  }

  // ---------------------------------------------------------------------------
  // The meta-client
  // ---------------------------------------------------------------------------

  /** The services in `done` with a non-empty key are exactly those built. */
  predicate BuiltExactly(apiKeys: map<Service, string>, done: set<Service>, built: map<Service, BaseClient>)
  {
    forall s :: s in built <==> s in done && Given(apiKeys, s)
  }

  /** Every client built is in its initial state for its service. */
  predicate BuiltFresh(apiKeys: map<Service, string>, baseUrls: map<Service, string>, built: map<Service, BaseClient>)
    reads built.Values
  {
    forall s :: s in built ==> Given(apiKeys, s) && built[s].State() == FreshState(apiKeys[s], UrlArgument(baseUrls, s))
  }

  /** No two services share a client. */
  predicate Unshared(built: map<Service, BaseClient>)
  {
    forall s, t :: s in built && t in built && s != t ==> built[s] != built[t]
  }

  /** What the constructor has built once the services in `done` are handled. */
  predicate BuiltFor(apiKeys: map<Service, string>, baseUrls: map<Service, string>, done: set<Service>,
                     built: map<Service, BaseClient>)
    reads built.Values
  {
    BuiltExactly(apiKeys, done, built) && BuiltFresh(apiKeys, baseUrls, built) && Unshared(built)
  }

  /** Once every service is handled, a client is built exactly for the
      services with a non-empty key. */
  lemma BuiltForEveryService(apiKeys: map<Service, string>, built: map<Service, BaseClient>)
    requires BuiltExactly(apiKeys, EveryService, built)
    ensures forall s :: s in built <==> Given(apiKeys, s)
  {
    forall s ensures s in EveryService {
      match s
      case Darkship =>
      case Darkstorage =>
      case Shipshack =>
      case Models2Go =>
      case Hostscience =>
      case Aiserve =>
    }
  }

  /** The snapshot of a meta-client built for every service holds the
      planned clients. */
  lemma SnapshotIsPlanned(a: AftershipStorage, apiKeys: map<Service, string>, baseUrls: map<Service, string>)
    requires forall s :: s in a.handles <==> Given(apiKeys, s)
    requires BuiltFresh(apiKeys, baseUrls, a.handles)
    ensures a.Snapshot() == Planned(apiKeys, baseUrls)
  {
    var p := Planned(apiKeys, baseUrls);
    assert a.Snapshot().Keys == p.Keys;
    forall s | s in p ensures a.Snapshot()[s] == p[s] {
    }
    SameStates(a.Snapshot(), p);
  }

  /** The client of `s` built with the `kwargs` of the meta-client's
      constructor: the base URL is passed only when it is non-empty. */
  method BuildOne(s: Service, apiKey: string, baseUrls: map<Service, string>) returns (client: BaseClient)
    ensures fresh(client)
    ensures client.State() == FreshState(apiKey, UrlArgument(baseUrls, s))
  {
    if s in baseUrls && baseUrls[s] != [] {
      client := NewServiceClient(s, apiKey, baseUrls[s]);
    } else {
      client := NewServiceClient(s, apiKey);
    }
  }

  /** Adding a service not yet handled that has a non-empty key keeps the
      built services exactly those handled with a key. */
  lemma AddedExactly(apiKeys: map<Service, string>, done: set<Service>, built: map<Service, BaseClient>,
                     s: Service, client: BaseClient)
    requires BuiltExactly(apiKeys, done, built) && Given(apiKeys, s)
    ensures BuiltExactly(apiKeys, done + {s}, built[s := client])
  {
  }

  /** Adding a client in its initial state keeps every built client in its
      initial state. */
  lemma AddedFresh(apiKeys: map<Service, string>, baseUrls: map<Service, string>,
                   built: map<Service, BaseClient>, s: Service, client: BaseClient)
    requires BuiltFresh(apiKeys, baseUrls, built) && Given(apiKeys, s)
    requires client.State() == FreshState(apiKeys[s], UrlArgument(baseUrls, s))
    ensures BuiltFresh(apiKeys, baseUrls, built[s := client])
  {
  }

  /** Adding a client no service has yet, for a service not yet built, keeps
      the clients unshared. */
  lemma AddedUnshared(built: map<Service, BaseClient>, s: Service, client: BaseClient)
    requires Unshared(built) && s !in built && client !in built.Values
    ensures Unshared(built[s := client])
  {
  }

  /** One `if <service>_api_key:` step of the meta-client's constructor: with a
      non-empty key, a fresh client for `s`; otherwise nothing. */
  method AddClient(s: Service, apiKeys: map<Service, string>, baseUrls: map<Service, string>,
                   ghost done: set<Service>, built: map<Service, BaseClient>) returns (built': map<Service, BaseClient>)
    requires BuiltFor(apiKeys, baseUrls, done, built) && s !in done
    ensures BuiltFor(apiKeys, baseUrls, done + {s}, built')
    ensures forall t :: t in built ==> t in built' && built'[t] == built[t]
    ensures s in built' ==> fresh(built'[s])
  {
    built' := built;
    if s in apiKeys && apiKeys[s] != [] {
      assert s !in built;
      var client := BuildOne(s, apiKeys[s], baseUrls);
      assert client !in built.Values;
      built' := built'[s := client];
      AddedExactly(apiKeys, done, built, s, client);
      AddedFresh(apiKeys, baseUrls, built, s, client);
      AddedUnshared(built, s, client);
    }
  }

  /** The services the first three steps of the constructor handle. */
  const FirstThree: set<Service> := {} + {Darkship} + {Darkstorage} + {Shipshack}

  /** Every service, in the order the constructor handles them. */
  const EveryService: set<Service> := FirstThree + {Models2Go} + {Hostscience} + {Aiserve}

  /** The constructor's steps for darkship, darkstorage and shipshack. */
  method BuildFirstThree(apiKeys: map<Service, string>, baseUrls: map<Service, string>)
      returns (built: map<Service, BaseClient>)
    ensures BuiltFor(apiKeys, baseUrls, FirstThree, built)
    ensures forall t :: t in built ==> fresh(built[t])
  {
    built := map[];
    ghost var done: set<Service> := {};
    built := AddClient(Darkship, apiKeys, baseUrls, done, built);
    done := done + {Darkship};
    built := AddClient(Darkstorage, apiKeys, baseUrls, done, built);
    done := done + {Darkstorage};
    built := AddClient(Shipshack, apiKeys, baseUrls, done, built);
  }

  /** The constructor's steps for models2go, hostscience and aiserve. */
  method BuildLastThree(apiKeys: map<Service, string>, baseUrls: map<Service, string>,
                        built: map<Service, BaseClient>) returns (built': map<Service, BaseClient>)
    requires BuiltFor(apiKeys, baseUrls, FirstThree, built)
    ensures BuiltFor(apiKeys, baseUrls, EveryService, built')
    ensures forall t :: t in built' ==> (t in built && built'[t] == built[t]) || fresh(built'[t])
  {
    ghost var done := FirstThree;
    built' := AddClient(Models2Go, apiKeys, baseUrls, done, built);
    done := done + {Models2Go};
    built' := AddClient(Hostscience, apiKeys, baseUrls, done, built');
    done := done + {Hostscience};
    built' := AddClient(Aiserve, apiKeys, baseUrls, done, built');
  }

  /** All six steps of the constructor: a fresh client for exactly the
      services with a non-empty key, each in its initial state and none shared. */
  method BuildAll(apiKeys: map<Service, string>, baseUrls: map<Service, string>)
      returns (built: map<Service, BaseClient>)
    ensures forall s :: s in built <==> Given(apiKeys, s)
    ensures BuiltFresh(apiKeys, baseUrls, built) && Unshared(built)
    ensures forall s :: s in built ==> fresh(built[s])
  {
    var first := BuildFirstThree(apiKeys, baseUrls);
    built := BuildLastThree(apiKeys, baseUrls, first);
    BuiltForEveryService(apiKeys, built);
  }

  class AftershipStorage {
    /** The service clients that were built: the services absent here are None. */
    const handles: map<Service, BaseClient>

    /** The state of every service client that was built. */
    function Snapshot(): map<Service, ClientState>
      reads this, handles.Values
    {
      map s | s in handles :: handles[s].State()
    }

    /** Every service has its own client. */
    predicate Distinct()
      reads this
    {
      forall s, t :: s in handles && t in handles && s != t ==> handles[s] != handles[t]
    }

    /** Builds a client for every service with a non-empty key, with the given
        base URL when that is non-empty and the service's default otherwise. */
    constructor (apiKeys: map<Service, string>, baseUrls: map<Service, string>)
      ensures Snapshot() == Planned(apiKeys, baseUrls)
      ensures Distinct()
      ensures forall s :: s in handles ==> fresh(handles[s])
    {
      var built := BuildAll(apiKeys, baseUrls);
      handles := built;
      new;
      SnapshotIsPlanned(this, apiKeys, baseUrls);
    }

    /** The property of service `s`: its client, or the ValueError naming the
        missing argument. */
    function Client(s: Service): (r: Result<BaseClient, string>)
      reads this
      ensures r.Ok? <==> s in handles
      ensures r.Ok? ==> r.value == handles[s]
      ensures r.Err? ==> r.error == NotInitialized(s)
    {
      if s in handles then Ok(handles[s]) else Err(NotInitialized(s))
    }

    /** Closes the session of every client that was built. */
    method CloseAll()
      modifies handles.Values
      ensures Snapshot() == ClosedAll(old(Snapshot()))
    {
      for i := 0 to |AllServices|
        invariant forall s :: s in handles ==>
                    handles[s].State().(open := false) == old(handles[s].State()).(open := false)
        invariant forall j :: 0 <= j < i && AllServices[j] in handles ==> !handles[AllServices[j]].open
      {
        var s := AllServices[i];
        if s in handles {
          handles[s].Close();
        }
      }
      AllServicesListsEachOnce();
      forall s | s in handles ensures !handles[s].open {
        assert s in AllServices;
        var j :| 0 <= j < |AllServices| && AllServices[j] == s;
      }
    }

    /** Context manager entry: the meta-client itself. */
    method Enter() returns (self: AftershipStorage)
      ensures self == this
    {
      self := this;
    }

    /** Context manager exit: closes every client and does not suppress the
        exception. */
    method Exit() returns (suppress: bool)
      modifies handles.Values
      ensures Snapshot() == ClosedAll(old(Snapshot()))
      ensures !suppress
    {
      CloseAll();
      suppress := false;
    }
  }

  // ---------------------------------------------------------------------------
  // Building from the environment
  // ---------------------------------------------------------------------------

  /** The keys from_env passes: the `<SERVICE>_API_KEY` variables that are set. */
  function EnvKeys(env: Configuration.Environment): (r: map<Service, string>)
    ensures forall s :: Configuration.GetEnv(env, Configuration.ApiKeyVariable(s)) == (if s in r then Some(r[s]) else None)
  {
    map s | Configuration.ApiKeyVariable(s) in env :: env[Configuration.ApiKeyVariable(s)]
  }

  /** The base URLs from_env passes: the `<SERVICE>_BASE_URL` variables that
      are set. */
  function EnvBaseUrls(env: Configuration.Environment): (r: map<Service, string>)
    ensures forall s :: Configuration.GetEnv(env, Configuration.BaseUrlVariable(s)) == (if s in r then Some(r[s]) else None)
  {
    map s | Configuration.BaseUrlVariable(s) in env :: env[Configuration.BaseUrlVariable(s)]
  }

  /** AftershipStorage.from_env: the constructor applied to the environment's
      variables. */
  method FromEnv(env: Configuration.Environment) returns (client: AftershipStorage)
    ensures fresh(client)
    ensures client.Snapshot() == Planned(EnvKeys(env), EnvBaseUrls(env))
    ensures client.Distinct()
    ensures forall s :: s in client.handles ==> fresh(client.handles[s])
  {
    client := new AftershipStorage(EnvKeys(env), EnvBaseUrls(env));
  }

  /** From the environment a service gets a client exactly when its key
      variable is set and non-empty; the client holds the key the
      configuration's resolution falls back to, and the base URL it resolves
      to when the configuration is empty. */
  lemma FromEnvMatchesResolution(env: Configuration.Environment, s: Service)
    ensures s in Planned(EnvKeys(env), EnvBaseUrls(env)) <==>
              Configuration.Truthy(Configuration.GetEnv(env, Configuration.ApiKeyVariable(s)))
    ensures s in Planned(EnvKeys(env), EnvBaseUrls(env)) ==>
              && Some(Planned(EnvKeys(env), EnvBaseUrls(env))[s].apiKey)
                   == Configuration.DefaultConfig.ResolveApiKey(s, env)
              && Planned(EnvKeys(env), EnvBaseUrls(env))[s].baseUrl
                   == StripTrailingSlashes(Configuration.DefaultConfig.ResolveBaseUrl(s, DefaultBaseUrl(s), env))
  {
    var c := Configuration.DefaultConfig;
    assert c.Section(s) == Configuration.EmptyService && c.AccountApiKey() == None;
    assert UrlArgument(EnvBaseUrls(env), s) == c.ResolveBaseUrl(s, DefaultBaseUrl(s), env);
  }
}
