/** The six services the library addresses, each with its attribute name and
    its default base URL, and the one constructor the six service client
    classes share: each only hands its default URL and the key to BaseClient. */
module Services {
  import opened Wrappers
  import opened Base

  datatype Service = Darkship | Darkstorage | Shipshack | Models2Go | Hostscience | Aiserve

  /** The services in the order the library lists them. */
  const AllServices: seq<Service> := [Darkship, Darkstorage, Shipshack, Models2Go, Hostscience, Aiserve]

  /** The lower-case name a service goes by: its configuration section, its
      attribute on the meta-client and the prefix of its arguments. */
  function Name(s: Service): string
  {
    match s
    case Darkship => "darkship"
    case Darkstorage => "darkstorage"
    case Shipshack => "shipshack"
    case Models2Go => "models2go"
    case Hostscience => "hostscience"
    case Aiserve => "aiserve"
  }

  /** The host of each service's default base URL. */
  function DefaultHost(s: Service): string
  {
    match s
    case Darkship => "api.darkship.io"
    case Darkstorage => "api.darkstorage.io"
    case Shipshack => "api.shipshack.io"
    case Models2Go => "api.models2go.com"
    case Hostscience => "api.hostscience.io"
    case Aiserve => "api.aiserve.farm"
  }

  /** The base URL a service client uses when none is given: the https origin
      of the service's host. */
  function DefaultBaseUrl(s: Service): (url: string)
    ensures url != [] && url[|url| - 1] != '/'
  {
    "https://" + DefaultHost(s)
  }

  /** Builds the client of service `s`: the given base URL, or the service's
      default, and the default key header, which no service client overrides. */
  method NewServiceClient(s: Service, apiKey: string, baseUrl: string := DefaultBaseUrl(s)) returns (c: BaseClient)
    ensures fresh(c)
    ensures c.State() == ClientState(StripTrailingSlashes(baseUrl), apiKey, DefaultApiKeyHeader,
                                     InstalledHeaders(DefaultApiKeyHeader, apiKey), true)
  {
    c := new BaseClient(baseUrl, apiKey);
  }

  /** AllServices lists every service exactly once. */
  lemma AllServicesListsEachOnce()
    ensures forall s :: s in AllServices
    ensures |AllServices| == 6
    ensures forall i, j :: 0 <= i < j < |AllServices| ==> AllServices[i] != AllServices[j]
  {
    forall s ensures s in AllServices {
      match s
      case Darkship => assert AllServices[0] == s;
      case Darkstorage => assert AllServices[1] == s;
      case Shipshack => assert AllServices[2] == s;
      case Models2Go => assert AllServices[3] == s;
      case Hostscience => assert AllServices[4] == s;
      case Aiserve => assert AllServices[5] == s;
    }
  }

  /** Distinct services have distinct names. */
  lemma NameInjective(s: Service, t: Service)
    ensures Name(s) == Name(t) ==> s == t
  {
    if s != t {
      assert |Name(s)| != |Name(t)| || Name(s)[0] != Name(t)[0];
    }
  }

  /** A default base URL is stored as it is: it has no trailing slash to strip. */
  lemma DefaultBaseUrlStoredUnchanged(s: Service)
    ensures StripTrailingSlashes(DefaultBaseUrl(s)) == DefaultBaseUrl(s)
  {
  }

  /** Every default base URL is an https origin, so endpoints are joined onto it
      as modelled. */
  lemma DefaultBaseUrlJoinable(s: Service)
    ensures SplitUri(DefaultBaseUrl(s) + "/") == Some(UriParts("https", DefaultHost(s), "/"))
  {
    var host := DefaultHost(s);
    assert forall i :: 0 <= i < |host| ==> AuthorityChar(host[i]);
    HttpsOriginSplits(host);
  }
}
