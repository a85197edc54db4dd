# aftershipstorage in Dafny

A model of the core of the aftershipstorage Python client library. The library
is one meta-client that holds up to six service clients: darkship, darkstorage,
shipshack, models2go, hostscience and aiserve. Each service client is a
`BaseClient`: a base URL, an API key sent in a header, and an HTTP session. A
`Config` object collects keys and base URLs from a configuration document and
from the environment, and decides which key and which URL each service gets.

The model has five modules, one per file:

- `Wrappers` (wrappers.dfy): `Option` for Python's `None`, `Result` for raised
  exceptions.
- `Base` (base.dfy): the `BaseClient` class and its state. It covers the
  trailing-slash normalisation of the base URL, the session headers, endpoint
  URL building, the verb helpers, and closing. URL building follows Python's
  `urljoin` on the inputs where it agrees with the relative-reference
  resolution of section 5.2 of RFC 3986: plain http(s) bases and plain
  relative paths.
- `Services` (services.dfy): the six services, their names and default base
  URLs, and the constructor the six service client classes share.
- `Configuration` (config.dfy): the `Config`, `ServiceConfig` and
  `AfterDarkAccount` records. It covers the precedence rules of
  `resolve_api_key` and `resolve_base_url`, `from_dict` and `to_dict` over a
  generic YAML-like document with their round trip, `from_file`'s error cases,
  and the first-existing-file search of `from_default_locations`.
- `Client` (client.dfy): the `AftershipStorage` meta-client class. It covers
  its constructor, the six service properties, `close_all`, the context
  manager, and `from_env`.

How the outside world appears in the model:

- The environment is a `map<string, string>` from variable names to values.
- The file system is a map from the paths that exist to what the YAML parser
  makes of each file: a document, or a parse error.
- An HTTP session is an open flag plus the header map installed on it.
- A request is described by the verb, URL and extra headers handed to the
  session.

The meta-client's twelve optional keyword arguments are two maps from a service
to a string; a missing entry is `None`. The six handle fields are one map from
a service to its client; a missing entry is `None`. Python truthiness of an
optional string is modelled as "present and non-empty" (`Configuration.Truthy`,
`Client.Given`).

The code is followed where its docstrings are looser. `resolve_base_url` takes
the `<SERVICE>_BASE_URL` variable, and the meta-client takes an explicit base
URL, only when the value is non-empty, not merely when it is set. Likewise
`resolve_api_key` returns the `<SERVICE>_API_KEY` variable as it is, even when
it is empty.

## Model

| member | source | states |
|---|---|---|
| Base.StripTrailingSlashes | aftershipstorage/base.py:19 | `rstrip('/')`: the result is a prefix of the input, does not end in '/', and only '/' characters were removed |
| Base.StripTrailingSlashesUnique | aftershipstorage/base.py:19 | any prefix with those three properties is the stripped string, so the properties define `rstrip('/')` |
| Base.TrailingSlashIgnored | aftershipstorage/base.py:19 | a base URL with one more trailing '/' is stored the same |
| Base.StripLeadingSlashes | aftershipstorage/base.py:31 | `lstrip('/')`: the result is a suffix of the input, does not start with '/', and only '/' characters were removed |
| Base.LeadingSlashIgnored | aftershipstorage/base.py:31 | an endpoint with one more leading '/' strips to the same path |
| Base.SplitRecompose | aftershipstorage/base.py:32 | splitting the URI that is recomposed from a plain http(s) base gives back its scheme, authority and path |
| Base.RecomposeSplit | aftershipstorage/base.py:32 | whatever the URI split accepts recomposes to the original string, so the split loses nothing |
| Base.SplitUri | aftershipstorage/base.py:32 | a URI accepted as a base is a plain http(s) base (ASCII authority, no brackets, no empty or dot segments, no tab/CR/LF) and recomposes to the input |
| Base.Merge | aftershipstorage/base.py:32 | the merged path of a plain relative reference ends with the reference and, for an absolute base path, starts with '/' |
| Base.UrlJoin | aftershipstorage/base.py:32 | on a plain base and a plain relative reference, the joined URL keeps the base's scheme and authority as its prefix and ends with the reference |
| Base.DirectoryPart | aftershipstorage/base.py:32 | the part of a base path that the RFC 3986 merge keeps: a prefix ending in '/' (or empty) with no '/' after it |
| Base.JoinAfterSlash | aftershipstorage/base.py:32 | resolving a plain relative reference against a base that ends in '/' appends the reference to the base |
| Base.InstalledHeaders | aftershipstorage/base.py:23-27 | the session headers are exactly the key header, Content-Type `application/json` and the library User-Agent; the key header carries the API key when its name differs from the two fixed headers |
| Base.DefaultHeaderCarriesKey | aftershipstorage/base.py:10 | with the default header name `X-API-Key`, the session sends the API key under that header |
| Base.BaseClient.constructor | aftershipstorage/base.py:10-27 | the new client holds the base URL without trailing slashes, the key, the header name and the installed headers, and its session is open; the stored base URL never ends in '/' |
| Base.BaseClient.BuildUrl | aftershipstorage/base.py:29-32 | `_build_url(e)` is the base URL, '/', and the endpoint without its leading slashes |
| Base.LeadingSlashesDoNotChangeUrl | aftershipstorage/base.py:29-32 | `_build_url("/" + e) == _build_url(e)` |
| Base.BaseClient.Request | aftershipstorage/base.py:62-76 | the session is asked for the given verb, at the built URL, with exactly the caller's extra headers |
| Base.BaseClient.Get | aftershipstorage/base.py:81-83 | `get` is a `GET` request at the built URL with the caller's headers |
| Base.BaseClient.Post | aftershipstorage/base.py:85-93 | `post` is a `POST` request at the built URL with the caller's headers |
| Base.BaseClient.Put | aftershipstorage/base.py:95-103 | `put` is a `PUT` request at the built URL with the caller's headers |
| Base.BaseClient.Patch | aftershipstorage/base.py:105-113 | `patch` is a `PATCH` request at the built URL with the caller's headers |
| Base.BaseClient.Delete | aftershipstorage/base.py:115-117 | `delete` is a `DELETE` request at the built URL with the caller's headers |
| Base.BaseClient.Close | aftershipstorage/base.py:119-121 | the session is closed and nothing else about the client changes; closing again changes nothing |
| Base.BaseClient.Enter | aftershipstorage/base.py:123-125 | entering a `with` block yields the client itself |
| Base.BaseClient.Exit | aftershipstorage/base.py:127-129 | leaving a `with` block closes the session and does not suppress the exception |
| Services.DefaultBaseUrl | aftershipstorage/services.py:8-48 | each service's default base URL, `https://` plus its host, is non-empty and has no trailing '/' |
| Services.DefaultBaseUrlStoredUnchanged | aftershipstorage/services.py:8-50 | a default base URL is stored unchanged by the base client |
| Services.DefaultBaseUrlJoinable | aftershipstorage/services.py:8-50 | every default base URL plus '/' is an https base with the service's host and root path, so endpoints are joined onto it |
| Services.NewServiceClient | aftershipstorage/services.py:5-50 | a service client is a fresh base client with the given base URL (the service default when omitted), the key, and the default `X-API-Key` header |
| Services.AllServicesListsEachOnce | aftershipstorage/config.py:85 | the service list has six entries, names every service, and repeats none |
| Services.NameInjective | aftershipstorage/config.py:85 | distinct services have distinct names |
| Configuration.Config.WithSection | aftershipstorage/config.py:89 | `setattr(config, service, ...)` replaces that service's section and changes no other field |
| Configuration.Upper | aftershipstorage/config.py:168 | `str.upper` on ASCII strings, such as the service names: each 'a'-'z' becomes its capital, every other character is kept, and so is the length |
| Configuration.VariableNames | aftershipstorage/config.py:168-193 | the variables read are the upper-cased service name plus `_API_KEY` and plus `_BASE_URL` |
| Configuration.VariablesDistinct | aftershipstorage/config.py:168-193 | different services read different variables, and no key variable is a URL variable |
| Configuration.GetEnv | aftershipstorage/config.py:169 | `os.environ.get(name)` is None iff the variable is unset, and its value otherwise |
| Configuration.Config.ResolveApiKey | aftershipstorage/config.py:143-169 | the key is the service key, the account key or the environment value, and a non-empty service key always wins |
| Configuration.Config.ResolveBaseUrl | aftershipstorage/config.py:171-198 | the URL is the default, a non-empty service URL or a set non-empty URL variable, and a non-empty service URL always wins |
| Configuration.ResolvedKeySource | aftershipstorage/config.py:143-169 | the resolved key is the service key, the account key or the environment value; it is truthy iff one of them is; it is None iff both keys are falsy and the variable is unset |
| Configuration.ServiceKeyWins | aftershipstorage/config.py:159-161 | a non-empty service key is returned whatever the account and the environment |
| Configuration.AccountKeyBeatsEnvironment | aftershipstorage/config.py:163-165 | without a service key, a non-empty account key is returned and the key variable is ignored |
| Configuration.EnvironmentKeyLast | aftershipstorage/config.py:167-169 | without either key, the result is exactly the variable's value (empty included), or None when unset |
| Configuration.ResolvedBaseUrlSource | aftershipstorage/config.py:171-198 | the resolved URL is a non-empty service URL; without one, exactly the URL variable when it is set and non-empty; without either, exactly the default; it is never None, and empty only if the default is |
| Configuration.BaseUrlIgnoresAccount | aftershipstorage/config.py:171-198 | the shared account never affects the base URL |
| Configuration.EmptyBaseUrlVariableIgnored | aftershipstorage/config.py:194-196 | an empty `<SERVICE>_BASE_URL` resolves as if the variable were unset |
| Configuration.KeyAndUrlIndependent | aftershipstorage/config.py:158-196 | the key does not depend on the service URL or the URL variable, and the URL does not depend on the service key or the key variable |
| Configuration.OtherSectionsIgnored | aftershipstorage/config.py:159-190 | another service's section never affects a service's key or URL |
| Configuration.UnrelatedVariableIgnored | aftershipstorage/config.py:168-194 | a variable other than the service's two never affects its key or URL |
| Configuration.OtherVariablesIgnored | aftershipstorage/config.py:168-194 | another service's variables never affect a service's key or URL |
| Configuration.GetString | aftershipstorage/config.py:90-91 | reading a field fails only as a malformed document |
| Configuration.DecodeService | aftershipstorage/config.py:88-92 | decoding a service section fails only as a malformed document |
| Configuration.DecodeSection | aftershipstorage/config.py:86-92 | decoding the section of a service fails only as a malformed document |
| Configuration.DecodeAccount | aftershipstorage/config.py:95-102 | decoding the account fails only as a malformed document |
| Configuration.DecodeSettings | aftershipstorage/config.py:105-108 | decoding the settings fails only as a malformed document |
| Configuration.DecodeConfig | aftershipstorage/config.py:72-110 | `from_dict` fails only as a malformed document |
| Configuration.DecodeConfigParts | aftershipstorage/config.py:82-110 | `from_dict` succeeds iff every section, the account and the settings decode; each field of the result is what its part decodes to; the first failing part is the error |
| Configuration.FirstMalformedSection | aftershipstorage/config.py:85-92 | sections are read in the fixed service order: the first malformed one is the error reported |
| Configuration.FromDict | aftershipstorage/config.py:72-110 | the loop over the service list, then the account, then the settings, computes the `from_dict` specification |
| Configuration.FromDictDefaults | aftershipstorage/config.py:82-108 | an absent section stays empty, an absent account stays None, timeout stays 30 and verify_ssl stays true unless `settings` sets them; the empty document gives the default config |
| Configuration.NameNotReserved | aftershipstorage/config.py:85-105 | no service is named `afterdark_account` or `settings` |
| Configuration.UnknownKeyIgnored | aftershipstorage/config.py:82-108 | adding or changing a top-level key that is neither a service, the account nor the settings changes nothing |
| Configuration.WithField | aftershipstorage/config.py:210-225 | a field is written iff its value is non-empty, with that value, and other fields are kept |
| Configuration.ServiceEntriesAt | aftershipstorage/config.py:205-213 | after the loop over some services, a service has an entry iff it was visited and has a non-empty key or URL; the entry holds its encoded section |
| Configuration.ServiceEntriesKeys | aftershipstorage/config.py:205-213 | the loop over services only writes service names |
| Configuration.ToDict | aftershipstorage/config.py:200-233 | the loop over the service list, then the account and the settings, computes the `to_dict` specification |
| Configuration.ServiceEntriesNotReserved | aftershipstorage/config.py:205-228 | service entries never clash with the account or settings entries |
| Configuration.EncodedService | aftershipstorage/config.py:205-213 | `to_dict` emits a service iff its key or URL is non-empty, with only its non-empty fields |
| Configuration.EncodeConfigShape | aftershipstorage/config.py:215-231 | `settings` is always emitted with timeout and verify_ssl; the account is emitted iff present; every emitted key is one `from_dict` reads |
| Configuration.ServiceRoundTrip | aftershipstorage/config.py:208-213 | decoding an encoded section with no empty strings gives the section back |
| Configuration.AccountRoundTrip | aftershipstorage/config.py:216-225 | decoding an encoded account with no empty strings gives the account back |
| Configuration.RoundTrip | aftershipstorage/config.py:200-233 | `from_dict(to_dict(c)) == c` whenever every optional string in `c` is None or non-empty |
| Configuration.RoundTripLosesEmptyKey | aftershipstorage/config.py:210-211 | the condition is needed: an empty service key does not survive the round trip |
| Configuration.MixedDocumentDecodes | examples/config_file.py:52-64 | the mixed example document decodes to the account key, a darkship key and a darkstorage URL |
| Configuration.MixedConfigResolution | examples/config_file.py:64-69 | in that example darkship uses its own key, every other service the master key, darkstorage its custom URL and the rest their defaults |
| Configuration.FromFile | aftershipstorage/config.py:43-69 | a missing path is FileNotFoundError; an empty document is the empty-file ValueError; a parse error or a non-empty non-mapping document is Malformed; the result is `from_dict` of the document iff the document is a non-empty mapping |
| Configuration.JoinPath | aftershipstorage/config.py:128-135 | `dir / name` starts with the directory and ends with the name, with one '/' between them unless the directory is empty or already ends in '/' |
| Configuration.SearchPaths | aftershipstorage/config.py:128-135 | six candidate paths are searched |
| Configuration.FirstExisting | aftershipstorage/config.py:137-141 | a path found is one of the candidates and exists |
| Configuration.FirstExistingIsFirst | aftershipstorage/config.py:137-141 | the path found exists and none before it does; nothing is found iff no path exists |
| Configuration.LoadFirstExisting | aftershipstorage/config.py:137-141 | the loop with early return loads the first existing path, or gives None |
| Configuration.FromDefaultLocations | aftershipstorage/config.py:112-141 | loads the first existing of the six default paths with `from_file`, or gives None |
| Configuration.WorkingDirectoryFirst | aftershipstorage/config.py:128-139 | a config in the working directory wins over the home locations, `.yaml` before `.yml` |
| Client.Planned | aftershipstorage/client.py:62-103 | a client is planned exactly for the services with a non-empty key; it is open and holds that key |
| Client.PlannedClients | aftershipstorage/client.py:62-103 | a client is built iff the service's key is non-empty; it holds that key in the `X-API-Key` header, is open, and has the non-empty explicit URL, else the default, without trailing slashes |
| Client.PlannedDependsOnArguments | aftershipstorage/client.py:69-103 | what is built depends only on the non-empty keys and the URL each such service ends up with |
| Client.BaseUrlAloneIgnored | aftershipstorage/client.py:69-73 | a base URL without a non-empty key builds nothing, and an empty base URL counts as none |
| Client.PlannedIndependent | aftershipstorage/client.py:69-103 | the arguments of one service never change whether, or how, another service's client is built |
| Client.OnlyDarkshipKey | aftershipstorage/client.py:69-73 | with only a darkship key, only darkship is built, on its default URL |
| Client.BuildOne | aftershipstorage/client.py:70-73 | one `kwargs` step builds a fresh client with the key and with the base URL only when it is non-empty |
| Client.AddClient | aftershipstorage/client.py:69-73 | one `if <service>_api_key:` step builds a freshly allocated client in its initial state, shared with no other service, iff the key is non-empty, and keeps the earlier ones unchanged |
| Client.BuildFirstThree | aftershipstorage/client.py:69-85 | the darkship, darkstorage and shipshack steps build exactly the clients with a non-empty key |
| Client.BuildLastThree | aftershipstorage/client.py:87-103 | the models2go, hostscience and aiserve steps extend that to all six services |
| Client.BuildAll | aftershipstorage/client.py:69-103 | the six steps build a fresh client, in its initial state, for exactly the services with a non-empty key, and no two services share one |
| Client.AftershipStorage.constructor | aftershipstorage/client.py:29-103 | the clients built are exactly the planned ones, each freshly allocated and with its own session |
| Client.AftershipStorage.Client | aftershipstorage/client.py:152-204 | a property returns the stored client when it exists, and otherwise raises the ValueError naming the service |
| Client.NotInitializedNamesArgument | aftershipstorage/client.py:152-204 | the error message names the `<service>_api_key` argument, and services get distinct messages |
| Client.ClosedAll | aftershipstorage/client.py:206-217 | closing all keeps the same services and leaves none open |
| Client.ClosedAllProperties | aftershipstorage/client.py:206-217 | closing all keeps the same services, closes every one, changes nothing else, and a second time changes nothing |
| Client.AftershipStorage.CloseAll | aftershipstorage/client.py:206-217 | every present client's session is closed, nothing else changes, and no client is created |
| Client.AftershipStorage.Enter | aftershipstorage/client.py:219-221 | entering a `with` block yields the meta-client itself |
| Client.AftershipStorage.Exit | aftershipstorage/client.py:223-225 | leaving a `with` block closes all clients and does not suppress the exception |
| Client.EnvKeys | aftershipstorage/client.py:137-150 | the key argument of a service is what `os.getenv` gives for its `<SERVICE>_API_KEY` variable, absent when unset |
| Client.EnvBaseUrls | aftershipstorage/client.py:137-150 | the base URL argument of a service is what `os.getenv` gives for its `<SERVICE>_BASE_URL` variable, absent when unset |
| Client.FromEnv | aftershipstorage/client.py:137-150 | `from_env` builds what the constructor builds from the `<SERVICE>_API_KEY` and `<SERVICE>_BASE_URL` variables: fresh, unshared clients in the planned states |
| Client.FromEnvMatchesResolution | aftershipstorage/client.py:137-150 | `from_env` builds a client iff the key variable is non-empty; its key and base URL are what an empty `Config` resolves from the same environment |

## Left out

- HTTP transport: `session.request`, `raise_for_status` and responses are outside the model. A request is the verb, URL and extra headers handed to the session. `params`, `data`, `json` and `**kwargs` pass through untouched and are not modelled.
- `requests.Session` itself: its default headers, and the case-insensitive header lookup, are not modelled. Only the three headers the client installs are.
- YAML parsing, `yaml.safe_load`, `to_yaml` and file reading are outside the model. The file system is a map from the existing paths to the parser's outcome.
- `load_dotenv` in `from_env` is left out. The environment is taken as an input map.
- `Path.expanduser` in `from_file`, and `Path.cwd()` / `Path.home()` are not modelled; the working and home directories are parameters.
- `Configuration.FromFile`: a path that exists but is a directory or unreadable is not distinguished from a file.
- `Configuration.JoinPath`: pathlib's normalisation of separators is not modelled beyond not doubling a trailing '/'.
- `Configuration.DecodeConfig`: a field that is not a string, a section that is not a mapping, a null or non-integer timeout, and a non-boolean verify_ssl are all reported as Malformed. Python instead stores the value as it is or fails with `AttributeError`.
- `Configuration.Upper`: only ASCII letters are upper-cased; Python's `str.upper` also maps other Unicode letters. It is only applied to the service names, which are ASCII.
- `Configuration.DecodeConfig`: the document value type has no floats and no sequences. So `timeout: 2.5`, list-valued fields and a top-level YAML list cannot be written down. Python stores a float timeout or a list field as it is. A non-empty top-level list gets past `from_file`'s check, and `from_dict` on it yields the default `Config` when no item is a service name, `afterdark_account` or `settings`, and fails with `TypeError` on indexing otherwise.
- `Configuration.FromFile`: a YAML parse error, or a non-empty top-level document that is not a mapping, is reported as Malformed. Python differs on the second case. For a top-level string, `key in data` is a substring test: the result is the default `Config` unless the string contains a service name, `afterdark_account` or `settings`, and then indexing it fails with `TypeError`. For a top-level number or `true`, `key in data` itself fails with `TypeError`.
- `Base.BaseClient.BuildUrl`: only bases with scheme http or https and no query, fragment or dot segments are handled. Only plain relative endpoints are handled: no scheme, '?', '#', ';' or dot segments. Full `urljoin` on arbitrary strings is library behaviour.
- `Base.UrlJoin`: Python's `urljoin` departs from RFC 3986 on some inputs, and those inputs are excluded rather than modelled. It drops empty path segments ("a//b" joins as "a/b"). `urlsplit` deletes tab, CR and LF anywhere, and strips leading control characters and spaces. It rejects unbalanced brackets and checks non-ASCII characters in the authority. `urlparse` splits `;params` off the last path segment and puts them back only when non-empty, so a trailing empty `;` is dropped ("v1/items;" joins as "v1/items"). So base paths and endpoints with "//", ';', tab, CR or LF, endpoints starting with a control character or a space, and authorities with brackets or non-ASCII characters are outside the model.
- `Base.BaseClient.Request` and the verb helpers: they carry the same restriction as `BuildUrl`.
- `resolve_api_key` and `resolve_base_url` on names that are not services are left out: `getattr` can hit `timeout` and fail. Services are a six-value enum.
- `AftershipStorage.from_config` is called by the command line and the examples, but it is not defined in `aftershipstorage/client.py` and is not part of this model.
- The command-line interface (`aftershipstorage/cli.py`), the package's re-exports (`aftershipstorage/__init__.py`) and the example scripts are not part of this model.
