# dataverse-toolkit client core, modelled in Dafny

This project models the logic of `src/dartfx/dataverse/dataverse.py`, the
Python client for the API of a Dataverse research-data repository:

- the search parameter record and its validation (`SearchParameters`);
- the exception a failed API call produces and its text (`DataverseApiError`);
- the installation record and the server constructor (`ServerInstallation`,
  `DataverseServer.__init__`): hostname normalisation, directory lookup in
  which the last match wins, and the in-place stripping of an `https://`
  prefix from the stored record;
- request construction and response classification (`DataverseServer.request`),
  the `get_request`/`post_request` wrappers, the fixed-path endpoints and `search`.

Modules: `Wrappers` (Option, Result), `Text` (the Python string built-ins the
code uses: `startswith`, `replace(p, "")`, f-string rendering of `None`,
`str(int)`), `SearchModel`, `Http` (the boundary to the HTTP library),
`ApiErrors`, `Installations` and `Server`.

`ServerInstallation` and `DataverseServer` are classes, because the Python
code assigns their fields. In particular the constructor rewrites `hostname`
in the record it stores. That record may be the caller's own object or a
directory entry, and `DataverseServer.Create` says which. The directory scan
is a loop (`LookupInstallation`) proved against `LastIndexOf`. `Request`
builds the header map step by step, as the code does, and is proved against
the declarative `MergedHeaders` and the decision table `Classify`.

The network is a parameter. A `Transport` is a function from the call the
client makes (`HttpCall`: session, verb, URL, headers, TLS flag, search
parameters) to a `Reply`. Every request method returns the call it made and
its `Outcome`. When the transport raises, the exception reaches the caller
unchanged (`TransportRaised`), because `request` does not catch it.

Behaviour of the code worth noting; the model follows it:
- A request succeeds only when the status equals the `success` argument exactly (default 200); every other status, 2xx and 3xx included, is an error.
- The error policy is a free string. Only `"none"` suppresses; every other value raises. The return mode is also a free string: `"json"`, `"text"`, and anything else returns the raw response.
- The error's `url` attribute holds the request *path* (for example `info/version`), not the full URL.
- An exception raised by the session propagates to the caller as it is; `request` wraps only status mismatches and JSON decode failures in a `DataverseApiError`.
- `search` hands the record's `model_dump()` to the HTTP library as it is; the client itself drops no field and encodes nothing.
- tests/test_server_installations.py:27-30 expects `"https://data.harvard.edu"` to become `"dataverse.harvard.edu"`. The code at dataverse.py:114 only removes the scheme, and the model does the same.
- `str.replace` makes a single pass, so `Normalize` can leave a scheme in place (`"hhttps://ttps://x"` becomes `"https://x"`). The later prefix strip at lines 123-124 then removes it from the stored record.

## Model

| member | source | states |
|---|---|---|
| `SearchModel.NewSearchParameters` | src/dartfx/dataverse/dataverse.py:62-79 | The record is built exactly when `type`, `sort`, `order` and `per_page` meet their constraints, and then holds the given fields. Otherwise the validation error names exactly the offending fields, in declaration order (`Violations` of the record). |
| `SearchModel.Violations` | src/dartfx/dataverse/dataverse.py:67-71 | It names `type`, `sort`, `order` or `per_page` exactly when that field breaks its constraint, and it is empty exactly when the record is valid. |
| `SearchModel.SearchParameters.Valid` | src/dartfx/dataverse/dataverse.py:62-79 | The record is valid when `type` is absent, a known type or a list of known types, `sort` is `name`/`date`, `order` is `asc`/`desc` (each when present), and `per_page`, when present, lies in [1, 1000]. |
| `SearchModel.DefaultParameters` | src/dartfx/dataverse/dataverse.py:66-79 | With no arguments, `q` is "*" and every other field is absent. |
| `SearchModel.PerPageRange` | src/dartfx/dataverse/dataverse.py:71 | A page size is accepted exactly on [1, 1000]. Any other value fails on `per_page` alone. |
| `SearchModel.TypeListAccepted` | src/dartfx/dataverse/dataverse.py:67 | A list of types is accepted exactly when every entry is `dataverse`, `dataset` or `file`. |
| `ApiErrors.ErrorString` | src/dartfx/dataverse/dataverse.py:55-60 | The text starts with message + "; URL: " + url. It is exactly that prefix if and only if there is no status code. Otherwise it continues with "; Status Code: " and the code in decimal. |
| `ApiErrors.StatusCodeRecoverable` | src/dartfx/dataverse/dataverse.py:58-59 | When a status code is present, parsing the text after the label gives the code back. |
| `Text.RemoveAll` | src/dartfx/dataverse/dataverse.py:114 | `replace(p, "")` never lengthens the string. It leaves the string unchanged when `p` does not occur, and removes at least one copy of `p` when it does. |
| `Text.RemoveAllLeftmost` | src/dartfx/dataverse/dataverse.py:114 | When no occurrence of `p` starts before a given one, the pass keeps the text before it, drops that occurrence and goes on with the rest. |
| `Text.IntToDecimalRoundTrip` | src/dartfx/dataverse/dataverse.py:59 | The decimal rendering of any integer, negative ones included, parses back to that integer. |
| `Installations.Normalize` | src/dartfx/dataverse/dataverse.py:114 | Removing "https://" and then "http://" never lengthens the hostname and leaves one containing neither unchanged. A hostname containing "https://" loses at least 8 characters, and one containing "http://" at least 7. |
| `Installations.NormalizeDropsScheme` | src/dartfx/dataverse/dataverse.py:114 | A host that contains no scheme itself, a port included, is kept. The same host behind "https://" or "http://" normalises to it. |
| `Installations.StripHttpsPrefix` | src/dartfx/dataverse/dataverse.py:123-124 | A hostname beginning with "https://" loses exactly those 8 characters. Any other hostname, absent included, is unchanged. |
| `Installations.StripHttpsPrefixOnce` | src/dartfx/dataverse/dataverse.py:123-124 | "https://" + host becomes host. A host without the prefix is kept. |
| `Installations.LastIndexOf` | src/dartfx/dataverse/dataverse.py:117-119 | The result is the index of the last entry equal to the hostname, with no later match. It is absent exactly when nothing matches. |
| `Installations.ServerInstallation.constructor` | src/dartfx/dataverse/dataverse.py:13-32 | Each field holds its argument. All fields default to absent except `metrics`, which defaults to false. |
| `Server.DataverseServer.LookupInstallation` | src/dartfx/dataverse/dataverse.py:116-119 | After the scan, the record is the last directory entry whose hostname matches, or the starting record when none does. Its hostname is unchanged. |
| `Server.DataverseServer.Create` | src/dartfx/dataverse/dataverse.py:103-121 | A hostname is normalised, then looked up when lookup is on (last match wins). With no match or no lookup, the result is a fresh record holding only the hostname. A record argument is stored and stripped in place. Any other argument is a `TypeError`. No directory entry other than the stored one changes. |
| `Server.DataverseServer.constructor` | src/dartfx/dataverse/dataverse.py:122-134 | It stores the record and strips a leading "https://" from its hostname in place; no other field of the record changes. It uses the default memory session when none is given. It stores the key and both policies, and sets the user agent and TLS verification. |
| `Server.MergedHeadersUnique` | src/dartfx/dataverse/dataverse.py:142-150 | The header description (defaults, optional key, caller overrides key by key) fixes the header map completely. |
| `Server.MergedHeaders` | src/dartfx/dataverse/dataverse.py:142-150 | The sent headers are exactly Content-Type, User-Agent, the key header when the API key is non-empty, and the caller's headers. Caller values win; otherwise the defaults apply. |
| `Server.ApiKeyHeaderSent` | src/dartfx/dataverse/dataverse.py:146-147 | `X-Dataverse-key` is sent exactly when the API key is non-empty or the caller sends it. |
| `Server.Classify` | src/dartfx/dataverse/dataverse.py:155-172 | On the expected status, mode `json` gives the parsed body, `text` the body text, and any other mode the response. A status mismatch or a JSON decode failure raises an error exactly when the policy is not "none", and gives `None` exactly when it is. The error carries the path, the status, the response and the description (or the decode message). Transport exceptions pass through. |
| `Server.DecodeMessage` | src/dartfx/dataverse/dataverse.py:160 | The message of a JSON decode failure: the description (None rendered as "None"), " -- JSONDecodeError: " and the decoder's message. |
| `Server.Described` | src/dartfx/dataverse/dataverse.py:178-179 | A missing or empty description is replaced by the caller's name. Any other description is kept. |
| `Server.DataverseServer.Request` | src/dartfx/dataverse/dataverse.py:139-172 | With the source's defaults (no description, no headers, success 200), the call goes to "https://" + hostname + "/api/" + path through the stored session, with the TLS flag and the merged headers. The outcome is the classification of the reply. |
| `Server.DataverseServer.GetRequest` | src/dartfx/dataverse/dataverse.py:174-182 | It performs a "get" with the description defaulted to the caller's name, no headers and success 200 unless given. |
| `Server.DataverseServer.PostRequest` | src/dartfx/dataverse/dataverse.py:184-192 | It performs a "post" with the description defaulted to the caller's name, no headers and success 200 unless given. |
| `Server.DataverseServer.GetInfoApiTerms` | src/dartfx/dataverse/dataverse.py:197-199 | It performs a GET of `info/apiTermsOfUse`, expecting 200, described by its own method name. |
| `Server.DataverseServer.GetInfoExportFormats` | src/dartfx/dataverse/dataverse.py:201-205 | It performs a GET of `info/exportFormats`, expecting 200, described by its own method name. |
| `Server.DataverseServer.GetInfoServer` | src/dartfx/dataverse/dataverse.py:207-209 | It performs a GET of `info/server`, expecting 200, described by its own method name. |
| `Server.DataverseServer.GetInfoVersion` | src/dartfx/dataverse/dataverse.py:211-213 | It performs a GET of `info/version`, expecting 200, described by its own method name. |
| `Server.DataverseServer.GetInfoZipDownloadLimit` | src/dartfx/dataverse/dataverse.py:215-217 | It performs a GET of `info/zipDownloadLimit`, expecting 200, described by its own method name. |
| `Server.DataverseServer.GetMetadataBlocks` | src/dartfx/dataverse/dataverse.py:223-225 | It performs a GET of `metadatablocks`, expecting 200, described by its own method name. |
| `Server.DataverseServer.GetMetadataBlock` | src/dartfx/dataverse/dataverse.py:228-230 | It performs a GET of `metadatablocks/` + identifier, expecting 200, described by its own method name. |
| `Server.DataverseServer.Search` | src/dartfx/dataverse/dataverse.py:236-244 | It performs a GET of `search` described as "Search", expecting 200, with the parameter record passed on unchanged. |

## Left out

- The HTTP transport and `requests_cache.CachedSession` are not modelled. The session is a value naming its backend and cache name. The network is a function from call to reply, so caching, redirects and TLS are not modelled.
- `fetch_dataverse_installations` (the GET and JSON parse of the public directory) is not modelled. Its result is the `directory` argument of `Create`.
- How `requests` encodes `model_dump()` into a query string is not modelled. The call carries the parameter record itself, and no other keyword argument of `request` appears.
- `_get_caller_name` (stack-frame inspection) is not modelled. `GetRequest` and `PostRequest` take the caller's name as an argument. The endpoint methods pass their own Python names, which is the name the inspection finds for them.
- The `logging.error` calls are not modelled.
- The `lat` and `lng` floats are carried as 64-bit patterns and never read.
- `__about__.py` is not part of this model. The package version that goes into the user agent is an argument of the constructor.
- Pydantic's type coercion (for example `"5"` accepted as an integer) is not modelled. Values are given at their declared types.
- Pydantic does not re-validate assignments, and the model follows that: `Search` does not require a valid record.
- The order of header insertion is not modelled, because headers are a map.
