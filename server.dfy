/**
 * `DataverseServer`: the connection configuration of one installation, the
 * construction of each API request and the classification of its reply.
 */
module Server {
  import opened Wrappers
  import opened Text
  import opened SearchModel
  import opened Http
  import opened ApiErrors
  import opened Installations

  /** What a call to the API gives its caller: a payload, `None`, or an exception. */
  datatype Outcome =
    | JsonResult(json: Json)
    | TextResult(text: string)
    | ResponseResult(response: Response)
    | NoResult
    | Raised(error: DataverseApiError)
    | TransportRaised(reason: string)

  /** The first argument of the server constructor: a hostname string, a record, or anything else. */
  datatype ServerArg = HostnameArg(hostname: string) | InstallationArg(record: ServerInstallation) | OtherArg {
    /** The caller's record, which the constructor may rewrite. */
    function Records(): set<ServerInstallation> {
      if InstallationArg? then {record} else {}
    }
  }

  /** The exception raised for a first argument of the wrong kind. */
  datatype TypeError = TypeError(message: string)

  const ServerTypeMessage := "server must be either a hostname or a ServerInstallation"

  /** Python truthiness of the API key: present and not empty. */
  predicate HasApiKey(apiKey: Option<string>) {
    apiKey.Some? && apiKey.value != ""
  }

  /**
   * The headers of a request: content type, user agent and, when an API key
   * is set, the key; each header the caller supplies replaces the default of
   * the same name.
   */
  predicate MergedHeaders(h: map<string, string>, userAgent: string, apiKey: Option<string>, caller: map<string, string>) {
    && h.Keys == {"Content-Type", "User-Agent"}
                 + (if HasApiKey(apiKey) then {"X-Dataverse-key"} else {})
                 + caller.Keys
    && (forall k :: k in caller ==> k in h && h[k] == caller[k])
    && ("Content-Type" !in caller ==> h["Content-Type"] == "application/json")
    && ("User-Agent" !in caller ==> h["User-Agent"] == userAgent)
    && (HasApiKey(apiKey) && "X-Dataverse-key" !in caller ==> h["X-Dataverse-key"] == apiKey.value)
  }

  /** The header description fixes the headers completely. */
  lemma MergedHeadersUnique(h1: map<string, string>, h2: map<string, string>, userAgent: string, apiKey: Option<string>, caller: map<string, string>)
    requires MergedHeaders(h1, userAgent, apiKey, caller)
    requires MergedHeaders(h2, userAgent, apiKey, caller)
    ensures h1 == h2
  {
  }

  /** The API key header is sent exactly when a key is set or the caller sends one. */
  lemma ApiKeyHeaderSent(h: map<string, string>, userAgent: string, apiKey: Option<string>, caller: map<string, string>)
    requires MergedHeaders(h, userAgent, apiKey, caller)
    ensures "X-Dataverse-key" in h <==> HasApiKey(apiKey) || "X-Dataverse-key" in caller
  {
  }

  /** A response that the client treats as an error under the given success code and return mode. */
  predicate Failed(r: Response, success: int, onApiSuccessReturn: string) {
    r.statusCode != success || (onApiSuccessReturn == "json" && r.body.DecodeError?)
  }

  /** The message of the error raised when the body is not JSON. */
  function DecodeMessage(description: Option<string>, msg: string): string {
    Show(description) + " -- JSONDecodeError: " + msg
  }

  /**
   * The response handling of `request`: on the expected status the payload
   * in the configured form, otherwise an error that is raised unless the
   * error policy is "none", in which case the caller gets `None`.
   */
  function Classify(reply: Reply, success: int, description: Option<string>, path: string,
                    onApiError: string, onApiSuccessReturn: string): (o: Outcome)
    ensures reply.ConnectionFailed? <==> o.TransportRaised?
    ensures reply.ConnectionFailed? ==> o.reason == reply.reason
    ensures reply.Answered? && !Failed(reply.response, success, onApiSuccessReturn) ==>
      o == (if onApiSuccessReturn == "json" then JsonResult(reply.response.body.value)
            else if onApiSuccessReturn == "text" then TextResult(reply.response.text)
            else ResponseResult(reply.response))
    ensures o.Raised? <==>
      reply.Answered? && Failed(reply.response, success, onApiSuccessReturn) && onApiError != "none"
    ensures o.NoResult? <==>
      reply.Answered? && Failed(reply.response, success, onApiSuccessReturn) && onApiError == "none"
    ensures o.Raised? ==>
      && o.error.url == path
      && o.error.statusCode == Some(reply.response.statusCode)
      && o.error.response == Some(reply.response)
      && o.error.message == (if reply.response.statusCode == success
                             then Some(DecodeMessage(description, reply.response.body.msg))
                             else description)
  {
    match reply
    case ConnectionFailed(reason) => TransportRaised(reason)
    case Answered(r) =>
      if r.statusCode == success then
        if onApiSuccessReturn == "json" then
          match r.body
          case Parsed(v) => JsonResult(v)
          case DecodeError(msg) =>
            if onApiError != "none"
            then Raised(DataverseApiError(Some(DecodeMessage(description, msg)), path, Some(r.statusCode), Some(r)))
            else NoResult
        else if onApiSuccessReturn == "text" then TextResult(r.text)
        else ResponseResult(r)
      else if onApiError != "none" then Raised(DataverseApiError(description, path, Some(r.statusCode), Some(r)))
      else NoResult
  }

  /** The description `get_request` and `post_request` pass on: the caller's name when none is given. */
  function Described(description: Option<string>, callerName: string): (d: Option<string>)
    ensures d.Some?
    ensures description.Some? && description.value != "" ==> d == description
    ensures description.None? || description.value == "" ==> d == Some(callerName)
  {
    if description.None? || description.value == "" then Some(callerName) else description
  }

  class DataverseServer {
    var apiKey: Option<string>
    var installation: ServerInstallation
    var onApiError: string
    var onApiSuccessReturn: string
    var session: Session
    var userAgent: string
    var sslVerify: bool

    /**
     * The call `request` hands to the session and the outcome it gives back,
     * for a given transport.
     */
    predicate Performs(call: HttpCall, outcome: Outcome, verb: string, path: string, description: Option<string>,
                       headers: map<string, string>, success: int, params: Option<SearchParameters>, transport: Transport)
      reads this, installation
    {
      && call.session == session
      && call.verb == verb
      && call.url == "https://" + Show(installation.hostname) + "/api/" + path
      && MergedHeaders(call.headers, userAgent, apiKey, headers)
      && call.verify == sslVerify
      && call.params == params
      && outcome == Classify(transport(call), success, description, path, onApiError, onApiSuccessReturn)
    }

    /**
     * Stores the configuration; a hostname that starts with "https://" is
     * stripped of it in the record itself, which may be the caller's.
     */
    constructor (installation: ServerInstallation, apiKey: Option<string>, onApiError: string,
                 onApiSuccessReturn: string, session: Option<Session>, version: string)
      modifies installation
      ensures this.installation == installation
      ensures installation.hostname == StripHttpsPrefix(old(installation.hostname))
      ensures installation.OnlyHostnameChanged()
      ensures this.session == session.GetOr(DefaultSession)
      ensures this.apiKey == apiKey && this.onApiError == onApiError
      ensures this.onApiSuccessReturn == onApiSuccessReturn
      ensures this.userAgent == "dartfx-dataverse/" + version && this.sslVerify
    {
      this.installation := installation;
      this.session := if session.None? then DefaultSession else session.value;
      this.apiKey := apiKey;
      this.onApiError := onApiError;
      this.onApiSuccessReturn := onApiSuccessReturn;
      this.userAgent := "dartfx-dataverse/" + version;
      this.sslVerify := true;
      new;
      if installation.hostname.Some? && installation.hostname.value != ""
         && StartsWith(installation.hostname.value, "https://") {
        installation.hostname := Some(installation.hostname.value[8..]);
      }
    }

    /**
     * The directory scan of the constructor: every entry whose hostname equals
     * the current record's replaces it, so the last match wins.
     */
    static method LookupInstallation(directory: seq<ServerInstallation>, start: ServerInstallation)
      returns (server: ServerInstallation)
      ensures server.hostname == start.hostname
      ensures var k := LastIndexOf(HostnamesOf(directory), start.hostname);
        server == if k.Some? then directory[k.value] else start
    {
      server := start;
      ghost var hs := HostnamesOf(directory);
      for i := 0 to |directory|
        invariant server.hostname == start.hostname
        invariant var k := LastIndexOf(hs[..i], start.hostname);
          server == if k.Some? then directory[k.value] else start
      {
        assert hs[..i + 1][..i] == hs[..i];
        if directory[i].hostname == server.hostname {
          server := directory[i];
        }
      }
      assert hs[..|directory|] == hs;
    }

    /**
     * `DataverseServer(server, ...)`. A hostname loses every "https://" and
     * then every "http://", becomes a record holding only that hostname and,
     * when lookup is on, gives way to the last directory entry with that
     * hostname. Any first argument other than a hostname or a record is a
     * type error. `directory` is what the directory fetch returns.
     */
    static method Create(server: ServerArg, directory: seq<ServerInstallation>, version: string,
                         apiKey: Option<string> := None, onApiError: string := "raise",
                         onApiSuccessReturn: string := "json", session: Option<Session> := None,
                         lookupInstallation: bool := true)
      returns (r: Result<DataverseServer, TypeError>)
      modifies server.Records(), directory
      ensures r.Failure? <==> server.OtherArg?
      ensures r.Failure? ==> r.error == TypeError(ServerTypeMessage)
      ensures r.Success? ==>
        && fresh(r.value)
        && r.value.apiKey == apiKey && r.value.onApiError == onApiError
        && r.value.onApiSuccessReturn == onApiSuccessReturn
        && r.value.session == session.GetOr(DefaultSession)
        && r.value.userAgent == "dartfx-dataverse/" + version && r.value.sslVerify
      ensures server.InstallationArg? ==>
        && r.value.installation == server.record
        && server.record.OnlyHostnameChanged()
        && server.record.hostname == StripHttpsPrefix(old(server.record.hostname))
      ensures server.HostnameArg? ==>
        var host := Some(Normalize(server.hostname));
        var k := if lookupInstallation then LastIndexOf(old(HostnamesOf(directory)), host) else None;
        && r.value.installation.hostname == StripHttpsPrefix(host)
        && (k.Some? ==> r.value.installation == directory[k.value] && directory[k.value].OnlyHostnameChanged())
        && (k.None? ==> fresh(r.value.installation) && r.value.installation.HasOnlyHostname())
      ensures forall i :: 0 <= i < |directory| && (r.Failure? || directory[i] != r.value.installation) ==>
        unchanged(directory[i])
      ensures server.InstallationArg? && r.value.installation != server.record ==> unchanged(server.record)
    {
      var record: ServerInstallation;
      match server {
        case OtherArg =>
          return Failure(TypeError(ServerTypeMessage));
        case InstallationArg(given) =>
          record := given;
        case HostnameArg(name) =>
          var host := Normalize(name);
          record := new ServerInstallation(hostname := Some(host));
          if lookupInstallation {
            record := LookupInstallation(directory, record);
          }
      }
      var created := new DataverseServer(record, apiKey, onApiError, onApiSuccessReturn, session, version);
      return Success(created);
    }

    /**
     * `request`: sends the call through the session and classifies the
     * reply; `headers` replace the defaults key by key.
     */
    method Request(verb: string, path: string, transport: Transport, description: Option<string> := None,
                   headers: Option<map<string, string>> := None, success: int := 200,
                   params: Option<SearchParameters> := None)
      returns (call: HttpCall, outcome: Outcome)
      ensures Performs(call, outcome, verb, path, description, headers.GetOr(map[]), success, params, transport)
    {
      var defaultHeaders := map["Content-Type" := "application/json", "User-Agent" := userAgent];
      if apiKey.Some? && apiKey.value != "" {
        defaultHeaders := defaultHeaders["X-Dataverse-key" := apiKey.value];
      }
      var given := if headers.None? then map[] else headers.value;
      var merged := defaultHeaders + given;
      var url := "https://" + Show(installation.hostname) + "/api/" + path;
      call := HttpCall(session, verb, url, merged, sslVerify, params);
      var response: Response;
      match transport(call) {
        case ConnectionFailed(reason) =>
          return call, TransportRaised(reason);
        case Answered(received) =>
          response := received;
      }
      if response.statusCode == success {
        if onApiSuccessReturn == "json" {
          match response.body
          case Parsed(v) =>
            return call, JsonResult(v);
          case DecodeError(msg) =>
            var message := DecodeMessage(description, msg);
            if onApiError != "none" {
              return call, Raised(DataverseApiError(Some(message), path, Some(response.statusCode), Some(response)));
            }
            return call, NoResult;
        } else if onApiSuccessReturn == "text" {
          return call, TextResult(response.text);
        }
        return call, ResponseResult(response);
      }
      if onApiError != "none" {
        return call, Raised(DataverseApiError(description, path, Some(response.statusCode), Some(response)));
      }
      return call, NoResult;
    }

    /** `get_request`: a GET whose description defaults to the caller's function name. */
    method GetRequest(path: string, callerName: string, transport: Transport, description: Option<string> := None,
                      headers: Option<map<string, string>> := None, success: int := 200,
                      params: Option<SearchParameters> := None)
      returns (call: HttpCall, outcome: Outcome)
      ensures Performs(call, outcome, "get", path, Described(description, callerName),
                       headers.GetOr(map[]), success, params, transport)
    {
      var given := if headers.None? then map[] else headers.value;
      var described := description;
      if description.None? || description.value == "" {
        described := Some(callerName);
      }
      call, outcome := Request("get", path, transport, described, Some(given), success, params);
    }

    /** `post_request`: a POST whose description defaults to the caller's function name. */
    method PostRequest(path: string, callerName: string, transport: Transport, description: Option<string> := None,
                      headers: Option<map<string, string>> := None, success: int := 200,
                      params: Option<SearchParameters> := None)
      returns (call: HttpCall, outcome: Outcome)
      ensures Performs(call, outcome, "post", path, Described(description, callerName),
                       headers.GetOr(map[]), success, params, transport)
    {
      var given := if headers.None? then map[] else headers.value;
      var described := description;
      if description.None? || description.value == "" {
        described := Some(callerName);
      }
      call, outcome := Request("post", path, transport, described, Some(given), success, params);
    }

    // The fixed-path endpoints: a GET with no headers, expecting status 200;
    // the description is the name of the endpoint method itself.

    method GetInfoApiTerms(transport: Transport) returns (call: HttpCall, outcome: Outcome)
      ensures Performs(call, outcome, "get", "info/apiTermsOfUse", Some("get_info_api_terms"), map[], 200, None, transport)
    {
      call, outcome := GetRequest("info/apiTermsOfUse", "get_info_api_terms", transport);
    }

    method GetInfoExportFormats(transport: Transport) returns (call: HttpCall, outcome: Outcome)
      ensures Performs(call, outcome, "get", "info/exportFormats", Some("get_info_export_formats"), map[], 200, None, transport)
    {
      call, outcome := GetRequest("info/exportFormats", "get_info_export_formats", transport);
    }

    method GetInfoServer(transport: Transport) returns (call: HttpCall, outcome: Outcome)
      ensures Performs(call, outcome, "get", "info/server", Some("get_info_server"), map[], 200, None, transport)
    {
      call, outcome := GetRequest("info/server", "get_info_server", transport);
    }

    method GetInfoVersion(transport: Transport) returns (call: HttpCall, outcome: Outcome)
      ensures Performs(call, outcome, "get", "info/version", Some("get_info_version"), map[], 200, None, transport)
    {
      call, outcome := GetRequest("info/version", "get_info_version", transport);
    }

    method GetInfoZipDownloadLimit(transport: Transport) returns (call: HttpCall, outcome: Outcome)
      ensures Performs(call, outcome, "get", "info/zipDownloadLimit", Some("get_info_zip_download_limit"), map[], 200, None, transport)
    {
      call, outcome := GetRequest("info/zipDownloadLimit", "get_info_zip_download_limit", transport);
    }

    method GetMetadataBlocks(transport: Transport) returns (call: HttpCall, outcome: Outcome)
      ensures Performs(call, outcome, "get", "metadatablocks", Some("get_metadatablocks"), map[], 200, None, transport)
    {
      call, outcome := GetRequest("metadatablocks", "get_metadatablocks", transport);
    }

    method GetMetadataBlock(identifier: string, transport: Transport) returns (call: HttpCall, outcome: Outcome)
      ensures Performs(call, outcome, "get", "metadatablocks/" + identifier, Some("get_metadatablock"), map[], 200, None, transport)
    {
      call, outcome := GetRequest("metadatablocks/" + identifier, "get_metadatablock", transport);
    }

    /** `search`: a GET of "search", described as "Search", carrying the parameters as they are. */
    method Search(parameters: SearchParameters, transport: Transport) returns (call: HttpCall, outcome: Outcome)
      ensures Performs(call, outcome, "get", "search", Some("Search"), map[], 200, Some(parameters), transport)
    {
      call, outcome := GetRequest("search", "search", transport, description := Some("Search"), params := Some(parameters));
    }
  }
}
