/**
 * The wire client: the registrar endpoint, the fixed credential parameters
 * merged into every call, and the TLD helper of the base API class.
 * The HTTP dispatcher and the XML parser are not modelled; `Get` and `Post`
 * return the request that would be handed to the dispatcher.
 */
module Wire {
  import opened PhpArray
  import Text

  const LiveApi: string := "https://reseller.enom.com/interface.asp"
  const SandboxApi: string := "https://resellertest.enom.com/interface.asp"

  /** The keys the client owns in every request. */
  const GlobalKeys: set<string> := {"uid", "pw", "responsetype"}

  /** The three host settings the constructor reads. */
  datatype Settings = Settings(enomUid: string, enomPassword: string, enomEnableSandbox: string)

  datatype HttpMethod = GET | POST

  /** What is handed to the dispatcher: method, endpoint and the full parameter set. */
  datatype WireRequest = WireRequest(verb: HttpMethod, url: string, params: Params)

  class EnomApi {
    var resellerUid: string
    var resellerPassword: string
    var sandbox: bool
    var baseUrl: string
    var globalParams: Params

    /** The credential parameters always mirror the reseller fields, and the flag names the endpoint. */
    ghost predicate Valid()
      reads this
    {
      && globalParams == map["uid" := resellerUid, "pw" := resellerPassword, "responsetype" := "xml"]
      && (baseUrl == SandboxApi || baseUrl == LiveApi)
      && (sandbox <==> baseUrl == SandboxApi)
    }

    /**
     * The configured sandbox setting is read and then overwritten with '1',
     * so the client always talks to the sandbox endpoint.
     */
    constructor (settings: Settings)
      ensures Valid()
      ensures baseUrl == SandboxApi && sandbox
      ensures resellerUid == settings.enomUid && resellerPassword == settings.enomPassword
      ensures globalParams.Keys == GlobalKeys
      ensures globalParams["uid"] == settings.enomUid
      ensures globalParams["pw"] == settings.enomPassword
      ensures globalParams["responsetype"] == "xml"
    {
      var sandboxFlag := false;
      var sandboxEnabled := settings.enomEnableSandbox;
      sandboxEnabled := "1";
      var url;
      if sandboxEnabled == "1" {
        sandboxFlag := true;
        url := SandboxApi;
      } else {
        url := LiveApi;
      }
      baseUrl := url;
      resellerUid := settings.enomUid;
      resellerPassword := settings.enomPassword;
      sandbox := sandboxFlag;
      globalParams := map["uid" := settings.enomUid, "pw" := settings.enomPassword, "responsetype" := "xml"];
    }

    /**
     * A GET call: the credentials are joined with PHP `+`, so the client's
     * three keys keep their own values and every other caller key passes through.
     */
    method Get(params: Params) returns (req: WireRequest)
      requires Valid()
      ensures req.verb == GET && req.url == baseUrl && req.params == Union(globalParams, params)
      ensures req.params.Keys == GlobalKeys + params.Keys
      ensures req.params["uid"] == resellerUid && req.params["pw"] == resellerPassword
      ensures req.params["responsetype"] == "xml"
      ensures forall k :: k in params && k !in GlobalKeys ==> req.params[k] == params[k]
    {
      req := WireRequest(GET, baseUrl, Union(globalParams, params));
    }

    /** A POST call: the same union as `Get`; the `url` argument is never used. */
    method Post(url: string, params: Params) returns (req: WireRequest)
      requires Valid()
      ensures req.verb == POST && req.url == baseUrl && req.params == Union(globalParams, params)
      ensures req.params.Keys == GlobalKeys + params.Keys
      ensures req.params["uid"] == resellerUid && req.params["pw"] == resellerPassword
      ensures req.params["responsetype"] == "xml"
      ensures forall k :: k in params && k !in GlobalKeys ==> req.params[k] == params[k]
    {
      req := WireRequest(POST, baseUrl, Union(globalParams, params));
    }
  }

  /**
   * `getTld`: a dot followed by everything after the first dot, case kept.
   * Without a dot the second part is undefined, reads as null, and only the dot remains.
   */
  function GetTld(domain: string): (ext: string)
    ensures |ext| >= 1 && ext[0] == '.' && |ext| <= |domain| + 1
    ensures '.' !in domain ==> ext == "."
    ensures '.' in domain ==>
      |ext| <= |domain| &&
      var cut := |domain| - |ext|;
      domain[cut] == '.' && domain[cut + 1..] == ext[1..] && '.' !in domain[..cut]
  {
    var parts := Text.SplitFirst(domain, '.');
    if |parts| == 2 then
      assert domain == parts[0] + ['.'] + parts[1];
      assert domain[|parts[0]|] == '.' && domain[|parts[0]| + 1..] == parts[1] && domain[..|parts[0]|] == parts[0];
      "." + parts[1]
    else "."
  }
}
