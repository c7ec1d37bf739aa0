/** The API client stub: a module-level configuration cell and a simulated
    reachability probe. */
module ApiClient {

  import opened Wrappers
  import opened Strings

  datatype ApiClientConfig = ApiClientConfig(url: string)

  /** The module-level `apiClientConfig` variable, as an object that the
      screens share. */
  class ApiClient {
    var config: Option<ApiClientConfig>

    /** The cell holds nothing before any initialisation. */
    constructor ()
      ensures config == None
    {
      config := None;
    }

    /** `initializeApiClient(c)`: the cell holds `c`, whatever it held
        before, so the last call wins. */
    method InitializeApiClient(c: ApiClientConfig)
      modifies this
      ensures config == Some(c)
    {
      config := Some(c);
    }

    /** `getApiClientConfig()`: reads the cell without changing it. */
    method GetApiClientConfig() returns (c: Option<ApiClientConfig>)
      ensures c == config
    {
      c := config;
    }
  }

  /** The decision of `testServerConnection(url)`: the empty URL fails at
      once, and otherwise the simulated server refuses exactly the URLs that
      contain "fail". It is a function of the URL alone: it never throws and
      never touches the configuration cell. */
  function TestServerConnection(url: string): (ok: bool)
    ensures url == "" ==> !ok
    ensures ok <==> url != "" && !exists i :: OccursAt(url, "fail", i)
  {
    if url == "" then false
    else !Includes(url, "fail")
  }

  /** The simulated server refuses the host used in the failure scenario. */
  lemma FailHostIsRefused()
    ensures !TestServerConnection("http://fail.example.com")
  {
    assert OccursAt("http://fail.example.com", "fail", 7);
  }
}
