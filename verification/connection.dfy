/** What the two server-connection screens share: the outcome of the probe,
    the events a connect attempt produces, and the scheme rule. */
module Connection {

  import opened Strings
  import opened ApiClient

  /** A value caught by `catch`: an `Error` instance with its message, or
      anything else. */
  datatype Thrown = ErrorInstance(message: string) | NonError

  /** How the awaited probe settled. */
  datatype ProbeOutcome = Resolved(ok: bool) | Threw(thrown: Thrown)

  /** The observable steps of a connect attempt, in order: store dispatches,
      the probe call, the client initialisation, and the navigation and alert
      side effects. */
  datatype Event =
    | ConnectStart
    | ProbeCalled(url: string)
    | ApiClientInitialized(url: string)
    | ConnectSuccess(url: string)
    | ConnectFailure(message: string)
    | Navigate(screen: string)
    | ShowAlert(title: string, message: string)

  /** The probe of the API client stub, which always resolves. */
  function RealProbe(url: string): (outcome: ProbeOutcome)
    ensures outcome.Resolved?
  {
    Resolved(TestServerConnection(url))
  }

  predicate HasScheme(url: string) {
    StartsWith(url, "http://") || StartsWith(url, "https://")
  }

  /** Prefix `http://` unless the URL already names `http` or `https`. */
  function WithScheme(url: string): (r: string)
    ensures HasScheme(r)
    ensures r == url || r == "http://" + url
    ensures HasScheme(url) <==> r == url
  {
    if HasScheme(url) then url else "http://" + url
  }
}
