/** The server-connection route of the app: its URL input, the stored-URL
    sync and the connect handler. */
module AppServerConnection {

  import opened Wrappers
  import opened Strings
  import opened AuthSlice
  import opened ApiClient
  import opened Connection

  const DefaultServerUrl: string := "http://localhost:3000"
  const EmptyInputMessage: string := "Please enter a server URL."
  const SuccessMessage: string := "Connected to server successfully!"
  const RefusedMessage: string := "Failed to connect to the server. Please check the URL and server status."
  const UnknownErrorMessage: string := "An unknown error occurred."

  /** Removes one trailing slash, if there is one. */
  function StripOneSlash(s: string): (r: string)
    ensures EndsWith(s, "/") ==> r + "/" == s
    ensures !EndsWith(s, "/") ==> r == s
  {
    if EndsWith(s, "/") then s[..|s| - 1] else s
  }

  /** The URL the handler probes and stores: trimmed, one trailing slash
      removed, `http://` prefixed when no scheme is left. It always has a
      scheme. */
  function NormalizeUrl(input: string): (url: string)
    ensures HasScheme(url)
  {
    WithScheme(StripOneSlash(Trim(input)))
  }

  /** A normalised URL differs from the trimmed input only by the added
      `http://` and at most one removed trailing slash. */
  lemma NormalizeUrlShape(input: string)
    ensures var url, t := NormalizeUrl(input), Trim(input);
            url == t || url + "/" == t || url == "http://" + t || url + "/" == "http://" + t
  {
    ShapeOfStripped(Trim(input));
  }

  /** `NormalizeUrlShape` for an already trimmed string `t`. */
  lemma ShapeOfStripped(t: string)
    ensures var url := WithScheme(StripOneSlash(t));
            url == t || url + "/" == t || url == "http://" + t || url + "/" == "http://" + t
  {
    var u := StripOneSlash(t);
    if !HasScheme(u) && EndsWith(t, "/") {
      assert ("http://" + u) + "/" == "http://" + (u + "/");
    }
  }

  /** The message stored when the probe did not succeed: a thrown `Error`'s
      own message passes through unchanged; a refusal and a thrown
      non-`Error` get fixed, non-empty texts. */
  function FailureMessage(outcome: ProbeOutcome): (m: string)
    requires outcome != Resolved(true)
    ensures outcome.Threw? && outcome.thrown.ErrorInstance? ==> m == outcome.thrown.message
    ensures outcome.Resolved? ==> m == RefusedMessage && m != ""
    ensures outcome == Threw(NonError) ==> m == UnknownErrorMessage && m != ""
  {
    match outcome
    case Resolved(_) => RefusedMessage
    case Threw(ErrorInstance(m)) => m
    case Threw(NonError) => UnknownErrorMessage
  }

  /** The alert shown when the probe did not succeed: titled "Error", with
      the stored message itself after a refusal and that message behind
      `Failed to connect: ` after a throw. */
  function FailureAlert(outcome: ProbeOutcome): (e: Event)
    requires outcome != Resolved(true)
    ensures e.ShowAlert? && e.title == "Error"
    ensures outcome.Resolved? ==> e.message == FailureMessage(outcome)
    ensures outcome.Threw? ==>
              StartsWith(e.message, "Failed to connect: ")
              && e.message[|"Failed to connect: "|..] == FailureMessage(outcome)
  {
    if outcome.Resolved? then ShowAlert("Error", RefusedMessage)
    else ShowAlert("Error", "Failed to connect: " + FailureMessage(outcome))
  }

  /** A connect attempt on the normalised `url` whose probe settled as
      `outcome`: `connectStart` comes first and exactly once, then the one
      probe of `url`; a successful probe initialises the client and
      dispatches `connectSuccess` with that same URL, and any other outcome
      dispatches `connectFailure` and neither of those. */
  function Attempt(url: string, outcome: ProbeOutcome): (trace: seq<Event>)
    ensures |trace| == (if outcome == Resolved(true) then 5 else 4)
    ensures trace[0] == ConnectStart && trace[1] == ProbeCalled(url)
    ensures forall k :: 1 <= k < |trace| ==> !trace[k].ConnectStart?
    ensures forall k :: 2 <= k < |trace| ==> !trace[k].ProbeCalled?
    ensures outcome == Resolved(true) ==>
              trace[2] == ApiClientInitialized(url) && trace[3] == ConnectSuccess(url)
              && trace[4] == ShowAlert("Success", SuccessMessage)
    ensures outcome != Resolved(true) ==>
              trace[2] == ConnectFailure(FailureMessage(outcome)) && trace[3] == FailureAlert(outcome)
              && forall k :: 0 <= k < |trace| ==> !trace[k].ConnectSuccess? && !trace[k].ApiClientInitialized?
  {
    if outcome == Resolved(true) then
      [ConnectStart, ProbeCalled(url),
       ApiClientInitialized(url), ConnectSuccess(url), ShowAlert("Success", SuccessMessage)]
    else
      [ConnectStart, ProbeCalled(url),
       ConnectFailure(FailureMessage(outcome)), FailureAlert(outcome)]
  }

  /** Everything `handleConnect` does, in order: blank input only raises an
      alert, anything else is an attempt on its normalised URL. */
  function ConnectTrace(input: string, probe: string -> ProbeOutcome): (trace: seq<Event>)
    ensures IsBlank(input) ==> trace == [ShowAlert("Error", EmptyInputMessage)]
    ensures !IsBlank(input) ==> trace == Attempt(NormalizeUrl(input), probe(NormalizeUrl(input)))
  {
    if IsBlank(input) then
      [ShowAlert("Error", EmptyInputMessage)]
    else
      var url := NormalizeUrl(input);
      Attempt(url, probe(url))
  }

  /** A stored URL that JavaScript's truthiness lets through. */
  predicate IsStored(stored: Option<string>) {
    stored.Some? && stored.value != ""
  }

  /** The component's state: the text in the URL field. */
  class ServerConnectionScreen {
    var serverUrlInput: string

    /** The mounted route: the field starts at the default URL, and the
        stored-URL effect runs once on mount, so a URL already in the
        session replaces the default. */
    constructor (auth: AuthState)
      ensures IsStored(auth.serverUrl) ==> serverUrlInput == auth.serverUrl.value
      ensures !IsStored(auth.serverUrl) ==> serverUrlInput == DefaultServerUrl
    {
      serverUrlInput := DefaultServerUrl;
      new;
      SyncStoredUrl(auth.serverUrl);
    }

    /** The text field's `onChangeText`. */
    method SetServerUrlInput(text: string)
      modifies this
      ensures serverUrlInput == text
    {
      serverUrlInput := text;
    }

    /** The effect on the stored `serverUrl`: a stored URL (a non-empty
        string, JavaScript truthiness) overwrites the field; otherwise the
        field keeps its text. */
    method SyncStoredUrl(stored: Option<string>)
      modifies this
      ensures IsStored(stored) ==> serverUrlInput == stored.value
      ensures !IsStored(stored) ==> serverUrlInput == old(serverUrlInput)
    {
      if IsStored(stored) {
        serverUrlInput := stored.value;
      }
    }

    /** `handleConnect`, with the awaited probe given as `probe`. Returns the
        events it produced; the session and the client cell end as those
        events say. A success that changes the stored URL re-runs the
        stored-URL effect, which puts the probed URL in the field; otherwise
        the field keeps its text. */
    method HandleConnect(auth: AuthState, client: ApiClient, probe: string -> ProbeOutcome)
      returns (trace: seq<Event>)
      modifies this, auth, client
      ensures trace == ConnectTrace(old(serverUrlInput), probe)
      ensures IsBlank(old(serverUrlInput)) ==>
        && auth.serverUrl == old(auth.serverUrl) && auth.isConnecting == old(auth.isConnecting)
        && auth.isConnected == old(auth.isConnected) && auth.error == old(auth.error)
        && client.config == old(client.config)
      ensures !IsBlank(old(serverUrlInput)) ==>
        var url := NormalizeUrl(old(serverUrlInput));
        var outcome := probe(url);
        if outcome == Resolved(true) then
          && auth.serverUrl == Some(url) && !auth.isConnecting && auth.isConnected && auth.error == None
          && client.config == Some(ApiClientConfig(url))
        else
          && auth.serverUrl == old(auth.serverUrl) && !auth.isConnecting && !auth.isConnected
          && auth.error == Some(FailureMessage(outcome))
          && client.config == old(client.config)
      ensures auth.serverUrl != old(auth.serverUrl) ==> serverUrlInput == auth.serverUrl.value
      ensures auth.serverUrl == old(auth.serverUrl) ==> serverUrlInput == old(serverUrlInput)
    {
      var input := serverUrlInput;
      var trimmedUserInput := Trim(input);
      if trimmedUserInput == "" {
        trace := [ShowAlert("Error", EmptyInputMessage)];
        return;
      }
      auth.ConnectStart();
      if EndsWith(trimmedUserInput, "/") {
        trimmedUserInput := trimmedUserInput[..|trimmedUserInput| - 1];
      }
      var finalUrlToProcess := trimmedUserInput;
      if !StartsWith(finalUrlToProcess, "http://") && !StartsWith(finalUrlToProcess, "https://") {
        finalUrlToProcess := "http://" + finalUrlToProcess;
      }
      assert finalUrlToProcess == NormalizeUrl(input);
      var outcome := probe(finalUrlToProcess);
      if outcome == Resolved(true) {
        client.InitializeApiClient(ApiClientConfig(finalUrlToProcess));
        var stored := auth.serverUrl;
        auth.ConnectSuccess(finalUrlToProcess);
        if auth.serverUrl != stored {
          SyncStoredUrl(auth.serverUrl);
        }
        trace := [ConnectStart, ProbeCalled(finalUrlToProcess),
                  ApiClientInitialized(finalUrlToProcess), ConnectSuccess(finalUrlToProcess),
                  ShowAlert("Success", SuccessMessage)];
      } else if outcome.Resolved? {
        auth.ConnectFailure(RefusedMessage);
        trace := [ConnectStart, ProbeCalled(finalUrlToProcess),
                  ConnectFailure(RefusedMessage), ShowAlert("Error", RefusedMessage)];
      } else {
        var errorMessage := if outcome.thrown.ErrorInstance? then outcome.thrown.message else UnknownErrorMessage;
        auth.ConnectFailure(errorMessage);
        trace := [ConnectStart, ProbeCalled(finalUrlToProcess),
                  ConnectFailure(errorMessage), ShowAlert("Error", "Failed to connect: " + errorMessage)];
      }
      assert trace == Attempt(finalUrlToProcess, outcome);
    }
  }

  /** A normalised URL without a trailing slash or trailing whitespace is a
      fixed point of normalisation. */
  lemma NormalizeFixedPoint(url: string)
    requires HasScheme(url) && IsTrimmed(url) && !EndsWith(url, "/")
    ensures NormalizeUrl(url) == url
  {
    TrimIdentity(url);
  }

  /** Only one slash is stripped, so normalisation is not idempotent:
      "x//" becomes "http://x/", which becomes "http://x". */
  lemma NormalizeNotIdempotent()
    ensures NormalizeUrl("x//") == "http://x/"
    ensures NormalizeUrl(NormalizeUrl("x//")) == "http://x"
  {
    TrimIdentity("x//");
    TrimIdentity("http://x/");
  }

  /** Input whose trimmed form has no trailing slash and no scheme is
      prefixed with `http://` and otherwise kept. */
  lemma NormalizeAddsScheme(input: string, t: string)
    requires Trim(input) == t && !EndsWith(t, "/") && !HasScheme(t)
    ensures NormalizeUrl(input) == "http://" + t
  {
  }

  /** Surrounding whitespace goes before the slash is stripped: a host
      with one trailing slash, padded with whitespace on both sides,
      normalises to the bare host with `http://` in front. */
  lemma NormalizeSurroundingWhitespace(p: string, host: string, q: string)
    requires AllWhitespace(p) && AllWhitespace(q)
    requires host != [] && !IsWhitespace(host[0]) && !HasScheme(host)
    ensures NormalizeUrl(p + host + "/" + q) == "http://" + host
  {
    var core := host + "/";
    assert p + host + "/" + q == p + core + q;
    TrimSurrounded(p, core, q);
    assert core[..|core| - 1] == host;
  }
}
