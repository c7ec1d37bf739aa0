/** The older server-connection screen of the stack navigator: it trims the
    input and adds a scheme, but strips no slash, shows no alerts and
    navigates to `Home` on success. */
module ScreenServerConnection {

  import opened Wrappers
  import opened Strings
  import opened AuthSlice
  import opened ApiClient
  import opened Connection
  import AppServerConnection

  const RefusedMessage: string := "サーバーに接続できませんでした。URLを確認してください。"
  const ErrorPrefix: string := "接続エラー: "
  const UnknownErrorMessage: string := "不明なエラー"

  /** The URL the screen probes and stores: the trimmed input, with
      `http://` in front when it names neither `http` nor `https`. */
  function NormalizeUrl(input: string): (url: string)
    ensures HasScheme(url)
    ensures url == Trim(input) || url == "http://" + Trim(input)
  {
    WithScheme(Trim(input))
  }

  /** The message stored when the probe did not succeed: the fixed refusal
      text, or after a throw the screen's prefix followed by the `Error`'s
      own message or by "不明なエラー"; never empty. */
  function FailureMessage(outcome: ProbeOutcome): (m: string)
    requires outcome != Resolved(true)
    ensures outcome.Resolved? ==> m == RefusedMessage
    ensures outcome.Threw? ==>
              ErrorPrefix <= m
              && m[|ErrorPrefix|..] == (if outcome.thrown.ErrorInstance? then outcome.thrown.message
                                        else UnknownErrorMessage)
    ensures m != ""
  {
    match outcome
    case Resolved(_) => RefusedMessage
    case Threw(ErrorInstance(message)) => ErrorPrefix + message
    case Threw(NonError) => ErrorPrefix + UnknownErrorMessage
  }

  /** A connect attempt on `url` whose probe settled as `outcome`:
      `connectStart`, the probe, and then either the client initialisation,
      `connectSuccess` and the move to `Home`, or `connectFailure` and
      nothing else. */
  function Attempt(url: string, outcome: ProbeOutcome): (trace: seq<Event>)
    ensures |trace| == (if outcome == Resolved(true) then 5 else 3)
    ensures trace[0] == ConnectStart && trace[1] == ProbeCalled(url)
    ensures outcome == Resolved(true) ==>
              trace[2] == ApiClientInitialized(url) && trace[3] == ConnectSuccess(url)
              && trace[4] == Navigate("Home")
    ensures outcome != Resolved(true) ==>
              trace[2] == ConnectFailure(FailureMessage(outcome))
              && forall k :: 0 <= k < |trace| ==> !trace[k].Navigate? && !trace[k].ConnectSuccess?
  {
    if outcome == Resolved(true) then
      [ConnectStart, ProbeCalled(url), ApiClientInitialized(url), ConnectSuccess(url), Navigate("Home")]
    else
      [ConnectStart, ProbeCalled(url), ConnectFailure(FailureMessage(outcome))]
  }

  /** Everything `handleConnect` does: blank input does nothing at all,
      anything else is an attempt on its normalised URL. */
  function ConnectTrace(input: string, probe: string -> ProbeOutcome): (trace: seq<Event>)
    ensures IsBlank(input) <==> trace == []
    ensures !IsBlank(input) ==> trace == Attempt(NormalizeUrl(input), probe(NormalizeUrl(input)))
  {
    if IsBlank(input) then []
    else
      var url := NormalizeUrl(input);
      Attempt(url, probe(url))
  }

  /** The component's state: the text in the URL field. */
  class ServerConnectionScreen {
    var serverUrl: string

    /** The field starts empty. */
    constructor ()
      ensures serverUrl == ""
    {
      serverUrl := "";
    }

    /** The text field's `onChangeText`. */
    method SetServerUrl(text: string)
      modifies this
      ensures serverUrl == text
    {
      serverUrl := text;
    }

    /** `handleConnect`, with the awaited probe given as `probe`. Returns the
        events it produced; the session and the client cell end as those
        events say, and blank input changes neither. */
    method HandleConnect(auth: AuthState, client: ApiClient, probe: string -> ProbeOutcome)
      returns (trace: seq<Event>)
      modifies auth, client
      ensures trace == ConnectTrace(serverUrl, probe)
      ensures IsBlank(serverUrl) ==>
        && auth.serverUrl == old(auth.serverUrl) && auth.isConnecting == old(auth.isConnecting)
        && auth.isConnected == old(auth.isConnected) && auth.error == old(auth.error)
        && client.config == old(client.config)
      ensures !IsBlank(serverUrl) ==>
        var url := NormalizeUrl(serverUrl);
        var outcome := probe(url);
        if outcome == Resolved(true) then
          && auth.serverUrl == Some(url) && !auth.isConnecting && auth.isConnected && auth.error == None
          && client.config == Some(ApiClientConfig(url))
        else
          && auth.serverUrl == old(auth.serverUrl) && !auth.isConnecting && !auth.isConnected
          && auth.error == Some(FailureMessage(outcome))
          && client.config == old(client.config)
    {
      if Trim(serverUrl) == "" {
        trace := [];
        return;
      }
      var url := Trim(serverUrl);
      if !StartsWith(url, "http://") && !StartsWith(url, "https://") {
        url := "http://" + url;
      }
      assert url == NormalizeUrl(serverUrl);
      auth.ConnectStart();
      var outcome := probe(url);
      if outcome == Resolved(true) {
        client.InitializeApiClient(ApiClientConfig(url));
        auth.ConnectSuccess(url);
        trace := [ConnectStart, ProbeCalled(url), ApiClientInitialized(url), ConnectSuccess(url),
                  Navigate("Home")];
      } else if outcome.Resolved? {
        auth.ConnectFailure(RefusedMessage);
        trace := [ConnectStart, ProbeCalled(url), ConnectFailure(RefusedMessage)];
      } else {
        var message := ErrorPrefix + (if outcome.thrown.ErrorInstance? then outcome.thrown.message
                                      else UnknownErrorMessage);
        auth.ConnectFailure(message);
        trace := [ConnectStart, ProbeCalled(url), ConnectFailure(message)];
      }
    }
  }

  /** Adding `http://` in front of a trimmed string leaves it trimmed. */
  lemma WithSchemeKeepsTrimmed(t: string)
    requires IsTrimmed(t)
    ensures IsTrimmed(WithScheme(t))
  {
    var r := WithScheme(t);
    if r != t {
      assert r == "http://" + t;
      assert r[0] == 'h';
      assert r[|r| - 1] == if t == [] then '/' else t[|t| - 1];
    }
  }

  /** With no slash to strip, this screen's normalisation is idempotent:
      a normalised URL is trimmed and already has a scheme. */
  lemma NormalizeIdempotent(input: string)
    ensures NormalizeUrl(NormalizeUrl(input)) == NormalizeUrl(input)
  {
    var url := NormalizeUrl(input);
    WithSchemeKeepsTrimmed(Trim(input));
    TrimIdentity(url);
  }

  /** When the trimmed input does not end in a slash, both screens probe
      the same URL. */
  lemma NormalizeAgreesWithRoute(input: string)
    requires !EndsWith(Trim(input), "/")
    ensures NormalizeUrl(input) == AppServerConnection.NormalizeUrl(input)
  {
  }

  /** A trailing slash does not change whether a string names a scheme,
      unless the string is a bare scheme; so it survives `WithScheme`. */
  lemma WithSchemeKeepsSlash(u: string)
    requires u + "/" != "http://" && u + "/" != "https://"
    ensures WithScheme(u + "/") == WithScheme(u) + "/"
  {
    var t := u + "/";
    if !HasScheme(u) {
      assert "http://" + t == ("http://" + u) + "/";
    }
  }

  /** When the trimmed input ends in a slash, this screen keeps the slash
      the route strips, except for a bare scheme, where only the route adds
      a second `http://`. */
  lemma NormalizeKeepsSlash(input: string)
    requires EndsWith(Trim(input), "/")
    requires Trim(input) != "http://" && Trim(input) != "https://"
    ensures NormalizeUrl(input) == AppServerConnection.NormalizeUrl(input) + "/"
  {
    var t := Trim(input);
    var u := AppServerConnection.StripOneSlash(t);
    assert u + "/" == t;
    WithSchemeKeepsSlash(u);
  }
}
