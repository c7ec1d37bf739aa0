/** Concrete inputs of the stack navigator's connection screen and what the
    model makes of them. */
module ScreenServerConnectionExamples {

  import opened Strings
  import opened Connection
  import opened ScreenServerConnection

  /** Empty input neither probes nor dispatches anything. */
  lemma EmptyInputDoesNothing(probe: string -> ProbeOutcome)
    ensures ConnectTrace("", probe) == []
  {
  }

  /** A bare host is probed with `http://` in front. */
  lemma NormalizeBareHost()
    ensures NormalizeUrl("test-server.com") == "http://test-server.com"
  {
    var host := "test-server.com";
    assert "http://" + host == "http://test-server.com";
    assert host[0] == 't' && host[|host| - 1] == 'm';
    assert "http://"[0] == 'h' && "https://"[0] == 'h';
    TrimIdentity(host);
  }

  // One literal fact on its own, so that the caller's proof stays cheap.
  lemma NetworkErrorMessage()
    ensures ErrorPrefix + "Network error" == "接続エラー: Network error"
  {
  }

  /** A probe that throws `Error("Network error")` leaves the prefixed
      message as the session's error, after the one probe of the normalised
      URL. */
  lemma NetworkErrorScenario(probe: string -> ProbeOutcome)
    requires probe("http://test-server.com") == Threw(ErrorInstance("Network error"))
    ensures ConnectTrace("test-server.com", probe)
            == [ConnectStart, ProbeCalled("http://test-server.com"),
                ConnectFailure("接続エラー: Network error")]
  {
    NormalizeBareHost();
    assert !IsBlank("test-server.com");
    NetworkErrorMessage();
  }
}
