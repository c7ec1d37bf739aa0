/** Concrete inputs of the server-connection route and what the model
    makes of them. */
module AppServerConnectionExamples {

  import opened Strings
  import opened ApiClient
  import opened Connection
  import opened AppServerConnection

  /** A trimmed host that does not start with `h` and has no trailing
      slash is prefixed with `http://`. */
  lemma HostGainsScheme(host: string)
    requires host != [] && host[0] != 'h' && IsTrimmed(host)
    requires host[|host| - 1] != '/'
    ensures NormalizeUrl(host) == "http://" + host
  {
    assert "http://"[0] == 'h' && "https://"[0] == 'h';
    TrimIdentity(host);
  }

  /** A bare host gains `http://`. */
  lemma NormalizeBareHost()
    ensures NormalizeUrl("test-server.com") == "http://test-server.com"
  {
    var host := "test-server.com";
    assert host[0] == 't' && host[|host| - 1] == 'm';
    HostGainsScheme(host);
    assert "http://" + host == "http://test-server.com";
  }

  /** An explicit `https` URL keeps its scheme and loses its trailing
      slash. */
  lemma NormalizeHttpsTrailingSlash()
    ensures NormalizeUrl("https://x.com/") == "https://x.com"
  {
    var input := "https://x.com/";
    assert input[0] == 'h' && input[|input| - 1] == '/';
    TrimIdentity(input);
    HttpsHostStripped();
  }

  // One literal fact on its own, so that the caller's proof stays cheap.
  lemma HttpsHostStripped()
    ensures StripOneSlash("https://x.com/") == "https://x.com"
    ensures HasScheme("https://x.com")
  {
    assert "https://x.com" == "https://" + "x.com";
  }

  // One literal fact on its own, so that the caller's proof stays cheap.
  lemma BareSchemeTrimmed()
    ensures Trim("http://") == "http://"
  {
    var s := "http://";
    assert s[0] == 'h' && s[|s| - 1] == '/';
    TrimIdentity(s);
  }

  // One literal fact on its own, so that the caller's proof stays cheap.
  lemma BareSchemeStripped()
    ensures StripOneSlash("http://") == "http:/"
  {
  }

  /** Six characters are too few for either scheme. */
  lemma StrippedSchemeHasNone()
    ensures !HasScheme("http:/")
  {
    assert |"http:/"| < |"http://"| < |"https://"|;
  }

  // One literal fact on its own, so that the caller's proof stays cheap.
  lemma BareSchemeRePrefixed()
    ensures "http://" + "http:/" == "http://http:/"
  {
  }

  /** A URL consisting of a scheme alone loses the slash that made it a
      scheme and is prefixed again. */
  lemma SchemeOnlyInput()
    ensures NormalizeUrl("http://") == "http://http:/"
  {
    BareSchemeTrimmed();
    BareSchemeStripped();
    StrippedSchemeHasNone();
    BareSchemeRePrefixed();
  }

  // One literal fact on its own, so that the caller's proof stays cheap.
  lemma FailHostWithScheme()
    ensures "http://" + "fail.example.com" == "http://fail.example.com"
  {
  }

  /** The failure scenario against the stub server: a host containing
      "fail" is probed with `http://` prefixed and refused, and the session
      records the refusal message. */
  lemma RefusedHostScenario()
    ensures var trace := ConnectTrace("fail.example.com", RealProbe);
            trace == [ConnectStart, ProbeCalled("http://fail.example.com"),
                      ConnectFailure(RefusedMessage), ShowAlert("Error", RefusedMessage)]
  {
    var host := "fail.example.com";
    assert host[0] == 'f' && host[|host| - 1] == 'm';
    HostGainsScheme(host);
    FailHostWithScheme();
    FailHostIsRefused();
  }
}
