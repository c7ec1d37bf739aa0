/** The `auth` slice of the Redux store: the connection session. Each
    reducer assigns fields of the state record in place. */
module AuthSlice {

  import opened Wrappers

  class AuthState {
    var serverUrl: Option<string>
    var isConnecting: bool
    var isConnected: bool
    var error: Option<string>

    /** The slice's `initialState`: no server, idle, no error. */
    predicate IsInitial()
      reads this
    {
      serverUrl == None && !isConnecting && !isConnected && error == None
    }

    /** A connection is never both in progress and established. */
    predicate NeverBoth()
      reads this
    {
      !(isConnecting && isConnected)
    }

    constructor ()
      ensures IsInitial() && NeverBoth()
    {
      serverUrl := None;
      isConnecting := false;
      isConnected := false;
      error := None;
    }

    /** `connectStart`: an attempt is under way; the stored URL is kept. */
    method ConnectStart()
      modifies this
      ensures isConnecting && !isConnected && error == None
      ensures serverUrl == old(serverUrl)
      ensures NeverBoth()
    {
      isConnecting := true;
      isConnected := false;
      error := None;
    }

    /** `connectSuccess({url})`: connected to `url`. */
    method ConnectSuccess(url: string)
      modifies this
      ensures !isConnecting && isConnected && error == None
      ensures serverUrl == Some(url)
      ensures NeverBoth()
    {
      isConnecting := false;
      isConnected := true;
      serverUrl := Some(url);
      error := None;
    }

    /** `connectFailure(message)`: neither connecting nor connected, with the
        message as the error; a previously stored URL survives. */
    method ConnectFailure(message: string)
      modifies this
      ensures !isConnecting && !isConnected && error == Some(message)
      ensures serverUrl == old(serverUrl)
      ensures NeverBoth()
    {
      isConnecting := false;
      isConnected := false;
      error := Some(message);
    }

    /** `disconnect`: back to exactly the initial state, from any state. */
    method Disconnect()
      modifies this
      ensures IsInitial() && NeverBoth()
    {
      serverUrl := None;
      isConnected := false;
      isConnecting := false;
      error := None;
    }
  }
}
