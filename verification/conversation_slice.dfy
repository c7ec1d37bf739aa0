/** The `conversations` slice: the status machine around the conversation
    list fetch, and the thunk's choice of error message. */
module ConversationSlice {

  import opened Wrappers

  /** A conversation record as the API types declare it. */
  datatype Conversation = Conversation(id: string, title: string, createdAt: string, updatedAt: string)

  datatype Status = Idle | Loading | Succeeded | Failed

  /** JavaScript truthiness of a value that is a string or absent. */
  predicate Truthy(v: Option<string>) {
    v.Some? && v.value != ""
  }

  /** What the thunk's `catch` sees: `error.response.data.message` (absent
      when there is no response, no data or no message) and `error.message`. */
  datatype CaughtError = CaughtError(responseMessage: Option<string>, message: Option<string>)

  /** What the request made by the thunk produced: the list, or an error. */
  datatype FetchOutcome = Fetched(list: seq<Conversation>) | Threw(error: CaughtError)

  const DefaultFetchError: string := "Failed to fetch conversations"
  const UnknownError: string := "Unknown error"
  /** The `error.message` that Redux Toolkit puts on an action rejected
      through `rejectWithValue`. */
  const RejectedWithValueMessage: string := "Rejected"

  /** The thunk's error message: the server's message first, then the
      error's own message, then a fixed default; it is never empty. */
  function FetchErrorMessage(e: CaughtError): (m: string)
    ensures m != ""
    ensures Truthy(e.responseMessage) ==> m == e.responseMessage.value
    ensures !Truthy(e.responseMessage) && Truthy(e.message) ==> m == e.message.value
    ensures !Truthy(e.responseMessage) && !Truthy(e.message) ==> m == DefaultFetchError
  {
    if Truthy(e.responseMessage) then e.responseMessage.value
    else if Truthy(e.message) then e.message.value
    else DefaultFetchError
  }

  /** The error the `rejected` reducer stores: the payload if truthy, else
      the action's error message if truthy, else "Unknown error"; never
      empty. */
  function RejectedError(payload: Option<string>, errorMessage: Option<string>): (m: string)
    ensures m != ""
    ensures Truthy(payload) ==> m == payload.value
    ensures !Truthy(payload) ==> m == (if Truthy(errorMessage) then errorMessage.value else UnknownError)
  {
    if Truthy(payload) then payload.value
    else if Truthy(errorMessage) then errorMessage.value
    else UnknownError
  }

  /** A rejection raised by the thunk always carries its chosen message to
      the store: the fallbacks of the reducer are never reached. */
  lemma RejectedKeepsThunkMessage(e: CaughtError, errorMessage: Option<string>)
    ensures RejectedError(Some(FetchErrorMessage(e)), errorMessage) == FetchErrorMessage(e)
  {
  }

  class ConversationState {
    var conversations: seq<Conversation>
    var status: Status
    var error: Option<string>

    /** The error is set exactly when the last fetch failed. */
    predicate Valid()
      reads this
    {
      (status == Failed) <==> error.Some?
    }

    /** `initialState`: no conversations, idle, no error. */
    constructor ()
      ensures conversations == [] && status == Idle && error == None
      ensures Valid()
    {
      conversations := [];
      status := Idle;
      error := None;
    }

    /** `fetchConversations.pending`: loading, error cleared, list kept. */
    method Pending()
      modifies this
      ensures status == Loading && error == None
      ensures conversations == old(conversations)
      ensures Valid()
    {
      status := Loading;
      error := None;
    }

    /** `fetchConversations.fulfilled(list)`: the list replaces the old one
        wholesale. */
    method Fulfilled(list: seq<Conversation>)
      modifies this
      ensures status == Succeeded && error == None
      ensures conversations == list
      ensures Valid()
    {
      status := Succeeded;
      conversations := list;
      error := None;
    }

    /** `fetchConversations.rejected`: failed, with the chosen error; the
        list is kept. */
    method Rejected(payload: Option<string>, errorMessage: Option<string>)
      modifies this
      ensures status == Failed && error == Some(RejectedError(payload, errorMessage))
      ensures conversations == old(conversations)
      ensures Valid()
    {
      status := Failed;
      error := Some(RejectedError(payload, errorMessage));
    }

    /** One run of the `fetchConversations` thunk: `pending` is dispatched,
        then `fulfilled` with the fetched list or `rejected` with the
        thunk's message as payload. */
    method FetchConversations(outcome: FetchOutcome)
      modifies this
      ensures outcome.Fetched? ==> status == Succeeded && conversations == outcome.list && error == None
      ensures outcome.Threw? ==> status == Failed && conversations == old(conversations)
                                 && error == Some(FetchErrorMessage(outcome.error))
      ensures Valid()
    {
      Pending();
      match outcome {
        case Fetched(list) =>
          Fulfilled(list);
        case Threw(e) =>
          var message := FetchErrorMessage(e);
          Rejected(Some(message), Some(RejectedWithValueMessage));
          RejectedKeepsThunkMessage(e, Some(RejectedWithValueMessage));
      }
    }
  }
}
