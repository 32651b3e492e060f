/**
 * The `aiResponse` slice of Frontened/src/redux/aiChatslicer.js: the chat
 * history shown beside a problem, a loading flag, the last error and the id
 * of the problem the chat belongs to. Each case reducer assigns fields of the
 * state in place.
 */
module AiChatSlice {
  import opened Js

  /** The error shown when a rejected request carries no message. */
  const ServerDownMessage: string := "Server down! Please wait OR try again later"

  /** The error a rejection leaves: `action.payload?.message || ServerDownMessage`. */
  function RejectedError(message: JsValue): (r: JsValue)
    ensures Truthy(r)
    ensures Truthy(message) <==> r == message
    ensures !Truthy(message) ==> r == Str(ServerDownMessage)
  {
    Or(message, Str(ServerDownMessage))
  }

  class AiChatState {
    /** The messages in the order they were added; each is a reducer payload. */
    var chatHistory: seq<JsValue>
    var loading: bool
    var error: JsValue
    var problemId: JsValue

    /** A request in flight has no error recorded against it. */
    predicate Valid()
      reads this
    {
      loading ==> error == Null
    }

    /** initialState. */
    constructor ()
      ensures chatHistory == [] && !loading && error == Null && problemId == Null
      ensures Valid()
    {
      chatHistory := [];
      loading := false;
      error := Null;
      problemId := Null;
    }

    /** resetChat: empty history and no error; loading and problemId stay. */
    method ResetChat()
      requires Valid()
      modifies this
      ensures chatHistory == [] && error == Null
      ensures loading == old(loading) && problemId == old(problemId)
      ensures Valid()
    {
      chatHistory := [];
      error := Null;
    }

    /** updateChat: the payload goes at the end; earlier entries are kept. */
    method UpdateChat(payload: JsValue)
      requires Valid()
      modifies this
      ensures chatHistory == old(chatHistory) + [payload]
      ensures chatHistory[..|old(chatHistory)|] == old(chatHistory) && chatHistory[|chatHistory| - 1] == payload
      ensures loading == old(loading) && error == old(error) && problemId == old(problemId)
      ensures Valid()
    {
      chatHistory := chatHistory + [payload];
    }

    /** trackId: only problemId changes. */
    method TrackId(payload: JsValue)
      requires Valid()
      modifies this
      ensures problemId == payload
      ensures chatHistory == old(chatHistory) && loading == old(loading) && error == old(error)
      ensures Valid()
    {
      problemId := payload;
    }

    /** fetchAiResponse.pending. */
    method FetchPending()
      requires Valid()
      modifies this
      ensures loading && error == Null
      ensures chatHistory == old(chatHistory) && problemId == old(problemId)
      ensures Valid()
    {
      loading := true;
      error := Null;
    }

    /** fetchAiResponse.fulfilled: the reply is appended to the history. */
    method FetchFulfilled(payload: JsValue)
      requires Valid()
      modifies this
      ensures !loading && chatHistory == old(chatHistory) + [payload]
      ensures error == old(error) && problemId == old(problemId)
      ensures Valid()
    {
      loading := false;
      chatHistory := chatHistory + [payload];
    }

    /**
     * fetchAiResponse.rejected; `message` is `action.payload?.message`
     * (`undefined` when there is no payload). The error left is always truthy.
     */
    method FetchRejected(message: JsValue)
      requires Valid()
      modifies this
      ensures !loading && error == RejectedError(message)
      ensures Truthy(error)
      ensures chatHistory == old(chatHistory) && problemId == old(problemId)
      ensures Valid()
    {
      loading := false;
      error := Or(message, Str(ServerDownMessage));
    }
  }
}
