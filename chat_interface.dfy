/** The streaming exchange handled by the chat component: the conversation list, the
    loading flag, the abort-controller reference, and the send handler whose `fetch`
    and read loop are driven here by one method per event the handler reacts to. */
module ChatInterface {
  import Text

  datatype Role = User | Assistant

  /** One entry of the conversation; there is no status field. */
  datatype Message = Message(role: Role, content: string)

  /** Where the suspended send handler stands: no exchange, waiting for the response,
      or reading the body with `text` accumulated so far (its `assistantMessage`). */
  datatype Stage = Idle | Fetching | Reading(text: string)

  /** What the transport does with one request, for a whole run of the handler. The
      component calls `abort()` only from its clear handler, which also empties the
      list; so the two abort cases describe only what the send handler itself leaves
      in the list it is given, not a conversation the user ever sees. */
  datatype Ending = Done | ReadFailed(message: string) | ReadAborted
  datatype Transport =
    | FetchFailed(message: string)
    | FetchAborted
    | NotOk(statusText: string)
    | NoBody
    | Body(chunks: seq<string>, ending: Ending)

  const FallbackError := "Failed to get response from API"
  const NoBodyError := "No response body"

  /** The chunks received so far, joined in arrival order. */
  function Concat(chunks: seq<string>): string
  {
    if chunks == [] then "" else chunks[0] + Concat(chunks[1..])
  }

  /** Joining one more chunk extends the joined text by exactly that chunk, so the
      text before a chunk is a prefix of the text after it. */
  lemma {:induction false} ConcatSnoc(chunks: seq<string>, chunk: string)
    ensures Concat(chunks + [chunk]) == Concat(chunks) + chunk
    ensures Concat(chunks) <= Concat(chunks + [chunk])
  {
    if chunks == [] {
      assert [chunk][1..] == [];
    } else {
      assert (chunks + [chunk])[1..] == chunks[1..] + [chunk];
      ConcatSnoc(chunks[1..], chunk);
    }
  }

  /** The entry the catch block appends: `Error: ` and the error's message, or the
      fallback text when that message is empty. */
  function ErrorEntry(message: string): Message
  {
    Message(Assistant, "Error: " + (if message == "" then FallbackError else message))
  }

  /** The conversation after one full run of the send handler on a non-blank message
      while idle, for a given transport behaviour. */
  function Transcript(before: seq<Message>, userMessage: string, transport: Transport): (r: seq<Message>)
    ensures before + [Message(User, userMessage)] <= r
    ensures |before| + 1 <= |r| <= |before| + 3
    ensures forall k :: |before| < k < |r| ==> r[k].role == Assistant
    ensures |r| == |before| + 3 <==> transport.Body? && transport.ending.ReadFailed?
    ensures |r| == |before| + 1 <==> transport.FetchAborted?
    ensures transport.Body? ==> r[|before| + 1] == Message(Assistant, Concat(transport.chunks))
  {
    var sent := before + [Message(User, userMessage)];
    match transport
    case FetchFailed(message) => sent + [ErrorEntry(message)]
    case FetchAborted => sent
    case NotOk(statusText) => sent + [ErrorEntry("API error: " + statusText)]
    case NoBody => sent + [ErrorEntry(NoBodyError)]
    case Body(chunks, ending) =>
      var answered := sent + [Message(Assistant, Concat(chunks))];
      match ending
      case Done => answered
      case ReadAborted => answered
      case ReadFailed(message) => answered + [ErrorEntry(message)]
  }

  class ChatSession {
    var messages: seq<Message>
    var isLoading: bool
    /** Whether `abortControllerRef.current` holds a controller. */
    var hasController: bool
    var stage: Stage
    /** The chunks decoded so far in the current read loop. */
    ghost var chunks: seq<string>

    /** At most one exchange is in flight, the flag and the controller say exactly
        when, and while reading the last entry shows everything read so far. */
    ghost predicate Valid()
      reads this
    {
      && isLoading == !stage.Idle?
      && hasController == !stage.Idle?
      && (stage.Reading? ==>
            && |messages| > 0
            && messages[|messages| - 1] == Message(Assistant, stage.text)
            && stage.text == Concat(chunks))
    }

    constructor ()
      ensures Valid()
      ensures messages == [] && !isLoading && !hasController && stage == Idle
    {
      messages := [];
      isLoading := false;
      hasController := false;
      stage := Idle;
      chunks := [];
    }

    /** The start of `handleSendMessage`: a blank message, or one sent while loading,
        changes nothing; otherwise the message is appended exactly as typed, the flag
        is raised and a controller is created before the request goes out. */
    method Send(userMessage: string) returns (requested: bool)
      requires Valid()
      modifies this
      ensures Valid()
      ensures requested <==> !Text.IsBlank(userMessage) && !old(isLoading)
      ensures !requested ==>
        && messages == old(messages) && isLoading == old(isLoading)
        && hasController == old(hasController) && stage == old(stage)
      ensures requested ==>
        && messages == old(messages) + [Message(User, userMessage)]
        && isLoading && hasController && stage == Fetching
    {
      if Text.Trim(userMessage) == [] || isLoading {
        return false;
      }
      messages := messages + [Message(User, userMessage)];
      isLoading := true;
      hasController := true;
      stage := Fetching;
      requested := true;
    }

    /** The response is ok and has a body: an empty assistant placeholder is appended
        before any chunk is read. */
    method ResponseOk()
      requires Valid() && stage == Fetching
      modifies this
      ensures Valid()
      ensures messages == old(messages) + [Message(Assistant, "")]
      ensures stage == Reading("") && chunks == []
      ensures isLoading && hasController
    {
      messages := messages + [Message(Assistant, "")];
      stage := Reading("");
      chunks := [];
    }

    /** The response is not ok: the handler throws `API error: <statusText>`. */
    method ResponseNotOk(statusText: string)
      requires Valid() && stage == Fetching
      modifies this
      ensures Valid()
      ensures messages == old(messages) + [ErrorEntry("API error: " + statusText)]
      ensures messages[|messages| - 1].content == "Error: API error: " + statusText
      ensures !isLoading && !hasController && stage == Idle
    {
      var message := "API error: " + statusText;
      assert message[0] == 'A';
      assert "Error: " + message == "Error: API error: " + statusText;
      Error(message);
    }

    /** The response is ok but carries no body: the handler throws `No response body`. */
    method ResponseWithoutBody()
      requires Valid() && stage == Fetching
      modifies this
      ensures Valid()
      ensures messages == old(messages) + [Message(Assistant, "Error: " + NoBodyError)]
      ensures !isLoading && !hasController && stage == Idle
    {
      Error(NoBodyError);
    }

    /** One decoded chunk: the accumulated text grows by the chunk and replaces the
        last entry; the length and every earlier entry stay as they were. */
    method Chunk(chunk: string)
      requires Valid() && stage.Reading?
      modifies this
      ensures Valid()
      ensures chunks == old(chunks) + [chunk]
      ensures stage == Reading(old(stage.text) + chunk)
      ensures old(stage.text) <= stage.text
      ensures |messages| == |old(messages)|
      ensures messages[..|messages| - 1] == old(messages[..|messages| - 1])
      ensures messages[|messages| - 1] == Message(Assistant, Concat(chunks))
      ensures isLoading && hasController
    {
      ConcatSnoc(chunks, chunk);
      var text := stage.text + chunk;
      messages := messages[|messages| - 1 := Message(Assistant, text)];
      stage := Reading(text);
      chunks := chunks + [chunk];
    }

    /** The reader reports `done`: the loop ends and the `finally` block resets the
        flag and the controller; the conversation keeps the streamed answer. */
    method End()
      requires Valid() && stage.Reading?
      modifies this
      ensures Valid()
      ensures messages == old(messages)
      ensures !isLoading && !hasController && stage == Idle
    {
      Finish();
    }

    /** A pending await rejects with an `AbortError`: the catch block returns without
        touching the conversation and the `finally` block still runs. */
    method Abort()
      requires !stage.Idle?
      modifies this
      ensures Valid()
      ensures messages == old(messages)
      ensures !isLoading && !hasController && stage == Idle
    {
      Finish();
    }

    /** Any other failure while fetching or reading: one error entry is appended after
        everything already there, partial answer included, then `finally` runs. */
    method Error(message: string)
      requires Valid() && !stage.Idle?
      modifies this
      ensures Valid()
      ensures messages == old(messages) + [ErrorEntry(message)]
      ensures !isLoading && !hasController && stage == Idle
    {
      messages := messages + [ErrorEntry(message)];
      Finish();
    }

    /** The `finally` block: the exchange is over whichever way it ended. */
    method Finish()
      modifies this
      ensures Valid()
      ensures messages == old(messages)
      ensures !isLoading && !hasController && stage == Idle
    {
      isLoading := false;
      hasController := false;
      stage := Idle;
    }

    /** `handleClearChat`: signals the controller if there is one, empties the list and
        lowers the flag. The signal rejects the handler's pending await at once, and
        its continuation runs before any later event, so the abort path is taken here
        too and the exchange ends without touching the emptied list. */
    method Clear() returns (signaled: bool)
      requires Valid()
      modifies this
      ensures Valid()
      ensures signaled == old(hasController)
      ensures messages == [] && !isLoading && !hasController && stage == Idle
    {
      signaled := hasController;
      messages := [];
      isLoading := false;
      if !stage.Idle? {
        Abort();
      }
    }

    /** A whole run of `handleSendMessage` against one transport behaviour, with the
        read loop applying every chunk in arrival order. */
    method HandleSendMessage(userMessage: string, transport: Transport) returns (requested: bool)
      requires Valid()
      modifies this
      ensures Valid()
      ensures requested <==> !Text.IsBlank(userMessage) && !old(isLoading)
      ensures !requested ==>
        && messages == old(messages) && isLoading == old(isLoading)
        && hasController == old(hasController) && stage == old(stage)
      ensures requested ==>
        && messages == Transcript(old(messages), userMessage, transport)
        && !isLoading && !hasController && stage == Idle
    {
      requested := Send(userMessage);
      if !requested {
        return;
      }
      ghost var sent := messages;
      match transport {
        case FetchFailed(message) =>
          Error(message);
        case FetchAborted =>
          Abort();
        case NotOk(statusText) =>
          ResponseNotOk(statusText);
        case NoBody =>
          ResponseWithoutBody();
        case Body(received, ending) =>
          ResponseOk();
          var i := 0;
          while i < |received|
            invariant 0 <= i <= |received|
            invariant Valid() && stage.Reading?
            invariant chunks == received[..i]
            invariant messages == sent + [Message(Assistant, Concat(received[..i]))]
          {
            Chunk(received[i]);
            assert received[..i + 1] == received[..i] + [received[i]];
            i := i + 1;
          }
          assert received[..i] == received;
          match ending {
            case Done => End();
            case ReadAborted => Abort();
            case ReadFailed(message) => Error(message);
          }
      }
    }
  }
}
