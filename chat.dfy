/** The chat component's state and its event handlers: the transcript, the
    input box, the model list and selection, and the cursor of the exchange
    in progress, updated in place by the handlers. The backend calls
    `get_models` and `chat` are parameters: what they resolve with, or the
    fragments they stream and how they end. */
module ChatComponent {
  import opened Text
  import opened Conversation

  /** What `sendMessage` passes to the backend: the selected model and the
      transcript up to and including the new user message. */
  datatype ChatRequest = ChatRequest(model: string, messages: seq<Message>)

  class Chat {
    var messages: seq<Message>
    var input: string
    var models: seq<string>
    var selectedModel: string
    /** `assistantMessageId` of the current exchange. */
    var cursor: Option<nat>

    constructor ()
      ensures messages == [] && input == "" && models == [] && selectedModel == "" && cursor == None
    {
      messages, input, models, selectedModel, cursor := [], "", [], "", None;
    }

    /** `fetchModels`: `fetched` is the list `get_models` resolved with, or
        `None` when the call rejected or resolved with something that is not
        a list. A non-empty list makes its first entry the selection. */
    method FetchModels(fetched: Option<seq<string>>)
      modifies this
      ensures fetched.None? ==> models == old(models) && selectedModel == old(selectedModel)
      ensures fetched.Some? ==> models == fetched.value
      ensures fetched.Some? && |fetched.value| > 0 ==> selectedModel == fetched.value[0]
      ensures fetched.Some? && |fetched.value| == 0 ==> selectedModel == old(selectedModel)
      ensures messages == old(messages) && input == old(input) && cursor == old(cursor)
    {
      if fetched.Some? {
        models := fetched.value;
        if |fetched.value| > 0 {
          selectedModel := fetched.value[0];
        }
      }
    }

    /** `handleInputChange`: the input box now holds `value`. */
    method EditInput(value: string)
      modifies this
      ensures input == value
      ensures messages == old(messages) && models == old(models)
      ensures selectedModel == old(selectedModel) && cursor == old(cursor)
    {
      input := value;
    }

    /** `handleSelectChange`: selects `value` and empties the transcript, even
        when `value` is the model already selected. */
    method SelectModel(value: string)
      modifies this
      ensures selectedModel == value && messages == []
      ensures input == old(input) && models == old(models) && cursor == old(cursor)
    {
      selectedModel := value;
      messages := [];
    }

    /** The synchronous start of `sendMessage`. Blank input or no selected
        model leaves everything as it was and sends nothing. Otherwise the
        trimmed input is appended as a user message, the input box is
        cleared, the cursor starts at `None`, and the request for the backend
        is returned. */
    method Submit() returns (request: Option<ChatRequest>)
      modifies this
      ensures request.None? <==> !Admits(old(input), old(selectedModel))
      ensures request.None? ==> messages == old(messages) && input == old(input) && cursor == old(cursor)
      ensures request.Some? ==>
        && messages == AppendUser(old(messages), Trim(old(input)))
        && input == "" && cursor == None
        && request.value == ChatRequest(selectedModel, messages)
      ensures selectedModel == old(selectedModel) && models == old(models)
    {
      var text := Trim(input);
      if text == [] || selectedModel == [] {
        return None;
      }
      var userMessage := Message(User, text);
      messages := messages + [userMessage];
      input := "";
      cursor := None;
      request := Some(ChatRequest(selectedModel, messages));
    }

    /** `channel.onmessage`: folds one streamed fragment into the transcript. */
    method OnMessage(fragment: string)
      modifies this
      ensures Stream(messages, cursor) == FoldFragment(old(Stream(messages, cursor)), fragment)
      ensures input == old(input) && models == old(models) && selectedModel == old(selectedModel)
    {
      if |messages| > 0 && messages[|messages| - 1].role == Assistant && cursor == Some(|messages| - 1) {
        var last := messages[|messages| - 1];
        messages := messages[..|messages| - 1] + [Message(last.role, last.content + fragment)];
      } else {
        cursor := Some(|messages|);
        messages := messages + [Message(Assistant, fragment)];
      }
    }

    /** The `catch` of `sendMessage`: appends the error description as a new
        assistant message. */
    method OnError(failure: Failure)
      modifies this
      ensures messages == AppendError(old(messages), failure)
      ensures input == old(input) && models == old(models)
      ensures selectedModel == old(selectedModel) && cursor == old(cursor)
    {
      var details := match failure case ErrorObject(msg) => msg case Thrown(v) => v;
      messages := messages + [Message(Assistant, ErrorPrefix + details)];
    }

    /** The channel delivering a stream's fragments one after another, each
        folded by `OnMessage` in arrival order. */
    method Receive(fragments: seq<string>)
      modifies this
      ensures Stream(messages, cursor) == FoldAll(old(Stream(messages, cursor)), fragments)
      ensures input == old(input) && models == old(models) && selectedModel == old(selectedModel)
    {
      ghost var start := Stream(messages, cursor);
      var i := 0;
      while i < |fragments|
        invariant 0 <= i <= |fragments|
        invariant Stream(messages, cursor) == FoldAll(start, fragments[..i])
        invariant input == old(input) && models == old(models) && selectedModel == old(selectedModel)
      {
        assert fragments[..i + 1][..i] == fragments[..i];
        OnMessage(fragments[i]);
        i := i + 1;
      }
      assert fragments[..i] == fragments;
    }

    /** `sendMessage` as a whole, the backend answering with `reply`: the
        submission, then every fragment folded in arrival order, then the
        error description if the exchange was rejected. */
    method SendMessage(reply: Reply) returns (request: Option<ChatRequest>)
      modifies this
      ensures request.None? <==> !Admits(old(input), old(selectedModel))
      ensures request.None? ==> messages == old(messages) && input == old(input) && cursor == old(cursor)
      ensures request.Some? ==>
        && request.value == ChatRequest(old(selectedModel), old(messages) + [Message(User, Trim(old(input)))])
        && Stream(messages, cursor) == Exchange(old(messages), Trim(old(input)), reply)
        && input == ""
      ensures request.Some? ==>
        messages == old(messages) + [Message(User, Trim(old(input)))]
          + (if |reply.fragments| > 0 then [Message(Assistant, Concat(reply.fragments))] else [])
          + (if reply.failure.Some? then [ErrorNote(reply.failure.value)] else [])
      ensures selectedModel == old(selectedModel) && models == old(models)
    {
      ghost var before := messages;
      ghost var text := Trim(input);
      request := Submit();
      if request.None? {
        return;
      }
      Receive(reply.fragments);
      if reply.failure.Some? {
        OnError(reply.failure.value);
      }
      ExchangeShape(before, text, reply);
    }
  }
}
