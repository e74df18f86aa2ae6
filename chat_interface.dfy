/** The chat panel's one piece of logic (components/ChatInterface.tsx): the
    submit handler, which runs one exchange with the selected persona over
    the conversation it keeps. The panel's state (the input box, the list of
    turns, the loading flag) is the class ChatSession; the handler's steps
    between awaits are its methods, and Submit runs one exchange from start
    to end. */
module ChatInterface {
  import opened Types
  import opened Text
  import opened GeminiService

  /** The one system turn a failed exchange leaves behind. */
  const ErrorText := "Извините, произошла ошибка при обработке вашего запроса."

  /** The API role of a turn: the user's own turns are "user", the persona's
      answers and the error notices both count as the model's. */
  function HistoryRole(role: Role): (r: string)
    ensures r == "user" <==> role == User
    ensures r == "model" <==> role != User
  {
    if role == User then "user" else "model"
  }

  /** The conversation in the API's history format: one turn per message,
      same order, each with its message's text as the only part. */
  function ToHistory(messages: seq<Message>): (h: seq<Content>)
    ensures |h| == |messages|
    ensures forall i :: 0 <= i < |h| ==>
              (h[i].role == "user" <==> messages[i].role == User) &&
              (h[i].role == "model" <==> messages[i].role != User) &&
              h[i].parts == [Part(messages[i].content)]
  {
    seq(|messages|, i requires 0 <= i < |messages| =>
      Content(HistoryRole(messages[i].role), [Part(messages[i].content)]))
  }

  /** Turning a conversation into history commutes with appending to it. */
  lemma ToHistoryAppend(a: seq<Message>, b: seq<Message>)
    ensures ToHistory(a + b) == ToHistory(a) + ToHistory(b)
  {
    var h := ToHistory(a + b);
    forall i | 0 <= i < |h| ensures h[i] == (ToHistory(a) + ToHistory(b))[i] {
      if i < |a| { assert (a + b)[i] == a[i]; } else { assert (a + b)[i] == b[i - |a|]; }
    }
  }

  /** `messages.map(m => m.id === id ? {...m, content} : m)`: every message
      with that id gets the new content, every other message is kept. */
  function UpdateById(messages: seq<Message>, id: nat, content: string): (r: seq<Message>)
    ensures |r| == |messages|
    ensures forall i :: 0 <= i < |r| ==>
              r[i].id == messages[i].id && r[i].role == messages[i].role &&
              r[i].timestamp == messages[i].timestamp && r[i].modelUsed == messages[i].modelUsed
    ensures forall i :: 0 <= i < |r| ==>
              r[i].content == if messages[i].id == id then content else messages[i].content
  {
    seq(|messages|, i requires 0 <= i < |messages| =>
      if messages[i].id == id then messages[i].(content := content) else messages[i])
  }

  /** When one message alone carries the id, the update rewrites that
      message's content and nothing else. */
  lemma UpdateByIdOnlyTarget(messages: seq<Message>, k: nat, content: string)
    requires k < |messages|
    requires forall i :: 0 <= i < |messages| && i != k ==> messages[i].id != messages[k].id
    ensures UpdateById(messages, messages[k].id, content) == messages[k := messages[k].(content := content)]
  {
  }

  /** Ids are allocated from a counter: all ids in use are below it, and no
      two messages share one. */
  ghost predicate IdsFresh(messages: seq<Message>, nextId: nat) {
    (forall i :: 0 <= i < |messages| ==> messages[i].id < nextId) &&
    (forall i, j :: 0 <= i < j < |messages| ==> messages[i].id != messages[j].id)
  }

  /** The handler's own state while its stream runs: the trimmed prompt, the
      persona, the placeholder's id and the history sent. */
  datatype Exchange = Exchange(prompt: string, model: ModelId, placeholderId: nat, history: seq<Content>)

  /** What the stream does: the chunks it delivers, and, when it breaks, how
      many of them arrive before it throws. */
  datatype Upstream = Upstream(chunks: seq<Option<string>>, failAt: Option<nat>) {
    predicate Fails() {
      failAt.Some?
    }

    /** The chunks that arrive before the stream ends or throws. */
    function Delivered(): (d: seq<Option<string>>)
      ensures d <= chunks
      ensures failAt.None? ==> d == chunks
      ensures failAt.Some? ==> |d| == if failAt.value < |chunks| then failAt.value else |chunks|
    {
      if failAt.Some? && failAt.value < |chunks| then chunks[..failAt.value] else chunks
    }
  }

  /** No rollback and no reordering: the reply a broken stream leaves
      behind is a prefix of the reply the whole stream would have given. */
  lemma PartialReplyIsPrefix(upstream: Upstream)
    ensures Concat(NonEmptyTexts(upstream.Delivered())) <= Concat(NonEmptyTexts(upstream.chunks))
  {
    var d := upstream.Delivered();
    var rest := upstream.chunks[|d|..];
    assert upstream.chunks == d + rest;
    NonEmptyTextsSplit(d, rest);
    ConcatSplit(NonEmptyTexts(d), NonEmptyTexts(rest));
  }

  /** The user's turn (the trimmed prompt), which goes to the API as a
      `user` turn. */
  function UserMessage(prompt: string, id: nat, now: nat): (m: Message)
    ensures m.content == prompt && m.id == id && m.modelUsed == None
    ensures ToHistory([m]) == [UserTurn(prompt)]
  {
    Message(User, prompt, id, now, None)
  }

  /** The persona's turn before any piece has arrived: empty, tagged with the
      persona, and a `model` turn to the API. */
  function Placeholder(model: ModelId, id: nat, now: nat): (m: Message)
    ensures m.content == "" && m.id == id && m.modelUsed == Some(model)
    ensures HistoryRole(m.role) == "model"
  {
    Message(Assistant, "", id, now, Some(model))
  }

  /** The turn a thrown stream adds: the fixed apology, which goes back to
      the API as a `model` turn like any assistant reply. */
  function ErrorMessage(id: nat, now: nat): (m: Message)
    ensures m.content == ErrorText && m.id == id && m.modelUsed == None
    ensures ToHistory([m]) == [Content("model", [Part(ErrorText)])]
  {
    Message(System, ErrorText, id, now, None)
  }

  /** The turns one taken submission adds: the user turn with the prompt,
      the persona's turn with the reply, and the error turn when the stream
      threw; ExchangeTurnsShape spells it out. */
  function ExchangeTurns(prompt: string, persona: ModelId, firstId: nat, now: nat, upstream: Upstream): (turns: seq<Message>)
    ensures |turns| == (if upstream.Fails() then 3 else 2)
    ensures forall i :: 0 <= i < |turns| ==> turns[i].id == firstId + i
  {
    [UserMessage(prompt, firstId, now),
     Placeholder(persona, firstId + 1, now).(content := Concat(NonEmptyTexts(upstream.Delivered())))] +
    (if upstream.Fails() then [ErrorMessage(firstId + 2, now)] else [])
  }

  /** A taken submission adds, in order: one user turn with the prompt, one
      assistant turn tagged with the persona and holding every non-empty
      piece that arrived, joined in arrival order, and, exactly when the
      stream threw, one system turn with the fixed error text. Their ids are
      consecutive from `firstId`. */
  lemma ExchangeTurnsShape(prompt: string, persona: ModelId, firstId: nat, now: nat, upstream: Upstream)
    ensures var turns := ExchangeTurns(prompt, persona, firstId, now, upstream);
            |turns| == (if upstream.Fails() then 3 else 2) &&
            turns[0].role == User && turns[0].content == prompt && turns[0].modelUsed == None &&
            turns[1].role == Assistant && turns[1].modelUsed == Some(persona) &&
            turns[1].content == Concat(NonEmptyTexts(upstream.Delivered())) &&
            (upstream.Fails() ==> turns[2].role == System && turns[2].content == ErrorText) &&
            forall i :: 0 <= i < |turns| ==> turns[i].id == firstId + i && turns[i].timestamp == now
  {
  }

  /** A submission is taken when the trimmed input is not empty and no
      exchange is under way. */
  function Accepts(input: string, isLoading: bool): (taken: bool)
    ensures taken <==> !isLoading && !AllWhitespace(input)
  {
    Trim(input) != "" && !isLoading
  }

  /** The state of the chat panel. Wall-clock ids are replaced by a counter,
      `nextId`, and the clock itself by the `now` arguments. */
  class ChatSession {
    var input: string
    var messages: seq<Message>
    var isLoading: bool
    var nextId: nat

    ghost predicate Valid()
      reads this
    {
      IdsFresh(messages, nextId)
    }

    /** The panel as first rendered: empty box, no turns, not loading. */
    constructor ()
      ensures Valid()
      ensures input == "" && messages == [] && !isLoading && nextId == 0
    {
      input := "";
      messages := [];
      isLoading := false;
      nextId := 0;
    }

    /** Typing into the box. */
    method SetInput(text: string)
      modifies this`input
      ensures input == text
    {
      input := text;
    }

    /** The handler up to its first await: the guard, the user turn, the
        cleared box, the loading flag, the placeholder tagged with the
        persona, and the history of the turns that existed before. A refused
        submission changes nothing. */
    method BeginSubmit(selected: ModelId, now: nat) returns (ex: Option<Exchange>)
      requires Valid()
      modifies this
      ensures Valid()
      ensures ex.Some? <==> Accepts(old(input), old(isLoading))
      ensures ex.None? ==> unchanged(this)
      ensures ex.Some? ==>
                var prompt := Trim(old(input));
                messages == old(messages) + [UserMessage(prompt, old(nextId), now),
                                             Placeholder(selected, old(nextId) + 1, now)] &&
                input == "" && isLoading && nextId == old(nextId) + 2 &&
                ex.value == Exchange(prompt, selected, old(nextId) + 1, ToHistory(old(messages)))
    {
      if Trim(input) == "" || isLoading {
        return None;
      }
      var prompt := Trim(input);
      var history := ToHistory(messages);
      var userMessage := UserMessage(prompt, nextId, now);
      messages := messages + [userMessage];
      input := "";
      isLoading := true;
      var placeholderId := nextId + 1;
      messages := messages + [Placeholder(selected, placeholderId, now)];
      nextId := nextId + 2;
      ex := Some(Exchange(prompt, selected, placeholderId, history));
    }

    /** One streamed piece has arrived: the placeholder (found by id) now
        shows everything received so far. */
    method ReceiveChunk(placeholderId: nat, fullResponse: string)
      requires Valid()
      modifies this`messages
      ensures Valid()
      ensures messages == UpdateById(old(messages), placeholderId, fullResponse)
    {
      messages := UpdateById(messages, placeholderId, fullResponse);
    }

    /** The `for await` loop over the stream: each piece is added to what
        has arrived so far and the placeholder, the last turn, is shown with
        the total. When the loop ends the placeholder holds all pieces joined
        in arrival order; every other turn is as it was. */
    method ConsumeStream(placeholderId: nat, pieces: seq<string>)
      requires Valid()
      requires |messages| > 0 && messages[|messages| - 1].id == placeholderId
      requires messages[|messages| - 1].content == ""
      modifies this`messages
      ensures Valid()
      ensures |messages| == |old(messages)|
      ensures messages[..|messages| - 1] == old(messages)[..|messages| - 1]
      ensures messages[|messages| - 1] ==
                old(messages)[|messages| - 1].(content := Concat(pieces))
    {
      ghost var last := |messages| - 1;
      ghost var target := messages[last];
      ghost var earlier := messages[..last];
      assert messages == earlier + [target.(content := "")];
      var fullResponse := "";
      var k := 0;
      while k < |pieces|
        invariant 0 <= k <= |pieces|
        invariant Valid()
        invariant fullResponse == Concat(pieces[..k])
        invariant messages == earlier + [target.(content := fullResponse)]
      {
        ConcatAppend(pieces[..k], pieces[k]);
        assert pieces[..k + 1] == pieces[..k] + [pieces[k]];
        fullResponse := fullResponse + pieces[k];
        UpdateByIdOnlyTarget(messages, last, fullResponse);
        ReceiveChunk(placeholderId, fullResponse);
        k := k + 1;
      }
      assert pieces[..k] == pieces;
    }

    /** The stream threw: one fixed system turn goes at the end; the partial
        reply stays as it is. */
    method FailExchange(now: nat)
      requires Valid()
      modifies this`messages, this`nextId
      ensures Valid()
      ensures messages == old(messages) + [ErrorMessage(old(nextId), now)]
      ensures nextId == old(nextId) + 1
    {
      messages := messages + [ErrorMessage(nextId, now)];
      nextId := nextId + 1;
    }

    /** The `finally`: the exchange is over, successful or not. */
    method EndExchange()
      modifies this`isLoading
      ensures !isLoading
    {
      isLoading := false;
    }

    /** The `catch` and the `finally`: a thrown stream leaves one error turn
        at the end; either way the panel stops loading. */
    method Settle(failed: bool, now: nat)
      requires Valid()
      modifies this`messages, this`nextId, this`isLoading
      ensures Valid()
      ensures messages == old(messages) + if failed then [ErrorMessage(old(nextId), now)] else []
      ensures nextId == if failed then old(nextId) + 1 else old(nextId)
      ensures !isLoading
    {
      if failed {
        FailExchange(now);
      }
      EndExchange();
    }

    /** The handler after its first await, for an exchange BeginSubmit has
        opened: the stream is asked for the reply, the placeholder (the last
        turn) fills with the pieces as they come, a throw adds the error
        turn, and the panel stops loading. */
    method RunExchange(exchange: Exchange, upstream: Upstream, now: nat,
                       ghost turns: seq<Message>, ghost placeholder: Message)
      returns (request: ChatRequest)
      requires Valid()
      requires messages == turns + [placeholder]
      requires placeholder.id == exchange.placeholderId && placeholder.content == ""
      modifies this`messages, this`nextId, this`isLoading
      ensures Valid()
      ensures request == StreamRequest(exchange.prompt, exchange.model, exchange.history)
      ensures messages == turns + [placeholder.(content := Concat(NonEmptyTexts(upstream.Delivered())))] +
                          (if upstream.Fails() then [ErrorMessage(old(nextId), now)] else [])
      ensures nextId == if upstream.Fails() then old(nextId) + 1 else old(nextId)
      ensures !isLoading
    {
      var pieces;
      request, pieces := GenerateStreamResponse(exchange.prompt, exchange.model, exchange.history,
                                                upstream.Delivered());
      assert messages[..|messages| - 1] == turns;
      ConsumeStream(exchange.placeholderId, pieces);
      assert messages == turns + [placeholder.(content := Concat(pieces))];
      Settle(upstream.Fails(), now);
    }

    /** One whole submission with the persona `selected`, the stream behaving
        as `upstream` says. A refused submission changes nothing. A taken one
        sends the trimmed input with the history of the earlier turns, keeps
        those turns as they were and adds the exchange's turns after them; the
        box is then empty and the panel no longer loading. */
    method Submit(selected: ModelId, upstream: Upstream, now: nat) returns (request: Option<ChatRequest>)
      requires Valid()
      modifies this
      ensures Valid()
      ensures request.Some? <==> Accepts(old(input), old(isLoading))
      ensures request.None? ==> unchanged(this)
      ensures request.Some? ==>
                var prompt := Trim(old(input));
                request.value == StreamRequest(prompt, selected, ToHistory(old(messages))) &&
                messages == old(messages) + ExchangeTurns(prompt, selected, old(nextId), now, upstream) &&
                nextId == old(nextId) + (if upstream.Fails() then 3 else 2) &&
                input == "" && !isLoading
    {
      var ex := BeginSubmit(selected, now);
      if ex.None? {
        return None;
      }
      ghost var prompt := Trim(old(input));
      var sent := RunExchange(ex.value, upstream, now,
                              old(messages) + [UserMessage(prompt, old(nextId), now)],
                              Placeholder(selected, old(nextId) + 1, now));
      request := Some(sent);
    }
  }

  lemma TrimmedHello()
    ensures Trim("  Hello ") == "Hello"
  {
    assert LeadingWhitespace("  Hello ") == 2;
    assert TrailingWhitespace("  Hello ") == 1;
  }

  lemma HelloReply(persona: ModelId, now: nat)
    ensures ExchangeTurns("Hello", persona, 0, now, Upstream([Some("Hi"), None, Some(""), Some(" there")], None)) ==
            [Message(User, "Hello", 0, now, None), Message(Assistant, "Hi there", 1, now, Some(persona))]
  {
    var chunks := [Some("Hi"), None, Some(""), Some(" there")];
    assert chunks[1..] == [None, Some(""), Some(" there")];
    assert chunks[2..] == [Some(""), Some(" there")];
    assert chunks[3..] == [Some(" there")];
    assert NonEmptyTexts(chunks) == ["Hi", " there"];
    assert Concat(["Hi", " there"]) == "Hi there";
  }

  /** A padded "Hello" on an empty panel with a stream that sends "Hi", an
      absent text, an empty text and " there": one user turn with the
      trimmed text, one persona turn with the joined reply. */
  method HelloScenario(persona: ModelId, now: nat) {
    var chat := new ChatSession();
    chat.SetInput("  Hello ");
    TrimmedHello();
    HelloReply(persona, now);
    var sent := chat.Submit(persona, Upstream([Some("Hi"), None, Some(""), Some(" there")], None), now);
    assert chat.messages == [Message(User, "Hello", 0, now, None),
                             Message(Assistant, "Hi there", 1, now, Some(persona))];
    assert !chat.isLoading && chat.input == "";
  }

  /** An empty submission on a fresh panel adds no turn and leaves the panel
      idle. */
  method EmptyScenario(persona: ModelId, now: nat) {
    var chat := new ChatSession();
    var sent := chat.Submit(persona, Upstream([Some("ignored")], None), now);
    assert sent == None && chat.messages == [] && !chat.isLoading;
  }

  /** While an exchange is under way a further submission is ignored, even
      with text in the box and another persona selected. */
  method WhileLoadingScenario(persona: ModelId, other: ModelId, now: nat) {
    var chat := new ChatSession();
    chat.SetInput("Again");
    assert LeadingWhitespace("Again") == 0;
    var ex := chat.BeginSubmit(persona, now);
    assert ex.Some? && chat.isLoading && |chat.messages| == 2;
    chat.SetInput("Too soon");
    var sent := chat.Submit(other, Upstream([Some("ignored")], None), now);
    assert sent == None && |chat.messages| == 2 && chat.input == "Too soon";
  }
}
