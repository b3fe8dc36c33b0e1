/**
 * The chat-request orchestrator: validate the request, resolve the model and
 * the conversation (loading a bounded, newest-first history window or creating
 * a new conversation), assemble the prompt, consume the provider's stream while
 * emitting one observer event per fragment and per "content finished" signal,
 * and persist the question and the answer as two messages.
 *
 * The provider is a function from the API key and the completion parameters
 * to the stream it answers with; the observer channel is the returned event
 * sequence; the clock and the storage engine's write verdicts are inputs.
 */
module MessageService {
  import opened Wrappers
  import opened Seqs
  import opened Models
  import opened Database

  /** The request as the frontend sends it. Only the sign of the temperature matters here. */
  datatype RequestParams = RequestParams(
    cloudLLMId: int64,
    conversationId: int64,
    question: string,
    modelName: string,
    temperature: real,
    maxCompletionTokens: uint32,
    historyLength: uint32)

  // ---------------------------------------------------------------- validation

  /** The first check the request fails, in the order the source tests them, or None. */
  function ValidateRequestParams(p: RequestParams): (r: Option<Error>)
    ensures r == None <==>
      p.cloudLLMId > 0 && p.question != "" && p.modelName != "" && p.temperature > 0.0
    ensures p.cloudLLMId <= 0 ==> r == Some(MissingModelId)
    ensures p.cloudLLMId > 0 && p.question == "" ==> r == Some(MissingQuestion)
    ensures p.cloudLLMId > 0 && p.question != "" && p.modelName == "" ==> r == Some(MissingModelName)
    ensures p.cloudLLMId > 0 && p.question != "" && p.modelName != "" && p.temperature <= 0.0 ==>
      r == Some(MissingTemperature)
  {
    if p.cloudLLMId <= 0 then Some(MissingModelId)
    else if p.question == "" then Some(MissingQuestion)
    else if p.modelName == "" then Some(MissingModelName)
    else if p.temperature <= 0.0 then Some(MissingTemperature)
    else None
  }

  // ---------------------------------------------------- model and conversation

  /** The model lookup: no row fails with RecordNotFound, a row with id zero fails too. */
  function ResolveModel(rows: seq<CloudLLMModel>, id: int): (r: Result<CloudLLMModel, Error>)
    ensures r.Success? <==> id != 0 && exists i :: 0 <= i < |rows| && rows[i].id == id
    ensures r.Success? ==> r.value in rows && r.value.id == id && r.value.id != 0
    ensures (forall i :: 0 <= i < |rows| ==> rows[i].id != id) ==> r == Failure(RecordNotFound)
  {
    match FindByKey(rows, ModelId, id)
    case None => Failure(RecordNotFound)
    case Some(m) => if m.id == 0 then Failure(ModelDoesNotExist(id)) else Success(m)
  }

  /** The conversation lookup, with the same two failure cases. */
  function ResolveConversation(rows: seq<Conversation>, id: int): (r: Result<Conversation, Error>)
    ensures r.Success? <==> id != 0 && exists i :: 0 <= i < |rows| && rows[i].id == id
    ensures r.Success? ==> r.value in rows && r.value.id == id && r.value.id != 0
    ensures (forall i :: 0 <= i < |rows| ==> rows[i].id != id) ==> r == Failure(RecordNotFound)
  {
    match FindByKey(rows, ConversationId, id)
    case None => Failure(RecordNotFound)
    case Some(c) => if c.id == 0 then Failure(ConversationDoesNotExist(id)) else Success(c)
  }

  function InConversation(conversationId: int): Message -> bool {
    (m: Message) => m.conversationId == conversationId
  }

  /**
   * `WHERE conversation_id = ? ORDER BY id DESC LIMIT n`: with rows kept in id
   * order this is the conversation's rows reversed, cut to `n`.
   */
  function History(rows: seq<Message>, conversationId: int, n: nat): (r: seq<Message>)
    ensures |r| <= n
    ensures forall k :: 0 <= k < |r| ==> r[k] in rows && r[k].conversationId == conversationId
  {
    var mine := OfConversation(rows, conversationId);
    var r := Take(Reverse(mine), n);
    assert forall k :: 0 <= k < |r| ==> r[k] == mine[|mine| - 1 - k];
    r
  }

  /** The messages of one conversation, in id order. */
  function OfConversation(rows: seq<Message>, conversationId: int): seq<Message> {
    Filter(rows, InConversation(conversationId))
  }

  /**
   * The history window holds min(n, all) messages of the conversation, newest
   * first: its k-th entry is the conversation's k-th newest message.
   */
  lemma HistoryWindow(rows: seq<Message>, conversationId: int, n: nat)
    ensures |History(rows, conversationId, n)| == Min(n, |OfConversation(rows, conversationId)|)
    ensures forall k :: 0 <= k < |History(rows, conversationId, n)| ==>
      History(rows, conversationId, n)[k]
        == OfConversation(rows, conversationId)[|OfConversation(rows, conversationId)| - 1 - k]
    ensures forall k :: 0 <= k < |History(rows, conversationId, n)| ==>
      History(rows, conversationId, n)[k] in rows
      && History(rows, conversationId, n)[k].conversationId == conversationId
  {
    var mine := OfConversation(rows, conversationId);
    var h := History(rows, conversationId, n);
    assert forall k :: 0 <= k < |h| ==> h[k] == Reverse(mine)[k];
    forall k | 0 <= k < |h| ensures h[k] in rows && h[k].conversationId == conversationId {
      assert h[k] == mine[|mine| - 1 - k];
    }
  }

  /** With rows in id order, the history window is in descending id order. */
  lemma HistoryDescending(rows: seq<Message>, conversationId: int, n: nat)
    requires Increasing(rows, MessageId)
    ensures Decreasing(History(rows, conversationId, n), MessageId)
  {
    var mine := OfConversation(rows, conversationId);
    var rev := Reverse(mine);
    var h := History(rows, conversationId, n);
    FilterIncreasing(rows, InConversation(conversationId), MessageId);
    ReverseIncreasing(mine, MessageId);
    forall i, j | 0 <= i < j < |h| ensures h[i].id > h[j].id {
      assert h[i] == rev[i] && h[j] == rev[j];
    }
  }

  /** What getModelAndConversation hands on: the model, the conversation, the history window. */
  datatype Resolution = Resolution(model: CloudLLMModel, conversation: Conversation, history: seq<Message>)

  /** The history limit the source passes: two messages per requested turn. */
  function HistoryLimit(p: RequestParams): nat {
    p.historyLength * 2
  }

  /**
   * getModelAndConversation. A positive conversation id loads that conversation
   * and its history window and writes nothing; any other id creates one empty
   * conversation and uses no history.
   */
  method GetModelAndConversation(db: Db, p: RequestParams, now: Time, createFails: bool)
    returns (r: Result<Resolution, Error>)
    requires db.Valid()
    modifies db
    ensures db.Valid()
    ensures db.models == old(db.models) && db.messages == old(db.messages) && db.settings == old(db.settings)
    ensures ResolveModel(old(db.models.rows), p.cloudLLMId).Failure? ==>
      && r == Failure(ResolveModel(old(db.models.rows), p.cloudLLMId).error)
      && db.conversations == old(db.conversations)
    ensures r.Success? ==> Success(r.value.model) == ResolveModel(old(db.models.rows), p.cloudLLMId)
    ensures ResolveModel(old(db.models.rows), p.cloudLLMId).Success? && p.conversationId > 0 ==>
      && db.conversations == old(db.conversations)
      && (match ResolveConversation(old(db.conversations.rows), p.conversationId)
          case Failure(e) => r == Failure(e)
          case Success(c) =>
            r == Success(Resolution(ResolveModel(old(db.models.rows), p.cloudLLMId).value, c,
                                    History(old(db.messages.rows), p.conversationId, HistoryLimit(p)))))
    ensures ResolveModel(old(db.models.rows), p.cloudLLMId).Success? && p.conversationId <= 0 ==>
      if createFails then
        r == Failure(WriteFailed) && db.conversations == old(db.conversations)
      else
        && r.Success?
        && r.value.conversation == Conversation(old(db.conversations.nextId), now, now, "")
        && r.value.history == []
        && db.conversations == Inserted(old(db.conversations), r.value.conversation)
  {
    var model := ResolveModel(db.models.rows, p.cloudLLMId);
    if model.Failure? {
      return Failure(model.error);
    }
    if p.conversationId > 0 {
      var conversation := ResolveConversation(db.conversations.rows, p.conversationId);
      if conversation.Failure? {
        return Failure(conversation.error);
      }
      var history := History(db.messages.rows, p.conversationId, HistoryLimit(p));
      r := Success(Resolution(model.value, conversation.value, history));
    } else {
      var created := db.CreateConversation(now, createFails);
      if created.Failure? {
        return Failure(created.error);
      }
      r := Success(Resolution(model.value, created.value, []));
    }
  }

  // ------------------------------------------------------------ prompt assembly

  /** A provider chat message: the two roles the prompt carries. */
  datatype ChatMessage = UserMessage(content: string) | AssistantMessage(content: string)

  predicate IsChatRole(role: string) {
    role == ROLE_USER || role == ROLE_ASSISTANT
  }

  /** One stored message as prompt messages: user and assistant translate, any other role is skipped. */
  function Translated(m: Message): seq<ChatMessage> {
    if m.role == ROLE_USER then [UserMessage(m.content)]
    else if m.role == ROLE_ASSISTANT then [AssistantMessage(m.content)]
    else []
  }

  /** A newest-first history as prompt messages, oldest first (the source's backward loop). */
  function Chronological(history: seq<Message>): (r: seq<ChatMessage>)
    ensures |r| == ChatCount(history)
  {
    if history == [] then [] else Chronological(history[1..]) + Translated(history[0])
  }

  /** Reference reading: translate each message of the history, walked in forward order. */
  function TranslatedAll(history: seq<Message>): seq<ChatMessage> {
    if history == [] then [] else Translated(history[0]) + TranslatedAll(history[1..])
  }

  /** The number of history messages whose role is user or assistant. */
  function ChatCount(history: seq<Message>): nat {
    if history == [] then 0 else (if IsChatRole(history[0].role) then 1 else 0) + ChatCount(history[1..])
  }

  /** prepareMessages: the history oldest first, followed by the question. */
  method PrepareMessages(history: seq<Message>, question: string) returns (messages: seq<ChatMessage>)
    ensures messages == Chronological(history) + [UserMessage(question)]
  {
    messages := [];
    var i := |history|;
    while i > 0
      invariant 0 <= i <= |history|
      invariant messages == Chronological(history[i..])
    {
      i := i - 1;
      var msg := history[i];
      assert history[i..][1..] == history[i + 1..];
      if msg.role == ROLE_USER {
        messages := messages + [UserMessage(msg.content)];
      }
      if msg.role == ROLE_ASSISTANT {
        messages := messages + [AssistantMessage(msg.content)];
      }
    }
    assert history[0..] == history;
    messages := messages + [UserMessage(question)];
  }

  lemma {:induction false} TranslatedAllConcat(a: seq<Message>, b: seq<Message>)
    ensures TranslatedAll(a + b) == TranslatedAll(a) + TranslatedAll(b)
  {
    if a != [] {
      assert (a + b)[1..] == a[1..] + b;
      TranslatedAllConcat(a[1..], b);
    } else {
      assert a + b == b;
    }
  }

  /** The prompt history is the history reversed, with each message translated in that order. */
  lemma {:induction false} ChronologicalIsReversed(history: seq<Message>)
    ensures Chronological(history) == TranslatedAll(Reverse(history))
  {
    if history != [] {
      ChronologicalIsReversed(history[1..]);
      TranslatedAllConcat(Reverse(history[1..]), [history[0]]);
      assert TranslatedAll([history[0]]) == Translated(history[0]);
    }
  }

  /** The prompt has one entry per user or assistant history message, plus the question, which is last. */
  lemma PromptShape(history: seq<Message>, question: string)
    ensures var prompt := Chronological(history) + [UserMessage(question)];
            |prompt| == ChatCount(history) + 1 && prompt[|prompt| - 1] == UserMessage(question)
  {
  }

  // ---------------------------------------------------------------- streaming

  /**
   * One chunk as the loop sees it: whether it has a first choice, that choice's
   * text delta, and whether, once merged, the accumulator reports that a
   * message's content has just finished.
   */
  datatype Chunk = Chunk(hasChoice: bool, delta: string, justFinished: bool)

  /**
   * What the provider answers with: the chunks in arrival order, whether the
   * stream ends in an error, and what the accumulator holds afterwards
   * (each choice's full text and the reported total token count).
   */
  datatype Stream = Stream(chunks: seq<Chunk>, failed: bool, choices: seq<string>, totalTokens: int64)

  /** The accumulator's outcome handed to persistence. */
  datatype Accumulated = Accumulated(choices: seq<string>, totalTokens: int64)

  /** One observer event: a text fragment, or (done) the end of a message's content. */
  datatype StreamEvent = StreamEvent(content: string, done: bool, index: int)

  predicate HasFragment(c: Chunk) {
    c.hasChoice && c.delta != ""
  }

  predicate IsFragmentEvent(e: StreamEvent) {
    !e.done
  }

  /** The fragment (done = false) events of an event sequence, in order. */
  function Fragments(events: seq<StreamEvent>): seq<StreamEvent> {
    Filter(events, IsFragmentEvent)
  }

  /** The chunks that carry a fragment, in arrival order. */
  function FragmentChunks(chunks: seq<Chunk>): seq<Chunk> {
    Filter(chunks, HasFragment)
  }

  /** The events one chunk causes when the counter stands at `index`. */
  function ChunkEvents(c: Chunk, index: int): seq<StreamEvent> {
    (if c.justFinished then [StreamEvent("", true, index)] else [])
    + (if HasFragment(c) then [StreamEvent(c.delta, false, index)] else [])
  }

  /** The events emitted for a prefix of the stream. */
  function Events(chunks: seq<Chunk>): (r: seq<StreamEvent>)
    ensures |r| == |FragmentChunks(chunks)| + CountFinished(chunks)
  {
    if chunks == [] then []
    else
      var init := chunks[..|chunks| - 1];
      var last := chunks[|chunks| - 1];
      assert chunks == init + [last];
      FilterAppend(init, last, HasFragment);
      Events(init) + ChunkEvents(last, |FragmentChunks(init)|)
  }

  /** handleStreamResponse: the emitted events, then the accumulator or the stream's error. */
  method HandleStreamResponse(stream: Stream) returns (r: Result<Accumulated, Error>, events: seq<StreamEvent>)
    ensures events == Events(stream.chunks)
    ensures stream.failed ==> r == Failure(StreamFailed)
    ensures !stream.failed ==> r == Success(Accumulated(stream.choices, stream.totalTokens))
  {
    events := [];
    var chunkIndex := 0;
    var i := 0;
    while i < |stream.chunks|
      invariant 0 <= i <= |stream.chunks|
      invariant events == Events(stream.chunks[..i])
      invariant chunkIndex == |FragmentChunks(stream.chunks[..i])|
    {
      var chunk := stream.chunks[i];
      assert stream.chunks[..i + 1] == stream.chunks[..i] + [chunk];
      assert stream.chunks[..i + 1][..i] == stream.chunks[..i];
      FilterAppend(stream.chunks[..i], chunk, HasFragment);
      if chunk.justFinished {
        events := events + [StreamEvent("", true, chunkIndex)];
      }
      if chunk.hasChoice && chunk.delta != "" {
        events := events + [StreamEvent(chunk.delta, false, chunkIndex)];
        chunkIndex := chunkIndex + 1;
      }
      i := i + 1;
    }
    assert stream.chunks[..i] == stream.chunks;
    if stream.failed {
      return Failure(StreamFailed), events;
    }
    r := Success(Accumulated(stream.choices, stream.totalTokens));
  }

  lemma ChunkEventsFragments(c: Chunk, index: int)
    ensures Fragments(ChunkEvents(c, index)) ==
      if HasFragment(c) then [StreamEvent(c.delta, false, index)] else []
  {
    var fin: seq<StreamEvent> := if c.justFinished then [StreamEvent("", true, index)] else [];
    var frag: seq<StreamEvent> := if HasFragment(c) then [StreamEvent(c.delta, false, index)] else [];
    FilterConcat(fin, frag, IsFragmentEvent);
    assert Filter(fin, IsFragmentEvent) == [] by {
      if c.justFinished {
        FilterAppend([], StreamEvent("", true, index), IsFragmentEvent);
        assert fin == [] + [StreamEvent("", true, index)];
      }
    }
    if HasFragment(c) {
      FilterAppend([], StreamEvent(c.delta, false, index), IsFragmentEvent);
      assert frag == [] + [StreamEvent(c.delta, false, index)];
    }
  }

  /** The fragment event a chunk adds when the counter stands at `n`, if any. */
  function FragmentTail(c: Chunk, n: int): seq<StreamEvent> {
    if HasFragment(c) then [StreamEvent(c.delta, false, n)] else []
  }

  /** One more chunk adds its fragment event, if any, to the fragment events and its chunk to the fragment chunks. */
  lemma FragmentsStep(init: seq<Chunk>, last: Chunk)
    ensures Fragments(Events(init + [last])) == Fragments(Events(init)) + FragmentTail(last, |FragmentChunks(init)|)
    ensures FragmentChunks(init + [last]) == FragmentChunks(init) + (if HasFragment(last) then [last] else [])
  {
    var chunks := init + [last];
    var n := |FragmentChunks(init)|;
    assert chunks[..|chunks| - 1] == init;
    assert Events(chunks) == Events(init) + ChunkEvents(last, n);
    FilterConcat(Events(init), ChunkEvents(last, n), IsFragmentEvent);
    ChunkEventsFragments(last, n);
    FilterAppend(init, last, HasFragment);
  }

  /**
   * The fragment events are exactly the fragment-carrying chunks in arrival
   * order: the k-th carries the k-th such chunk's delta and index k.
   */
  lemma {:induction false} FragmentEventsInOrder(chunks: seq<Chunk>)
    ensures FragmentsMatch(Fragments(Events(chunks)), FragmentChunks(chunks))
  {
    if chunks != [] {
      var init := chunks[..|chunks| - 1];
      var last := chunks[|chunks| - 1];
      assert chunks == init + [last];
      FragmentEventsInOrder(init);
      FragmentsStep(init, last);
      FragmentsExtended(Fragments(Events(init)), FragmentChunks(init), last);
    }
  }

  /** The k-th fragment event carries the k-th fragment chunk's delta and index k. */
  predicate FragmentsMatch(f: seq<StreamEvent>, d: seq<Chunk>) {
    && |f| == |d|
    && forall k :: 0 <= k < |f| ==> f[k] == StreamEvent(d[k].delta, false, k)
  }

  /** The inductive step of FragmentEventsInOrder, on the bare sequences. */
  lemma FragmentsExtended(f0: seq<StreamEvent>, d0: seq<Chunk>, last: Chunk)
    requires FragmentsMatch(f0, d0)
    ensures FragmentsMatch(f0 + FragmentTail(last, |d0|), d0 + (if HasFragment(last) then [last] else []))
  {
  }

  /**
   * Every event's index is the number of fragment events emitted before it;
   * done events carry no text and fragment events carry non-empty text.
   */
  lemma {:induction false} EventIndicesCountFragments(chunks: seq<Chunk>)
    ensures forall j :: 0 <= j < |Events(chunks)| ==> WellIndexed(Events(chunks), j)
  {
    if chunks != [] {
      var init := chunks[..|chunks| - 1];
      var last := chunks[|chunks| - 1];
      var prev := Events(init);
      var n := |FragmentChunks(init)|;
      assert Events(chunks) == prev + ChunkEvents(last, n);
      assert |Fragments(prev)| == n by {
        FragmentEventsInOrder(init);
      }
      EventIndicesCountFragments(init);
      IndicesExtended(prev, last, n);
    }
  }

  /** Whether event `j` carries the index and text the protocol prescribes. */
  predicate WellIndexed(e: seq<StreamEvent>, j: int)
    requires 0 <= j < |e|
  {
    && e[j].index == |Fragments(e[..j])|
    && (e[j].done ==> e[j].content == "")
    && (!e[j].done ==> e[j].content != "")
  }

  /** The inductive step of EventIndicesCountFragments, on the bare sequences. */
  lemma IndicesExtended(prev: seq<StreamEvent>, last: Chunk, n: nat)
    requires |Fragments(prev)| == n
    requires forall j :: 0 <= j < |prev| ==> WellIndexed(prev, j)
    ensures var e := prev + ChunkEvents(last, n);
            forall j :: 0 <= j < |e| ==> WellIndexed(e, j)
  {
    var e := prev + ChunkEvents(last, n);
    forall j | 0 <= j < |e| ensures WellIndexed(e, j) {
      if j < |prev| {
        assert e[..j] == prev[..j];
        assert WellIndexed(prev, j);
      } else if j == |prev| {
        assert e[..j] == prev;
      } else {
        // the chunk caused two events: the done event, then the fragment
        assert e[..j] == prev + [StreamEvent("", true, n)];
        FilterAppend(prev, StreamEvent("", true, n), IsFragmentEvent);
      }
    }
  }

  /** One done event is emitted per chunk after which the content has just finished. */
  lemma {:induction false} DoneEventsPerFinishedChunk(chunks: seq<Chunk>)
    ensures |Events(chunks)| - |Fragments(Events(chunks))| == CountFinished(chunks)
  {
    if chunks != [] {
      var init := chunks[..|chunks| - 1];
      var last := chunks[|chunks| - 1];
      DoneEventsPerFinishedChunk(init);
      var n := |FragmentChunks(init)|;
      FilterConcat(Events(init), ChunkEvents(last, n), IsFragmentEvent);
      ChunkEventsFragments(last, n);
    }
  }

  function CountFinished(chunks: seq<Chunk>): nat {
    if chunks == [] then 0
    else CountFinished(chunks[..|chunks| - 1]) + (if chunks[|chunks| - 1].justFinished then 1 else 0)
  }

  // -------------------------------------------------------------- persistence

  /** The message table after the user row and then the assistant row are inserted. */
  function AppendedTurn(t: Table<Message>, conversationId: nat, question: string, response: string, now: Time)
    : (r: Table<Message>)
    ensures |r.rows| == |t.rows| + 2 && r.rows[..|t.rows|] == t.rows && r.nextId == t.nextId + 2
    ensures r.rows[|t.rows|] == Message(t.nextId, now, now, conversationId, ROLE_USER, question)
    ensures r.rows[|t.rows| + 1] == Message(t.nextId + 1, now, now, conversationId, ROLE_ASSISTANT, response)
  {
    Inserted(Inserted(t, Message(t.nextId, now, now, conversationId, ROLE_USER, question)),
             Message(t.nextId + 1, now, now, conversationId, ROLE_ASSISTANT, response))
  }

  /**
   * A saved turn adds exactly two rows after the old ones: first the user's
   * question, then the assistant's response, both in the same conversation,
   * with fresh increasing ids.
   */
  lemma TurnIsTwoAppends(t: Table<Message>, conversationId: nat, question: string, response: string, now: Time)
    requires WellFormed(t, MessageId)
    ensures var t' := AppendedTurn(t, conversationId, question, response, now);
            var n := |t.rows|;
            && |t'.rows| == n + 2
            && t'.rows[..n] == t.rows
            && t'.rows[n].role == ROLE_USER && t'.rows[n].content == question
            && t'.rows[n + 1].role == ROLE_ASSISTANT && t'.rows[n + 1].content == response
            && t'.rows[n].conversationId == conversationId == t'.rows[n + 1].conversationId
            && WellFormed(t', MessageId)
            && (forall i :: 0 <= i < n ==> t.rows[i].id < t'.rows[n].id < t'.rows[n + 1].id)
  {
    var u := Message(t.nextId, now, now, conversationId, ROLE_USER, question);
    InsertedWellFormed(t, MessageId, u);
    InsertedWellFormed(Inserted(t, u), MessageId,
                       Message(t.nextId + 1, now, now, conversationId, ROLE_ASSISTANT, response));
  }

  /** saveMessages: the user row, then (only if that succeeded) the assistant row. */
  method SaveMessages(db: Db, conversationId: nat, question: string, response: string, now: Time,
                      userFails: bool, assistantFails: bool)
    returns (err: Option<Error>)
    requires db.Valid()
    modifies db
    ensures db.Valid()
    ensures db.models == old(db.models) && db.conversations == old(db.conversations) && db.settings == old(db.settings)
    ensures userFails ==> err == Some(WriteFailed) && db.messages == old(db.messages)
    ensures !userFails && assistantFails ==>
      && err == Some(WriteFailed)
      && db.messages == Inserted(old(db.messages),
                                 Message(old(db.messages.nextId), now, now, conversationId, ROLE_USER, question))
    ensures !userFails && !assistantFails ==>
      err == None && db.messages == AppendedTurn(old(db.messages), conversationId, question, response, now)
  {
    var user := db.CreateMessage(conversationId, ROLE_USER, question, now, userFails);
    if user.Failure? {
      return Some(user.error);
    }
    var assistant := db.CreateMessage(conversationId, ROLE_ASSISTANT, response, now, assistantFails);
    if assistant.Failure? {
      return Some(assistant.error);
    }
    err := None;
  }

  // -------------------------------------------------------------- the request

  /** The provider call's options: maxCompletionTokens 0 means no cap; usage is always requested. */
  datatype CompletionParams = CompletionParams(
    messages: seq<ChatMessage>,
    model: string,
    includeUsage: bool,
    temperature: real,
    maxCompletionTokens: Option<int>)

  function CompletionRequest(p: RequestParams, messages: seq<ChatMessage>): (r: CompletionParams)
    ensures r.messages == messages && r.model == p.modelName && r.temperature == p.temperature
    ensures r.includeUsage
    ensures r.maxCompletionTokens.None? <==> p.maxCompletionTokens == 0
    ensures r.maxCompletionTokens.Some? ==> r.maxCompletionTokens.value == p.maxCompletionTokens
  {
    CompletionParams(messages, p.modelName, true, p.temperature,
                     if p.maxCompletionTokens > 0 then Some(p.maxCompletionTokens) else None)
  }

  /** The provider: given the model's API key and the options, the stream it answers with. */
  type Provider = (string, CompletionParams) -> Stream

  /** The verdicts of the storage engine on the writes one request may issue. */
  datatype WriteFaults = WriteFaults(createConversation: bool, insertUser: bool, insertAssistant: bool)

  /** The history window a request sends: none for a new conversation. */
  function RequestHistory(rows: seq<Message>, p: RequestParams): seq<Message> {
    if p.conversationId > 0 then History(rows, p.conversationId, HistoryLimit(p)) else []
  }

  /** The conversation id the turn is saved under: the requested one, or the freshly created one. */
  function TargetConversation(p: RequestParams, nextConversationId: nat): nat {
    if p.conversationId > 0 then p.conversationId as nat else nextConversationId
  }

  /** Whether model and conversation resolve (or the conversation is created). */
  predicate Resolves(models: seq<CloudLLMModel>, conversations: seq<Conversation>, p: RequestParams,
                     faults: WriteFaults)
  {
    && ResolveModel(models, p.cloudLLMId).Success?
    && (p.conversationId > 0 ==> ResolveConversation(conversations, p.conversationId).Success?)
    && (p.conversationId <= 0 ==> !faults.createConversation)
  }

  /**
   * What a sent request leads to, given the stream: a failed stream or one
   * without a first choice writes no message; otherwise the user row is
   * inserted and, only if that succeeded, the assistant row; the token count
   * is returned only when both inserts succeeded.
   */
  ghost predicate ExchangeOutcome(stream: Stream, before: Table<Message>, after: Table<Message>,
                                  conversationId: nat, question: string, now: Time, faults: WriteFaults,
                                  tokens: int, err: Option<Error>)
  {
    && (err.Some? ==> tokens == 0)
    && (stream.failed ==> err == Some(StreamFailed) && after == before)
    && (!stream.failed && stream.choices == [] ==> err == Some(NoChoices) && after == before)
    && (!stream.failed && stream.choices != [] ==>
          && (faults.insertUser ==> err == Some(WriteFailed) && after == before)
          && (!faults.insertUser && faults.insertAssistant ==>
                && err == Some(WriteFailed)
                && after == Inserted(before, Message(before.nextId, now, now, conversationId, ROLE_USER, question)))
          && (!faults.insertUser && !faults.insertAssistant ==>
                && err == None && tokens == stream.totalTokens
                && after == AppendedTurn(before, conversationId, question, stream.choices[0], now)))
  }

  /** The part of Request after resolution: build the prompt, consume the stream, save the turn. */
  method Exchange(db: Db, p: RequestParams, res: Resolution, provider: Provider, now: Time, faults: WriteFaults)
    returns (tokens: int64, err: Option<Error>, sent: CompletionParams, events: seq<StreamEvent>)
    requires db.Valid()
    modifies db
    ensures db.Valid()
    ensures db.models == old(db.models) && db.conversations == old(db.conversations) && db.settings == old(db.settings)
    ensures sent == CompletionRequest(p, Chronological(res.history) + [UserMessage(p.question)])
    ensures events == Events(provider(res.model.apiKey, sent).chunks)
    ensures ExchangeOutcome(provider(res.model.apiKey, sent), old(db.messages), db.messages,
                            res.conversation.id, p.question, now, faults, tokens, err)
  {
    tokens := 0;
    var messages := PrepareMessages(res.history, p.question);
    sent := CompletionRequest(p, messages);
    var stream := provider(res.model.apiKey, sent);
    var acc;
    acc, events := HandleStreamResponse(stream);
    if acc.Failure? {
      return 0, Some(acc.error), sent, events;
    }
    if acc.value.choices == [] {
      return 0, Some(NoChoices), sent, events;
    }
    err := SaveMessages(db, res.conversation.id, p.question, acc.value.choices[0], now,
                        faults.insertUser, faults.insertAssistant);
    if err.None? {
      tokens := acc.value.totalTokens;
    }
  }

  /**
   * Request. A request that fails validation or resolution emits no event,
   * sends nothing and writes no message. Exactly one conversation is created
   * when the request names none and its model resolves, and it stays
   * whatever the stream does. Otherwise the prompt (the history
   * window oldest first, then the question) is sent, every chunk's events are
   * emitted, and the outcome follows ExchangeOutcome under the requested or the
   * newly created conversation.
   */
  method Request(db: Db, p: RequestParams, provider: Provider, now: Time, faults: WriteFaults)
    returns (tokens: int64, err: Option<Error>, sent: Option<CompletionParams>, events: seq<StreamEvent>)
    requires db.Valid()
    modifies db
    ensures db.Valid()
    ensures db.models == old(db.models) && db.settings == old(db.settings)
    ensures err.Some? ==> tokens == 0
    ensures ValidateRequestParams(p).Some? ==>
      && err == ValidateRequestParams(p) && sent == None && events == [] && unchanged(db)
    ensures sent.Some? <==>
      ValidateRequestParams(p) == None && Resolves(old(db.models.rows), old(db.conversations.rows), p, faults)
    ensures sent.None? ==> err.Some? && events == [] && db.messages == old(db.messages)
    ensures ValidateRequestParams(p).Some? || ResolveModel(old(db.models.rows), p.cloudLLMId).Failure?
            || p.conversationId > 0 || faults.createConversation ==>
      db.conversations == old(db.conversations)
    ensures ValidateRequestParams(p) == None && ResolveModel(old(db.models.rows), p.cloudLLMId).Success?
            && p.conversationId <= 0 && !faults.createConversation ==>
      db.conversations == Inserted(old(db.conversations), Conversation(old(db.conversations.nextId), now, now, ""))
    ensures sent.Some? ==>
      && sent.value == CompletionRequest(p, Chronological(RequestHistory(old(db.messages.rows), p))
                                            + [UserMessage(p.question)])
      && var stream := provider(ResolveModel(old(db.models.rows), p.cloudLLMId).value.apiKey, sent.value);
         && events == Events(stream.chunks)
         && ExchangeOutcome(stream, old(db.messages), db.messages,
                            TargetConversation(p, old(db.conversations.nextId)), p.question, now, faults, tokens, err)
  {
    tokens, sent, events := 0, None, [];
    err := ValidateRequestParams(p);
    if err.Some? {
      return;
    }
    var resolution := GetModelAndConversation(db, p, now, faults.createConversation);
    if resolution.Failure? {
      err := Some(resolution.error);
      return;
    }
    var params;
    tokens, err, params, events := Exchange(db, p, resolution.value, provider, now, faults);
    sent := Some(params);
  }

  // ------------------------------------------------------------- message paging

  /**
   * GetList as written: the cursor branch filters on a `min_id` column that the
   * message table does not have, so the query fails whenever the cursor is used.
   */
  function GetList(rows: seq<Message>, conversationId: int64, minId: int64, size: int64)
    : (r: Result<seq<Message>, Error>)
    ensures conversationId < 0 <==> r == Failure(MissingConversationId)
    ensures conversationId >= 0 && minId > 0 ==> r == Failure(NoSuchColumn("min_id"))
    ensures r.Success? ==>
      var mine := Filter(rows, InConversation(conversationId));
      && |r.value| == Min(Max(size, 20), |mine|)
      && r.value == mine[..|r.value|]
      && forall k :: 0 <= k < |r.value| ==> r.value[k] in rows && r.value[k].conversationId == conversationId
  {
    var minId' := Max(minId, 0);
    var size' := Max(size, 20);
    if conversationId < 0 then Failure(MissingConversationId)
    else if minId' > 0 then Failure(NoSuchColumn("min_id"))
    else Success(Take(Filter(rows, InConversation(conversationId)), size'))
  }

  function BeforeCursor(conversationId: int, minId: int): Message -> bool {
    (m: Message) => m.conversationId == conversationId && (minId > 0 ==> m.id < minId)
  }

  /**
   * GetList with the cursor on the id column, as evidently intended: at most
   * `max(size, 20)` messages of the conversation, each older than the cursor
   * when one is given, in id order.
   */
  function GetListBefore(rows: seq<Message>, conversationId: int64, minId: int64, size: int64)
    : (r: Result<seq<Message>, Error>)
    ensures conversationId < 0 <==> r == Failure(MissingConversationId)
    ensures r.Success? ==>
      var older := Filter(rows, BeforeCursor(conversationId, Max(minId, 0)));
      && |r.value| == Min(Max(size, 20), |older|)
      && r.value == older[..|r.value|]
    ensures r.Success? ==>
      && |r.value| <= Max(size, 20)
      && forall k :: 0 <= k < |r.value| ==>
           && r.value[k] in rows
           && r.value[k].conversationId == conversationId
           && (minId > 0 ==> r.value[k].id < minId)
  {
    var minId' := Max(minId, 0);
    var size' := Max(size, 20);
    if conversationId < 0 then Failure(MissingConversationId)
    else Success(Take(Filter(rows, BeforeCursor(conversationId, minId')), size'))
  }

  /** With rows in id order, the cursor page is ordered by id and ends below the cursor. */
  lemma GetListBeforeOrdered(rows: seq<Message>, conversationId: int64, minId: int64, size: int64)
    requires Increasing(rows, MessageId)
    requires GetListBefore(rows, conversationId, minId, size).Success?
    ensures Increasing(GetListBefore(rows, conversationId, minId, size).value, MessageId)
  {
    FilterIncreasing(rows, BeforeCursor(conversationId, Max(minId, 0)), MessageId);
  }

  /**
   * The discrepancy on one table: an older message of conversation 1 exists,
   * the cursor page as written fails, the corrected one returns that message.
   */
  lemma CursorPageFindsOlderMessage()
    ensures var rows := [Message(3, 0, 0, 1, ROLE_USER, "hi")];
            && GetList(rows, 1, 5, 20) == Failure(NoSuchColumn("min_id"))
            && GetListBefore(rows, 1, 5, 20) == Success(rows)
  {
    var rows := [Message(3, 0, 0, 1, ROLE_USER, "hi")];
    FilterAppend([], rows[0], BeforeCursor(1, 5));
    assert rows == [] + [rows[0]];
  }
}
