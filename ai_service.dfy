/**
 * The simulated AI stream: a canned reply to the user's message, sent to the
 * frontend one character at a time as `stream-message` events and closed
 * by a terminal event. Emitting an event is appending it to the returned
 * sequence; the pause between events is not modelled.
 */
module AiService {
  import opened Wrappers
  import opened Seqs
  import opened Models

  const MOCK_PREFIX := "Hello! This is a simulated AI response to your message: "

  /** The payload of one `stream-message` event; `done` is the string "false" or "true". */
  datatype MockEvent = MockEvent(content: string, done: string)

  /** The text the mock replies with: the fixed greeting followed by the message. */
  function MockResponse(message: string): (r: string)
    ensures |r| == |MOCK_PREFIX| + |message|
    ensures r[..|MOCK_PREFIX|] == MOCK_PREFIX && r[|MOCK_PREFIX|..] == message
  {
    MOCK_PREFIX + message
  }

  /** Each character of `s` as a one-character string (Go's `string(rune)` per rune). */
  function Singletons(s: string): (r: seq<string>)
    ensures |r| == |s| && forall k :: 0 <= k < |s| ==> r[k] == [s[k]]
  {
    seq(|s|, k requires 0 <= k < |s| => [s[k]])
  }

  /** The events the mock emits for `response`: one per character, then the terminal event. */
  function MockEvents(response: string): (r: seq<MockEvent>)
    ensures |r| == |response| + 1
    ensures forall k :: 0 <= k < |response| ==> r[k] == MockEvent([response[k]], "false")
    ensures forall k :: 0 <= k < |r| ==> (r[k].done == "true" <==> k == |response|)
    ensures r[|response|].content == ""
  {
    var r := seq(|response|, k requires 0 <= k < |response| => MockEvent([response[k]], "false"))
      + [MockEvent("", "true")];
    assert "false" != "true" by { assert "false"[0] != "true"[0]; }
    r
  }

  function Contents(events: seq<MockEvent>): (r: seq<string>)
    ensures |r| == |events| && forall k :: 0 <= k < |events| ==> r[k] == events[k].content
  {
    seq(|events|, k requires 0 <= k < |events| => events[k].content)
  }

  /**
   * SendMessageStream: split the response into characters, emit each as a
   * `done: "false"` event in order, then emit the terminal event. It never
   * reports an error.
   */
  method SendMessageStream(message: string) returns (err: Option<Error>, events: seq<MockEvent>)
    ensures err == None
    ensures events == MockEvents(MockResponse(message))
  {
    var response := MockResponse(message);
    var words: seq<string> := [];
    for i := 0 to |response|
      invariant words == Singletons(response[..i])
    {
      words := words + [[response[i]]];
    }
    assert response[..|response|] == response;
    events := [];
    for i := 0 to |words|
      invariant |events| == i
      invariant forall k :: 0 <= k < i ==> events[k] == MockEvent(words[k], "false")
    {
      events := events + [MockEvent(words[i], "false")];
    }
    events := events + [MockEvent("", "true")];
    err := None;
  }

  /** Joining one-character strings gives back the string. */
  lemma {:induction false} ConcatSingletons(s: string)
    ensures Concat(Singletons(s)) == s
  {
    if s != [] {
      var init := s[..|s| - 1];
      ConcatSingletons(init);
      assert Singletons(s)[..|s| - 1] == Singletons(init);
      assert init + [s[|s| - 1]] == s;
    }
  }

  /** Concatenating the contents of the non-terminal events gives back the response. */
  lemma FragmentsRebuildResponse(message: string)
    ensures Concat(Contents(MockEvents(MockResponse(message))[..|MockResponse(message)|])) == MockResponse(message)
  {
    var r := MockResponse(message);
    var e := MockEvents(r);
    assert Contents(e[..|r|]) == Singletons(r);
    ConcatSingletons(r);
  }
}
