/**
 * The executor's `/ws` conversation loop. Each received text message is
 * classified (a truthy JSON object whose `type` is "tests", "run_tests" or
 * "chat", or anything else) and answered with a few outgoing events.
 *
 * The connection itself is replaced by the sequence of received messages (the
 * loop ends when it is exhausted, as on a disconnect) and by the sequence of
 * events sent back. Speech is an effect recorded in its own log. JSON
 * parsing and printing, Python's `str`, the API-key lookup and the
 * completion call come from a `Host` value handed in by the caller.
 */
module WsConversation {
  import opened Wrappers
  import opened JsonValue
  import opened PyText

  /** What `chat_completions` returns: the HTTP status and the decoded (or raw-text) body. */
  datatype Completion = Completion(status: int, data: Json)

  datatype Host = Host(
    testSentences: seq<string>,                             // TEST_SENTENCES
    apiKey: Option<string>,                                 // get_openmind_api_key()
    loads: string -> Option<Json>,                          // json.loads; None when it raises
    pyStr: Json -> string,                                  // str(v) for a value that is not a string
    dumps: Json -> string,                                  // json.dumps
    chatCompletions: (nat, string, Json) -> Option<Completion>   // the call made for the n-th message of the session; None when it raises
  )

  /** The JSON messages the executor sends over the socket. */
  datatype Event =
    | Hello(message: string, chatEnabled: bool)
    | TestList(sentences: seq<string>)
    | Spoken(text: Json)
    | Done
    | Error(error: string)
    | OpenMindResult(result: Completion)

  const HelloMessage := "Connected. Send text to speak, or JSON: {\"type\":\"chat\",\"text\":\"...\"}."
  const MissingText := "Missing text"
  const ChatDisabled := "Chat disabled: set OM_API_KEY on the executor machine."
  const DefaultModel := "gpt-4.1-mini"
  const DefaultSystem := "You are a helpful robot."

  /** `bool(api_key)` / `not api_key`. */
  predicate KeyPresent(k: Option<string>)
  {
    k.Some? && k.value != ""
  }

  // ---------------------------------------------------------------------------
  // Classification of one received message.

  datatype Request = TestsRequest | RunTestsRequest | ChatRequest(obj: map<string, Json>) | PlainText

  /** `obj and isinstance(obj, dict) and obj.get("type") == kind`. */
  predicate TypeIs(obj: Option<Json>, kind: string)
  {
    && obj.Some? && Truthy(obj.value) && obj.value.JObject?
    && GetOrNull(obj.value.fields, "type") == JString(kind)
  }

  /** The three `if` tests of the loop body, in order; the rest falls through to plain text. */
  function Classify(obj: Option<Json>): (r: Request)
  {
    if TypeIs(obj, "tests") then TestsRequest
    else if TypeIs(obj, "run_tests") then RunTestsRequest
    else if TypeIs(obj, "chat") then ChatRequest(obj.value.fields)
    else PlainText
  }

  /** A received message is a command exactly when it decodes to a non-empty JSON object whose `type` is one of the three command names. */
  lemma PlainTextIff(obj: Option<Json>)
    ensures Classify(obj) == PlainText
            <==> !(obj.Some? && obj.value.JObject? && obj.value.fields != map[]
                   && "type" in obj.value.fields
                   && obj.value.fields["type"] in {JString("tests"), JString("run_tests"), JString("chat")})
  {
  }

  /** `{}` and every value other than an object (a list, a string, a number, a boolean, null) are spoken as text. */
  lemma EmptyOrNonDictFallsThrough(obj: Option<Json>)
    requires obj.None? || obj == Some(JObject(map[])) || !obj.value.JObject?
    ensures Classify(obj) == PlainText
  {
  }

  // ---------------------------------------------------------------------------
  // The chat branch.

  /** `str(v)`: a JSON string is itself; anything else goes through Python's `str`. */
  function PyStr(h: Host, v: Json): (r: string)
  {
    match v
    case JString(s) => s
    case _ => h.pyStr(v)
  }

  /** `str(obj.get("text") or "").strip()`. */
  function ChatText(h: Host, obj: map<string, Json>): (r: string)
  {
    Strip(PyStr(h, FieldOr(obj, "text", JString(""))))
  }

  /** The OpenAI-compatible request body sent to the completion service. */
  function ChatBody(obj: map<string, Json>, text: string): (r: Json)
  {
    JObject(map[
      "model" := FieldOr(obj, "model", JString(DefaultModel)),
      "messages" := JArray([
        JObject(map["role" := JString("system"), "content" := FieldOr(obj, "system", JString(DefaultSystem))]),
        JObject(map["role" := JString("user"), "content" := JString(text)])
      ])
    ])
  }

  /** `data["choices"][0]["message"]["content"]`, or None when any step of the indexing raises. */
  function AssistantContent(data: Json): (r: Option<Json>)
  {
    if !data.JObject? || "choices" !in data.fields then None
    else
      var choices := data.fields["choices"];
      if !choices.JArray? || choices.items == [] then None
      else
        var first := choices.items[0];
        if !first.JObject? || "message" !in first.fields then None
        else
          var message := first.fields["message"];
          if !message.JObject? || "content" !in message.fields then None
          else Some(message.fields["content"])
  }

  /** The assistant text, falling back to the serialised `data` when the expected shape is not there. */
  function AssistantText(h: Host, data: Json): (r: Json)
  {
    match AssistantContent(data)
    case Some(content) => content
    case None => JString(h.dumps(data))
  }

  // ---------------------------------------------------------------------------
  // The answer to one message, as a value.

  /** The events one message causes; `crashed` when the completion call raised, which ends the handler. */
  datatype Reply = Reply(events: seq<Event>, crashed: bool)

  /** One `spoken` event per sentence, in order. */
  function SpeakAll(sentences: seq<string>): (r: seq<Event>)
  {
    if sentences == [] then [] else [Spoken(JString(sentences[0]))] + SpeakAll(sentences[1..])
  }

  /** The chat branch: validate the text, check the key, ask for a completion, speak the answer. */
  function RespondChat(h: Host, n: nat, obj: map<string, Json>): (r: Reply)
  {
    var text := ChatText(h, obj);
    if text == "" then Reply([Error(MissingText)], false)
    else if !KeyPresent(h.apiKey) then Reply([Error(ChatDisabled)], false)
    else
      var result := h.chatCompletions(n, h.apiKey.value, ChatBody(obj, text));
      if result.None? then Reply([], true)
      else Reply(Answer(h, result.value), false)
  }

  /** The events for a completion result: the result itself, then the assistant text spoken when truthy. */
  function Answer(h: Host, result: Completion): (r: seq<Event>)
  {
    var assistant := AssistantText(h, result.data);
    if Truthy(assistant) then [OpenMindResult(result), Spoken(assistant)] else [OpenMindResult(result)]
  }

  /** The default branch: speak what was typed, stripped, unless nothing is left. */
  function RespondPlain(msg: string): (r: Reply)
  {
    var text := Strip(msg);
    Reply(if text != "" then [Spoken(JString(text))] else [], false)
  }

  function Respond(h: Host, n: nat, msg: string): (r: Reply)
  {
    match Classify(h.loads(msg))
    case TestsRequest => Reply([TestList(h.testSentences)], false)
    case RunTestsRequest => Reply(SpeakAll(h.testSentences) + [Done], false)
    case ChatRequest(obj) => RespondChat(h, n, obj)
    case PlainText => RespondPlain(msg)
  }

  /** The texts of the `spoken` events, in order: what the speech log must hold. */
  function SpokenTexts(events: seq<Event>): (r: seq<Json>)
  {
    if events == [] then []
    else (if events[0].Spoken? then [events[0].text] else []) + SpokenTexts(events[1..])
  }

  /** The whole session: the greeting, then every message's reply, stopping after a crash. */
  function Run(h: Host, msgs: seq<string>): (r: Reply)
  {
    if msgs == [] then Reply([Hello(HelloMessage, KeyPresent(h.apiKey))], false)
    else
      var before := Run(h, msgs[..|msgs| - 1]);
      if before.crashed then before
      else
        var r := Respond(h, |msgs| - 1, msgs[|msgs| - 1]);
        Reply(before.events + r.events, r.crashed)
  }

  // ---------------------------------------------------------------------------
  // Properties of the replies.

  lemma {:induction false} SpokenTextsAppend(a: seq<Event>, b: seq<Event>)
    ensures SpokenTexts(a + b) == SpokenTexts(a) + SpokenTexts(b)
  {
    if a != [] {
      assert (a + b)[0] == a[0] && (a + b)[1..] == a[1..] + b;
      SpokenTextsAppend(a[1..], b);
    } else {
      assert a + b == b;
    }
  }

  lemma {:induction false} SpeakAllAt(sentences: seq<string>)
    ensures |SpeakAll(sentences)| == |sentences|
    ensures forall i :: 0 <= i < |sentences| ==> SpeakAll(sentences)[i] == Spoken(JString(sentences[i]))
  {
    if sentences != [] {
      SpeakAllAt(sentences[1..]);
    }
  }

  lemma {:induction false} SpeakAllSpoken(sentences: seq<string>)
    ensures |SpokenTexts(SpeakAll(sentences))| == |sentences|
    ensures forall i :: 0 <= i < |sentences| ==> SpokenTexts(SpeakAll(sentences))[i] == JString(sentences[i])
  {
    if sentences != [] {
      SpeakAllSpoken(sentences[1..]);
      SpokenTextsAppend([Spoken(JString(sentences[0]))], SpeakAll(sentences[1..]));
      assert SpokenTexts([Spoken(JString(sentences[0]))]) == [JString(sentences[0])];
    }
  }

  /** "tests" sends the sentence list once and speaks nothing. */
  lemma TestsSpeaksNothing(h: Host, n: nat, msg: string)
    requires Classify(h.loads(msg)) == TestsRequest
    ensures Respond(h, n, msg) == Reply([TestList(h.testSentences)], false)
    ensures SpokenTexts(Respond(h, n, msg).events) == []
  {
  }

  /** "run_tests" speaks every test sentence in list order, then sends exactly one `done`. */
  lemma RunTestsSpeaksInOrder(h: Host, n: nat, msg: string)
    requires Classify(h.loads(msg)) == RunTestsRequest
    ensures var r := Respond(h, n, msg);
            var count := |h.testSentences|;
            && !r.crashed && |r.events| == count + 1
            && (forall i :: 0 <= i < count ==> r.events[i] == Spoken(JString(h.testSentences[i])))
            && r.events[count] == Done
            && |SpokenTexts(r.events)| == count
            && (forall i :: 0 <= i < count ==> SpokenTexts(r.events)[i] == JString(h.testSentences[i]))
  {
    SpeakAllAt(h.testSentences);
    SpeakAllSpoken(h.testSentences);
    assert SpokenTexts([Done]) == [];
    SpokenTextsAppend(SpeakAll(h.testSentences), [Done]);
  }

  /** A chat request whose text field is missing, falsy, or only whitespace gets "Missing text" and nothing else. */
  lemma ChatMissingText(h: Host, n: nat, msg: string, obj: map<string, Json>)
    requires Classify(h.loads(msg)) == ChatRequest(obj)
    requires AllSpace(PyStr(h, FieldOr(obj, "text", JString(""))))
    ensures Respond(h, n, msg) == Reply([Error(MissingText)], false)
  {
    StripEmptyIff(PyStr(h, FieldOr(obj, "text", JString(""))));
  }

  /** A chat request with some text but no API key gets the "Chat disabled" error and no completion is requested. */
  lemma ChatWithoutKey(h: Host, n: nat, msg: string, obj: map<string, Json>)
    requires Classify(h.loads(msg)) == ChatRequest(obj)
    requires !AllSpace(PyStr(h, FieldOr(obj, "text", JString(""))))
    requires !KeyPresent(h.apiKey)
    ensures Respond(h, n, msg) == Reply([Error(ChatDisabled)], false)
    ensures forall c :: Respond(h.(chatCompletions := c), n, msg) == Respond(h, n, msg)
  {
    StripEmptyIff(PyStr(h, FieldOr(obj, "text", JString(""))));
  }

  /**
   * A chat request with text and a key: the completion is asked for with the
   * request body built from the message, the result is sent, and then the
   * assistant text is spoken when it is truthy.
   */
  lemma ChatAnswered(h: Host, n: nat, msg: string, obj: map<string, Json>, result: Completion)
    requires Classify(h.loads(msg)) == ChatRequest(obj)
    requires !AllSpace(PyStr(h, FieldOr(obj, "text", JString(""))))
    requires KeyPresent(h.apiKey)
    requires h.chatCompletions(n, h.apiKey.value, ChatBody(obj, ChatText(h, obj))) == Some(result)
    ensures var r := Respond(h, n, msg);
            var a := AssistantText(h, result.data);
            && !r.crashed && r.events[0] == OpenMindResult(result)
            && (Truthy(a) ==> r.events == [OpenMindResult(result), Spoken(a)])
            && (!Truthy(a) ==> r.events == [OpenMindResult(result)])
  {
    StripEmptyIff(PyStr(h, FieldOr(obj, "text", JString(""))));
  }

  /**
   * A chat request with text and a key whose completion call raises: nothing
   * is sent for it, no `openmind_result` in particular, and the handler ends.
   */
  lemma ChatCompletionRaises(h: Host, n: nat, msg: string, obj: map<string, Json>)
    requires Classify(h.loads(msg)) == ChatRequest(obj)
    requires !AllSpace(PyStr(h, FieldOr(obj, "text", JString(""))))
    requires KeyPresent(h.apiKey)
    requires h.chatCompletions(n, h.apiKey.value, ChatBody(obj, ChatText(h, obj))).None?
    ensures Respond(h, n, msg) == Reply([], true)
  {
    StripEmptyIff(PyStr(h, FieldOr(obj, "text", JString(""))));
  }

  /**
   * The completion request: the model and the system prompt are the
   * message's fields when truthy and the defaults otherwise; the user turn
   * carries the stripped text.
   */
  lemma ChatBodyDefaults(obj: map<string, Json>, text: string)
    ensures var body := ChatBody(obj, text);
            && body.JObject? && body.fields.Keys == {"model", "messages"}
            && body.fields["model"]
               == (if "model" in obj && Truthy(obj["model"]) then obj["model"] else JString("gpt-4.1-mini"))
            && var turns := body.fields["messages"];
               && turns.JArray? && |turns.items| == 2
               && turns.items[0] == JObject(map[
                    "role" := JString("system"),
                    "content" := if "system" in obj && Truthy(obj["system"]) then obj["system"]
                                 else JString("You are a helpful robot.")])
               && turns.items[1] == JObject(map["role" := JString("user"), "content" := JString(text)])
  {
    assert ChatBody(obj, text).fields.Keys == {"model", "messages"};
  }

  /** When `data["choices"][0]["message"]["content"]` exists, it is the assistant text, whatever its type. */
  lemma AssistantTextFromFirstChoice(h: Host, data: map<string, Json>, choices: seq<Json>,
                                     first: map<string, Json>, message: map<string, Json>)
    requires "choices" in data && data["choices"] == JArray(choices)
    requires choices != [] && choices[0] == JObject(first)
    requires "message" in first && first["message"] == JObject(message)
    requires "content" in message
    ensures AssistantText(h, JObject(data)) == message["content"]
  {
  }

  /**
   * When any of the four lookups raises (a missing key, a value that is not
   * an object, `choices` that is not a non-empty list), the serialised `data`
   * is used instead.
   */
  lemma AssistantTextFallback(h: Host, data: Json)
    requires || !data.JObject?
             || "choices" !in data.fields
             || !data.fields["choices"].JArray?
             || data.fields["choices"].items == []
             || !data.fields["choices"].items[0].JObject?
             || "message" !in data.fields["choices"].items[0].fields
             || !data.fields["choices"].items[0].fields["message"].JObject?
             || "content" !in data.fields["choices"].items[0].fields["message"].fields
    ensures AssistantText(h, data) == JString(h.dumps(data))
  {
  }

  /** Any other message is stripped and spoken once, unless it is only whitespace. */
  lemma PlainTextSpokenStripped(h: Host, n: nat, msg: string)
    requires Classify(h.loads(msg)) == PlainText
    ensures AllSpace(msg) ==> Respond(h, n, msg) == Reply([], false)
    ensures !AllSpace(msg) ==> Respond(h, n, msg) == Reply([Spoken(JString(Strip(msg)))], false)
  {
    StripEmptyIff(msg);
  }

  /** Outside "run_tests", nothing empty or falsy is ever spoken. */
  lemma OnlyTruthySpoken(h: Host, n: nat, msg: string)
    requires Classify(h.loads(msg)) != RunTestsRequest
    ensures forall e :: e in Respond(h, n, msg).events && e.Spoken? ==> Truthy(e.text)
  {
    var c := Classify(h.loads(msg));
    var r := Respond(h, n, msg);
    if c.ChatRequest? {
      assert r == RespondChat(h, n, c.obj);
      ChatSpeaksTruthy(h, n, c.obj);
    } else if c.PlainText? {
      assert r == RespondPlain(msg);
      PlainSpeaksTruthy(msg);
    }
  }

  lemma ChatSpeaksTruthy(h: Host, n: nat, obj: map<string, Json>)
    ensures forall e :: e in RespondChat(h, n, obj).events && e.Spoken? ==> Truthy(e.text)
  {
    var text := ChatText(h, obj);
    if text != "" && KeyPresent(h.apiKey) {
      var result := h.chatCompletions(n, h.apiKey.value, ChatBody(obj, text));
      if result.Some? {
        AnswerSpeaksTruthy(h, result.value);
      }
    }
  }

  lemma AnswerSpeaksTruthy(h: Host, result: Completion)
    ensures forall e :: e in Answer(h, result) && e.Spoken? ==> Truthy(e.text)
  {
  }

  lemma PlainSpeaksTruthy(msg: string)
    ensures forall e :: e in RespondPlain(msg).events && e.Spoken? ==> Truthy(e.text)
  {
  }

  /** Once a message has crashed the handler, later messages are never answered. */
  lemma {:induction false} CrashIsFinal(h: Host, msgs: seq<string>, k: nat)
    requires k <= |msgs| && Run(h, msgs[..k]).crashed
    ensures Run(h, msgs) == Run(h, msgs[..k])
    decreases |msgs| - k
  {
    if k < |msgs| {
      assert msgs[..k + 1][..k] == msgs[..k];
      CrashIsFinal(h, msgs, k + 1);
    } else {
      assert msgs[..k] == msgs;
    }
  }

  /** Every session opens with the greeting, which reports whether chat is enabled. */
  lemma {:induction false} RunStartsWithHello(h: Host, msgs: seq<string>)
    ensures |Run(h, msgs).events| > 0
    ensures Run(h, msgs).events[0] == Hello(HelloMessage, KeyPresent(h.apiKey))
  {
    if msgs != [] {
      RunStartsWithHello(h, msgs[..|msgs| - 1]);
    }
  }

  // ---------------------------------------------------------------------------
  // The loop itself.

  /** The body of the `while True` loop for one received message. */
  method Handle(h: Host, n: nat, msg: string) returns (events: seq<Event>, speech: seq<Json>, crashed: bool)
    ensures Reply(events, crashed) == Respond(h, n, msg)
    ensures speech == SpokenTexts(events)
  {
    events, speech, crashed := [], [], false;
    var obj := h.loads(msg);
    match Classify(obj)
    case TestsRequest =>
      events := [TestList(h.testSentences)];
    case RunTestsRequest =>
      events, speech := RunTests(h);
    case ChatRequest(fields) =>
      events, speech, crashed := HandleChat(h, n, fields);
    case PlainText =>
      var text := Strip(msg);
      if text != "" {
        speech := [JString(text)];
        events := [Spoken(JString(text))];
      }
  }

  /** "run_tests": speak each test sentence and report it, then report `done`. */
  method RunTests(h: Host) returns (events: seq<Event>, speech: seq<Json>)
    ensures events == SpeakAll(h.testSentences) + [Done]
    ensures speech == SpokenTexts(events)
  {
    events, speech := [], [];
    for j := 0 to |h.testSentences|
      invariant events == SpeakAll(h.testSentences[..j])
      invariant speech == SpokenTexts(events)
    {
      var s := h.testSentences[j];
      speech := speech + [JString(s)];
      SpeakAllSnoc(h.testSentences[..j], s);
      assert h.testSentences[..j + 1] == h.testSentences[..j] + [s];
      SpokenTextsAppend(events, [Spoken(JString(s))]);
      events := events + [Spoken(JString(s))];
    }
    assert h.testSentences[..|h.testSentences|] == h.testSentences;
    SpokenTextsAppend(events, [Done]);
    events := events + [Done];
  }

  /** "chat": check the text and the key, call the completion service, send its result and speak the answer. */
  method HandleChat(h: Host, n: nat, fields: map<string, Json>) returns (events: seq<Event>, speech: seq<Json>, crashed: bool)
    ensures Reply(events, crashed) == RespondChat(h, n, fields)
    ensures speech == SpokenTexts(events)
  {
    events, speech, crashed := [], [], false;
    var text := ChatText(h, fields);
    if text == "" {
      events := [Error(MissingText)];
    } else if !KeyPresent(h.apiKey) {
      events := [Error(ChatDisabled)];
    } else {
      var result := h.chatCompletions(n, h.apiKey.value, ChatBody(fields, text));
      if result.None? {
        crashed := true;
      } else {
        events := [OpenMindResult(result.value)];
        var assistant := AssistantText(h, result.value.data);
        assert SpokenTexts(events) == [] by { assert events[1..] == []; }
        if Truthy(assistant) {
          speech := [assistant];
          events := events + [Spoken(assistant)];
          assert events[1..][1..] == [];
        }
        assert events == Answer(h, result.value);
      }
    }
  }

  lemma {:induction false} SpeakAllSnoc(sentences: seq<string>, s: string)
    ensures SpeakAll(sentences + [s]) == SpeakAll(sentences) + [Spoken(JString(s))]
  {
    if sentences != [] {
      assert (sentences + [s])[1..] == sentences[1..] + [s];
      SpeakAllSnoc(sentences[1..], s);
    }
  }

  /**
   * `ws_conversation` after the socket is accepted: greet, then answer the
   * received messages in order until they run out or a completion call raises.
   * The speech log is exactly the texts of the `spoken` events sent.
   */
  method Converse(h: Host, incoming: seq<string>) returns (sent: seq<Event>, speech: seq<Json>, crashed: bool)
    ensures Reply(sent, crashed) == Run(h, incoming)
    ensures speech == SpokenTexts(sent)
  {
    sent := [Hello(HelloMessage, KeyPresent(h.apiKey))];
    speech := [];
    crashed := false;
    var i := 0;
    while i < |incoming| && !crashed
      invariant 0 <= i <= |incoming|
      invariant Reply(sent, crashed) == Run(h, incoming[..i])
      invariant speech == SpokenTexts(sent)
    {
      var events, spoken, stop := Handle(h, i, incoming[i]);
      assert incoming[..i + 1][..i] == incoming[..i];
      SpokenTextsAppend(sent, events);
      sent := sent + events;
      speech := speech + spoken;
      crashed := stop;
      i := i + 1;
    }
    if i < |incoming| {
      CrashIsFinal(h, incoming, i);
    } else {
      assert incoming[..i] == incoming;
    }
  }
}
