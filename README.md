# OpenMind local executor: signed-request gate and conversation loop

This project models the two pieces of logic in the executor service
(`executor/app.py`) and proves properties about them.

1. **`POST /execute`, the signed-request gate.** The gateway signs every
   relayed command with HMAC-SHA256 (hex) over `timestamp + "." + raw body`,
   using a secret it shares with the executor. The timestamp and the signature
   travel in the `x-om-timestamp` and `x-om-signature` headers. The executor
   checks, in this order:
   - a secret is configured (else 500);
   - both headers are present and non-empty (else 401 "Missing signature headers.");
   - the body is UTF-8 (else 400);
   - the signature matches (else 401 "Invalid signature.");
   - the body is JSON (else 400 "Invalid JSON body.").

   On success it answers with a fixed-shape projection of two payload fields.
   `ExecuteGate.Execute` is this chain as a pure function. UTF-8 decoding,
   the HMAC and `json.loads` are passed in as a `Primitives` value, so every
   lemma holds for any implementation of them.
2. **`/ws`, the conversation loop.** Each text message is handled in one of
   four ways:
   - a truthy JSON object with `type` "tests" gets the test-sentence list back;
   - `type` "run_tests" speaks every sentence and then sends `done`;
   - `type` "chat" is sent to the completion service, and the assistant's text is spoken;
   - anything else is stripped and spoken.

   `WsConversation.Converse` is the loop as a method. It takes the list of
   received messages and returns three things: the events sent, a log of what
   was spoken, and whether the handler crashed. Inside, `Handle`, `RunTests`
   and `HandleChat` are methods, each proved against a specification function
   (`Respond`, `SpeakAll`, `RespondChat`). The JSON parser, `json.dumps`,
   Python's `str`, the test sentences, the API key and the completion call
   come from a `Host` value.

Modules: `Wrappers` (Option), `JsonValue` (decoded JSON values, Python
truthiness, `dict.get`, `x or default`), `PyText` (`str.strip`),
`ExecuteGate`, `WsConversation`.

What the code does at four points worth spelling out:

- A missing secret is not a start-up error. The service starts, and each
  request is answered with 500.
- The timestamp's value is never inspected: there is no freshness window and
  no replay check, so the model has none.
- An authenticated body that is valid JSON but not an object (a list, a
  string, a number, a boolean or null) makes `payload.get` raise. The exception
  escapes the handler, and the web framework answers with a bare 500. The
  model has a separate outcome for this, `Unhandled`.
- `TimestampSplitShareSignature` shows that the signed string does not fix
  where the timestamp ends. A timestamp with a dot after its first character
  lets one signature cover two different (timestamp, body) pairs.
  `SignedMessageInjective` shows that this cannot happen when neither
  timestamp contains a dot.

## Model

| member | source | states |
|---|---|---|
| ExecuteGate.FirstFailingDecides | executor/app.py:47-68 | for an ordered list of guards, the first failing guard's outcome is the answer; if all pass, the success outcome is |
| ExecuteGate.ExecuteIsGuardChain | executor/app.py:47-81 | `execute` equals its six guards read in source order: secret, headers, UTF-8, signature, JSON, JSON object. The first failing guard decides |
| ExecuteGate.SecretMissingAlways500 | executor/app.py:47-51 | an empty secret gives 500 with the fixed detail, whatever the headers, body and primitives |
| ExecuteGate.MissingHeaderIs401 | executor/app.py:52-53 | with a secret set, an absent or empty timestamp or signature header gives 401 "Missing signature headers.". The result does not depend on the body or on any primitive, so the body is never decoded |
| ExecuteGate.NotUtf8Is400BeforeMac | executor/app.py:55-61 | with a secret and both headers, a body that is not UTF-8 gives 400 "Body must be UTF-8 JSON." whatever the HMAC function is |
| ExecuteGate.AuthenticatedIff | executor/app.py:41-63 | a request gets past the signature check if and only if the signature header equals HMAC(secret, timestamp + "." + decoded body). A request that passes the earlier guards and fails this one gets 401 "Invalid signature." |
| ExecuteGate.JsonOnlyAfterAuthentication | executor/app.py:61-68 | the "Invalid JSON body." outcome only occurs for authentic requests. For an unauthentic request, swapping in a different JSON parser never changes the outcome |
| ExecuteGate.AuthenticOutcome | executor/app.py:65-81 | an authentic request gets 400 when the body is not JSON, an unhandled error when it is JSON but not an object, and the projection when it is an object |
| ExecuteGate.AcceptedProjection | executor/app.py:73-81 | an accepted answer comes from an authentic request. It has exactly the keys accepted/openmind_status/note/openmind_response_preview: accepted is true, the note is fixed, and the two previews are the payload's fields or null. No other payload field appears |
| ExecuteGate.SignatureDetermined | executor/app.py:61-63 | for one secret, timestamp and body, at most one signature header value is accepted |
| ExecuteGate.SignedMessageInjective | executor/app.py:61 | when neither timestamp contains a ".", the signed string determines both the timestamp and the body |
| ExecuteGate.TimestampSplit | executor/app.py:61 | for all t, u and b, the pairs (t + "." + u, b) and (t, u + "." + b) give the same signed string |
| ExecuteGate.TimestampSplitShareSignature | executor/app.py:55-63 | for a non-empty t, when body 2 decodes to u + "." + body 1, a signature authenticates (t + "." + u, body 1) exactly when it authenticates (t, body 2) |
| JsonValue.FieldOr | executor/app.py:145-147 | `d.get(k) or default` is the field when it is present and truthy, and the default otherwise |
| PyText.TrimStartShape | executor/app.py:128 | the result is a suffix of the input; everything dropped is whitespace; the result does not start with whitespace |
| PyText.TrimEndShape | executor/app.py:128 | the result is a prefix of the input; everything dropped is whitespace; the result does not end with whitespace |
| PyText.StripIsCore | executor/app.py:169 | `strip` returns a contiguous slice of the input with only whitespace outside it, and the slice neither starts nor ends with whitespace |
| PyText.StripEmptyIff | executor/app.py:169-170 | the stripped text is empty if and only if every character is whitespace |
| PyText.StripIdempotent | executor/app.py:169 | stripping twice is the same as stripping once |
| WsConversation.PlainTextIff | executor/app.py:115-127 | a message is treated as a command exactly when it decodes to a non-empty JSON object whose `type` is "tests", "run_tests" or "chat" |
| WsConversation.EmptyOrNonDictFallsThrough | executor/app.py:110-115 | unparsable text, `{}`, and any JSON value that is not an object are handled as plain text |
| WsConversation.TestsSpeaksNothing | executor/app.py:115-117 | "tests" sends exactly one event carrying the sentence list, and speaks nothing |
| WsConversation.RunTestsSpeaksInOrder | executor/app.py:119-125 | "run_tests" sends one `spoken` event per test sentence in list order, then exactly one `done`, and speaks exactly the sentences in order |
| WsConversation.ChatMissingText | executor/app.py:128-131 | a chat whose `text` field is missing, falsy or only whitespace gets "Missing text" and nothing else |
| WsConversation.ChatWithoutKey | executor/app.py:133-141 | a chat with text but no API key gets the "Chat disabled" error, and the completion service is never called |
| WsConversation.ChatAnswered | executor/app.py:151-166 | a chat with text and a key sends the completion result first. A `spoken` event follows exactly when the assistant text is truthy |
| WsConversation.ChatCompletionRaises | executor/app.py:151 | a chat with text and a key whose completion call raises sends nothing, speaks nothing, and ends the handler |
| WsConversation.ChatBodyDefaults | executor/app.py:144-150 | the request body has exactly the keys model and messages. model is the message's field if truthy, else "gpt-4.1-mini". The system turn is the message's field if truthy, else "You are a helpful robot.". The user turn is the stripped text |
| WsConversation.AssistantTextFromFirstChoice | executor/app.py:155-159 | when `data["choices"][0]["message"]["content"]` exists, it is the assistant text |
| WsConversation.AssistantTextFallback | executor/app.py:155-161 | when any step of `data["choices"][0]["message"]["content"]` fails (not an object, key missing, not a list, empty list, first choice or message not an object, no content), the assistant text is `json.dumps(data)` |
| WsConversation.PlainTextSpokenStripped | executor/app.py:168-172 | plain text that is only whitespace produces nothing. Otherwise exactly one `spoken` event is sent, carrying the stripped text |
| WsConversation.OnlyTruthySpoken | executor/app.py:127-172 | outside "run_tests", every spoken text is truthy |
| WsConversation.ChatSpeaksTruthy | executor/app.py:163-165 | the chat branch speaks only truthy assistant text |
| WsConversation.PlainSpeaksTruthy | executor/app.py:169-172 | the plain-text branch speaks only non-empty text |
| WsConversation.CrashIsFinal | executor/app.py:106-174 | once a completion call has raised, no later message is answered |
| WsConversation.RunStartsWithHello | executor/app.py:99-105 | every session starts with the greeting, and the greeting reports whether an API key is configured |
| WsConversation.Handle | executor/app.py:107-172 | handling one message yields exactly the reply `Respond` specifies, and the speech log equals the texts of its `spoken` events |
| WsConversation.RunTests | executor/app.py:121-124 | the loop over the test sentences yields one `spoken` event per sentence, then `done`, and speaks each sentence |
| WsConversation.HandleChat | executor/app.py:127-166 | the chat branch yields exactly the reply `RespondChat` specifies, and speaks exactly its `spoken` texts |
| WsConversation.Converse | executor/app.py:97-174 | the session is the greeting followed by each message's reply in order, stopping at the first crash. What is spoken equals the texts of the `spoken` events sent |

## Left out

- HMAC-SHA256 and hex encoding (executor/app.py:19-20) are an arbitrary function `(secret, data) -> string`; the model proves nothing about the cryptography.
- `_safe_equal` (executor/app.py:23-24) is plain string equality; the constant-time comparison cannot be expressed.
- UTF-8 decoding, `json.loads` and `json.dumps` are arbitrary functions. JSON numbers are exact reals, so NaN and infinities are not represented. Objects are maps, so key order and duplicate keys are not represented.
- Python's `str()` of a non-string value (used on the chat `text` field) is an arbitrary function.
- FastAPI routing, header extraction, `async`/`await`, `/healthz`, and the WebSocket accept/receive/send transport are not modelled. The end of the message list stands for a disconnect. Exceptions raised while sending are not modelled.
- `speak` (executor/speech.py) is recorded as an entry in the speech log; the TTS backends are not part of this model.
- `get_openmind_api_key` and `chat_completions` (executor/openmind_client.py) are not part of this model except at their interface. The key is one optional value for the whole session, although the source reads it at each chat message. The completion call is an arbitrary function of the message's position in the session, the key and the request body, so a repeated message may get a different answer. It returns a status and data, or fails, which ends the handler. Its network behaviour is not modelled.
- `TEST_SENTENCES` (test_sentences.py) is not part of this model; it is an arbitrary list of strings.
- The executor does no replay or freshness check on the timestamp, so the model has none.
- executor/chain_client.py and the gateway's envelope builder and sandbox ledger are not part of this model.
