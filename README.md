# Tool-calling chatbot loop

This project models the `Chatbot` class of the personal-website chatbot and proves properties of the model. The class appears twice with identical text, in `chatbot.py` and `The-AI-You/chatbot.py`; the model covers both at once. Its two methods are modelled:

- `chat` builds a working message list: the system prompt, then the caller's history, then the user's message. It calls the model backend until the response's finish reason is not `"tool_calls"`, and returns that response's content.
- `handle_tool_calls` answers one batch of requested tool calls with one `tool` message per call.

The two Gradio handlers around `chat` are modelled too:

- `on_send` ignores blank input; otherwise it runs `chat` and appends the exchange to the visible chat and to the message history.
- `on_contact_submit` records the contact form through the `record_user_details` tool and posts a confirmation.

Modules:

- `Wrappers` (`wrappers.dfy`): `Option` and `Result`.
- `Json` (`json.dfy`): the part of Python's `json` the loop uses.
  - `Encode` is `json.dumps` with its default separators.
  - `Decode` is `json.loads`, which fails on malformed text.
  - Values are null, booleans, integers, strings, arrays and objects.
  - The headline property is the round trip `Decode(Encode(v)) == Some(v)`.
- `Messages` (`messages.dfy`): tool calls, the four message roles, and backend responses.
- `Tools` (`tools.dfy`): the registry of callable tools.
  - The code resolves a name with `globals().get`; the model uses a map from tool name to tool function instead.
  - A tool function returns `None` when the tool raises.
  - The registry keeps a log of every invocation, so the tools' external side effects can be observed.
- `Backend` (`backend.dfy`): the chat-completions client, modelled as a scripted sequence of responses plus a log of the requests it received.
- `Chat` (`chatbot.dfy`): the `Chatbot` class, with three imperative methods:
  - `HandleToolCalls` is a `for` loop over the calls.
  - `CallTool` is the body of one iteration.
  - `Chat` is the `while not done` loop, which grows the working list in place.

  Each method is proved against a pure specification: `ToolMessages`/`Trace` for one batch, and `Run` for the whole loop. The lemmas in the module state what those specifications guarantee.
- `Gradio` and `ContactForm` (`gradio.dfy`): the two handlers, plus Python's `str.strip()`.

An exception that the source does not catch is modelled as `Err` of a `ChatError`:

| exception | `ChatError` |
|---|---|
| `json.loads` on bad arguments | `MalformedArguments` |
| `tool(**arguments)` on arguments that are not an object | `ArgumentsNotObject` |
| the tool raises | `ToolRaised` |
| iterating a missing tool-call list | `ToolCallsMissing` |
| the scripted backend runs out of responses | `BackendExhausted` |

## Model

| member | source | states |
|---|---|---|
| Chat.HistoryOrEmpty | chatbot.py:60-61 | a missing history and an empty one give the same working sequence, the system message followed directly by the user's |
| Chat.Build | chatbot.py:61 | the working sequence is the system message at index 0, then the history verbatim and in order, then the user message last; its length is the history's plus 2 |
| Chat.CallResult | chatbot.py:47-51 | a failing call's error names that call's id; for an unknown tool the call fails exactly when its arguments are not JSON |
| Chat.Invoked | chatbot.py:50-51 | one call invokes at most one tool, and only one that the registry has, under the call's name |
| Chat.ToolMessages | chatbot.py:44-57 | an answered batch has exactly as many messages as calls; a failed batch fails with one of the three per-call errors |
| Chat.Trace | chatbot.py:46-51 | a batch makes no more invocations than it has calls; which invocations it makes is stated by `Chat.Invoked`, `Chat.TraceKnown` and `Chat.ToolMessagesFirstError` |
| Chat.Chatbot.constructor | chatbot.py:39-42 | the chatbot keeps its backend, its registry and its system prompt. The registry stands for the `globals()` lookup of line 50; the tool declarations stored in `self.tools` (line 41) are only sent to the backend, and are not modelled |
| Chat.Chatbot.CallTool | chatbot.py:47-51 | one call parses the arguments, then uses `{}` for an unknown name, or invokes the named tool once with the decoded object; it returns what `CallResult` specifies and logs exactly the invocation `Invoked` specifies |
| Chat.Chatbot.HandleToolCalls | chatbot.py:44-57 | the loop returns `ToolMessages` of the batch, and the registry's log grows by exactly `Trace` of the batch |
| Chat.Chatbot.Chat | chatbot.py:59-77 | the loop returns the reply of `Run` on the built working sequence. Its requests, the invocations it logs and the script it leaves are exactly those of `Run` |
| Chat.ToolMessagesOk | The-AI-You/chatbot.py:45-57 | a batch is answered if and only if every one of its calls succeeds |
| Chat.ToolMessagesContent | chatbot.py:52-56 | an answered batch has one `tool` message per call, in call order; message i carries call i's id and the JSON of call i's result |
| Chat.ToolMessagesFirstError | chatbot.py:46-51 | a batch fails with the error of its first failing call, after invoking exactly the tools of the calls before it and of the failing call itself |
| Chat.UnknownTool | chatbot.py:50-51 | a call to a tool the registry lacks, when its arguments are JSON, answers `{}`, whose JSON is the text `{}`, and invokes nothing |
| Chat.MalformedArgumentsFail | chatbot.py:48 | arguments that are not JSON fail the call before any tool lookup, and nothing is invoked |
| Chat.TraceKnown | The-AI-You/chatbot.py:50-51 | in an answered batch, each call to a known tool invokes that tool exactly once, with the decoded arguments and in call order; unknown names invoke nothing |
| Chat.RunRounds | chatbot.py:69-74 | the first request carries the working sequence. Each later request is the previous one plus the assistant message and then the N results of that round, so each round adds exactly 1 + N messages. There is at most one request per scripted response, plus one that finds the script empty |
| Chat.RunKeepsPrefix | The-AI-You/chatbot.py:61-74 | every request starts with the working sequence, so the system message, the caller's history and the user message are never changed or reordered |
| Chat.RunAnswer | The-AI-You/chatbot.py:62-77 | a reply is the content of response n, where n is the number of requests sent. That response is the first whose finish reason is not `"tool_calls"`; every response before it was a successful tool round. The script left over is the rest after it |
| Chat.RunReachesAnswer | chatbot.py:62-77 | conversely, if n successful tool rounds are followed by another finish reason, the reply is that response's content after exactly n + 1 requests (tool rounds plus one) |
| Chat.RunExhausted | chatbot.py:63-68 | the call fails with `BackendExhausted` if and only if it sent one request per scripted response plus one more |
| Chat.AllRoundsExhaust | chatbot.py:63-74 | a script made only of successful tool rounds ends in `BackendExhausted` after one request per response plus one more, since the loop never stops on its own |
| Chat.Run | chatbot.py:62-77 | the reference definition of the loop, with no contract of its own; its properties are `Chat.RunRounds`, `Chat.RunKeepsPrefix`, `Chat.RunAnswer`, `Chat.RunReachesAnswer`, `Chat.RunExhausted`, `Chat.AllRoundsExhaust` and `Chat.RunMalformedFailsInRound`, and `Chat.Chatbot.Chat` is proved to do what it defines |
| Chat.RunMalformedFails | The-AI-You/chatbot.py:48 | arguments that are not JSON in a call of the first response fail the whole `chat` call, with no further request; the tools invoked are exactly those of that batch up to its first failing call |
| Chat.RunMalformedFailsInRound | chatbot.py:48 | the same after any number k of successful tool rounds: the call fails with request k + 1 as the last one sent, leaves the script after response k, and its last invocations are that batch's up to its first failing call |
| Tools.Registry.Invoke | chatbot.py:50-51 | invoking a tool returns the tool's result and appends exactly one entry to the invocation log |
| Backend.Client.Create | chatbot.py:64-68 | each request is logged and consumes the next scripted response; an empty script yields no response |
| Json.Encode | chatbot.py:54 | `json.dumps` with its default separators; no contract of its own, its properties are `Json.DecodeEncode` and `Json.EncodeEmptyObject` |
| Json.Decode | chatbot.py:48 | `json.loads`; no contract of its own, its properties are `Json.DecodeEncode` and the three `Json.DecodeRejects` lemmas |
| Json.DecodeEncode | chatbot.py:54 | decoding the JSON text of any value gives that value back |
| Json.EncodeEmptyObject | chatbot.py:51 | the empty result `{}` is written as the text `{}` |
| Json.DecodeRejectsEmpty | chatbot.py:48 | empty text is not JSON |
| Json.DecodeRejectsTruncated | chatbot.py:48 | any object written by `json.dumps`, with its closing brace cut off, is not JSON |
| Json.DecodeRejectsTrailing | chatbot.py:48 | any value followed by text that is not only whitespace is not JSON, so long as that text does not start with a digit that would extend a number |
| Gradio.LStrip | The-AI-You/chatbot.py:91 | the result is a suffix of the text, everything removed is whitespace, and it does not start with whitespace |
| Gradio.RStrip | The-AI-You/chatbot.py:91 | the result is a prefix of the text, everything removed is whitespace, and it does not end with whitespace |
| Gradio.Strip | The-AI-You/chatbot.py:91 | Python's `str.strip()`; no contract of its own, its properties are `Gradio.LStrip`, `Gradio.RStrip`, `Gradio.StripBlank` and `Gradio.StripIdempotent` |
| Gradio.StripBlank | The-AI-You/chatbot.py:91-92 | stripping leaves nothing if and only if the text is all whitespace |
| Gradio.StripIdempotent | The-AI-You/chatbot.py:91 | stripping twice is stripping once |
| Gradio.BlankMessage | The-AI-You/chatbot.py:91-92 | `(user_message or "").strip()` is empty, so the handler returns early, exactly when there is no message or the message is all whitespace |
| Gradio.OnSend | The-AI-You/chatbot.py:89-100 | blank input returns `("", chat_display, oa_messages)` unchanged, with no backend request and no tool call. Otherwise `chat` runs on the stripped message and the old history. The display grows by exactly the pair (message, reply), and the message history by exactly `[user(message), assistant(reply)]` |
| ContactForm.FieldIsStripped | The-AI-You/chatbot.py:110-112 | each form field is passed on as `(field or default).strip()` |
| ContactForm.FormDetails | The-AI-You/chatbot.py:109-113 | the keyword arguments of `record_user_details`; no contract of its own, its property is `ContactForm.FormDetailsStripped` |
| ContactForm.FormDetailsStripped | The-AI-You/chatbot.py:109-113 | the details recorded are exactly `(email or "").strip()`, `(name or "not provided").strip()` and `(notes or "not_provided").strip()` |
| ContactForm.DefaultsHaveNoSpace | The-AI-You/chatbot.py:111-112 | the defaults "not provided" and "not_provided" have no whitespace to strip |
| ContactForm.Confirmation | The-AI-You/chatbot.py:114-116 | the confirmation text; no contract of its own, its property is `ContactForm.ConfirmationText` |
| ContactForm.ConfirmationText | The-AI-You/chatbot.py:108-116 | the thanks text is posted if and only if `record_user_details` returned, and the apology if and only if it raised |
| ContactForm.OnContactSubmit | The-AI-You/chatbot.py:105-119 | the three form fields are cleared. Exactly one assistant message and one bot-only display row are appended after the old histories. Both carry the thanks or the apology, chosen by whether `record_user_details` returned on the form's details |

## Left out

- The OpenAI client and `chat.completions.create` are a network call. They are replaced by a scripted sequence of responses. The model name and the tool declarations sent with each request are not modelled.
- The loop has no iteration cap. The script's length bounds the model instead, and an exhausted script is the failure `BackendExhausted`.
- An error from the completion call itself is not modelled.
- `response.choices[0]` on an empty choice list is not modelled: each scripted response is the first choice.
- `tools.py` is not part of this model. `record_user_details`, `record_unknown_question` and any other tool are opaque functions: a registry entry for the loop, and a `Recorder` for the contact form.
- `globals().get` can resolve any global name, not only the tools. The model looks names up in the registry map.
- Keyword-argument binding (`tool(**arguments)`) is part of the opaque tool. An argument mismatch shows up as the tool raising.
- The `print` logging, the secrets and environment loading, and `generate_system_prompt` are left out. The system prompt is a parameter of the chatbot.
- `The-AI-You/utils.py` (`push`, an HTTP POST, and `read_pdf`, PDF text extraction) is left out.
- The Streamlit `main` in `chatbot.py:83-181` is UI plumbing and is left out. So are the Gradio layout, the event wiring and `on_example_click` (`The-AI-You/chatbot.py:102-103,121-155`).
- The caller's history is never mutated by `chat`. This holds by construction, since Dafny sequences are values. `Chat.RunKeepsPrefix` states the observable part: every request begins with the history unchanged.
- Json.Encode: does not model `ensure_ascii`. Python escapes DEL (U+007F) and every non-ASCII character; a character outside the Basic Multilingual Plane becomes two surrogate `\uXXXX` escapes. The model writes all of these characters as they are. Floats, `NaN` and `Infinity`, and the key sorting and indentation options are not modelled either.
- Json.Decode: rejects `NaN`, `Infinity` and `-Infinity`, which `json.loads` accepts. So tool arguments such as `{"x": NaN}` make the model's `chat` fail where the program goes on. It also rejects numbers with a fraction or an exponent, and every surrogate `\u` escape (D800 to DFFF), paired or lone. Objects keep duplicate keys in order, while Python's `dict` keeps the last one.
- ContactForm.OnContactSubmit: a tool's return value is ignored by the handler, so the `Recorder` only says whether `record_user_details` returned or raised.
