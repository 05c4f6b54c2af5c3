# Tool-call chat sample of OpenAI-Unity, in Dafny

This project models the conversation handler of the OpenAI-Unity tool-call
sample and the request and message records it is built from.

The component keeps two lists. `messages` is the conversation log of input
items. `modelTools` holds the declared tools. A user reply appends a user turn
to the log; the system prompt is prepended to the first one. The reply then
sends the whole log and the tools to the responses endpoint. Items of the answer
are handled in order:

- a `"message"` item appends one assistant turn per content part;
- a `"function_call"` item for `get_weather` with both coordinates starts a
  tool round. The round sends a fresh two-item input: an echo of the call, and
  a `function_call_output` with the same call id and the temperature text
  followed by `ºC`. Its answer is handled text-only, so a tool round never
  starts another one;
- any other item is ignored.

A `"message"` with null content ends the walk. So does a `"function_call"`
during a text-only walk.

A reply can therefore run several tool rounds, one per answered
`"function_call"` item of the first answer, in item order. None of them is
nested in another, because each round's answer is handled text-only.

Files:

- `DataTypes.dfy` (module `DataTypes`): the response-family records
  (`ResponseMessage`, `InputResponse`, `OutputResponse`, `ResponseContent`,
  `ResponseTool`, `ToolParameters`, `ToolProperty`, `ResponseRequest`,
  `Response`). It also holds the request records whose field initialisers fix
  defaults, with functions that build them. Null references are `Option`s.
- `Conversation.dfy` (module `Conversation`): one user reply as pure functions
  of the log before it. `Reply` models `SendReply`, `HandleResponse` and
  `HandleItems` model `HandleResponse`, and `FunctionCall` models
  `HandleFunctionCall`. Each returns a `Trace`: the new log and the requests
  sent, in order. The module also holds the lemmas about these functions.
- `ChatGPTTools.dfy` (module `ChatGPTTools`): the class `ChatGPTTools`. Its
  `messages` and `modelTools` fields are appended in place by methods with
  the source's loops and early returns. Each method is proved equal to its
  specification function. A ghost field `sent` records the requests handed to
  the endpoint.

The endpoint (`openai.CreateResponse`), the deserialisation of `Arguments` and
`WeatherAPI.GetWeather` come in as oracle functions (`Conversation.Services`).
Argument parsing yields only the set of keys present, or `None` when
deserialisation throws or yields null. The weather result is an opaque string.

The declared `get_weather` tool lists `"location"` and `"units"` as required.
Neither is one of its declared properties (`latitude`, `longitude`), and the
dispatcher checks the two coordinates instead. `WeatherTool` states this as
written.

## Model

| member | source | states |
|---|---|---|
| `DataTypes.NewInputResponse` | Runtime/DataTypes.cs:294-320 | a new input item has every shared field and its content null |
| `DataTypes.NewResponseRequest` | Runtime/DataTypes.cs:205-230 | a new request has no input, model, tools, Store, continuation id or tool-call cap, and Background false |
| `DataTypes.NewCreateChatCompletionRequest` | Runtime/DataTypes.cs:95-110 | N = 1, Stream = false, every other non-float field unset |
| `DataTypes.NewCreateImageRequest` | Runtime/DataTypes.cs:374-397 | for every subclass: N = 1, Size "1024x1024", ResponseFormat "url" (both among the declared constants), User unset |
| `DataTypes.NewCreateAudioRequest` | Runtime/DataTypes.cs:344-361 | for transcription and translation: ResponseFormat "json" (one of the declared formats), other fields unset |
| `DataTypes.NewCreateFineTuneRequest` | Runtime/DataTypes.cs:473-487 | NEpochs = 4, ComputeClassificationMetrics false, BatchSize and ClassificationNClasses absent |
| `DataTypes.NewCreateModerationRequest` | Runtime/DataTypes.cs:541-545 | Model "text-moderation-latest", not the stable model; Input unset |
| `Conversation.UserTurn` | Samples/ChatGPTTools/ChatGPTTools.cs:97-101 | the user turn has Role "user", the given content, and no other field set |
| `Conversation.UserContent` | Samples/ChatGPTTools/ChatGPTTools.cs:105 | on an empty log the content is prompt + "\n" + text, otherwise exactly the text |
| `Conversation.AssistantTurns` | Samples/ChatGPTTools/ChatGPTTools.cs:143-150 | one turn per content part, in part order, with Content = the part's Text and Role = the output's Role |
| `Conversation.ToolRoundInput` | Samples/ChatGPTTools/ChatGPTTools.cs:188-203 | exactly two items: an echo copying Type, Id, CallId, Name and Arguments, then a function_call_output with the same CallId and Output = result + "ºC" |
| `Conversation.ReplyRequest` | Samples/ChatGPTTools/ChatGPTTools.cs:115-120 | the reply request carries the whole log as Input, the model and the declared tools; Store, the continuation id and the tool-call cap are unset |
| `Conversation.ToolRoundRequest` | Samples/ChatGPTTools/ChatGPTTools.cs:206-212 | a tool-round request carries only the given input, the model and the tools, with Store true and no continuation id |
| `Conversation.HandleItems` | Samples/ChatGPTTools/ChatGPTTools.cs:134-167 | the walk over the output items only appends to the log, and a text-only walk sends no request; its item-by-item behaviour is fixed by `MessageItemAppends`, `EndingItemStopsWalk`, `OtherItemSkipped`, `OtherItemsSkipped` and `HandleItemsStep` |
| `Conversation.HandleResponse` | Samples/ChatGPTTools/ChatGPTTools.cs:128-169 | HandleResponse only appends to the log; a null Output changes nothing and sends nothing; handling a tool round's answer sends no request |
| `Conversation.FunctionCall` | Samples/ChatGPTTools/ChatGPTTools.cs:171-218 | HandleFunctionCall only appends to the log and sends at most one request; which calls send one, and what, is fixed by `FunctionCallRequest` |
| `Conversation.Reply` | Samples/ChatGPTTools/ChatGPTTools.cs:95-126 | a reply keeps the old log, then appends one user turn whose content is prompt + "\n" + text on an empty log and the text otherwise; the first request sent is the reply request over that log; the rest is fixed by `ReplyRequests` |
| `Conversation.MessageItemAppends` | Samples/ChatGPTTools/ChatGPTTools.cs:140-152 | a message item with content appends exactly its turns, then the walk continues with the next item |
| `Conversation.EndingItemStopsWalk` | Samples/ChatGPTTools/ChatGPTTools.cs:142-155 | a message with null content, or a function_call when onlyText holds, ends the walk: it and all later items have no effect |
| `Conversation.OtherItemSkipped` | Samples/ChatGPTTools/ChatGPTTools.cs:138-161 | an item whose Type is neither "message" nor "function_call" is skipped with no effect |
| `Conversation.OtherItemsSkipped` | Samples/ChatGPTTools/ChatGPTTools.cs:136-162 | a walk over items of other types leaves the log unchanged and sends nothing |
| `Conversation.OtherItemsChangeNothing` | Samples/ChatGPTTools/ChatGPTTools.cs:134-167 | a null Output, an empty Output or one with only other item types leaves the log unchanged and sends nothing |
| `Conversation.ResponseErrorIgnored` | Samples/ChatGPTTools/ChatGPTTools.cs:128-169 | the response's Error field does not affect its handling |
| `Conversation.FunctionCallRequest` | Samples/ChatGPTTools/ChatGPTTools.cs:173-214 | a request is sent iff Name is "get_weather" and the parsed arguments hold both latitude and longitude; it is then the only request, carrying the echo and the output of that call; otherwise the log is unchanged |
| `Conversation.ToolRoundPairsCall` | Samples/ChatGPTTools/ChatGPTTools.cs:188-212 | the tool-round request has two input items whose CallIds match the call's, Store true, the model and the tools, and no continuation id |
| `Conversation.ToolRoundsBoundedByCalls` | Samples/ChatGPTTools/ChatGPTTools.cs:136-218 | with tool calls enabled, every request sent is a tool round, and there are at most as many as function_call items |
| `Conversation.ReplyRequests` | Samples/ChatGPTTools/ChatGPTTools.cs:107-122 | a reply first sends the whole log with the tools and model, no Store and no continuation id; after it come only tool rounds, at most one per function_call item of the first answer |
| `ChatGPTTools.WeatherTool` | Samples/ChatGPTTools/ChatGPTTools.cs:40-70 | Type "function", Name "get_weather", Strict false, parameters of type "object" with exactly the properties latitude and longitude, each of type "number"; its Required names keys that are not properties |
| `ChatGPTTools.DeclaredWeatherCallIsAnswered` | Samples/ChatGPTTools/ChatGPTTools.cs:173-178 | a call named as the declared tool whose arguments carry the declared properties gets exactly one tool round |
| `ChatGPTTools.ChatGPTTools.constructor` | Samples/ChatGPTTools/ChatGPTTools.cs:21-30 | the model is the configured one (inspector default `DefaultChatGPTModel`); the log and the tool list start empty; the prompt is the stranger prompt |
| `ChatGPTTools.ChatGPTTools.AddWeatherFunction` | Samples/ChatGPTTools/ChatGPTTools.cs:38-73 | appends exactly the get_weather tool and keeps the earlier tools |
| `ChatGPTTools.ChatGPTTools.SendReply` | Samples/ChatGPTTools/ChatGPTTools.cs:95-126 | the new log and the requests sent are those of `Reply` on the old log; the old log followed by the user turn is a prefix of the new log |
| `ChatGPTTools.ChatGPTTools.HandleResponse` | Samples/ChatGPTTools/ChatGPTTools.cs:128-169 | the new log and the requests sent are those of `Conversation.HandleResponse` on the old log |
| `ChatGPTTools.ChatGPTTools.AppendTurns` | Samples/ChatGPTTools/ChatGPTTools.cs:143-150 | the inner loop of HandleResponse appends exactly `AssistantTurns` of the parts to the log |
| `ChatGPTTools.ChatGPTTools.HandleFunctionCall` | Samples/ChatGPTTools/ChatGPTTools.cs:171-218 | the new log and the requests sent are those of `Conversation.FunctionCall` on the old log |

## Left out

- User interface: `AppendMessage`, scrolling, `height`, and enabling the button and the input field. These only render. The displayed first turn does not carry the prompt; that difference is only visible on screen.
- `Start`: it only attaches `SendReply` to the button and calls `AddWeatherFunction` once.
- Scheduling of `async void`: `HandleFunctionCall` is not awaited. In the source, the rest of the outer walk runs first; the tool round's answer is appended when it arrives. With several calls the answers may arrive in any order. The model runs each tool round at its call point, in item order.
- `ChatGPTTools.ChatGPTTools.HandleFunctionCall`: a failing or throwing weather lookup or endpoint call is not modelled; both oracles always answer.
- `ChatGPTTools.ChatGPTTools.SendReply`: the endpoint call can throw. Then only the user turn has been logged, the same outcome as an answer with a null Output; the model has the endpoint always answer.
- A `"refusal"` content part has a null Text, so it is logged as an assistant turn with null Content. The model does this too (`AssistantTurns` copies Text), and the refusal text itself is dropped.
- Fields that the core never reads or sets are not part of the records: `ResponseRequest` lacks Metadata, Prompt, Reasoning, ServiceTier, Text, TopLogprobs and Truncation. `Response` lacks Background, IncompleteDetails, Instructions, MaxOutputTokens, MaxToolCalls, Metadata, Object, ParallelToolCalls, Prompt, Reasoning, ServiceTier, Text, ToolChoice, Tools, TopLogprobs, Truncation, Usage and User.
- The base classes `CreateImageRequestBase` and `CreateAudioRequestBase` are not abstract in the source, but the model has no variant for a bare base-class instance; only the sub-classes are modelled.
- Servers that answer the same request differently over time: the endpoint is a function of the request.
- JSON (de)serialisation and `Debug.Log`: argument parsing is reduced to the set of keys present.
- Floating point: latitude and longitude values, temperature formatting, and float fields and defaults (Temperature, penalties, LearningRateMultiplier, PromptLossWeight, ClassificationBetas, TopP).
- `Runtime/OpenAITtsApi.cs` and `Samples/ChatGPTTools/WeatherAPI.cs`: HTTP request construction and a network fetch.
- The other records in `DataTypes.cs` (files, models, embeddings, fine-tune responses, moderation results, TTS, usage), and the `Annotations` and `Param`/`Code` object fields: plain records with no behaviour.
- A loop budget, error results for unknown tools, handling of an API error, and `previousResponseId` continuation: the code has none of these. The model shows that Error is ignored and that no request carries a continuation id.
