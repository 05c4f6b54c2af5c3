/**
 * What one user reply does to the conversation of the tool-call sample
 * (Samples/ChatGPTTools/ChatGPTTools.cs), as functions of the log before it.
 * The methods of class ChatGPTTools.ChatGPTTools are proved against these.
 *
 * The endpoint, the argument deserialiser and the weather lookup are oracles
 * (`Services`): each is a function of what the sample hands it.
 */
module Conversation {
  import opened DataTypes

  const UserRole := "user"
  const MessageType := "message"
  const FunctionCallType := "function_call"
  const FunctionCallOutputType := "function_call_output"
  const WeatherFunctionName := "get_weather"
  const LatitudeKey := "latitude"
  const LongitudeKey := "longitude"
  /** The suffix appended to the temperature text: masculine ordinal indicator, then C. */
  const DegreesCelsius := "\U{BA}C"

  datatype Services = Services(
    /** The responses endpoint. */
    createResponse: ResponseRequest -> Response,
    /** Deserialising Arguments into a key-to-number dictionary: its keys, or None when it throws or yields null. */
    parseArguments: Option<string> -> Option<set<string>>,
    /** The weather lookup, as the text of the first hourly temperature. */
    getWeather: Option<string> -> string)

  /** What a handler reads besides the log: the model name, the system prompt and the declared tools. */
  datatype Context = Context(model: string, prompt: string, tools: seq<ResponseTool>, services: Services)

  /** The log after a step, and the requests the step handed to the endpoint, in order. */
  datatype Trace = Trace(messages: seq<InputResponse>, requests: seq<ResponseRequest>)

  function Then(requests: seq<ResponseRequest>, t: Trace): Trace
  {
    Trace(t.messages, requests + t.requests)
  }

  // ---------------------------------------------------------------------------
  // Turns and requests

  /** The user turn SendReply builds: role "user" and the given content, nothing else. */
  function UserTurn(content: string): (turn: InputResponse)
    ensures turn.msg.role == Some(UserRole) && turn.content == Some(content)
    ensures turn.msg == BlankMessage.(role := Some(UserRole))
  {
    InputResponse(BlankMessage.(role := Some(UserRole)), Some(content))
  }

  /** The content of the user turn: the system prompt is prepended to the first turn only. */
  function UserContent(prompt: string, log: seq<InputResponse>, text: string): (content: string)
    ensures log == [] ==> content == prompt + "\n" + text
    ensures log != [] ==> content == text
  {
    if |log| == 0 then prompt + "\n" + text else text
  }

  /** The assistant turns one output message yields: one per content part, in part order. */
  function AssistantTurns(role: Option<string>, parts: seq<ResponseContent>): (turns: seq<InputResponse>)
    ensures |turns| == |parts|
    ensures forall k :: 0 <= k < |parts| ==>
      turns[k].content == parts[k].text && turns[k].msg == BlankMessage.(role := role)
  {
    seq(|parts|, k requires 0 <= k < |parts| => InputResponse(BlankMessage.(role := role), parts[k].text))
  }

  /** Taking one more part appends that part's turn. */
  lemma AssistantTurnsSnoc(role: Option<string>, parts: seq<ResponseContent>, j: nat)
    requires j < |parts|
    ensures AssistantTurns(role, parts[..j + 1])
         == AssistantTurns(role, parts[..j]) + [InputResponse(BlankMessage.(role := role), parts[j].text)]
  {
  }

  /**
   * The two-item input of a tool round: an echo of the call, then its output
   * under the same call id.
   */
  function ToolRoundInput(call: OutputResponse, temperature: string): (input: seq<InputResponse>)
    ensures |input| == 2
    ensures input[0].msg == BlankMessage.(kind := call.msg.kind, id := call.msg.id,
      callId := call.msg.callId, name := call.msg.name, arguments := call.msg.arguments)
    ensures input[1].msg == BlankMessage.(kind := Some(FunctionCallOutputType),
      callId := call.msg.callId, output := Some(temperature + DegreesCelsius))
    ensures input[0].content.None? && input[1].content.None?
  {
    [ InputResponse(BlankMessage.(kind := call.msg.kind, id := call.msg.id, callId := call.msg.callId,
        name := call.msg.name, arguments := call.msg.arguments), None),
      InputResponse(BlankMessage.(kind := Some(FunctionCallOutputType), callId := call.msg.callId,
        output := Some(temperature + DegreesCelsius)), None) ]
  }

  /** The request SendReply sends: the whole log, the model and the declared tools. */
  function ReplyRequest(ctx: Context, log: seq<InputResponse>): (r: ResponseRequest)
    ensures r.input == Some(log) && r.model == Some(ctx.model) && r.tools == Some(ctx.tools)
    ensures r.store.None? && r.previousResponseId.None? && r.maxToolCalls.None? && !r.background
  {
    NewResponseRequest().(model := Some(ctx.model), input := Some(log), tools := Some(ctx.tools))
  }

  /** The request of a tool round: only the given input, the model, the tools, and Store set. */
  function ToolRoundRequest(ctx: Context, input: seq<InputResponse>): (r: ResponseRequest)
    ensures r.input == Some(input) && r.model == Some(ctx.model) && r.tools == Some(ctx.tools)
    ensures r.store == Some(true) && r.previousResponseId.None? && r.maxToolCalls.None? && !r.background
  {
    NewResponseRequest().(model := Some(ctx.model), input := Some(input), tools := Some(ctx.tools), store := Some(true))
  }

  // ---------------------------------------------------------------------------
  // The handlers

  /**
   * HandleResponse's walk over the output items. "message" items append their
   * parts, but one without content ends the walk; "function_call" items are
   * dispatched, but end the walk when onlyText holds; other items are skipped.
   * The walk only appends to the log, and a text-only walk sends nothing.
   */
  function HandleItems(ctx: Context, log: seq<InputResponse>, items: seq<OutputResponse>, onlyText: bool): (r: Trace)
    ensures log <= r.messages
    ensures onlyText ==> r.requests == []
    decreases if onlyText then 0 else 2, 0, |items|
  {
    if items == [] then Trace(log, [])
    else
      var item := items[0];
      if item.msg.kind == Some(MessageType) then
        match item.content
        case None => Trace(log, [])
        case Some(parts) => HandleItems(ctx, log + AssistantTurns(item.msg.role, parts), items[1..], onlyText)
      else if item.msg.kind == Some(FunctionCallType) then
        if onlyText then Trace(log, [])
        else
          var dispatched := FunctionCall(ctx, log, item);
          Then(dispatched.requests, HandleItems(ctx, dispatched.messages, items[1..], onlyText))
      else
        HandleItems(ctx, log, items[1..], onlyText)
  }

  /** HandleResponse: a null Output throws on `.Count` before anything is appended; Error is not consulted. */
  function HandleResponse(ctx: Context, log: seq<InputResponse>, response: Response, onlyText: bool): (r: Trace)
    ensures log <= r.messages
    ensures response.output.None? ==> r == Trace(log, [])
    ensures onlyText ==> r.requests == []
    decreases if onlyText then 0 else 2, 1, 0
  {
    match response.output
    case None => Trace(log, [])
    case Some(items) => HandleItems(ctx, log, items, onlyText)
  }

  /**
   * HandleFunctionCall: only get_weather with both coordinates present is
   * answered; the answer to the tool round is handled text-only, so the call
   * sends at most one request and the log only grows.
   */
  function FunctionCall(ctx: Context, log: seq<InputResponse>, call: OutputResponse): (r: Trace)
    ensures log <= r.messages
    ensures |r.requests| <= 1
    decreases 1, 0, 0
  {
    if call.msg.name == Some(WeatherFunctionName) then
      match ctx.services.parseArguments(call.msg.arguments)
      case None => Trace(log, [])
      case Some(keys) =>
        if LatitudeKey in keys && LongitudeKey in keys then
          var request := ToolRoundRequest(ctx, ToolRoundInput(call, ctx.services.getWeather(call.msg.arguments)));
          Then([request], HandleResponse(ctx, log, ctx.services.createResponse(request), true))
        else Trace(log, [])
    else Trace(log, [])
  }

  /**
   * SendReply: log the user turn, send the whole log, handle the answer with
   * tool calls enabled. The old log and the user turn stay a prefix of the new
   * log, and the request carrying them is the first one sent.
   */
  function Reply(ctx: Context, log: seq<InputResponse>, text: string): (r: Trace)
    ensures log + [UserTurn(UserContent(ctx.prompt, log, text))] <= r.messages
    ensures r.messages[|log|].msg.role == Some(UserRole)
    ensures r.messages[|log|].content == Some(if log == [] then ctx.prompt + "\n" + text else text)
    ensures 1 <= |r.requests| && r.requests[0] == ReplyRequest(ctx, log + [UserTurn(UserContent(ctx.prompt, log, text))])
  {
    var logged := log + [UserTurn(UserContent(ctx.prompt, log, text))];
    var request := ReplyRequest(ctx, logged);
    Then([request], HandleResponse(ctx, logged, ctx.services.createResponse(request), false))
  }

  // ---------------------------------------------------------------------------
  // Requests

  /** A tool-round request: two input items, an echo and a function_call_output with the same call id, Store set. */
  predicate IsToolRound(ctx: Context, r: ResponseRequest)
  {
    && r.input.Some? && |r.input.value| == 2
    && r.input.value[1].msg.kind == Some(FunctionCallOutputType)
    && r.input.value[0].msg.callId == r.input.value[1].msg.callId
    && r.model == Some(ctx.model) && r.tools == Some(ctx.tools)
    && r.store == Some(true) && r.previousResponseId.None?
  }

  /** The number of function_call items. */
  function CountFunctionCalls(items: seq<OutputResponse>): nat
  {
    if items == [] then 0
    else (if items[0].msg.kind == Some(FunctionCallType) then 1 else 0) + CountFunctionCalls(items[1..])
  }

  /** The output items of a response; none when Output is null. */
  function OutputItems(response: Response): seq<OutputResponse>
  {
    match response.output
    case None => []
    case Some(items) => items
  }

  // ---------------------------------------------------------------------------
  // Processing order and early ends

  /** A "message" item with content appends one assistant turn per part, then the walk goes on. */
  lemma MessageItemAppends(ctx: Context, log: seq<InputResponse>, item: OutputResponse, rest: seq<OutputResponse>, onlyText: bool)
    requires item.msg.kind == Some(MessageType) && item.content.Some?
    ensures HandleItems(ctx, log, [item] + rest, onlyText)
         == HandleItems(ctx, log + AssistantTurns(item.msg.role, item.content.value), rest, onlyText)
  {
  }

  /** The items that end HandleResponse at once: a message without content, or a call when onlyText holds. */
  predicate EndsWalk(item: OutputResponse, onlyText: bool)
  {
    || (item.msg.kind == Some(MessageType) && item.content.None?)
    || (item.msg.kind == Some(FunctionCallType) && onlyText)
  }

  /** Once an ending item is reached, neither it nor anything after it has any effect. */
  lemma {:induction false} EndingItemStopsWalk(ctx: Context, log: seq<InputResponse>, before: seq<OutputResponse>,
                                                item: OutputResponse, after: seq<OutputResponse>, onlyText: bool)
    requires EndsWalk(item, onlyText)
    ensures HandleItems(ctx, log, before + [item] + after, onlyText) == HandleItems(ctx, log, before, onlyText)
    decreases |before|
  {
    var items := before + [item] + after;
    if before == [] {
      assert items[0] == item;
    } else {
      assert items[0] == before[0];
      assert items[1..] == before[1..] + [item] + after;
      var head := before[0];
      if head.msg.kind == Some(MessageType) {
        if head.content.Some? {
          EndingItemStopsWalk(ctx, log + AssistantTurns(head.msg.role, head.content.value), before[1..], item, after, onlyText);
        }
      } else if head.msg.kind == Some(FunctionCallType) {
        if !onlyText {
          EndingItemStopsWalk(ctx, FunctionCall(ctx, log, head).messages, before[1..], item, after, onlyText);
        }
      } else {
        EndingItemStopsWalk(ctx, log, before[1..], item, after, onlyText);
      }
    }
  }

  /** An item whose Type is neither "message" nor "function_call" is skipped. */
  lemma {:induction false} OtherItemSkipped(ctx: Context, log: seq<InputResponse>, before: seq<OutputResponse>,
                                            item: OutputResponse, after: seq<OutputResponse>, onlyText: bool)
    requires item.msg.kind != Some(MessageType) && item.msg.kind != Some(FunctionCallType)
    ensures HandleItems(ctx, log, before + [item] + after, onlyText) == HandleItems(ctx, log, before + after, onlyText)
    decreases |before|
  {
    var items := before + [item] + after;
    if before == [] {
      assert items[0] == item && items[1..] == after && before + after == after;
    } else {
      assert items[0] == before[0] && (before + after)[0] == before[0];
      assert items[1..] == before[1..] + [item] + after;
      assert (before + after)[1..] == before[1..] + after;
      var head := before[0];
      if head.msg.kind == Some(MessageType) {
        if head.content.Some? {
          OtherItemSkipped(ctx, log + AssistantTurns(head.msg.role, head.content.value), before[1..], item, after, onlyText);
        }
      } else if head.msg.kind == Some(FunctionCallType) {
        if !onlyText {
          OtherItemSkipped(ctx, FunctionCall(ctx, log, head).messages, before[1..], item, after, onlyText);
        }
      } else {
        OtherItemSkipped(ctx, log, before[1..], item, after, onlyText);
      }
    }
  }

  /** A response made only of other item types, including an empty or a null Output, changes nothing and sends nothing. */
  lemma {:induction false} OtherItemsChangeNothing(ctx: Context, log: seq<InputResponse>, response: Response, onlyText: bool)
    requires forall i :: 0 <= i < |OutputItems(response)| ==>
      OutputItems(response)[i].msg.kind != Some(MessageType) && OutputItems(response)[i].msg.kind != Some(FunctionCallType)
    ensures HandleResponse(ctx, log, response, onlyText) == Trace(log, [])
  {
    if response.output.Some? {
      assert OutputItems(response) == response.output.value;
      OtherItemsSkipped(ctx, log, response.output.value, onlyText);
    }
  }

  lemma {:induction false} OtherItemsSkipped(ctx: Context, log: seq<InputResponse>, items: seq<OutputResponse>, onlyText: bool)
    requires forall i :: 0 <= i < |items| ==> items[i].msg.kind != Some(MessageType) && items[i].msg.kind != Some(FunctionCallType)
    ensures HandleItems(ctx, log, items, onlyText) == Trace(log, [])
    decreases |items|
  {
    if items != [] {
      OtherItemsSkipped(ctx, log, items[1..], onlyText);
    }
  }

  /** One step of the walk from position i, as each kind of item takes it. */
  lemma HandleItemsStep(ctx: Context, log: seq<InputResponse>, items: seq<OutputResponse>, i: nat, onlyText: bool)
    requires i < |items|
    ensures var item := items[i];
      var t := HandleItems(ctx, log, items[i..], onlyText);
      && (EndsWalk(item, onlyText) ==> t == Trace(log, []))
      && (item.msg.kind == Some(MessageType) && item.content.Some? ==>
            t == HandleItems(ctx, log + AssistantTurns(item.msg.role, item.content.value), items[i + 1..], onlyText))
      && (item.msg.kind == Some(FunctionCallType) && !onlyText ==>
            t == Then(FunctionCall(ctx, log, item).requests,
                      HandleItems(ctx, FunctionCall(ctx, log, item).messages, items[i + 1..], onlyText)))
      && (item.msg.kind != Some(MessageType) && item.msg.kind != Some(FunctionCallType) ==>
            t == HandleItems(ctx, log, items[i + 1..], onlyText))
  {
  }

  /** The Error field of a response plays no part. */
  lemma ResponseErrorIgnored(ctx: Context, log: seq<InputResponse>, response: Response, error: Option<ApiError>, onlyText: bool)
    ensures HandleResponse(ctx, log, response.(error := error), onlyText) == HandleResponse(ctx, log, response, onlyText)
  {
  }

  // ---------------------------------------------------------------------------
  // Tool rounds

  /**
   * HandleFunctionCall sends a request exactly when the call is get_weather and
   * its arguments parse with both coordinates; it is then the only request, and
   * its input is the echo and the output of that call.
   */
  lemma FunctionCallRequest(ctx: Context, log: seq<InputResponse>, call: OutputResponse)
    ensures var t := FunctionCall(ctx, log, call);
      var args := ctx.services.parseArguments(call.msg.arguments);
      && (t.requests != [] <==>
            call.msg.name == Some(WeatherFunctionName) && args.Some?
            && LatitudeKey in args.value && LongitudeKey in args.value)
      && (t.requests != [] ==>
            t.requests == [ToolRoundRequest(ctx, ToolRoundInput(call, ctx.services.getWeather(call.msg.arguments)))])
      && (t.requests == [] ==> t.messages == log)
  {
  }

  /** The output item of a tool round answers exactly the call echoed before it. */
  lemma ToolRoundPairsCall(ctx: Context, call: OutputResponse, temperature: string)
    ensures var r := ToolRoundRequest(ctx, ToolRoundInput(call, temperature));
      && IsToolRound(ctx, r)
      && r.input.value[0].msg.callId == call.msg.callId
      && r.input.value[0].msg.kind == call.msg.kind
      && r.input.value[1].msg.output == Some(temperature + DegreesCelsius)
  {
  }

  /**
   * With tool calls enabled, every request sent is a tool round, and there is
   * at most one per function_call item: answers to tool rounds dispatch nothing.
   */
  lemma {:induction false} ToolRoundsBoundedByCalls(ctx: Context, log: seq<InputResponse>, items: seq<OutputResponse>)
    ensures var t := HandleItems(ctx, log, items, false);
      && |t.requests| <= CountFunctionCalls(items)
      && forall k :: 0 <= k < |t.requests| ==> IsToolRound(ctx, t.requests[k])
    decreases |items|
  {
    if items != [] {
      var item := items[0];
      if item.msg.kind == Some(MessageType) {
        if item.content.Some? {
          ToolRoundsBoundedByCalls(ctx, log + AssistantTurns(item.msg.role, item.content.value), items[1..]);
        }
      } else if item.msg.kind == Some(FunctionCallType) {
        var dispatched := FunctionCall(ctx, log, item);
        FunctionCallRequest(ctx, log, item);
        if dispatched.requests != [] {
          ToolRoundPairsCall(ctx, item, ctx.services.getWeather(item.msg.arguments));
        }
        ToolRoundsBoundedByCalls(ctx, dispatched.messages, items[1..]);
      } else {
        ToolRoundsBoundedByCalls(ctx, log, items[1..]);
      }
    }
  }

  /**
   * A reply sends the whole log (old log plus the user turn) first, with no
   * continuation id, then at most one tool round per function_call item of
   * the first answer.
   */
  lemma ReplyRequests(ctx: Context, log: seq<InputResponse>, text: string)
    ensures var t := Reply(ctx, log, text);
      var logged := log + [UserTurn(UserContent(ctx.prompt, log, text))];
      var first := ctx.services.createResponse(ReplyRequest(ctx, logged));
      && 1 <= |t.requests| <= 1 + CountFunctionCalls(OutputItems(first))
      && t.requests[0].input == Some(logged)
      && t.requests[0].tools == Some(ctx.tools) && t.requests[0].model == Some(ctx.model)
      && t.requests[0].previousResponseId.None? && t.requests[0].store.None?
      && forall k :: 1 <= k < |t.requests| ==> IsToolRound(ctx, t.requests[k])
  {
    var logged := log + [UserTurn(UserContent(ctx.prompt, log, text))];
    var first := ctx.services.createResponse(ReplyRequest(ctx, logged));
    ToolRoundsBoundedByCalls(ctx, logged, OutputItems(first));
  }
}
