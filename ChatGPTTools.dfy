/**
 * The tool-call chat sample (Samples/ChatGPTTools/ChatGPTTools.cs): a
 * component that keeps the conversation log and the declared tools in two
 * list fields and appends to them in place. Rendering, button and input-field
 * state are not modelled; the network, the argument deserialiser and the
 * weather lookup come in as `Services`.
 */
module ChatGPTTools {
  import opened DataTypes
  import opened Conversation

  /** The inspector-serialised default of the model field; the constructor is handed the configured value. */
  const DefaultChatGPTModel := "gpt-4.1-nano-2025-04-14"

  const StrangerPrompt :=
    "Act as a random stranger in a chat room and reply to the questions. Don't break character. Don't ever mention that you are an AI model."

  /**
   * The get_weather declaration: a non-strict function tool whose parameters
   * are an object with two numeric properties, latitude and longitude. Its
   * Required list names "location" and "units", which are not among them.
   */
  function WeatherTool(): (tool: ResponseTool)
    ensures tool.kind == Some("function") && tool.name == Some(WeatherFunctionName) && !tool.strict
    ensures tool.parameters.kind == Some("object") && !tool.parameters.additionalProperties
    ensures tool.parameters.properties.Some?
    ensures tool.parameters.properties.value.Keys == {LatitudeKey, LongitudeKey}
    ensures forall key :: key in tool.parameters.properties.value ==>
      tool.parameters.properties.value[key].kind == Some("number")
    ensures tool.parameters.required == Some(["location", "units"])
    ensures forall k :: 0 <= k < |tool.parameters.required.value| ==>
      tool.parameters.required.value[k] !in tool.parameters.properties.value
  {
    var parameters := ToolParameters(
      Some("object"),
      Some(map[
        LatitudeKey := ToolProperty(Some("number"), Some("Latitude of the location"), None),
        LongitudeKey := ToolProperty(Some("number"), Some("Longitude of the location"), None)]),
      Some(["location", "units"]),
      false);
    ResponseTool(Some("function"), Some(WeatherFunctionName),
      Some("Retrieves current weather for the given location."), parameters, false)
  }

  /**
   * The declaration and the dispatcher agree: a call named as the declared
   * tool whose arguments carry the declared properties gets exactly one tool round.
   */
  lemma DeclaredWeatherCallIsAnswered(ctx: Context, log: seq<InputResponse>, call: OutputResponse, keys: set<string>)
    requires call.msg.name == WeatherTool().name
    requires ctx.services.parseArguments(call.msg.arguments) == Some(keys)
    requires WeatherTool().parameters.properties.value.Keys <= keys
    ensures |FunctionCall(ctx, log, call).requests| == 1
  {
  }

  class ChatGPTTools {
    const chatGPTModel: string
    const prompt: string
    var messages: seq<InputResponse>
    var modelTools: seq<ResponseTool>
    /** The requests handed to the endpoint so far, in order. */
    ghost var sent: seq<ResponseRequest>

    /**
     * The model name is whatever the component was configured with in the
     * inspector: DefaultChatGPTModel unless changed there.
     */
    constructor (chatGPTModel: string)
      ensures this.chatGPTModel == chatGPTModel && prompt == StrangerPrompt
      ensures messages == [] && modelTools == [] && sent == []
    {
      this.chatGPTModel := chatGPTModel;
      prompt := StrangerPrompt;
      messages := [];
      modelTools := [];
      sent := [];
    }

    /** The configuration the handlers read, with the given services. */
    function ContextWith(services: Services): Context
      reads this
    {
      Context(chatGPTModel, prompt, modelTools, services)
    }

    /** Declares get_weather: one tool appended, the earlier ones kept. */
    method AddWeatherFunction()
      modifies this`modelTools
      ensures modelTools == old(modelTools) + [WeatherTool()]
    {
      var tool := WeatherTool();
      modelTools := modelTools + [tool];
    }

    /**
     * Logs the user's text as a user turn (prefixed by the system prompt when
     * the log is empty), sends the whole log with the tools, and handles the
     * answer with tool calls enabled.
     */
    method SendReply(text: string, services: Services)
      modifies this`messages, this`sent
      ensures var t := Reply(ContextWith(services), old(messages), text);
        messages == t.messages && sent == old(sent) + t.requests
      ensures old(messages) + [UserTurn(if old(messages) == [] then prompt + "\n" + text else text)] <= messages
    {
      var newMessage := NewInputResponse();
      newMessage := newMessage.(msg := newMessage.msg.(role := Some(UserRole)), content := Some(text));
      if |messages| == 0 {
        newMessage := newMessage.(content := Some(prompt + "\n" + text));
      }
      messages := messages + [newMessage];
      var request := NewResponseRequest().(model := Some(chatGPTModel), input := Some(messages), tools := Some(modelTools));
      sent := sent + [request];
      var completionResponse := services.createResponse(request);
      HandleResponse(completionResponse, false, services);
    }

    /**
     * Walks the output items in order: a "message" appends one turn per
     * content part (and ends the walk when it has no content); a
     * "function_call" is dispatched (and ends the walk when onlyText holds);
     * other items are skipped. A null Output throws before anything happens.
     */
    method HandleResponse(completionResponse: Response, onlyText: bool, services: Services)
      modifies this`messages, this`sent
      decreases if onlyText then 0 else 2, 1, 0
      ensures var t := Conversation.HandleResponse(ContextWith(services), old(messages), completionResponse, onlyText);
        messages == t.messages && sent == old(sent) + t.requests
    {
      if completionResponse.output.None? {
        return;
      }
      ghost var ctx := ContextWith(services);
      var items := completionResponse.output.value;
      if |items| > 0 {
        ghost var requests: seq<ResponseRequest> := [];
        var i := 0;
        while i < |items|
          invariant 0 <= i <= |items|
          invariant ctx == ContextWith(services)
          invariant sent == old(sent) + requests
          invariant HandleItems(ctx, old(messages), items, onlyText)
                 == Then(requests, HandleItems(ctx, messages, items[i..], onlyText))
        {
          var output := items[i];
          HandleItemsStep(ctx, messages, items, i, onlyText);
          if output.msg.kind == Some(MessageType) {
            if output.content.None? {
              return;
            }
            AppendTurns(output.msg.role, output.content.value);
          } else if output.msg.kind == Some(FunctionCallType) {
            if onlyText {
              return;
            }
            ghost var dispatched := FunctionCall(ctx, messages, output);
            HandleFunctionCall(output, services);
            requests := requests + dispatched.requests;
          }
          i := i + 1;
        }
      }
    }

    /** The inner loop of HandleResponse: one assistant turn per content part, in part order. */
    method AppendTurns(role: Option<string>, parts: seq<ResponseContent>)
      modifies this`messages
      ensures messages == old(messages) + AssistantTurns(role, parts)
    {
      var j := 0;
      while j < |parts|
        invariant 0 <= j <= |parts|
        invariant messages == old(messages) + AssistantTurns(role, parts[..j])
      {
        var message := NewInputResponse();
        message := message.(content := parts[j].text);
        message := message.(msg := message.msg.(role := role));
        AssistantTurnsSnoc(role, parts, j);
        messages := messages + [message];
        j := j + 1;
      }
      assert parts[..j] == parts;
    }

    /**
     * Answers a get_weather call whose arguments hold both coordinates: sends
     * the echo of the call and its output (and nothing of the log), then
     * handles the answer text-only. Any other call is ignored.
     */
    method HandleFunctionCall(call: OutputResponse, services: Services)
      modifies this`messages, this`sent
      decreases 1, 0, 0
      ensures var t := FunctionCall(ContextWith(services), old(messages), call);
        messages == t.messages && sent == old(sent) + t.requests
    {
      if call.msg.name == Some(WeatherFunctionName) {
        var args := services.parseArguments(call.msg.arguments);
        if args.None? {
          // the deserialiser throws, or yields null and ContainsKey throws
          return;
        }
        if LatitudeKey in args.value && LongitudeKey in args.value {
          var result := services.getWeather(call.msg.arguments);
          var input := ToolRoundInput(call, result);
          var request := NewResponseRequest().(model := Some(chatGPTModel), input := Some(input),
            tools := Some(modelTools), store := Some(true));
          sent := sent + [request];
          var functionCompletionResponse := services.createResponse(request);
          HandleResponse(functionCompletionResponse, true, services);
        }
      }
    }
  }
}
