/**
 * The records of Runtime/DataTypes.cs that the tool-call sample and the request
 * builders use. C# reference and nullable fields are `Option`s (`None` is null);
 * `List<T>` is `seq<T>`, `Dictionary<K, V>` is `map<K, V>`. Float-valued fields
 * are not part of this model.
 */
module DataTypes {

  datatype Option<+T> = None | Some(value: T)

  // ---------------------------------------------------------------------------
  // String constants (the static classes at the end of DataTypes.cs)

  const ImageSize256 := "256x256"
  const ImageSize512 := "512x512"
  const ImageSize1024 := "1024x1024"

  const ImageResponseFormatUrl := "url"
  const ImageResponseFormatBase64Json := "b64_json"

  const AudioResponseFormatJson := "json"
  const AudioResponseFormatText := "text"
  const AudioResponseFormatSrt := "srt"
  const AudioResponseFormatVerboseJson := "verbose_json"
  const AudioResponseFormatVtt := "vtt"

  const ModerationModelStable := "text-moderation-stable"
  const ModerationModelLatest := "text-moderation-latest"

  // ---------------------------------------------------------------------------
  // Tool declarations

  datatype ToolProperty = ToolProperty(
    kind: Option<string>,
    description: Option<string>,
    enum: Option<seq<string>>)

  datatype ToolParameters = ToolParameters(
    kind: Option<string>,
    properties: Option<map<string, ToolProperty>>,
    required: Option<seq<string>>,
    additionalProperties: bool)

  /** A tool declared to the responses endpoint (a struct: never null itself). */
  datatype ResponseTool = ResponseTool(
    kind: Option<string>,
    name: Option<string>,
    description: Option<string>,
    parameters: ToolParameters,
    strict: bool)

  // ---------------------------------------------------------------------------
  // Chat-completion records

  datatype ToolFunctionResponse = ToolFunctionResponse(name: Option<string>, arguments: Option<string>)

  datatype ToolCallsType = ToolCallsType(
    id: Option<string>,
    callId: Option<string>,
    kind: Option<string>,
    func: ToolFunctionResponse)

  datatype ChatMessage = ChatMessage(
    role: Option<string>,
    content: Option<string>,
    toolCalls: Option<seq<ToolCallsType>>,
    kind: Option<string>,
    callId: Option<string>,
    output: Option<string>)

  datatype ToolFunction = ToolFunction(
    name: Option<string>,
    description: Option<string>,
    parameters: ToolParameters,
    strict: bool)

  datatype Tool = Tool(
    kind: Option<string>,
    func: Option<ToolFunction>,
    name: Option<string>,
    description: Option<string>,
    parameters: Option<ToolParameters>,
    strict: Option<bool>)

  // ---------------------------------------------------------------------------
  // Responses-endpoint messages

  /** The fields that input and output items share (class ResponseMessage). */
  datatype ResponseMessage = ResponseMessage(
    id: Option<string>,
    status: Option<string>,
    kind: Option<string>,
    role: Option<string>,
    arguments: Option<string>,
    callId: Option<string>,
    name: Option<string>,
    output: Option<string>,
    toolCalls: Option<seq<ToolCallsType>>)

  /** A `new ResponseMessage()`: every field null. */
  const BlankMessage: ResponseMessage :=
    ResponseMessage(None, None, None, None, None, None, None, None, None)

  /** One content part of an output message: "output_text" or "refusal". */
  datatype ResponseContent = ResponseContent(
    kind: Option<string>,
    text: Option<string>,
    refusal: Option<string>)

  /** An output item: the shared fields and an ordered list of content parts. */
  datatype OutputResponse = OutputResponse(msg: ResponseMessage, content: Option<seq<ResponseContent>>)

  /** An input item: the shared fields and a single string content. */
  datatype InputResponse = InputResponse(msg: ResponseMessage, content: Option<string>)

  /** A `new InputResponse()`: the shared fields and the content are all null. */
  function NewInputResponse(): (r: InputResponse)
    ensures r.msg == BlankMessage && r.content.None?
    ensures r.msg.role.None? && r.msg.kind.None? && r.msg.callId.None?
  {
    InputResponse(BlankMessage, None)
  }

  datatype ApiError = ApiError(message: Option<string>, kind: Option<string>)

  /** The request sent to the responses endpoint (a struct: every field starts at its default). */
  datatype ResponseRequest = ResponseRequest(
    background: bool,
    includes: Option<seq<string>>,
    input: Option<seq<InputResponse>>,
    instructions: Option<string>,
    maxOutputTokens: Option<int>,
    maxToolCalls: Option<int>,
    model: Option<string>,
    parallelToolCalls: Option<bool>,
    previousResponseId: Option<string>,
    store: Option<bool>,
    stream: Option<bool>,
    toolChoice: Option<string>,
    tools: Option<seq<ResponseTool>>,
    user: Option<string>)

  /** `new ResponseRequest()`: no input, no model, no tools, no continuation id, no tool-call cap. */
  function NewResponseRequest(): (r: ResponseRequest)
    ensures !r.background
    ensures r.input.None? && r.model.None? && r.tools.None? && r.store.None?
    ensures r.previousResponseId.None? && r.maxToolCalls.None? && r.parallelToolCalls.None?
    ensures r.includes.None? && r.instructions.None? && r.maxOutputTokens.None?
    ensures r.stream.None? && r.toolChoice.None? && r.user.None?
  {
    ResponseRequest(false, None, None, None, None, None, None, None, None, None, None, None, None, None)
  }

  /** What the responses endpoint returns; `output` is null when the body carried only an error. */
  datatype Response = Response(
    id: Option<string>,
    status: Option<string>,
    model: Option<string>,
    output: Option<seq<OutputResponse>>,
    previousResponseId: Option<string>,
    store: bool,
    error: Option<ApiError>,
    warning: Option<string>)

  // ---------------------------------------------------------------------------
  // Request records whose field initialisers fix defaults

  datatype CreateChatCompletionRequest = CreateChatCompletionRequest(
    model: Option<string>,
    messages: Option<seq<ChatMessage>>,
    n: int,
    stream: bool,
    stop: Option<string>,
    maxTokens: Option<int>,
    logitBias: Option<map<string, string>>,
    user: Option<string>,
    systemFingerprint: Option<string>,
    tools: Option<seq<Tool>>)

  /** `new CreateChatCompletionRequest()`: one choice, no streaming, nothing else set. */
  function NewCreateChatCompletionRequest(): (r: CreateChatCompletionRequest)
    ensures r.n == 1 && !r.stream
    ensures r.model.None? && r.messages.None? && r.stop.None? && r.maxTokens.None?
    ensures r.logitBias.None? && r.user.None? && r.systemFingerprint.None? && r.tools.None?
  {
    CreateChatCompletionRequest(None, None, 1, false, None, None, None, None, None, None)
  }

  /** The three sub-classes of CreateImageRequestBase, with their own fields. */
  datatype ImageRequestKind =
    | Generation(prompt: Option<string>)
    | Edit(image: Option<string>, mask: Option<string>, prompt: Option<string>)
    | Variation(image: Option<string>)

  datatype CreateImageRequest = CreateImageRequest(
    variant: ImageRequestKind,
    n: Option<int>,
    size: string,
    responseFormat: string,
    user: Option<string>)

  /** A new image request of any kind, with its own fields as given: one image, 1024x1024, as a URL. */
  function NewCreateImageRequest(variant: ImageRequestKind): (r: CreateImageRequest)
    ensures r.variant == variant
    ensures r.n == Some(1)
    ensures r.size == "1024x1024" && r.size in ImageSizes()
    ensures r.responseFormat == "url" && r.responseFormat in ImageResponseFormats()
    ensures r.user.None?
  {
    CreateImageRequest(variant, Some(1), ImageSize1024, ImageResponseFormatUrl, None)
  }

  function ImageSizes(): set<string> { {ImageSize256, ImageSize512, ImageSize1024} }

  function ImageResponseFormats(): set<string> { {ImageResponseFormatUrl, ImageResponseFormatBase64Json} }

  datatype FileData = FileData(data: Option<seq<bv8>>, name: Option<string>)

  /** The two sub-classes of CreateAudioRequestBase. */
  datatype AudioRequestKind = Transcription(language: Option<string>) | Translation

  datatype CreateAudioRequest = CreateAudioRequest(
    variant: AudioRequestKind,
    file: Option<string>,
    fileData: FileData,
    model: Option<string>,
    prompt: Option<string>,
    responseFormat: string)

  /** A new transcription or translation request: JSON response format, nothing else set. */
  function NewCreateAudioRequest(variant: AudioRequestKind): (r: CreateAudioRequest)
    ensures r.variant == variant
    ensures r.responseFormat == "json" && r.responseFormat in AudioResponseFormats()
    ensures r.file.None? && r.model.None? && r.prompt.None?
    ensures r.fileData == FileData(None, None)
  {
    CreateAudioRequest(variant, None, FileData(None, None), None, None, AudioResponseFormatJson)
  }

  function AudioResponseFormats(): set<string>
  {
    {AudioResponseFormatJson, AudioResponseFormatText, AudioResponseFormatSrt,
     AudioResponseFormatVerboseJson, AudioResponseFormatVtt}
  }

  datatype CreateFineTuneRequest = CreateFineTuneRequest(
    trainingFile: Option<string>,
    validationFile: Option<string>,
    model: Option<string>,
    nEpochs: int,
    batchSize: Option<int>,
    computeClassificationMetrics: bool,
    classificationNClasses: Option<int>,
    classificationPositiveClass: Option<string>,
    suffix: Option<string>)

  /** `new CreateFineTuneRequest()`: four epochs, no classification metrics, batch size and class count unset. */
  function NewCreateFineTuneRequest(): (r: CreateFineTuneRequest)
    ensures r.nEpochs == 4
    ensures r.batchSize.None? && r.classificationNClasses.None?
    ensures !r.computeClassificationMetrics
    ensures r.trainingFile.None? && r.validationFile.None? && r.model.None?
    ensures r.classificationPositiveClass.None? && r.suffix.None?
  {
    CreateFineTuneRequest(None, None, None, 4, None, false, None, None, None)
  }

  datatype CreateModerationRequest = CreateModerationRequest(input: Option<string>, model: string)

  /** `new CreateModerationRequest()`: the latest moderation model, no input yet. */
  function NewCreateModerationRequest(): (r: CreateModerationRequest)
    ensures r.model == "text-moderation-latest" && r.model != ModerationModelStable
    ensures r.input.None?
  {
    CreateModerationRequest(None, ModerationModelLatest)
  }
}
