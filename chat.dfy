/**
  ChatService: the `chatClient` field set by the two `Init*` methods, and the
  checks, message construction and response shaping of
  `MakeVisionRequestAsync`. The completion call itself is a parameter.
*/
module Chat {
  import opened Wrappers
  import opened Text
  import opened Errors
  import opened Models
  import opened ContentSanitizer

  /** The client `Init*` builds: which service, and with what settings. */
  datatype ChatClient =
    | AzureClient(endpoint: string, key: string, deployment: string)
    | OpenAIClient(key: string, deployment: string)

  datatype DetailLevel = Low

  datatype ContentPart =
    | TextPart(text: string)
    | ImagePart(data: Bytes, mediaType: string, detail: DetailLevel)

  /** What goes to `CompleteChatAsync`: one user message per entry of `messages`. */
  datatype ChatRequest = ChatRequest(client: ChatClient, messages: seq<seq<ContentPart>>, maxOutputTokenCount: int)

  /** What comes back: the content parts' texts and the token usage. */
  datatype Completion = Completion(content: seq<string>, inputTokenCount: int, outputTokenCount: int)

  /** The network call, which may fail. */
  type CompletionService = ChatRequest -> Result<Completion, Error>

  const MaxOutputTokenCount := 5000

  const NotInitializedText := "Chat client is not initialized. Please call one of the Init methods first."
  const EmptyImageText := "Image data must not be null or empty."
  const BlankExtensionText := "File extension must not be null or whitespace."
  const BlankPromptText := "Prompt must not be null or whitespace."

  /** The argument checks of `InitAzureOpenAIChatClient`, in order, then the client. */
  function AzureClientFor(endpoint: Option<string>, key: Option<string>, deployment: Option<string>): (r: Result<ChatClient, Error>)
    ensures r.Success? <==> !IsNullOrWhiteSpace(endpoint) && !IsNullOrWhiteSpace(key) && !IsNullOrWhiteSpace(deployment)
    ensures r.Success? ==> r.value == AzureClient(endpoint.value, key.value, deployment.value)
    ensures IsNullOrWhiteSpace(endpoint) ==> Fail(r.error) == ThrowIfNullOrWhiteSpace(endpoint, "azureOpenAIEndpoint")
    ensures !IsNullOrWhiteSpace(endpoint) && IsNullOrWhiteSpace(key) ==> Fail(r.error) == ThrowIfNullOrWhiteSpace(key, "azureOpenAIKey")
    ensures !IsNullOrWhiteSpace(endpoint) && !IsNullOrWhiteSpace(key) && IsNullOrWhiteSpace(deployment) ==>
      Fail(r.error) == ThrowIfNullOrWhiteSpace(deployment, "azureOpenAIDeploymentName")
  {
    var e := ThrowIfNullOrWhiteSpace(endpoint, "azureOpenAIEndpoint");
    var k := ThrowIfNullOrWhiteSpace(key, "azureOpenAIKey");
    var d := ThrowIfNullOrWhiteSpace(deployment, "azureOpenAIDeploymentName");
    if e.Fail? then Failure(e.error)
    else if k.Fail? then Failure(k.error)
    else if d.Fail? then Failure(d.error)
    else Success(AzureClient(endpoint.value, key.value, deployment.value))
  }

  /** The argument checks of `InitOpenAIChatClient`, in order, then the client. */
  function OpenAIClientFor(key: Option<string>, deployment: Option<string>): (r: Result<ChatClient, Error>)
    ensures r.Success? <==> !IsNullOrWhiteSpace(key) && !IsNullOrWhiteSpace(deployment)
    ensures r.Success? ==> r.value == OpenAIClient(key.value, deployment.value)
    ensures IsNullOrWhiteSpace(key) ==> Fail(r.error) == ThrowIfNullOrWhiteSpace(key, "openAIKey")
    ensures !IsNullOrWhiteSpace(key) && IsNullOrWhiteSpace(deployment) ==>
      Fail(r.error) == ThrowIfNullOrWhiteSpace(deployment, "openAIDeploymentName")
  {
    var k := ThrowIfNullOrWhiteSpace(key, "openAIKey");
    var d := ThrowIfNullOrWhiteSpace(deployment, "openAIDeploymentName");
    if k.Fail? then Failure(k.error)
    else if d.Fail? then Failure(d.error)
    else Success(OpenAIClient(key.value, deployment.value))
  }

  /** The field after an `Init*` call: replaced on success, kept on a throw. */
  function AfterInit(state: Option<ChatClient>, init: Result<ChatClient, Error>): Option<ChatClient> {
    if init.Success? then Some(init.value) else state
  }

  /** The field after a series of `Init*` calls. */
  function Replay(state: Option<ChatClient>, inits: seq<Result<ChatClient, Error>>): Option<ChatClient> {
    if inits == [] then state else AfterInit(Replay(state, inits[..|inits| - 1]), inits[|inits| - 1])
  }

  /** Last init wins: after a series of calls the field holds the client of the
      last call that succeeded, or what it held before when none did. */
  lemma {:induction false} LastInitWins(state: Option<ChatClient>, inits: seq<Result<ChatClient, Error>>)
    ensures (forall k :: 0 <= k < |inits| ==> inits[k].Failure?) ==> Replay(state, inits) == state
    ensures forall k :: 0 <= k < |inits| && inits[k].Success? && (forall j :: k < j < |inits| ==> inits[j].Failure?) ==>
      Replay(state, inits) == Some(inits[k].value)
  {
    if inits != [] {
      var init := inits[..|inits| - 1];
      LastInitWins(state, init);
      assert forall k :: 0 <= k < |init| ==> init[k] == inits[k];
    }
  }

  /** Repeating a call changes nothing more. */
  lemma InitIsIdempotent(state: Option<ChatClient>, init: Result<ChatClient, Error>)
    ensures AfterInit(AfterInit(state, init), init) == AfterInit(state, init)
  {
  }

  /** The two user messages: the prompt, then the image with its media type. */
  function VisionRequest(client: ChatClient, image: Bytes, fileExtension: string, prompt: string): ChatRequest {
    ChatRequest(client, [[TextPart(prompt)], [ImagePart(image, "image/" + fileExtension, Low)]], MaxOutputTokenCount)
  }

  /** The media types of the image parts of a request, in order. */
  function MediaTypes(messages: seq<seq<ContentPart>>): seq<string> {
    if messages == [] then []
    else MediaTypes(messages[..|messages| - 1]) + PartMediaTypes(messages[|messages| - 1])
  }

  function PartMediaTypes(parts: seq<ContentPart>): seq<string> {
    if parts == [] then []
    else PartMediaTypes(parts[..|parts| - 1]) + (if parts[|parts| - 1].ImagePart? then [parts[|parts| - 1].mediaType] else [])
  }

  /** The texts of the text parts of a request, in order. */
  function Texts(messages: seq<seq<ContentPart>>): seq<string> {
    if messages == [] then []
    else Texts(messages[..|messages| - 1]) + PartTexts(messages[|messages| - 1])
  }

  function PartTexts(parts: seq<ContentPart>): seq<string> {
    if parts == [] then []
    else PartTexts(parts[..|parts| - 1]) + (if parts[|parts| - 1].TextPart? then [parts[|parts| - 1].text] else [])
  }

  /** Every vision request caps the output at 5000 tokens, carries the prompt
      as its only text and one image whose media type is "image/" followed by
      the extension it was given. */
  lemma VisionRequestShape(client: ChatClient, image: Bytes, fileExtension: string, prompt: string)
    ensures var q := VisionRequest(client, image, fileExtension, prompt);
      q.client == client && q.maxOutputTokenCount == 5000
      && Texts(q.messages) == [prompt]
      && MediaTypes(q.messages) == ["image/" + fileExtension]
      && StartsWith(MediaTypes(q.messages)[0], "image/")
      && MediaTypes(q.messages)[0][|"image/"|..] == fileExtension
  {
    var q := VisionRequest(client, image, fileExtension, prompt);
    var m0, m1 := [TextPart(prompt)], [ImagePart(image, "image/" + fileExtension, Low)];
    SinglePart(m0[0]);
    SinglePart(m1[0]);
    assert q.messages == [m0, m1];
    assert q.messages[..1] == [m0] && [m0][..0] == [];
    assert Texts([m0]) == PartTexts(m0);
    assert MediaTypes([m0]) == PartMediaTypes(m0);
  }

  /** A message of one part: its text or its media type. */
  lemma SinglePart(p: ContentPart)
    ensures PartTexts([p]) == (if p.TextPart? then [p.text] else [])
    ensures PartMediaTypes([p]) == (if p.ImagePart? then [p.mediaType] else [])
  {
    assert [p][..0] == [];
  }

  /** `MakeVisionRequestAsync` as a function of the client field. */
  function VisionResponse(client: Option<ChatClient>, image: Bytes, fileExtension: string, prompt: string,
                          complete: CompletionService, newLine: NewLine): (r: Result<AIResponse, Error>)
    ensures client.None? ==> r == Failure(InvalidOperationError(NotInitializedText))
    ensures client.Some? && image == [] ==> r == Failure(ArgumentError(EmptyImageText, "image"))
    ensures client.Some? && image != [] && AllWhiteSpace(fileExtension) ==>
      r == Failure(ArgumentError(BlankExtensionText, "fileExtension"))
    ensures client.Some? && image != [] && !AllWhiteSpace(fileExtension) && AllWhiteSpace(prompt) ==>
      r == Failure(ArgumentError(BlankPromptText, "prompt"))
    ensures r.Success? ==>
      && client.Some? && image != [] && !AllWhiteSpace(fileExtension) && !AllWhiteSpace(prompt)
      && var c := complete(VisionRequest(client.value, image, fileExtension, prompt));
      && c.Success? && c.value.content != []
      && r.value.rawContent == c.value.content[0]
      && r.value.content == CleanContent(Some(r.value.rawContent), newLine)
      && r.value.inputTokenCount == c.value.inputTokenCount
      && r.value.outputTokenCount == c.value.outputTokenCount
    ensures r.Success? ==> '"' !in r.value.content && IsTrimmed(r.value.content)
  {
    if client.None? then Failure(InvalidOperationError(NotInitializedText))
    else if image == [] then Failure(ArgumentError(EmptyImageText, "image"))
    else if AllWhiteSpace(fileExtension) then Failure(ArgumentError(BlankExtensionText, "fileExtension"))
    else if AllWhiteSpace(prompt) then Failure(ArgumentError(BlankPromptText, "prompt"))
    else
      match complete(VisionRequest(client.value, image, fileExtension, prompt))
      case Failure(e) => Failure(e)
      case Success(c) =>
        if c.content == [] then Failure(IndexOutOfRangeError)
        else
          var text := c.content[0];
          Success(AIResponse(text, CleanContent(Some(text), newLine), c.inputTokenCount, c.outputTokenCount))
  }

  /** A failing completion call, or one with no content, fails the request. */
  lemma VisionResponseFailsWithCompletion(client: ChatClient, image: Bytes, fileExtension: string, prompt: string,
                                          complete: CompletionService, newLine: NewLine)
    requires image != [] && !AllWhiteSpace(fileExtension) && !AllWhiteSpace(prompt)
    ensures var c := complete(VisionRequest(client, image, fileExtension, prompt));
      var r := VisionResponse(Some(client), image, fileExtension, prompt, complete, newLine);
      && (c.Failure? ==> r == Failure(c.error))
      && (c.Success? && c.value.content == [] ==> r == Failure(IndexOutOfRangeError))
      && (c.Success? && c.value.content != [] ==> r.Success?)
  {
  }

  class ChatService {
    var chatClient: Option<ChatClient>

    constructor ()
      ensures chatClient == None
    {
      chatClient := None;
    }

    /** `InitAzureOpenAIChatClient(endpoint, key, deploymentName)`. */
    method InitAzureOpenAIChatClient(endpoint: Option<string>, key: Option<string>, deployment: Option<string>)
      returns (o: Outcome<Error>)
      modifies this
      ensures var init := AzureClientFor(endpoint, key, deployment);
        && o == (if init.Success? then Pass else Fail(init.error))
        && chatClient == AfterInit(old(chatClient), init)
    {
      var init := AzureClientFor(endpoint, key, deployment);
      if init.Failure? {
        return Fail(init.error);
      }
      chatClient := Some(init.value);
      return Pass;
    }

    /** `InitOpenAIChatClient(key, deploymentName)`. */
    method InitOpenAIChatClient(key: Option<string>, deployment: Option<string>) returns (o: Outcome<Error>)
      modifies this
      ensures var init := OpenAIClientFor(key, deployment);
        && o == (if init.Success? then Pass else Fail(init.error))
        && chatClient == AfterInit(old(chatClient), init)
    {
      var init := OpenAIClientFor(key, deployment);
      if init.Failure? {
        return Fail(init.error);
      }
      chatClient := Some(init.value);
      return Pass;
    }

    /** `MakeVisionRequestAsync(image, fileExtension, prompt)`; reads the field only. */
    method MakeVisionRequest(image: Bytes, fileExtension: string, prompt: string,
                             complete: CompletionService, newLine: NewLine)
      returns (r: Result<AIResponse, Error>)
      ensures r == VisionResponse(chatClient, image, fileExtension, prompt, complete, newLine)
    {
      if chatClient.None? {
        return Failure(InvalidOperationError(NotInitializedText));
      }
      if image == [] {
        return Failure(ArgumentError(EmptyImageText, "image"));
      }
      if AllWhiteSpace(fileExtension) {
        return Failure(ArgumentError(BlankExtensionText, "fileExtension"));
      }
      if AllWhiteSpace(prompt) {
        return Failure(ArgumentError(BlankPromptText, "prompt"));
      }
      var request := VisionRequest(chatClient.value, image, fileExtension, prompt);
      var result := complete(request);
      if result.Failure? {
        return Failure(result.error);
      }
      if result.value.content == [] {
        return Failure(IndexOutOfRangeError);
      }
      var text := result.value.content[0];
      r := Success(AIResponse(text, CleanContent(Some(text), newLine),
                              result.value.inputTokenCount, result.value.outputTokenCount));
    }
  }
}
