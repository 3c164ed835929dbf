/**
  The two service calls the loop bodies of both front ends share: the
  caption prompt for a picture's metadata and the vision request for the
  resized picture. Each is also given as a function value, so that a loop's
  specification can name the step without unfolding it.
*/
module Steps {
  import opened Wrappers
  import opened Text
  import opened Errors
  import opened Models
  import opened Prompt
  import opened Chat
  import opened Images

  /** Everything outside the process the steps depend on. */
  datatype Services = Services(images: ImageService, complete: CompletionService,
                               format: NumberFormat, newLine: NewLine)

  /** `GetInstagramCaptionPrompt(language, metadata, additionalInformation)`. */
  function PromptStep(language: string, info: Option<string>, format: NumberFormat, newLine: NewLine)
    : ImageMetaData -> Result<string, Error>
  {
    meta => CaptionPrompt(Some(language), meta, info, format, newLine)
  }

  /** `MakeVisionRequestAsync(image, fileExtension, prompt)` with the client field as it is. */
  function VisionStep(client: Option<ChatClient>, complete: CompletionService, newLine: NewLine)
    : (Bytes, string, string) -> Result<AIResponse, Error>
  {
    (image, fileExtension, prompt) => VisionResponse(client, image, fileExtension, prompt, complete, newLine)
  }

  /** `prompt` is the prompt step for a language and a hint. */
  ghost predicate PromptsFor(prompt: ImageMetaData -> Result<string, Error>, language: string, info: Option<string>, s: Services) {
    forall meta {:trigger CaptionPrompt(Some(language), meta, info, s.format, s.newLine)} ::
      prompt(meta) == CaptionPrompt(Some(language), meta, info, s.format, s.newLine)
  }

  /** `vision` is the vision step for a client field. */
  ghost predicate AsksFor(vision: (Bytes, string, string) -> Result<AIResponse, Error>, client: Option<ChatClient>, s: Services) {
    forall image, ext, p {:trigger VisionResponse(client, image, ext, p, s.complete, s.newLine)} ::
      vision(image, ext, p) == VisionResponse(client, image, ext, p, s.complete, s.newLine)
  }

  lemma StepsDescribe(client: Option<ChatClient>, language: string, info: Option<string>, s: Services)
    ensures PromptsFor(PromptStep(language, info, s.format, s.newLine), language, info, s)
    ensures AsksFor(VisionStep(client, s.complete, s.newLine), client, s)
  {
  }

  /** The prompt step of a loop body. */
  method CaptionPromptStep(language: string, meta: ImageMetaData, info: Option<string>, s: Services,
                           ghost prompt: ImageMetaData -> Result<string, Error>)
    returns (r: Result<string, Error>)
    requires PromptsFor(prompt, language, info, s)
    ensures r == prompt(meta)
  {
    r := GetInstagramCaptionPrompt(Some(language), meta, info, s.format, s.newLine);
  }

  /** The vision step of a loop body. */
  method VisionRequestStep(chat: ChatService, image: Bytes, fileExtension: string, prompt: string, s: Services,
                           ghost vision: (Bytes, string, string) -> Result<AIResponse, Error>)
    returns (r: Result<AIResponse, Error>)
    requires AsksFor(vision, chat.chatClient, s)
    ensures r == vision(image, fileExtension, prompt)
  {
    r := chat.MakeVisionRequest(image, fileExtension, prompt, s.complete, s.newLine);
  }
}
