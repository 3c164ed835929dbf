/**
  The application-wide constants both front ends use: the host names of
  `Statics` and the progress and error texts of `TextStatics`.
*/
module Statics {
  /** `Statics.OpenAiKey` and `Statics.AzureOpenAiKey`. */
  const OpenAIHost := "OpenAI"
  const AzureOpenAIHost := "Azure OpenAI"

  /** `Statics.DefaultDeploymentName` and `Statics.DefaultLanguage`. */
  const DefaultDeploymentName := "gpt-4o-mini"
  const DefaultLanguage := "English"

  const StartText := "Start image processing..."
  const ExtractText := "Extract EXIF data from image..."
  const ResizeText := "Resize image..."
  const VisionText := "Making AI vision request..."
  const SeparatorText := "---"
  const WriteOutputText := "Writing to output file..."
  const NoPicturesText := "No picture files found in the specified folder."

  /** The console's end and missing-folder texts, each ending in a line break. */
  const FinishText := "All images where processed. Please press any key to exit the program.\r\n"
  const FolderDoesNotExistText := "The specified folder does not exist!\r\n"

  /** The desktop app's end and missing-folder texts. */
  const AllPhotosProcessedText := "All images were processed."
  const FolderDoesNotExistsText := "The specified folder does not exist!"
}
