/** The request parts the Gemini client (`genai.Part`) is given. */
module GenAi {
  import opened Strings

  /** `genai.Text` or `genai.Blob` (inline data with its MIME type). */
  datatype Part = Text(text: GoString) | Blob(mimeType: GoString, data: GoString)

  /** `genai.ImageData(format, data)`: a blob of type `image/<format>`. */
  function ImageData(format: GoString, data: GoString): Part {
    Blob("image/" + format, data)
  }
}
