/** Value types shared by the whole model: the image record, the view
    states of the application, and the values that JavaScript code can
    throw (the failure half of every asynchronous call). */
module Types {

  datatype Option<T> = None | Some(value: T)

  /** The outcome of an operation that either returns a value or throws. */
  datatype Result<T> = Ok(value: T) | Err(error: Thrown)

  /** A generated or edited image: a displayable data URI, the base64
      payload and its MIME type. A new edit yields a new record. */
  datatype GeneratedImage = GeneratedImage(url: string, base64: string, mimeType: string)

  /** The five view states of the application. */
  datatype AppState = Idle | Loading | ImageDisplayed | ComicDisplayed | Error

  /** The `error` member of a rejected API response: its `message` ("" when
      absent or empty) and the text JSON.stringify produces for it. */
  datatype ErrorBody = ErrorBody(message: string, json: string)

  /** A value a rejected call can carry:
      - a string;
      - an object: whether it is an `Error` instance, its `message` ("" when
        absent or empty, which JavaScript treats as false), its
        `response.error` when both `response` and `response.error` are
        present, and the text JSON.stringify produces for the object;
      - any other primitive (a number, a boolean). */
  datatype Thrown =
    | StringThrown(text: string)
    | ObjectThrown(isError: bool, message: string, responseError: Option<ErrorBody>, json: string)
    | PrimitiveThrown

  /** The value of `new Error(message)`: an Error instance that has no
      `response` member and whose JSON text is an empty object. */
  function ErrorObject(message: string): (e: Thrown)
    ensures e.ObjectThrown? && e.isError && e.message == message && e.responseError.None?
  {
    ObjectThrown(true, message, None, "{}")
  }
}
