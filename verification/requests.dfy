/** The form fields of a `POST /chat` request. */
module Requests {
  import opened Wrappers

  /** The optional uploaded audio part; its bytes are not modelled. */
  datatype AudioUpload = AudioUpload(filename: Option<string>, contentType: Option<string>)

  datatype ChatRequest = ChatRequest(
    message: string,
    kind: string,
    sessionId: string,
    userId: string,
    username: string,
    audio: Option<AudioUpload>)
}
