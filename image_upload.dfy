/** Uploading an image to the media host and classifying its reply
    (src/lib/imageUpload.ts). The POST itself is not performed: the model builds
    the request and takes the transport's outcome as an input. */
module ImageUpload {
  import opened Wrappers
  import Js

  const Endpoint: string := "https://media.varietyheaven.in/upload.php"
  const InvalidResponseText: string := "Image upload failed: Invalid response from server."
  const NetworkFailureText: string := "Image upload failed due to a network or server error."
  const StatusPrefix: string := "Image upload failed with status "

  /** A file picked in the browser; only its identity matters here. */
  datatype File = File(name: string, size: nat)

  /** The multipart POST `uploadImage` sends. */
  datatype UploadRequest = UploadRequest(url: string, contentType: string, fields: seq<(string, File)>)

  /** The body of a 2xx reply: a JSON object, where `Some` means the key is present
      with a string value, plain text, or anything else (null, a number, ...). */
  datatype ResponseData =
    | JsonObject(url: Option<string>, error: Option<string>)
    | PlainText(text: string)
    | OtherData

  /** The body of an error reply, when it is an object. */
  datatype ErrorBody = ErrorBody(error: Option<string>, message: Option<string>)

  /** What the transport reports: a 2xx reply, an HTTP error reply, or a failure
      with no reply at all (network error, aborted request), with its message. */
  datatype Outcome =
    | Received(data: ResponseData)
    | HttpFailure(status: nat, body: Option<ErrorBody>)
    | NoResponse(message: string)

  function RequestFor(file: File): (r: UploadRequest)
    ensures r.url == Endpoint && r.contentType == "multipart/form-data"
    ensures |r.fields| == 1 && r.fields[0] == ("file", file)
  {
    UploadRequest(Endpoint, "multipart/form-data", [("file", file)])
  }

  /** Rethrowing in the catch block: a caught non-HTTP error keeps its message,
      an empty message becomes the network-failure text. */
  function Rethrown(message: string): (m: string)
    ensures m != ""
    ensures message != "" ==> m == message
  {
    if message != "" then message else NetworkFailureText
  }

  /** How a 2xx reply is read. Errors thrown here are caught by the same
      function's catch block and pass through `Rethrown`. */
  function Classify(data: ResponseData): (r: Result<string, string>)
    ensures r.Success? <==> (data.JsonObject? && data.url.Some?) || (data.PlainText? && "http" <= data.text)
    ensures data.JsonObject? && data.url.Some? ==> r == Success(data.url.value)
    ensures data.PlainText? && r.Success? ==> r.value == data.text
    ensures data.JsonObject? && data.url.None? && data.error.Some? ==> r == Failure(Rethrown(data.error.value))
    ensures r.Failure? ==> r.error != ""
  {
    match data
    case JsonObject(url, error) =>
      if url.Some? then Success(url.value)
      else if error.Some? then Failure(Rethrown(error.value))
      else Failure(InvalidResponseText)
    case PlainText(text) =>
      if "http" <= text then Success(text) else Failure(InvalidResponseText)
    case OtherData => Failure(InvalidResponseText)
  }

  /** `uploadImage`: the url on success, the message of the error it throws otherwise. */
  function UploadImage(o: Outcome): (r: Result<string, string>)
    ensures r.Success? <==>
      o.Received? && ((o.data.JsonObject? && o.data.url.Some?) || (o.data.PlainText? && "http" <= o.data.text))
    ensures o.Received? && o.data.JsonObject? && o.data.url.Some? ==> r == Success(o.data.url.value)
    ensures o.Received? && o.data.PlainText? && "http" <= o.data.text ==> r == Success(o.data.text)
    ensures o.Received? && o.data.JsonObject? && o.data.url.None? && o.data.error.Some? && o.data.error.value != "" ==>
      r == Failure(o.data.error.value)
    ensures o.NoResponse? && o.message != "" ==> r == Failure(o.message)
    ensures r.Failure? ==> r.error != ""
  {
    match o
    case Received(data) => Classify(data)
    case HttpFailure(status, body) =>
      var err := if body.Some? then body.value.error else None;
      var msg := if body.Some? then body.value.message else None;
      Failure(Js.OrElse(err, Js.OrElse(msg, StatusPrefix + Js.NatToString(status))))
    case NoResponse(message) => Failure(Rethrown(message))
  }

  /** An HTTP error reply reports, in order of preference, its `error` text, its
      `message` text, or the status written in decimal after a fixed prefix. */
  lemma HttpFailureMessage(status: nat, body: Option<ErrorBody>)
    ensures var r := UploadImage(HttpFailure(status, body));
      var err := if body.Some? then body.value.error else None;
      var msg := if body.Some? then body.value.message else None;
      && r.Failure?
      && (Js.Truthy(err) ==> r.error == err.value)
      && (!Js.Truthy(err) && Js.Truthy(msg) ==> r.error == msg.value)
      && (!Js.Truthy(err) && !Js.Truthy(msg) ==> StatusPrefix <= r.error)
  {
  }

  /** The status in the fallback message reads back as the status itself. */
  lemma {:induction false} StatusMessageNamesStatus(status: nat)
    ensures var m := UploadImage(HttpFailure(status, None)).error;
      && StatusPrefix <= m
      && Js.IsDigits(m[|StatusPrefix|..])
      && Js.ParseDigits(m[|StatusPrefix|..]) == status
  {
    var m := UploadImage(HttpFailure(status, None)).error;
    assert m == StatusPrefix + Js.NatToString(status);
    assert m[|StatusPrefix|..] == Js.NatToString(status);
    Js.ParseNatToString(status);
  }

  /** A url key wins over an error key in the same object. */
  lemma UrlCheckedBeforeError(url: string, error: string)
    ensures UploadImage(Received(JsonObject(Some(url), Some(error)))) == Success(url)
  {
  }

  /** An error key holding the empty string surfaces as the network-failure text. */
  lemma EmptyServerErrorBecomesNetworkText()
    ensures UploadImage(Received(JsonObject(None, Some("")))) == Failure(NetworkFailureText)
  {
  }

  /** Replies that are neither a url object, an error object nor an http text are invalid. */
  lemma InvalidReplies(text: string)
    requires !("http" <= text)
    ensures UploadImage(Received(PlainText(text))) == Failure(InvalidResponseText)
    ensures UploadImage(Received(JsonObject(None, None))) == Failure(InvalidResponseText)
    ensures UploadImage(Received(OtherData)) == Failure(InvalidResponseText)
  {
  }
}
