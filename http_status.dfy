/** The status-code check both HTTP clients run on every answer
    (internal/clients/http/utils.go and pkg/networking/networking.go):
    exactly one status code is success for each call, and everything else is
    the same fixed error. */
module HttpStatus {
  import opened Common

  /** The parts of a received *http.Response the checks look at. */
  datatype Response = Response(status: string, statusCode: int)

  /** httpErrorParse: nil when the status code is the expected one, otherwise
      the fixed "unexpected status code" error. */
  function ErrorParse(resp: Response, expectedStatusCode: int): (r: Option<Error>)
    ensures r.None? <==> resp.statusCode == expectedStatusCode
    ensures r.Some? ==> r.value == Plain(UnexpectedStatusCode)
  {
    if resp.statusCode != expectedStatusCode then Some(Plain(UnexpectedStatusCode)) else None
  }

  /** A line networking.HttpErrorParse prints before it decides. */
  datatype Printed = RequestStatusLine(status: string) | StatusCodeLine(code: int)

  /** networking.HttpErrorParse: prints the status text and code, then makes
      the same decision as httpErrorParse. */
  function NetworkingErrorParse(resp: Response, expectedStatusCode: int): (r: (seq<Printed>, Option<Error>))
    ensures r.0 == [RequestStatusLine(resp.status), StatusCodeLine(resp.statusCode)]
    ensures r.1 == ErrorParse(resp, expectedStatusCode)
  {
    var printed := [RequestStatusLine(resp.status), StatusCodeLine(resp.statusCode)];
    if resp.statusCode != expectedStatusCode then (printed, Some(Plain(UnexpectedStatusCode)))
    else (printed, None)
  }

  /** The requests of internal/clients/http/client.go. */
  datatype HttpCall = UploadAudio | StartJob | FetchJob | DownloadAudio | DeleteJob | ListJobs

  /** The status code each of them passes to httpErrorParse. */
  function ExpectedCode(c: HttpCall): int
  {
    match c
    case UploadAudio => 200
    case StartJob => 201
    case FetchJob => 200
    case DownloadAudio => 202
    case DeleteJob => 202
    case ListJobs => 200
  }

  /** The requests of internal/logic/client/client.go. */
  datatype GladiaCall = AudioUploadFromFile | InitTranscription | TranscriptionResult

  /** The status code each of them passes to networking.HttpErrorParse. */
  function GladiaExpectedCode(c: GladiaCall): int
  {
    match c
    case AudioUploadFromFile => 200
    case InitTranscription => 201
    case TranscriptionResult => 200
  }

  /** Only the status code is consulted: two answers with the same code get the
      same verdict whatever their status text. */
  lemma OnlyStatusCodeConsulted(a: Response, b: Response, expected: int)
    requires a.statusCode == b.statusCode
    ensures ErrorParse(a, expected) == ErrorParse(b, expected)
    ensures NetworkingErrorParse(a, expected).1 == NetworkingErrorParse(b, expected).1
  {
  }

  /** Every rejected code gets one and the same error value. */
  lemma RejectionsIndistinguishable(a: Response, b: Response, expected: int)
    requires a.statusCode != expected && b.statusCode != expected
    ensures ErrorParse(a, expected) == ErrorParse(b, expected) == Some(Plain(UnexpectedStatusCode))
  {
  }

  /** Each call of either client accepts exactly one status code. */
  lemma ExactlyOneCodeAccepted(c: HttpCall, g: GladiaCall, a: Response, b: Response)
    ensures ErrorParse(a, ExpectedCode(c)).None? && ErrorParse(b, ExpectedCode(c)).None?
            ==> a.statusCode == b.statusCode
    ensures NetworkingErrorParse(a, GladiaExpectedCode(g)).1.None? && NetworkingErrorParse(b, GladiaExpectedCode(g)).1.None?
            ==> a.statusCode == b.statusCode
  {
  }

  /** Upload, status fetch and listing accept only 200, job start only 201,
      download and delete only 202; the two clients agree on the three calls
      they share. */
  lemma CallCodes(resp: Response)
    ensures ErrorParse(resp, ExpectedCode(UploadAudio)).None? <==> resp.statusCode == 200
    ensures ErrorParse(resp, ExpectedCode(FetchJob)).None? <==> resp.statusCode == 200
    ensures ErrorParse(resp, ExpectedCode(ListJobs)).None? <==> resp.statusCode == 200
    ensures ErrorParse(resp, ExpectedCode(StartJob)).None? <==> resp.statusCode == 201
    ensures ErrorParse(resp, ExpectedCode(DownloadAudio)).None? <==> resp.statusCode == 202
    ensures ErrorParse(resp, ExpectedCode(DeleteJob)).None? <==> resp.statusCode == 202
    ensures GladiaExpectedCode(AudioUploadFromFile) == ExpectedCode(UploadAudio)
    ensures GladiaExpectedCode(InitTranscription) == ExpectedCode(StartJob)
    ensures GladiaExpectedCode(TranscriptionResult) == ExpectedCode(FetchJob)
  {
  }

  /** No partial success: a 201 or 204 answer to a status fetch is an error
      just like a 500. */
  lemma NoPartialSuccess(text: string)
    ensures ErrorParse(Response(text, 201), ExpectedCode(FetchJob)) == Some(Plain(UnexpectedStatusCode))
    ensures ErrorParse(Response(text, 204), ExpectedCode(FetchJob)) == ErrorParse(Response(text, 500), ExpectedCode(FetchJob))
    ensures ErrorParse(Response(text, 200), ExpectedCode(StartJob)) == Some(Plain(UnexpectedStatusCode))
  {
  }
}
