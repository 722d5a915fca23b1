/** What the core sees of the Gladia service: the answers of its calls, the
    transcription request body, and the decision both polling loops make
    after one status fetch. HTTP transport and JSON coding are not modelled;
    a call is its outcome. */
module Remote {
  import opened Common

  /** The transcription result payload (prerecorderv2.Result), kept opaque. */
  type Payload = seq<bv8>

  /** url.Parse followed by (*URL).String: the canonical text, or the parse error. */
  type UrlParser = string -> Result<string>

  predicate IsSchemeLetter(c: char) { 'a' <= c <= 'z' || 'A' <= c <= 'Z' }

  /** The characters net/url accepts in a scheme after its first letter. */
  predicate IsSchemeChar(c: char) { IsSchemeLetter(c) || '0' <= c <= '9' || c == '+' || c == '-' || c == '.' }

  /** The ':' at `j` ends a scheme: a letter first, scheme characters up to it. */
  predicate SchemeEndsAt(raw: string, j: int)
  {
    0 < j < |raw| && raw[j] == ':' && IsSchemeLetter(raw[0]) &&
    forall k :: 0 <= k < j ==> IsSchemeChar(raw[k])
  }

  /** The scan of net/url's getScheme from position `i`: the position of the
      ':' ending the scheme, or 0 when the reference has none (any other
      character, or a digit, '+', '-' or '.' in first place, ends the scan;
      a '#' does too, so the fragment is never searched). */
  function SchemeScan(raw: string, i: nat): (r: nat)
    requires i <= |raw|
    ensures r == 0 || i <= r < |raw|
    decreases |raw| - i
  {
    if i == |raw| then 0
    else if IsSchemeLetter(raw[i]) then SchemeScan(raw, i + 1)
    else if IsSchemeChar(raw[i]) then (if i == 0 then 0 else SchemeScan(raw, i + 1))
    else if raw[i] == ':' then i
    else 0
  }

  /** The scheme url.Parse assigns to a reference (before lower-casing). */
  function Scheme(raw: string): (scheme: string)
    ensures |scheme| <= |raw|
  {
    raw[..SchemeScan(raw, 0)]
  }

  lemma {:induction false} SchemeScanFrom(raw: string, i: nat)
    requires i <= |raw|
    requires forall k :: 0 <= k < i ==> IsSchemeChar(raw[k])
    requires 0 < i ==> IsSchemeLetter(raw[0])
    ensures SchemeScan(raw, i) != 0 ==> i <= SchemeScan(raw, i) && SchemeEndsAt(raw, SchemeScan(raw, i))
    ensures SchemeScan(raw, i) == 0 ==> forall j :: i <= j ==> !SchemeEndsAt(raw, j)
    decreases |raw| - i
  {
    if i < |raw| {
      if IsSchemeChar(raw[i]) && (i > 0 || IsSchemeLetter(raw[i])) {
        SchemeScanFrom(raw, i + 1);
        if SchemeScan(raw, i) == 0 {
          assert !SchemeEndsAt(raw, i) by { assert raw[i] != ':'; }
        }
      } else if raw[i] != ':' || i == 0 {
        assert !SchemeEndsAt(raw, i);
        assert !IsSchemeChar(raw[i]) || (i == 0 && !IsSchemeLetter(raw[i]));
      }
    }
  }

  /** The reference has a scheme exactly when some ':' ends one, and the
      scheme found is the text before the first such ':'. */
  lemma SchemeCharacterised(raw: string)
    ensures Scheme(raw) != "" <==> exists j :: SchemeEndsAt(raw, j)
    ensures Scheme(raw) != "" ==> SchemeEndsAt(raw, |Scheme(raw)|) && Scheme(raw) == raw[..|Scheme(raw)|]
  {
    SchemeScanFrom(raw, 0);
  }

  /** Concrete references: an empty one and a bare host path have no scheme,
      an https URL has one. */
  lemma SchemeExamples()
    ensures Scheme("") == ""
    ensures Scheme("host/a.wav") == ""
    ensures Scheme("https://x.io/a.wav") == "https"
  {
    SchemeCharacterised("host/a.wav");
    assert !SchemeEndsAt("host/a.wav", 4);
    assert SchemeEndsAt("https://x.io/a.wav", 5);
    SchemeCharacterised("https://x.io/a.wav");
  }

  /** Resolving a reference with `(*url.URL).Parse`: the canonical text, when
      the reference parses and carries a scheme; the parse error; or the nil
      dereference that `ResolveReference` makes reading the nil base's scheme. */
  datatype Resolution = Resolved(text: string) | Unparsed(error: Error) | NilBaseDereferenced

  /** `(*url.URL)(nil).Parse(raw)` followed by String(). `resolve` is the
      parse error, or the text of the reference resolved as an absolute one
      (url.Parse, its path without dot segments, String()); whether the nil
      base is read depends only on the reference's scheme. */
  function ResolveOnNil(raw: string, resolve: UrlParser): (r: Resolution)
    ensures r.Unparsed? <==> resolve(raw).Err?
    ensures r.Unparsed? ==> r.error == resolve(raw).error
    ensures r.NilBaseDereferenced? <==> resolve(raw).Ok? && Scheme(raw) == ""
    ensures r.Resolved? ==> r.text == resolve(raw).value && Scheme(raw) != ""
  {
    match resolve(raw)
    case Err(e) => Unparsed(e)
    case Ok(text) => if Scheme(raw) == "" then NilBaseDereferenced else Resolved(text)
  }

  /** An empty reference or a bare host path that parses, as url.Parse
      parses both, dereferences the nil base; an https URL resolves. */
  lemma SchemelessReferencesDereferenceNil(resolve: UrlParser)
    requires resolve("").Ok? && resolve("host/a.wav").Ok?
    ensures ResolveOnNil("", resolve) == NilBaseDereferenced
    ensures ResolveOnNil("host/a.wav", resolve) == NilBaseDereferenced
    ensures resolve("https://x.io/a.wav").Ok? ==>
              ResolveOnNil("https://x.io/a.wav", resolve) == Resolved(resolve("https://x.io/a.wav").value)
  {
    SchemeExamples();
  }

  /** The fields of PreRecorderResultResponse the core consults. */
  datatype StatusResponse = StatusResponse(status: string, errorCode: string, result: Option<Payload>)

  /** One status fetch (GET /v2/pre-recorded/{id}) as its caller sees it. */
  datatype FetchOutcome = FetchFailed(error: Error) | Fetched(resp: StatusResponse)

  /** The answer of POST /v2/pre-recorded. */
  datatype InitResponse = InitResponse(resultUrl: string, id: string)

  /** The answer of POST /v2/upload. */
  datatype UploadResponse = UploadResponse(audioUrl: string)

  /** The transcription settings of config.Config. */
  datatype TranscriptionConfig = TranscriptionConfig(
    diarization: bool,
    enhanced: bool,
    translation: bool,
    targetLanguages: seq<string>,
    sentimentAnalysis: bool,
    inputLanguages: seq<string>)

  /** The fields of PreRecorderBody the core sets. */
  datatype Body = Body(
    audioUrl: string,
    diarization: bool,
    languages: seq<string>,
    codeSwitching: bool,
    translation: bool,
    targetLanguages: seq<string>,
    subtitle: bool,
    sentimentAnalysis: bool)

  /** The body Usecase.Transcription and AudoUploader.InitTranscription both
      build from the parsed audio URL and the configuration. */
  function TranscriptionBody(audioUrl: string, cfg: TranscriptionConfig): (b: Body)
    ensures b.audioUrl == audioUrl
    ensures b.diarization == cfg.diarization && b.languages == cfg.inputLanguages
    ensures b.translation == cfg.translation && b.targetLanguages == cfg.targetLanguages
    ensures b.sentimentAnalysis && !b.subtitle && !b.codeSwitching
  {
    Body(
      audioUrl := audioUrl,
      diarization := cfg.diarization,
      languages := cfg.inputLanguages,
      codeSwitching := false,
      translation := cfg.translation,
      targetLanguages := cfg.targetLanguages,
      subtitle := false,
      sentimentAnalysis := true)
  }

  /** The body ignores the configured sentiment and enhancement switches:
      two configurations that differ only there give the same body. */
  lemma BodyIgnoresSentimentSetting(audioUrl: string, a: TranscriptionConfig, b: TranscriptionConfig)
    requires a.diarization == b.diarization && a.translation == b.translation
    requires a.targetLanguages == b.targetLanguages && a.inputLanguages == b.inputLanguages
    ensures TranscriptionBody(audioUrl, a) == TranscriptionBody(audioUrl, b)
  {
  }

  /** What a polling loop does after one fetch. */
  datatype TickVerdict = KeepPolling | Stop(error: Error) | Finished(resp: StatusResponse)

  /** The if / else-if chain after a fetch: a failed fetch ends the loop with
      that error, "error" ends it with the error code, "done" ends it with the
      response, any other status keeps polling. */
  function OnTick(f: FetchOutcome): (v: TickVerdict)
    ensures f.FetchFailed? ==> v == Stop(f.error)
    ensures f.Fetched? && f.resp.status == "error" ==> v == Stop(RemoteFailed(f.resp.errorCode))
    ensures v.Finished? <==> f.Fetched? && f.resp.status == "done"
    ensures v.Finished? ==> v.resp == f.resp
    ensures v.KeepPolling? <==> f.Fetched? && f.resp.status != "error" && f.resp.status != "done"
  {
    match f
    case FetchFailed(e) => Stop(e)
    case Fetched(resp) =>
      if resp.status == "error" then Stop(RemoteFailed(resp.errorCode))
      else if resp.status == "done" then Finished(resp)
      else KeepPolling
  }

  /** The statuses the service documents: only "done" and "error" end a loop. */
  lemma QueuedAndProcessingKeepPolling(code: string, result: Option<Payload>)
    ensures OnTick(Fetched(StatusResponse("queued", code, result))) == KeepPolling
    ensures OnTick(Fetched(StatusResponse("processing", code, result))) == KeepPolling
    ensures OnTick(Fetched(StatusResponse("Done", code, result))) == KeepPolling
  {
  }
}
