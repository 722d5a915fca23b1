/** internal/audio/processor.go: the AudoUploader's polling loop, its one-shot
    status query, the start of a transcription job and the job listing.
    The HTTP client's answers are parameters: the k-th status fetch returns
    `remote(k)`, and the answer of a single call is given as `reply`. */
module Audio {
  import opened Common
  import opened Remote
  import Client

  /** What ends one wait of PollingResult's select: the context is done, the
      ticker fires, or the time.After channel of this wait fires. */
  datatype Event = Cancel | Tick | Timeout

  /** How PollingResult ends: with resp.Result, with an error, or still waiting
      when the events run out. */
  datatype Outcome = Obtained(result: Option<Payload>) | Failed(error: Error) | Waiting

  datatype Run = Run(outcome: Outcome, fetches: nat)

  /** The loop of PollingResult from the point where `n` fetches have been made. */
  function Polling(events: seq<Event>, remote: nat -> FetchOutcome, n: nat, timeout: int): Run
    decreases |events|
  {
    if events == [] then Run(Waiting, n)
    else
      match events[0]
      case Cancel => Run(Failed(Plain(TimeoutWaitingResult)), n)
      case Timeout => Run(Failed(NotWithin(timeout)), n)
      case Tick =>
        match OnTick(remote(n))
        case Stop(e) => Run(Failed(e), n + 1)
        case Finished(resp) => Run(Obtained(resp.result), n + 1)
        case KeepPolling => Polling(events[1..], remote, n + 1, timeout)
  }

  /** PollingResult. */
  method PollingResult(events: seq<Event>, remote: nat -> FetchOutcome, timeout: int)
    returns (outcome: Outcome, fetches: nat)
    ensures Run(outcome, fetches) == Polling(events, remote, 0, timeout)
  {
    var i := 0;
    fetches := 0;
    while i < |events|
      invariant 0 <= i <= |events| && fetches == i
      invariant Polling(events, remote, 0, timeout) == Polling(events[i..], remote, fetches, timeout)
      decreases |events| - i
    {
      assert events[i..][1..] == events[i + 1..];
      match events[i]
      case Cancel =>
        return Failed(Plain(TimeoutWaitingResult)), fetches;
      case Timeout =>
        return Failed(NotWithin(timeout)), fetches;
      case Tick =>
        var f := remote(fetches);
        fetches := fetches + 1;
        match f
        case FetchFailed(e) =>
          return Failed(e), fetches;
        case Fetched(resp) =>
          if resp.status == "error" {
            return Failed(RemoteFailed(resp.errorCode)), fetches;
          } else if resp.status == "done" {
            return Obtained(resp.result), fetches;
          }
      i := i + 1;
    }
    outcome := Waiting;
  }

  /** The events of a run with no timeout, as the client's loop sees them. */
  function ToClient(events: seq<Event>): (r: seq<Client.Event>)
    requires forall i :: 0 <= i < |events| ==> events[i] != Timeout
    ensures |r| == |events|
    ensures forall i :: 0 <= i < |events| ==> (r[i] == Client.Cancel <==> events[i] == Cancel)
    decreases |events|
  {
    if events == [] then []
    else [if events[0] == Cancel then Client.Cancel else Client.Tick] + ToClient(events[1..])
  }

  /** The client's outcome in PollingResult's terms: only resp.Result is returned. */
  function FromClient(o: Client.Outcome): Outcome
  {
    match o
    case Succeeded(resp) => Obtained(resp.result)
    case Failed(e) => Failed(e)
    case Waiting => Waiting
  }

  /** Without a timeout event, PollingResult makes the same fetches and the
      same decisions as GladiaClient.AwaitTranscriptionResult. */
  lemma {:induction false} PollingAgreesWithAwait(events: seq<Event>, remote: nat -> FetchOutcome, n: nat, timeout: int)
    requires forall i :: 0 <= i < |events| ==> events[i] != Timeout
    ensures Polling(events, remote, n, timeout) ==
            Run(FromClient(Client.Await(ToClient(events), remote, n).outcome), Client.Await(ToClient(events), remote, n).fetches)
    decreases |events|
  {
    if events != [] {
      var c := ToClient(events);
      assert c[1..] == ToClient(events[1..]);
      if events[0] == Tick && OnTick(remote(n)).KeepPolling? {
        PollingAgreesWithAwait(events[1..], remote, n + 1, timeout);
      }
    }
  }

  /** One wait of the select, timed from the moment the select is entered: the
      ticker's next tick is due after `tickIn`, the context is done after
      `cancelIn` (or never). */
  datatype Wake = Wake(tickIn: nat, cancelIn: Option<nat>)

  /** When an event is due in a wait whose timer fires after `timerIn`. */
  function DueIn(e: Event, w: Wake, timerIn: int): Option<int>
  {
    match e
    case Tick => Some(w.tickIn)
    case Timeout => Some(if timerIn < 0 then 0 else timerIn)
    case Cancel => if w.cancelIn.Some? then Some(w.cancelIn.value) else None
  }

  predicate DueNoLater(e: Event, other: Event, w: Wake, timerIn: int)
  {
    DueIn(other, w, timerIn).None? ||
    (DueIn(e, w, timerIn).Some? && DueIn(e, w, timerIn).value <= DueIn(other, w, timerIn).value)
  }

  /** `e` may end the wait: it is due, and nothing is due before it (among
      events due at the same moment, select picks any). */
  predicate Wins(e: Event, w: Wake, timerIn: int)
  {
    DueIn(e, w, timerIn).Some? &&
    DueNoLater(e, Cancel, w, timerIn) && DueNoLater(e, Tick, w, timerIn) && DueNoLater(e, Timeout, w, timerIn)
  }

  /** The time a wait lasted: until its winner was due. */
  function Waited(e: Event, w: Wake, timerIn: int): int
  {
    if DueIn(e, w, timerIn).Some? then DueIn(e, w, timerIn).value else 0
  }

  /** The events can be the winners of consecutive waits of the loop as it is
      written: `time.After(timeout)` is evaluated anew on every entry to the
      select, so the timer of each wait fires `timeout` after that wait began. */
  ghost predicate RearmedTimeline(events: seq<Event>, wakes: seq<Wake>, timeout: int)
  {
    |wakes| == |events| &&
    forall i :: 0 <= i < |events| ==> Wins(events[i], wakes[i], timeout)
  }

  /** Total time spent waiting in the select along such a timeline. */
  function TotalWaitedRearmed(events: seq<Event>, wakes: seq<Wake>, timeout: int): int
    requires |wakes| == |events|
    decreases |events|
  {
    if events == [] then 0
    else Waited(events[0], wakes[0], timeout) + TotalWaitedRearmed(events[1..], wakes[1..], timeout)
  }

  /** With the timer re-armed, a timeout can only win a wait in which no tick
      is due sooner; ticks at an interval shorter than the timeout therefore
      shut the timeout out for good, however long the loop runs. */
  lemma RearmedTimeoutNeverWins(events: seq<Event>, wakes: seq<Wake>, timeout: int, interval: nat)
    requires RearmedTimeline(events, wakes, timeout)
    requires interval < timeout
    requires forall i :: 0 <= i < |wakes| ==> wakes[i].tickIn <= interval
    ensures forall i :: 0 <= i < |events| ==> events[i] != Timeout
  {
    forall i | 0 <= i < |events| ensures events[i] != Timeout {
      assert DueNoLater(events[i], Tick, wakes[i], timeout);
    }
  }

  /** Three one-second waits for a two-second timeout, every answer "queued":
      the timeline is possible, the loop has waited three seconds and is
      still polling, no "not obtained within" error having been raised. */
  lemma TimeoutRearmedEachWait(remote: nat -> FetchOutcome)
    requires forall k :: remote(k) == Fetched(StatusResponse("queued", "", None))
    ensures RearmedTimeline([Tick, Tick, Tick], [Wake(1, None), Wake(1, None), Wake(1, None)], 2)
    ensures TotalWaitedRearmed([Tick, Tick, Tick], [Wake(1, None), Wake(1, None), Wake(1, None)], 2) == 3
    ensures Polling([Tick, Tick, Tick], remote, 0, 2) == Run(Waiting, 3)
  {
    var es := [Tick, Tick, Tick];
    assert es[1..] == [Tick, Tick] && es[1..][1..] == [Tick] && es[1..][1..][1..] == [];
    assert OnTick(remote(0)) == KeepPolling;
    assert OnTick(remote(1)) == KeepPolling;
    assert OnTick(remote(2)) == KeepPolling;
  }

  /** The evidently intended timeline: one timer armed before the loop, so in
      each wait it fires after what is left of `remaining`. */
  ghost predicate DeadlineTimeline(events: seq<Event>, wakes: seq<Wake>, remaining: int)
    decreases |events|
  {
    |wakes| == |events| &&
    (events == [] ||
     (Wins(events[0], wakes[0], remaining) &&
      DeadlineTimeline(events[1..], wakes[1..], remaining - Waited(events[0], wakes[0], remaining))))
  }

  /** Total time spent waiting along a deadline timeline. */
  ghost function TotalWaitedDeadline(events: seq<Event>, wakes: seq<Wake>, remaining: int): int
    requires |wakes| == |events|
    decreases |events|
  {
    if events == [] then 0
    else
      Waited(events[0], wakes[0], remaining)
      + TotalWaitedDeadline(events[1..], wakes[1..], remaining - Waited(events[0], wakes[0], remaining))
  }

  /** With a single deadline the loop never waits longer than the timeout in
      total: every wait ends no later than the deadline. */
  lemma {:induction false} DeadlineBoundsWaiting(events: seq<Event>, wakes: seq<Wake>, remaining: int)
    requires 0 <= remaining
    requires DeadlineTimeline(events, wakes, remaining)
    ensures 0 <= TotalWaitedDeadline(events, wakes, remaining) <= remaining
    decreases |events|
  {
    if events != [] {
      var d := Waited(events[0], wakes[0], remaining);
      assert DueNoLater(events[0], Timeout, wakes[0], remaining);
      assert 0 <= d <= remaining;
      DeadlineBoundsWaiting(events[1..], wakes[1..], remaining - d);
    }
  }

  /** Under a single deadline the three-tick timeline above is impossible. */
  lemma DeadlineExcludesRearmedTimeline()
    ensures !DeadlineTimeline([Tick, Tick, Tick], [Wake(1, None), Wake(1, None), Wake(1, None)], 2)
  {
    var w := Wake(1, None);
    assert [Tick, Tick, Tick][1..] == [Tick, Tick] && [Tick, Tick][1..] == [Tick];
    assert [w, w, w][1..] == [w, w] && [w, w][1..] == [w];
    assert !Wins(Tick, w, 0);
    assert !DeadlineTimeline([Tick], [w], 0);
    assert Waited(Tick, w, 1) == 1 && Waited(Tick, w, 2) == 1;
    assert !DeadlineTimeline([Tick, Tick], [w, w], 1);
  }

  /** Info: one status fetch. A failed fetch is wrapped; "done" yields
      resp.Result; "error" and every other status yield (nil, nil). */
  function Info(f: FetchOutcome): (r: Result<Option<Payload>>)
    ensures r.Err? <==> f.FetchFailed?
    ensures f.FetchFailed? ==> r.error == Wrapped("failed get task result", f.error)
    ensures f.Fetched? && f.resp.status == "done" ==> r == Ok(f.resp.result)
    ensures f.Fetched? && f.resp.status != "done" ==> r == Ok(None)
  {
    match f
    case FetchFailed(e) => Err(Wrapped("failed get task result", e))
    case Fetched(resp) =>
      if resp.status == "error" then Ok(None)
      else if resp.status == "done" then Ok(resp.result)
      else Ok(None)
  }

  /** Info against a single wait of PollingResult that a tick wins, on the
      same answer: they agree on "done", Info wraps a fetch error that polling
      returns unchanged, Info reports nothing where polling fails with the
      error code, and nothing where polling would go on waiting. */
  lemma InfoAgainstOneTick(remote: nat -> FetchOutcome, n: nat, timeout: int)
    ensures Polling([Tick], remote, n, timeout).outcome.Obtained? ==>
              Info(remote(n)) == Ok(Polling([Tick], remote, n, timeout).outcome.result)
    ensures Info(remote(n)).Err? ==>
              Polling([Tick], remote, n, timeout) == Run(Failed(remote(n).error), n + 1) &&
              Info(remote(n)).error == Wrapped("failed get task result", remote(n).error)
    ensures remote(n).Fetched? && remote(n).resp.status == "error" ==>
              Info(remote(n)) == Ok(None) &&
              Polling([Tick], remote, n, timeout).outcome == Failed(RemoteFailed(remote(n).resp.errorCode))
    ensures Info(remote(n)).Ok? && Info(remote(n)).value.Some? ==>
              Polling([Tick], remote, n, timeout) == Run(Obtained(Info(remote(n)).value), n + 1)
    ensures Polling([Tick], remote, n, timeout).outcome.Waiting? ==> Info(remote(n)) == Ok(None)
  {
    assert [Tick][1..] == [];
  }

  /** A run obtains a result only through a fetch whose status was "done". */
  lemma {:induction false} PollingNeverObtainsWithoutDone(events: seq<Event>, remote: nat -> FetchOutcome, n: nat, timeout: int)
    ensures Polling(events, remote, n, timeout).outcome.Obtained? ==>
              var k := Polling(events, remote, n, timeout).fetches;
              n < k && remote(k - 1).Fetched? && remote(k - 1).resp.status == "done" &&
              Polling(events, remote, n, timeout).outcome.result == remote(k - 1).resp.result
    decreases |events|
  {
    if events != [] && events[0] == Tick && OnTick(remote(n)).KeepPolling? {
      PollingNeverObtainsWithoutDone(events[1..], remote, n + 1, timeout);
    }
  }

  /** What InitTranscription returns and the body it sends, if it gets that
      far; or the nil dereference that ends the process. */
  datatype InitCall =
    | InitCall(resultUrl: string, id: string, err: Option<Error>, sent: Option<Body>)
    | Panicked

  /** InitTranscription. `url` is declared a nil *url.URL first, so
      `url.Parse(audioURL)` is the method on that nil pointer: an unparsable
      URL is returned as the error with no request; a parsed reference
      without a scheme dereferences the nil base. Otherwise the body built
      from the resolved text is sent, and the job's result URL and id are
      returned, or the client's error with two empty strings. `resolve` gives
      the parse error or the resolved text, `reply` the client's answer. */
  function InitTranscription(cfg: TranscriptionConfig, audioUrl: string, resolve: UrlParser, reply: Result<InitResponse>): (c: InitCall)
    ensures c.Panicked? <==> resolve(audioUrl).Ok? && Scheme(audioUrl) == ""
    ensures resolve(audioUrl).Err? ==> c == InitCall("", "", Some(resolve(audioUrl).error), None)
    ensures resolve(audioUrl).Ok? && Scheme(audioUrl) != "" ==>
              c.InitCall? && c.sent == Some(TranscriptionBody(resolve(audioUrl).value, cfg))
    ensures c.InitCall? && c.err.None? <==> resolve(audioUrl).Ok? && Scheme(audioUrl) != "" && reply.Ok?
    ensures c.InitCall? && c.err.None? ==> c.resultUrl == reply.value.resultUrl && c.id == reply.value.id
    ensures c.InitCall? && c.err.Some? ==> c.resultUrl == "" && c.id == ""
    ensures resolve(audioUrl).Ok? && Scheme(audioUrl) != "" && reply.Err? ==> c.err == Some(reply.error)
  {
    match ResolveOnNil(audioUrl, resolve)
    case Unparsed(e) => InitCall("", "", Some(e), None)
    case NilBaseDereferenced => Panicked
    case Resolved(u) =>
      var body := TranscriptionBody(u, cfg);
      match reply
      case Err(e) => InitCall("", "", Some(e), Some(body))
      case Ok(resp) => InitCall(resp.resultUrl, resp.id, None, Some(body))
  }

  /** Every body InitTranscription sends asks for sentiment analysis, no
      subtitles and no code switching, with the configured languages, and
      carries a URL that had a scheme. */
  lemma InitTranscriptionBodyFlags(cfg: TranscriptionConfig, audioUrl: string, resolve: UrlParser, reply: Result<InitResponse>)
    ensures var c := InitTranscription(cfg, audioUrl, resolve, reply);
            c.InitCall? && c.sent.Some? ==>
              Scheme(audioUrl) != "" &&
              c.sent.value.sentimentAnalysis && !c.sent.value.subtitle && !c.sent.value.codeSwitching &&
              c.sent.value.languages == cfg.inputLanguages && c.sent.value.targetLanguages == cfg.targetLanguages &&
              c.sent.value.diarization == cfg.diarization
  {
  }

  /** An empty audio URL, or a host path typed without a scheme, ends the
      process instead of returning an error or sending a request. */
  lemma InitTranscriptionPanicsWithoutScheme(cfg: TranscriptionConfig, resolve: UrlParser, reply: Result<InitResponse>)
    requires resolve("").Ok? && resolve("host/a.wav").Ok?
    ensures InitTranscription(cfg, "", resolve, reply) == Panicked
    ensures InitTranscription(cfg, "host/a.wav", resolve, reply) == Panicked
  {
    SchemelessReferencesDereferenceNil(resolve);
  }

  /** An item of the job listing, with the fields List reads. */
  datatype ListItem = ListItem(id: string, status: string, fileName: string, completedAt: string)

  /** The local `result` record List builds per item. */
  datatype Summary = Summary(
    index: int, uid: string, status: string, transactionType: string,
    fileName: string, duration: string, date: string)

  /** The placeholder texts List puts in two columns it cannot fill yet. */
  const TransactionTypePlaceholder: string := "ХЗ ГДЕ БРАТЬ"
  const DurationPlaceholder: string := "Посчитать разницу: completed_at - created_at"

  /** The loop of List over the listed items. */
  method Summaries(items: seq<ListItem>) returns (results: seq<Summary>)
    ensures |results| == |items|
    ensures forall i :: 0 <= i < |items| ==>
              results[i] == Summary(i, items[i].id, items[i].status, TransactionTypePlaceholder,
                                    items[i].fileName, DurationPlaceholder, items[i].completedAt)
  {
    results := [];
    var idx := 0;
    while idx < |items|
      invariant 0 <= idx <= |items| && |results| == idx
      invariant forall i :: 0 <= i < idx ==>
                  results[i] == Summary(i, items[i].id, items[i].status, TransactionTypePlaceholder,
                                        items[i].fileName, DurationPlaceholder, items[i].completedAt)
      decreases |items| - idx
    {
      var item := items[idx];
      results := results + [Summary(idx, item.id, item.status, TransactionTypePlaceholder,
                                    item.fileName, DurationPlaceholder, item.completedAt)];
      idx := idx + 1;
    }
  }

  /** List: the summaries are built and dropped; the text returned is always
      empty, and the only error is the client's, wrapped. */
  method List(limit: int, reply: Result<seq<ListItem>>) returns (out: string, err: Option<Error>)
    ensures out == ""
    ensures err.None? <==> reply.Ok?
    ensures reply.Err? ==> err == Some(Wrapped("failed get tasks listt", reply.error))
  {
    if reply.Err? {
      return "", Some(Wrapped("failed get tasks listt", reply.error));
    }
    var results := Summaries(reply.value);
    out, err := "", None;
  }
}
