/** internal/logic/client/client.go: construction of a GladiaClient by a fold
    of validating setters over a default record, and the ticker loop of
    AwaitTranscriptionResult. A status fetch is an abstract outcome: the k-th
    fetch the loop makes returns `remote(k)`. */
module Client {
  import opened Common
  import opened Remote
  import Logging

  /** The base URL a client starts from. */
  const DefaultBaseUrl: string := "https://api.gladia.io"

  /** The message of WithLogger(nil). */
  const NilLoggerMessage: string := "failed to set nil logger"

  /** The four Setter closures, by the argument each captures. */
  datatype Setter =
    | WithLogger(log: Logging.Logger?)
    | WithBaseUrl(b: string)
    | WithApiToken(t: string)
    | WithTimeout(timeout: int)

  /** The fields of a GladiaClient the setters write. */
  datatype Settings = Settings(log: Logging.Logger, token: string, timeout: int, baseUrl: string)

  /** Whether a setter returns an error: a nil logger, or a base URL url.Parse rejects. */
  predicate Fails(setter: Setter, parse: UrlParser)
  {
    (setter.WithLogger? && setter.log == null) || (setter.WithBaseUrl? && parse(setter.b).Err?)
  }

  /** One setter applied to the fields: on success exactly the field it names
      is overwritten; on failure the error it returns. */
  function Apply(s: Settings, setter: Setter, parse: UrlParser): (r: Result<Settings>)
    ensures r.Err? <==> Fails(setter, parse)
    ensures setter == WithLogger(null) ==> r == Err(Plain(NilLoggerMessage))
    ensures setter.WithBaseUrl? && parse(setter.b).Err? ==> r == Err(parse(setter.b).error)
    ensures r.Ok? ==> r.value.log == (if setter.WithLogger? then setter.log else s.log)
    ensures r.Ok? ==> r.value.token == (if setter.WithApiToken? then setter.t else s.token)
    ensures r.Ok? ==> r.value.timeout == (if setter.WithTimeout? then setter.timeout else s.timeout)
    ensures r.Ok? ==> r.value.baseUrl == (if setter.WithBaseUrl? then parse(setter.b).value else s.baseUrl)
  {
    match setter
    case WithLogger(l) =>
      if l == null then Err(Plain(NilLoggerMessage)) else Ok(s.(log := l))
    case WithBaseUrl(b) =>
      (match parse(b)
       case Err(e) => Err(e)
       case Ok(u) => Ok(s.(baseUrl := u)))
    case WithApiToken(t) => Ok(s.(token := t))
    case WithTimeout(t) => Ok(s.(timeout := t))
  }

  /** The setters run in order over `s`; the first failure is the result. */
  function ApplyAll(s: Settings, opts: seq<Setter>, parse: UrlParser): Result<Settings>
    decreases |opts|
  {
    if opts == [] then Ok(s)
    else
      match Apply(s, opts[0], parse)
      case Err(e) => Err(e)
      case Ok(s') => ApplyAll(s', opts[1..], parse)
  }

  /** The error of the first failing setter, if any; it does not depend on the
      fields the fold starts from. */
  function FirstFailure(opts: seq<Setter>, parse: UrlParser): (r: Option<Error>)
    ensures r.None? <==> forall j :: 0 <= j < |opts| ==> !Fails(opts[j], parse)
    decreases |opts|
  {
    if opts == [] then None
    else if opts[0] == WithLogger(null) then Some(Plain(NilLoggerMessage))
    else if opts[0].WithBaseUrl? && parse(opts[0].b).Err? then Some(parse(opts[0].b).error)
    else
      var rest := FirstFailure(opts[1..], parse);
      assert rest.None? <==> forall j :: 1 <= j < |opts| ==> !Fails(opts[j], parse) by {
        forall j | 1 <= j < |opts| ensures opts[j] == opts[1..][j - 1] { }
      }
      rest
  }

  /** The fold fails exactly when some setter fails, and then with the first
      failing setter's error, whatever fields it starts from. */
  lemma {:induction false} FoldFailsWithFirstFailure(s: Settings, opts: seq<Setter>, parse: UrlParser)
    ensures ApplyAll(s, opts, parse).Err? <==> FirstFailure(opts, parse).Some?
    ensures ApplyAll(s, opts, parse).Err? ==> ApplyAll(s, opts, parse).error == FirstFailure(opts, parse).value
    decreases |opts|
  {
    if opts != [] {
      match Apply(s, opts[0], parse)
      case Err(e) =>
      case Ok(s') => FoldFailsWithFirstFailure(s', opts[1..], parse);
    }
  }

  /** One step of the fold over a suffix of the setters. */
  lemma ApplyAllStep(s: Settings, opts: seq<Setter>, i: nat, parse: UrlParser)
    requires i < |opts|
    ensures ApplyAll(s, opts[i..], parse) ==
            match Apply(s, opts[i], parse)
            case Err(e) => Err(e)
            case Ok(t) => ApplyAll(t, opts[i + 1..], parse)
  {
    assert opts[i..][0] == opts[i] && opts[i..][1..] == opts[i + 1..];
  }

  /** The first failing setter aborts the fold: setters after it have no effect. */
  lemma {:induction false} LaterSettersIgnored(s: Settings, opts: seq<Setter>, more: seq<Setter>, parse: UrlParser)
    requires ApplyAll(s, opts, parse).Err?
    ensures ApplyAll(s, opts + more, parse) == ApplyAll(s, opts, parse)
    decreases |opts|
  {
    assert opts != [];
    assert (opts + more)[0] == opts[0];
    assert (opts + more)[1..] == opts[1..] + more;
    match Apply(s, opts[0], parse)
    case Err(e) =>
    case Ok(s') => LaterSettersIgnored(s', opts[1..], more, parse);
  }

  /** Folding one more setter is applying it to the fold's result. */
  lemma {:induction false} AppendSetter(s: Settings, opts: seq<Setter>, setter: Setter, parse: UrlParser)
    ensures ApplyAll(s, opts + [setter], parse) ==
            match ApplyAll(s, opts, parse)
            case Err(e) => Err(e)
            case Ok(t) => Apply(t, setter, parse)
    decreases |opts|
  {
    if opts == [] {
      assert opts + [setter] == [setter];
    } else {
      assert (opts + [setter])[0] == opts[0];
      assert (opts + [setter])[1..] == opts[1..] + [setter];
      match Apply(s, opts[0], parse)
      case Err(e) =>
      case Ok(s') => AppendSetter(s', opts[1..], setter, parse);
    }
  }

  /** The last successful setter of a field decides it: a trailing WithApiToken
      or WithTimeout always succeeds and wins. */
  lemma LastTokenAndTimeoutWin(s: Settings, opts: seq<Setter>, t: string, d: int, parse: UrlParser)
    requires ApplyAll(s, opts, parse).Ok?
    ensures ApplyAll(s, opts + [WithApiToken(t)], parse).Ok?
    ensures ApplyAll(s, opts + [WithApiToken(t)], parse).value.token == t
    ensures ApplyAll(s, opts + [WithTimeout(d)], parse).Ok?
    ensures ApplyAll(s, opts + [WithTimeout(d)], parse).value.timeout == d
  {
    AppendSetter(s, opts, WithApiToken(t), parse);
    AppendSetter(s, opts, WithTimeout(d), parse);
  }

  /** A loop event: the context is done, or the ticker fires. */
  datatype Event = Cancel | Tick

  /** How a loop run ends: with the response, with an error, or still waiting
      when the events run out (the Go loop would block for the next one). */
  datatype Outcome = Succeeded(resp: StatusResponse) | Failed(error: Error) | Waiting

  /** A run: its outcome and the number of fetches it made in total. */
  datatype Run = Run(outcome: Outcome, fetches: nat)

  /** The loop of AwaitTranscriptionResult from the point where `n` fetches
      have been made and `events` remain. */
  function Await(events: seq<Event>, remote: nat -> FetchOutcome, n: nat): Run
    decreases |events|
  {
    if events == [] then Run(Waiting, n)
    else if events[0] == Cancel then Run(Failed(Plain(TimeoutWaitingResult)), n)
    else
      match OnTick(remote(n))
      case Stop(e) => Run(Failed(e), n + 1)
      case Finished(resp) => Run(Succeeded(resp), n + 1)
      case KeepPolling => Await(events[1..], remote, n + 1)
  }

  /** The first `j` events are ticks whose fetches all keep the loop polling. */
  ghost predicate Quiet(events: seq<Event>, remote: nat -> FetchOutcome, n: nat, j: nat)
  {
    j <= |events| &&
    forall i :: 0 <= i < j ==> events[i] == Tick && OnTick(remote(n + i)).KeepPolling?
  }

  /** A quiet prefix is consumed one fetch per tick and changes nothing else. */
  lemma {:induction false} SkipQuietPrefix(events: seq<Event>, remote: nat -> FetchOutcome, n: nat, j: nat)
    requires Quiet(events, remote, n, j)
    ensures Await(events, remote, n) == Await(events[j..], remote, n + j)
    decreases j
  {
    if j > 0 {
      assert events[0] == Tick && OnTick(remote(n + 0)).KeepPolling?;
      assert Quiet(events[1..], remote, n + 1, j - 1) by {
        forall i | 0 <= i < j - 1
          ensures events[1..][i] == Tick && OnTick(remote(n + 1 + i)).KeepPolling?
        {
          assert events[1..][i] == events[i + 1];
          assert n + 1 + i == n + (i + 1);
        }
      }
      SkipQuietPrefix(events[1..], remote, n + 1, j - 1);
      assert events[1..][j - 1..] == events[j..];
    }
  }

  /** What ends the loop after a quiet prefix of `j` ticks: cancellation with no
      further fetch; a failed fetch with its error, unretried; status "error"
      with its code; status "done" with the response. */
  lemma EndAfterQuietPrefix(events: seq<Event>, remote: nat -> FetchOutcome, n: nat, j: nat)
    requires Quiet(events, remote, n, j) && j < |events|
    ensures events[j] == Cancel ==> Await(events, remote, n) == Run(Failed(Plain(TimeoutWaitingResult)), n + j)
    ensures events[j] == Tick && remote(n + j).FetchFailed? ==>
              Await(events, remote, n) == Run(Failed(remote(n + j).error), n + j + 1)
    ensures events[j] == Tick && remote(n + j).Fetched? && remote(n + j).resp.status == "error" ==>
              Await(events, remote, n) == Run(Failed(RemoteFailed(remote(n + j).resp.errorCode)), n + j + 1)
    ensures events[j] == Tick && remote(n + j).Fetched? && remote(n + j).resp.status == "done" ==>
              Await(events, remote, n) == Run(Succeeded(remote(n + j).resp), n + j + 1)
  {
    SkipQuietPrefix(events, remote, n, j);
    assert events[j..][0] == events[j];
  }

  /** The loop keeps waiting exactly when every event is a tick whose fetch
      keeps it polling, and then it has made one fetch per event. */
  lemma {:induction false} WaitingIffAllQuiet(events: seq<Event>, remote: nat -> FetchOutcome, n: nat)
    ensures Await(events, remote, n).outcome.Waiting? <==> Quiet(events, remote, n, |events|)
    ensures Await(events, remote, n).outcome.Waiting? ==> Await(events, remote, n).fetches == n + |events|
    decreases |events|
  {
    if events != [] {
      WaitingIffAllQuiet(events[1..], remote, n + 1);
      if Quiet(events[1..], remote, n + 1, |events| - 1) && events[0] == Tick && OnTick(remote(n)).KeepPolling? {
        forall i | 0 <= i < |events|
          ensures events[i] == Tick && OnTick(remote(n + i)).KeepPolling?
        {
          if i > 0 {
            assert events[i] == events[1..][i - 1];
            assert n + i == n + 1 + (i - 1);
          }
        }
      }
      if Quiet(events, remote, n, |events|) {
        assert events[0] == Tick && OnTick(remote(n + 0)).KeepPolling?;
        forall i | 0 <= i < |events| - 1
          ensures events[1..][i] == Tick && OnTick(remote(n + 1 + i)).KeepPolling?
        {
          assert events[1..][i] == events[i + 1];
          assert n + 1 + i == n + (i + 1);
        }
        assert Quiet(events[1..], remote, n + 1, |events| - 1);
      }
    }
  }

  /** Fetches happen only on ticks: the run makes at most one fetch per event,
      and the k-th fetch is made on the k-th event, which is a tick. */
  lemma {:induction false} FetchesCountTicks(events: seq<Event>, remote: nat -> FetchOutcome, n: nat)
    ensures n <= Await(events, remote, n).fetches <= n + |events|
    ensures forall i :: 0 <= i < Await(events, remote, n).fetches - n ==> events[i] == Tick
    decreases |events|
  {
    if events != [] && events[0] == Tick && OnTick(remote(n)).KeepPolling? {
      var rest := Await(events[1..], remote, n + 1);
      FetchesCountTicks(events[1..], remote, n + 1);
      assert Await(events, remote, n) == rest;
      forall i | 0 <= i < rest.fetches - n ensures events[i] == Tick {
        if i > 0 { assert events[i] == events[1..][i - 1]; }
      }
    }
  }

  class GladiaClient {
    var log: Logging.Logger
    var token: string
    var timeout: int
    var baseUrlPath: string
    /** The Timeout of the http.Client built after the setters ran. */
    var httpTimeout: int
    /** gc.result: the result of the last transcription that reached "done". */
    var result: Option<Payload>

    /** The struct literal of NewGladiaClient: the given default logger, timeout
        0, the public base URL, no token and no result. */
    constructor (defaultLog: Logging.Logger)
      ensures Fields() == Settings(defaultLog, "", 0, DefaultBaseUrl)
      ensures httpTimeout == 0 && result == None
    {
      log := defaultLog;
      token := "";
      timeout := 0;
      baseUrlPath := DefaultBaseUrl;
      httpTimeout := 0;
      result := None;
    }

    function Fields(): Settings
      reads this
    {
      Settings(log, token, timeout, baseUrlPath)
    }

    /** Runs one setter closure on this client. */
    method Set(setter: Setter, parse: UrlParser) returns (err: Option<Error>)
      modifies this
      ensures match Apply(old(Fields()), setter, parse)
              case Ok(s) => err == None && Fields() == s
              case Err(e) => err == Some(e) && Fields() == old(Fields())
      ensures httpTimeout == old(httpTimeout) && result == old(result)
    {
      err := None;
      match setter
      case WithLogger(l) =>
        if l == null {
          err := Some(Plain(NilLoggerMessage));
        } else {
          log := l;
        }
      case WithBaseUrl(b) =>
        var u := parse(b);
        if u.Err? {
          err := Some(u.error);
        } else {
          baseUrlPath := u.value;
        }
      case WithApiToken(t) =>
        token := t;
      case WithTimeout(t) =>
        timeout := t;
    }

    /** AwaitTranscriptionResult: on each tick one fetch; a failed fetch, status
        "error" or cancellation ends the loop with an error, status "done"
        stores the result in gc.result and ends it with the response. */
    method AwaitTranscriptionResult(events: seq<Event>, remote: nat -> FetchOutcome)
      returns (outcome: Outcome, fetches: nat)
      modifies this`result
      ensures Run(outcome, fetches) == Await(events, remote, 0)
      ensures outcome.Succeeded? ==> result == outcome.resp.result
      ensures !outcome.Succeeded? ==> result == old(result)
    {
      var i := 0;
      fetches := 0;
      while i < |events|
        invariant 0 <= i <= |events| && fetches == i
        invariant Await(events, remote, 0) == Await(events[i..], remote, fetches)
        invariant result == old(result)
        decreases |events| - i
      {
        assert events[i..][1..] == events[i + 1..];
        match events[i]
        case Cancel =>
          return Failed(Plain(TimeoutWaitingResult)), fetches;
        case Tick =>
          var f := remote(fetches);
          fetches := fetches + 1;
          match f
          case FetchFailed(e) =>
            return Failed(e), fetches;
          case Fetched(resp) =>
            if resp.status == "error" {
              return Failed(RemoteFailed(resp.errorCode)), fetches;
            } else if resp.status == "done" {
              result := resp.result;
              return Succeeded(resp), fetches;
            }
        i := i + 1;
      }
      outcome := Waiting;
    }
  }

  /** NewGladiaClient: start from the defaults, run the setters in order, stop
      at the first error; on success the http.Client gets the final timeout.
      `defaultLog` is the logger DefaultLogger made for the struct literal. */
  method NewGladiaClient(opts: seq<Setter>, parse: UrlParser)
    returns (gc: GladiaClient?, err: Option<Error>, ghost defaultLog: Logging.Logger)
    ensures fresh(defaultLog) && defaultLog.level == Logging.DEBUG
    ensures defaultLog.outputs == [Logging.Stdout] && defaultLog.closer == Logging.NoOpClose
    ensures gc == null <==> err.Some?
    ensures err == FirstFailure(opts, parse)
    ensures gc != null ==> fresh(gc)
    ensures gc != null ==> ApplyAll(Settings(defaultLog, "", 0, DefaultBaseUrl), opts, parse) == Ok(gc.Fields())
    ensures gc != null ==> gc.httpTimeout == gc.timeout && gc.result == None
  {
    var l := Logging.DefaultLogger();
    defaultLog := l;
    var c := new GladiaClient(l);
    ghost var start := c.Fields();
    FoldFailsWithFirstFailure(start, opts, parse);
    var i := 0;
    while i < |opts|
      invariant 0 <= i <= |opts|
      invariant fresh(c) && c.result == None
      invariant l.level == Logging.DEBUG && l.outputs == [Logging.Stdout] && l.closer == Logging.NoOpClose
      invariant ApplyAll(start, opts, parse) == ApplyAll(c.Fields(), opts[i..], parse)
      decreases |opts| - i
    {
      ApplyAllStep(c.Fields(), opts, i, parse);
      var e := c.Set(opts[i], parse);
      if e.Some? {
        return null, e, defaultLog;
      }
      i := i + 1;
    }
    c.httpTimeout := c.timeout;
    gc, err := c, None;
  }
}
