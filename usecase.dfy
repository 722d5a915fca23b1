/** internal/logic/usecase/usecase.go: the use cases run by the CLI, over an
    abstract Gladia client, a file opener and the local job table. The
    client's answer to a call and the outcome of opening the file are
    parameters; the job table is the JobStore model. */
module Usecase {
  import opened Common
  import opened Remote
  import Logging
  import Client
  import JobStore

  /** repo.FilesRepo: a value holding a logger. */
  datatype FilesRepo = FilesRepo(log: Logging.Logger?)

  const NoLogger: string := "failed to init usecase: logger is empty"
  const NoHttpClient: string := "failed to init usecase: http client is empty"
  const NoDatabase: string := "failed to init usecase: database is empty"

  /** The four Option closures, by the argument each captures. */
  datatype UseOption =
    | WithLogger(l: Logging.Logger?)
    | WithHttpClient(c: Client.GladiaClient?)
    | WithFileRepo(f: FilesRepo)
    | WithDatabase(d: JobStore.Database?)

  /** The fields of a Usecase. */
  datatype Wiring = Wiring(log: Logging.Logger?, c: Client.GladiaClient?, repo: FilesRepo, db: JobStore.Database?)

  /** The zero Usecase New starts from. */
  const Unwired: Wiring := Wiring(null, null, FilesRepo(null), null)

  /** Whether an option returns an error: a nil logger, client or database. */
  predicate Rejects(o: UseOption)
  {
    o == WithLogger(null) || o == WithHttpClient(null) || o == WithDatabase(null)
  }

  /** One option applied to the fields: on success exactly the field it names
      is set, on failure its fixed message. WithFileRepo always succeeds. */
  function Wire(w: Wiring, o: UseOption): (r: Result<Wiring>)
    ensures r.Err? <==> Rejects(o)
    ensures o == WithLogger(null) ==> r == Err(Plain(NoLogger))
    ensures o == WithHttpClient(null) ==> r == Err(Plain(NoHttpClient))
    ensures o == WithDatabase(null) ==> r == Err(Plain(NoDatabase))
    ensures r.Ok? ==> r.value.log == (if o.WithLogger? then o.l else w.log)
    ensures r.Ok? ==> r.value.c == (if o.WithHttpClient? then o.c else w.c)
    ensures r.Ok? ==> r.value.repo == (if o.WithFileRepo? then o.f else w.repo)
    ensures r.Ok? ==> r.value.db == (if o.WithDatabase? then o.d else w.db)
  {
    match o
    case WithLogger(l) => if l == null then Err(Plain(NoLogger)) else Ok(w.(log := l))
    case WithHttpClient(c) => if c == null then Err(Plain(NoHttpClient)) else Ok(w.(c := c))
    case WithFileRepo(f) => Ok(w.(repo := f))
    case WithDatabase(d) => if d == null then Err(Plain(NoDatabase)) else Ok(w.(db := d))
  }

  /** The options run in order; the first failure is the result. */
  function WireAll(w: Wiring, opts: seq<UseOption>): Result<Wiring>
    decreases |opts|
  {
    if opts == [] then Ok(w)
    else
      match Wire(w, opts[0])
      case Err(e) => Err(e)
      case Ok(w') => WireAll(w', opts[1..])
  }

  /** Construction succeeds exactly when no option is rejected; otherwise it
      fails with the error of the first rejected one, the later ones unrun. */
  lemma {:induction false} WireAllFailsAtFirstRejected(w: Wiring, opts: seq<UseOption>)
    ensures WireAll(w, opts).Ok? <==> forall j :: 0 <= j < |opts| ==> !Rejects(opts[j])
    ensures forall k :: 0 <= k < |opts| && Rejects(opts[k]) && (forall j :: 0 <= j < k ==> !Rejects(opts[j])) ==>
              WireAll(w, opts) == Wire(w, opts[k])
    decreases |opts|
  {
    if opts != [] {
      match Wire(w, opts[0])
      case Err(e) =>
      case Ok(w') =>
        WireAllFailsAtFirstRejected(w', opts[1..]);
        forall j | 1 <= j < |opts| ensures opts[j] == opts[1..][j - 1] { }
        forall k | 0 <= k < |opts| && Rejects(opts[k]) && (forall j :: 0 <= j < k ==> !Rejects(opts[j]))
          ensures WireAll(w, opts) == Wire(w, opts[k])
        {
          assert k > 0;
          assert opts[1..][k - 1] == opts[k];
          assert forall j :: 0 <= j < k - 1 ==> opts[1..][j] == opts[j + 1];
          assert Wire(w', opts[k]) == Wire(w, opts[k]);
        }
    }
  }

  /** A successful construction records, per field, the last option that set it. */
  lemma {:induction false} WireAllLastWins(w: Wiring, opts: seq<UseOption>, o: UseOption)
    requires WireAll(w, opts).Ok? && !Rejects(o)
    ensures WireAll(w, opts + [o]) == Wire(WireAll(w, opts).value, o)
    decreases |opts|
  {
    if opts == [] {
      assert opts + [o] == [o];
    } else {
      assert (opts + [o])[0] == opts[0] && (opts + [o])[1..] == opts[1..] + [o];
      WireAllLastWins(Wire(w, opts[0]).value, opts[1..], o);
    }
  }

  /** The Task Upload stores for an uploaded file: its path and the audio URL,
      every other column empty (the id is the store's to assign). */
  function UploadedRow(filePath: string, audioUrl: string): (t: JobStore.Task)
    ensures t.filePath == filePath && t.fileUrl == audioUrl
    ensures t.resultUrl == "" && t.taskId == "" && t.status == "" && t.results == []
  {
    JobStore.Task(0, filePath, audioUrl, "", "", "", [])
  }

  /** What Transcription returns, the body it sends, and the local copy of the
      row it fills in and drops; or the nil dereference that ends the process. */
  datatype TranscriptionCall =
    | TranscriptionCall(taskId: string, err: Option<Error>, sent: Option<Body>, localCopy: Option<JobStore.Task>)
    | Panicked

  class Usecase {
    var log: Logging.Logger?
    var c: Client.GladiaClient?
    var repo: FilesRepo
    var db: JobStore.Database?

    /** &Usecase{}: every field nil. */
    constructor ()
      ensures Fields() == Unwired
    {
      log, c, repo, db := null, null, FilesRepo(null), null;
    }

    function Fields(): Wiring
      reads this
    {
      Wiring(log, c, repo, db)
    }

    /** Runs one Option closure on this use case. */
    method Apply(o: UseOption) returns (err: Option<Error>)
      modifies this
      ensures match Wire(old(Fields()), o)
              case Ok(w) => err == None && Fields() == w
              case Err(e) => err == Some(e) && Fields() == old(Fields())
    {
      err := None;
      match o
      case WithLogger(l) =>
        if l == null { err := Some(Plain(NoLogger)); } else { log := l; }
      case WithHttpClient(cl) =>
        if cl == null { err := Some(Plain(NoHttpClient)); } else { c := cl; }
      case WithFileRepo(f) =>
        repo := f;
      case WithDatabase(d) =>
        if d == null { err := Some(Plain(NoDatabase)); } else { db := d; }
    }

    /** Upload. `openErr` is the error of FilesRepo.Open (None: the file
        opened), `reply` the client's answer to the upload. On a failed open
        the client is not called; on a failed upload nothing is stored; on
        success one row is inserted and its id returned. */
    method Upload(filePath: string, openErr: Option<Error>, reply: Result<UploadResponse>)
      returns (id: int, err: Option<Error>, clientCalled: bool)
      requires log != null
      requires openErr.None? ==> c != null
      requires openErr.None? && reply.Ok? ==>
                 db != null && db.Valid() && db.hasTable && db.lastId < MaxInt64
      modifies db
      ensures openErr.Some? ==> id == -1 && err == Some(Wrapped(filePath + ": file read error", openErr.value))
      ensures clientCalled <==> openErr.None?
      ensures openErr.None? && reply.Err? ==> id == -1 && err == Some(reply.error)
      ensures (openErr.Some? || reply.Err?) && db != null ==>
                db.rows == old(db.rows) && db.lastId == old(db.lastId)
      ensures openErr.None? && reply.Ok? ==>
                err == None && db.Valid() && db.hasTable &&
                id == old(db.lastId) + 1 && db.lastId == id &&
                db.rows == old(db.rows) + [UploadedRow(filePath, reply.value.audioUrl).(id := id)]
    {
      if openErr.Some? {
        return -1, Some(Wrapped(filePath + ": file read error", openErr.value)), false;
      }
      clientCalled := true;
      var record := UploadedRow(filePath, "");
      if reply.Err? {
        // The failure record (status "error") is built here and never stored.
        record := record.(status := "error", results := []);
        return -1, Some(reply.error), clientCalled;
      }
      record := record.(fileUrl := reply.value.audioUrl);
      id := db.Insert(record);
      err := None;
    }

    /** Transcription: look the row up, resolve its file URL, send the body
        built from it. As in InitTranscription, `url` is a nil *url.URL, so a
        stored URL that parses but has no scheme (the empty one included)
        dereferences the nil base. The job's id and result URL are written
        only into a local copy of the row; the store is not written and the
        text returned is always empty. */
    function Transcription(cfg: TranscriptionConfig, id: int, resolve: UrlParser, reply: Result<InitResponse>): (r: TranscriptionCall)
      reads this, db
      requires db != null && db.hasTable
      requires db.GetByID(id).Err? ==> log != null
      requires db.GetByID(id).Ok? ==>
                 match ResolveOnNil(db.GetByID(id).value.fileUrl, resolve)
                 case Unparsed(_) => log != null
                 case NilBaseDereferenced => true
                 case Resolved(_) => c != null && (reply.Err? ==> log != null)
      ensures r.Panicked? <==>
                db.GetByID(id).Ok? && resolve(db.GetByID(id).value.fileUrl).Ok? && Scheme(db.GetByID(id).value.fileUrl) == ""
      ensures r.TranscriptionCall? ==> r.taskId == ""
      ensures db.GetByID(id).Err? ==> r == TranscriptionCall("", Some(db.GetByID(id).error), None, None)
      ensures db.GetByID(id).Ok? && resolve(db.GetByID(id).value.fileUrl).Err? ==>
                r == TranscriptionCall("", Some(resolve(db.GetByID(id).value.fileUrl).error), None, None)
      ensures db.GetByID(id).Ok? && resolve(db.GetByID(id).value.fileUrl).Ok? && Scheme(db.GetByID(id).value.fileUrl) != "" ==>
                r.TranscriptionCall? && r.sent == Some(TranscriptionBody(resolve(db.GetByID(id).value.fileUrl).value, cfg))
      ensures r.TranscriptionCall? && r.err.None? <==>
                db.GetByID(id).Ok? && resolve(db.GetByID(id).value.fileUrl).Ok? &&
                Scheme(db.GetByID(id).value.fileUrl) != "" && reply.Ok?
      ensures r.TranscriptionCall? && r.err.None? ==>
                r.localCopy == Some(db.GetByID(id).value.(taskId := reply.value.id, resultUrl := reply.value.resultUrl))
      ensures r.TranscriptionCall? && r.err.Some? ==> r.localCopy == None
    {
      match db.GetByID(id)
      case Err(e) => TranscriptionCall("", Some(e), None, None)
      case Ok(row) =>
        match ResolveOnNil(row.fileUrl, resolve)
        case Unparsed(e) => TranscriptionCall("", Some(e), None, None)
        case NilBaseDereferenced => Panicked
        case Resolved(u) =>
          var body := TranscriptionBody(u, cfg);
          match reply
          case Err(e) => TranscriptionCall("", Some(e), Some(body), None)
          case Ok(resp) =>
            TranscriptionCall("", None, Some(body), Some(row.(taskId := resp.id, resultUrl := resp.resultUrl)))
    }

    /** List: the rows are read and dropped; the result is always (nil, nil),
        since the in-memory table never fails to read. */
    method List() returns (list: seq<JobStore.Task>, err: Option<Error>)
      requires db != null && db.Valid() && db.hasTable && log != null
      ensures list == [] && err == None
    {
      var all := db.GetAll();
      list, err := [], None;
    }

    /** Dump: a stub that returns nil. */
    method Dump() returns (err: Option<Error>)
      ensures err == None
    {
      err := None;
    }

    /** PollingResult: a stub that returns nil for every id. */
    method PollingResult(id: int) returns (err: Option<Error>)
      ensures err == None
    {
      err := None;
    }

    /** Info: a stub that returns the zero Task and nil for every id. */
    method Info(id: int) returns (t: JobStore.Task, err: Option<Error>)
      ensures t == JobStore.Task(0, "", "", "", "", "", []) && err == None
    {
      t, err := JobStore.Task(0, "", "", "", "", "", []), None;
    }
  }

  /** New: the options run in order over the zero Usecase; the first error
      aborts construction. */
  method New(options: seq<UseOption>) returns (u: Usecase?, err: Option<Error>)
    ensures u == null <==> err.Some?
    ensures err.None? <==> forall j :: 0 <= j < |options| ==> !Rejects(options[j])
    ensures err.Some? ==> WireAll(Unwired, options) == Err(err.value)
    ensures u != null ==> fresh(u) && WireAll(Unwired, options) == Ok(u.Fields())
  {
    var r := new Usecase();
    WireAllFailsAtFirstRejected(Unwired, options);
    var i := 0;
    while i < |options|
      invariant 0 <= i <= |options| && fresh(r)
      invariant WireAll(Unwired, options) == WireAll(r.Fields(), options[i..])
      decreases |options| - i
    {
      assert options[i..][0] == options[i] && options[i..][1..] == options[i + 1..];
      var e := r.Apply(options[i]);
      if e.Some? {
        return null, e;
      }
      i := i + 1;
    }
    u, err := r, None;
  }

  /** Uploading the same file twice stores two rows with distinct, increasing
      ids: the table does not deduplicate by path. */
  method UploadTwiceScenario() returns (first: int, second: int, rows: seq<JobStore.Task>)
    ensures first == 1 && second == 2
    ensures rows == [UploadedRow("a.wav", "u1").(id := 1), UploadedRow("a.wav", "u2").(id := 2)]
  {
    var l := Logging.DefaultLogger();
    var gc, _, _ := Client.NewGladiaClient([], (s: string) => Ok(s));
    var d := new JobStore.Database.New(None);
    var u := new Usecase();
    u.log, u.c, u.db := l, gc, d;
    if gc == null {
      // NewGladiaClient with no setters cannot fail.
      assert false;
    }
    var e1, e2;
    var c1, c2;
    first, e1, c1 := u.Upload("a.wav", None, Ok(UploadResponse("u1")));
    second, e2, c2 := u.Upload("a.wav", None, Ok(UploadResponse("u2")));
    rows := d.rows;
  }

  /** An upload whose answer carries an empty audio URL stores it, and a
      later Transcription of that row dereferences the nil base. */
  method EmptyUrlTranscriptionScenario(cfg: TranscriptionConfig, resolve: UrlParser, reply: Result<InitResponse>)
    returns (id: int, r: TranscriptionCall)
    requires resolve("").Ok?
    ensures id == 1 && r == Panicked
  {
    var l := Logging.DefaultLogger();
    var gc, _, _ := Client.NewGladiaClient([], (s: string) => Ok(s));
    var d := new JobStore.Database.New(None);
    var u := new Usecase();
    u.log, u.c, u.db := l, gc, d;
    if gc == null {
      // NewGladiaClient with no setters cannot fail.
      assert false;
    }
    var err, called;
    id, err, called := u.Upload("a.wav", None, Ok(UploadResponse("")));
    assert d.rows[0].id == 1 && d.rows[0].fileUrl == "";
    assert d.GetByID(1) == Ok(d.rows[0]);
    SchemeExamples();
    r := u.Transcription(cfg, id, resolve, reply);
  }
}
