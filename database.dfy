/** internal/repo/database/logic.go: the local `requests` table.

    The table is modelled by what SQLite does with it: the rows in ascending
    id order (a table scan visits rows in rowid order) and the AUTOINCREMENT
    counter, the greatest id ever handed out, which deleting rows never lowers. */
module JobStore {
  import opened Common

  type Bytes = seq<bv8>

  /** One row of `requests`. */
  datatype Task = Task(
    id: int,
    filePath: string,
    fileUrl: string,
    resultUrl: string,
    taskId: string,
    status: string,
    results: Bytes)

  /** The contents of a database file: its rows and its AUTOINCREMENT counter. */
  datatype Table = Table(rows: seq<Task>, lastId: int)

  /** Every id lies in 1..lastId and the ids ascend strictly, so they are distinct. */
  ghost predicate WellFormed(rows: seq<Task>, lastId: int)
  {
    && 0 <= lastId
    && (forall i :: 0 <= i < |rows| ==> 1 <= rows[i].id <= lastId)
    && (forall i, j :: 0 <= i < j < |rows| ==> rows[i].id < rows[j].id)
  }

  /** The WHERE clause of a point query or a delete. */
  datatype Where = IdIs(id: int) | TaskIdIs(taskId: string)

  predicate Matches(t: Task, w: Where)
  {
    match w
    case IdIs(id) => t.id == id
    case TaskIdIs(taskId) => t.taskId == taskId
  }

  /** QueryRow(...).Scan: the first matching row in scan order, or sql.ErrNoRows. */
  function Select(rows: seq<Task>, w: Where): (r: Result<Task>)
    ensures r.Ok? <==> exists i :: 0 <= i < |rows| && Matches(rows[i], w)
    ensures r.Ok? ==> exists i :: 0 <= i < |rows| && rows[i] == r.value && Matches(r.value, w)
                                  && forall j :: 0 <= j < i ==> !Matches(rows[j], w)
    ensures r.Err? ==> r.error == NoRows
  {
    if rows == [] then Err(NoRows)
    else if Matches(rows[0], w) then Ok(rows[0])
    else
      var r := Select(rows[1..], w);
      assert forall i :: 1 <= i < |rows| ==> rows[i] == rows[1..][i - 1];
      r
  }

  /** DELETE ... WHERE: the rows that do not match, in their order. */
  function Delete(rows: seq<Task>, w: Where): (r: seq<Task>)
    ensures forall t :: t in r <==> t in rows && !Matches(t, w)
    ensures |r| <= |rows|
  {
    if rows == [] then []
    else if Matches(rows[0], w) then Delete(rows[1..], w)
    else [rows[0]] + Delete(rows[1..], w)
  }

  /** A row with its five mutable columns overwritten. */
  function Overwrite(t: Task, fileUrl: string, resultUrl: string, taskId: string, status: string, results: Bytes): Task
  {
    t.(fileUrl := fileUrl, resultUrl := resultUrl, taskId := taskId, status := status, results := results)
  }

  /** UPDATE ... WHERE id = ?: every row with that id gets the new mutable
      columns; every other row, and every id and file_path, stays as it was. */
  function Updated(rows: seq<Task>, id: int, fileUrl: string, resultUrl: string, taskId: string, status: string, results: Bytes): (r: seq<Task>)
    ensures |r| == |rows|
    ensures forall i :: 0 <= i < |rows| ==>
              r[i] == if rows[i].id == id then Overwrite(rows[i], fileUrl, resultUrl, taskId, status, results) else rows[i]
  {
    if rows == [] then []
    else
      var head := if rows[0].id == id then Overwrite(rows[0], fileUrl, resultUrl, taskId, status, results) else rows[0];
      var tail := Updated(rows[1..], id, fileUrl, resultUrl, taskId, status, results);
      assert forall i :: 1 <= i < |rows| ==> ([head] + tail)[i] == tail[i - 1];
      [head] + tail
  }

  class Database {
    /** Whether the file holds the `requests` table yet. */
    var hasTable: bool
    var rows: seq<Task>
    /** The table's entry in sqlite_sequence. */
    var lastId: int

    ghost predicate Valid()
      reads this
    {
      WellFormed(rows, lastId) && (!hasTable ==> rows == [] && lastId == 0)
    }

    /** New(driver, dsn): open the file, whose contents are `stored` (None when
        it holds no `requests` table), then CreateTable. */
    constructor New(stored: Option<Table>)
      requires stored.Some? ==> WellFormed(stored.value.rows, stored.value.lastId)
      ensures Valid() && hasTable
      ensures stored.Some? ==> rows == stored.value.rows && lastId == stored.value.lastId
      ensures stored.None? ==> rows == [] && lastId == 0
    {
      hasTable := stored.Some?;
      rows := if stored.Some? then stored.value.rows else [];
      lastId := if stored.Some? then stored.value.lastId else 0;
      new;
      CreateTable();
    }

    /** CREATE TABLE IF NOT EXISTS: creates an empty table when there is none
        and leaves an existing one exactly as it is. */
    method CreateTable()
      requires Valid()
      modifies this
      ensures Valid() && hasTable
      ensures old(hasTable) ==> rows == old(rows) && lastId == old(lastId)
      ensures !old(hasTable) ==> rows == [] && lastId == 0
    {
      hasTable := true;
    }

    /** Insert: the incoming id is ignored; the row is stored under the next
        counter value, which is returned. Past the int64 range the driver fails
        and log.Fatal ends the process, so callers must stay below it. */
    method Insert(row: Task) returns (id: int)
      requires Valid() && hasTable
      requires lastId < MaxInt64
      modifies this
      ensures Valid() && hasTable
      ensures id == old(lastId) + 1 && lastId == id
      ensures rows == old(rows) + [row.(id := id)]
    {
      id := lastId + 1;
      lastId := id;
      rows := rows + [row.(id := id)];
    }

    /** GetByID: the row with that id, or sql.ErrNoRows. */
    function GetByID(id: int): (r: Result<Task>)
      reads this
      requires hasTable
      ensures r.Ok? <==> exists i :: 0 <= i < |rows| && rows[i].id == id
      ensures r.Ok? ==> r.value in rows && r.value.id == id
      ensures r.Err? ==> r.error == NoRows
    {
      Select(rows, IdIs(id))
    }

    /** GetByTaskID: the first row (in id order) whose task_id matches, or sql.ErrNoRows. */
    function GetByTaskID(taskId: string): (r: Result<Task>)
      reads this
      requires hasTable
      ensures r.Ok? <==> exists i :: 0 <= i < |rows| && rows[i].taskId == taskId
      ensures r.Ok? ==> exists i :: 0 <= i < |rows| && rows[i] == r.value && r.value.taskId == taskId
                                    && forall j :: 0 <= j < i ==> rows[j].taskId != taskId
      ensures r.Err? ==> r.error == NoRows
    {
      Select(rows, TaskIdIs(taskId))
    }

    /** GetAll: SELECT * ... ORDER BY id, appending one row per step. */
    method GetAll() returns (list: seq<Task>)
      requires Valid() && hasTable
      ensures list == rows
      ensures forall i, j :: 0 <= i < j < |list| ==> list[i].id < list[j].id
    {
      list := [];
      var i := 0;
      while i < |rows|
        invariant 0 <= i <= |rows|
        invariant list == rows[..i]
      {
        list := list + [rows[i]];
        i := i + 1;
      }
    }

    /** Update: a full overwrite of the mutable columns of the row with that id. */
    method Update(id: int, fileUrl: string, resultUrl: string, taskId: string, status: string, results: Bytes)
      requires Valid() && hasTable
      modifies this
      ensures Valid() && hasTable && lastId == old(lastId)
      ensures rows == Updated(old(rows), id, fileUrl, resultUrl, taskId, status, results)
    {
      rows := Updated(rows, id, fileUrl, resultUrl, taskId, status, results);
    }

    method RemoveByID(id: int)
      requires Valid() && hasTable
      modifies this
      ensures Valid() && hasTable && lastId == old(lastId)
      ensures rows == Delete(old(rows), IdIs(id))
    {
      DeleteKeepsWellFormed(rows, lastId, IdIs(id));
      rows := Delete(rows, IdIs(id));
    }

    method RemoveByTaskID(taskId: string)
      requires Valid() && hasTable
      modifies this
      ensures Valid() && hasTable && lastId == old(lastId)
      ensures rows == Delete(old(rows), TaskIdIs(taskId))
    {
      DeleteKeepsWellFormed(rows, lastId, TaskIdIs(taskId));
      rows := Delete(rows, TaskIdIs(taskId));
    }
  }

  /** Dropping the first row keeps a table well formed. */
  lemma TailWellFormed(rows: seq<Task>, lastId: int)
    requires WellFormed(rows, lastId) && rows != []
    ensures WellFormed(rows[1..], lastId)
    ensures forall t :: t in rows[1..] ==> rows[0].id < t.id
  {
    var tail := rows[1..];
    forall i, j | 0 <= i < j < |tail|
      ensures tail[i].id < tail[j].id
    {
      assert tail[i] == rows[i + 1] && tail[j] == rows[j + 1];
    }
    forall t | t in tail
      ensures rows[0].id < t.id
    {
      var k :| 0 <= k < |tail| && tail[k] == t;
      assert rows[k + 1] == t;
    }
  }

  /** A row below every row of a well-formed table can be put in front of it. */
  lemma ConsWellFormed(t: Task, rest: seq<Task>, lastId: int)
    requires WellFormed(rest, lastId)
    requires 1 <= t.id <= lastId
    requires forall u :: u in rest ==> t.id < u.id
    ensures WellFormed([t] + rest, lastId)
  {
    var r := [t] + rest;
    forall i | 0 < i < |r|
      ensures r[i] == rest[i - 1]
    {
    }
    forall i, j | 0 <= i < j < |r|
      ensures r[i].id < r[j].id
    {
      assert r[j] in rest;
    }
  }

  /** Deleting keeps the rows ascending and inside the counter. */
  lemma {:induction false} DeleteKeepsWellFormed(rows: seq<Task>, lastId: int, w: Where)
    requires WellFormed(rows, lastId)
    ensures WellFormed(Delete(rows, w), lastId)
  {
    if rows != [] {
      TailWellFormed(rows, lastId);
      DeleteKeepsWellFormed(rows[1..], lastId, w);
      if !Matches(rows[0], w) {
        ConsWellFormed(rows[0], Delete(rows[1..], w), lastId);
      }
    }
  }

  /** The id Insert hands out is above every stored id and every id handed
      out before, so ids are never reused, not even after a delete. */
  lemma FreshIdIsNew(rows: seq<Task>, lastId: int, earlier: int)
    requires WellFormed(rows, lastId)
    requires earlier <= lastId
    ensures lastId + 1 != 0
    ensures lastId + 1 != earlier
    ensures forall t :: t in rows ==> t.id < lastId + 1
  {
  }

  /** With distinct ids, selecting by id finds exactly the row that has it. */
  lemma SelectByIdFindsThatRow(rows: seq<Task>, lastId: int, i: int)
    requires WellFormed(rows, lastId)
    requires 0 <= i < |rows|
    ensures Select(rows, IdIs(rows[i].id)) == Ok(rows[i])
  {
  }

  /** A matching row appended after the others is found only when no earlier
      row matches. */
  lemma {:induction false} SelectAppend(rows: seq<Task>, t: Task, w: Where)
    ensures Select(rows + [t], w) == if Select(rows, w).Ok? then Select(rows, w)
                                    else if Matches(t, w) then Ok(t) else Err(NoRows)
  {
    if rows != [] {
      assert (rows + [t])[1..] == rows[1..] + [t];
      SelectAppend(rows[1..], t, w);
    }
  }

  /** Insert then GetByID: the inserted fields come back under the new id,
      whatever other rows exist, and every other id still finds what it found. */
  lemma InsertThenGet(rows: seq<Task>, lastId: int, row: Task, other: int)
    requires WellFormed(rows, lastId)
    requires other != lastId + 1
    ensures Select(rows + [row.(id := lastId + 1)], IdIs(lastId + 1)) == Ok(row.(id := lastId + 1))
    ensures Select(rows + [row.(id := lastId + 1)], IdIs(other)) == Select(rows, IdIs(other))
  {
    SelectAppend(rows, row.(id := lastId + 1), IdIs(lastId + 1));
    SelectAppend(rows, row.(id := lastId + 1), IdIs(other));
  }

  /** After a delete, a lookup with the same key fails with sql.ErrNoRows;
      so RemoveByTaskID removes every row with that task_id. */
  lemma DeleteThenSelect(rows: seq<Task>, w: Where)
    ensures Select(Delete(rows, w), w) == Err(NoRows)
    ensures forall t :: t in Delete(rows, w) ==> !Matches(t, w)
  {
  }

  /** Deleting one id leaves every other id's lookup as it was. */
  lemma DeleteByIdKeepsOthers(rows: seq<Task>, lastId: int, id: int, other: int)
    requires WellFormed(rows, lastId)
    requires other != id
    ensures Select(Delete(rows, IdIs(id)), IdIs(other)) == Select(rows, IdIs(other))
  {
    DeleteKeepsWellFormed(rows, lastId, IdIs(id));
    var after := Delete(rows, IdIs(id));
    if i :| 0 <= i < |rows| && rows[i].id == other {
      SelectByIdFindsThatRow(rows, lastId, i);
      assert rows[i] in after;
      var k :| 0 <= k < |after| && after[k] == rows[i];
      SelectByIdFindsThatRow(after, lastId, k);
    } else {
      forall k | 0 <= k < |after|
        ensures after[k].id != other
      {
        assert after[k] in rows;
      }
    }
  }

  /** A delete whose key matches no row changes nothing. */
  lemma {:induction false} DeleteMissingIsNoOp(rows: seq<Task>, w: Where)
    requires forall i :: 0 <= i < |rows| ==> !Matches(rows[i], w)
    ensures Delete(rows, w) == rows
  {
    if rows != [] {
      DeleteMissingIsNoOp(rows[1..], w);
    }
  }

  /** Update then GetByID: exactly the five mutable columns are new; id and
      file_path are kept. */
  lemma UpdateThenGet(rows: seq<Task>, lastId: int, i: int, fileUrl: string, resultUrl: string, taskId: string, status: string, results: Bytes)
    requires WellFormed(rows, lastId)
    requires 0 <= i < |rows|
    ensures WellFormed(Updated(rows, rows[i].id, fileUrl, resultUrl, taskId, status, results), lastId)
    ensures Select(Updated(rows, rows[i].id, fileUrl, resultUrl, taskId, status, results), IdIs(rows[i].id))
            == Ok(Task(rows[i].id, rows[i].filePath, fileUrl, resultUrl, taskId, status, results))
  {
    var after := Updated(rows, rows[i].id, fileUrl, resultUrl, taskId, status, results);
    assert WellFormed(after, lastId);
    SelectByIdFindsThatRow(after, lastId, i);
  }

  /** An update whose id matches no row changes nothing. */
  lemma UpdateMissingIsNoOp(rows: seq<Task>, id: int, fileUrl: string, resultUrl: string, taskId: string, status: string, results: Bytes)
    requires forall i :: 0 <= i < |rows| ==> rows[i].id != id
    ensures Updated(rows, id, fileUrl, resultUrl, taskId, status, results) == rows
  {
  }

  /** Deleting the middle one of three rows by its id keeps the other two in order. */
  lemma DeleteMiddleRow(t1: Task, t2: Task, t3: Task)
    requires t1.id != t2.id && t3.id != t2.id
    ensures Delete([t1, t2, t3], IdIs(t2.id)) == [t1, t3]
  {
    assert [t1, t2, t3][1..] == [t2, t3] && [t2, t3][1..] == [t3] && [t3][1..] == [];
    assert Delete([t3], IdIs(t2.id)) == [t3] + Delete([], IdIs(t2.id)) == [t3];
    assert Delete([t2, t3], IdIs(t2.id)) == [t3];
    assert Delete([t1, t2, t3], IdIs(t2.id)) == [t1] + [t3];
  }

  /** Three inserts into a fresh file, a delete of the second, and a listing:
      the ids listed are 1 and 3, in that order. */
  method InsertDeleteListScenario() returns (ids: seq<int>)
    ensures ids == [1, 3]
  {
    var db := new Database.New(None);
    var t1, t2, t3 := Task(1, "a.wav", "", "", "", "", []), Task(2, "b.wav", "", "", "", "", []), Task(3, "c.wav", "", "", "", "", []);
    var a := db.Insert(t1.(id := 0));
    var b := db.Insert(t2.(id := 0));
    var c := db.Insert(t3.(id := 0));
    assert db.rows == [t1, t2, t3];
    DeleteMiddleRow(t1, t2, t3);
    db.RemoveByID(b);
    var list := db.GetAll();
    assert list == [t1, t3];
    ids := [list[0].id, list[1].id];
  }

  /** The update test of the repository: insert, update all mutable columns, read back. */
  method UpdateScenario() returns (got: Result<Task>)
    ensures got == Ok(Task(1, "fp", "fu_update", "ru_update", "task_update", "status_update", [0xFF]))
  {
    var db := new Database.New(None);
    var id := db.Insert(Task(0, "fp", "fu", "ru", "123", "ok", [0x00, 0x01, 0xFF, 0x10]));
    db.Update(id, "fu_update", "ru_update", "task_update", "status_update", [0xFF]);
    got := db.GetByID(id);
  }

  /** Insert after a delete gets a new id, and the deleted id stays unknown. */
  method NoReuseScenario() returns (first: int, second: int, lookup: Result<Task>)
    ensures first == 1 && second == 2
    ensures lookup == Err(NoRows)
  {
    var db := new Database.New(None);
    first := db.Insert(Task(0, "fp", "fu", "", "123", "ok", []));
    db.RemoveByTaskID("123");
    second := db.Insert(Task(0, "fp", "fu", "", "123", "ok", []));
    lookup := db.GetByID(first);
  }

  /** One call a session makes on the table. */
  datatype Step = InsertStep(row: Task) | RemoveIdStep(id: int) | RemoveTaskIdStep(taskId: string)

  /** Runs a session of inserts and deletes and returns the ids the inserts
      were given, in order: they ascend strictly and lie above every id
      stored, or handed out, before the session, so no id is handed out
      twice, whatever rows are deleted in between. */
  method RunSession(db: Database, steps: seq<Step>) returns (issued: seq<int>)
    requires db.Valid() && db.hasTable
    requires db.lastId + |steps| <= MaxInt64
    modifies db
    ensures db.Valid() && db.hasTable
    ensures forall i, j :: 0 <= i < j < |issued| ==> issued[i] < issued[j]
    ensures forall k :: 0 <= k < |issued| ==> old(db.lastId) < issued[k] <= db.lastId
    ensures forall k, t :: 0 <= k < |issued| && t in old(db.rows) ==> t.id < issued[k]
    ensures forall t :: t in db.rows && t.id > old(db.lastId) ==> t.id in issued
  {
    issued := [];
    var i := 0;
    while i < |steps|
      invariant 0 <= i <= |steps|
      invariant db.Valid() && db.hasTable
      invariant old(db.lastId) <= db.lastId <= old(db.lastId) + i
      invariant forall a, b :: 0 <= a < b < |issued| ==> issued[a] < issued[b]
      invariant forall k :: 0 <= k < |issued| ==> old(db.lastId) < issued[k] <= db.lastId
      invariant |issued| > 0 ==> issued[|issued| - 1] == db.lastId
      invariant db.lastId > old(db.lastId) ==> |issued| > 0
      invariant forall t :: t in db.rows && t.id > old(db.lastId) ==> t.id in issued
      decreases |steps| - i
    {
      match steps[i] {
        case InsertStep(row) =>
          var id := db.Insert(row);
          issued := issued + [id];
        case RemoveIdStep(id) =>
          db.RemoveByID(id);
        case RemoveTaskIdStep(taskId) =>
          db.RemoveByTaskID(taskId);
      }
      i := i + 1;
    }
    forall k, t | 0 <= k < |issued| && t in old(db.rows) ensures t.id < issued[k] {
      var j :| 0 <= j < |old(db.rows)| && old(db.rows)[j] == t;
    }
  }
}
