/**
 * The `reports` table and the four operations the server runs on it
 * (server/db.js). The table is an object whose row sequence `insertReport`
 * and `updateReportStatus` change; a listing is the WHERE clause that
 * `listReports` assembles, evaluated over the rows, then ORDER BY
 * `created_at` DESC, then LIMIT and OFFSET.
 */
module ReportStore {
  import opened Wrappers
  import opened Text

  /** The record the create handler passes to `insertReport`. */
  datatype Report = Report(
    id: string,
    category: string,
    description: string,
    address: string,
    lat: real,
    lng: real,
    photoPath: string,
    reporterFirstName: string,
    reporterLastName: string,
    status: string,
    createdAt: string)

  /** One row of the table. The reporter-name columns are nullable, and
      None stands for SQL NULL. */
  datatype Row = Row(
    id: string,
    category: string,
    description: string,
    address: string,
    lat: real,
    lng: real,
    photoPath: string,
    reporterFirstName: Option<string>,
    reporterLastName: Option<string>,
    status: string,
    createdAt: string)

  /** The only way an insert fails: the PRIMARY KEY on `id`. */
  datatype StoreError = UniqueConstraintFailed

  /** The message better-sqlite3 raises for that failure. */
  const UniqueConstraintMessage := "UNIQUE constraint failed: reports.id"

  /** The arguments of `listReports`. The empty string stands for an absent
      (falsy) filter. `limit` and `offset` are SQL integers: a negative
      LIMIT means no limit and a negative OFFSET means no offset. */
  datatype Query = Query(status: string, category: string, q: string, limit: int, offset: int)

  /** One conjunct of the WHERE clause `listReports` assembles. */
  datatype Condition =
    | StatusEquals(status: string)       // status = @status
    | CategoryEquals(category: string)   // category = @category
    | TextLike(q: string)                // (description LIKE @q OR address LIKE @q), @q = %q%

  // ---------------------------------------------------------------------------
  // Rows and keys
  // ---------------------------------------------------------------------------

  /** The row INSERT writes: every listed column from the report, and the
      two reporter-name columns, which the column list omits, left NULL. */
  function StoredRow(report: Report): (row: Row)
    ensures row.reporterFirstName == None && row.reporterLastName == None
    ensures row.id == report.id && row.status == report.status && row.createdAt == report.createdAt
    ensures row.category == report.category && row.description == report.description
    ensures row.address == report.address && row.photoPath == report.photoPath
    ensures row.lat == report.lat && row.lng == report.lng
  {
    Row(report.id, report.category, report.description, report.address, report.lat, report.lng,
        report.photoPath, None, None, report.status, report.createdAt)
  }

  predicate HasId(rows: seq<Row>, id: string) {
    exists i | 0 <= i < |rows| :: rows[i].id == id
  }

  /** The PRIMARY KEY invariant: no two rows share an id. */
  ghost predicate UniqueIds(rows: seq<Row>) {
    forall i, j | 0 <= i < j < |rows| :: rows[i].id != rows[j].id
  }

  /** The first row with the given id, as `SELECT * ... WHERE id = ?` with
      `.get` returns it. */
  function FindById(rows: seq<Row>, id: string): (r: Option<Row>)
    ensures r.None? <==> !HasId(rows, id)
    ensures r.Some? ==> r.value in rows && r.value.id == id
    ensures r.Some? ==> exists i | 0 <= i < |rows| :: rows[i] == r.value
                                                    && forall j | 0 <= j < i :: rows[j].id != id
  {
    if rows == [] then None
    else if rows[0].id == id then Some(rows[0])
    else
      var r := FindById(rows[1..], id);
      assert forall i | 1 <= i < |rows| :: rows[i] == rows[1..][i - 1];
      r
  }

  // ---------------------------------------------------------------------------
  // Filtering
  // ---------------------------------------------------------------------------

  /** What a listing filter means: every supplied filter holds of the row.
      Status and category compare exactly; `q` must occur, ignoring ASCII
      case, in the description or in the address. */
  predicate Matches(row: Row, query: Query) {
    && (query.status == "" || row.status == query.status)
    && (query.category == "" || row.category == query.category)
    && (query.q == "" || LikeContains(row.description, query.q) || LikeContains(row.address, query.q))
  }

  predicate Satisfies(row: Row, condition: Condition) {
    match condition
    case StatusEquals(s) => row.status == s
    case CategoryEquals(c) => row.category == c
    case TextLike(q) => LikeContains(row.description, q) || LikeContains(row.address, q)
  }

  /** The conjunction of the WHERE clause; no conditions selects every row. */
  predicate SatisfiesAll(row: Row, conditions: seq<Condition>) {
    forall c | c in conditions :: Satisfies(row, c)
  }

  /** The conditions `listReports` pushes, one per truthy filter, in the
      order status, category, q. Their conjunction holds of a row exactly
      when the row matches the filter. */
  method BuildConditions(query: Query) returns (conditions: seq<Condition>)
    ensures forall row :: SatisfiesAll(row, conditions) <==> Matches(row, query)
    ensures StatusEquals(query.status) in conditions <==> query.status != ""
    ensures CategoryEquals(query.category) in conditions <==> query.category != ""
    ensures TextLike(query.q) in conditions <==> query.q != ""
    ensures |conditions| <= 3
  {
    conditions := [];
    if query.status != "" {
      conditions := conditions + [StatusEquals(query.status)];
    }
    if query.category != "" {
      conditions := conditions + [CategoryEquals(query.category)];
    }
    if query.q != "" {
      conditions := conditions + [TextLike(query.q)];
    }
    forall row
      ensures SatisfiesAll(row, conditions) <==> Matches(row, query)
    {
      if SatisfiesAll(row, conditions) {
        assert query.status != "" ==> Satisfies(row, StatusEquals(query.status));
        assert query.category != "" ==> Satisfies(row, CategoryEquals(query.category));
        assert query.q != "" ==> Satisfies(row, TextLike(query.q));
      }
    }
  }

  /** The rows the WHERE clause keeps, in table order. */
  function Where(rows: seq<Row>, conditions: seq<Condition>): (r: seq<Row>)
    ensures forall x | x in r :: x in rows && SatisfiesAll(x, conditions)
    ensures forall x | x in rows && SatisfiesAll(x, conditions) :: x in r
    ensures multiset(r) <= multiset(rows)
  {
    if rows == [] then []
    else
      var rest := Where(rows[1..], conditions);
      assert rows == [rows[0]] + rows[1..];
      (if SatisfiesAll(rows[0], conditions) then [rows[0]] else []) + rest
  }

  /** The matching rows, in table order: the meaning of a filter, stated
      without the WHERE clause. */
  function Select(rows: seq<Row>, query: Query): (r: seq<Row>)
    ensures forall x | x in r :: x in rows && Matches(x, query)
    ensures forall x | x in rows && Matches(x, query) :: x in r
  {
    if rows == [] then []
    else (if Matches(rows[0], query) then [rows[0]] else []) + Select(rows[1..], query)
  }

  /** Evaluating the assembled WHERE clause selects exactly the matching
      rows, in the same order. */
  lemma {:induction false} WhereIsSelect(rows: seq<Row>, conditions: seq<Condition>, query: Query)
    requires forall row :: SatisfiesAll(row, conditions) <==> Matches(row, query)
    ensures Where(rows, conditions) == Select(rows, query)
  {
    if rows != [] {
      WhereIsSelect(rows[1..], conditions, query);
    }
  }

  // ---------------------------------------------------------------------------
  // ORDER BY created_at DESC
  // ---------------------------------------------------------------------------

  /** Newest first: `created_at` never increases along the sequence. */
  predicate SortedDesc(rows: seq<Row>) {
    forall i, j | 0 <= i < j < |rows| :: TextLe(rows[j].createdAt, rows[i].createdAt)
  }

  /** Places `x` before the first row that is not newer than it. */
  function InsertDesc(x: Row, rows: seq<Row>): (r: seq<Row>)
    ensures multiset(r) == multiset(rows) + multiset{x}
    ensures |r| == |rows| + 1
    ensures forall y | y in r :: y == x || y in rows
  {
    if rows == [] then [x]
    else if TextLe(rows[0].createdAt, x.createdAt) then [x] + rows
    else
      assert rows == [rows[0]] + rows[1..];
      [rows[0]] + InsertDesc(x, rows[1..])
  }

  /** A row followed by a newest-first sequence of rows no newer than it
      is newest-first. */
  lemma SortedCons(a: Row, rows: seq<Row>)
    requires SortedDesc(rows)
    requires forall y | y in rows :: TextLe(y.createdAt, a.createdAt)
    ensures SortedDesc([a] + rows)
  {
    var r := [a] + rows;
    forall i, j | 0 <= i < j < |r|
      ensures TextLe(r[j].createdAt, r[i].createdAt)
    {
      assert r[j] == rows[j - 1];
      if i > 0 {
        assert r[i] == rows[i - 1];
      }
    }
  }

  lemma {:induction false} InsertDescSorted(x: Row, rows: seq<Row>)
    requires SortedDesc(rows)
    ensures SortedDesc(InsertDesc(x, rows))
  {
    if rows == [] {
    } else if TextLe(rows[0].createdAt, x.createdAt) {
      forall y | y in rows
        ensures TextLe(y.createdAt, x.createdAt)
      {
        var j :| 0 <= j < |rows| && rows[j] == y;
        if j > 0 {
          TextLeTransitive(rows[j].createdAt, rows[0].createdAt, x.createdAt);
        }
      }
      SortedCons(x, rows);
    } else {
      var tail := InsertDesc(x, rows[1..]);
      InsertDescSorted(x, rows[1..]);
      TextLeTotal(rows[0].createdAt, x.createdAt);
      forall y | y in tail
        ensures TextLe(y.createdAt, rows[0].createdAt)
      {
        if y != x {
          var k :| 0 <= k < |rows[1..]| && rows[1..][k] == y;
          assert rows[k + 1] == y;
        }
      }
      SortedCons(rows[0], tail);
    }
  }

  /** The rows ordered by `created_at`, newest first; rows with equal
      timestamps keep their table order. */
  function OrderByCreatedDesc(rows: seq<Row>): (r: seq<Row>)
    ensures multiset(r) == multiset(rows)
    ensures |r| == |rows|
  {
    if rows == [] then []
    else
      assert rows == [rows[0]] + rows[1..];
      InsertDesc(rows[0], OrderByCreatedDesc(rows[1..]))
  }

  lemma {:induction false} OrderByCreatedDescSorted(rows: seq<Row>)
    ensures SortedDesc(OrderByCreatedDesc(rows))
  {
    if rows != [] {
      OrderByCreatedDescSorted(rows[1..]);
      InsertDescSorted(rows[0], OrderByCreatedDesc(rows[1..]));
    }
  }

  // ---------------------------------------------------------------------------
  // LIMIT @limit OFFSET @offset
  // ---------------------------------------------------------------------------

  /** Skips the first `offset` rows (none when negative) and keeps at most
      `limit` of the rest (all of them when negative). */
  function Window(rows: seq<Row>, offset: int, limit: int): (r: seq<Row>)
    ensures limit >= 0 ==> |r| <= limit
    ensures var skip := if offset < 0 then 0 else offset;
            |r| == if skip >= |rows| then 0
                   else if limit < 0 || |rows| - skip <= limit then |rows| - skip
                   else limit
    ensures forall i | 0 <= i < |r| :: r[i] == rows[(if offset < 0 then 0 else offset) + i]
  {
    var start := if offset < 0 then 0 else if offset > |rows| then |rows| else offset;
    var stop := if limit < 0 || |rows| - start <= limit then |rows| else start + limit;
    rows[start..stop]
  }

  /** A window keeps only rows of its input, in the input's order. */
  lemma WindowOfSorted(rows: seq<Row>, offset: int, limit: int)
    requires SortedDesc(rows)
    ensures SortedDesc(Window(rows, offset, limit))
    ensures forall x | x in Window(rows, offset, limit) :: x in rows
  {
    var r := Window(rows, offset, limit);
    var skip := if offset < 0 then 0 else offset;
    forall i, j | 0 <= i < j < |r|
      ensures TextLe(r[j].createdAt, r[i].createdAt)
    {
      assert r[i] == rows[skip + i] && r[j] == rows[skip + j];
    }
    forall x | x in r
      ensures x in rows
    {
      var i :| 0 <= i < |r| && r[i] == x;
      assert rows[skip + i] == x;
    }
  }

  // ---------------------------------------------------------------------------
  // The table
  // ---------------------------------------------------------------------------

  /** The `reports` table: its rows in insertion order. */
  class ReportTable {
    var rows: seq<Row>

    ghost predicate Valid()
      reads this
    {
      UniqueIds(rows)
    }

    /** `CREATE TABLE IF NOT EXISTS reports`: a fresh table is empty. */
    constructor ()
      ensures Valid() && rows == []
    {
      rows := [];
    }

    /** `insertReport`: stores the report with the reporter names left NULL
        and returns its argument unchanged; a duplicate id violates the
        PRIMARY KEY and changes nothing. */
    method Insert(report: Report) returns (result: Result<Report, StoreError>)
      requires Valid()
      modifies this
      ensures Valid()
      ensures HasId(old(rows), report.id) ==>
                result == Failure(UniqueConstraintFailed) && rows == old(rows)
      ensures !HasId(old(rows), report.id) ==>
                result == Success(report) && rows == old(rows) + [StoredRow(report)]
    {
      if HasId(rows, report.id) {
        result := Failure(UniqueConstraintFailed);
      } else {
        rows := rows + [StoredRow(report)];
        result := Success(report);
      }
    }

    /** `listReports`: the rows matching every supplied filter, newest first,
        after skipping `offset` of them and keeping at most `limit`. */
    method List(query: Query) returns (result: seq<Row>)
      ensures result == Window(OrderByCreatedDesc(Select(rows, query)), query.offset, query.limit)
      ensures forall x | x in result :: x in rows && Matches(x, query)
      ensures SortedDesc(result)
      ensures query.limit >= 0 ==> |result| <= query.limit
    {
      var conditions := BuildConditions(query);
      var matching := Where(rows, conditions);
      WhereIsSelect(rows, conditions, query);
      var ordered := OrderByCreatedDesc(matching);
      OrderByCreatedDescSorted(matching);
      result := Window(ordered, query.offset, query.limit);
      WindowOfSorted(ordered, query.offset, query.limit);
      forall x | x in result
        ensures x in rows && Matches(x, query)
      {
        assert x in multiset(ordered);
        assert x in matching;
      }
    }

    /** `updateReportStatus`: sets the status of the row with that id and
        reports whether one existed; no other row and no other column
        changes. */
    method UpdateStatus(id: string, status: string) returns (changed: bool)
      requires Valid()
      modifies this
      ensures Valid()
      ensures changed <==> HasId(old(rows), id)
      ensures |rows| == |old(rows)|
      ensures forall i | 0 <= i < |rows| ::
                rows[i] == if old(rows)[i].id == id then old(rows)[i].(status := status) else old(rows)[i]
    {
      changed := HasId(rows, id);
      rows := seq(|rows|, i requires 0 <= i < |rows| reads this =>
                if rows[i].id == id then rows[i].(status := status) else rows[i]);
    }

    /** `getReportById`: the row with that id, or nothing. */
    function GetById(id: string): (r: Option<Row>)
      reads this
      requires Valid()
      ensures r.None? <==> !HasId(rows, id)
      ensures r.Some? ==> r.value in rows && r.value.id == id
      ensures r.Some? ==> forall k | 0 <= k < |rows| && rows[k].id == id :: rows[k] == r.value
    {
      FoundRowIsOnly(rows, id);
      FindById(rows, id)
    }
  }

  /** Under the PRIMARY KEY, the row `getReportById` returns is the only
      row with that id. */
  lemma FoundRowIsUnique(rows: seq<Row>, id: string, i: int)
    requires UniqueIds(rows)
    requires 0 <= i < |rows| && rows[i].id == id
    ensures FindById(rows, id) == Some(rows[i])
  {
  }

  /** Under the PRIMARY KEY, no other row shares the id of the row found. */
  lemma FoundRowIsOnly(rows: seq<Row>, id: string)
    requires UniqueIds(rows)
    ensures FindById(rows, id).Some? ==>
              forall k | 0 <= k < |rows| && rows[k].id == id :: rows[k] == FindById(rows, id).value
  {
    forall k | 0 <= k < |rows| && rows[k].id == id
      ensures rows[k] == FindById(rows, id).value
    {
      FoundRowIsUnique(rows, id, k);
    }
  }
}
