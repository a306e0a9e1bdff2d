/**
 * The warehouse adapter: composing the table reference from configuration,
 * normalising and inserting one row, and building the listing query and
 * converting the rows it returns.
 *
 * The warehouse client is a `Client` object that records every call made to
 * it; what the service answers is an input to each call. `json.dumps`,
 * Python's `str()` of a value and `datetime.isoformat()` are passed in as
 * uninterpreted functions.
 */
module Warehouse {

  import opened Wrappers
  import opened Values
  import Decimal

  const DefaultDataset := "document_processing"
  const DefaultTable := "processed_documents"

  // ---------------------------------------------------------------- table reference

  /** `os.getenv(key, default)`. */
  function EnvOr(env: map<string, string>, key: string, default: string): string {
    if key in env then env[key] else default
  }

  /** The fully qualified table name `project.dataset.table`. */
  function TableRef(project: string, dataset: string, table: string): string {
    project + "." + dataset + "." + table
  }

  /** `s.split(".")`: the pieces between dots, always at least one. */
  function SplitOnDots(s: string): (parts: seq<string>)
    ensures |parts| >= 1
  {
    if s == [] then [""]
    else if s[0] == '.' then [""] + SplitOnDots(s[1..])
    else
      var rest := SplitOnDots(s[1..]);
      [[s[0]] + rest[0]] + rest[1..]
  }

  lemma {:induction false} SplitOnDotsNoDot(s: string)
    requires '.' !in s
    ensures SplitOnDots(s) == [s]
  {
    if s != [] {
      assert '.' !in s[1..] by {
        forall i | 0 <= i < |s[1..]| ensures s[1..][i] != '.' {
          assert s[1..][i] == s[i + 1];
        }
      }
      SplitOnDotsNoDot(s[1..]);
      assert s[0] != '.';
      assert [s[0]] + s[1..] == s;
    }
  }

  lemma {:induction false} SplitOnDotsAfter(a: string, b: string)
    requires '.' !in a
    ensures SplitOnDots(a + "." + b) == [a] + SplitOnDots(b)
  {
    if a == [] {
      assert a + "." + b == ['.'] + b;
      assert (['.'] + b)[1..] == b;
    } else {
      assert (a + "." + b)[1..] == a[1..] + "." + b;
      assert '.' !in a[1..] by {
        forall i | 0 <= i < |a[1..]| ensures a[1..][i] != '.' {
          assert a[1..][i] == a[i + 1];
        }
      }
      SplitOnDotsAfter(a[1..], b);
      assert (a + "." + b)[0] == a[0] && a[0] != '.';
      assert [a[0]] + a[1..] == a;
    }
  }

  /** A table reference built from dot-free names splits back into exactly those three names. */
  lemma TableRefComponents(project: string, dataset: string, table: string)
    requires '.' !in project && '.' !in dataset && '.' !in table
    ensures SplitOnDots(TableRef(project, dataset, table)) == [project, dataset, table]
  {
    assert TableRef(project, dataset, table) == project + "." + (dataset + "." + table);
    SplitOnDotsAfter(project, dataset + "." + table);
    SplitOnDotsAfter(dataset, table);
    SplitOnDotsNoDot(table);
  }

  /** With neither dataset nor table configured, the reference names the default dataset and table. */
  lemma DefaultTableRef(env: map<string, string>)
    requires "BQ_DATASET_ID" !in env && "BQ_TABLE_ID" !in env
    requires "GOOGLE_CLOUD_PROJECT" in env && '.' !in env["GOOGLE_CLOUD_PROJECT"]
    ensures SplitOnDots(TableRef(env["GOOGLE_CLOUD_PROJECT"], EnvOr(env, "BQ_DATASET_ID", DefaultDataset),
                                 EnvOr(env, "BQ_TABLE_ID", DefaultTable)))
            == [env["GOOGLE_CLOUD_PROJECT"], "document_processing", "processed_documents"]
  {
    TableRefComponents(env["GOOGLE_CLOUD_PROJECT"], DefaultDataset, DefaultTable);
  }

  // ---------------------------------------------------------------- the client

  datatype InsertCall = InsertCall(table: string, rows: seq<Dict>)

  /** What `insert_rows_json` does: return a list of per-row errors, or raise. */
  datatype InsertReply = Returned(errors: seq<Value>) | InsertRaised(message: string)

  /** What running a query does: yield rows, or raise (when submitted or while fetching results). */
  datatype QueryReply = Rows(rows: seq<Dict>) | QueryRaised(message: string)

  /** The warehouse client, reduced to the log of the calls made to it. */
  class Client {
    var inserts: seq<InsertCall>
    var queries: seq<string>

    constructor ()
      ensures inserts == [] && queries == []
    {
      inserts, queries := [], [];
    }

    /** Streams `rows` into `table`; the service's answer is `reply`. */
    method InsertRowsJson(table: string, rows: seq<Dict>, reply: InsertReply) returns (r: InsertReply)
      modifies this
      ensures inserts == old(inserts) + [InsertCall(table, rows)] && queries == old(queries)
      ensures r == reply
    {
      inserts := inserts + [InsertCall(table, rows)];
      r := reply;
    }

    /** Runs `sql` and fetches its result; the service's answer is `reply`. */
    method Query(sql: string, reply: QueryReply) returns (r: QueryReply)
      modifies this
      ensures queries == old(queries) + [sql] && inserts == old(inserts)
      ensures r == reply
    {
      queries := queries + [sql];
      r := reply;
    }
  }

  /** A dict that is passed by reference and updated in place. */
  class Record {
    var fields: Dict

    constructor (fields: Dict)
      ensures this.fields == fields
    {
      this.fields := fields;
    }
  }

  // ---------------------------------------------------------------- insert

  /**
   * The row as `insert_record` leaves it: a dict under `extracted_data` is
   * replaced by its JSON text, and `processed_at` is stamped with `now` only
   * when the key is missing. No other key is touched.
   */
  function Normalised(row: Dict, dumps: Value -> string, now: string): (r: Dict)
    ensures r.Keys == row.Keys + {"processed_at"}
    ensures forall k :: k in row && k != "extracted_data" && k != "processed_at" ==> r[k] == row[k]
    ensures "extracted_data" in row && row["extracted_data"].Obj? ==>
              r["extracted_data"] == Str(dumps(row["extracted_data"]))
    ensures "extracted_data" in row && !row["extracted_data"].Obj? ==>
              r["extracted_data"] == row["extracted_data"]
    ensures "processed_at" in row ==> r["processed_at"] == row["processed_at"]
    ensures "processed_at" !in row ==> r["processed_at"] == Str(now)
  {
    var serialised := if Get(row, "extracted_data").Obj?
                      then row["extracted_data" := Str(dumps(row["extracted_data"]))]
                      else row;
    if "processed_at" in serialised then serialised else serialised["processed_at" := Str(now)]
  }

  /** Normalising twice is normalising once: the JSON text is no longer a dict and the stamp is now present. */
  lemma NormalisedIdempotent(row: Dict, dumps: Value -> string, now: string, later: string)
    ensures Normalised(Normalised(row, dumps, now), dumps, later) == Normalised(row, dumps, now)
  {
    var once := Normalised(row, dumps, now);
    var twice := Normalised(once, dumps, later);
    assert twice.Keys == once.Keys;
    forall k | k in once ensures twice[k] == once[k] {
    }
  }

  /** After normalisation the row holds no dict under `extracted_data` and has a `processed_at`. */
  lemma NormalisedIsFlat(row: Dict, dumps: Value -> string, now: string)
    ensures var r := Normalised(row, dumps, now);
            "processed_at" in r && !Get(r, "extracted_data").Obj?
  {
  }

  /** Only dicts are serialised: a list under `extracted_data` reaches the warehouse as a nested value. */
  lemma NormalisedKeepsList(row: Dict, dumps: Value -> string, now: string)
    requires "extracted_data" in row && row["extracted_data"].Arr?
    ensures Normalised(row, dumps, now)["extracted_data"].Arr?
  {
  }

  /**
   * The `(success, error)` pair `insert_record` returns for a client reply:
   * `(True, None)` exactly when the client returned no errors, otherwise
   * `(False, message)` with the exception text or the printed error list.
   */
  function InsertResult(reply: InsertReply, show: Value -> string): (r: (bool, Option<string>))
    ensures r.0 <==> reply == Returned([])
    ensures r.0 <==> r.1 == None
    ensures reply.InsertRaised? ==> r.1 == Some(reply.message)
    ensures reply.Returned? && reply.errors != [] ==> r.1 == Some(show(Arr(reply.errors)))
  {
    match reply
    case InsertRaised(message) => (false, Some(message))
    case Returned(errors) =>
      if Truthy(Arr(errors)) then (false, Some(show(Arr(errors)))) else (true, None)
  }

  // ---------------------------------------------------------------- listing query

  function QueryHead(tableRef: string): string {
    "SELECT * FROM `" + tableRef + "`"
  }

  const DateClauseOpen := " WHERE DATE(processed_at) = '"

  function DateClause(date: string): string {
    DateClauseOpen + date + "'"
  }

  const OrderByLimit := " ORDER BY processed_at DESC LIMIT "

  function QueryTail(limit: int): string {
    OrderByLimit + Decimal.IntToString(limit)
  }

  /** The optional date clause: present only for an active filter. */
  function FilterClause(dateFilter: Option<string>): string {
    if TruthyText(dateFilter) then DateClause(dateFilter.value) else ""
  }

  /** The SQL `list_records` submits. */
  function ListingQuery(tableRef: string, limit: int, dateFilter: Option<string>): (q: string)
    ensures QueryHead(tableRef) <= q
    ensures |q| >= |QueryHead(tableRef)| + |QueryTail(limit)|
    ensures q[|q| - |QueryTail(limit)|..] == QueryTail(limit)
  {
    QueryHead(tableRef) + FilterClause(dateFilter) + QueryTail(limit)
  }

  /**
   * Reads the date filter back out of a query for a known table and limit:
   * the text between the head and the tail is either empty (no filter) or a
   * date clause, whose quoted date is returned.
   */
  function DateFilterOf(q: string, tableRef: string, limit: int): Option<string> {
    var head, tail := |QueryHead(tableRef)|, |QueryTail(limit)|;
    if head + tail > |q| then None
    else
      var middle := q[head..|q| - tail];
      var open := |DateClauseOpen|;
      if |middle| > open && middle[..open] == DateClauseOpen && middle[|middle| - 1] == '\''
      then Some(middle[open..|middle| - 1])
      else None
  }

  /**
   * The WHERE clause is present exactly when the filter is non-empty, and it
   * carries the filter verbatim: nothing is validated or escaped.
   */
  lemma ListingQueryDateFilter(tableRef: string, limit: int, dateFilter: Option<string>)
    ensures DateFilterOf(ListingQuery(tableRef, limit, dateFilter), tableRef, limit)
            == if TruthyText(dateFilter) then dateFilter else None
  {
    var q := ListingQuery(tableRef, limit, dateFilter);
    var head, tail := QueryHead(tableRef), QueryTail(limit);
    var middle := FilterClause(dateFilter);
    assert q == head + middle + tail;
    assert q[|head|..|q| - |tail|] == middle;
    if TruthyText(dateFilter) {
      assert middle[..|DateClauseOpen|] == DateClauseOpen;
      assert middle[|DateClauseOpen|..|middle| - 1] == dateFilter.value;
    }
  }

  /** The limit printed at the end of the query reads back as the requested limit. */
  lemma ListingQueryLimit(tableRef: string, limit: int, dateFilter: Option<string>)
    ensures var q := ListingQuery(tableRef, limit, dateFilter);
            var printed := Decimal.IntToString(limit);
            Decimal.ParseInt(q[|q| - |printed|..]) == Some(limit)
  {
    var q := ListingQuery(tableRef, limit, dateFilter);
    var printed := Decimal.IntToString(limit);
    var front := QueryHead(tableRef) + FilterClause(dateFilter) + OrderByLimit;
    assert q == front + printed;
    assert q[|front|..] == printed;
    Decimal.ParseIntOfIntToString(limit);
  }

  // ---------------------------------------------------------------- listing rows

  /** One row after `dict(row)` and the timestamp rewrite, or the exception that rewrite raises. */
  datatype Converted = Converted(row: Dict) | ConvertFailed(message: string)

  /**
   * A truthy `processed_at` is rewritten to its ISO text; a value without an
   * `isoformat` method raises AttributeError. Falsy values and all other keys
   * are kept.
   */
  function ConvertRow(row: Dict, iso: Timestamp -> string): (r: Converted)
    ensures r.ConvertFailed? <==> Truthy(Get(row, "processed_at")) && !row["processed_at"].Time?
    ensures r.Converted? ==> r.row.Keys == row.Keys
    ensures r.Converted? ==> forall k :: k in row && k != "processed_at" ==> r.row[k] == row[k]
    ensures r.Converted? && !Truthy(Get(row, "processed_at")) ==> r.row == row
    ensures Get(row, "processed_at").Time? ==> r == Converted(row["processed_at" := Str(iso(row["processed_at"].t))])
  {
    var stamp := Get(row, "processed_at");
    if !Truthy(stamp) then Converted(row)
    else if stamp.Time? then Converted(row["processed_at" := Str(iso(stamp.t))])
    else ConvertFailed("'" + TypeName(stamp) + "' object has no attribute 'isoformat'")
  }

  /**
   * The `(records, error)` pair the row loop yields: every row converted, in
   * order, or the message of the first row whose conversion raised.
   */
  function ConvertAll(rows: seq<Dict>, iso: Timestamp -> string): (Option<seq<Dict>>, Option<string>) {
    if rows == [] then (Some([]), None)
    else
      var done := ConvertAll(rows[..|rows| - 1], iso);
      if done.0.None? then done
      else match ConvertRow(rows[|rows| - 1], iso)
        case ConvertFailed(message) => (None, Some(message))
        case Converted(row) => (Some(done.0.value + [row]), None)
  }

  /**
   * The loop keeps count and order: it succeeds exactly when every row
   * converts, and then the i-th record is the i-th row converted.
   */
  lemma {:induction false} ConvertAllRows(rows: seq<Dict>, iso: Timestamp -> string)
    ensures var (records, error) := ConvertAll(rows, iso);
            && (records.Some? <==> forall i :: 0 <= i < |rows| ==> ConvertRow(rows[i], iso).Converted?)
            && (records.Some? <==> error.None?)
            && (records.Some? ==>
                  && |records.value| == |rows|
                  && forall i :: 0 <= i < |rows| ==> records.value[i] == ConvertRow(rows[i], iso).row)
  {
    if rows != [] {
      var front := rows[..|rows| - 1];
      ConvertAllRows(front, iso);
      assert forall i :: 0 <= i < |front| ==> front[i] == rows[i];
    }
  }

  /** Once the loop has raised on a prefix, the whole listing fails with that message. */
  lemma {:induction false} ConvertAllFailureSticks(rows: seq<Dict>, n: nat, iso: Timestamp -> string)
    requires n <= |rows|
    requires ConvertAll(rows[..n], iso).0.None?
    ensures ConvertAll(rows, iso) == ConvertAll(rows[..n], iso)
    decreases |rows| - n
  {
    if n < |rows| {
      assert rows[..n + 1][..n] == rows[..n];
      ConvertAllFailureSticks(rows, n + 1, iso);
    } else {
      assert rows[..n] == rows;
    }
  }

  /** The post-processing loop of `list_records`: copy each row, rewrite its timestamp, append. */
  method PostProcessRows(rows: seq<Dict>, iso: Timestamp -> string)
    returns (records: Option<seq<Dict>>, error: Option<string>)
    ensures (records, error) == ConvertAll(rows, iso)
  {
    var out: seq<Dict> := [];
    var i := 0;
    while i < |rows|
      invariant 0 <= i <= |rows|
      invariant ConvertAll(rows[..i], iso) == (Some(out), None)
    {
      var record := rows[i];
      var stamp := Get(record, "processed_at");
      if Truthy(stamp) {
        if !stamp.Time? {
          records, error := None, Some("'" + TypeName(stamp) + "' object has no attribute 'isoformat'");
          assert rows[..i + 1][..i] == rows[..i];
          ConvertAllFailureSticks(rows, i + 1, iso);
          return;
        }
        record := record["processed_at" := Str(iso(stamp.t))];
      }
      out := out + [record];
      assert rows[..i + 1][..i] == rows[..i];
      i := i + 1;
    }
    assert rows[..i] == rows;
    records, error := Some(out), None;
  }

  // ---------------------------------------------------------------- the handler

  /** The warehouse handler: configuration read once, plus the client it talks through. */
  class BigQueryHandler {
    const projectId: Option<string>
    const datasetId: string
    const tableId: string
    const tableRef: string
    const client: Client

    /** Reads the configuration from `env`; the client is constructed by the caller. */
    constructor (env: map<string, string>, client: Client)
      ensures projectId == (if "GOOGLE_CLOUD_PROJECT" in env then Some(env["GOOGLE_CLOUD_PROJECT"]) else None)
      ensures datasetId == EnvOr(env, "BQ_DATASET_ID", DefaultDataset)
      ensures tableId == EnvOr(env, "BQ_TABLE_ID", DefaultTable)
      ensures tableRef == TableRef(FormattedText(projectId), datasetId, tableId)
      ensures this.client == client
    {
      var project := if "GOOGLE_CLOUD_PROJECT" in env then Some(env["GOOGLE_CLOUD_PROJECT"]) else None;
      var dataset := EnvOr(env, "BQ_DATASET_ID", DefaultDataset);
      var table := EnvOr(env, "BQ_TABLE_ID", DefaultTable);
      projectId, datasetId, tableId := project, dataset, table;
      this.client := client;
      tableRef := FormattedText(project) + "." + dataset + "." + table;
    }

    /**
     * Normalises `record` in place, streams it as one row, and maps the
     * client's reply to `(success, error)`. `now` is the clock reading used
     * when the record has no `processed_at`.
     */
    method InsertRecord(record: Record, reply: InsertReply, now: Timestamp,
                        dumps: Value -> string, iso: Timestamp -> string, show: Value -> string)
      returns (success: bool, error: Option<string>)
      modifies record, client
      ensures record.fields == Normalised(old(record.fields), dumps, iso(now))
      ensures client.inserts == old(client.inserts) + [InsertCall(tableRef, [record.fields])]
      ensures client.queries == old(client.queries)
      ensures (success, error) == InsertResult(reply, show)
    {
      if Get(record.fields, "extracted_data").Obj? {
        record.fields := record.fields["extracted_data" := Str(dumps(record.fields["extracted_data"]))];
      }
      if "processed_at" !in record.fields {
        record.fields := record.fields["processed_at" := Str(iso(now))];
      }
      var errors := client.InsertRowsJson(tableRef, [record.fields], reply);
      match errors
      case InsertRaised(message) =>
        success, error := false, Some(message);
      case Returned(list) =>
        if Truthy(Arr(list)) {
          success, error := false, Some(show(Arr(list)));
        } else {
          success, error := true, None;
        }
    }

    /**
     * Submits the listing query and converts the rows it yields; any
     * exception becomes `(None, message)`. The source's defaults, a limit of
     * 100 and no date filter, are passed explicitly by callers here.
     */
    method ListRecords(limit: int, dateFilter: Option<string>, reply: QueryReply, iso: Timestamp -> string)
      returns (records: Option<seq<Dict>>, error: Option<string>)
      modifies client
      ensures client.queries == old(client.queries) + [ListingQuery(tableRef, limit, dateFilter)]
      ensures client.inserts == old(client.inserts)
      ensures reply.QueryRaised? ==> records == None && error == Some(reply.message)
      ensures reply.Rows? ==> (records, error) == ConvertAll(reply.rows, iso)
    {
      var query := "SELECT * FROM `" + tableRef + "`";
      assert query == QueryHead(tableRef);
      if dateFilter.Some? && dateFilter.value != "" {
        query := query + " WHERE DATE(processed_at) = '" + dateFilter.value + "'";
        assert query == QueryHead(tableRef) + DateClause(dateFilter.value);
      }
      assert query == QueryHead(tableRef) + FilterClause(dateFilter);
      query := query + " ORDER BY processed_at DESC LIMIT " + Decimal.IntToString(limit);
      assert query == QueryHead(tableRef) + FilterClause(dateFilter) + QueryTail(limit);
      var result := client.Query(query, reply);
      match result
      case QueryRaised(message) =>
        records, error := None, Some(message);
      case Rows(rows) =>
        records, error := PostProcessRows(rows, iso);
    }
  }

}
