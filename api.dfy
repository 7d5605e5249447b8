/**
 * The filtering and export logic of bdapi/main.py: the filter documents that
 * `get_robot_event`, `get_export_robot_event` and
 * `get_export_robot_event_by_username` build from their query parameters, the
 * format and date validation, the projection of the found documents and the
 * CSV rows. The database is the in-memory `collection`; `fromIso` stands for
 * `datetime.fromisoformat` (None where it raises ValueError).
 */
module Api {
  import opened Wrappers
  import opened Strings
  import opened Mongo

  /** The optional query parameters shared by the list and export endpoints. */
  datatype Params = Params(robot: Option<string>, status: Option<string>, description: Option<string>,
                           dateFrom: Option<string>, dateTo: Option<string>)

  /** Python truthiness of an `Optional[str]`: present and not empty. */
  predicate Given(p: Option<string>) {
    p.Some? && p.value != ""
  }

  /** `HTTPException(status_code, detail)`, answered as JSON `{"detail": ...}`. */
  datatype HttpException = HttpException(statusCode: nat, detail: string)

  const FormatError: HttpException := HttpException(400, "Format must be 'json' or 'csv'")
  const DateFromError: HttpException := HttpException(400, "Invalid dateFrom format. Use YYYY-MM-DD")
  const DateToError: HttpException := HttpException(400, "Invalid dateTo format. Use YYYY-MM-DD")

  /** An entry of the list endpoint's answer. */
  datatype Listed = Listed(id: string, robot: string, status: string, description: string, createdAt: int)

  /** An entry of the export endpoints: the four projected fields, without `_id`. */
  datatype Exported = Exported(robot: string, status: string, description: string, createdAt: int)

  /** One CSV cell before `csv.writer` renders and quotes it. */
  datatype Cell = Text(s: string) | Timestamp(t: int)

  /** What an export endpoint answers. */
  datatype Reply =
    | JsonList(events: seq<Exported>)
    | CsvFile(rows: seq<seq<Cell>>, filename: string)
    | Raised(error: HttpException)
    | PlainText(statusCode: nat, content: string)

  // ---------------------------------------------------------------------------
  // Filter documents

  /** The conditions on robot, status and description, as both endpoints build them. */
  function TextFilters(q: Params): Query {
    (if Given(q.robot) then map["robot" := Equals(Str(q.robot.value))] else map[])
    + (if Given(q.status) then map["status" := Equals(Str(q.status.value))] else map[])
    + (if Given(q.description) then map["description" := Regex(q.description.value, "i")] else map[])
  }

  /**
   * The filter document of `get_robot_event`. The dates are kept as raw strings,
   * and a given `dateTo` replaces the whole `createdAt` entry, so `dateFrom` is
   * dropped when both are given.
   */
  function ListFilter(q: Params): Query {
    TextFilters(q) +
    (if Given(q.dateTo) then map["createdAt" := Range(map["$lt" := Str(q.dateTo.value)])]
     else if Given(q.dateFrom) then map["createdAt" := Range(map["$gte" := Str(q.dateFrom.value)])]
     else map[])
  }

  /** The first three `filters.update(...)` calls, the same in every endpoint that filters. */
  method BuildTextFilters(q: Params) returns (filters: Query)
    ensures filters == TextFilters(q)
  {
    filters := map[];
    if Given(q.robot) {
      filters := filters["robot" := Equals(Str(q.robot.value))];
    }
    if Given(q.status) {
      filters := filters["status" := Equals(Str(q.status.value))];
    }
    if Given(q.description) {
      filters := filters["description" := Regex(q.description.value, "i")];
    }
  }

  /** `get_robot_event`'s successive `filters.update(...)` calls. */
  method BuildListFilter(q: Params) returns (filters: Query)
    ensures filters == ListFilter(q)
  {
    filters := BuildTextFilters(q);
    if Given(q.dateFrom) {
      filters := filters["createdAt" := Range(map["$gte" := Str(q.dateFrom.value)])];
    }
    if Given(q.dateTo) {
      filters := filters["createdAt" := Range(map["$lt" := Str(q.dateTo.value)])];
    }
  }

  /** The reference meaning of the robot, status and description parameters. */
  predicate TextOk(q: Params, d: Doc) {
    && (Given(q.robot) ==> d.robot == q.robot.value)
    && (Given(q.status) ==> d.status == q.status.value)
    && (Given(q.description) ==> Contains(Lower(d.description), Lower(q.description.value)))
  }

  lemma TextFiltersMeaning(q: Params, d: Doc)
    ensures Matches(TextFilters(q), d) <==> TextOk(q, d)
    ensures "createdAt" !in TextFilters(q)
  {
    var t := TextFilters(q);
    if Given(q.robot) { assert "robot" in t; }
    if Given(q.status) { assert "status" in t; }
    if Given(q.description) { assert "description" in t; }
  }

  /**
   * What the list endpoint selects: exact robot and status, case-insensitive
   * description, and nothing at all once a date is given, because the date
   * bounds are strings and `createdAt` is a date.
   */
  lemma ListFilterMeaning(q: Params, d: Doc)
    ensures Matches(ListFilter(q), d) <==> TextOk(q, d) && !Given(q.dateFrom) && !Given(q.dateTo)
  {
    TextFiltersMeaning(q, d);
    var f := ListFilter(q);
    if Given(q.dateTo) {
      assert "createdAt" in f && f["createdAt"].ops == map["$lt" := Str(q.dateTo.value)];
      assert !CondHolds(f["createdAt"], FieldValue(d, "createdAt")) by {
        assert "$lt" in f["createdAt"].ops;
      }
    } else if Given(q.dateFrom) {
      assert "createdAt" in f && f["createdAt"].ops == map["$gte" := Str(q.dateFrom.value)];
      assert !CondHolds(f["createdAt"], FieldValue(d, "createdAt")) by {
        assert "$gte" in f["createdAt"].ops;
      }
    } else {
      assert f == TextFilters(q);
    }
  }

  /** Any date parameter empties the list endpoint's answer. */
  lemma ListDatesMatchNothing(q: Params, collection: seq<Doc>)
    requires Given(q.dateFrom) || Given(q.dateTo)
    ensures Find(ListFilter(q), collection) == []
  {
    forall d ensures !Matches(ListFilter(q), d) {
      ListFilterMeaning(q, d);
    }
    FindNone(ListFilter(q), collection);
  }

  /** With `dateFrom` and `dateTo` both given, only the `$lt` bound survives. */
  lemma ListDateToReplacesDateFrom(q: Params)
    requires Given(q.dateFrom) && Given(q.dateTo)
    ensures ListFilter(q)["createdAt"] == Range(map["$lt" := Str(q.dateTo.value)])
    ensures "$gte" !in ListFilter(q)["createdAt"].ops
  {
  }

  /** The date bounds parsed when the parameter is given. */
  function ParsedDate(p: Option<string>, fromIso: string -> Option<int>): Option<int> {
    if Given(p) then fromIso(p.value) else None
  }

  /**
   * The `createdAt` entry of the export endpoints: both dates give
   * `{$gte: from, $lt: to}`, a lone `dateFrom` gives `{$gte: from}`, and a lone
   * `dateTo` also gives `{$gte: to}`.
   */
  function CreatedAtRange(from: Option<int>, to: Option<int>): Query {
    match (from, to)
    case (Some(f), Some(t)) => map["createdAt" := Range(map["$gte" := Date(f), "$lt" := Date(t)])]
    case (Some(f), None) => map["createdAt" := Range(map["$gte" := Date(f)])]
    case (None, Some(t)) => map["createdAt" := Range(map["$gte" := Date(t)])]
    case (None, None) => map[]
  }

  /** The filter document of the export endpoints, or the 400 error a date raises. */
  function ExportFilter(q: Params, fromIso: string -> Option<int>): (r: Result<Query, HttpException>)
    ensures r.Failure? <==>
              (Given(q.dateFrom) && fromIso(q.dateFrom.value).None?) ||
              (Given(q.dateTo) && fromIso(q.dateTo.value).None?)
    ensures Given(q.dateFrom) && fromIso(q.dateFrom.value).None? ==> r == Failure(DateFromError)
    ensures r.Failure? && !(Given(q.dateFrom) && fromIso(q.dateFrom.value).None?) ==> r == Failure(DateToError)
  {
    var from := ParsedDate(q.dateFrom, fromIso);
    var to := ParsedDate(q.dateTo, fromIso);
    if Given(q.dateFrom) && from.None? then Failure(DateFromError)
    else if Given(q.dateTo) && to.None? then Failure(DateToError)
    else Success(TextFilters(q) + CreatedAtRange(from, to))
  }

  /**
   * The export endpoints' successive updates, including the in-place write
   * `filters["createdAt"]["$lt"] = ...` when `dateFrom` already set the entry.
   */
  method BuildExportFilter(q: Params, fromIso: string -> Option<int>) returns (r: Result<Query, HttpException>)
    ensures r == ExportFilter(q, fromIso)
  {
    var filters := BuildTextFilters(q);
    ghost var text := filters;
    assert "createdAt" !in text;
    if Given(q.dateFrom) {
      var parsed := fromIso(q.dateFrom.value);
      if parsed.None? {
        return Failure(DateFromError);
      }
      UpdateIsUnion(text, map[], "createdAt", Range(map["$gte" := Date(parsed.value)]));
      filters := filters["createdAt" := Range(map["$gte" := Date(parsed.value)])];
    }
    ghost var from := ParsedDate(q.dateFrom, fromIso);
    assert filters == text + CreatedAtRange(from, None);
    if Given(q.dateTo) {
      var parsed := fromIso(q.dateTo.value);
      if parsed.None? {
        return Failure(DateToError);
      }
      if "createdAt" !in filters {
        assert from.None?;
        UpdateIsUnion(text, map[], "createdAt", Range(map["$gte" := Date(parsed.value)]));
        filters := filters["createdAt" := Range(map["$gte" := Date(parsed.value)])];
      } else {
        assert from.Some?;
        var existing := filters["createdAt"];
        assert existing == Range(map["$gte" := Date(from.value)]);
        var merged := Range(existing.ops["$lt" := Date(parsed.value)]);
        assert merged == Range(map["$gte" := Date(from.value), "$lt" := Date(parsed.value)]);
        UpdateIsUnion(text, CreatedAtRange(from, None), "createdAt", merged);
        filters := filters["createdAt" := merged];
      }
      assert filters == text + CreatedAtRange(from, Some(parsed.value));
    }
    return Success(filters);
  }

  lemma UpdateIsUnion(t: Query, m: Query, k: string, c: Cond)
    ensures (t + m)[k := c] == t + m[k := c]
  {
  }

  /**
   * What the export endpoints select: the same text conditions as the list
   * endpoint, `createdAt >= dateFrom`, `createdAt < dateTo` when both dates are
   * given, and `createdAt >= dateTo` when `dateTo` comes alone.
   */
  lemma ExportFilterMeaning(q: Params, fromIso: string -> Option<int>, d: Doc)
    requires ExportFilter(q, fromIso).Success?
    ensures Matches(ExportFilter(q, fromIso).value, d) <==>
              && TextOk(q, d)
              && (Given(q.dateFrom) ==> d.createdAt >= fromIso(q.dateFrom.value).value)
              && (Given(q.dateFrom) && Given(q.dateTo) ==> d.createdAt < fromIso(q.dateTo.value).value)
              && (!Given(q.dateFrom) && Given(q.dateTo) ==> d.createdAt >= fromIso(q.dateTo.value).value)
  {
    TextFiltersMeaning(q, d);
    var from := ParsedDate(q.dateFrom, fromIso);
    var to := ParsedDate(q.dateTo, fromIso);
    var dates := CreatedAtRange(from, to);
    MatchesUnion(TextFilters(q), dates, d);
    var t := d.createdAt;
    match (from, to) {
      case (Some(lo), Some(hi)) =>
        var ops := map["$gte" := Date(lo), "$lt" := Date(hi)];
        MatchesSingle("createdAt", Range(ops), d);
        assert "$gte" in ops && "$lt" in ops;
        assert CondHolds(Range(ops), Some(Date(t))) <==> t >= lo && t < hi;
      case (Some(lo), None) =>
        var ops := map["$gte" := Date(lo)];
        MatchesSingle("createdAt", Range(ops), d);
        assert "$gte" in ops;
      case (None, Some(hi)) =>
        var ops := map["$gte" := Date(hi)];
        MatchesSingle("createdAt", Range(ops), d);
        assert "$gte" in ops;
      case (None, None) =>
    }
  }

  /** `{"robot": {"$in": robots}}`, the by-username endpoints' query. */
  function OwnedBy(robots: seq<string>): Query {
    map["robot" := In(robots)]
  }

  lemma OwnedByMeaning(robots: seq<string>, d: Doc)
    ensures Matches(OwnedBy(robots), d) <==> d.robot in robots
  {
    MatchesSingle("robot", In(robots), d);
  }

  /**
   * With no parameters the export filter is empty and selects the whole
   * collection: the by-username JSON branch is not limited to the user's robots.
   */
  lemma NoParamsExportsAll(collection: seq<Doc>, fromIso: string -> Option<int>)
    ensures ExportFilter(Params(None, None, None, None, None), fromIso) == Success(map[])
    ensures Find(map[], collection) == collection
  {
    FindAll(collection);
  }

  // ---------------------------------------------------------------------------
  // Projection and CSV

  function ToListed(d: Doc): Listed {
    Listed(d.id, d.robot, d.status, d.description, d.createdAt)
  }

  function ToExported(d: Doc): Exported {
    Exported(d.robot, d.status, d.description, d.createdAt)
  }

  function ListedAll(docs: seq<Doc>): (r: seq<Listed>)
    ensures |r| == |docs|
  {
    seq(|docs|, i requires 0 <= i < |docs| => ToListed(docs[i]))
  }

  function ExportedAll(docs: seq<Doc>): (r: seq<Exported>)
    ensures |r| == |docs|
  {
    seq(|docs|, i requires 0 <= i < |docs| => ToExported(docs[i]))
  }

  const CsvHeader: seq<Cell> := [Text("Robot"), Text("Status"), Text("Description"), Text("Created At")]

  function CsvRow(e: Exported): seq<Cell> {
    [Text(e.robot), Text(e.status), Text(e.description), Timestamp(e.createdAt)]
  }

  /** The rows written to the CSV: the header, then one row per event, in order. */
  function CsvTable(events: seq<Exported>): (rows: seq<seq<Cell>>)
    ensures |rows| == |events| + 1
  {
    [CsvHeader] + seq(|events|, i requires 0 <= i < |events| => CsvRow(events[i]))
  }

  /** Reads one data row back; None for a row of another shape. */
  function ReadRow(row: seq<Cell>): Option<Exported> {
    if |row| == 4 && row[0].Text? && row[1].Text? && row[2].Text? && row[3].Timestamp?
    then Some(Exported(row[0].s, row[1].s, row[2].s, row[3].t))
    else None
  }

  function ReadRows(rows: seq<seq<Cell>>): Option<seq<Exported>>
    decreases |rows|
  {
    if |rows| == 0 then Some([])
    else
      match (ReadRow(rows[0]), ReadRows(rows[1..]))
      case (Some(e), Some(es)) => Some([e] + es)
      case _ => None
  }

  /** Reads a whole CSV table back: the header, then the data rows. */
  function ReadCsv(rows: seq<seq<Cell>>): Option<seq<Exported>> {
    if |rows| > 0 && rows[0] == CsvHeader then ReadRows(rows[1..]) else None
  }

  lemma {:induction false} ReadRowsBack(events: seq<Exported>)
    ensures ReadRows(seq(|events|, i requires 0 <= i < |events| => CsvRow(events[i]))) == Some(events)
    decreases |events|
  {
    var rows := seq(|events|, i requires 0 <= i < |events| => CsvRow(events[i]));
    if |events| > 0 {
      ReadRowsBack(events[1..]);
      assert rows[1..] == seq(|events[1..]|, i requires 0 <= i < |events[1..]| => CsvRow(events[1..][i]));
      assert [events[0]] + events[1..] == events;
    }
  }

  /** The CSV table determines the exported events: reading it back gives them again. */
  lemma CsvRoundTrip(events: seq<Exported>)
    ensures ReadCsv(CsvTable(events)) == Some(events)
  {
    var rows := CsvTable(events);
    assert rows[1..] == seq(|events|, i requires 0 <= i < |events| => CsvRow(events[i]));
    ReadRowsBack(events);
  }

  // ---------------------------------------------------------------------------
  // Endpoints

  /** The query parameter `format`, "csv" when absent. */
  function FormatOf(format: Option<string>): string {
    format.GetOr("csv")
  }

  predicate IsExportFormat(format: Option<string>) {
    FormatOf(format) == "json" || FormatOf(format) == "csv"
  }

  /** `get_robot_event`: runs the filter and lists every found document with its `_id`. */
  method GetRobotEvent(collection: seq<Doc>, q: Params) returns (events: seq<Listed>)
    ensures events == ListedAll(Find(ListFilter(q), collection))
  {
    var filters := BuildListFilter(q);
    var cursor := Find(filters, collection);
    events := [];
    var i := 0;
    while i < |cursor|
      invariant 0 <= i <= |cursor|
      invariant |events| == i
      invariant forall j :: 0 <= j < i ==> events[j] == ToListed(cursor[j])
    {
      events := events + [ToListed(cursor[i])];
      i := i + 1;
    }
  }

  /** The loop that projects every found document to the four exported fields. */
  method CollectExported(cursor: seq<Doc>) returns (events: seq<Exported>)
    ensures events == ExportedAll(cursor)
  {
    events := [];
    var i := 0;
    while i < |cursor|
      invariant 0 <= i <= |cursor|
      invariant |events| == i
      invariant forall j :: 0 <= j < i ==> events[j] == ToExported(cursor[j])
    {
      events := events + [ToExported(cursor[i])];
      i := i + 1;
    }
  }

  /** The header row, then one `writerow` per event. */
  method WriteCsv(events: seq<Exported>) returns (rows: seq<seq<Cell>>)
    ensures rows == CsvTable(events)
  {
    rows := [CsvHeader];
    var i := 0;
    while i < |events|
      invariant 0 <= i <= |events|
      invariant |rows| == i + 1 && rows[0] == CsvHeader
      invariant forall j :: 0 <= j < i ==> rows[j + 1] == CsvRow(events[j])
    {
      rows := rows + [CsvRow(events[i])];
      i := i + 1;
    }
  }

  /** The header row, then one `writerow` per document of a cursor. */
  method WriteCsvFromCursor(cursor: seq<Doc>) returns (rows: seq<seq<Cell>>)
    ensures rows == CsvTable(ExportedAll(cursor))
  {
    rows := [CsvHeader];
    var i := 0;
    while i < |cursor|
      invariant 0 <= i <= |cursor|
      invariant |rows| == i + 1 && rows[0] == CsvHeader
      invariant forall j :: 0 <= j < i ==> rows[j + 1] == CsvRow(ToExported(cursor[j]))
    {
      rows := rows + [CsvRow(ToExported(cursor[i]))];
      i := i + 1;
    }
  }

  /** `get_export_robot_event`. */
  method GetExportRobotEvent(collection: seq<Doc>, q: Params, format: Option<string>,
                             fromIso: string -> Option<int>) returns (reply: Reply)
    ensures !IsExportFormat(format) ==> reply == Raised(FormatError)
    ensures IsExportFormat(format) && ExportFilter(q, fromIso).Failure? ==>
              reply == Raised(ExportFilter(q, fromIso).error)
    ensures IsExportFormat(format) && ExportFilter(q, fromIso).Success? ==>
              var events := ExportedAll(Find(ExportFilter(q, fromIso).value, collection));
              reply == if FormatOf(format) == "json" then JsonList(events)
                       else CsvFile(CsvTable(events), "robot_events.csv")
  {
    if !IsExportFormat(format) {
      return Raised(FormatError);
    }
    var built := BuildExportFilter(q, fromIso);
    if built.Failure? {
      return Raised(built.error);
    }
    var events := CollectExported(Find(built.value, collection));
    if FormatOf(format) == "json" {
      return JsonList(events);
    }
    var rows := WriteCsv(events);
    return CsvFile(rows, "robot_events.csv");
  }

  /**
   * `get_export_robot_event_by_username`. The format is checked before the
   * user is looked up, and the user before the dates. The JSON branch answers
   * the filtered events of every robot; the CSV branch ignores the filters and
   * writes every event of the user's robots.
   */
  method GetExportRobotEventByUsername(users: seq<BDUser>, collection: seq<Doc>, username: string,
                                       status: Option<string>, description: Option<string>,
                                       dateFrom: Option<string>, dateTo: Option<string>,
                                       format: Option<string>, fromIso: string -> Option<int>)
    returns (reply: Reply)
    ensures !IsExportFormat(format) ==> reply == Raised(FormatError)
    ensures IsExportFormat(format) && FindUser(users, username).None? ==>
              reply == PlainText(404, "User not found")
    ensures var q := Params(None, status, description, dateFrom, dateTo);
            IsExportFormat(format) && FindUser(users, username).Some? && ExportFilter(q, fromIso).Failure? ==>
              reply == Raised(ExportFilter(q, fromIso).error)
    ensures var q := Params(None, status, description, dateFrom, dateTo);
            IsExportFormat(format) && FindUser(users, username).Some? && ExportFilter(q, fromIso).Success? ==>
              reply == if FormatOf(format) == "json"
                       then JsonList(ExportedAll(Find(ExportFilter(q, fromIso).value, collection)))
                       else CsvFile(CsvTable(ExportedAll(Find(OwnedBy(FindUser(users, username).value.robots), collection))),
                                    "robot_events_" + username + ".csv")
  {
    if !IsExportFormat(format) {
      return Raised(FormatError);
    }
    var user := FindUser(users, username);
    if user.None? {
      return PlainText(404, "User not found");
    }
    var robots := user.value.robots;
    var built := BuildExportFilter(Params(None, status, description, dateFrom, dateTo), fromIso);
    if built.Failure? {
      return Raised(built.error);
    }
    var events := CollectExported(Find(built.value, collection));
    if FormatOf(format) == "json" {
      return JsonList(events);
    }
    var rows := WriteCsvFromCursor(Find(OwnedBy(robots), collection));
    return CsvFile(rows, "robot_events_" + username + ".csv");
  }
}
