/**
 * The survey data endpoint (`GET /api/sheets`): the first row of the sheet
 * is the header, every later row is parsed against it, the records that
 * parse are returned in order with their number; a thrown error becomes a
 * 403 or 500 response of one of three kinds.
 */
module SheetsRoute {
  import opened Wrappers
  import opened JsBuiltins
  import opened DataTransform
  import opened GoogleSheets

  /** The `type` field of an error response. */
  datatype ErrorKind = ApiNotEnabled | PermissionDenied | UnknownError

  /** The JSON body of a response, with its status. */
  datatype Response =
    | Ok(data: seq<SurveyRow>, total: nat)
    | NotFound(error: string)
    | Failed(status: int, error: string, message: string, kind: ErrorKind, projectId: Option<string>)

  /** The HTTP status of a response. */
  function Status(r: Response): int {
    match r
    case Ok(_, _) => 200
    case NotFound(_) => 404
    case Failed(status, _, _, _, _) => status
  }

  const NoDataText: string := "No data found"
  const ApiDisabledText: string := "Google Sheets API가 활성화되지 않았습니다"
  const EnableApiText: string :=
    "Google Sheets API를 활성화해야 합니다. 다음 링크를 방문하여 API를 활성화하세요: https://console.developers.google.com/apis/api/sheets.googleapis.com/overview?project="
  const NoPermissionText: string := "스프레드시트 접근 권한이 없습니다"
  const GrantAccessText: string :=
    "서비스 계정 이메일(dashboard-bot@dashboard-study-483108.iam.gserviceaccount.com)에 스프레드시트 읽기 권한을 부여해야 합니다."
  const FetchFailedText: string := "스프레드시트 데이터를 가져오는데 실패했습니다"
  const UnknownErrorText: string := "알 수 없는 오류가 발생했습니다"
  const UnknownProject: string := "unknown"

  // ----- the project id in an error message -----

  /** `project ` followed by a digit starts at position `i` of `s`. */
  predicate ProjectAt(s: string, i: nat) {
    i + 9 <= |s| && s[i..i + 8] == "project " && IsDigit(s[i + 8])
  }

  /** The leftmost match of `project ` and a digit at or after `from`. */
  function FindProject(s: string, from: nat): (r: Option<nat>)
    ensures r.Some? ==> from <= r.value && ProjectAt(s, r.value)
    ensures r.Some? ==> forall j :: from <= j < r.value ==> !ProjectAt(s, j)
    ensures r.None? ==> forall j :: from <= j ==> !ProjectAt(s, j)
    decreases |s| - from
  {
    if from + 9 > |s| then None
    else if ProjectAt(s, from) then Some(from)
    else FindProject(s, from + 1)
  }

  /** The whole run of digits that starts at position `k`. */
  function DigitsAt(s: string, k: nat): (d: string)
    requires k <= |s|
    ensures AllDigits(d) && k + |d| <= |s| && d == s[k..k + |d|]
    ensures k + |d| < |s| ==> !IsDigit(s[k + |d|])
  {
    s[k..][..DigitRunLength(s[k..])]
  }

  /**
   * `message?.match(/project (\d+)/)?.[1] || 'unknown'`: the digits after the
   * leftmost `project `, or "unknown" when there is no message or no match.
   */
  function ProjectId(message: Option<string>): (id: string)
    ensures id == UnknownProject <==> message.None? || forall j :: !ProjectAt(message.value, j)
    ensures id != UnknownProject ==> exists i: nat ::
      && ProjectAt(message.value, i)
      && (forall j :: 0 <= j < i ==> !ProjectAt(message.value, j))
      && id == DigitsAt(message.value, i + 8)
    ensures id != UnknownProject ==> id != [] && AllDigits(id)
  {
    if message.None? then UnknownProject
    else
      match FindProject(message.value, 0)
      case None => UnknownProject
      case Some(i) =>
        var id := DigitsAt(message.value, i + 8);
        assert id[0] == message.value[i + 8];
        assert id[0] != UnknownProject[0];
        id
  }

  // ----- error classification -----

  /** The error is the one the API raises when it is not enabled for the project. */
  predicate AccessNotConfigured(e: ThrownError) {
    e.code == Some(403) && |e.errors| > 0 && e.errors[0].reason == Some("accessNotConfigured")
  }

  /** The catch block: a thrown error becomes a 403 or 500 response of one of three kinds. */
  function ClassifyError(e: ThrownError): (r: Response)
    ensures r.Failed?
    ensures r.kind == ApiNotEnabled <==> AccessNotConfigured(e)
    ensures r.kind == PermissionDenied <==> e.code == Some(403) && !AccessNotConfigured(e)
    ensures r.kind == UnknownError <==> e.code != Some(403)
    ensures Status(r) == 403 <==> e.code == Some(403)
    ensures Status(r) == 500 <==> e.code != Some(403)
    ensures r.projectId.Some? <==> r.kind == ApiNotEnabled
    ensures r.kind == ApiNotEnabled ==>
      r.projectId == Some(ProjectId(e.errors[0].message)) && r.message == EnableApiText + r.projectId.value
    ensures r.kind == UnknownError ==> r.message == if e.isError then e.message else UnknownErrorText
    ensures r.kind == PermissionDenied ==> r.message == GrantAccessText
    ensures r.kind == ApiNotEnabled ==> r.error == ApiDisabledText
    ensures r.kind == PermissionDenied ==> r.error == NoPermissionText
    ensures r.kind == UnknownError ==> r.error == FetchFailedText
  {
    if AccessNotConfigured(e) then
      var projectId := ProjectId(e.errors[0].message);
      Failed(403, ApiDisabledText, EnableApiText + projectId, ApiNotEnabled, Some(projectId))
    else if e.code == Some(403) then
      Failed(403, NoPermissionText, GrantAccessText, PermissionDenied, None)
    else
      Failed(500, FetchFailedText, if e.isError then e.message else UnknownErrorText, UnknownError, None)
  }

  /** The no-data error of the sheet reader is no 404: it carries no code, so it is a 500 with its own message. */
  lemma NoDataIsServerError()
    ensures ClassifyError(NoDataError) == Failed(500, FetchFailedText, NoDataMessage, UnknownError, None)
  {
  }

  // ----- parsing the data rows -----

  /** The results `f` gives for the rows, in row order, skipping the rows it gives none for. */
  function Collect<T>(f: seq<string> -> Option<T>, rows: seq<seq<string>>): (r: seq<T>)
    ensures |r| <= |rows|
  {
    if rows == [] then []
    else
      var last := f(rows[|rows| - 1]);
      Collect(f, rows[..|rows| - 1]) + (if last.Some? then [last.value] else [])
  }

  lemma CollectSnoc<T>(f: seq<string> -> Option<T>, rows: seq<seq<string>>, row: seq<string>)
    ensures Collect(f, rows + [row]) == Collect(f, rows) + (if f(row).Some? then [f(row).value] else [])
  {
    assert (rows + [row])[..|rows|] == rows;
  }

  /** Whatever holds of every result `f` gives holds of every element collected. */
  lemma {:induction false} CollectKeeps<T>(f: seq<string> -> Option<T>, rows: seq<seq<string>>, p: T -> bool)
    requires forall i :: 0 <= i < |rows| && f(rows[i]).Some? ==> p(f(rows[i]).value)
    ensures forall k :: 0 <= k < |Collect(f, rows)| ==> p(Collect(f, rows)[k])
  {
    if rows != [] {
      var n := |rows| - 1;
      assert forall i :: 0 <= i < n ==> rows[..n][i] == rows[i];
      CollectKeeps(f, rows[..n], p);
    }
  }

  /** Every record the endpoint returns is one the row parser produced from some data row. */
  lemma ParsedRowsFromRows(rows: seq<seq<string>>, headers: seq<string>)
    ensures forall k :: 0 <= k < |ParsedRows(rows, headers)| ==>
      exists i :: 0 <= i < |rows| && ParseSurveyRow(rows[i], headers) == Some(ParsedRows(rows, headers)[k])
  {
    var f := Parser(headers);
    var p := (x: SurveyRow) => exists i :: 0 <= i < |rows| && ParseSurveyRow(rows[i], headers) == Some(x);
    forall i | 0 <= i < |rows| && f(rows[i]).Some?
      ensures p(f(rows[i]).value)
    {
      assert ParseSurveyRow(rows[i], headers) == Some(f(rows[i]).value);
    }
    CollectKeeps(f, rows, p);
    var r := Collect(f, rows);
    assert ParsedRows(rows, headers) == r;
    forall k | 0 <= k < |r|
      ensures exists i :: 0 <= i < |rows| && ParseSurveyRow(rows[i], headers) == Some(r[k])
    {
      assert p(r[k]);
    }
  }

  /** `f` rejects exactly the rows shorter than `width`. */
  ghost predicate RejectsShort<T>(f: seq<string> -> Option<T>, rows: seq<seq<string>>, width: nat) {
    forall i :: 0 <= i < |rows| ==> (f(rows[i]).Some? <==> |rows[i]| >= width)
  }

  lemma {:induction false} CollectLength<T>(f: seq<string> -> Option<T>, rows: seq<seq<string>>, width: nat)
    requires RejectsShort(f, rows, width)
    ensures |Collect(f, rows)| == |rows| <==> forall i :: 0 <= i < |rows| ==> |rows[i]| >= width
  {
    if rows != [] {
      var n := |rows| - 1;
      assert forall i :: 0 <= i < n ==> rows[..n][i] == rows[i];
      CollectLength(f, rows[..n], width);
    }
  }

  lemma {:induction false} CollectAppend<T>(f: seq<string> -> Option<T>, a: seq<seq<string>>, b: seq<seq<string>>)
    ensures Collect(f, a + b) == Collect(f, a) + Collect(f, b)
  {
    if b == [] {
      assert a + b == a;
    } else {
      var n := |b| - 1;
      var init, last := b[..n], b[n];
      var t := if f(last).Some? then [f(last).value] else [];
      CollectAppend(f, a, init);
      assert a + b == (a + init) + [last];
      assert b == init + [last];
      CollectSnoc(f, a + init, last);
      CollectSnoc(f, init, last);
      assert Collect(f, a + b) == (Collect(f, a) + Collect(f, init)) + t;
    }
  }

  /** The rows at least as long as the header row, in order. */
  function LongRows(rows: seq<seq<string>>, width: nat): (r: seq<seq<string>>)
    ensures |r| <= |rows|
    ensures forall i :: 0 <= i < |r| ==> |r[i]| >= width
  {
    if rows == [] then []
    else LongRows(rows[..|rows| - 1], width) + (if |rows[|rows| - 1]| >= width then [rows[|rows| - 1]] else [])
  }

  lemma {:induction false} CollectSkipsShort<T>(f: seq<string> -> Option<T>, rows: seq<seq<string>>, width: nat)
    requires RejectsShort(f, rows, width)
    ensures Collect(f, rows) == Collect(f, LongRows(rows, width))
  {
    if rows != [] {
      var n := |rows| - 1;
      var long := LongRows(rows[..n], width);
      assert forall i :: 0 <= i < n ==> rows[..n][i] == rows[i];
      CollectSkipsShort(f, rows[..n], width);
      assert rows == rows[..n] + [rows[n]];
      CollectSnoc(f, rows[..n], rows[n]);
      if |rows[n]| >= width {
        CollectSnoc(f, long, rows[n]);
      } else {
        assert long + [] == long;
      }
    }
  }

  lemma {:induction false} CollectSameResults<T>(f: seq<string> -> Option<T>, g: seq<string> -> Option<T>, rows: seq<seq<string>>)
    requires forall i :: 0 <= i < |rows| ==> f(rows[i]) == g(rows[i])
    ensures Collect(f, rows) == Collect(g, rows)
  {
    if rows != [] {
      var n := |rows| - 1;
      assert forall i :: 0 <= i < n ==> rows[..n][i] == rows[i];
      CollectSameResults(f, g, rows[..n]);
    }
  }

  /** `row => parseSurveyRow(row, headers)`. */
  function Parser(headers: seq<string>): seq<string> -> Option<SurveyRow> {
    row => ParseSurveyRow(row, headers)
  }

  /** The records of the rows that parse against `headers`, in row order. */
  function ParsedRows(rows: seq<seq<string>>, headers: seq<string>): (r: seq<SurveyRow>)
    ensures |r| <= |rows|
  {
    Collect(Parser(headers), rows)
  }

  /** Every data row yields a record exactly when none is shorter than the header row. */
  lemma ParsedRowsLength(rows: seq<seq<string>>, headers: seq<string>)
    ensures |ParsedRows(rows, headers)| == |rows| <==> forall i :: 0 <= i < |rows| ==> |rows[i]| >= |headers|
  {
    CollectLength(Parser(headers), rows, |headers|);
  }

  /** Parsing rows in two batches gives the records of both, in order. */
  lemma ParsedRowsAppend(a: seq<seq<string>>, b: seq<seq<string>>, headers: seq<string>)
    ensures ParsedRows(a + b, headers) == ParsedRows(a, headers) + ParsedRows(b, headers)
  {
    CollectAppend(Parser(headers), a, b);
  }

  /**
   * Rows shorter than the header row contribute nothing: the records are
   * those of the long rows, one per long row.
   */
  lemma ParsedRowsAreLongRows(rows: seq<seq<string>>, headers: seq<string>)
    ensures ParsedRows(rows, headers) == ParsedRows(LongRows(rows, |headers|), headers)
    ensures |ParsedRows(rows, headers)| == |LongRows(rows, |headers|)|
  {
    CollectSkipsShort(Parser(headers), rows, |headers|);
    CollectLength(Parser(headers), LongRows(rows, |headers|), |headers|);
  }

  /** Only the length of the header row matters, not its text. */
  lemma HeaderTextIrrelevant(rows: seq<seq<string>>, h1: seq<string>, h2: seq<string>)
    requires |h1| == |h2|
    ensures ParsedRows(rows, h1) == ParsedRows(rows, h2)
  {
    CollectSameResults(Parser(h1), Parser(h2), rows);
  }

  /** The parse-and-collect loop: each data row's record is appended when the row parses. */
  method CollectSurveyData(dataRows: seq<seq<string>>, headers: seq<string>) returns (surveyData: seq<SurveyRow>)
    ensures surveyData == ParsedRows(dataRows, headers)
  {
    surveyData := [];
    for i := 0 to |dataRows|
      invariant surveyData == ParsedRows(dataRows[..i], headers)
    {
      assert dataRows[..i + 1] == dataRows[..i] + [dataRows[i]];
      CollectSnoc(Parser(headers), dataRows[..i], dataRows[i]);
      var parsed := ParseSurveyRow(dataRows[i], headers);
      if parsed.Some? {
        surveyData := surveyData + [parsed.value];
      }
    }
    assert dataRows[..|dataRows|] == dataRows;
  }

  /**
   * `GET`, given what the sheet reader returned or threw: no rows is a 404,
   * otherwise row 0 is the header and the remaining rows are parsed; a
   * thrown error is classified.
   */
  method Get(fetched: Result<seq<seq<string>>, ThrownError>) returns (resp: Response)
    ensures fetched.Failure? ==> resp == ClassifyError(fetched.error)
    ensures fetched.Success? && fetched.value == [] ==> resp == NotFound(NoDataText)
    ensures fetched.Success? && fetched.value != [] ==>
      resp == Ok(ParsedRows(fetched.value[1..], fetched.value[0]), |ParsedRows(fetched.value[1..], fetched.value[0])|)
    ensures resp.Ok? ==> resp.total == |resp.data|
  {
    match fetched
    case Failure(e) =>
      resp := ClassifyError(e);
    case Success(rows) =>
      if rows == [] {
        resp := NotFound(NoDataText);
      } else {
        var headers := rows[0];
        var dataRows := rows[1..];
        var surveyData := CollectSurveyData(dataRows, headers);
        resp := Ok(surveyData, |surveyData|);
      }
  }

  /**
   * The endpoint never answers 404 when fed by the sheet reader: an empty
   * read is already an error there, which the endpoint turns into a 500.
   */
  lemma EmptySheetIsNotNotFound(
    metadata: Result<seq<Sheet>, ThrownError>,
    gid: string,
    readValues: string -> Result<Option<seq<seq<string>>>, ThrownError>)
    ensures var fetched := GetSpreadsheetData(metadata, gid, readValues);
      && !(fetched.Success? && fetched.value == [])
      && (fetched == Failure(NoDataError) ==> Status(ClassifyError(fetched.error)) == 500)
  {
  }
}
