/**
 * The decision part of reading the survey spreadsheet: which sheet's title
 * to read (the sheet whose id is the configured gid, else the first sheet,
 * else "Sheet1"), the cell range asked for, and the rule that an empty read
 * is an error. The two API calls themselves are inputs.
 */
module GoogleSheets {
  import opened Wrappers
  import opened JsBuiltins

  /** The name used when no sheet offers a title. */
  const DefaultSheetName: string := "Sheet1"

  /** The message of the error raised for a missing or empty value range. */
  const NoDataMessage: string := "No data found in spreadsheet"

  /**
   * One entry of the spreadsheet's `sheets` list, as far as the name lookup
   * reads it; an entry without `properties` has neither field.
   */
  datatype Sheet = Sheet(sheetId: Option<int>, title: Option<string>)

  /** One item of an API error's `errors` list. */
  datatype ErrorItem = ErrorItem(reason: Option<string>, message: Option<string>)

  /**
   * A thrown value as the data endpoint inspects it: its numeric `code`
   * (absent on plain errors), its `errors` list (empty when absent), whether
   * it is an `Error` instance, and its `message`.
   */
  datatype ThrownError = ThrownError(code: Option<int>, errors: seq<ErrorItem>, isError: bool, message: string)

  /** The error raised when the value range is missing or empty: a plain `Error`, with no code. */
  const NoDataError: ThrownError := ThrownError(None, [], true, NoDataMessage)

  /** `s.properties?.sheetId === targetSheetId`: strict equality, which NaN never satisfies. */
  predicate IdMatches(s: Sheet, target: Num) {
    target.Int? && s.sheetId == Some(target.value)
  }

  /** `sheet?.properties?.title` is truthy: present and not the empty text. */
  predicate HasTitle(s: Sheet) {
    s.title.Some? && s.title.value != ""
  }

  /** Sheet `i` is the one `find` returns: the first whose id matches. */
  ghost predicate FirstMatch(sheets: seq<Sheet>, target: Num, i: int) {
    0 <= i < |sheets| && IdMatches(sheets[i], target) && forall j :: 0 <= j < i ==> !IdMatches(sheets[j], target)
  }

  /** `sheets.find(s => s.properties?.sheetId === targetSheetId)`, as an index. */
  function FindSheet(sheets: seq<Sheet>, target: Num, from: nat): (r: Option<nat>)
    requires from <= |sheets|
    requires forall j :: 0 <= j < from ==> !IdMatches(sheets[j], target)
    ensures r.Some? <==> exists i :: FirstMatch(sheets, target, i)
    ensures r.Some? ==> FirstMatch(sheets, target, r.value)
    decreases |sheets| - from
  {
    if from == |sheets| then None
    else if IdMatches(sheets[from], target) then
      assert FirstMatch(sheets, target, from);
      Some(from)
    else FindSheet(sheets, target, from + 1)
  }

  /** The first matching sheet has a title. */
  ghost predicate MatchHasTitle(sheets: seq<Sheet>, target: Num) {
    exists i :: FirstMatch(sheets, target, i) && HasTitle(sheets[i])
  }

  /**
   * The sheet-name rule: the title of the sheet whose id is `parseInt(gid, 10)`,
   * else the first sheet's title, else "Sheet1".
   */
  function ResolveSheetName(sheets: seq<Sheet>, gid: string): (name: string)
    ensures name != ""
    ensures forall i :: FirstMatch(sheets, ParseInt(gid), i) && HasTitle(sheets[i]) ==> name == sheets[i].title.value
    ensures !MatchHasTitle(sheets, ParseInt(gid)) && sheets != [] && HasTitle(sheets[0]) ==> name == sheets[0].title.value
    ensures !MatchHasTitle(sheets, ParseInt(gid)) && !(sheets != [] && HasTitle(sheets[0])) ==> name == DefaultSheetName
  {
    var target := ParseInt(gid);
    var found := FindSheet(sheets, target, 0);
    if found.Some? && HasTitle(sheets[found.value]) then sheets[found.value].title.value
    else if sheets != [] && HasTitle(sheets[0]) then sheets[0].title.value
    else DefaultSheetName
  }

  /** Whatever the gid, the name read is "Sheet1" or the title of one of the sheets. */
  lemma SheetNameOrigin(sheets: seq<Sheet>, gid: string)
    ensures var name := ResolveSheetName(sheets, gid);
      name == DefaultSheetName || exists i :: 0 <= i < |sheets| && sheets[i].title == Some(name)
  {
    var target := ParseInt(gid);
    if MatchHasTitle(sheets, target) {
      var i :| FirstMatch(sheets, target, i) && HasTitle(sheets[i]);
      assert sheets[i].title == Some(ResolveSheetName(sheets, gid));
    }
  }

  /** A gid that is not a number matches no sheet, so only the fallback rule decides the name. */
  lemma NonNumericGidFallsBack(sheets: seq<Sheet>, gid: string)
    requires ParseInt(gid) == NaN
    ensures ResolveSheetName(sheets, gid) ==
      if sheets != [] && HasTitle(sheets[0]) then sheets[0].title.value else DefaultSheetName
  {
    assert !MatchHasTitle(sheets, ParseInt(gid));
  }

  /** `${sheetName}!A:Z`: columns A to Z of the named sheet. */
  function SheetRange(name: string): (range: string)
    ensures StartsWith(range, name)
    ensures range[|name|..] == "!A:Z"
  {
    name + "!A:Z"
  }

  /** The sheet name can be read back from the range when it has no '!' of its own. */
  lemma SheetRangeSplits(name: string)
    requires '!' !in name
    ensures Split(SheetRange(name), '!') == [name, "A:Z"]
  {
    var parts := [name, "A:Z"];
    assert Join(parts[1..], '!') == "A:Z";
    assert Join(parts, '!') == SheetRange(name);
    SplitJoin(parts, '!');
  }

  /** The empty-result check: missing or empty values become the no-data error. */
  function CheckValues(values: Option<seq<seq<string>>>): (r: Result<seq<seq<string>>, ThrownError>)
    ensures r.Success? <==> values.Some? && values.value != []
    ensures r.Success? ==> r.value == values.value
    ensures r.Failure? ==> r.error == NoDataError
  {
    if values.None? || values.value == [] then Failure(NoDataError) else Success(values.value)
  }

  /**
   * `getSpreadsheetData`, with the two API calls as inputs: the spreadsheet
   * metadata (or the error it raised) and the value read for a range (or
   * the error it raised). Errors are rethrown unchanged.
   */
  function GetSpreadsheetData(
    metadata: Result<seq<Sheet>, ThrownError>,
    gid: string,
    readValues: string -> Result<Option<seq<seq<string>>>, ThrownError>)
    : (r: Result<seq<seq<string>>, ThrownError>)
    ensures metadata.Failure? ==> r == Failure(metadata.error)
    ensures r.Success? ==> r.value != []
    ensures r.Success? ==>
      metadata.Success? && readValues(SheetRange(ResolveSheetName(metadata.value, gid))) == Success(Some(r.value))
    ensures metadata.Success? ==>
      match readValues(SheetRange(ResolveSheetName(metadata.value, gid)))
      case Failure(e) => r == Failure(e)
      case Success(values) => r == CheckValues(values)
  {
    match metadata
    case Failure(e) => Failure(e)
    case Success(sheets) =>
      match readValues(SheetRange(ResolveSheetName(sheets, gid)))
      case Failure(e) => Failure(e)
      case Success(values) => CheckValues(values)
  }
}
