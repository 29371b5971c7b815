/**
 * Row normalisation: one spreadsheet row (a sequence of cell texts) becomes
 * one survey record, by fixed column position.
 */
module DataTransform {
  import opened Wrappers
  import opened JsBuiltins

  /** The four satisfaction labels the survey form offers, best first. */
  const VerySatisfied: string := "매우 만족"
  const Satisfied: string := "만족"
  const Neutral: string := "보통"
  const Dissatisfied: string := "불만족"

  /** The five satisfaction scores of one response. */
  datatype Satisfaction = Satisfaction(
    staffFriendliness: int,
    productVariety: int,
    cleanliness: int,
    facilities: int,
    parking: int)

  /** One normalised survey response. */
  datatype SurveyRow = SurveyRow(
    timestamp: string,
    gender: string,
    age: string,
    visitFrequency: string,
    visitPurposes: seq<string>,
    satisfaction: Satisfaction,
    mostSatisfied: string,
    needsImprovement: string,
    rating: Num)

  /** Every score lies in the range the label table can produce. */
  predicate ScoresInRange(s: Satisfaction) {
    && 0 <= s.staffFriendliness <= 4
    && 0 <= s.productVariety <= 4
    && 0 <= s.cleanliness <= 4
    && 0 <= s.facilities <= 4
    && 0 <= s.parking <= 4
  }

  /** The label table: 4, 3, 2, 1 for the four labels, 0 for any other text. */
  function SatisfactionToNumber(text: string): (score: int)
    ensures 0 <= score <= 4
    ensures score == 4 <==> text == VerySatisfied
    ensures score == 3 <==> text == Satisfied
    ensures score == 2 <==> text == Neutral
    ensures score == 1 <==> text == Dissatisfied
    ensures score == 0 <==> text !in {VerySatisfied, Satisfied, Neutral, Dissatisfied}
  {
    if text == VerySatisfied then 4
    else if text == Satisfied then 3
    else if text == Neutral then 2
    else if text == Dissatisfied then 1
    else 0
  }

  /** Each piece trimmed, in order. */
  function TrimEach(pieces: seq<string>): (r: seq<string>)
    ensures |r| == |pieces|
    ensures forall i :: 0 <= i < |r| ==> r[i] == Trim(pieces[i])
  {
    if pieces == [] then [] else [Trim(pieces[0])] + TrimEach(pieces[1..])
  }

  /** The non-empty pieces, in order. */
  function DropEmpty(pieces: seq<string>): (r: seq<string>)
    ensures |r| <= |pieces|
    ensures forall i :: 0 <= i < |r| ==> r[i] != [] && r[i] in pieces
  {
    if pieces == [] then []
    else if pieces[0] == [] then DropEmpty(pieces[1..])
    else [pieces[0]] + DropEmpty(pieces[1..])
  }

  /**
   * `idx` picks, in increasing order, the positions of `pieces` whose trimmed
   * text is `r`, and skips only pieces that trim to nothing.
   */
  predicate KeepsNonBlank(pieces: seq<string>, r: seq<string>, idx: seq<nat>) {
    && |idx| == |r|
    && (forall k :: 0 <= k < |idx| ==> idx[k] < |pieces| && r[k] == Trim(pieces[idx[k]]))
    && (forall k, l :: 0 <= k < l < |idx| ==> idx[k] < idx[l])
    && (forall j :: 0 <= j < |pieces| && Trim(pieces[j]) != [] ==> j in idx)
  }

  /** `idx` lists, in increasing order, positions of `pieces` whose texts are `r`, every non-empty piece among them. */
  predicate PicksNonEmpty(pieces: seq<string>, r: seq<string>, idx: seq<nat>) {
    && |idx| == |r|
    && (forall k :: 0 <= k < |idx| ==> idx[k] < |pieces| && r[k] == pieces[idx[k]])
    && (forall k, l :: 0 <= k < l < |idx| ==> idx[k] < idx[l])
    && (forall j :: 0 <= j < |pieces| && pieces[j] != [] ==> j in idx)
  }

  /** The positions `DropEmpty` keeps. */
  lemma {:induction false} DropEmptyPicks(pieces: seq<string>) returns (idx: seq<nat>)
    ensures PicksNonEmpty(pieces, DropEmpty(pieces), idx)
  {
    if pieces == [] {
      return [];
    }
    var tail := DropEmptyPicks(pieces[1..]);
    idx := PicksStep(pieces, tail);
  }

  lemma PicksStep(pieces: seq<string>, tail: seq<nat>) returns (idx: seq<nat>)
    requires pieces != [] && PicksNonEmpty(pieces[1..], DropEmpty(pieces[1..]), tail)
    ensures PicksNonEmpty(pieces, DropEmpty(pieces), idx)
  {
    var rest := DropEmpty(pieces[1..]);
    ShiftedPicks(pieces, rest, tail);
    if pieces[0] == [] {
      idx := Shift(tail);
      assert DropEmpty(pieces) == rest;
      PicksSkip(pieces, rest, idx);
    } else {
      idx := [0] + Shift(tail);
      assert DropEmpty(pieces) == [pieces[0]] + rest;
      PicksKeep(pieces, rest, Shift(tail));
    }
  }

  /** `shifted` picks `rest` from the pieces after the first. */
  predicate PicksAfterFirst(pieces: seq<string>, rest: seq<string>, shifted: seq<nat>) {
    && |shifted| == |rest|
    && (forall k :: 0 <= k < |shifted| ==> 0 < shifted[k] < |pieces| && rest[k] == pieces[shifted[k]])
    && (forall k, l :: 0 <= k < l < |shifted| ==> shifted[k] < shifted[l])
    && (forall j :: 1 <= j < |pieces| && pieces[j] != [] ==> j in shifted)
  }

  lemma PicksSkip(pieces: seq<string>, rest: seq<string>, shifted: seq<nat>)
    requires pieces != [] && pieces[0] == [] && PicksAfterFirst(pieces, rest, shifted)
    ensures PicksNonEmpty(pieces, rest, shifted)
  {
  }

  lemma PicksKeep(pieces: seq<string>, rest: seq<string>, shifted: seq<nat>)
    requires pieces != [] && PicksAfterFirst(pieces, rest, shifted)
    ensures PicksNonEmpty(pieces, [pieces[0]] + rest, [0] + shifted)
  {
    var idx, r := [0] + shifted, [pieces[0]] + rest;
    forall k | 0 < k < |idx| ensures idx[k] < |pieces| && r[k] == pieces[idx[k]] {
      assert idx[k] == shifted[k - 1] && r[k] == rest[k - 1];
    }
    forall k, l | 0 <= k < l < |idx| ensures idx[k] < idx[l] {
      assert idx[l] == shifted[l - 1];
      if k > 0 {
        assert idx[k] == shifted[k - 1];
      }
    }
    forall j | 0 <= j < |pieces| && pieces[j] != [] ensures j in idx {
      if j > 0 {
        assert j in shifted;
      }
    }
  }

  /** Positions picked in the tail, moved one place on, pick the same texts in the whole. */
  lemma ShiftedPicks(pieces: seq<string>, rest: seq<string>, tail: seq<nat>)
    requires pieces != [] && PicksNonEmpty(pieces[1..], rest, tail)
    ensures PicksAfterFirst(pieces, rest, Shift(tail))
  {
    var shifted := Shift(tail);
    forall j | 1 <= j < |pieces| && pieces[j] != [] ensures j in shifted {
      assert pieces[1..][j - 1] == pieces[j];
      var k :| 0 <= k < |tail| && tail[k] == j - 1;
      assert shifted[k] == j;
    }
    forall k | 0 <= k < |shifted| ensures rest[k] == pieces[shifted[k]] {
      assert pieces[1..][tail[k]] == pieces[shifted[k]];
    }
  }

  /** Every position moved one place on. */
  function Shift(idx: seq<nat>): (r: seq<nat>)
    ensures |r| == |idx| && forall k :: 0 <= k < |idx| ==> r[k] == idx[k] + 1
  {
    seq(|idx|, k requires 0 <= k < |idx| => idx[k] + 1)
  }

  /** The purposes are the non-blank comma pieces, trimmed, in their order. */
  lemma KeepsNonBlankPieces(pieces: seq<string>)
    ensures exists idx :: KeepsNonBlank(pieces, DropEmpty(TrimEach(pieces)), idx)
  {
    var idx := DropEmptyPicks(TrimEach(pieces));
    assert KeepsNonBlank(pieces, DropEmpty(TrimEach(pieces)), idx);
  }

  /** Pieces of blank text are blank, so nothing is kept. */
  lemma BlankPieces(purposes: string)
    requires AllWhitespace(purposes)
    ensures KeepsNonBlank(Split(purposes, ','), [], [])
  {
    var pieces := Split(purposes, ',');
    SplitChars(purposes, ',');
    forall j | 0 <= j < |pieces| ensures Trim(pieces[j]) == [] {
      assert AllWhitespace(pieces[j]) by {
        forall k | 0 <= k < |pieces[j]| ensures IsWhitespace(pieces[j][k]) {
          assert pieces[j][k] in pieces[j];
          assert pieces[j][k] in purposes;
          var m :| 0 <= m < |purposes| && purposes[m] == pieces[j][k];
        }
      }
    }
  }

  /** A purpose as the parser hands it out: non-empty, comma-free and trimmed. */
  predicate CleanPurpose(p: string) {
    p != [] && ',' !in p && Trimmed(p)
  }

  /**
   * `parseVisitPurposes`: split on commas, trim each piece, drop the empty
   * ones; a blank field gives no purposes at all.
   */
  function ParseVisitPurposes(purposes: string): (r: seq<string>)
    ensures AllWhitespace(purposes) ==> r == []
    ensures forall i :: 0 <= i < |r| ==> CleanPurpose(r[i])
    ensures |r| <= CountChar(purposes, ',') + 1
    ensures exists idx :: KeepsNonBlank(Split(purposes, ','), r, idx)
  {
    if purposes == "" || Trim(purposes) == "" then
      BlankPieces(purposes);
      []
    else
      var pieces := Split(purposes, ',');
      CleanPieces(pieces);
      KeepsNonBlankPieces(pieces);
      DropEmpty(TrimEach(pieces))
  }

  /** Trimming comma-free pieces and dropping the empty ones leaves clean purposes only. */
  lemma CleanPieces(pieces: seq<string>)
    requires forall i :: 0 <= i < |pieces| ==> ',' !in pieces[i]
    ensures forall i :: 0 <= i < |DropEmpty(TrimEach(pieces))| ==> CleanPurpose(DropEmpty(TrimEach(pieces))[i])
  {
    var trimmed := TrimEach(pieces);
    forall p | p in trimmed ensures ',' !in p && Trimmed(p) {
      var j :| 0 <= j < |trimmed| && trimmed[j] == p;
      assert ',' !in pieces[j];
    }
  }

  /** Purposes written back as one comma-separated field are read back unchanged. */
  lemma PurposesRoundTrip(ps: seq<string>)
    requires forall i :: 0 <= i < |ps| ==> CleanPurpose(ps[i])
    ensures ParseVisitPurposes(Join(ps, ',')) == ps
  {
    if ps != [] {
      var s := Join(ps, ',');
      SplitJoin(ps, ',');
      JoinStartsWithFirst(ps, ',');
      assert !AllWhitespace(s) by {
        assert s[0] == ps[0][0] && !IsWhitespace(ps[0][0]);
      }
      TrimEachOfTrimmed(ps);
      DropEmptyOfNonEmpty(ps);
    }
  }

  /** Parsing a field twice changes nothing: `parseVisitPurposes` is idempotent on its own output. */
  lemma ParseVisitPurposesIdempotent(purposes: string)
    ensures var ps := ParseVisitPurposes(purposes); ParseVisitPurposes(Join(ps, ',')) == ps
  {
    PurposesRoundTrip(ParseVisitPurposes(purposes));
  }

  lemma {:induction false} JoinStartsWithFirst(parts: seq<string>, sep: char)
    requires parts != [] && parts[0] != []
    ensures Join(parts, sep) != [] && Join(parts, sep)[0] == parts[0][0]
  {
  }

  lemma {:induction false} TrimEachOfTrimmed(ps: seq<string>)
    requires forall i :: 0 <= i < |ps| ==> Trimmed(ps[i])
    ensures TrimEach(ps) == ps
  {
    forall i | 0 <= i < |ps| ensures TrimEach(ps)[i] == ps[i] {
      TrimOfTrimmed(ps[i]);
    }
  }

  lemma {:induction false} DropEmptyOfNonEmpty(ps: seq<string>)
    requires forall i :: 0 <= i < |ps| ==> ps[i] != []
    ensures DropEmpty(ps) == ps
  {
    if ps != [] {
      DropEmptyOfNonEmpty(ps[1..]);
      assert ps == [ps[0]] + ps[1..];
    }
  }

  /** `row[i] || ''`: the cell text, or the empty text past the end of the row. */
  function Cell(row: seq<string>, i: nat): (cell: string)
    ensures FromColumn(cell, row, i)
    ensures cell == "" <==> i >= |row| || row[i] == ""
  {
    if i < |row| then row[i] else ""
  }

  /**
   * `parseSurveyRow`: no record for a row shorter than the header row;
   * otherwise columns 0 to 12 give the fields, in order. The source wraps
   * the construction in a try/catch, but nothing in it can throw for rows
   * of strings, so the catch branch has no counterpart here.
   */
  function ParseSurveyRow(row: seq<string>, headers: seq<string>): (r: Option<SurveyRow>)
    ensures r.None? <==> |row| < |headers|
    ensures r.Some? ==> ScoresInRange(r.value.satisfaction)
    ensures r.Some? ==> TextsFromColumns(r.value, row)
    ensures r.Some? ==> r.value.visitPurposes == (if 4 < |row| then ParseVisitPurposes(row[4]) else [])
    ensures r.Some? ==> ScoresFromColumns(r.value.satisfaction, row)
    ensures r.Some? ==> r.value.rating == (if 12 < |row| && row[12] != "" then ParseInt(row[12]) else Int(0))
  {
    if |row| < |headers| then None
    else
      ParseIntOfZeroText();
      Some(SurveyRow(
        timestamp := Cell(row, 0),
        gender := Cell(row, 1),
        age := Cell(row, 2),
        visitFrequency := Cell(row, 3),
        visitPurposes := ParseVisitPurposes(Cell(row, 4)),
        satisfaction := Satisfaction(
          staffFriendliness := SatisfactionToNumber(Cell(row, 5)),
          productVariety := SatisfactionToNumber(Cell(row, 6)),
          cleanliness := SatisfactionToNumber(Cell(row, 7)),
          facilities := SatisfactionToNumber(Cell(row, 8)),
          parking := SatisfactionToNumber(Cell(row, 9))),
        mostSatisfied := Cell(row, 10),
        needsImprovement := Cell(row, 11),
        rating := ParseInt(if Cell(row, 12) == "" then "0" else row[12])))
  }

  /** Column `i` of the row, or the empty text when the row stops before it. */
  predicate FromColumn(field: string, row: seq<string>, i: nat) {
    if i < |row| then field == row[i] else field == ""
  }

  /** The six free-text fields come from columns 0 to 3, 10 and 11. */
  predicate TextsFromColumns(r: SurveyRow, row: seq<string>) {
    && FromColumn(r.timestamp, row, 0)
    && FromColumn(r.gender, row, 1)
    && FromColumn(r.age, row, 2)
    && FromColumn(r.visitFrequency, row, 3)
    && FromColumn(r.mostSatisfied, row, 10)
    && FromColumn(r.needsImprovement, row, 11)
  }

  /** Score of column `i`: the label table applied to the cell, 0 when the row stops before it. */
  predicate ScoreFromColumn(score: int, row: seq<string>, i: nat) {
    score == (if i < |row| then SatisfactionToNumber(row[i]) else 0)
  }

  /** The five scores come from columns 5 to 9. */
  predicate ScoresFromColumns(s: Satisfaction, row: seq<string>) {
    && ScoreFromColumn(s.staffFriendliness, row, 5)
    && ScoreFromColumn(s.productVariety, row, 6)
    && ScoreFromColumn(s.cleanliness, row, 7)
    && ScoreFromColumn(s.facilities, row, 8)
    && ScoreFromColumn(s.parking, row, 9)
  }

  /** The `d`-th satisfaction score, in column order (0 = staff friendliness … 4 = parking). */
  function ScoreAt(s: Satisfaction, d: nat): int {
    match d
    case 0 => s.staffFriendliness
    case 1 => s.productVariety
    case 2 => s.cleanliness
    case 3 => s.facilities
    case _ => s.parking
  }
}
