/**
  From score to provincial rank for one region and subject: exact or floored score, lowest score of
  the table, and one year back when a year has no table.
 */
module RankLookup {
  import opened Options

  const WALKBACK_YEARS: nat := 1

  datatype Row = Row(score: int, rank: int)

  /** The rows of each year, one per score, in any order. */
  type Tables = int -> seq<Row>

  datatype Query = FloorQuery | MinQuery

  /** Which reads fail. */
  type Faults = (int, Query) -> bool

  datatype Source = Exact | Floored | BelowMin | PrevYear

  datatype Result = Found(rank: int, yearUsed: int, matchedScore: int, source: Source) | NotAvailable | Failed(year: int)

  ghost predicate DistinctScores(rows: seq<Row>) {
    forall i, j :: 0 <= i < j < |rows| ==> rows[i].score != rows[j].score
  }

  /** The row with the highest score not above the given one. */
  function FloorRow(rows: seq<Row>, score: int): (r: Option<Row>)
    ensures r.None? <==> forall row :: row in rows ==> row.score > score
    ensures r.Some? ==> (r.value in rows && r.value.score <= score
                         && forall row :: row in rows && row.score <= score ==> row.score <= r.value.score)
  {
    if rows == [] then None
    else
      var best, row := FloorRow(rows[..|rows| - 1], score), rows[|rows| - 1];
      assert forall x :: x in rows <==> x in rows[..|rows| - 1] || x == row;
      if row.score <= score && (best.None? || best.value.score < row.score) then Some(row) else best
  }

  /** The row with the lowest score. */
  function MinRow(rows: seq<Row>): (r: Option<Row>)
    ensures r.None? <==> rows == []
    ensures r.Some? ==> r.value in rows && forall row :: row in rows ==> r.value.score <= row.score
  {
    if rows == [] then None
    else
      var best, row := MinRow(rows[..|rows| - 1]), rows[|rows| - 1];
      assert forall x :: x in rows <==> x in rows[..|rows| - 1] || x == row;
      if best.None? || row.score < best.value.score then Some(row) else best
  }

  datatype Answer = Hit(row: Row) | NotFound | Broken

  function Read(r: Option<Row>, broken: bool): Answer {
    if broken then Broken else if r.None? then NotFound else Hit(r.value)
  }

  /** The row a year answers with; None when it has no rows. */
  function YearRow(rows: seq<Row>, score: int): Option<Row> {
    if FloorRow(rows, score).Some? then FloorRow(rows, score) else MinRow(rows)
  }

  /** The year whose table is used. */
  function YearFor(tables: Tables, year: int): Option<int> {
    if tables(year) != [] then Some(year) else if tables(year - 1) != [] then Some(year - 1) else None
  }

  /** Walks back from offset on; the reads of a year are tried in order, and a failed one ends the walk. */
  function LookupFrom(tables: Tables, faults: Faults, year: int, score: int, offset: nat): Result
    decreases WALKBACK_YEARS + 1 - offset
  {
    if offset > WALKBACK_YEARS then NotAvailable
    else
      var y := year - offset;
      if faults(y, FloorQuery) then Failed(y)
      else if FloorRow(tables(y), score).Some? then
        var row := FloorRow(tables(y), score).value;
        Found(row.rank, y, row.score, if offset > 0 then PrevYear else if row.score == score then Exact else Floored)
      else if faults(y, MinQuery) then Failed(y)
      else if MinRow(tables(y)).Some? then
        var row := MinRow(tables(y)).value;
        Found(row.rank, y, row.score, if offset > 0 then PrevYear else BelowMin)
      else LookupFrom(tables, faults, year, score, offset + 1)
  }

  method LookupRank(tables: Tables, faults: Faults, year: int, score: int) returns (result: Result)
    ensures result == LookupFrom(tables, faults, year, score, 0)
  {
    var offset := 0;
    while offset <= WALKBACK_YEARS
      invariant 0 <= offset <= WALKBACK_YEARS + 1
      invariant LookupFrom(tables, faults, year, score, 0) == LookupFrom(tables, faults, year, score, offset)
    {
      var y := year - offset;
      var answer := Read(FloorRow(tables(y), score), faults(y, FloorQuery));
      if answer.Hit? {
        var source := Exact;
        if answer.row.score != score {
          source := Floored;
        }
        if offset > 0 {
          source := PrevYear;
        }
        return Found(answer.row.rank, y, answer.row.score, source);
      }
      if answer.Broken? {
        return Failed(y);
      }
      answer := Read(MinRow(tables(y)), faults(y, MinQuery));
      if answer.Hit? {
        var source := BelowMin;
        if offset > 0 {
          source := PrevYear;
        }
        return Found(answer.row.rank, y, answer.row.score, source);
      }
      if answer.Broken? {
        return Failed(y);
      }
      offset := offset + 1;
    }
    result := NotAvailable;
  }

  function Lookup(tables: Tables, year: int, score: int): Result {
    LookupFrom(tables, (_, _) => false, year, score, 0)
  }

  /**
    With working reads: the year used and success do not depend on the score, the answer is the row
    that the used year gives, and the source says which of the paths was taken.
   */
  lemma LookupMeans(tables: Tables, year: int, score: int)
    ensures var r, y := Lookup(tables, year, score), YearFor(tables, year);
            && (r == NotAvailable <==> tables(year) == [] && tables(year - 1) == [])
            && (y.Some? ==> (
                  var row := YearRow(tables(y.value), score);
                  && row.Some? && r.Found? && r.yearUsed == y.value && r.rank == row.value.rank
                  && r.matchedScore == row.value.score
                  && (r.source == PrevYear <==> y.value != year)
                  && (r.source == Exact <==> y.value == year && r.matchedScore == score)
                  && (r.source == Floored <==> y.value == year && r.matchedScore < score)
                  && (r.source == BelowMin <==> y.value == year && r.matchedScore > score)))
  {
    var noFaults: Faults := (_, _) => false;
    assert LookupFrom(tables, noFaults, year, score, 2) == NotAvailable;
    assert tables(year - 1) == [] ==> LookupFrom(tables, noFaults, year, score, 1) == NotAvailable;
  }

  /** A better score never has a worse rank. */
  ghost predicate RanksFall(rows: seq<Row>) {
    && DistinctScores(rows)
    && forall a, b :: a in rows && b in rows && a.score <= b.score ==> a.rank >= b.rank
  }

  lemma YearRowFalls(rows: seq<Row>, low: int, high: int)
    requires RanksFall(rows) && rows != [] && low <= high
    ensures YearRow(rows, low).value.rank >= YearRow(rows, high).value.rank
  {
    var a, b := YearRow(rows, low).value, YearRow(rows, high).value;
    assert a in rows && b in rows;
  }

  /** The rank never rises with the score, on whichever path either answer is found. */
  lemma RankFallsWithScore(tables: Tables, year: int, low: int, high: int)
    requires RanksFall(tables(year)) && RanksFall(tables(year - 1)) && low <= high
    ensures var a, b := Lookup(tables, year, low), Lookup(tables, year, high);
            && (a.Found? <==> b.Found?)
            && (a.Found? ==> a.yearUsed == b.yearUsed && a.rank >= b.rank && a.matchedScore <= b.matchedScore)
  {
    LookupMeans(tables, year, low);
    LookupMeans(tables, year, high);
    var y := YearFor(tables, year);
    if y.Some? { YearRowFalls(tables(y.value), low, high); }
  }

  /** Every score of the table that is at least the candidate's ranks at least as well as the answer. */
  lemma AnswerIsConservative(tables: Tables, year: int, score: int, row: Row)
    requires Lookup(tables, year, score).Found?
    requires var rows := tables(Lookup(tables, year, score).yearUsed); RanksFall(rows) && row in rows && row.score >= score
    ensures row.rank <= Lookup(tables, year, score).rank
  {
    LookupMeans(tables, year, score);
  }

  /** A failed read is reported, never passed over: an answer is the one that working reads give. */
  lemma FaultsNeverChangeTheAnswer(tables: Tables, faults: Faults, year: int, score: int)
    ensures var r := LookupFrom(tables, faults, year, score, 0); r.Failed? || r == Lookup(tables, year, score)
  {
    var noFaults: Faults := (_, _) => false;
  }

  ghost predicate AllAbove(rows: seq<Row>, score: int) { forall row :: row in rows ==> row.score > score }

  /** A read that is needed and fails: the floor read, or the lowest-score read when no row is at or below the score. */
  ghost predicate YearFails(tables: Tables, faults: Faults, y: int, score: int) {
    faults(y, FloorQuery) || (AllAbove(tables(y), score) && faults(y, MinQuery))
  }

  /** The lookup fails exactly when a read it needs fails, and names that year. */
  lemma FailsIff(tables: Tables, faults: Faults, year: int, score: int)
    ensures var r := LookupFrom(tables, faults, year, score, 0);
            && (r == Failed(year) <==> YearFails(tables, faults, year, score))
            && (r == Failed(year - 1) <==> !YearFails(tables, faults, year, score) && tables(year) == []
                                           && YearFails(tables, faults, year - 1, score))
            && (r.Failed? ==> r.year == year || r.year == year - 1)
  {
    assert FloorRow(tables(year), score).None? <==> AllAbove(tables(year), score);
    assert FloorRow(tables(year - 1), score).None? <==> AllAbove(tables(year - 1), score);
    assert LookupFrom(tables, faults, year, score, 2) == NotAvailable;
  }
}
