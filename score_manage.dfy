/**
 * The score file `scores.txt`: one line `score,time,date` per finished
 * free-play or evolution game, appended by `save_score` and read back,
 * validated and ranked by `get_rankings`.
 */
module ScoreManage {
  import opened Wrappers
  import opened Text
  import opened Sorting

  /** A ranking entry: the score as a number, the time and date as the file holds them. */
  datatype Record = Record(score: int, time: string, date: string)

  /**
   * One line of the file, or `None` when `get_rankings` skips it: a blank
   * line, a line without exactly three comma-separated fields, a score or
   * time that `int()` rejects, or a date without a `-`.
   */
  function ParseLine(raw: string): (r: Option<Record>)
    ensures r.Some? <==>
      var parts := Split(Strip(raw), ',');
      Strip(raw) != "" && |parts| == 3 && ParseInt(parts[0]).Some? &&
      ParseInt(parts[1]).Some? && '-' in parts[2]
    ensures r.Some? ==>
      var parts := Split(Strip(raw), ',');
      ParseInt(parts[0]) == Some(r.value.score) && r.value.time == parts[1] && r.value.date == parts[2]
  {
    var line := Strip(raw);
    if line == "" then None
    else
      var parts := Split(line, ',');
      if |parts| != 3 then None
      else match ParseInt(parts[0])
        case None => None
        case Some(score) =>
          if ParseInt(parts[1]).None? then None
          else if '-' !in parts[2] then None
          else Some(Record(score, parts[1], parts[2]))
  }

  /** The records of the lines that pass validation, in file order. */
  function Accepted(lines: seq<string>): seq<Record>
  {
    if lines == [] then []
    else
      Accepted(lines[..|lines| - 1]) +
      match ParseLine(lines[|lines| - 1])
      case Some(r) => [r]
      case None => []
  }

  /** The sort key of `sort(key=score, reverse=True)`. */
  function ScoreKey(r: Record): seq<int> {
    [-r.score]
  }

  /** What `get_rankings` returns for a file holding `lines`. */
  function Rankings(lines: seq<string>): seq<Record> {
    SortByKey(Accepted(lines), ScoreKey)
  }

  /** The records of `rs` that scored `v`, in the order of `rs`. */
  function WithScore(rs: seq<Record>, v: int): seq<Record> {
    KeyFilter(rs, ScoreKey, [-v])
  }

  /** The line `save_score` writes for a game: `f"{score},{time},{date}"`. */
  function FormatRecord(score: int, time: int, date: string): string {
    IntToString(score) + "," + IntToString(time) + "," + date
  }

  /** A date the game itself writes: it has a `-`, no comma and no trailing blank. */
  predicate WellFormedDate(date: string) {
    '-' in date && ',' !in date && !IsSpace(date[|date| - 1])
  }

  class ScoreFile {
    /** The lines of the file; a missing file reads as no lines. */
    var lines: seq<string>

    constructor(initial: seq<string>)
      ensures lines == initial
    {
      lines := initial;
    }

    /** `save_score(data)`: appends one line. */
    method SaveScore(data: string)
      modifies this
      ensures lines == old(lines) + [data]
    {
      lines := lines + [data];
    }

    /** `get_rankings()`: the valid records, highest score first. */
    method GetRankings() returns (rankings: seq<Record>)
      ensures rankings == Rankings(lines)
    {
      var accepted: seq<Record> := [];
      var i := 0;
      while i < |lines|
        invariant 0 <= i <= |lines|
        invariant accepted == Accepted(lines[..i])
      {
        assert lines[..i + 1][..i] == lines[..i];
        match ParseLine(lines[i]) {
          case Some(r) => accepted := accepted + [r];
          case None =>
        }
        i := i + 1;
      }
      assert lines[..|lines|] == lines;
      rankings := SortByKey(accepted, ScoreKey);
    }
  }

  /**
   * The rankings are the accepted records, reordered by score from highest
   * to lowest, with records of equal score left in file order.
   */
  lemma RankingsOrder(lines: seq<string>)
    ensures multiset(Rankings(lines)) == multiset(Accepted(lines))
    ensures forall i, j :: 0 <= i < j < |Rankings(lines)| ==>
      Rankings(lines)[i].score >= Rankings(lines)[j].score
    ensures forall v :: WithScore(Rankings(lines), v) == WithScore(Accepted(lines), v)
  {
    var r := Rankings(lines);
    SortByKeySorted(Accepted(lines), ScoreKey);
    forall i, j | 0 <= i < j < |r| ensures r[i].score >= r[j].score {
      assert !LexLess(ScoreKey(r[j]), ScoreKey(r[i]));
    }
    forall v ensures WithScore(r, v) == WithScore(Accepted(lines), v) {
      SortByKeyStable(Accepted(lines), ScoreKey, [-v]);
    }
  }

  /** A line written by `save_score` reads back as the record it was written from. */
  lemma ParseFormatted(score: int, time: int, date: string)
    requires WellFormedDate(date)
    ensures ParseLine(FormatRecord(score, time, date)) == Some(Record(score, IntToString(time), date))
  {
    var a, b := IntToString(score), IntToString(time);
    var line := FormatRecord(score, time, date);
    assert line[0] == a[0];
    assert line[|line| - 1] == date[|date| - 1];
    StripUnpadded(line);
    IntToStringChars(score);
    IntToStringChars(time);
    assert [a, b, date][1..] == [b, date] && [b, date][1..] == [date];
    assert Join([date], ',') == date;
    assert Join([b, date], ',') == b + [','] + date;
    assert Join([a, b, date], ',') == a + [','] + (b + [','] + date);
    assert Join([a, b, date], ',') == line;
    SplitJoin([a, b, date], ',');
    IntToStringRoundTrip(score);
    IntToStringRoundTrip(time);
  }

  /** Appending a game's line adds exactly its record at the end of the accepted ones. */
  lemma SaveThenAccept(lines: seq<string>, score: int, time: int, date: string)
    requires WellFormedDate(date)
    ensures Accepted(lines + [FormatRecord(score, time, date)])
         == Accepted(lines) + [Record(score, IntToString(time), date)]
  {
    var l := lines + [FormatRecord(score, time, date)];
    assert l[..|l| - 1] == lines;
    ParseFormatted(score, time, date);
  }
}
