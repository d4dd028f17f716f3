/**
  The CSV export of daily onset counts: a header line, then one
  "date,count" line per day in ascending date order, and the name of the
  file it is written to. The rows, the date formatter and the timestamp are
  parameters; writing the file is not modelled.
*/
module Export {
  import opened Calendar
  import opened Sorting

  const Header := "date,count\n"

  /** The number of onsets on one day. */
  datatype DayCount = DayCount(day: Date, count: int)

  /** The decimal text of a natural number, most significant digit first. */
  function NatToString(n: nat): (s: string)
    ensures |s| >= 1
    ensures forall i :: 0 <= i < |s| ==> '0' <= s[i] <= '9'
    decreases n
  {
    var digit := ['0' + (n % 10) as char];
    if n < 10 then digit else NatToString(n / 10) + digit
  }

  /** Swift's text for an `Int`: a minus sign for negatives, then the digits. */
  function IntToString(i: int): (s: string)
    ensures s != [] && '\n' !in s && ',' !in s
    ensures (s[0] == '-') <==> i < 0
  {
    if i < 0 then "-" + NatToString(-i) else NatToString(i)
  }

  function ParseNat(s: string): nat
    decreases |s|
  {
    if s == [] then 0 else ParseNat(s[..|s| - 1]) * 10 + ((s[|s| - 1] as int - '0' as int) % 10)
  }

  function ParseInt(s: string): int {
    if s != [] && s[0] == '-' then 0 - ParseNat(s[1..]) else ParseNat(s)
  }

  lemma {:induction false} NatRoundTrip(n: nat)
    ensures ParseNat(NatToString(n)) == n
    decreases n
  {
    var s := NatToString(n);
    if n >= 10 {
      NatRoundTrip(n / 10);
      assert s[..|s| - 1] == NatToString(n / 10);
    }
  }

  /** The count written for a day reads back as the same number. */
  lemma IntRoundTrip(i: int)
    ensures ParseInt(IntToString(i)) == i
  {
    NatRoundTrip(if i < 0 then -i else i);
    if i < 0 {
      assert IntToString(i)[1..] == NatToString(-i);
    }
  }

  function DateKey(row: DayCount): real {
    row.day
  }

  /** One data line: the formatted date, a comma, the count, a newline. */
  function Line(row: DayCount, fmt: Date -> string): string {
    fmt(row.day) + "," + IntToString(row.count) + "\n"
  }

  /** The data lines for `rows`, in the given order. */
  function Body(rows: seq<DayCount>, fmt: Date -> string): string {
    if rows == [] then "" else Body(rows[..|rows| - 1], fmt) + Line(rows[|rows| - 1], fmt)
  }

  function NewlineCount(s: string): nat {
    if s == [] then 0 else NewlineCount(s[..|s| - 1]) + (if s[|s| - 1] == '\n' then 1 else 0)
  }

  lemma {:induction false} NewlineCountConcat(a: string, b: string)
    ensures NewlineCount(a + b) == NewlineCount(a) + NewlineCount(b)
    decreases |b|
  {
    if b == [] {
      assert a + b == a;
    } else {
      NewlineCountConcat(a, b[..|b| - 1]);
      assert (a + b)[..|a + b| - 1] == a + b[..|b| - 1];
    }
  }

  lemma {:induction false} NoNewlineCount(s: string)
    requires '\n' !in s
    ensures NewlineCount(s) == 0
    decreases |s|
  {
    if s != [] {
      assert s[..|s| - 1] + [s[|s| - 1]] == s;
      NoNewlineCount(s[..|s| - 1]);
    }
  }

  ghost predicate SingleLineFormatter(fmt: Date -> string) {
    forall d :: '\n' !in fmt(d)
  }

  /** With a single-line date format, every row is exactly one line. */
  lemma {:induction false} BodyLineCount(rows: seq<DayCount>, fmt: Date -> string)
    requires SingleLineFormatter(fmt)
    ensures NewlineCount(Body(rows, fmt)) == |rows|
    decreases |rows|
  {
    if rows != [] {
      var row := rows[|rows| - 1];
      var text := fmt(row.day) + "," + IntToString(row.count);
      assert '\n' !in fmt(row.day);
      assert '\n' !in text;
      NoNewlineCount(text);
      NewlineCountConcat(text, "\n");
      assert Line(row, fmt) == text + "\n";
      NewlineCountConcat(Body(rows[..|rows| - 1], fmt), Line(row, fmt));
      BodyLineCount(rows[..|rows| - 1], fmt);
    }
  }

  /** Writing the next row extends the text by exactly that row's line. */
  lemma CsvSnoc(rows: seq<DayCount>, i: nat, fmt: Date -> string)
    requires i < |rows|
    ensures Csv(rows[..i + 1], fmt) == Csv(rows[..i], fmt) + Line(rows[i], fmt)
  {
    assert rows[..i + 1][..i] == rows[..i];
  }

  lemma HeaderIsOneLine()
    ensures NewlineCount(Header) == 1
  {
    assert Header[..|Header| - 1] == "date,count";
    NoNewlineCount("date,count");
  }

  /** The whole text for rows already in the order they are written. */
  function Csv(rows: seq<DayCount>, fmt: Date -> string): string {
    Header + Body(rows, fmt)
  }

  /**
    The text starts with the header line and has one line more than there are
    rows; with no rows it is the header alone.
  */
  lemma CsvShape(rows: seq<DayCount>, fmt: Date -> string)
    requires SingleLineFormatter(fmt)
    ensures Csv(rows, fmt)[..|Header|] == Header
    ensures NewlineCount(Csv(rows, fmt)) == |rows| + 1
    ensures rows == [] ==> Csv(rows, fmt) == Header
  {
    BodyLineCount(rows, fmt);
    NewlineCountConcat(Header, Body(rows, fmt));
    HeaderIsOneLine();
  }

  /**
    Builds the CSV for `rows` and the file name for timestamp `stamp`. The
    lines are those of the rows sorted by ascending date.
  */
  method ExportHistoryCSV(rows: seq<DayCount>, fmt: Date -> string, stamp: string)
    returns (csv: string, fileName: string)
    ensures csv == Csv(SortBy(rows, DateKey), fmt)
    ensures fileName == "sleep_history_" + stamp + ".csv"
  {
    csv := Header;
    var sorted := SortBy(rows, DateKey);
    for i := 0 to |sorted|
      invariant csv == Csv(sorted[..i], fmt)
    {
      CsvSnoc(sorted, i, fmt);
      csv := csv + Line(sorted[i], fmt);
    }
    assert sorted[..|sorted|] == sorted;
    fileName := "sleep_history_" + stamp + ".csv";
  }

  /** The exported rows are the input rows in ascending date order. */
  lemma ExportOrder(rows: seq<DayCount>)
    ensures var sorted := SortBy(rows, DateKey);
      multiset(sorted) == multiset(rows) &&
      forall i, j :: 0 <= i < j < |sorted| ==> sorted[i].day <= sorted[j].day
  {
  }

}
