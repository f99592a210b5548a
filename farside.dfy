/** The pure part of the Farside ETF-flow provider: cell parsing, AUM
    parsing, the statistics-row filter, the millions-to-dollars conversion
    and the last-N truncation. A table is the sequence of its rows, already
    reduced to the Date and Total columns. */
module Farside {
  import opened Wrappers
  import opened Series
  import opened Text

  /** A table cell as pandas hands it over. Python ints and floats are both
      `Number`; `Other` is any other object (a timestamp, say). */
  datatype Cell = Missing | NaN | Number(x: real) | Str(s: string) | Other

  /** `pd.isna` */
  predicate IsNa(c: Cell)
  {
    c.Missing? || c.NaN?
  }

  /** One table row: its date (None when the cell is NA) and its Total. */
  datatype Row = Row(date: Option<string>, total: Cell)

  datatype FlowRecord = FlowRecord(date: string, netFlow: real)

  /** Currency formatting removed before parsing. */
  const Formatting: set<char> := {'$', ',', ' '}
  /** Sign characters removed once the sign has been read. */
  const SignChars: set<char> := {'-', '(', ')'}

  /** Negates a parsed number. */
  function Negated(r: Option<real>): (v: Option<real>)
  {
    if r.Some? then Some(-r.value) else None
  }

  /** `_parse_value`. `parseFloat` stands for Python's `float(str)`, None
      where it raises. A leading "-" or "(" makes the value negative; every
      sign character is then dropped. */
  function ParseValue(parseFloat: string -> Option<real>, c: Cell): (r: Option<real>)
    ensures IsNa(c) || c.Other? ==> r.None?
    ensures c.Number? ==> r == Some(c.x)
  {
    match c
    case Missing => None
    case NaN => None
    case Other => None
    case Number(x) => Some(x)
    case Str(s) =>
      var cleaned := Strip(Without(s, Formatting));
      var negative := StartsWith(cleaned, "-") || StartsWith(cleaned, "(");
      var digits := Without(cleaned, SignChars);
      if digits == [] then None
      else if negative then Negated(parseFloat(digits))
      else parseFloat(digits)
  }

  /** A plain numeral: digits and decimal points only. */
  predicate Numeral(d: string)
  {
    |d| > 0 && forall i :: 0 <= i < |d| ==> ('0' <= d[i] <= '9' || d[i] == '.')
  }

  lemma NumeralUntouched(d: string)
    requires Numeral(d)
    ensures Without(d, Formatting) == d
    ensures Without(d, SignChars) == d
    ensures Strip(d) == d
    ensures Upper(d) == d
  {
    NumeralNoFormatting(d);
    NumeralNoSign(d);
    NumeralStripped(d);
    NumeralUpper(d);
  }

  lemma NumeralNoFormatting(d: string)
    requires Numeral(d)
    ensures Without(d, Formatting) == d
  {
    WithoutNothing(d, Formatting);
  }

  lemma NumeralNoSign(d: string)
    requires Numeral(d)
    ensures Without(d, SignChars) == d
  {
    WithoutNothing(d, SignChars);
  }

  lemma NumeralStripped(d: string)
    requires Numeral(d)
    ensures Strip(d) == d
  {
    StripUnspaced(d);
  }

  lemma NumeralUpper(d: string)
    requires Numeral(d)
    ensures Upper(d) == d
  {
  }

  /** A plain numeral parses as itself. */
  lemma ParsePlain(parseFloat: string -> Option<real>, d: string)
    requires Numeral(d)
    ensures ParseValue(parseFloat, Str(d)) == parseFloat(d)
  {
    NumeralUntouched(d);
  }

  /** A string whose formatting and surrounding blanks are already gone,
      with its sign read from the first character. */
  lemma ParseClean(parseFloat: string -> Option<real>, s: string, digits: string)
    requires Without(s, Formatting) == s && Strip(s) == s
    requires Without(s, SignChars) == digits && digits != []
    ensures ParseValue(parseFloat, Str(s)) ==
      if StartsWith(s, "-") || StartsWith(s, "(") then Negated(parseFloat(digits)) else parseFloat(digits)
  {
  }

  /** Accountancy negatives: "(d)" parses as minus d. */
  lemma ParseParenthesised(parseFloat: string -> Option<real>, d: string)
    requires Numeral(d)
    ensures ParseValue(parseFloat, Str("(" + d + ")")) == Negated(parseFloat(d))
  {
    var open, close := ['('], [')'];
    var s := open + d + close;
    assert Without(s, Formatting) == s by {
      NumeralNoFormatting(d);
      WithoutSingle('(', Formatting);
      WithoutSingle(')', Formatting);
      WithoutAppend(open + d, close, Formatting);
      WithoutAppend(open, d, Formatting);
    }
    assert Without(s, SignChars) == d by {
      NumeralNoSign(d);
      WithoutSingle('(', SignChars);
      WithoutSingle(')', SignChars);
      WithoutAppend(open + d, close, SignChars);
      WithoutAppend(open, d, SignChars);
    }
    assert Strip(s) == s by {
      StripUnspaced(s);
    }
    assert StartsWith(s, "(") by {
      assert s[..1] == open;
    }
    ParseClean(parseFloat, s, d);
  }

  /** "-d" parses as minus d. */
  lemma ParseMinus(parseFloat: string -> Option<real>, d: string)
    requires Numeral(d)
    ensures ParseValue(parseFloat, Str("-" + d)) == Negated(parseFloat(d))
  {
    var minus := ['-'];
    var s := minus + d;
    assert Without(s, Formatting) == s by {
      NumeralNoFormatting(d);
      WithoutSingle('-', Formatting);
      WithoutAppend(minus, d, Formatting);
    }
    assert Without(s, SignChars) == d by {
      NumeralNoSign(d);
      WithoutSingle('-', SignChars);
      WithoutAppend(minus, d, SignChars);
    }
    assert Strip(s) == s by {
      assert s[|s| - 1] == d[|d| - 1];
      StripUnspaced(s);
    }
    assert StartsWith(s, "-") by {
      assert s[..1] == minus;
    }
    ParseClean(parseFloat, s, d);
  }

  /** The concatenation of two numerals is a numeral. */
  lemma NumeralConcat(a: string, b: string)
    requires Numeral(a) && Numeral(b)
    ensures Numeral(a + b)
  {
    var ab := a + b;
    forall i | 0 <= i < |ab|
      ensures '0' <= ab[i] <= '9' || ab[i] == '.'
    {
      if i >= |a| {
        assert ab[i] == b[i - |a|];
      }
    }
  }

  /** Formatting characters never matter: a string parses like the string
      with them removed. */
  lemma ParseIgnoresFormatting(parseFloat: string -> Option<real>, s: string, t: string)
    requires Without(s, Formatting) == t
    requires Without(t, Formatting) == t
    ensures ParseValue(parseFloat, Str(s)) == ParseValue(parseFloat, Str(t))
  {
  }

  /** Dollar signs and thousands separators are ignored: "$a,b" parses as
      the numeral "ab". */
  lemma ParseCurrency(parseFloat: string -> Option<real>, a: string, b: string)
    requires Numeral(a) && Numeral(b)
    ensures ParseValue(parseFloat, Str("$" + a + "," + b)) == parseFloat(a + b)
  {
    var dollar, comma := ['$'], [','];
    var s := dollar + a + comma + b;
    var ab := a + b;
    assert Without(s, Formatting) == ab by {
      NumeralNoFormatting(a);
      NumeralNoFormatting(b);
      WithoutSingle('$', Formatting);
      WithoutSingle(',', Formatting);
      WithoutAppend(dollar + a + comma, b, Formatting);
      WithoutAppend(dollar + a, comma, Formatting);
      WithoutAppend(dollar, a, Formatting);
    }
    NumeralConcat(a, b);
    NumeralNoFormatting(ab);
    ParseIgnoresFormatting(parseFloat, s, ab);
    ParsePlain(parseFloat, ab);
  }

  // ---------------------------------------------------------------------
  // AUM values

  const Billion: real := 1_000_000_000.0
  const Million: real := 1_000_000.0
  const Trillion: real := 1_000_000_000_000.0

  /** The unit and range rules of `_parse_aum_value`, applied to the
      cleaned, upper-cased string: a "B" anywhere scales by a billion, else
      an "M" by a million; only values between a billion and a trillion
      dollars are accepted. */
  function AumFromCleaned(parseFloat: string -> Option<real>, cleaned: string): (r: Option<real>)
    ensures r.Some? ==> Billion <= r.value <= Trillion
  {
    var multiplier := if 'B' in cleaned then Billion else if 'M' in cleaned then Million else 1.0;
    var digits :=
      if 'B' in cleaned then Without(cleaned, {'B'})
      else if 'M' in cleaned then Without(cleaned, {'M'})
      else cleaned;
    if digits == [] then None
    else match parseFloat(digits)
      case None => None
      case Some(v) =>
        var value := v * multiplier;
        if Billion <= value <= Trillion then Some(value) else None
  }

  /** `_parse_aum_value`. Only string values are range-checked. */
  function ParseAum(parseFloat: string -> Option<real>, c: Cell): (r: Option<real>)
    ensures IsNa(c) || c.Other? ==> r.None?
    ensures c.Number? ==> r == Some(c.x)
    ensures c.Str? && r.Some? ==> Billion <= r.value <= Trillion
  {
    match c
    case Missing => None
    case NaN => None
    case Other => None
    case Number(x) => Some(x)
    case Str(s) => AumFromCleaned(parseFloat, Upper(Strip(Without(s, Formatting))))
  }

  /** A numeral followed by a unit letter, once cleaned and upper-cased. */
  lemma CleanedWithSuffix(d: string, c: char)
    requires Numeral(d)
    requires c in {'b', 'B', 'm', 'M'}
    ensures Upper(Strip(Without(d + [c], Formatting))) == d + [UpperChar(c)]
  {
    var s := d + [c];
    assert Without(s, Formatting) == s by {
      NumeralNoFormatting(d);
      WithoutSingle(c, Formatting);
      WithoutAppend(d, [c], Formatting);
    }
    assert Strip(s) == s by {
      StripUnspaced(s);
    }
    assert Upper(s) == d + [UpperChar(c)] by {
      NumeralUpper(d);
      assert forall i :: 0 <= i < |d| ==> Upper(s)[i] == UpperChar(d[i]) == Upper(d)[i];
    }
  }

  /** AUM parsing reads a string only through its cleaned, upper-cased form. */
  lemma ParseAumCleaned(parseFloat: string -> Option<real>, s: string, t: string)
    requires Upper(Strip(Without(s, Formatting))) == Upper(Strip(Without(t, Formatting)))
    ensures ParseAum(parseFloat, Str(s)) == ParseAum(parseFloat, Str(t))
  {
  }

  /** "dB" is d billion dollars, when that is a plausible AUM. */
  lemma AumBillions(parseFloat: string -> Option<real>, d: string, v: real)
    requires Numeral(d) && parseFloat(d) == Some(v)
    requires Billion <= v * Billion <= Trillion
    ensures ParseAum(parseFloat, Str(d + "B")) == Some(v * Billion)
  {
    var s := d + ['B'];
    CleanedWithSuffix(d, 'B');
    assert 'B' in s by {
      assert s[|d|] == 'B';
    }
    assert Without(s, {'B'}) == d by {
      WithoutNothing(d, {'B'});
      WithoutSingle('B', {'B'});
      WithoutAppend(d, ['B'], {'B'});
    }
  }

  /** "dM" is d million dollars, when that is a plausible AUM. */
  lemma AumMillions(parseFloat: string -> Option<real>, d: string, v: real)
    requires Numeral(d) && parseFloat(d) == Some(v)
    requires Billion <= v * Million <= Trillion
    ensures ParseAum(parseFloat, Str(d + "M")) == Some(v * Million)
  {
    var s := d + ['M'];
    CleanedWithSuffix(d, 'M');
    assert 'M' in s by {
      assert s[|d|] == 'M';
    }
    assert 'B' !in s by {
      forall i | 0 <= i < |s| ensures s[i] != 'B' {
        if i < |d| {
          assert s[i] == d[i];
        }
      }
    }
    assert Without(s, {'M'}) == d by {
      WithoutNothing(d, {'M'});
      WithoutSingle('M', {'M'});
      WithoutAppend(d, ['M'], {'M'});
    }
  }

  /** The unit letter is case-insensitive. */
  lemma AumSuffixCase(parseFloat: string -> Option<real>, d: string)
    requires Numeral(d)
    ensures ParseAum(parseFloat, Str(d + "b")) == ParseAum(parseFloat, Str(d + "B"))
    ensures ParseAum(parseFloat, Str(d + "m")) == ParseAum(parseFloat, Str(d + "M"))
  {
    CleanedWithSuffix(d, 'b');
    CleanedWithSuffix(d, 'B');
    CleanedWithSuffix(d, 'm');
    CleanedWithSuffix(d, 'M');
    ParseAumCleaned(parseFloat, d + "b", d + "B");
    ParseAumCleaned(parseFloat, d + "m", d + "M");
  }

  /** A bare number is taken in dollars, so it must itself be a plausible
      AUM: a small one is rejected. */
  lemma AumOutOfRange(parseFloat: string -> Option<real>, d: string, v: real)
    requires Numeral(d) && parseFloat(d) == Some(v)
    requires v < Billion
    ensures ParseAum(parseFloat, Str(d)) == None
  {
    NumeralNoFormatting(d);
    NumeralStripped(d);
    NumeralUpper(d);
    assert 'B' !in d && 'M' !in d by {
      forall i | 0 <= i < |d| ensures d[i] != 'B' && d[i] != 'M' { }
    }
  }

  // ---------------------------------------------------------------------
  // Row filter

  const StatisticsWords: seq<string> := ["average", "maximum", "minimum", "total", "sum"]

  /** A summary row (Total, Average, Maximum, Minimum, Sum) rather than a day. */
  predicate IsStatisticsRow(date: string)
  {
    exists w | w in StatisticsWords :: Contains(Lower(date), w)
  }

  /** Largest magnitude of a plausible daily net flow, in dollars. */
  const FlowLimit: real := 10_000_000_000.0

  /** Values below ten thousand are read as millions of dollars. */
  function ToDollars(v: real): (r: real)
    ensures Abs(v) < 10000.0 ==> r == v * Million
    ensures Abs(v) >= 10000.0 ==> r == v
    ensures Abs(v) < 10000.0 ==> -FlowLimit < r < FlowLimit
  {
    if Abs(v) < 10000.0 then v * Million else v
  }

  /** The flow a row contributes, if any: a dated, non-summary row whose
      Total parses to a plausible dollar amount. */
  function RowFlow(parseFloat: string -> Option<real>, row: Row): (r: Option<real>)
    ensures r.Some? ==> -FlowLimit <= r.value <= FlowLimit
    ensures r.Some? ==> row.date.Some? && !IsStatisticsRow(row.date.value) && !IsNa(row.total)
    ensures r.Some? ==> (ParseValue(parseFloat, row.total).Some?
      && r.value == ToDollars(ParseValue(parseFloat, row.total).value))
    ensures (row.date.Some? && !IsStatisticsRow(row.date.value) && !IsNa(row.total)
      && ParseValue(parseFloat, row.total).Some?
      && -FlowLimit <= ToDollars(ParseValue(parseFloat, row.total).value) <= FlowLimit) ==>
      r == Some(ToDollars(ParseValue(parseFloat, row.total).value))
  {
    if row.date.None? || IsStatisticsRow(row.date.value) || IsNa(row.total) then None
    else
      match ParseValue(parseFloat, row.total)
      case None => None
      case Some(v) =>
        var flow := ToDollars(v);
        if -FlowLimit <= flow <= FlowLimit then Some(flow) else None
  }

  /** Every row that passes the filter, in table order. */
  function ValidRecords(parseFloat: string -> Option<real>, rows: seq<Row>): (h: seq<FlowRecord>)
    ensures |h| <= |rows|
    ensures forall i :: 0 <= i < |h| ==> -FlowLimit <= h[i].netFlow <= FlowLimit
  {
    if rows == [] then []
    else
      var init := ValidRecords(parseFloat, rows[..|rows| - 1]);
      var row := rows[|rows| - 1];
      match RowFlow(parseFloat, row)
      case None => init
      case Some(f) => init + [FlowRecord(row.date.value, f)]
  }

  lemma {:induction false} ValidRecordsAppend(parseFloat: string -> Option<real>, a: seq<Row>, b: seq<Row>)
    ensures ValidRecords(parseFloat, a + b) == ValidRecords(parseFloat, a) + ValidRecords(parseFloat, b)
  {
    if b == [] {
      assert a + b == a;
    } else {
      var b' := b[..|b| - 1];
      ValidRecordsAppend(parseFloat, a, b');
      assert (a + b)[..|a + b| - 1] == a + b';
    }
  }

  lemma ValidRecordsSingle(parseFloat: string -> Option<real>, row: Row)
    ensures ValidRecords(parseFloat, [row]) ==
      if RowFlow(parseFloat, row).Some?
      then [FlowRecord(row.date.value, RowFlow(parseFloat, row).value)] else []
  {
    assert [row][..0] == [];
  }

  /** Python's `h[start:]` for any integer start. */
  function SliceFrom(h: seq<FlowRecord>, start: int): (r: seq<FlowRecord>)
  {
    if start >= 0 then h[(if start <= |h| then start else |h|)..]
    else h[(if |h| + start >= 0 then |h| + start else 0)..]
  }

  /** `history[-days:] if len(history) > days else history` */
  function Truncate(h: seq<FlowRecord>, days: int): (r: seq<FlowRecord>)
  {
    if |h| > days then SliceFrom(h, -days) else h
  }

  /** For a positive day count the newest `days` records are kept, in order;
      a day count of zero keeps everything. */
  lemma TruncateKeepsNewest(h: seq<FlowRecord>, days: int)
    ensures days >= 1 ==> (|Truncate(h, days)| == MinNat(days, |h|)
      && Truncate(h, days) == h[|h| - MinNat(days, |h|)..])
    ensures days == 0 ==> Truncate(h, days) == h
  {
  }

  /** Latest flow of a table: the last record passing the filter. */
  function NetFlowOf(parseFloat: string -> Option<real>, table: Option<seq<Row>>): (r: Option<real>)
  {
    if table.None? then None
    else
      var h := ValidRecords(parseFloat, table.value);
      if h == [] then None else Some(h[|h| - 1].netFlow)
  }

  /** Flow history of a table, truncated to its newest `days` records. */
  function HistoryOf(parseFloat: string -> Option<real>, table: Option<seq<Row>>, days: int): (r: Option<seq<FlowRecord>>)
  {
    if table.None? then None
    else
      var h := ValidRecords(parseFloat, table.value);
      if h == [] then None else Some(Truncate(h, days))
  }

  /** `get_etf_net_flow`: scans the rows from the newest and returns the
      first that passes the filter. `table` is None when no table with
      Date and Total columns was found. */
  method LatestNetFlow(parseFloat: string -> Option<real>, table: Option<seq<Row>>) returns (r: Option<real>)
    ensures r == NetFlowOf(parseFloat, table)
  {
    if table.None? {
      return None;
    }
    var rows := table.value;
    var idx := |rows|;
    while idx > 0
      invariant 0 <= idx <= |rows|
      invariant ValidRecords(parseFloat, rows[idx..]) == []
    {
      idx := idx - 1;
      assert rows[idx..] == [rows[idx]] + rows[idx + 1..];
      ValidRecordsAppend(parseFloat, [rows[idx]], rows[idx + 1..]);
      ValidRecordsSingle(parseFloat, rows[idx]);
      var flow := RowFlow(parseFloat, rows[idx]);
      if flow.Some? {
        assert rows == rows[..idx] + rows[idx..];
        ValidRecordsAppend(parseFloat, rows[..idx], rows[idx..]);
        return flow;
      }
    }
    assert rows[0..] == rows;
    return None;
  }

  /** `get_etf_net_flow_history`: collects the passing rows in table order,
      then keeps the newest `days`. */
  method NetFlowHistory(parseFloat: string -> Option<real>, table: Option<seq<Row>>, days: int)
    returns (r: Option<seq<FlowRecord>>)
    ensures r == HistoryOf(parseFloat, table, days)
  {
    if table.None? {
      return None;
    }
    var rows := table.value;
    var history: seq<FlowRecord> := [];
    for idx := 0 to |rows|
      invariant history == ValidRecords(parseFloat, rows[..idx])
    {
      assert rows[..idx + 1] == rows[..idx] + [rows[idx]];
      ValidRecordsAppend(parseFloat, rows[..idx], [rows[idx]]);
      ValidRecordsSingle(parseFloat, rows[idx]);
      var flow := RowFlow(parseFloat, rows[idx]);
      if flow.Some? {
        history := history + [FlowRecord(rows[idx].date.value, flow.value)];
      }
    }
    assert rows[..|rows|] == rows;
    if history == [] {
      return None;
    }
    r := Some(Truncate(history, days));
  }

  /** The two provider calls agree: a table has a latest flow exactly when
      it has a history, and the latest flow is the newest history entry. */
  lemma LatestIsNewestOfHistory(parseFloat: string -> Option<real>, table: Option<seq<Row>>, days: int)
    requires days >= 1
    ensures NetFlowOf(parseFloat, table).Some? <==> HistoryOf(parseFloat, table, days).Some?
    ensures HistoryOf(parseFloat, table, days).Some? ==>
      var h := HistoryOf(parseFloat, table, days).value;
      |h| > 0 && |h| <= days && h[|h| - 1].netFlow == NetFlowOf(parseFloat, table).value
  {
    if table.Some? {
      var h := ValidRecords(parseFloat, table.value);
      if h != [] {
        TruncateKeepsNewest(h, days);
      }
    }
  }

  /** A summary row is never a data point, whatever its Total. */
  lemma TotalRowDropped(parseFloat: string -> Option<real>, total: Cell)
    ensures RowFlow(parseFloat, Row(Some("Total"), total)).None?
  {
    var lowered := Lower("Total");
    assert lowered == "total" by {
      assert LowerChar('T') == 't';
    }
    assert OccursAt(lowered, "total", 0);
    assert "total" in StatisticsWords;
    assert IsStatisticsRow("Total");
  }
}
