/** The movement pipeline of the performance analysis: reading percent
    changes and prices from spreadsheet rows, the threshold filter and the
    ordering by size of move, the heuristic insight per movement, the
    pattern recommendations, the report's top movers and the bounded report
    history. Number parsing (`float(...)`) is a parser parameter. */
module Movements {
  import opened Wrappers
  import opened Collections
  import Text

  /** A spreadsheet cell: a number, text, or nothing. */
  datatype Cell = Num(x: real) | Txt(s: string) | Null

  /** One spreadsheet row: column name to cell, in column order. */
  type Row = seq<(string, Cell)>

  /** Python's `float(text)`: `None` where it raises `ValueError`. */
  type Parser = string -> Option<real>

  const TickerColumn: string := "Ticker"
  const SectorColumn: string := "Sector"
  const DateColumn: string := "Analysis Date"
  const PercentColumns: seq<string> := ["Percent Change", "Price Change %", "% Change", "Percent_Change"]
  const PriceAtAnalysis: string := "Price at Analysis"
  const PriceAtAnalysisAlt: string := "Price_at_Analysis"
  const PriceNow: string := "Price"
  const CurrentPrice: string := "Current Price"
  /** The `(price at analysis, current price)` column pairs tried in turn. */
  const PricePairs: seq<(string, string)> :=
    [(PriceAtAnalysis, PriceNow), (PriceAtAnalysis, CurrentPrice),
     (PriceAtAnalysisAlt, PriceNow), (PriceAtAnalysisAlt, CurrentPrice)]
  /** Placeholder texts that mean "no percent value". */
  const MissingPercent: seq<string> := ["nan", "n/a", "-", "none"]
  /** Placeholder texts that mean "no price". */
  const MissingPrice: seq<string> := ["nan", "n/a", "-"]

  function CellOf(row: Row, column: string): Option<Cell> {
    Find(row, column)
  }

  // ---------------------------------------------------------------------
  // Percent change

  /** The text a percent cell is parsed from: stripped, without '%' or ','. */
  function PercentText(t: string): string {
    Text.RemoveAll(Text.RemoveAll(Text.Strip(t), "%"), ",")
  }

  /** One percent column's reading; `None` moves on to the next column. */
  function PercentCell(c: Cell, parse: Parser): Option<real> {
    match c
    case Null => None
    case Num(x) => Some(x)
    case Txt(t) =>
      if Text.Strip(t) == "" then None
      else
        var v := PercentText(t);
        if v != "" && Text.Lower(v) !in MissingPercent then parse(v) else None
  }

  /** The first percent column present whose cell gives a value. */
  function PercentFromColumns(row: Row, columns: seq<string>, parse: Parser): Option<real> {
    if columns == [] then None
    else
      var c := CellOf(row, columns[0]);
      if c.Some? && PercentCell(c.value, parse).Some? then PercentCell(c.value, parse)
      else PercentFromColumns(row, columns[1..], parse)
  }

  /** `float(str(cell).replace(',', '').replace('$', ''))`. */
  function PriceValue(c: Cell, parse: Parser): Option<real> {
    match c
    case Num(x) => Some(x)
    case Null => None
    case Txt(t) => parse(Text.RemoveAll(Text.RemoveAll(t, ","), "$"))
  }

  /** The change from the price at analysis to the current price, in percent. */
  function ChangeBetween(at: real, now: real): real
    requires at > 0.0
  {
    (now - at) / at * 100.0
  }

  /** The first column pair, both present and both readable, whose price
      at analysis is positive. */
  function PercentFromPrices(row: Row, pairs: seq<(string, string)>, parse: Parser): Option<real> {
    if pairs == [] then None
    else
      var a := CellOf(row, pairs[0].0);
      var n := CellOf(row, pairs[0].1);
      if a.Some? && n.Some? then
        var at := PriceValue(a.value, parse);
        var now := PriceValue(n.value, parse);
        if at.Some? && now.Some? && at.value > 0.0 then Some(ChangeBetween(at.value, now.value))
        else PercentFromPrices(row, pairs[1..], parse)
      else PercentFromPrices(row, pairs[1..], parse)
  }

  /** `_extract_percent_change`: a percent column first, the two prices
      otherwise, `None` when neither gives a value. */
  function PercentChange(row: Row, parse: Parser): Option<real> {
    var direct := PercentFromColumns(row, PercentColumns, parse);
    if direct.Some? then direct else PercentFromPrices(row, PricePairs, parse)
  }

  /** The strings the parser is ever asked about: no ',' and either no '%'
      (percent cells) or no '$' (price cells). */
  predicate CleanedText(s: string) {
    ',' !in s && ('%' !in s || '$' !in s)
  }

  lemma PercentTextCleaned(t: string)
    ensures CleanedText(PercentText(t))
  {
    var a := Text.RemoveAll(Text.Strip(t), "%");
    Text.RemoveCharGone(Text.Strip(t), '%');
    Text.RemoveKeepsAbsent(a, ",", '%');
    Text.RemoveCharGone(a, ',');
  }

  lemma PriceTextCleaned(t: string)
    ensures CleanedText(Text.RemoveAll(Text.RemoveAll(t, ","), "$"))
  {
    var a := Text.RemoveAll(t, ",");
    Text.RemoveCharGone(t, ',');
    Text.RemoveKeepsAbsent(a, "$", ',');
    Text.RemoveCharGone(a, '$');
  }

  /** Parsers that agree on cleaned text read the same percent columns. */
  lemma {:induction false} ColumnsSeeCleanedText(row: Row, columns: seq<string>, p: Parser, q: Parser)
    requires forall s :: CleanedText(s) ==> p(s) == q(s)
    ensures PercentFromColumns(row, columns, p) == PercentFromColumns(row, columns, q)
  {
    if columns != [] {
      var c := CellOf(row, columns[0]);
      if c.Some? && c.value.Txt? {
        PercentTextCleaned(c.value.s);
      }
      ColumnsSeeCleanedText(row, columns[1..], p, q);
    }
  }

  /** Parsers that agree on cleaned text read the same prices. */
  lemma {:induction false} PricesSeeCleanedText(row: Row, pairs: seq<(string, string)>, p: Parser, q: Parser)
    requires forall s :: CleanedText(s) ==> p(s) == q(s)
    ensures PercentFromPrices(row, pairs, p) == PercentFromPrices(row, pairs, q)
  {
    if pairs != [] {
      var a := CellOf(row, pairs[0].0);
      var n := CellOf(row, pairs[0].1);
      if a.Some? && a.value.Txt? {
        PriceTextCleaned(a.value.s);
      }
      if n.Some? && n.value.Txt? {
        PriceTextCleaned(n.value.s);
      }
      PricesSeeCleanedText(row, pairs[1..], p, q);
    }
  }

  /** The parser only ever sees text with the thousands separators and the
      percent or dollar sign removed: two parsers that agree there give the
      same percent change. */
  lemma ParserSeesCleanedText(row: Row, p: Parser, q: Parser)
    requires forall s :: CleanedText(s) ==> p(s) == q(s)
    ensures PercentChange(row, p) == PercentChange(row, q)
  {
    ColumnsSeeCleanedText(row, PercentColumns, p, q);
    PricesSeeCleanedText(row, PricePairs, p, q);
  }

  /** Placeholder text is never parsed: a row whose percent columns hold
      only blanks or placeholders falls back on its prices. */
  lemma PlaceholdersFallBack(row: Row, parse: Parser)
    requires forall i :: 0 <= i < |PercentColumns| && CellOf(row, PercentColumns[i]).Some? ==>
      var c := CellOf(row, PercentColumns[i]).value;
      c.Null? || (c.Txt? && (Text.Strip(c.s) == "" || Text.Lower(PercentText(c.s)) in MissingPercent))
    ensures PercentChange(row, parse) == PercentFromPrices(row, PricePairs, parse)
  {
    var cs := PercentColumns;
    assert PercentFromColumns(row, cs[3..], parse) == None by {
      assert cs[3..][1..] == [];
    }
    assert PercentFromColumns(row, cs[2..], parse) == None by {
      assert cs[2..][1..] == cs[3..];
    }
    assert PercentFromColumns(row, cs[1..], parse) == None by {
      assert cs[1..][1..] == cs[2..];
    }
  }

  /** With no percent column, a readable positive price at analysis and a
      readable current price give the relative change in percent. */
  lemma PriceFallback(row: Row, parse: Parser, at: real, now: real)
    requires forall i :: 0 <= i < |PercentColumns| ==> CellOf(row, PercentColumns[i]).None?
    requires CellOf(row, PriceAtAnalysis) == Some(Num(at)) && CellOf(row, PriceNow) == Some(Num(now))
    requires at > 0.0
    ensures PercentChange(row, parse) == Some((now - at) / at * 100.0)
  {
    var cs := PercentColumns;
    assert PercentFromColumns(row, cs[3..], parse) == None by {
      assert cs[3..][1..] == [];
    }
    assert PercentFromColumns(row, cs[2..], parse) == None by {
      assert cs[2..][1..] == cs[3..];
    }
    assert PercentFromColumns(row, cs[1..], parse) == None by {
      assert cs[1..][1..] == cs[2..];
    }
    assert PricePairs[0] == (PriceAtAnalysis, PriceNow);
  }

  // ---------------------------------------------------------------------
  // Prices

  /** One price column's reading; `None` moves on to the next column. */
  function PriceCell(c: Cell, parse: Parser): Option<real> {
    match c
    case Num(x) => Some(x)
    // `str(None)` is "None", which `float` rejects
    case Null => None
    case Txt(t) =>
      var v := Text.Strip(Text.RemoveAll(Text.RemoveAll(t, ","), "$"));
      if v != "" && Text.Lower(v) !in MissingPrice then parse(v) else None
  }

  /** The first readable price among `columns`, 0 when there is none. */
  function FirstPrice(row: Row, columns: seq<string>, parse: Parser): real {
    if columns == [] then 0.0
    else
      var c := CellOf(row, columns[0]);
      if c.Some? && PriceCell(c.value, parse).Some? then PriceCell(c.value, parse).value
      else FirstPrice(row, columns[1..], parse)
  }

  /** `p * (1 + pct / 100)`: a price moved by `pct` percent. */
  function Moved(p: real, pct: real): real {
    p * (1.0 + pct / 100.0)
  }

  /** The missing price derived from the other one (both missing: a start
      of 100). `None` where the division by `1 + pct / 100` raises. */
  function Filled(start: real, end: real, pct: real): Option<(real, real)> {
    if start > 0.0 && end == 0.0 then Some((start, Moved(start, pct)))
    else if end > 0.0 && start == 0.0 then
      if 1.0 + pct / 100.0 == 0.0 then None else Some((end / (1.0 + pct / 100.0), end))
    else if start == 0.0 && end == 0.0 then Some((100.0, Moved(100.0, pct)))
    else Some((start, end))
  }

  /** `_extract_prices`. */
  function Prices(row: Row, pct: real, parse: Parser): Option<(real, real)> {
    Filled(FirstPrice(row, [PriceAtAnalysis, PriceAtAnalysisAlt], parse),
           FirstPrice(row, [PriceNow, CurrentPrice], parse), pct)
  }

  /** A pair related by `end == start * (1 + pct / 100)` moved by `pct` percent. */
  lemma MovedChange(p: real, pct: real)
    requires p != 0.0
    ensures (Moved(p, pct) - p) / p * 100.0 == pct
  {
    assert Moved(p, pct) - p == p * (pct / 100.0);
  }

  /** A price derived from the other one makes the pair consistent with the
      percent change, `end == start * (1 + pct / 100)`, so that
      `(end - start) / start * 100 == pct`. Only a present end price with a
      change of exactly -100% fails, dividing by zero. */
  lemma FilledMatchesChange(start: real, end: real, pct: real)
    requires start >= 0.0 && end >= 0.0 && (start == 0.0 || end == 0.0)
    ensures Filled(start, end, pct).None? <==> (start == 0.0 && end > 0.0 && pct == -100.0)
    ensures Filled(start, end, pct).Some? ==> Filled(start, end, pct).value.1 == Moved(Filled(start, end, pct).value.0, pct)
    ensures Filled(start, end, pct).Some? && Filled(start, end, pct).value.0 != 0.0 ==>
      var (s, e) := Filled(start, end, pct).value;
      (e - s) / s * 100.0 == pct
  {
    if start > 0.0 && end == 0.0 {
      MovedChange(start, pct);
    } else if end > 0.0 && start == 0.0 {
      var f := 1.0 + pct / 100.0;
      if f != 0.0 {
        var s := end / f;
        assert s * f == end;
        assert Moved(s, pct) == end;
        if s != 0.0 {
          MovedChange(s, pct);
        }
      }
    } else {
      MovedChange(100.0, pct);
    }
  }

  /** The price columns tried for one end of the move: the first readable
      value wins, 0 when there is none. */
  method ReadPrice(row: Row, columns: seq<string>, parse: Parser) returns (price: real)
    ensures price == FirstPrice(row, columns, parse)
  {
    price := 0.0;
    var i := 0;
    while i < |columns|
      invariant 0 <= i <= |columns|
      invariant FirstPrice(row, columns, parse) == FirstPrice(row, columns[i..], parse)
    {
      assert columns[i..][1..] == columns[i + 1..];
      var c := CellOf(row, columns[i]);
      if c.Some? {
        var v := PriceCell(c.value, parse);
        if v.Some? {
          price := v.value;
          return;
        }
      }
      i := i + 1;
    }
  }

  /** `_extract_prices`, step by step. */
  method ExtractPrices(row: Row, pct: real, parse: Parser) returns (r: Option<(real, real)>)
    ensures r == Prices(row, pct, parse)
  {
    var startPrice := ReadPrice(row, [PriceAtAnalysis, PriceAtAnalysisAlt], parse);
    var endPrice := ReadPrice(row, [PriceNow, CurrentPrice], parse);
    if startPrice > 0.0 && endPrice == 0.0 {
      endPrice := Moved(startPrice, pct);
    } else if endPrice > 0.0 && startPrice == 0.0 {
      if 1.0 + pct / 100.0 == 0.0 {
        return None;
      }
      startPrice := endPrice / (1.0 + pct / 100.0);
    } else if startPrice == 0.0 && endPrice == 0.0 {
      startPrice := 100.0;
      endPrice := Moved(startPrice, pct);
    }
    r := Some((startPrice, endPrice));
  }

  // ---------------------------------------------------------------------
  // Movements

  datatype Magnitude = Significant | Major | Extreme
  datatype Direction = Up | Down

  /** `_classify_magnitude`. */
  function Classify(absChange: real): Magnitude {
    if absChange >= 20.0 then Extreme
    else if absChange >= 10.0 then Major
    else Significant
  }

  /** `StockMovement`. The start date is the row's analysis-date cell, or
      the requested start date as text when the row has none. */
  datatype Movement = Movement(
    ticker: string,
    pct: real,
    startPrice: real,
    endPrice: real,
    startDate: Cell,
    endDate: string,
    magnitude: Magnitude,
    sector: Option<Cell>)
  {
    /** "up" only for a strictly positive change; no change counts as down. */
    function Direction(): Direction {
      if pct > 0.0 then Up else Down
    }

    function ChangeAbs(): (r: real)
      ensures r >= 0.0 && (r == pct || r == -pct)
    {
      if pct >= 0.0 then pct else -pct
    }
  }

  function ChangeAbsOf(m: Movement): real {
    m.ChangeAbs()
  }

  /** The row's ticker when it is text that is not blank once stripped;
      a missing ticker is the empty string and a non-text one raises. */
  function TickerOf(row: Row): Option<string> {
    var c := CellOf(row, TickerColumn);
    if c.Some? && c.value.Txt? && Text.Strip(c.value.s) != "" then Some(Text.Strip(c.value.s)) else None
  }

  /** `df[df['Ticker'].isin(tickers)]` for one row. */
  predicate Selected(row: Row, tickers: seq<string>) {
    tickers == [] || (CellOf(row, TickerColumn).Some? && CellOf(row, TickerColumn).value.Txt?
                      && CellOf(row, TickerColumn).value.s in tickers)
  }

  /** The frame has a ticker column. Rows carry their own keys here, so
      this asks every row for one; a pandas column is all rows or none. */
  predicate HasTickerColumn(rows: seq<Row>) {
    forall i :: 0 <= i < |rows| ==> TickerColumn in KeysOf(rows[i])
  }

  /** One row's movement, if it is selected, has a ticker, a readable
      change at least `threshold` in size, and prices that can be derived. */
  function RowMovement(row: Row, tickers: seq<string>, startDate: string, endDate: string,
                       threshold: real, parse: Parser): Option<Movement>
  {
    var ticker := TickerOf(row);
    var pct := PercentChange(row, parse);
    if !Selected(row, tickers) || ticker.None? || pct.None? then None
    else
      var size := if pct.value >= 0.0 then pct.value else -pct.value;
      if size < threshold then None
      else
        var prices := Prices(row, pct.value, parse);
        if prices.None? then None
        else
          var date := CellOf(row, DateColumn);
          Some(Movement(ticker.value, pct.value, prices.value.0, prices.value.1,
                        if date.Some? then date.value else Txt(startDate), endDate,
                        Classify(size), CellOf(row, SectorColumn)))
  }

  /** The movements of the rows, in row order. */
  function Candidates(rows: seq<Row>, tickers: seq<string>, startDate: string, endDate: string,
                      threshold: real, parse: Parser): seq<Movement>
  {
    if rows == [] then []
    else
      var m := RowMovement(rows[|rows| - 1], tickers, startDate, endDate, threshold, parse);
      Candidates(rows[..|rows| - 1], tickers, startDate, endDate, threshold, parse)
        + (if m.Some? then [m.value] else [])
  }

  /** `_identify_movements_fast`: the movements, largest move first. Asking
      for tickers when the frame has no ticker column raises, and no
      movements are reported. */
  function Identified(rows: seq<Row>, tickers: seq<string>, startDate: string, endDate: string,
                      threshold: real, parse: Parser): seq<Movement>
  {
    if tickers != [] && !HasTickerColumn(rows) then []
    else SortDesc(Candidates(rows, tickers, startDate, endDate, threshold, parse), ChangeAbsOf)
  }

  /** A movement as the pipeline builds it: a ticker, a change at least the
      threshold in size, and the magnitude band of that size. */
  predicate WellFormed(m: Movement, threshold: real) {
    m.ticker != [] && m.ChangeAbs() >= threshold && m.magnitude == Classify(m.ChangeAbs())
  }

  lemma {:induction false} CandidatesWellFormed(rows: seq<Row>, tickers: seq<string>, startDate: string,
                                               endDate: string, threshold: real, parse: Parser)
    ensures var c := Candidates(rows, tickers, startDate, endDate, threshold, parse);
      |c| <= |rows| && forall i :: 0 <= i < |c| ==> WellFormed(c[i], threshold)
  {
    if rows != [] {
      CandidatesWellFormed(rows[..|rows| - 1], tickers, startDate, endDate, threshold, parse);
    }
  }

  /** The candidates of a prefix of the rows start the candidates of all of them. */
  lemma {:induction false} CandidatesPrefix(rows: seq<Row>, k: nat, tickers: seq<string>, startDate: string,
                                           endDate: string, threshold: real, parse: Parser)
    requires k <= |rows|
    ensures Candidates(rows[..k], tickers, startDate, endDate, threshold, parse)
              <= Candidates(rows, tickers, startDate, endDate, threshold, parse)
  {
    if k == |rows| {
      assert rows[..k] == rows;
    } else {
      var init := rows[..|rows| - 1];
      assert init[..k] == rows[..k];
      CandidatesPrefix(init, k, tickers, startDate, endDate, threshold, parse);
    }
  }

  /** No qualifying row is lost: every movement a row yields is a candidate. */
  lemma CandidatesKeepRows(rows: seq<Row>, tickers: seq<string>, startDate: string,
                           endDate: string, threshold: real, parse: Parser)
    ensures var c := Candidates(rows, tickers, startDate, endDate, threshold, parse);
      forall i :: 0 <= i < |rows| && RowMovement(rows[i], tickers, startDate, endDate, threshold, parse).Some? ==>
        RowMovement(rows[i], tickers, startDate, endDate, threshold, parse).value in c
  {
    var c := Candidates(rows, tickers, startDate, endDate, threshold, parse);
    forall i | 0 <= i < |rows| && RowMovement(rows[i], tickers, startDate, endDate, threshold, parse).Some?
      ensures RowMovement(rows[i], tickers, startDate, endDate, threshold, parse).value in c
    {
      CandidatesPrefix(rows, i + 1, tickers, startDate, endDate, threshold, parse);
      var p := rows[..i + 1];
      assert p[|p| - 1] == rows[i];
      CandidatesLast(p, tickers, startDate, endDate, threshold, parse);
    }
  }

  /** The movement of the last row, when there is one, is a candidate. */
  lemma CandidatesLast(rows: seq<Row>, tickers: seq<string>, startDate: string,
                       endDate: string, threshold: real, parse: Parser)
    requires rows != []
    ensures var m := RowMovement(rows[|rows| - 1], tickers, startDate, endDate, threshold, parse);
      m.Some? ==> m.value in Candidates(rows, tickers, startDate, endDate, threshold, parse)
  {
  }

  /** Nothing is added: every candidate is the movement of some row. */
  lemma {:induction false} CandidatesFromRows(rows: seq<Row>, tickers: seq<string>, startDate: string,
                                             endDate: string, threshold: real, parse: Parser)
    ensures var c := Candidates(rows, tickers, startDate, endDate, threshold, parse);
      forall m :: m in c ==>
        exists i :: 0 <= i < |rows| && RowMovement(rows[i], tickers, startDate, endDate, threshold, parse) == Some(m)
  {
    if rows != [] {
      var init := rows[..|rows| - 1];
      CandidatesFromRows(init, tickers, startDate, endDate, threshold, parse);
      var c0 := Candidates(init, tickers, startDate, endDate, threshold, parse);
      var last := RowMovement(rows[|rows| - 1], tickers, startDate, endDate, threshold, parse);
      var c := c0 + (if last.Some? then [last.value] else []);
      assert c == Candidates(rows, tickers, startDate, endDate, threshold, parse);
      forall m | m in c
        ensures exists i :: 0 <= i < |rows| && RowMovement(rows[i], tickers, startDate, endDate, threshold, parse) == Some(m)
      {
        if m in c0 {
          var i :| 0 <= i < |init| && RowMovement(init[i], tickers, startDate, endDate, threshold, parse) == Some(m);
          assert rows[i] == init[i];
        } else {
          assert rows[|rows| - 1] == rows[|rows| - 1];
        }
      }
    }
  }

  /** Every identified movement meets the threshold and carries its
      magnitude band, and the list runs from the largest move down. When
      the rows can be filtered, the list holds exactly the rows' movements:
      a movement is listed if and only if some row yields it, as often as
      rows yield it. Asking for tickers of a frame without a ticker column
      lists nothing. */
  lemma IdentifiedMovements(rows: seq<Row>, tickers: seq<string>, startDate: string, endDate: string,
                            threshold: real, parse: Parser)
    ensures var ms := Identified(rows, tickers, startDate, endDate, threshold, parse);
      && |ms| <= |rows|
      && (forall i :: 0 <= i < |ms| ==> WellFormed(ms[i], threshold))
      && (forall i, j :: 0 <= i < j < |ms| ==> ms[i].ChangeAbs() >= ms[j].ChangeAbs())
    ensures tickers != [] && !HasTickerColumn(rows) ==>
      Identified(rows, tickers, startDate, endDate, threshold, parse) == []
    ensures tickers == [] || HasTickerColumn(rows) ==>
      multiset(Identified(rows, tickers, startDate, endDate, threshold, parse))
        == multiset(Candidates(rows, tickers, startDate, endDate, threshold, parse))
    ensures tickers == [] || HasTickerColumn(rows) ==>
      var ms := Identified(rows, tickers, startDate, endDate, threshold, parse);
      && (forall i :: 0 <= i < |rows| && RowMovement(rows[i], tickers, startDate, endDate, threshold, parse).Some? ==>
            RowMovement(rows[i], tickers, startDate, endDate, threshold, parse).value in ms)
      && (forall m :: m in ms ==>
            exists i :: 0 <= i < |rows| && RowMovement(rows[i], tickers, startDate, endDate, threshold, parse) == Some(m))
  {
    var c := Candidates(rows, tickers, startDate, endDate, threshold, parse);
    CandidatesWellFormed(rows, tickers, startDate, endDate, threshold, parse);
    CandidatesKeepRows(rows, tickers, startDate, endDate, threshold, parse);
    CandidatesFromRows(rows, tickers, startDate, endDate, threshold, parse);
    var ms := Identified(rows, tickers, startDate, endDate, threshold, parse);
    if tickers == [] || HasTickerColumn(rows) {
      forall m | m in ms ensures m in c {
        assert m in multiset(c);
      }
      forall m | m in c ensures m in ms {
        assert m in multiset(ms);
      }
    }
    forall i | 0 <= i < |ms| ensures WellFormed(ms[i], threshold) {
      assert ms[i] in multiset(c);
    }
    forall i, j | 0 <= i < j < |ms| ensures ms[i].ChangeAbs() >= ms[j].ChangeAbs() {
      assert ChangeAbsOf(ms[i]) >= ChangeAbsOf(ms[j]);
    }
  }

  /** The sort by size of move is stable: movements of the same size stay
      in row order. */
  lemma IdentifiedStable(rows: seq<Row>, tickers: seq<string>, startDate: string, endDate: string,
                         threshold: real, parse: Parser, size: real)
    requires tickers == [] || HasTickerColumn(rows)
    ensures KeyRun(Identified(rows, tickers, startDate, endDate, threshold, parse), ChangeAbsOf, size)
              == KeyRun(Candidates(rows, tickers, startDate, endDate, threshold, parse), ChangeAbsOf, size)
  {
    SortDescStable(Candidates(rows, tickers, startDate, endDate, threshold, parse), ChangeAbsOf, size);
  }

  /** The movement of one row, with the prices read step by step. */
  method RowToMovement(row: Row, tickers: seq<string>, startDate: string, endDate: string,
                       threshold: real, parse: Parser) returns (m: Option<Movement>)
    ensures m == RowMovement(row, tickers, startDate, endDate, threshold, parse)
  {
    var ticker := TickerOf(row);
    if !Selected(row, tickers) || ticker.None? {
      return None;
    }
    var pct := PercentChange(row, parse);
    if pct.None? {
      return None;
    }
    var size := if pct.value >= 0.0 then pct.value else -pct.value;
    if size < threshold {
      return None;
    }
    var prices := ExtractPrices(row, pct.value, parse);
    if prices.None? {
      return None;
    }
    var date := CellOf(row, DateColumn);
    m := Some(Movement(ticker.value, pct.value, prices.value.0, prices.value.1,
                       if date.Some? then date.value else Txt(startDate), endDate,
                       Classify(size), CellOf(row, SectorColumn)));
  }

  /** `_identify_movements_fast`: one pass over the rows, then the sort by
      size of move. */
  method IdentifyMovementsFast(rows: seq<Row>, tickers: seq<string>, startDate: string, endDate: string,
                               threshold: real, parse: Parser) returns (movements: seq<Movement>)
    ensures movements == Identified(rows, tickers, startDate, endDate, threshold, parse)
  {
    if tickers != [] && !HasTickerColumn(rows) {
      return [];
    }
    movements := [];
    for i := 0 to |rows|
      invariant movements == Candidates(rows[..i], tickers, startDate, endDate, threshold, parse)
    {
      assert rows[..i + 1][..i] == rows[..i];
      var m := RowToMovement(rows[i], tickers, startDate, endDate, threshold, parse);
      if m.Some? {
        movements := movements + [m.value];
      }
    }
    assert rows[..|rows|] == rows;
    movements := SortDesc(movements, ChangeAbsOf);
  }

  // ---------------------------------------------------------------------
  // Insights

  datatype Catalyst = EarningsOrNews | AnalystOrSector | Technical

  /** `MovementInsight` without its display texts. */
  datatype Insight = Insight(ticker: string, catalyst: Catalyst, confidence: nat)

  /** `_quick_insight`: the catalyst and the confidence follow the magnitude. */
  function QuickInsight(m: Movement): Insight {
    match m.magnitude
    case Extreme => Insight(m.ticker, EarningsOrNews, 4)
    case Major => Insight(m.ticker, AnalystOrSector, 3)
    case Significant => Insight(m.ticker, Technical, 2)
  }

  /** For a movement built by the pipeline, the confidence is 4, 3 or 2 as
      the move is at least 20, at least 10, or smaller, so a larger move
      never gets a lower confidence. */
  lemma ConfidenceTracksSize(m: Movement, n: Movement, threshold: real)
    requires WellFormed(m, threshold) && WellFormed(n, threshold)
    ensures QuickInsight(m).confidence == (if m.ChangeAbs() >= 20.0 then 4 else if m.ChangeAbs() >= 10.0 then 3 else 2)
    ensures m.ChangeAbs() <= n.ChangeAbs() ==> QuickInsight(m).confidence <= QuickInsight(n).confidence
  {
  }

  /** `_analyze_movements_fast`: one insight per movement, in order. */
  method AnalyzeMovementsFast(movements: seq<Movement>) returns (insights: seq<Insight>)
    ensures |insights| == |movements|
    ensures forall i :: 0 <= i < |movements| ==> insights[i] == QuickInsight(movements[i])
  {
    insights := [];
    for i := 0 to |movements|
      invariant |insights| == i
      invariant forall k :: 0 <= k < i ==> insights[k] == QuickInsight(movements[k])
    {
      insights := insights + [QuickInsight(movements[i])];
    }
  }

  // ---------------------------------------------------------------------
  // Recommendations

  datatype Priority = Critical | High | Medium

  /** The position of a priority in `{'critical': 0, 'high': 1, 'medium': 2}`. */
  function Rank(p: Priority): nat {
    match p
    case Critical => 0
    case High => 1
    case Medium => 2
  }

  /** What a recommendation advises, with the count its text reports. */
  datatype Advice =
    | RaiseSentimentWeight(newsDriven: nat)
    | EnhanceSectorAnalysis(sectorDriven: nat)
    | TightenRiskControls(extreme: nat)
    | AdjustForMarket(bullish: bool, dominant: nat)

  datatype Recommendation = Recommendation(priority: Priority, advice: Advice, confidence: nat)

  function CountUp(ms: seq<Movement>): (n: nat)
    ensures n <= |ms|
  {
    if ms == [] then 0
    else CountUp(ms[..|ms| - 1]) + (if ms[|ms| - 1].Direction() == Up then 1 else 0)
  }

  function CountExtreme(ms: seq<Movement>): (n: nat)
    ensures n <= |ms|
  {
    if ms == [] then 0
    else CountExtreme(ms[..|ms| - 1]) + (if ms[|ms| - 1].magnitude == Extreme then 1 else 0)
  }

  function CountCatalyst(insights: seq<Insight>, c: Catalyst): nat {
    if insights == [] then 0
    else CountCatalyst(insights[..|insights| - 1], c) + (if insights[|insights| - 1].catalyst == c then 1 else 0)
  }

  /** `part / total > ratio` in exact arithmetic. */
  predicate Exceeds(part: nat, total: nat, ratio: real)
    requires total > 0
  {
    part as real / total as real > ratio
  }

  /** The triggered recommendations, in the order they are appended. */
  function Triggered(newsDriven: nat, sectorDriven: nat, extreme: nat, up: nat, total: nat): seq<Recommendation>
    requires 0 < total && up <= total
  {
    var down := total - up;
    (if Exceeds(newsDriven, total, 0.3) then [Recommendation(High, RaiseSentimentWeight(newsDriven), 85)] else [])
    + (if Exceeds(sectorDriven, total, 0.25) then [Recommendation(Medium, EnhanceSectorAnalysis(sectorDriven), 75)] else [])
    + (if Exceeds(extreme, total, 0.2) then [Recommendation(Critical, TightenRiskControls(extreme), 90)] else [])
    + (if Exceeds(up, total, 0.7) || Exceeds(down, total, 0.7)
       then [Recommendation(Medium, AdjustForMarket(up > down, if up >= down then up else down), 70)] else [])
  }

  /** Sorting by `(rank, -confidence)` ascending is sorting by this key
      descending, as confidences stay below 1000. */
  function Urgency(r: Recommendation): real {
    r.confidence as real - 1000.0 * Rank(r.priority) as real
  }

  /** The urgency order is the lexicographic order on `(rank, -confidence)`. */
  lemma UrgencyIsLexicographic(a: Recommendation, b: Recommendation)
    requires a.confidence < 1000 && b.confidence < 1000
    ensures Urgency(a) >= Urgency(b) <==>
      Rank(a.priority) < Rank(b.priority) || (Rank(a.priority) == Rank(b.priority) && a.confidence >= b.confidence)
  {
  }

  /** `_generate_recommendations_fast` (every caller has at least one movement). */
  function Recommendations(movements: seq<Movement>, insights: seq<Insight>): seq<Recommendation>
    requires |movements| > 0
  {
    var raw := Triggered(CountCatalyst(insights, EarningsOrNews), CountCatalyst(insights, AnalystOrSector),
                         CountExtreme(movements), CountUp(movements), |movements|);
    SortDesc(raw, Urgency)
  }

  lemma TriggeredBounded(newsDriven: nat, sectorDriven: nat, extreme: nat, up: nat, total: nat)
    requires 0 < total && up <= total
    ensures var raw := Triggered(newsDriven, sectorDriven, extreme, up, total);
      |raw| <= 4 && forall r :: r in raw ==> r.confidence < 1000
  {
  }

  /** A list sorted by urgency is in `(rank, -confidence)` order. */
  lemma UrgencyOrder(rs: seq<Recommendation>)
    requires SortedDesc(rs, Urgency)
    requires forall i :: 0 <= i < |rs| ==> rs[i].confidence < 1000
    ensures forall i, j :: 0 <= i < j < |rs| ==>
      Rank(rs[i].priority) < Rank(rs[j].priority)
      || (Rank(rs[i].priority) == Rank(rs[j].priority) && rs[i].confidence >= rs[j].confidence)
  {
    forall i, j | 0 <= i < j < |rs|
      ensures Rank(rs[i].priority) < Rank(rs[j].priority)
              || (Rank(rs[i].priority) == Rank(rs[j].priority) && rs[i].confidence >= rs[j].confidence)
    {
      UrgencyIsLexicographic(rs[i], rs[j]);
    }
  }

  /** At most four recommendations, most urgent priority first and, within
      a priority, the higher confidence first. */
  lemma RecommendationsOrdered(movements: seq<Movement>, insights: seq<Insight>)
    requires |movements| > 0
    ensures var rs := Recommendations(movements, insights);
      && |rs| <= 4
      && forall i, j :: 0 <= i < j < |rs| ==>
           Rank(rs[i].priority) < Rank(rs[j].priority)
           || (Rank(rs[i].priority) == Rank(rs[j].priority) && rs[i].confidence >= rs[j].confidence)
  {
    var raw := Triggered(CountCatalyst(insights, EarningsOrNews), CountCatalyst(insights, AnalystOrSector),
                         CountExtreme(movements), CountUp(movements), |movements|);
    TriggeredBounded(CountCatalyst(insights, EarningsOrNews), CountCatalyst(insights, AnalystOrSector),
                     CountExtreme(movements), CountUp(movements), |movements|);
    var rs := SortDesc(raw, Urgency);
    forall i | 0 <= i < |rs| ensures rs[i].confidence < 1000 {
      assert rs[i] in multiset(raw);
    }
    UrgencyOrder(rs);
  }

  /** Which recommendations the counts trigger, each exactly when its ratio
      is exceeded: news-driven over 30%, sector-driven over 25%, extreme
      over 20%, one direction over 70% (calling the market bullish exactly
      when more moves were up), and no other. */
  lemma TriggeredContents(newsDriven: nat, sectorDriven: nat, extreme: nat, up: nat, total: nat)
    requires 0 < total && up <= total
    ensures var raw := Triggered(newsDriven, sectorDriven, extreme, up, total);
      var down := total - up;
      && (Recommendation(High, RaiseSentimentWeight(newsDriven), 85) in raw <==> Exceeds(newsDriven, total, 0.3))
      && (Recommendation(Medium, EnhanceSectorAnalysis(sectorDriven), 75) in raw <==> Exceeds(sectorDriven, total, 0.25))
      && (Recommendation(Critical, TightenRiskControls(extreme), 90) in raw <==> Exceeds(extreme, total, 0.2))
      && (Recommendation(Medium, AdjustForMarket(up > down, if up >= down then up else down), 70) in raw
          <==> Exceeds(up, total, 0.7) || Exceeds(down, total, 0.7))
      && |raw| == (if Exceeds(newsDriven, total, 0.3) then 1 else 0) + (if Exceeds(sectorDriven, total, 0.25) then 1 else 0)
                  + (if Exceeds(extreme, total, 0.2) then 1 else 0)
                  + (if Exceeds(up, total, 0.7) || Exceeds(down, total, 0.7) then 1 else 0)
  {
  }

  /** The recommendations are the triggered ones (see `TriggeredContents`),
      reordered and nothing else. */
  lemma RecommendationsAreTriggered(movements: seq<Movement>, insights: seq<Insight>)
    requires |movements| > 0
    ensures var rs := Recommendations(movements, insights);
      var raw := Triggered(CountCatalyst(insights, EarningsOrNews), CountCatalyst(insights, AnalystOrSector),
                           CountExtreme(movements), CountUp(movements), |movements|);
      |rs| == |raw| && forall r :: r in rs <==> r in raw
  {
    var raw := Triggered(CountCatalyst(insights, EarningsOrNews), CountCatalyst(insights, AnalystOrSector),
                         CountExtreme(movements), CountUp(movements), |movements|);
    SortDescMembers(raw, Urgency);
  }

  /** `_generate_recommendations_fast`: the catalyst tally is a dictionary
      filled in a loop, the rest counts and appends, then the sort. */
  method GenerateRecommendationsFast(movements: seq<Movement>, insights: seq<Insight>) returns (recs: seq<Recommendation>)
    requires |movements| > 0
    ensures recs == Recommendations(movements, insights)
  {
    var total := |movements|;
    var up := CountUp(movements);
    var extreme := CountExtreme(movements);
    var catalystTypes: seq<(Catalyst, nat)> := [];
    for i := 0 to |insights|
      invariant forall c :: GetOr(catalystTypes, c, 0) == CountCatalyst(insights[..i], c)
    {
      assert insights[..i + 1][..i] == insights[..i];
      var c := insights[i].catalyst;
      var next := Put(catalystTypes, c, GetOr(catalystTypes, c, 0) + 1);
      forall d ensures GetOr(next, d, 0) == CountCatalyst(insights[..i + 1], d) {
        GetAfterPut(catalystTypes, c, GetOr(catalystTypes, c, 0) + 1, d, 0);
      }
      catalystTypes := next;
    }
    assert insights[..|insights|] == insights;
    recs := Triggered(GetOr(catalystTypes, EarningsOrNews, 0), GetOr(catalystTypes, AnalystOrSector, 0),
                      extreme, up, total);
    recs := SortDesc(recs, Urgency);
  }

  // ---------------------------------------------------------------------
  // Report and history

  /** The parts of `_create_report`'s result that the pipeline computes
      (identifiers, timestamps and the summary prose are not modelled). */
  datatype Report = Report(
    startDate: string,
    endDate: string,
    totalMovements: nat,
    upMovements: nat,
    downMovements: nat,
    extremeMovements: nat,
    recommendationsCount: nat,
    topGainers: seq<Movement>,
    topLosers: seq<Movement>,
    insights: seq<Insight>,
    recommendations: seq<Recommendation>)

  function UpMoves(ms: seq<Movement>): seq<Movement> {
    if ms == [] then []
    else UpMoves(ms[..|ms| - 1]) + (if ms[|ms| - 1].Direction() == Up then [ms[|ms| - 1]] else [])
  }

  function DownMoves(ms: seq<Movement>): seq<Movement> {
    if ms == [] then []
    else DownMoves(ms[..|ms| - 1]) + (if ms[|ms| - 1].Direction() == Down then [ms[|ms| - 1]] else [])
  }

  function PctOf(m: Movement): real {
    m.pct
  }

  /** Ascending by change is descending by its negation, ties kept in order. */
  function NegPctOf(m: Movement): real {
    -m.pct
  }

  const TopMovers: nat := 10

  function CreateReport(movements: seq<Movement>, insights: seq<Insight>, recommendations: seq<Recommendation>,
                        startDate: string, endDate: string): Report
  {
    var up := UpMoves(movements);
    var down := DownMoves(movements);
    Report(startDate, endDate, |movements|, |up|, |down|, CountExtreme(movements), |recommendations|,
           TopGainersOf(movements), TopLosersOf(movements),
           insights, recommendations)
  }

  /** Every movement is up or down, never both. */
  lemma {:induction false} UpDownSplit(ms: seq<Movement>)
    ensures |UpMoves(ms)| + |DownMoves(ms)| == |ms|
    ensures |UpMoves(ms)| == CountUp(ms)
    ensures forall i :: 0 <= i < |UpMoves(ms)| ==> UpMoves(ms)[i].pct > 0.0
    ensures forall i :: 0 <= i < |DownMoves(ms)| ==> DownMoves(ms)[i].pct <= 0.0
  {
    if ms != [] {
      UpDownSplit(ms[..|ms| - 1]);
    }
  }

  /** The rising and the other movements together are all of them. */
  lemma {:induction false} UpDownPartition(ms: seq<Movement>)
    ensures multiset(UpMoves(ms)) + multiset(DownMoves(ms)) == multiset(ms)
  {
    if ms != [] {
      var init := ms[..|ms| - 1];
      var x := ms[|ms| - 1];
      UpDownPartition(init);
      var u0, d0 := UpMoves(init), DownMoves(init);
      assert ms == init + [x];
      if x.Direction() == Up {
        assert UpMoves(ms) == u0 + [x];
        assert DownMoves(ms) == d0;
      } else {
        assert UpMoves(ms) == u0;
        assert DownMoves(ms) == d0 + [x];
      }
    }
  }

  /** The ten rising movements with the largest change (all of them when
      fewer), largest first. */
  function TopGainersOf(movements: seq<Movement>): seq<Movement> {
    Take(SortDesc(UpMoves(movements), PctOf), TopMovers)
  }

  /** The ten other movements with the largest fall (all of them when
      fewer), largest fall first. */
  function TopLosersOf(movements: seq<Movement>): seq<Movement> {
    Take(SortDesc(DownMoves(movements), NegPctOf), TopMovers)
  }

  /** The top gainers all rose, and the list runs from the largest rise down. */
  lemma GainersOrdered(movements: seq<Movement>)
    ensures var g := TopGainersOf(movements);
      && (forall i :: 0 <= i < |g| ==> g[i].pct > 0.0)
      && (forall i, j :: 0 <= i < j < |g| ==> g[i].pct >= g[j].pct)
  {
    UpDownSplit(movements);
    var up := UpMoves(movements);
    var sorted := SortDesc(up, PctOf);
    var g := Take(sorted, TopMovers);
    forall i | 0 <= i < |g| ensures g[i].pct > 0.0 {
      assert g[i] == sorted[i];
      assert sorted[i] in multiset(up);
    }
    forall i, j | 0 <= i < j < |g| ensures g[i].pct >= g[j].pct {
      assert g[i] == sorted[i] && g[j] == sorted[j];
      assert PctOf(sorted[i]) >= PctOf(sorted[j]);
    }
  }

  /** The top losers all fell or stood still, and the list runs from the
      largest fall down. */
  lemma LosersOrdered(movements: seq<Movement>)
    ensures var l := TopLosersOf(movements);
      && (forall i :: 0 <= i < |l| ==> l[i].pct <= 0.0)
      && (forall i, j :: 0 <= i < j < |l| ==> l[i].pct <= l[j].pct)
  {
    UpDownSplit(movements);
    var down := DownMoves(movements);
    var sorted := SortDesc(down, NegPctOf);
    var l := Take(sorted, TopMovers);
    forall i | 0 <= i < |l| ensures l[i].pct <= 0.0 {
      assert l[i] == sorted[i];
      assert sorted[i] in multiset(down);
    }
    forall i, j | 0 <= i < j < |l| ensures l[i].pct <= l[j].pct {
      assert l[i] == sorted[i] && l[j] == sorted[j];
      assert NegPctOf(sorted[i]) >= NegPctOf(sorted[j]);
    }
  }

  /** The top gainers: the ten largest rises (all of them when fewer), drawn
      from the movements, largest rise first. No rising movement left out
      rose more than any listed one. */
  lemma TopGainers(movements: seq<Movement>)
    ensures var up := UpMoves(movements);
      var g := TopGainersOf(movements);
      && |g| == (if TopMovers < |up| then TopMovers else |up|)
      && multiset(g) <= multiset(up) <= multiset(movements)
      && (forall i :: 0 <= i < |g| ==> g[i].pct > 0.0)
      && (forall i, j :: 0 <= i < j < |g| ==> g[i].pct >= g[j].pct)
      && (forall x :: x in multiset(up) - multiset(g) ==> forall i :: 0 <= i < |g| ==> PctOf(x) <= PctOf(g[i]))
  {
    GainersOrdered(movements);
    UpDownPartition(movements);
    TopOfSorted(UpMoves(movements), PctOf, TopMovers);
  }

  /** The top losers: the ten largest falls (all of them when fewer), drawn
      from the movements that did not rise, largest fall first. No such
      movement left out fell further than any listed one. */
  lemma TopLosers(movements: seq<Movement>)
    ensures var down := DownMoves(movements);
      var l := TopLosersOf(movements);
      && |l| == (if TopMovers < |down| then TopMovers else |down|)
      && multiset(l) <= multiset(down) <= multiset(movements)
      && (forall i :: 0 <= i < |l| ==> l[i].pct <= 0.0)
      && (forall i, j :: 0 <= i < j < |l| ==> l[i].pct <= l[j].pct)
      && (forall x :: x in multiset(down) - multiset(l) ==> forall i :: 0 <= i < |l| ==> NegPctOf(x) <= NegPctOf(l[i]))
  {
    LosersOrdered(movements);
    UpDownPartition(movements);
    TopOfSorted(DownMoves(movements), NegPctOf, TopMovers);
  }

  /** The report's counts add up, and its top movers are the largest rises
      and falls among the movements, as above. */
  lemma ReportShape(movements: seq<Movement>, insights: seq<Insight>, recommendations: seq<Recommendation>,
                    startDate: string, endDate: string)
    ensures var r := CreateReport(movements, insights, recommendations, startDate, endDate);
      && r.upMovements + r.downMovements == r.totalMovements == |movements|
      && r.upMovements == CountUp(movements)
      && r.extremeMovements == CountExtreme(movements)
      && r.recommendationsCount == |recommendations|
      && |r.topGainers| == (if TopMovers < r.upMovements then TopMovers else r.upMovements)
      && |r.topLosers| == (if TopMovers < r.downMovements then TopMovers else r.downMovements)
      && multiset(r.topGainers) <= multiset(movements) && multiset(r.topLosers) <= multiset(movements)
      && (forall i :: 0 <= i < |r.topGainers| ==> r.topGainers[i].pct > 0.0)
      && (forall i :: 0 <= i < |r.topLosers| ==> r.topLosers[i].pct <= 0.0)
  {
    UpDownSplit(movements);
    TopGainers(movements);
    TopLosers(movements);
  }

  const ReportHistoryCap: nat := 50

  /** `_save_results`' history list: the new report appended, only the
      newest 50 kept. */
  function SavedHistory(history: seq<Report>, report: Report): (h: seq<Report>)
    ensures 0 < |h| <= ReportHistoryCap && h[|h| - 1] == report
    ensures |history| < ReportHistoryCap ==> h == history + [report]
    ensures |history| >= ReportHistoryCap ==> h[..|h| - 1] == history[|history| - (ReportHistoryCap - 1)..]
  {
    KeepNewest(history, report, ReportHistoryCap)
  }
}
