// TimExtractor (engine/extractors/tim.py): the monthly export figures of the
// Turkish Exporters Assembly. The sectoral Excel link is picked from the
// page's anchors, the header row and the monthly column are found by
// keyword, the total is read off the TOPLAM row and the three largest
// sectors are listed. The page's anchors, the workbook download and
// `str()` of a float are parameters.
module Tim {
  import opened Wrappers
  import opened Text
  import opened Numbers
  import opened Sorting

  /** The index of the first element passing `p`, or |s| when none does. */
  function FirstWhere<T>(s: seq<T>, p: T -> bool): (r: nat)
    ensures r <= |s|
    ensures r < |s| ==> p(s[r])
    ensures forall i :: 0 <= i < r ==> !p(s[i])
  {
    if s == [] then 0
    else if p(s[0]) then 0
    else 1 + FirstWhere(s[1..], p)
  }

  /** The index of the last element passing `p`, if any. */
  function LastWhere<T>(s: seq<T>, p: T -> bool): (r: Option<nat>)
    ensures r.Some? ==> r.value < |s| && p(s[r.value]) && forall i :: r.value < i < |s| ==> !p(s[i])
    ensures r.None? ==> forall i :: 0 <= i < |s| ==> !p(s[i])
  {
    if s == [] then None
    else if p(s[|s| - 1]) then Some(|s| - 1)
    else LastWhere(s[..|s| - 1], p)
  }

  // ----- the Excel link ------------------------------------------------------

  const Host: string := "https://tim.org.tr"

  /** `str(year)`. */
  function YearText(year: nat): string
  {
    NatToDigits(year)
  }

  /** A sectoral workbook of this year or the last: "sektorel" and ".xls" in the lower-cased href, and a year in the href itself. */
  predicate IsSectoralLink(href: string, year: nat)
    requires year >= 1
  {
    Contains(Lower(href), "sektorel") && Contains(Lower(href), ".xls") &&
    (Contains(href, YearText(year)) || Contains(href, YearText(year - 1)))
  }

  /** A relative href is taken against the site's host. */
  function Absolute(href: string): string
  {
    if StartsWith(href, "http") then href else Host + href
  }

  /** The link fetch_export_data downloads, if any. */
  function ExcelLink(hrefs: seq<string>, year: nat): Option<string>
    requires year >= 1
  {
    var i := FirstWhere(hrefs, h => IsSectoralLink(h, year));
    if i < |hrefs| then Some(Absolute(hrefs[i])) else None
  }

  /** The anchor loop, which stops at the first sectoral link. */
  method FindExcelLink(hrefs: seq<string>, year: nat) returns (link: Option<string>)
    requires year >= 1
    ensures link == ExcelLink(hrefs, year)
  {
    link := None;
    var i := 0;
    while i < |hrefs|
      invariant 0 <= i <= |hrefs|
      invariant forall j :: 0 <= j < i ==> !IsSectoralLink(hrefs[j], year)
    {
      var href := hrefs[i];
      if Contains(Lower(href), "sektorel") && Contains(Lower(href), ".xls") {
        if Contains(href, YearText(year)) || Contains(href, YearText(year - 1)) {
          link := Some(if StartsWith(href, "http") then href else Host + href);
          break;
        }
      }
      i := i + 1;
    }
    assert i == FirstWhere(hrefs, h => IsSectoralLink(h, year)) by {
      FirstWhereUnique(hrefs, h => IsSectoralLink(h, year), i);
    }
  }

  /** An index before which nothing passes and at which the element passes (or which is the end) is the first one. */
  lemma FirstWhereUnique<T>(s: seq<T>, p: T -> bool, i: nat)
    requires i <= |s| && (forall j :: 0 <= j < i ==> !p(s[j])) && (i < |s| ==> p(s[i]))
    ensures FirstWhere(s, p) == i
  {
  }

  /** The chosen link is the first sectoral anchor, made absolute; no link means no anchor qualifies. */
  lemma ExcelLinkChosen(hrefs: seq<string>, year: nat)
    requires year >= 1
    ensures ExcelLink(hrefs, year).Some? ==>
              exists i :: 0 <= i < |hrefs| && IsSectoralLink(hrefs[i], year) &&
                (forall j :: 0 <= j < i ==> !IsSectoralLink(hrefs[j], year)) &&
                ExcelLink(hrefs, year).value == Absolute(hrefs[i])
    ensures ExcelLink(hrefs, year).None? ==> forall j :: 0 <= j < |hrefs| ==> !IsSectoralLink(hrefs[j], year)
    ensures ExcelLink(hrefs, year).Some? ==> StartsWith(ExcelLink(hrefs, year).value, "http")
  {
    var i := FirstWhere(hrefs, h => IsSectoralLink(h, year));
    if i < |hrefs| {
      var href := hrefs[i];
      assert IsSectoralLink(href, year);
      if !StartsWith(href, "http") {
        assert (Host + href)[..4] == Host[..4];
      }
    }
  }

  // ----- the sheet -----------------------------------------------------------

  /** A spreadsheet cell as pandas reads it: a number, text, or NaN. */
  datatype Cell = Num(x: real) | Text(s: string) | Blank

  /** `str(cell)`: `show` is `str()` of a float; NaN prints as "nan". */
  function CellString(c: Cell, show: real -> string): string
  {
    match c
    case Num(x) => show(x)
    case Text(s) => s
    case Blank => "nan"
  }

  /** A row's cell at a column; a short row is padded with NaN, as pandas does. */
  function At(row: seq<Cell>, col: nat): Cell
  {
    if col < |row| then row[col] else Blank
  }

  /** The upper-cased strings of a row's cells. */
  function UpperCells(row: seq<Cell>, show: real -> string): (r: seq<string>)
    ensures |r| == |row|
    ensures forall i :: 0 <= i < |row| ==> r[i] == Upper(CellString(row[i], show))
  {
    if row == [] then [] else [Upper(CellString(row[0], show))] + UpperCells(row[1..], show)
  }

  /** A header row mentions "SEKTÖR" and is not a total row. */
  predicate IsHeaderRow(row: seq<Cell>, show: real -> string)
  {
    var text := Join(" ", UpperCells(row, show));
    Contains(text, "SEKTÖR") && !Contains(text, "TOPLAM")
  }

  /** The row the headers are read from: the first header row, else row 0. */
  function HeaderRow(grid: seq<seq<Cell>>, show: real -> string): (h: nat)
    ensures h < |grid| || grid == []
  {
    var i := FirstWhere(grid, row => IsHeaderRow(row, show));
    if i < |grid| then i else 0
  }

  /** The row loop, which stops at the first header row. */
  method FindHeaderRow(grid: seq<seq<Cell>>, show: real -> string) returns (start: nat)
    ensures start == HeaderRow(grid, show)
  {
    start := 0;
    var i := 0;
    while i < |grid|
      invariant 0 <= i <= |grid|
      invariant forall j :: 0 <= j < i ==> !IsHeaderRow(grid[j], show)
    {
      if IsHeaderRow(grid[i], show) {
        start := i;
        break;
      }
      i := i + 1;
    }
    FirstWhereUnique(grid, row => IsHeaderRow(row, show), i);
  }

  /** The header row is the first row that qualifies, and row 0 when none does. */
  lemma HeaderRowChosen(grid: seq<seq<Cell>>, show: real -> string)
    ensures var h := HeaderRow(grid, show);
            (h < |grid| && IsHeaderRow(grid[h], show) && forall j :: 0 <= j < h ==> !IsHeaderRow(grid[j], show)) ||
            (h == 0 && forall j :: 0 <= j < |grid| ==> !IsHeaderRow(grid[j], show))
  {
  }

  /** The column labels, `str(c).upper().strip()`. */
  function Labels(header: seq<Cell>, show: real -> string): (r: seq<string>)
    ensures |r| == |header|
  {
    if header == [] then [] else [Strip(Upper(CellString(header[0], show)))] + Labels(header[1..], show)
  }

  // ----- the monthly column --------------------------------------------------

  /** A column of year `y` that is not a cumulative one. */
  predicate Monthly(col: string, y: string)
  {
    Contains(col, y) && !Contains(col, "OCAK-ARALIK") && !Contains(col, "DÖNEM")
  }

  const Months: seq<string> :=
    ["OCAK", "ŞUBAT", "MART", "NİSAN", "MAYIS", "HAZİRAN", "TEMMUZ", "AĞUSTOS", "EYLÜL", "EKİM", "KASIM", "ARALIK"]

  predicate NamesMonth(col: string)
  {
    ContainsAny(col, Months)
  }

  /**
   * The column read: the first monthly column of this year; failing that,
   * the first monthly column of last year naming a month, or else the last
   * monthly column of last year.
   */
  function TargetColumn(labels: seq<string>, year: nat): (r: Option<nat>)
    requires year >= 1
    ensures r.Some? ==> r.value < |labels|
  {
    var cur := FirstWhere(labels, col => Monthly(col, YearText(year)));
    if cur < |labels| then Some(cur)
    else
      var named := FirstWhere(labels, col => Monthly(col, YearText(year - 1)) && NamesMonth(col));
      if named < |labels| then Some(named)
      else LastWhere(labels, col => Monthly(col, YearText(year - 1)))
  }

  /** A column is found exactly when some column is monthly for this year or the last, and the one found is. */
  lemma TargetColumnFound(labels: seq<string>, year: nat)
    requires year >= 1
    ensures TargetColumn(labels, year).Some? <==>
              exists i :: 0 <= i < |labels| && (Monthly(labels[i], YearText(year)) || Monthly(labels[i], YearText(year - 1)))
    ensures TargetColumn(labels, year).Some? ==>
              var c := labels[TargetColumn(labels, year).value];
              Monthly(c, YearText(year)) || Monthly(c, YearText(year - 1))
  {
    var cur := FirstWhere(labels, col => Monthly(col, YearText(year)));
    var named := FirstWhere(labels, col => Monthly(col, YearText(year - 1)) && NamesMonth(col));
    var last := LastWhere(labels, col => Monthly(col, YearText(year - 1)));
    if cur == |labels| && named == |labels| && last.None? {
      forall i | 0 <= i < |labels|
        ensures !Monthly(labels[i], YearText(year)) && !Monthly(labels[i], YearText(year - 1))
      {
      }
    }
  }

  /** This year's column wins: when one exists, the first is taken whatever last year offers. */
  lemma CurrentYearFirst(labels: seq<string>, year: nat, i: nat)
    requires year >= 1 && i < |labels| && Monthly(labels[i], YearText(year))
    requires forall j :: 0 <= j < i ==> !Monthly(labels[j], YearText(year))
    ensures TargetColumn(labels, year) == Some(i)
  {
    FirstWhereUnique(labels, col => Monthly(col, YearText(year)), i);
  }

  /** The two column loops: the first stops at this year's first monthly column; the second keeps the latest of last year's and stops at one naming a month. */
  method FindTargetColumn(labels: seq<string>, year: nat) returns (target: Option<nat>)
    requires year >= 1
    ensures target == TargetColumn(labels, year)
  {
    var yr := YearText(year);
    target := None;
    var i := 0;
    while i < |labels|
      invariant 0 <= i <= |labels|
      invariant forall j :: 0 <= j < i ==> !Monthly(labels[j], yr)
    {
      var col := labels[i];
      if Contains(col, yr) && !Contains(col, "OCAK-ARALIK") && !Contains(col, "DÖNEM") {
        target := Some(i);
        break;
      }
      i := i + 1;
    }
    FirstWhereUnique(labels, col => Monthly(col, YearText(year)), i);
    if target.None? {
      target := PreviousYearColumn(labels, YearText(year - 1));
    }
  }

  /** The fallback loop over last year's columns. */
  method PreviousYearColumn(labels: seq<string>, prev: string) returns (target: Option<nat>)
    ensures var named := FirstWhere(labels, col => Monthly(col, prev) && NamesMonth(col));
            target == if named < |labels| then Some(named) else LastWhere(labels, col => Monthly(col, prev))
  {
    target := None;
    var i := 0;
    while i < |labels|
      invariant 0 <= i <= |labels|
      invariant forall j :: 0 <= j < i ==> !(Monthly(labels[j], prev) && NamesMonth(labels[j]))
      invariant target == LastWhere(labels[..i], col => Monthly(col, prev))
    {
      var col := labels[i];
      LastWhereSnoc(labels, i, col => Monthly(col, prev));
      if Monthly(col, prev) {
        target := Some(i);
        if NamesMonth(col) {
          FirstWhereUnique(labels, col => Monthly(col, prev) && NamesMonth(col), i);
          return;
        }
      }
      i := i + 1;
    }
    FirstWhereUnique(labels, col => Monthly(col, prev) && NamesMonth(col), i);
    assert labels[..i] == labels;
  }

  lemma LastWhereSnoc<T>(s: seq<T>, i: nat, p: T -> bool)
    requires i < |s|
    ensures LastWhere(s[..i + 1], p) == if p(s[i]) then Some(i) else LastWhere(s[..i], p)
  {
    assert s[..i + 1][..i] == s[..i];
  }

  // ----- values --------------------------------------------------------------

  /** What a cell gives after the cleaning: a number, NaN, or a ValueError. */
  datatype Reading = Number(v: real) | NotANumber | Unparsable

  /** `float(s.replace(".", "").replace(",", "."))`: points are thousands separators, the comma is the decimal mark. */
  function CleanNumber(s: string): Option<real>
  {
    ParseFloat(ReplaceChar(RemoveChar(s, '.'), ',', '.'))
  }

  function ReadingOf(c: Cell): Reading
  {
    match c
    case Num(x) => Number(x)
    case Blank => NotANumber
    case Text(s) => if CleanNumber(s).Some? then Number(CleanNumber(s).value) else Unparsable
  }

  /** A Turkish-formatted figure `a.b,c` reads as the decimal `ab.c`. */
  lemma CleanTurkish(a: string, b: string, c: string)
    requires a != [] && AllDigits(a) && AllDigits(b) && AllDigits(c)
    ensures CleanNumber(a + "." + b + "," + c) == Some(DecimalValue(a + b, c))
  {
    DigitsNoSeparator(a);
    DigitsNoSeparator(b);
    DigitsNoSeparator(c);
    var tail := b + "," + c;
    assert '.' !in tail by {
      assert tail == b + [','] + c;
    }
    assert a + "." + b + "," + c == a + ['.'] + tail;
    RemoveCharOne(a, tail, '.');
    assert a + tail == (a + b) + "," + c;
    CommaToPoint(a + b, c);
    ParseDecimalParts(a + b, c);
  }

  /** The total in thousands of dollars, in billions. */
  function Billions(thousands: real): real
  {
    thousands / 1000000.0
  }

  // ----- sectors -------------------------------------------------------------

  const Skipped: seq<string> := ["TOPLAM", "GENEL TOPLAM", "nan", "None", "SEKTÖRLER", "SECTORS"]

  datatype Sector = Sector(name: string, value: real)

  /** A row's sector: its stripped name, unless a total or header, with a positive value in the column. */
  function SectorOf(row: seq<Cell>, col: nat, show: real -> string): Option<Sector>
  {
    var name := Strip(CellString(At(row, 0), show));
    if name in Skipped || Contains(name, "TOPLAM") then None
    else match ReadingOf(At(row, col))
      case Number(v) => if v > 0.0 then Some(Sector(name, v)) else None
      case _ => None
  }

  /** The sectors of the rows, in row order. */
  function Sectors(rows: seq<seq<Cell>>, col: nat, show: real -> string): seq<Sector>
  {
    if rows == [] then []
    else
      var s := SectorOf(rows[|rows| - 1], col, show);
      Sectors(rows[..|rows| - 1], col, show) + (if s.Some? then [s.value] else [])
  }

  /** Every listed sector comes from one of the rows. */
  lemma {:induction false} SectorsFromRows(rows: seq<seq<Cell>>, col: nat, show: real -> string, x: Sector)
    requires x in Sectors(rows, col, show)
    ensures exists i :: 0 <= i < |rows| && SectorOf(rows[i], col, show) == Some(x)
  {
    var init := rows[..|rows| - 1];
    if x in Sectors(init, col, show) {
      SectorsFromRows(init, col, show, x);
      var i :| 0 <= i < |init| && SectorOf(init[i], col, show) == Some(x);
      assert rows[i] == init[i];
    }
  }

  /** Every row with a sector is listed. */
  lemma {:induction false} SectorsComplete(rows: seq<seq<Cell>>, col: nat, show: real -> string, i: nat)
    requires i < |rows| && SectorOf(rows[i], col, show).Some?
    ensures SectorOf(rows[i], col, show).value in Sectors(rows, col, show)
  {
    var init := rows[..|rows| - 1];
    if i < |rows| - 1 {
      assert rows[i] == init[i];
      SectorsComplete(init, col, show, i);
    }
  }

  /** The row loop appending to `sectors`. */
  method CollectSectors(rows: seq<seq<Cell>>, col: nat, show: real -> string) returns (sectors: seq<Sector>)
    ensures sectors == Sectors(rows, col, show)
  {
    sectors := [];
    for i := 0 to |rows|
      invariant sectors == Sectors(rows[..i], col, show)
    {
      assert rows[..i + 1][..i] == rows[..i];
      var secName := Strip(CellString(At(rows[i], 0), show));
      if secName !in Skipped && !Contains(secName, "TOPLAM") {
        var v := ReadingOf(At(rows[i], col));
        if v.Number? && v.v > 0.0 {
          sectors := sectors + [Sector(secName, v.v)];
        }
      }
    }
    assert rows[..|rows|] == rows;
  }

  function SectorValue(s: Sector): real
  {
    s.value
  }

  const TopCount: nat := 3

  /** `sectors.sort(key=value, reverse=True)` and the first three. */
  function TopSectors(rows: seq<seq<Cell>>, col: nat, show: real -> string): seq<Sector>
  {
    Take(SortBy(Sectors(rows, col, show), SectorValue, Flip(RealLess())), TopCount)
  }

  /**
   * At most three sectors, largest first, each a named non-total row with a
   * positive value; a sector left out is worth no more than any listed one,
   * and only when three are listed.
   */
  lemma TopSectorsRanked(rows: seq<seq<Cell>>, col: nat, show: real -> string)
    ensures var top := TopSectors(rows, col, show);
            |top| <= TopCount &&
            SortedBy(top, SectorValue, Flip(RealLess())) &&
            (forall x :: x in top ==> x.value > 0.0 && x.name !in Skipped && !Contains(x.name, "TOPLAM") &&
                                      exists i :: 0 <= i < |rows| && SectorOf(rows[i], col, show) == Some(x)) &&
            forall i :: 0 <= i < |rows| && SectorOf(rows[i], col, show).Some? && SectorOf(rows[i], col, show).value !in top ==>
              |top| == TopCount && forall x :: x in top ==> x.value >= SectorOf(rows[i], col, show).value.value
  {
    var all := Sectors(rows, col, show);
    var sorted := SortBy(all, SectorValue, Flip(RealLess()));
    var top := Take(sorted, TopCount);
    RealLessTotal();
    FlipStrictTotal(RealLess());
    SortBySorted(all, SectorValue, Flip(RealLess()));
    forall x | x in top
      ensures x.value > 0.0 && x.name !in Skipped && !Contains(x.name, "TOPLAM") &&
              exists i :: 0 <= i < |rows| && SectorOf(rows[i], col, show) == Some(x)
    {
      SortByMembers(all, SectorValue, Flip(RealLess()), x);
      SectorsFromRows(rows, col, show, x);
    }
    forall i | 0 <= i < |rows| && SectorOf(rows[i], col, show).Some? && SectorOf(rows[i], col, show).value !in top
      ensures |top| == TopCount && forall x :: x in top ==> x.value >= SectorOf(rows[i], col, show).value.value
    {
      var s := SectorOf(rows[i], col, show).value;
      SectorsComplete(rows, col, show, i);
      SortByMembers(all, SectorValue, Flip(RealLess()), s);
      TakeKeepsTop(sorted, SectorValue, Flip(RealLess()), TopCount, s);
    }
  }

  // ----- fetch_export_data ---------------------------------------------------

  /** The result; `total` is None where the source would return NaN. */
  datatype Exports = Exports(total: Option<real>, date: string, topSectors: seq<Sector>, sourceUrl: string)

  /** The first data row whose first column mentions "toplam" in any case. */
  predicate IsTotalRow(row: seq<Cell>, show: real -> string)
  {
    Contains(Lower(CellString(At(row, 0), show)), "toplam")
  }

  /** The index of the total row, or |rows| when there is none. */
  function TotalRow(rows: seq<seq<Cell>>, show: real -> string): (t: nat)
    ensures t <= |rows|
    ensures t < |rows| ==> IsTotalRow(rows[t], show)
    ensures forall j :: 0 <= j < t ==> !IsTotalRow(rows[j], show)
  {
    FirstWhere(rows, row => IsTotalRow(row, show))
  }

  /** The result once the total row `t` and the column `col` (labelled `date`) are known. */
  function FromColumn(rows: seq<seq<Cell>>, t: nat, col: nat, date: string, show: real -> string, link: string): Option<Exports>
    requires t < |rows|
  {
    var reading := ReadingOf(At(rows[t], col));
    if reading.Unparsable? then None
    else
      var total := if reading.Number? then Some(Billions(reading.v)) else None;
      Some(Exports(total, date, TopSectors(rows, col, show), link))
  }

  /** The result once the header row is known: `labels` heads the data `rows`. */
  function FromRows(labels: seq<string>, rows: seq<seq<Cell>>, year: nat, show: real -> string, link: string): Option<Exports>
    requires year >= 1
  {
    var t := TotalRow(rows, show);
    if t == |rows| then None
    else
      var col := TargetColumn(labels, year);
      if col.None? then None
      else FromColumn(rows, t, col.value, labels[col.value], show, link)
  }

  /** What the workbook at `link` gives once read into `grid`. */
  function FromSheet(grid: seq<seq<Cell>>, year: nat, show: real -> string, link: string): Option<Exports>
    requires year >= 1 && grid != []
  {
    var start := HeaderRow(grid, show);
    FromRows(Labels(grid[start], show), grid[start + 1..], year, show, link)
  }

  /**
   * What fetch_export_data returns: `page` holds the anchors' hrefs (None
   * for a failed request) and `workbook` downloads and reads a sheet
   * (None for a failed request).
   */
  function ExportData(page: Option<seq<string>>, year: nat, workbook: string -> Option<seq<seq<Cell>>>, show: real -> string): (r: Option<Exports>)
    requires year >= 1
    ensures r.Some? ==> page.Some? && ExcelLink(page.value, year).Some? &&
                        workbook(ExcelLink(page.value, year).value).Some? &&
                        r.value.sourceUrl == ExcelLink(page.value, year).value
  {
    if page.None? then None
    else
      var link := ExcelLink(page.value, year);
      if link.None? then None
      else
        var grid := workbook(link.value);
        if grid.None? || grid.value == [] then None
        else FromSheet(grid.value, year, show, link.value)
  }

  /** The parsing steps of fetch_export_data. */
  method ReadSheet(grid: seq<seq<Cell>>, year: nat, show: real -> string, link: string) returns (result: Option<Exports>)
    requires year >= 1 && grid != []
    ensures result == FromSheet(grid, year, show, link)
  {
    var start := FindHeaderRow(grid, show);
    var labels := Labels(grid[start], show);
    var rows := grid[start + 1..];
    assert FromSheet(grid, year, show, link) == FromRows(labels, rows, year, show, link);
    result := ReadRows(labels, rows, year, show, link);
  }

  /** The rows below the header: the total row, the target column, then the readings. */
  method ReadRows(labels: seq<string>, rows: seq<seq<Cell>>, year: nat, show: real -> string, link: string)
    returns (result: Option<Exports>)
    requires year >= 1
    ensures result == FromRows(labels, rows, year, show, link)
  {
    var t := TotalRow(rows, show);
    if t == |rows| {
      return None;
    }
    var col := FindTargetColumn(labels, year);
    if col.None? {
      return None;
    }
    result := ReadTotal(rows, t, col.value, labels[col.value], show, link);
  }

  /** The total and the sectors in the chosen column. */
  method ReadTotal(rows: seq<seq<Cell>>, t: nat, col: nat, date: string, show: real -> string, link: string) returns (result: Option<Exports>)
    requires t < |rows|
    ensures result == FromColumn(rows, t, col, date, show, link)
  {
    var reading := ReadingOf(At(rows[t], col));
    if reading.Unparsable? {
      return None;
    }
    var sectors := CollectSectors(rows, col, show);
    sectors := SortBy(sectors, SectorValue, Flip(RealLess()));
    var total := if reading.Number? then Some(Billions(reading.v)) else None;
    result := Some(Exports(total, date, Take(sectors, TopCount), link));
  }

  /** fetch_export_data: the page, the link, the download, then the sheet. */
  method FetchExportData(page: Option<seq<string>>, year: nat, workbook: string -> Option<seq<seq<Cell>>>, show: real -> string)
    returns (result: Option<Exports>)
    requires year >= 1
    ensures result == ExportData(page, year, workbook, show)
  {
    if page.None? {
      return None;
    }
    var link := FindExcelLink(page.value, year);
    if link.None? {
      return None;
    }
    var grid := workbook(link.value);
    if grid.None? || grid.value == [] {
      return None;
    }
    result := ReadSheet(grid.value, year, show, link.value);
  }

  /** Rows below a header give a result naming a monthly column of this year or the last, with at most three sectors. */
  lemma RowsSound(labels: seq<string>, rows: seq<seq<Cell>>, year: nat, show: real -> string, link: string)
    requires year >= 1
    ensures var r := FromRows(labels, rows, year, show, link);
            r.Some? ==>
              r.value.sourceUrl == link &&
              (Monthly(r.value.date, YearText(year)) || Monthly(r.value.date, YearText(year - 1))) &&
              |r.value.topSectors| <= TopCount
  {
    TargetColumnFound(labels, year);
    var col := TargetColumn(labels, year);
    if TotalRow(rows, show) < |rows| && col.Some? {
      TopSectorsRanked(rows, col.value, show);
    }
  }

  /** A sheet's result names a monthly column of this year or the last and lists at most three sectors. */
  lemma SheetSound(grid: seq<seq<Cell>>, year: nat, show: real -> string, link: string)
    requires year >= 1 && grid != []
    ensures var r := FromSheet(grid, year, show, link);
            r.Some? ==>
              r.value.sourceUrl == link &&
              (Monthly(r.value.date, YearText(year)) || Monthly(r.value.date, YearText(year - 1))) &&
              |r.value.topSectors| <= TopCount
  {
    var start := HeaderRow(grid, show);
    RowsSound(Labels(grid[start], show), grid[start + 1..], year, show, link);
  }

  /** A result comes from an absolute sectoral link of this year or the last and a monthly column of either year, with at most three sectors. */
  lemma ExportDataSound(page: Option<seq<string>>, year: nat, workbook: string -> Option<seq<seq<Cell>>>, show: real -> string)
    requires year >= 1
    ensures var r := ExportData(page, year, workbook, show);
            r.Some? ==>
              StartsWith(r.value.sourceUrl, "http") &&
              (Monthly(r.value.date, YearText(year)) || Monthly(r.value.date, YearText(year - 1))) &&
              |r.value.topSectors| <= TopCount
  {
    if page.Some? && ExcelLink(page.value, year).Some? {
      var link := ExcelLink(page.value, year).value;
      ExcelLinkChosen(page.value, year);
      var grid := workbook(link);
      if grid.Some? && grid.value != [] {
        SheetSound(grid.value, year, show, link);
      }
    }
  }
}
