/** Loading a TGE price table from an uploaded CSV file (`wczytaj_csv` in
    Kalkulator_Flix/app/app.py). Reading and splitting the file is not part of
    the model: a table arrives as its header cells and its rows of cells. The
    two library conversions the loader relies on, date-time parsing and
    text-to-number conversion, are parameters. */
module Loader {
  import opened Wrappers
  import opened Series
  import opened Seqs

  /** The byte-order mark that a UTF-8 export can leave in the first header. */
  const Bom: char := '\U{FEFF}'

  /** The characters Python's `str.strip()` removes (those for which
      `str.isspace` holds). U+FEFF is not one of them. */
  predicate IsSpace(c: char)
  {
    || c == ' ' || ('\t' <= c <= '\r') || ('\U{1C}' <= c <= '\U{1F}')
    || c == '\U{85}' || c == '\U{A0}' || c == '\U{1680}'
    || ('\U{2000}' <= c <= '\U{200A}') || c == '\U{2028}' || c == '\U{2029}'
    || c == '\U{202F}' || c == '\U{205F}' || c == '\U{3000}'
  }

  // ---------------------------------------------------------------------------
  // Header normalisation: strip, then lower-case, then delete every U+FEFF
  // ---------------------------------------------------------------------------

  function StripLeft(s: string): (r: string)
    ensures |r| <= |s| && r == s[|s| - |r|..]
    ensures forall i :: 0 <= i < |s| - |r| ==> IsSpace(s[i])
    ensures r != [] ==> !IsSpace(r[0])
  {
    if s != [] && IsSpace(s[0]) then StripLeft(s[1..]) else s
  }

  function StripRight(s: string): (r: string)
    ensures |r| <= |s| && r == s[..|r|]
    ensures forall i :: |r| <= i < |s| ==> IsSpace(s[i])
    ensures r != [] ==> !IsSpace(r[|r| - 1])
  {
    if s != [] && IsSpace(s[|s| - 1]) then StripRight(s[..|s| - 1]) else s
  }

  /** `str.strip()`: the infix of `s` left once the whitespace at both ends is
      cut off. Everything cut off is whitespace, and the result neither starts
      nor ends with whitespace. */
  function Strip(s: string): (r: string)
    ensures |s| - |StripLeft(s)| + |r| <= |s|
    ensures r == s[|s| - |StripLeft(s)|..|s| - |StripLeft(s)| + |r|]
    ensures forall i :: 0 <= i < |s| - |StripLeft(s)| ==> IsSpace(s[i])
    ensures forall i :: |s| - |StripLeft(s)| + |r| <= i < |s| ==> IsSpace(s[i])
    ensures r != [] ==> !IsSpace(r[0]) && !IsSpace(r[|r| - 1])
  {
    var l := StripLeft(s);
    var r := StripRight(l);
    StripBothEnds(s, l, r);
    r
  }

  /** The facts behind Strip: the left strip is a suffix of `s` and the right
      strip a prefix of that suffix, so the result is an infix of `s` and the
      two cut-off ends consist of whitespace. */
  lemma StripBothEnds(s: string, l: string, r: string)
    requires |l| <= |s| && l == s[|s| - |l|..]
    requires |r| <= |l| && r == l[..|r|]
    requires forall i :: |r| <= i < |l| ==> IsSpace(l[i])
    ensures |s| - |l| + |r| <= |s|
    ensures r == s[|s| - |l|..|s| - |l| + |r|]
    ensures forall i :: |s| - |l| + |r| <= i < |s| ==> IsSpace(s[i])
  {
    var k := |s| - |l|;
    assert forall i :: k <= i < |s| ==> s[i] == l[i - k];
  }

  /** Lower-casing, restricted to the ASCII letters. */
  function LowerChar(c: char): char
  {
    if 'A' <= c <= 'Z' then (c as int - 'A' as int + 'a' as int) as char else c
  }

  /** `str.lower()`: each character lower-cased where it stands. */
  function Lower(s: string): (r: string)
    ensures |r| == |s|
    ensures forall i :: 0 <= i < |s| ==> r[i] == LowerChar(s[i])
  {
    if s == [] then [] else [LowerChar(s[0])] + Lower(s[1..])
  }

  /** Lower-casing works character by character, so it distributes over
      concatenation. */
  lemma {:induction false} LowerAppend(a: string, b: string)
    ensures Lower(a + b) == Lower(a) + Lower(b)
  {
    if a == [] {
      assert a + b == b;
    } else {
      assert (a + b)[1..] == a[1..] + b;
      LowerAppend(a[1..], b);
    }
  }

  /** `str.replace("\uFEFF", "")`: every byte-order mark deleted and nothing
      else, so the text never grows. */
  function RemoveBom(s: string): (r: string)
    ensures |r| <= |s|
  {
    if s == [] then [] else (if s[0] == Bom then [] else [s[0]]) + RemoveBom(s[1..])
  }

  /** A text without the mark is left as it is. */
  lemma {:induction false} RemoveBomWithoutMark(s: string)
    requires Bom !in s
    ensures RemoveBom(s) == s
  {
    if s != [] {
      assert s == [s[0]] + s[1..];
      RemoveBomWithoutMark(s[1..]);
    }
  }

  /** Every character other than the mark stays. */
  lemma {:induction false} RemoveBomMembers(s: string, c: char)
    ensures c in RemoveBom(s) <==> c in s && c != Bom
  {
    if s != [] {
      assert s == [s[0]] + s[1..];
      RemoveBomMembers(s[1..], c);
    }
  }

  /** Exactly as many characters go as there were byte-order marks. */
  lemma {:induction false} RemoveBomLength(s: string)
    ensures |RemoveBom(s)| == |s| - multiset(s)[Bom]
  {
    if s != [] {
      assert s == [s[0]] + s[1..];
      RemoveBomLength(s[1..]);
    }
  }

  /** Deletion distributes over concatenation: the characters that stay keep
      their order. */
  lemma {:induction false} RemoveBomAppend(a: string, b: string)
    ensures RemoveBom(a + b) == RemoveBom(a) + RemoveBom(b)
  {
    if a == [] {
      assert a + b == b;
    } else {
      assert (a + b)[1..] == a[1..] + b;
      RemoveBomAppend(a[1..], b);
    }
  }

  /** The normalised name of one header: strip, lower, then remove U+FEFF, in
      that order. The name holds no byte-order mark and no upper-case ASCII
      letter. */
  function NormaliseHeader(h: string): (r: string)
    ensures Bom !in r
    ensures forall c :: c in r ==> !IsUpper(c)
  {
    var low := Lower(Strip(h));
    RemoveBomMembers(low, Bom);
    LowerHasNoUpper(Strip(h));
    RemoveBomKeepsNoUpper(low);
    RemoveBom(low)
  }

  /** An upper-case ASCII letter. */
  predicate IsUpper(c: char)
  {
    'A' <= c <= 'Z'
  }

  /** Lower-casing leaves no upper-case ASCII letter. */
  lemma LowerHasNoUpper(s: string)
    ensures forall c :: c in Lower(s) ==> !IsUpper(c)
  {
    forall c | c in Lower(s)
      ensures !IsUpper(c)
    {
      var i :| 0 <= i < |s| && Lower(s)[i] == c;
    }
  }

  /** Removing byte-order marks adds no character. */
  lemma RemoveBomKeepsNoUpper(s: string)
    requires forall c :: c in s ==> !IsUpper(c)
    ensures forall c :: c in RemoveBom(s) ==> !IsUpper(c)
  {
    forall c | c in RemoveBom(s)
      ensures !IsUpper(c)
    {
      RemoveBomMembers(s, c);
    }
  }

  /** Because stripping comes first, a header that starts with a byte-order
      mark followed by whitespace keeps that whitespace: removing the mark
      afterwards exposes it, and the header is then no date header. */
  lemma BomShieldsSpace(h: string, k: nat)
    requires |h| >= 2 && h[0] == Bom && IsSpace(h[1])
    requires 2 <= k < |h| && !IsSpace(h[k])
    ensures |NormaliseHeader(h)| > 0 && IsSpace(NormaliseHeader(h)[0])
    ensures !IsDateName(NormaliseHeader(h))
  {
    BomHeaderFront(h, k);
    SpaceFirstIsNoDateName(NormaliseHeader(h));
  }

  /** The whitespace after a leading mark opens the normalised name. */
  lemma BomHeaderFront(h: string, k: nat)
    requires |h| >= 2 && h[0] == Bom && IsSpace(h[1])
    requires 2 <= k < |h| && !IsSpace(h[k])
    ensures |NormaliseHeader(h)| > 0 && NormaliseHeader(h)[0] == h[1]
  {
    var s := Strip(h);
    BomStripped(h, k);
    BomThenSpace(s);
    NormaliseStripped(h);
    assert NormaliseHeader(h) == [s[1]] + RemoveBom(Lower(s[2..]));
  }

  /** Stripping keeps the leading mark and the whitespace after it. */
  lemma BomStripped(h: string, k: nat)
    requires |h| >= 2 && h[0] == Bom && IsSpace(h[1])
    requires 2 <= k < |h| && !IsSpace(h[k])
    ensures |Strip(h)| >= 2 && Strip(h)[0] == Bom && Strip(h)[1] == h[1]
    ensures !IsSpace(Strip(h)[|Strip(h)| - 1])
  {
    StripKeepsFront(h, k);
    var s := Strip(h);
    assert s[0] == h[0] && s[1] == h[1];
  }

  /** A header that starts with a non-space character keeps its front when
      stripped, up to and beyond any non-space character `k`. */
  lemma StripKeepsFront(h: string, k: nat)
    requires k < |h| && !IsSpace(h[0]) && !IsSpace(h[k])
    ensures k < |Strip(h)| && Strip(h) == h[..|Strip(h)|]
  {
    var l := StripLeft(h);
    assert |h| - |l| == 0;
  }

  /** Normalising a stripped header gives the same name: stripping twice
      strips nothing more. */
  lemma NormaliseStripped(h: string)
    ensures NormaliseHeader(Strip(h)) == NormaliseHeader(h)
  {
    if Strip(h) != [] {
      NoEdgeSpaceStripsToItself(Strip(h));
    }
  }

  lemma SpaceFirstIsNoDateName(n: string)
    requires n != [] && IsSpace(n[0])
    ensures !IsDateName(n)
  {
    assert n[0] != 'd';
  }

  lemma BomThenSpace(h: string)
    requires |h| >= 2 && h[0] == Bom && IsSpace(h[1]) && !IsSpace(h[|h| - 1])
    ensures NormaliseHeader(h) == [h[1]] + RemoveBom(Lower(h[2..]))
  {
    NormaliseUnpadded(h);
    assert h[1..][0] == h[1] && h[1..][1..] == h[2..];
    RemoveBomCons(Bom, Lower(h[1..]));
    RemoveBomCons(h[1], Lower(h[2..]));
  }

  /** A header without whitespace at its ends is only lower-cased and cleared
      of marks. */
  lemma NormaliseUnpadded(h: string)
    requires h != [] && !IsSpace(h[0]) && !IsSpace(h[|h| - 1])
    ensures NormaliseHeader(h) == RemoveBom(Lower(h))
  {
    NoEdgeSpaceStripsToItself(h);
  }

  /** Deleting the marks from a string with a known first character. */
  lemma RemoveBomCons(c: char, s: string)
    ensures RemoveBom([c] + s) == (if c == Bom then [] else [c]) + RemoveBom(s)
  {
    assert ([c] + s)[1..] == s;
  }

  /** `df.columns` after the reassignment: every header normalised. */
  function Normalised(header: seq<string>): seq<string>
  {
    seq(|header|, i requires 0 <= i < |header| => NormaliseHeader(header[i]))
  }

  /** The reassignment of `df.columns`, header by header. */
  method NormaliseColumns(header: seq<string>) returns (cols: seq<string>)
    ensures cols == Normalised(header)
  {
    cols := Apply(header, NormaliseHeader);
  }

  // ---------------------------------------------------------------------------
  // Column selection
  // ---------------------------------------------------------------------------

  /** The accepted names of the date column. */
  predicate IsDateName(c: string)
  {
    c == "data" || c == "date" || c == "datetime"
  }

  predicate HasPrefix(s: string, prefix: string)
  {
    |prefix| <= |s| && s[..|prefix|] == prefix
  }

  /** Python's `sub in s` on strings. */
  predicate Contains(s: string, sub: string)
    decreases |s|
  {
    HasPrefix(s, sub) || (s != [] && Contains(s[1..], sub))
  }

  /** The test for the price column: the name mentions "fixing". */
  predicate MentionsFixing(c: string)
  {
    Contains(c, "fixing")
  }

  /** `next((c for c in cols if p(c)), None)`: the index of the first column
      satisfying `p`; None exactly when no column does. */
  function FirstIndex(cols: seq<string>, p: string -> bool): (r: Option<nat>)
    ensures r.Some? ==> r.value < |cols| && p(cols[r.value])
    ensures r.Some? ==> forall j :: 0 <= j < r.value ==> !p(cols[j])
    ensures r.None? <==> forall j :: 0 <= j < |cols| ==> !p(cols[j])
  {
    if cols == [] then None
    else if p(cols[0]) then Some(0)
    else
      match FirstIndex(cols[1..], p)
      case None => None
      case Some(k) => Some(k + 1)
  }

  /** `col_data`: the first column with a date name, if any. */
  function DateColumn(cols: seq<string>): (r: Option<nat>)
    ensures r.Some? ==> r.value < |cols| && IsDateName(cols[r.value])
    ensures r.Some? ==> forall j :: 0 <= j < r.value ==> !IsDateName(cols[j])
    ensures r.None? <==> forall j :: 0 <= j < |cols| ==> !IsDateName(cols[j])
  {
    FirstIndex(cols, IsDateName)
  }

  /** `col_price`: the first column whose name mentions "fixing", if any. */
  function PriceColumn(cols: seq<string>): (r: Option<nat>)
    ensures r.Some? ==> r.value < |cols| && MentionsFixing(cols[r.value])
    ensures r.Some? ==> forall j :: 0 <= j < r.value ==> !MentionsFixing(cols[j])
    ensures r.None? <==> forall j :: 0 <= j < |cols| ==> !MentionsFixing(cols[j])
  {
    FirstIndex(cols, MentionsFixing)
  }

  lemma {:induction false} TooShortToContain(s: string, sub: string)
    requires |s| < |sub|
    ensures !Contains(s, sub)
    decreases |s|
  {
    if s != [] {
      TooShortToContain(s[1..], sub);
    }
  }

  /** None of the date names mentions "fixing". */
  lemma DateNamesLackFixing(c: string)
    requires IsDateName(c)
    ensures !MentionsFixing(c)
  {
    if c == "datetime" {
      TooShortToContain(c[3..], "fixing");
      assert c[2..][..6][0] != 'f' && c[2..][1..] == c[3..];
      assert !Contains(c[2..], "fixing");
      assert c[1..][..6][0] != 'f' && c[1..][1..] == c[2..];
      assert !Contains(c[1..], "fixing");
      assert c[..6][0] != 'f';
    } else {
      TooShortToContain(c, "fixing");
    }
  }

  /** The date column and the price column are never the same column. */
  lemma DateAndPriceColumnsDiffer(cols: seq<string>)
    requires DateColumn(cols).Some? && PriceColumn(cols).Some?
    ensures DateColumn(cols).value != PriceColumn(cols).value
  {
    DateNamesLackFixing(cols[DateColumn(cols).value]);
  }

  // ---------------------------------------------------------------------------
  // Price text and row filtering
  // ---------------------------------------------------------------------------

  /** `.str.replace(",", ".")`: every comma becomes a dot, every other
      character stays where it is. */
  function CommaToDot(s: string): (r: string)
    ensures |r| == |s|
    ensures forall i :: 0 <= i < |s| ==> r[i] == (if s[i] == ',' then '.' else s[i])
    ensures ',' !in r
  {
    if s == [] then [] else [if s[0] == ',' then '.' else s[0]] + CommaToDot(s[1..])
  }

  /** Why loading failed: no date or price column, or a price cell that is
      not a number once its commas are rewritten (the text is reported). */
  datatype LoadError = MissingColumn | InvalidPrice(text: string)

  /** `.astype(float)` over the price column after the comma rewrite: either
      every cell converts, to a number or to NaN (the text "nan" of a missing
      cell does not fail), or the conversion fails on the first cell that does
      not convert. */
  function ParsePrices(cells: seq<string>, parseNumber: string -> Option<Number>): (r: Result<seq<Number>, LoadError>)
    ensures r.Ok? <==> forall i :: 0 <= i < |cells| ==> parseNumber(CommaToDot(cells[i])).Some?
    ensures r.Ok? ==> |r.value| == |cells|
    ensures r.Ok? ==> forall i :: 0 <= i < |cells| ==> r.value[i] == parseNumber(CommaToDot(cells[i])).value
    ensures r.Err? ==> r.error.InvalidPrice? && parseNumber(r.error.text).None?
  {
    if cells == [] then Ok([])
    else
      var text := CommaToDot(cells[0]);
      match parseNumber(text)
      case None => Err(InvalidPrice(text))
      case Some(v) =>
        match ParsePrices(cells[1..], parseNumber)
        case Err(e) => Err(e)
        case Ok(vs) => Ok([v] + vs)
  }

  /** The failure reports the first cell that does not convert. */
  lemma {:induction false} ParsePricesFirstBad(cells: seq<string>, parseNumber: string -> Option<Number>, i: nat)
    requires i < |cells|
    requires forall j :: 0 <= j < i ==> parseNumber(CommaToDot(cells[j])).Some?
    requires parseNumber(CommaToDot(cells[i])).None?
    ensures ParsePrices(cells, parseNumber) == Err(InvalidPrice(CommaToDot(cells[i])))
  {
    if i > 0 {
      assert forall j :: 0 <= j < i - 1 ==> cells[1..][j] == cells[j + 1];
      ParsePricesFirstBad(cells[1..], parseNumber, i - 1);
    }
  }

  /** The column converts to `vs` when every cell converts to its value there. */
  lemma ParsePricesAll(cells: seq<string>, parseNumber: string -> Option<Number>, vs: seq<Number>)
    requires |vs| == |cells|
    requires forall k :: 0 <= k < |cells| ==> parseNumber(CommaToDot(cells[k])) == Some(vs[k])
    ensures ParsePrices(cells, parseNumber) == Ok(vs)
  {
    var r := ParsePrices(cells, parseNumber);
    assert r.Ok?;
    assert forall k :: 0 <= k < |cells| ==> r.value[k] == vs[k];
    assert r.value == vs;
  }

  /** `dropna(subset=["Data"])`: the rows whose date parsed, as samples. */
  function DropUndated(dates: seq<Option<Timestamp>>, prices: seq<Number>): (r: seq<Sample>)
    requires |dates| == |prices|
    ensures |r| <= |dates|
  {
    if dates == [] then []
    else (if dates[0].Some? then [At(dates[0].value, prices[0])] else []) + DropUndated(dates[1..], prices[1..])
  }

  /** A sample survives exactly when some row's date parsed and the sample is
      that row's timestamp with that row's price. */
  lemma {:induction false} DropUndatedMembers(dates: seq<Option<Timestamp>>, prices: seq<Number>, x: Sample)
    requires |dates| == |prices|
    ensures x in DropUndated(dates, prices) <==>
      exists i :: 0 <= i < |dates| && dates[i].Some? && x == At(dates[i].value, prices[i])
  {
    if dates != [] {
      var ds, ps := dates[1..], prices[1..];
      DropUndatedMembers(ds, ps, x);
      if x in DropUndated(ds, ps) {
        var i :| 0 <= i < |ds| && ds[i].Some? && x == At(ds[i].value, ps[i]);
        assert dates[i + 1] == ds[i] && prices[i + 1] == ps[i];
      }
      if exists i :: 0 <= i < |dates| && dates[i].Some? && x == At(dates[i].value, prices[i]) {
        var i :| 0 <= i < |dates| && dates[i].Some? && x == At(dates[i].value, prices[i]);
        if i > 0 {
          assert ds[i - 1] == dates[i] && ps[i - 1] == prices[i];
        }
      }
    }
  }

  /** Dropping distributes over concatenation: the kept rows keep their order,
      and one row is kept exactly when its date parsed. */
  lemma {:induction false} DropUndatedAppend(d1: seq<Option<Timestamp>>, p1: seq<Number>, d2: seq<Option<Timestamp>>, p2: seq<Number>)
    requires |d1| == |p1| && |d2| == |p2|
    ensures DropUndated(d1 + d2, p1 + p2) == DropUndated(d1, p1) + DropUndated(d2, p2)
  {
    if d1 == [] {
      assert d1 + d2 == d2 && p1 + p2 == p2;
    } else {
      var d, p := d1 + d2, p1 + p2;
      assert d[1..] == d1[1..] + d2 && p[1..] == p1[1..] + p2;
      assert d[0] == d1[0] && p[0] == p1[0];
      DropUndatedAppend(d1[1..], p1[1..], d2, p2);
      var head := if d1[0].Some? then [At(d1[0].value, p1[0])] else [];
      var a, b := DropUndated(d1[1..], p1[1..]), DropUndated(d2, p2);
      assert head + (a + b) == (head + a) + b;
    }
  }

  // ---------------------------------------------------------------------------
  // The loader
  // ---------------------------------------------------------------------------

  /** A table as the CSV reader hands it over, each cell as the text that
      `.astype(str)` makes of it: a cell the reader found missing is "nan". */
  datatype RawTable = RawTable(header: seq<string>, rows: seq<seq<string>>)

  /** Every row has one cell per header, as in any data frame. */
  predicate Rectangular(t: RawTable)
  {
    forall i :: 0 <= i < |t.rows| ==> |t.rows[i]| == |t.header|
  }

  function ColumnCells(rows: seq<seq<string>>, c: nat): seq<string>
    requires forall i :: 0 <= i < |rows| ==> c < |rows[i]|
  {
    seq(|rows|, i requires 0 <= i < |rows| => rows[i][c])
  }

  /** `pd.to_datetime(..., errors="coerce")`: a date per cell, None where the
      text does not parse. */
  function ParseDates(cells: seq<string>, parseDate: string -> Option<Timestamp>): seq<Option<Timestamp>>
  {
    seq(|cells|, i requires 0 <= i < |cells| => parseDate(cells[i]))
  }

  /** What `wczytaj_csv` returns for a table, given the library's date and
      number parsers: find the two columns, convert all dates (never fails),
      convert all prices (fails on the first bad one), then drop the rows
      without a date. */
  function Load(t: RawTable, parseDate: string -> Option<Timestamp>, parseNumber: string -> Option<Number>): (r: Result<seq<Sample>, LoadError>)
    requires Rectangular(t)
    ensures r == Err(MissingColumn) <==>
      DateColumn(Normalised(t.header)).None? || PriceColumn(Normalised(t.header)).None?
  {
    var cols := Normalised(t.header);
    var d, p := DateColumn(cols), PriceColumn(cols);
    if d.None? || p.None? then Err(MissingColumn)
    else LoadColumns(t, d.value, p.value, parseDate, parseNumber)
  }

  /** The loader once the date column `d` and the price column `p` are known. */
  function LoadColumns(t: RawTable, d: nat, p: nat, parseDate: string -> Option<Timestamp>, parseNumber: string -> Option<Number>): (r: Result<seq<Sample>, LoadError>)
    requires Rectangular(t) && d < |t.header| && p < |t.header|
    ensures r.Err? ==> r.error.InvalidPrice?
  {
    match ParsePrices(ColumnCells(t.rows, p), parseNumber)
    case Err(e) => Err(e)
    case Ok(prices) => Ok(DropUndated(ParseDates(ColumnCells(t.rows, d), parseDate), prices))
  }

  /** Once both columns are found, the load succeeds exactly when every price
      cell converts, whether or not its row has a date. */
  lemma LoadFailsIffBadPrice(t: RawTable, d: nat, p: nat, parseDate: string -> Option<Timestamp>, parseNumber: string -> Option<Number>)
    requires Rectangular(t) && d < |t.header| && p < |t.header|
    ensures LoadColumns(t, d, p, parseDate, parseNumber).Ok? <==>
      forall i :: 0 <= i < |t.rows| ==> parseNumber(CommaToDot(t.rows[i][p])).Some?
  {
    assert forall i :: 0 <= i < |t.rows| ==> ColumnCells(t.rows, p)[i] == t.rows[i][p];
  }

  /** A price cell that does not convert fails the whole load, even in a row
      whose date did not parse and that would have been dropped. */
  lemma BadPriceFailsLoad(t: RawTable, parseDate: string -> Option<Timestamp>, parseNumber: string -> Option<Number>, i: nat)
    requires Rectangular(t)
    requires DateColumn(Normalised(t.header)).Some? && PriceColumn(Normalised(t.header)).Some?
    requires i < |t.rows|
    requires parseNumber(CommaToDot(t.rows[i][PriceColumn(Normalised(t.header)).value])).None?
    ensures Load(t, parseDate, parseNumber).Err?
    ensures Load(t, parseDate, parseNumber).error.InvalidPrice?
  {
    var cols := Normalised(t.header);
    var d, p := DateColumn(cols).value, PriceColumn(cols).value;
    assert Load(t, parseDate, parseNumber) == LoadColumns(t, d, p, parseDate, parseNumber);
    LoadFailsIffBadPrice(t, d, p, parseDate, parseNumber);
  }

  /** A successful load holds exactly one sample per row whose date parsed:
      that row's timestamp with that row's converted price. */
  lemma LoadKeepsDatedRows(t: RawTable, d: nat, p: nat, parseDate: string -> Option<Timestamp>, parseNumber: string -> Option<Number>, x: Sample)
    requires Rectangular(t) && d < |t.header| && p < |t.header|
    requires forall i :: 0 <= i < |t.rows| ==> parseNumber(CommaToDot(t.rows[i][p])).Some?
    ensures LoadColumns(t, d, p, parseDate, parseNumber).Ok?
    ensures x in LoadColumns(t, d, p, parseDate, parseNumber).value <==>
      exists i :: 0 <= i < |t.rows| && parseDate(t.rows[i][d]).Some? &&
        x == At(parseDate(t.rows[i][d]).value, parseNumber(CommaToDot(t.rows[i][p])).value)
  {
    LoadFailsIffBadPrice(t, d, p, parseDate, parseNumber);
    var dates := ParseDates(ColumnCells(t.rows, d), parseDate);
    var prices := ParsePrices(ColumnCells(t.rows, p), parseNumber).value;
    var kept := DropUndated(dates, prices);
    ConvertedColumns(t, d, p, parseDate, parseNumber);
    DropUndatedMembers(dates, prices, x);
    if x in kept {
      var i :| 0 <= i < |dates| && dates[i].Some? && x == At(dates[i].value, prices[i]);
      assert dates[i] == parseDate(t.rows[i][d]);
      assert prices[i] == parseNumber(CommaToDot(t.rows[i][p])).value;
    }
    if exists i :: 0 <= i < |t.rows| && parseDate(t.rows[i][d]).Some? &&
        x == At(parseDate(t.rows[i][d]).value, parseNumber(CommaToDot(t.rows[i][p])).value) {
      var i :| 0 <= i < |t.rows| && parseDate(t.rows[i][d]).Some? &&
        x == At(parseDate(t.rows[i][d]).value, parseNumber(CommaToDot(t.rows[i][p])).value);
      assert dates[i] == parseDate(t.rows[i][d]);
      assert prices[i] == parseNumber(CommaToDot(t.rows[i][p])).value;
    }
  }

  /** When every price cell converts, the load keeps the dated rows of the
      two converted columns, each column holding one value per row. */
  lemma ConvertedColumns(t: RawTable, d: nat, p: nat, parseDate: string -> Option<Timestamp>, parseNumber: string -> Option<Number>)
    requires Rectangular(t) && d < |t.header| && p < |t.header|
    requires forall i :: 0 <= i < |t.rows| ==> parseNumber(CommaToDot(t.rows[i][p])).Some?
    ensures var dates := ParseDates(ColumnCells(t.rows, d), parseDate);
      var prices := ParsePrices(ColumnCells(t.rows, p), parseNumber);
      && prices.Ok? && |dates| == |prices.value| == |t.rows|
      && LoadColumns(t, d, p, parseDate, parseNumber) == Ok(DropUndated(dates, prices.value))
      && (forall i :: 0 <= i < |t.rows| ==> dates[i] == parseDate(t.rows[i][d]))
      && (forall i :: 0 <= i < |t.rows| ==> prices.value[i] == parseNumber(CommaToDot(t.rows[i][p])).value)
  {
    var cells := ColumnCells(t.rows, p);
    assert forall i :: 0 <= i < |cells| ==> cells[i] == t.rows[i][p];
  }

  /** A missing price does not stop the load: when a dated row's price cell
      is the text "nan" of a missing cell, which converts to NaN, and every
      price cell converts, that row is kept with a NaN price. */
  lemma MissingPriceKept(t: RawTable, d: nat, p: nat, parseDate: string -> Option<Timestamp>, parseNumber: string -> Option<Number>, i: nat)
    requires Rectangular(t) && d < |t.header| && p < |t.header|
    requires forall j :: 0 <= j < |t.rows| ==> parseNumber(CommaToDot(t.rows[j][p])).Some?
    requires i < |t.rows| && parseDate(t.rows[i][d]).Some?
    requires t.rows[i][p] == "nan" && parseNumber("nan") == Some(NaN)
    ensures LoadColumns(t, d, p, parseDate, parseNumber).Ok?
    ensures At(parseDate(t.rows[i][d]).value, NaN) in LoadColumns(t, d, p, parseDate, parseNumber).value
  {
    var nan := CommaToDot("nan");
    assert nan[0] == 'n' && nan[1] == 'a' && nan[2] == 'n';
    assert nan == "nan";
    LoadKeepsDatedRows(t, d, p, parseDate, parseNumber, At(parseDate(t.rows[i][d]).value, NaN));
  }

  /** Line 107: the date column converted, unparsable dates as None. */
  method ConvertDates(t: RawTable, d: nat, parseDate: string -> Option<Timestamp>) returns (dates: array<Option<Timestamp>>)
    requires Rectangular(t) && d < |t.header|
    ensures fresh(dates)
    ensures dates[..] == ParseDates(ColumnCells(t.rows, d), parseDate)
  {
    var n := |t.rows|;
    dates := new Option<Timestamp>[n];
    var i := 0;
    while i < n
      invariant 0 <= i <= n
      invariant forall k :: 0 <= k < i ==> dates[k] == parseDate(t.rows[k][d])
    {
      dates[i] := parseDate(t.rows[i][d]);
      i := i + 1;
    }
  }

  /** Lines 108-113: the price column rewritten and converted; the first cell
      that does not convert fails the whole column. */
  method ConvertPrices(t: RawTable, p: nat, parseNumber: string -> Option<Number>) returns (r: Result<array<Number>, LoadError>)
    requires Rectangular(t) && p < |t.header|
    ensures r.Ok? ==> fresh(r.value)
    ensures r.Err? ==> ParsePrices(ColumnCells(t.rows, p), parseNumber) == Err(r.error)
    ensures r.Ok? ==> ParsePrices(ColumnCells(t.rows, p), parseNumber) == Ok(r.value[..])
  {
    var n := |t.rows|;
    var cells := ColumnCells(t.rows, p);
    var prices := new Number[n];
    var i := 0;
    while i < n
      invariant 0 <= i <= n
      invariant forall k :: 0 <= k < i ==> parseNumber(CommaToDot(cells[k])) == Some(prices[k])
    {
      var text := CommaToDot(cells[i]);
      var v := parseNumber(text);
      if v.None? {
        ParsePricesFirstBad(cells, parseNumber, i);
        return Err(InvalidPrice(text));
      }
      prices[i] := v.value;
      i := i + 1;
    }
    ParsePricesAll(cells, parseNumber, prices[..]);
    r := Ok(prices);
  }

  /** Line 114: the rows whose date parsed, in order. */
  method DropUndatedRows(dates: array<Option<Timestamp>>, prices: array<Number>) returns (kept: seq<Sample>)
    requires dates.Length == prices.Length
    ensures kept == DropUndated(dates[..], prices[..])
  {
    kept := [];
    var i := 0;
    while i < dates.Length
      invariant 0 <= i <= dates.Length
      invariant kept == DropUndated(dates[..i], prices[..i])
    {
      assert dates[..i + 1] == dates[..i] + [dates[i]];
      assert prices[..i + 1] == prices[..i] + [prices[i]];
      DropUndatedAppend(dates[..i], prices[..i], [dates[i]], [prices[i]]);
      if dates[i].Some? {
        kept := kept + [At(dates[i].value, prices[i])];
      }
      i := i + 1;
    }
    assert dates[..i] == dates[..] && prices[..i] == prices[..];
  }

  /** The loader as the script runs it: normalise the headers, pick the
      columns, convert the date column, convert the price column, drop the
      rows without a date. */
  method LoadPriceTable(t: RawTable, parseDate: string -> Option<Timestamp>, parseNumber: string -> Option<Number>)
    returns (r: Result<seq<Sample>, LoadError>)
    requires Rectangular(t)
    ensures r == Load(t, parseDate, parseNumber)
  {
    var cols := NormaliseColumns(t.header);
    var dateCol := DateColumn(cols);
    var priceCol := PriceColumn(cols);
    if dateCol.None? || priceCol.None? {
      return Err(MissingColumn);
    }
    var d, p := dateCol.value, priceCol.value;
    var dates := ConvertDates(t, d, parseDate);
    var prices := ConvertPrices(t, p, parseNumber);
    if prices.Err? {
      return Err(prices.error);
    }
    var kept := DropUndatedRows(dates, prices.value);
    r := Ok(kept);
  }

  lemma NoEdgeSpaceStripsToItself(h: string)
    requires h != [] && !IsSpace(h[0]) && !IsSpace(h[|h| - 1])
    ensures Strip(h) == h
  {
    assert StripLeft(h) == h;
    assert StripRight(h) == h;
  }

  /** The date header of a TGE export, "Date", normalises to a date name. */
  lemma NormaliseDateHeader()
    ensures NormaliseHeader("Date") == "date"
  {
    NoEdgeSpaceStripsToItself("Date");
    var low := Lower("Date");
    assert low == "date" by {
      assert low[0] == 'd' && low[1] == 'a' && low[2] == 't' && low[3] == 'e';
    }
    assert Bom !in low;
    RemoveBomWithoutMark(low);
  }

  /** A header that starts with "Fixing", such as the price header
      "Fixing I Price" of a TGE export, with or without trailing whitespace,
      names a price column once normalised: its normalised name starts with
      "fixing". */
  lemma FixingHeaderMentionsFixing(h: string)
    requires HasPrefix(h, "Fixing")
    ensures HasPrefix(NormaliseHeader(h), "fixing")
    ensures MentionsFixing(NormaliseHeader(h))
  {
    var s := Strip(h);
    FixingStripped(h);
    NormaliseStripped(h);
    FixingHeaderNormalised(s);
    PrefixOfAppend("fixing", RemoveBom(Lower(s[6..])));
  }

  /** Stripping keeps the leading "Fixing". */
  lemma FixingStripped(h: string)
    requires HasPrefix(h, "Fixing")
    ensures HasPrefix(Strip(h), "Fixing") && !IsSpace(Strip(h)[|Strip(h)| - 1])
  {
    var f := "Fixing";
    assert f[0] == 'F' && f[5] == 'g';
    PrefixSurvivesStrip(h, f);
  }

  /** A prefix that neither starts nor ends with whitespace survives
      stripping. */
  lemma PrefixSurvivesStrip(h: string, pre: string)
    requires HasPrefix(h, pre) && pre != []
    requires !IsSpace(pre[0]) && !IsSpace(pre[|pre| - 1])
    ensures HasPrefix(Strip(h), pre) && !IsSpace(Strip(h)[|Strip(h)| - 1])
  {
    var k := |pre| - 1;
    assert h[0] == pre[0] && h[k] == pre[k];
    StripKeepsFront(h, k);
    var s := Strip(h);
    assert s[..|pre|] == h[..|pre|];
  }

  lemma FixingHeaderNormalised(h: string)
    requires HasPrefix(h, "Fixing") && !IsSpace(h[|h| - 1])
    ensures NormaliseHeader(h) == "fixing" + RemoveBom(Lower(h[6..]))
  {
    assert h[0] == 'F';
    NormaliseUnpadded(h);
    assert h == "Fixing" + h[6..];
    LowerAppend("Fixing", h[6..]);
    LowerFixing();
    RemoveBomAppend("fixing", Lower(h[6..]));
  }

  lemma LowerFixing()
    ensures Lower("Fixing") == "fixing"
    ensures RemoveBom("fixing") == "fixing"
  {
    LowerOfFixing();
    assert Bom !in "fixing";
    RemoveBomWithoutMark("fixing");
  }

  lemma LowerOfFixing()
    ensures Lower("Fixing") == "fixing"
  {
    var low, up := Lower("Fixing"), "Fixing";
    assert up[0] == 'F' && up[1] == 'i' && up[2] == 'x' && up[3] == 'i' && up[4] == 'n' && up[5] == 'g';
    assert low[0] == 'f' && low[1] == 'i' && low[2] == 'x' && low[3] == 'i' && low[4] == 'n' && low[5] == 'g';
  }

  lemma PrefixOfAppend(a: string, b: string)
    ensures HasPrefix(a + b, a)
  {
    assert (a + b)[..|a|] == a;
  }

}
