/** The streaming reader: chunks of text to validated, merged products. */
module CsvReader {
  import opened Wrappers
  import opened Text
  import opened CsvScanner

  datatype Product = Product(name: string, inputImageUrls: seq<string>)

  datatype ParseError =
    | UnclosedQuote(row: string)
    | HeaderCount(headers: seq<string>)
    | HeaderMismatch(headers: seq<string>)
    | ColumnCount(cols: seq<string>)
    | InvalidProduct(product: Product)
    | InheritedName(name: string) // the merge throws on a name every object inherits

  const EXPECTED_HEADERS := ["S. No.", "Product Name", "Input Image Urls"]

  /** Properties that a fresh `{}` already answers to. */
  const INHERITED_NAMES := {
    "constructor", "__defineGetter__", "__defineSetter__", "hasOwnProperty", "__lookupGetter__",
    "__lookupSetter__", "isPrototypeOf", "propertyIsEnumerable", "toString", "valueOf",
    "__proto__", "toLocaleString" }

  // Rows and lines.

  predicate IsNewline(c: char) {
    c == '\r' || c == '\n'
  }

  predicate NewlineFree(s: string) {
    forall c | c in s :: !IsNewline(c)
  }

  /** Length of the separator at the head of `s`: CR LF, LF CR, LF or CR; 0 if there is none. */
  function SeparatorLength(s: string): (n: nat)
    ensures n <= |s| && n <= 2
  {
    if |s| >= 2 && IsNewline(s[0]) && IsNewline(s[1]) && s[0] != s[1] then 2
    else if |s| >= 1 && IsNewline(s[0]) then 1
    else 0
  }

  /** The rows of `current + s`, `current` being text already known to hold no separator. */
  function SplitRows(current: string, s: string): (rows: seq<string>)
    ensures rows != []
    decreases |s|
  {
    if s == "" then [current]
    else
      var n := SeparatorLength(s);
      if n > 0 then [current] + SplitRows("", s[n..]) else SplitRows(current + [s[0]], s[1..])
  }

  /** The simple form: every newline character ends a line. */
  function Lines(current: string, s: string): (lines: seq<string>)
    ensures lines != []
    decreases |s|
  {
    if s == "" then [current]
    else if IsNewline(s[0]) then [current] + Lines("", s[1..])
    else Lines(current + [s[0]], s[1..])
  }

  function Complete(rows: seq<string>): seq<string>
    requires rows != []
  {
    rows[..|rows| - 1]
  }

  function Tail(rows: seq<string>): string
    requires rows != []
  {
    rows[|rows| - 1]
  }

  // Checks on one row.

  function LowerChar(c: char): char {
    if 'A' <= c <= 'Z' then c - 'A' + 'a' else c
  }

  function Lower(s: string): string {
    if s == "" then "" else [LowerChar(s[0])] + Lower(s[1..])
  }

  predicate HeadersMatch(headers: seq<string>)
    requires |headers| == 3
  {
    forall i | 0 <= i < 3 :: Lower(headers[i]) == Lower(EXPECTED_HEADERS[i])
  }

  predicate EmptyRow(cols: seq<string>) {
    forall i | 0 <= i < |cols| :: Trim(cols[i]) == ""
  }

  function ProductOf(cols: seq<string>): Product
    requires |cols| == 3
  {
    Product(cols[1], TrimAll(Split(Trim(cols[2]), ',')))
  }

  predicate ValidProduct(isUrl: string -> bool, p: Product) {
    p.name != "" && forall i | 0 <= i < |p.inputImageUrls| :: isUrl(p.inputImageUrls[i])
  }

  // Merging rows of the same name.

  function FirstOccurrences(xs: seq<string>): (r: seq<string>)
    ensures forall x :: x in r <==> x in xs
    ensures forall i, j | 0 <= i < j < |r| :: r[i] != r[j]
  {
    if xs == [] then []
    else
      var r := FirstOccurrences(xs[..|xs| - 1]);
      assert xs == xs[..|xs| - 1] + [xs[|xs| - 1]];
      if xs[|xs| - 1] in r then r else r + [xs[|xs| - 1]]
  }

  function Merge(products: map<string, Product>, p: Product): map<string, Product> {
    if p.name in products then
      var urls := FirstOccurrences(products[p.name].inputImageUrls + p.inputImageUrls);
      products[p.name := products[p.name].(inputImageUrls := urls)]
    else products[p.name := p]
  }

  // The reader as a function of its lines.

  datatype State =
    | Open(header: seq<string>, products: map<string, Product>)
    | Failed(error: ParseError)

  const INITIAL := Open([], map[])

  function HeaderStep(st: State, cols: seq<string>): State
    requires st.Open?
  {
    if |cols| != 3 then Failed(HeaderCount(cols))
    else if !HeadersMatch(cols) then Failed(HeaderMismatch(cols))
    else st.(header := cols)
  }

  function ProductStep(isUrl: string -> bool, st: State, cols: seq<string>): State
    requires st.Open?
  {
    if |cols| != 3 then Failed(ColumnCount(cols))
    else
      var p := ProductOf(cols);
      if !ValidProduct(isUrl, p) then Failed(InvalidProduct(p))
      else if p.name in INHERITED_NAMES then Failed(InheritedName(p.name))
      else st.(products := Merge(st.products, p))
  }

  function RowStep(isUrl: string -> bool, st: State, row: string): State {
    if st.Failed? then st
    else match Columns(row)
      case None => Failed(UnclosedQuote(row))
      case Some(cols) =>
        if st.header == [] then HeaderStep(st, cols)
        else if EmptyRow(cols) then st
        else ProductStep(isUrl, st, cols)
  }

  function FoldRows(isUrl: string -> bool, st: State, rows: seq<string>): State
    decreases |rows|
  {
    if rows == [] then st else FoldRows(isUrl, RowStep(isUrl, st, rows[0]), rows[1..])
  }

  /** What is left over when the stream ends. */
  function TailStep(isUrl: string -> bool, st: State, tail: string): State {
    if st.Failed? || Trim(tail) == "" then st
    else match Columns(tail)
      case None => Failed(UnclosedQuote(tail))
      case Some(cols) =>
        if EmptyRow(cols) then st
        else if st.header == [] then HeaderStep(st, cols)
        else ProductStep(isUrl, st, cols)
  }

  /** What the reader returns or throws. */
  function Verdict(st: State): Result<map<string, Product>, ParseError> {
    match st
    case Open(_, products) => Ok(products)
    case Failed(e) => Err(e)
  }

  function ParseLines(isUrl: string -> bool, lines: seq<string>): Result<map<string, Product>, ParseError>
    requires lines != []
  {
    Verdict(TailStep(isUrl, FoldRows(isUrl, INITIAL, Complete(lines)), Tail(lines)))
  }

  /** The meaning of a whole text, whatever chunks it arrives in. */
  function ParseText(isUrl: string -> bool, text: string): Result<map<string, Product>, ParseError> {
    ParseLines(isUrl, Lines("", text))
  }

  lemma {:induction false} FoldConcat(isUrl: string -> bool, st: State, a: seq<string>, b: seq<string>)
    ensures FoldRows(isUrl, st, a + b) == FoldRows(isUrl, FoldRows(isUrl, st, a), b)
    decreases |a|
  {
    hide RowStep;
    if a == [] {
      assert a + b == b;
    } else {
      assert (a + b)[1..] == a[1..] + b;
      FoldConcat(isUrl, RowStep(isUrl, st, a[0]), a[1..], b);
    }
  }

  lemma {:induction false} FoldOfFailed(isUrl: string -> bool, st: State, rows: seq<string>)
    requires st.Failed?
    ensures FoldRows(isUrl, st, rows) == st
  {
    if rows != [] {
      FoldOfFailed(isUrl, st, rows[1..]);
    }
  }

  lemma FoldOne(isUrl: string -> bool, st: State, rows: seq<string>, k: nat)
    requires k < |rows|
    ensures FoldRows(isUrl, st, rows[..k + 1]) == RowStep(isUrl, FoldRows(isUrl, st, rows[..k]), rows[k])
  {
    hide RowStep;
    assert rows[..k + 1] == rows[..k] + [rows[k]];
    FoldConcat(isUrl, st, rows[..k], [rows[k]]);
  }

  lemma ColumnsOfEmpty()
    ensures Columns("") == Some([""])
  {
    hide Trim;
    TrimOfPadded("", "", "");
    assert "" + "" + "" == "";
    assert ScanFrom("", 0, "", false) == Some([""]);
    assert TrimAll([""]) == [""];
  }

  /** After any one row, an empty row changes nothing: the header is in or an error is. */
  lemma EmptyRowIsSkipped(isUrl: string -> bool, st: State, row: string)
    ensures var after := RowStep(isUrl, st, row); RowStep(isUrl, after, "") == after
  {
    hide Columns, HeadersMatch, ProductOf, ValidProduct, Merge;
    ColumnsOfEmpty();
    assert EmptyRow([""]);
  }

  lemma LinesAtPair(current: string, s: string)
    requires SeparatorLength(s) == 2
    ensures Lines(current, s) == [current, ""] + Lines("", s[2..])
  {
    assert s[1..][1..] == s[2..];
    assert Lines("", s[1..]) == [""] + Lines("", s[2..]);
  }

  lemma FoldAfter(isUrl: string -> bool, st: State, row: string, rows: seq<string>)
    requires rows != []
    ensures Complete([row] + rows) == [row] + Complete(rows)
    ensures FoldRows(isUrl, st, Complete([row] + rows)) ==
            FoldRows(isUrl, RowStep(isUrl, st, row), Complete(rows))
  {
    hide RowStep;
    assert ([row] + Complete(rows))[1..] == Complete(rows);
  }

  lemma FoldAfterPair(isUrl: string -> bool, st: State, row: string, rows: seq<string>)
    requires rows != []
    ensures FoldRows(isUrl, st, Complete([row, ""] + rows)) ==
            FoldRows(isUrl, RowStep(isUrl, st, row), Complete(rows))
  {
    hide RowStep, FoldRows;
    assert [row, ""] + rows == [row] + ([""] + rows);
    FoldAfter(isUrl, st, row, [""] + rows);
    FoldAfter(isUrl, RowStep(isUrl, st, row), "", rows);
    EmptyRowIsSkipped(isUrl, st, row);
  }

  /** A two-character separator read as two newlines only adds an empty row after a row. */
  lemma {:induction false} SplitAgreesWithLines(isUrl: string -> bool, st: State, current: string, s: string)
    ensures Tail(SplitRows(current, s)) == Tail(Lines(current, s))
    ensures FoldRows(isUrl, st, Complete(SplitRows(current, s))) ==
            FoldRows(isUrl, st, Complete(Lines(current, s)))
    decreases |s|
  {
    hide RowStep, FoldRows;
    if s != "" {
      var n := SeparatorLength(s);
      if n == 0 {
        SplitAgreesWithLines(isUrl, st, current + [s[0]], s[1..]);
      } else {
        var rows, lines := SplitRows("", s[n..]), Lines("", s[n..]);
        SplitAgreesWithLines(isUrl, RowStep(isUrl, st, current), "", s[n..]);
        FoldAfter(isUrl, st, current, rows);
        if n == 1 {
          FoldAfter(isUrl, st, current, lines);
        } else {
          LinesAtPair(current, s);
          FoldAfterPair(isUrl, st, current, lines);
        }
      }
    }
  }

  lemma {:induction false} LinesConcat(current: string, a: string, b: string)
    ensures var before := Lines(current, a);
            Lines(current, a + b) == Complete(before) + Lines(Tail(before), b)
    decreases |a|
  {
    if a == "" {
      assert a + b == b;
      assert Complete([current]) + Lines(current, b) == Lines(current, b);
    } else {
      assert (a + b)[1..] == a[1..] + b && (a + b)[0] == a[0];
      if IsNewline(a[0]) {
        LinesConcat("", a[1..], b);
        var rest := Lines("", a[1..]);
        assert Complete([current] + rest) == [current] + Complete(rest);
      } else {
        LinesConcat(current + [a[0]], a[1..], b);
      }
    }
  }

  /** One more chunk: its rows, split with the carried partial row in front, continue the text. */
  lemma ChunkStep(isUrl: string -> bool, text: string, chunk: string)
    ensures var before := Lines("", text);
            var rows := SplitRows("", Tail(before) + chunk);
            && Tail(Lines("", text + chunk)) == Tail(rows)
            && FoldRows(isUrl, INITIAL, Complete(Lines("", text + chunk))) ==
               FoldRows(isUrl, FoldRows(isUrl, INITIAL, Complete(before)), Complete(rows))
  {
    hide RowStep;
    var before := Lines("", text);
    var st := FoldRows(isUrl, INITIAL, Complete(before));
    LinesConcat("", text, chunk);
    TailIsNewlineFree("", text);
    LinesOfPrefix("", Tail(before), chunk);
    assert "" + Tail(before) == Tail(before);
    var more := Lines(Tail(before), chunk);
    assert Complete(Complete(before) + more) == Complete(before) + Complete(more);
    FoldConcat(isUrl, INITIAL, Complete(before), Complete(more));
    SplitAgreesWithLines(isUrl, st, "", Tail(before) + chunk);
  }

  lemma {:induction false} TailIsNewlineFree(current: string, s: string)
    requires NewlineFree(current)
    ensures forall line | line in Lines(current, s) :: NewlineFree(line)
    decreases |s|
  {
    if s != "" {
      if IsNewline(s[0]) {
        TailIsNewlineFree("", s[1..]);
      } else {
        TailIsNewlineFree(current + [s[0]], s[1..]);
      }
    }
  }

  /** The newline characters of a text, in order. */
  function Newlines(s: string): string {
    if s == "" then "" else (if IsNewline(s[0]) then [s[0]] else "") + Newlines(s[1..])
  }

  /** Lines with the characters that ended them. */
  function Rejoin(lines: seq<string>, ends: string): string
    requires |lines| == |ends| + 1
  {
    if ends == "" then lines[0] else lines[0] + [ends[0]] + Rejoin(lines[1..], ends[1..])
  }

  /** With the text's newlines put back the lines, which hold none, are the text. */
  lemma {:induction false} LinesRejoin(current: string, s: string)
    ensures |Lines(current, s)| == |Newlines(s)| + 1
    ensures Rejoin(Lines(current, s), Newlines(s)) == current + s
    decreases |s|
  {
    hide Lines, Newlines, Rejoin, IsNewline;
    if s == "" {
      RejoinNothing(current);
      assert current + s == current;
    } else {
      FirstCharacter(current, s);
      if IsNewline(s[0]) {
        LinesRejoin("", s[1..]);
        RejoinFirst(current, Lines("", s[1..]), s[0], Newlines(s[1..]));
        assert current + [s[0]] + ("" + s[1..]) == current + s;
      } else {
        LinesRejoin(current + [s[0]], s[1..]);
        assert current + [s[0]] + s[1..] == current + s;
      }
    }
  }

  lemma RejoinNothing(current: string)
    ensures Newlines("") == "" && Lines(current, "") == [current] && Rejoin([current], "") == current
  {
  }

  lemma FirstCharacter(current: string, s: string)
    requires s != ""
    ensures Lines(current, s) ==
            if IsNewline(s[0]) then [current] + Lines("", s[1..]) else Lines(current + [s[0]], s[1..])
    ensures Newlines(s) == if IsNewline(s[0]) then [s[0]] + Newlines(s[1..]) else Newlines(s[1..])
  {
  }

  lemma RejoinFirst(line: string, lines: seq<string>, end: char, ends: string)
    requires |lines| == |ends| + 1
    ensures Rejoin([line] + lines, [end] + ends) == line + [end] + Rejoin(lines, ends)
  {
    assert ([line] + lines)[1..] == lines && ([end] + ends)[1..] == ends;
  }

  lemma {:induction false} LinesOfPrefix(current: string, p: string, s: string)
    requires NewlineFree(p)
    ensures Lines(current, p + s) == Lines(current + p, s)
    decreases |p|
  {
    if p == "" {
      assert p + s == s && current + p == current;
    } else {
      assert (p + s)[1..] == p[1..] + s && p[0] in p;
      LinesOfPrefix(current + [p[0]], p[1..], s);
      assert current + [p[0]] + p[1..] == current + p;
    }
  }

  function Concat(chunks: seq<string>): string {
    if chunks == [] then "" else Concat(chunks[..|chunks| - 1]) + chunks[|chunks| - 1]
  }

  /** The record of products the reader fills in place. */
  class CSVData {
    var products: map<string, Product>

    constructor ()
      ensures products == map[]
    {
      products := map[];
    }

    /** Adds a product or merges its URLs; `thrown` when the name is one every object inherits. */
    method MergeProductsData(product: Product) returns (thrown: bool)
      modifies this
      ensures thrown <==> product.name in INHERITED_NAMES
      ensures products == if thrown then old(products) else Merge(old(products), product)
    {
      if product.name in INHERITED_NAMES {
        return true;
      }
      if product.name in products {
        var kept := products[product.name];
        products := products[product.name :=
                             kept.(inputImageUrls := FirstOccurrences(kept.inputImageUrls + product.inputImageUrls))];
      } else {
        products := products[product.name := product];
      }
      return false;
    }
  }

  method ValidateHeaderRow(ghost header: seq<string>, ghost products: map<string, Product>, cols: seq<string>)
    returns (thrown: Option<ParseError>)
    ensures HeaderStep(Open(header, products), cols) ==
            if thrown.Some? then Failed(thrown.value) else Open(cols, products)
  {
    if |cols| != 3 {
      return Some(HeaderCount(cols));
    }
    return if HeadersMatch(cols) then None else Some(HeaderMismatch(cols));
  }

  /** One complete row of the loop body; `None` when nothing was thrown. */
  method ReadRow(isUrl: string -> bool, data: CSVData, headerRow: seq<string>, row: string)
    returns (header: seq<string>, thrown: Option<ParseError>)
    modifies data
    ensures RowStep(isUrl, Open(headerRow, old(data.products)), row) ==
            if thrown.Some? then Failed(thrown.value) else Open(header, data.products)
  {
    hide Columns, Trim, ProductStep, HeaderStep;
    header := headerRow;
    var parsed := ParseCols(row);
    if parsed.None? {
      return header, Some(UnclosedQuote(row));
    }
    var cols := parsed.value;
    if headerRow == [] {
      thrown := ValidateHeaderRow(headerRow, data.products, cols);
      return if thrown.Some? then headerRow else cols, thrown;
    }
    if EmptyRow(cols) {
      return header, None;
    }
    thrown := ReadProduct(isUrl, data, headerRow, cols);
  }

  method ReadProduct(isUrl: string -> bool, data: CSVData, ghost header: seq<string>, cols: seq<string>)
    returns (thrown: Option<ParseError>)
    modifies data
    ensures ProductStep(isUrl, Open(header, old(data.products)), cols) ==
            if thrown.Some? then Failed(thrown.value) else Open(header, data.products)
  {
    if |cols| != 3 {
      return Some(ColumnCount(cols));
    }
    var product := ProductOf(cols);
    if !ValidProduct(isUrl, product) {
      return Some(InvalidProduct(product));
    }
    var inherited := data.MergeProductsData(product);
    return if inherited then Some(InheritedName(product.name)) else None;
  }

  /** Chunking is invisible: the outcome, first error included, is that of the whole text. */
  method ParseData(isUrl: string -> bool, chunks: seq<string>)
    returns (r: Result<map<string, Product>, ParseError>)
    ensures r == ParseText(isUrl, Concat(chunks))
  {
    hide RowStep, TailStep, ProductStep, HeaderStep, Columns, Trim, EmptyRow;
    var data := new CSVData();
    var partialRow := "";
    var headerRow: seq<string> := [];
    ghost var text := "";
    for n := 0 to |chunks|
      invariant text == Concat(chunks[..n])
      invariant partialRow == Tail(Lines("", text))
      invariant FoldRows(isUrl, INITIAL, Complete(Lines("", text))) == Open(headerRow, data.products)
    {
      var rows := SplitRows("", partialRow + chunks[n]);
      ghost var st := Open(headerRow, data.products);
      ChunkStep(isUrl, text, chunks[n]);
      assert chunks[..n + 1][..n] == chunks[..n];
      text := text + chunks[n];
      partialRow := Tail(rows);
      rows := Complete(rows);
      for k := 0 to |rows|
        invariant FoldRows(isUrl, st, rows[..k]) == Open(headerRow, data.products)
      {
        FoldOne(isUrl, st, rows, k);
        var thrown;
        headerRow, thrown := ReadRow(isUrl, data, headerRow, rows[k]);
        if thrown.Some? {
          ErrorStands(isUrl, st, rows, k + 1, text, chunks, n + 1);
          return Err(thrown.value);
        }
      }
      assert rows[..|rows|] == rows;
    }
    assert chunks[..|chunks|] == chunks;
    r := ReadTail(isUrl, data, headerRow, partialRow);
  }

  method ReadTail(isUrl: string -> bool, data: CSVData, headerRow: seq<string>, partialRow: string)
    returns (r: Result<map<string, Product>, ParseError>)
    modifies data
    ensures r == Verdict(TailStep(isUrl, Open(headerRow, old(data.products)), partialRow))
  {
    hide Columns, Trim, ProductStep, HeaderStep;
    if Trim(partialRow) != "" {
      var parsed := ParseCols(partialRow);
      if parsed.None? {
        return Err(UnclosedQuote(partialRow));
      }
      var cols := parsed.value;
      if !EmptyRow(cols) {
        if headerRow == [] {
          var thrown := ValidateHeaderRow(headerRow, data.products, cols);
          if thrown.Some? {
            return Err(thrown.value);
          }
        } else {
          var thrown := ReadProduct(isUrl, data, headerRow, cols);
          if thrown.Some? {
            return Err(thrown.value);
          }
        }
      }
    }
    return Ok(data.products);
  }

  lemma {:induction false} ConcatSplit(chunks: seq<string>, n: nat)
    requires n <= |chunks|
    ensures Concat(chunks[..n]) <= Concat(chunks)
    decreases |chunks|
  {
    if n == |chunks| {
      assert chunks[..n] == chunks;
    } else {
      ConcatSplit(chunks[..|chunks| - 1], n);
      assert chunks[..|chunks| - 1][..n] == chunks[..n];
    }
  }

  /** An error met in a row of a chunk is the error of the whole text. */
  lemma ErrorStands(isUrl: string -> bool, st: State, rows: seq<string>, k: nat,
                    text: string, chunks: seq<string>, n: nat)
    requires n <= |chunks| && text == Concat(chunks[..n]) && k <= |rows|
    requires FoldRows(isUrl, INITIAL, Complete(Lines("", text))) == FoldRows(isUrl, st, rows)
    requires FoldRows(isUrl, st, rows[..k]).Failed?
    ensures ParseText(isUrl, Concat(chunks)) == Err(FoldRows(isUrl, st, rows[..k]).error)
  {
    hide RowStep, FoldRows, Lines, TailStep;
    var failed := FoldRows(isUrl, st, rows[..k]);
    assert rows == rows[..k] + rows[k..];
    FoldConcat(isUrl, st, rows[..k], rows[k..]);
    FoldOfFailed(isUrl, failed, rows[k..]);
    ConcatSplit(chunks, n);
    var rest := Concat(chunks)[|text|..];
    assert Concat(chunks) == text + rest;
    LinesConcat("", text, rest);
    var before := Lines("", text);
    var more := Lines(Tail(before), rest);
    assert Complete(Complete(before) + more) == Complete(before) + Complete(more);
    FoldConcat(isUrl, INITIAL, Complete(before), Complete(more));
    FoldOfFailed(isUrl, failed, Complete(more));
    FailedTail(isUrl, failed, Tail(Lines("", text + rest)));
  }

  lemma FailedTail(isUrl: string -> bool, st: State, tail: string)
    requires st.Failed?
    ensures TailStep(isUrl, st, tail) == st
  {
  }
}
