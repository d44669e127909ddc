/** What a parsed text means: which texts are accepted, and what their products are. */
module CsvMeaning {
  import opened Wrappers
  import opened Text
  import opened CsvScanner
  import opened CsvQuoting
  import opened CsvReader

  // Merging row by row is grouping by name.

  function Named(rows: seq<Product>, name: string): (r: seq<Product>)
    ensures forall p | p in r :: p.name == name && p in rows
    ensures forall p | p in rows && p.name == name :: p in r
  {
    if rows == [] then []
    else
      var before, last := rows[..|rows| - 1], rows[|rows| - 1];
      assert rows == before + [last];
      Named(before, name) + if last.name == name then [last] else []
  }

  function AllUrls(rows: seq<Product>): seq<string> {
    if rows == [] then [] else AllUrls(rows[..|rows| - 1]) + rows[|rows| - 1].inputImageUrls
  }

  /** A name's product: the only row's, or the de-duplicated URLs of all its rows in order. */
  function Group(name: string, rows: seq<Product>): Product {
    var own := Named(rows, name);
    if |own| == 1 then own[0] else Product(name, FirstOccurrences(AllUrls(own)))
  }

  function GroupBy(rows: seq<Product>): map<string, Product> {
    var names := set p | p in rows :: p.name;
    map name | name in names :: Group(name, rows)
  }

  function MergeAll(rows: seq<Product>): map<string, Product> {
    if rows == [] then map[] else Merge(MergeAll(rows[..|rows| - 1]), rows[|rows| - 1])
  }

  lemma {:induction false} FirstOccurrencesTwice(a: seq<string>, b: seq<string>)
    ensures FirstOccurrences(FirstOccurrences(a) + b) == FirstOccurrences(a + b)
  {
    if b == [] {
      assert a + b == a && FirstOccurrences(a) + b == FirstOccurrences(a);
      FirstOccurrencesOfDistinct(FirstOccurrences(a));
    } else {
      var front := b[..|b| - 1];
      assert (a + b)[..|a + b| - 1] == a + front;
      var d := FirstOccurrences(a) + b;
      assert d[..|d| - 1] == FirstOccurrences(a) + front;
      FirstOccurrencesTwice(a, front);
    }
  }

  lemma {:induction false} FirstOccurrencesOfDistinct(xs: seq<string>)
    requires forall i, j | 0 <= i < j < |xs| :: xs[i] != xs[j]
    ensures FirstOccurrences(xs) == xs
  {
    if xs != [] {
      FirstOccurrencesOfDistinct(xs[..|xs| - 1]);
      assert xs == xs[..|xs| - 1] + [xs[|xs| - 1]];
    }
  }

  /** Position of the first `x`. */
  function IndexOf(xs: seq<string>, x: string): (i: nat)
    requires x in xs
    ensures i < |xs| && xs[i] == x && x !in xs[..i]
  {
    if xs[0] == x then 0 else 1 + IndexOf(xs[1..], x)
  }

  /** De-duplication keeps the order in which values first occur. */
  lemma {:induction false} FirstOccurrencesOrder(xs: seq<string>, i: nat, j: nat)
    requires i < j < |FirstOccurrences(xs)|
    ensures var r := FirstOccurrences(xs); IndexOf(xs, r[i]) < IndexOf(xs, r[j])
  {
    var front, r := xs[..|xs| - 1], FirstOccurrences(xs);
    var kept := FirstOccurrences(front);
    IndexOfPrefix(front, xs, r[i]);
    if j < |kept| {
      FirstOccurrencesOrder(front, i, j);
      IndexOfPrefix(front, xs, r[j]);
    } else {
      IndexOfBeyond(front, xs, r[j]);
    }
  }

  lemma {:induction false} IndexOfPrefix(front: seq<string>, xs: seq<string>, x: string)
    requires front <= xs && x in front
    ensures x in xs && IndexOf(xs, x) == IndexOf(front, x)
  {
    if front[0] != x {
      assert xs == [xs[0]] + xs[1..];
      assert front == [front[0]] + front[1..];
      IndexOfPrefix(front[1..], xs[1..], x);
    }
  }

  lemma {:induction false} IndexOfBeyond(front: seq<string>, xs: seq<string>, x: string)
    requires front <= xs && x in xs && x !in front
    ensures IndexOf(xs, x) >= |front|
  {
    if front != [] {
      assert xs == [xs[0]] + xs[1..];
      assert front == [front[0]] + front[1..];
      IndexOfBeyond(front[1..], xs[1..], x);
    }
  }

  lemma NamedNone(rows: seq<Product>, name: string)
    ensures Named(rows, name) == [] <==> forall p | p in rows :: p.name != name
  {
    if Named(rows, name) != [] {
      assert Named(rows, name)[0] in Named(rows, name);
    }
  }

  lemma AllUrlsOne(p: Product)
    ensures AllUrls([p]) == p.inputImageUrls
  {
    assert [p][..0] == [];
    assert AllUrls([]) + p.inputImageUrls == p.inputImageUrls;
  }

  /** One more row of a name already seen. */
  lemma GroupMerges(name: string, rows: seq<Product>, p: Product)
    requires p.name == name && Named(rows, name) != []
    ensures Group(name, rows + [p]) ==
            Product(name, FirstOccurrences(Group(name, rows).inputImageUrls + p.inputImageUrls))
  {
    var own := Named(rows, name);
    var all := rows + [p];
    assert all[..|all| - 1] == rows;
    assert Named(all, name) == own + [p];
    assert (own + [p])[..|own|] == own;
    if |own| == 1 {
      AllUrlsOne(own[0]);
      assert own == [own[0]];
    } else {
      FirstOccurrencesTwice(AllUrls(own), p.inputImageUrls);
    }
  }

  lemma GroupOfOthers(name: string, rows: seq<Product>, p: Product)
    requires p.name != name
    ensures Group(name, rows + [p]) == Group(name, rows)
  {
    var all := rows + [p];
    assert all[..|all| - 1] == rows;
    assert Named(all, name) == Named(rows, name) + [];
    assert Named(all, name) == Named(rows, name);
  }

  lemma GroupOfFirst(rows: seq<Product>, p: Product)
    requires Named(rows, p.name) == []
    ensures Group(p.name, rows + [p]) == p
  {
    var all := rows + [p];
    assert all[..|all| - 1] == rows;
    assert Named(all, p.name) == [p];
  }

  /** One row merged into groups gives the groups with that row. */
  lemma GroupByMerges(rows: seq<Product>, p: Product)
    ensures Merge(GroupBy(rows), p) == GroupBy(rows + [p])
  {
    hide FirstOccurrences, Group, Named;
    var all := rows + [p];
    var merged := Merge(GroupBy(rows), p);
    NamedNone(rows, p.name);
    forall name | name in GroupBy(all) ensures name in merged && merged[name] == Group(name, all) {
      if name != p.name {
        GroupOfOthers(name, rows, p);
      } else if Named(rows, name) == [] {
        GroupOfFirst(rows, p);
      } else {
        GroupMerges(name, rows, p);
        GroupName(name, rows);
      }
    }
  }

  /** Folding rows into the map, one at a time, groups them by name. */
  lemma {:induction false} MergeAllIsGroupBy(rows: seq<Product>)
    ensures MergeAll(rows) == GroupBy(rows)
  {
    hide Group, Merge;
    if rows != [] {
      var front, p := rows[..|rows| - 1], rows[|rows| - 1];
      assert rows == front + [p];
      MergeAllIsGroupBy(front);
      GroupByMerges(front, p);
    }
  }

  lemma GroupName(name: string, rows: seq<Product>)
    ensures Group(name, rows).name == name
  {
    var own := Named(rows, name);
    if |own| == 1 {
      assert own[0] in own;
    }
  }

  // Which texts are accepted.

  /** All columns are white space. */
  predicate BlankLine(line: string) {
    RawColumns(line).Some? && forall col | col in RawColumns(line).value :: Blank(col)
  }

  /** The same letter, in upper or lower case, or the same character. */
  predicate SameLetter(a: char, b: char) {
    || a == b
    || ('A' <= a <= 'Z' && b as int == a as int + 32)
    || ('a' <= a <= 'z' && b as int == a as int - 32)
  }

  predicate SameButCase(a: string, b: string) {
    |a| == |b| && forall i | 0 <= i < |a| :: SameLetter(a[i], b[i])
  }

  predicate IsHeader(cols: seq<string>) {
    && |cols| == 3
    && SameButCase(cols[0], "S. No.") && SameButCase(cols[1], "Product Name")
    && SameButCase(cols[2], "Input Image Urls")
  }

  predicate HeaderLine(line: string) {
    Columns(line).Some? && IsHeader(Columns(line).value)
  }

  /** Second column the name, third the list of URLs. */
  function ProductAt(cols: seq<string>): Product
    requires |cols| == 3
  {
    Product(cols[1], TrimAll(Split(cols[2], ',')))
  }

  predicate ProductLine(isUrl: string -> bool, line: string): (r: bool)
    ensures r ==> Columns(line).Some? && |Columns(line).value| == 3
  {
    && Columns(line).Some? && |Columns(line).value| == 3
    && var p := ProductAt(Columns(line).value);
       p.name != "" && p.name !in INHERITED_NAMES && forall u | u in p.inputImageUrls :: isUrl(u)
  }

  lemma {:induction false} LowerIsSameButCase(a: string, b: string)
    ensures Lower(a) == Lower(b) <==> SameButCase(a, b)
  {
    if a != "" && b != "" {
      LowerIsSameButCase(a[1..], b[1..]);
      assert Lower(a) == Lower(b) <==> LowerChar(a[0]) == LowerChar(b[0]) && Lower(a[1..]) == Lower(b[1..]) by {
        assert Lower(a)[1..] == Lower(a[1..]) && Lower(b)[1..] == Lower(b[1..]);
      }
      assert a == [a[0]] + a[1..] && b == [b[0]] + b[1..];
      if SameButCase(a, b) {
        assert forall i | 0 <= i < |a| - 1 :: SameLetter(a[1..][i], b[1..][i]) == SameLetter(a[i + 1], b[i + 1]);
      }
    }
  }

  lemma HeadersMatchIs(cols: seq<string>)
    requires |cols| == 3
    ensures HeadersMatch(cols) <==> IsHeader(cols)
  {
    hide Lower, SameButCase;
    LowerIsSameButCase(cols[0], "S. No.");
    LowerIsSameButCase(cols[1], "Product Name");
    LowerIsSameButCase(cols[2], "Input Image Urls");
  }

  lemma HeaderLineIs(line: string)
    ensures HeaderLine(line) <==>
            Columns(line).Some? && |Columns(line).value| == 3 && HeadersMatch(Columns(line).value)
  {
    hide Columns, HeadersMatch, SameButCase;
    if Columns(line).Some? && |Columns(line).value| == 3 {
      HeadersMatchIs(Columns(line).value);
    }
  }

  lemma BlankIsTrimmedAway(s: string)
    ensures Blank(s) <==> Trim(s) == ""
  {
    hide Trim, IsSpace;
    if Blank(s) {
      TrimOfPadded(s, "", "");
      assert s + "" + "" == s;
    } else if Trim(s) == "" {
      TrimmedAwayIsSpace(s);
    }
  }

  lemma BlankLineIs(line: string)
    ensures BlankLine(line) <==> Columns(line).Some? && EmptyRow(Columns(line).value)
  {
    hide RawColumns, Trim, Blank;
    if RawColumns(line).Some? {
      var raw := RawColumns(line).value;
      forall i | 0 <= i < |raw| ensures Trim(Trim(raw[i])) == "" <==> Blank(raw[i]) {
        TrimmedIsItsTrim(Trim(raw[i]));
        BlankIsTrimmedAway(raw[i]);
      }
      if EmptyRow(Columns(line).value) {
        forall col | col in raw ensures Blank(col) {
          var i :| 0 <= i < |raw| && raw[i] == col;
          assert Columns(line).value[i] == Trim(raw[i]);
        }
      }
    }
  }

  lemma ProductAtIs(cols: seq<string>)
    requires |cols| == 3
    ensures ProductOf(cols) == ProductAt(cols)
  {
    hide Trim, Split, IsSpace;
    CommaIsNoSpace();
    SplitOfTrim(cols[2], ',');
  }

  lemma CommaIsNoSpace()
    ensures !IsSpace(',')
  {
  }

  lemma ProductLineIs(isUrl: string -> bool, line: string)
    ensures ProductLine(isUrl, line) <==>
            && Columns(line).Some? && |Columns(line).value| == 3 && !EmptyRow(Columns(line).value)
            && ValidProduct(isUrl, ProductOf(Columns(line).value))
            && ProductOf(Columns(line).value).name !in INHERITED_NAMES
  {
    hide Columns, Trim, Split, INHERITED_NAMES;
    if Columns(line).Some? && |Columns(line).value| == 3 {
      var cols := Columns(line).value;
      ColumnsTrimmed(line);
      ProductAtIs(cols);
      assert cols[1] in cols;
    }
  }

  lemma ProductIsNoBlank(isUrl: string -> bool, line: string)
    ensures ProductLine(isUrl, line) ==> !BlankLine(line)
  {
    hide Columns, EmptyRow, ValidProduct, INHERITED_NAMES, BlankLine, ProductLine;
    BlankLineIs(line);
    ProductLineIs(isUrl, line);
  }

  predicate BodyAccepted(isUrl: string -> bool, lines: seq<string>) {
    forall line | line in lines :: BlankLine(line) || ProductLine(isUrl, line)
  }

  /** The products of the lines that are not blank. */
  function ProductsOf(isUrl: string -> bool, lines: seq<string>): seq<Product>
    requires BodyAccepted(isUrl, lines)
  {
    if lines == [] then []
    else
      var last := lines[|lines| - 1];
      ProductsOf(isUrl, lines[..|lines| - 1]) +
      if ProductLine(isUrl, last) then [ProductAt(Columns(last).value)] else []
  }

  lemma BodyAcceptedLast(isUrl: string -> bool, lines: seq<string>)
    requires lines != []
    ensures var last := lines[|lines| - 1];
            BodyAccepted(isUrl, lines) <==>
            BodyAccepted(isUrl, lines[..|lines| - 1]) && (BlankLine(last) || ProductLine(isUrl, last))
  {
    hide BlankLine, ProductLine;
    assert lines == lines[..|lines| - 1] + [lines[|lines| - 1]];
  }

  lemma RowStepMeaning(isUrl: string -> bool, st: State, line: string)
    requires st.Open? && st.header != []
    ensures RowStep(isUrl, st, line).Open? <==> BlankLine(line) || ProductLine(isUrl, line)
    ensures BlankLine(line) ==> RowStep(isUrl, st, line) == st
    ensures ProductLine(isUrl, line) ==>
              RowStep(isUrl, st, line) == st.(products := Merge(st.products, ProductAt(Columns(line).value)))
  {
    hide Columns, EmptyRow, ProductOf, ProductAt, ValidProduct, Merge, HeaderStep, BlankLine, ProductLine,
         INHERITED_NAMES;
    BlankLineIs(line);
    ProductLineIs(isUrl, line);
    ProductIsNoBlank(isUrl, line);
    if Columns(line).Some? && |Columns(line).value| == 3 {
      ProductAtIs(Columns(line).value);
    }
  }

  lemma {:induction false} BodyMeaning(isUrl: string -> bool, header: seq<string>, lines: seq<string>)
    requires header != []
    ensures var r := FoldRows(isUrl, Open(header, map[]), lines);
            if BodyAccepted(isUrl, lines) then r == Open(header, MergeAll(ProductsOf(isUrl, lines)))
            else r.Failed?
    decreases |lines|
  {
    hide RowStep, BlankLine, ProductLine, Merge, Columns, ProductAt;
    if lines != [] {
      var k := |lines| - 1;
      BodyMeaning(isUrl, header, lines[..k]);
      BodyAcceptedLast(isUrl, lines);
      FoldOne(isUrl, Open(header, map[]), lines, k);
      assert lines[..k + 1] == lines;
      var st := FoldRows(isUrl, Open(header, map[]), lines[..k]);
      if st.Open? {
        RowStepMeaning(isUrl, st, lines[k]);
        if BodyAccepted(isUrl, lines) {
          ProductsOfLast(isUrl, lines);
        }
      } else {
        FoldOfFailed(isUrl, st, [lines[k]]);
        FailedStays(isUrl, st, lines[k]);
      }
    }
  }

  lemma FailedStays(isUrl: string -> bool, st: State, row: string)
    requires st.Failed?
    ensures RowStep(isUrl, st, row) == st
  {
  }

  lemma ProductsOfLast(isUrl: string -> bool, lines: seq<string>)
    requires lines != [] && BodyAccepted(isUrl, lines)
    ensures var front, last := lines[..|lines| - 1], lines[|lines| - 1];
            && BodyAccepted(isUrl, front)
            && MergeAll(ProductsOf(isUrl, lines)) ==
               if ProductLine(isUrl, last) then
                 Merge(MergeAll(ProductsOf(isUrl, front)), ProductAt(Columns(last).value))
               else MergeAll(ProductsOf(isUrl, front))
    ensures BlankLine(lines[|lines| - 1]) ==> !ProductLine(isUrl, lines[|lines| - 1])
  {
    hide Columns, ProductAt, Merge, BlankLine, ProductLine;
    ProductIsNoBlank(isUrl, lines[|lines| - 1]);
    var front, last := lines[..|lines| - 1], lines[|lines| - 1];
    BodyAcceptedLast(isUrl, lines);
    var before := ProductsOf(isUrl, front);
    if ProductLine(isUrl, last) {
      var p := ProductAt(Columns(last).value);
      assert (before + [p])[..|before|] == before;
    } else {
      assert before + [] == before;
    }
  }

  lemma TrimmedAwayIsBlank(line: string)
    requires Trim(line) == ""
    ensures BlankLine(line)
  {
    hide Columns, IsSpace, Trim, Split, BlankLine;
    BlankLineIs(line);
    TrimmedAwayIsSpace(line);
    SpaceIsPlain(line);
    QuoteFreeRow(line);
    SplitWhole(line, ',');
    assert TrimAll([line]) == [""];
    TrimOfPadded("", "", "");
    assert "" + "" + "" == "";
  }

  lemma SpaceIsPlain(s: string)
    requires Blank(s)
    ensures '"' !in s && ',' !in s
  {
  }

  lemma TrimmedAwayIsSpace(line: string)
    requires Trim(line) == ""
    ensures Blank(line)
  {
    var t := TrimStart(line);
    assert t == "";
  }

  /** After the header, the tail of the stream is treated like any other row. */
  lemma TailIsARow(isUrl: string -> bool, st: State, tail: string)
    requires st.Open? ==> st.header != []
    ensures TailStep(isUrl, st, tail) == RowStep(isUrl, st, tail)
  {
    hide Columns, ProductStep, EmptyRow, Trim, BlankLine;
    BlankLineIs(tail);
    if st.Open? && Trim(tail) == "" {
      TrimmedAwayIsBlank(tail);
    }
  }

  lemma {:induction false} LinesCount(current: string, s: string)
    requires NewlineFree(current)
    ensures Lines(current, s) == [current + s] <==> NewlineFree(s)
    ensures |Lines(current, s)| == 1 <==> NewlineFree(s)
    decreases |s|
  {
    if s == "" {
      assert current + s == current;
    } else if IsNewline(s[0]) {
      assert s[0] in s;
    } else {
      LinesCount(current + [s[0]], s[1..]);
      assert s == [s[0]] + s[1..];
      assert current + [s[0]] + s[1..] == current + s;
    }
  }

  /** A text without a newline is only a tail: blank, or the header and nothing else. */
  lemma MeaningOfOneLine(isUrl: string -> bool, text: string)
    requires NewlineFree(text)
    ensures ParseText(isUrl, text).Ok? <==> BlankLine(text) || HeaderLine(text)
    ensures ParseText(isUrl, text).Ok? ==> ParseText(isUrl, text).value == map[]
  {
    hide Columns, EmptyRow, HeadersMatch, Trim, BlankLine, HeaderLine;
    BlankLineIs(text);
    HeaderLineIs(text);
    LinesCount("", text);
    assert "" + text == text;
    assert Complete([text]) == [];
    if Trim(text) == "" {
      TrimmedAwayIsBlank(text);
    }
  }

  /** Rows from the start: the header, then blank lines and products. */
  lemma RowsMeaning(isUrl: string -> bool, rows: seq<string>)
    requires rows != []
    ensures var st := FoldRows(isUrl, INITIAL, rows);
            && (st.Open? <==> HeaderLine(rows[0]) && BodyAccepted(isUrl, rows[1..]))
            && (st.Open? ==> st.products == GroupBy(ProductsOf(isUrl, rows[1..])))
  {
    hide Columns, HeaderLine, BodyAccepted, FoldRows, RowStep;
    var first := RowStep(isUrl, INITIAL, rows[0]);
    assert rows == [rows[0]] + rows[1..];
    FoldConcat(isUrl, INITIAL, [rows[0]], rows[1..]);
    FoldHead(isUrl, INITIAL, rows[0]);
    HeaderMeaning(isUrl, rows[0]);
    if first.Failed? {
      FoldOfFailed(isUrl, first, rows[1..]);
    } else {
      BodyMeaning(isUrl, first.header, rows[1..]);
      if BodyAccepted(isUrl, rows[1..]) {
        MergeAllIsGroupBy(ProductsOf(isUrl, rows[1..]));
      }
    }
  }

  /**
   * A text with newlines is accepted exactly when its first line is the header and every later
   * line is blank or a valid product row; its products are those rows grouped by name.
   */
  lemma MeaningOfText(isUrl: string -> bool, text: string)
    requires !NewlineFree(text)
    ensures var lines := Lines("", text);
            var accepted := HeaderLine(lines[0]) && BodyAccepted(isUrl, lines[1..]);
            && (ParseText(isUrl, text).Ok? <==> accepted)
            && (accepted ==> ParseText(isUrl, text) == Ok(GroupBy(ProductsOf(isUrl, lines[1..]))))
  {
    hide HeaderLine, BodyAccepted, FoldRows, Lines, ParseText;
    TextIsAFold(isUrl, text);
    RowsMeaning(isUrl, Lines("", text));
  }

  // Which product a written row gives.

  /** The three fields, number, name and list, with the list's pieces in their padding. */
  ghost predicate WritesProduct(number: Field, name: Field, list: Field, pieces: seq<string>, p: Product) {
    && WellWritten(number) && WellWritten(name) && WellWritten(list)
    && Readable(number) && Readable(name) && Readable(list)
    && p.name == Value(name)
    && pieces != [] && (forall piece | piece in pieces :: ',' !in piece) && TrimAll(pieces) == p.inputImageUrls
    && Value(list) == Trim(Join(pieces, ","))
  }

  /**
   * Whatever its number and however it is quoted and padded, a written row is the product of its name
   * and its URLs, in their order.
   */
  lemma WrittenRowIsProduct(isUrl: string -> bool, number: Field, name: Field, list: Field,
                            pieces: seq<string>, p: Product, st: State)
    requires WritesProduct(number, name, list, pieces, p)
    requires p.name != "" && p.name !in INHERITED_NAMES && forall u | u in p.inputImageUrls :: isUrl(u)
    requires st.Open? && st.header != []
    ensures var row := EncodeRow([number, name, list]);
            && ProductLine(isUrl, row) && ProductAt(Columns(row).value) == p
            && RowStep(isUrl, st, row) == st.(products := Merge(st.products, p))
  {
    hide Columns, Trim, Split, Join, IsSpace, EncodeRow, INHERITED_NAMES, Merge, RowStep, Value, Values, WellWritten,
         Readable;
    ThreeValues(number, name, list);
    RoundTrip([number, name, list]);
    var cols := [Value(number), Value(name), Value(list)];
    CommaIsNoSpace();
    TrimmedIsItsTrim(Trim(Join(pieces, ",")));
    SplitOfTrim(Join(pieces, ","), ',');
    SplitOfJoin(pieces, ',');
    RowStepMeaning(isUrl, st, EncodeRow([number, name, list]));
  }

  // Which error a rejected text gives.

  /** The line, as the first one or a later one, is rejected with this error. */
  predicate Explains(isUrl: string -> bool, first: bool, line: string, e: ParseError) {
    match e
    case UnclosedQuote(row) => row == line && Columns(line).None?
    case HeaderCount(cols) => first && Columns(line) == Some(cols) && |cols| != 3
    case HeaderMismatch(cols) => first && Columns(line) == Some(cols) && |cols| == 3 && !IsHeader(cols)
    case ColumnCount(cols) => !first && Columns(line) == Some(cols) && |cols| != 3 && !BlankLine(line)
    case InvalidProduct(p) =>
      && !first && Columns(line).Some? && |Columns(line).value| == 3 && !BlankLine(line)
      && p == ProductAt(Columns(line).value) && (p.name == "" || exists u | u in p.inputImageUrls :: !isUrl(u))
    case InheritedName(name) =>
      && !first && Columns(line).Some? && |Columns(line).value| == 3 && name in INHERITED_NAMES
      && var p := ProductAt(Columns(line).value);
         p.name == name && forall u | u in p.inputImageUrls :: isUrl(u)
  }

  lemma HeaderStepError(st: State, cols: seq<string>, line: string, isUrl: string -> bool)
    requires st.Open? && HeaderStep(st, cols).Failed? && Columns(line) == Some(cols)
    ensures Explains(isUrl, true, line, HeaderStep(st, cols).error)
  {
    hide Columns, HeadersMatch, IsHeader;
    if |cols| == 3 {
      HeadersMatchIs(cols);
    }
  }

  lemma ProductStepError(st: State, cols: seq<string>, line: string, isUrl: string -> bool)
    requires st.Open? && ProductStep(isUrl, st, cols).Failed? && Columns(line) == Some(cols) && !EmptyRow(cols)
    ensures Explains(isUrl, false, line, ProductStep(isUrl, st, cols).error)
  {
    hide Columns, EmptyRow, BlankLine, ProductOf, ProductAt, INHERITED_NAMES, Merge;
    BlankLineIs(line);
    if |cols| == 3 {
      ProductAtIs(cols);
    }
  }

  lemma RowError(isUrl: string -> bool, st: State, line: string)
    requires st.Open? && RowStep(isUrl, st, line).Failed?
    ensures Explains(isUrl, st.header == [], line, RowStep(isUrl, st, line).error)
  {
    hide Columns, EmptyRow, HeaderStep, ProductStep;
    if Columns(line).Some? {
      var cols := Columns(line).value;
      if st.header == [] {
        HeaderStepError(st, cols, line, isUrl);
      } else {
        ProductStepError(st, cols, line, isUrl);
      }
    }
  }

  /** A failed fold failed at some row, the rows before it being fine. */
  lemma {:induction false} FirstFailure(isUrl: string -> bool, st: State, rows: seq<string>) returns (k: nat)
    requires st.Open? && FoldRows(isUrl, st, rows).Failed?
    ensures k < |rows| && FoldRows(isUrl, st, rows[..k]).Open?
    ensures RowStep(isUrl, FoldRows(isUrl, st, rows[..k]), rows[k]) == FoldRows(isUrl, st, rows)
    decreases |rows|
  {
    hide RowStep;
    var n := |rows| - 1;
    FoldOne(isUrl, st, rows, n);
    assert rows[..n + 1] == rows;
    if FoldRows(isUrl, st, rows[..n]).Open? {
      k := n;
    } else {
      k := FirstFailure(isUrl, st, rows[..n]);
      assert rows[..n][..k] == rows[..k];
      FailedStays(isUrl, FoldRows(isUrl, st, rows[..n]), rows[n]);
    }
  }

  /** Lines `k` of the text, those before it accepted, is the one the error is about. */
  ghost predicate RejectedAt(isUrl: string -> bool, lines: seq<string>, k: nat, e: ParseError) {
    && k < |lines| && Explains(isUrl, k == 0, lines[k], e)
    && (k > 0 ==> HeaderLine(lines[0]) && BodyAccepted(isUrl, lines[1..k]))
  }

  /** Every rejected text gives the error of its first line that is not accepted. */
  lemma RejectionIsExplained(isUrl: string -> bool, text: string)
    requires ParseText(isUrl, text).Err?
    ensures exists k :: RejectedAt(isUrl, Lines("", text), k, ParseText(isUrl, text).error)
  {
    hide FoldRows, RowStep, Lines, HeaderLine, BodyAccepted, Explains, NewlineFree, TailStep;
    var lines := Lines("", text);
    if NewlineFree(text) {
      EmptyIsNewlineFree();
      LinesCount("", text);
      assert "" + text == text;
      LoneLineError(isUrl, text);
      assert RejectedAt(isUrl, lines, 0, ParseText(isUrl, text).error);
    } else {
      TextIsAFold(isUrl, text);
      var k := FirstFailure(isUrl, INITIAL, lines);
      RowError(isUrl, FoldRows(isUrl, INITIAL, lines[..k]), lines[k]);
      if k > 0 {
        RowsMeaning(isUrl, lines[..k]);
        assert lines[..k][1..] == lines[1..k];
        HeaderIsIn(isUrl, lines[..k]);
      } else {
        NoRowsRead(isUrl);
        assert lines[..0] == [];
      }
      assert RejectedAt(isUrl, lines, k, ParseText(isUrl, text).error);
    }
  }

  lemma NoRowsRead(isUrl: string -> bool)
    ensures FoldRows(isUrl, INITIAL, []) == INITIAL
  {
  }

  lemma LoneLineError(isUrl: string -> bool, text: string)
    requires Lines("", text) == [text] && ParseText(isUrl, text).Err?
    ensures Explains(isUrl, true, text, ParseText(isUrl, text).error)
  {
    hide Columns, HeaderStep, EmptyRow, Trim, Lines;
    assert Complete([text]) == [];
    NoRowsRead(isUrl);
    if Columns(text).Some? {
      HeaderStepError(INITIAL, Columns(text).value, text, isUrl);
    }
  }

  /** A text that begins with three plain columns other than the headers is rejected for them. */
  lemma BadHeaderIsRejected(isUrl: string -> bool, cols: seq<string>, rest: string)
    requires |cols| == 3 && !IsHeader(cols)
    requires forall h | h in cols :: ',' !in h && '"' !in h && Trimmed(h) && NewlineFree(h)
    ensures ParseText(isUrl, Join(cols, ",") + "\n" + rest) == Err(HeaderMismatch(cols))
  {
    hide ParseText, IsHeader, Lines, Columns, Trimmed, NewlineFree, Join;
    var line := Join(cols, ",");
    var text := line + "\n" + rest;
    PlainColumns(cols);
    JoinedIsNewlineFree(cols);
    FirstLine(line, rest);
    MeaningOfText(isUrl, text);
    RejectionIsExplained(isUrl, text);
    var k :| RejectedAt(isUrl, Lines("", text), k, ParseText(isUrl, text).error);
    assert k == 0;
  }

  lemma FirstLine(line: string, rest: string)
    requires NewlineFree(line)
    ensures !NewlineFree(line + "\n" + rest) && Lines("", line + "\n" + rest)[0] == line
  {
    hide Lines;
    LinesConcat("", line, "\n" + rest);
    assert line + ("\n" + rest) == line + "\n" + rest;
    LinesCount("", line);
    assert "" + line == line;
    LinesAtNewline(line, rest);
    assert '\n' in line + "\n" + rest;
  }

  const SWAPPED := ["S. No.", "Input Image Urls", "Product Name"]

  /** The headers in another order, above a row that would be a product. */
  lemma SwappedHeaderIsRejected(isUrl: string -> bool)
    ensures ParseText(isUrl, Join(SWAPPED, ",") + "\n" + "1,shoe,http://u") == Err(HeaderMismatch(SWAPPED))
  {
    hide ParseText, Trimmed, NewlineFree, SWAPPED, IsHeader, Join;
    SwappedHeaders();
    BadHeaderIsRejected(isUrl, SWAPPED, "1,shoe,http://u");
  }

  lemma SwappedHeaders()
    ensures |SWAPPED| == 3 && !IsHeader(SWAPPED)
    ensures forall h | h in SWAPPED :: ',' !in h && '"' !in h && Trimmed(h) && NewlineFree(h)
  {
    hide Trimmed, NewlineFree;
    forall h | h in SWAPPED ensures ',' !in h && '"' !in h && Trimmed(h) && NewlineFree(h) {
      ExpectedArePlain(h);
    }
    assert |SWAPPED[1]| != |"Product Name"|;
  }

  /** The header and one product row. */
  lemma TwoLines(isUrl: string -> bool, header: string, row: string)
    requires NewlineFree(header) && HeaderLine(header) && NewlineFree(row) && ProductLine(isUrl, row)
    ensures var p := ProductAt(Columns(row).value);
            ParseText(isUrl, header + "\n" + row) == Ok(map[p.name := p])
  {
    hide ParseText, HeaderLine, ProductLine, Columns, ProductAt, NewlineFree, Lines;
    var text, p := header + "\n" + row, ProductAt(Columns(row).value);
    LinesOfTwo(header, row);
    MeaningOfText(isUrl, text);
    assert [header, row][1..] == [row];
    assert ProductsOf(isUrl, [row]) == [p] by {
      assert [row][..0] == [];
      assert [] + [p] == [p];
    }
    GroupByOne(p);
  }

  lemma GroupByOne(p: Product)
    ensures GroupBy([p]) == map[p.name := p]
  {
    hide Group;
    GroupOfFirst([], p);
    assert [] + [p] == [p];
    assert p in [p];
  }

  lemma LinesOfTwo(header: string, row: string)
    requires NewlineFree(header) && NewlineFree(row)
    ensures !NewlineFree(header + "\n" + row)
    ensures Lines("", header + "\n" + row) == [header, row]
  {
    hide Lines;
    LinesConcat("", header, "\n" + row);
    assert header + ("\n" + row) == header + "\n" + row;
    LinesCount("", header);
    LinesCount("", row);
    assert "" + header == header && "" + row == row;
    LinesAtNewline(header, row);
    assert '\n' in header + "\n" + row;
  }

  lemma LinesAtNewline(current: string, row: string)
    ensures Lines(current, "\n" + row) == [current] + Lines("", row)
  {
    assert ("\n" + row)[1..] == row;
  }

  /** With a newline in the text the header comes before the tail, so the tail is one more row. */
  lemma TextIsAFold(isUrl: string -> bool, text: string)
    requires !NewlineFree(text)
    ensures ParseText(isUrl, text) == Verdict(FoldRows(isUrl, INITIAL, Lines("", text)))
  {
    hide FoldRows, RowStep, Lines, TailStep, NewlineFree;
    var lines := Lines("", text);
    EmptyIsNewlineFree();
    LinesCount("", text);
    var n := |lines| - 1;
    FoldOne(isUrl, INITIAL, lines, n);
    assert lines[..n + 1] == lines;
    HeaderIsIn(isUrl, lines[..n]);
    TailIsARow(isUrl, FoldRows(isUrl, INITIAL, lines[..n]), lines[n]);
  }

  lemma EmptyIsNewlineFree()
    ensures NewlineFree("")
  {
  }

  lemma FoldHead(isUrl: string -> bool, st: State, row: string)
    ensures FoldRows(isUrl, st, [row]) == RowStep(isUrl, st, row)
  {
    hide RowStep;
    assert [row][1..] == [];
  }

  lemma HeaderMeaning(isUrl: string -> bool, line: string)
    ensures var st := RowStep(isUrl, INITIAL, line);
            && (st.Open? <==> HeaderLine(line))
            && (st.Open? ==> st.header != [] && st.products == map[])
  {
    hide Columns, HeadersMatch, HeaderLine;
    HeaderLineIs(line);
  }

  lemma {:induction false} HeaderIsIn(isUrl: string -> bool, rows: seq<string>)
    requires rows != []
    ensures var st := FoldRows(isUrl, INITIAL, rows); st.Open? ==> st.header != []
    decreases |rows|
  {
    hide RowStep;
    var k := |rows| - 1;
    FoldOne(isUrl, INITIAL, rows, k);
    assert rows[..k + 1] == rows;
    var st := FoldRows(isUrl, INITIAL, rows[..k]);
    if k == 0 {
      HeaderMeaning(isUrl, rows[0]);
    } else {
      HeaderIsIn(isUrl, rows[..k]);
      if st.Open? {
        RowStepMeaning(isUrl, st, rows[k]);
      } else {
        FailedStays(isUrl, st, rows[k]);
      }
    }
  }

  const SEPARATORS := {"\r\n", "\n\r", "\n", "\r"}

  /**
   * Ending the text with any of the four separators matters exactly for a single blank line: it
   * becomes a bad header.
   */
  lemma TrailingNewline(isUrl: string -> bool, text: string, separator: string)
    requires separator in SEPARATORS
    ensures ParseText(isUrl, text + separator) == ParseText(isUrl, text) <==>
            !(NewlineFree(text) && BlankLine(text))
  {
    hide ParseText, BlankLine;
    var c := separator[0];
    OneNewline(isUrl, text, c);
    if |separator| == 1 {
      assert separator == [c];
    } else {
      var more := text + [c];
      assert text + separator == more + [separator[1]];
      assert c in more;
      OneNewline(isUrl, more, separator[1]);
    }
  }

  lemma OneNewline(isUrl: string -> bool, text: string, c: char)
    requires IsNewline(c)
    ensures ParseText(isUrl, text + [c]) == ParseText(isUrl, text) <==> !(NewlineFree(text) && BlankLine(text))
  {
    hide RowStep, TailStep, BlankLine, FoldRows;
    var lines := Lines("", text);
    LinesConcat("", text, [c]);
    var tail := Tail(lines);
    assert Lines(tail, [c]) == [tail, ""] by {
      assert [c][1..] == "";
    }
    var more := Complete(lines) + [tail, ""];
    assert Lines("", text + [c]) == more;
    assert Complete(more) == lines && Tail(more) == "";
    var n := |lines| - 1;
    FoldOne(isUrl, INITIAL, lines, n);
    assert lines[..n + 1] == lines;
    var st := FoldRows(isUrl, INITIAL, lines[..n]);
    var all := RowStep(isUrl, st, tail);
    assert all == FoldRows(isUrl, INITIAL, lines);
    HeaderIsIn(isUrl, lines);
    TailIsARow(isUrl, all, "");
    EmptyRowIsSkipped(isUrl, st, tail);
    LinesCount("", text);
    assert "" + text == text;
    if n > 0 {
      HeaderIsIn(isUrl, lines[..n]);
      TailIsARow(isUrl, st, tail);
    } else {
      assert lines[..n] == [];
      LoneLine(isUrl, text);
    }
  }

  lemma LoneLine(isUrl: string -> bool, text: string)
    requires NewlineFree(text)
    ensures Verdict(RowStep(isUrl, INITIAL, text)) == Verdict(TailStep(isUrl, INITIAL, text)) <==>
            !BlankLine(text)
    ensures FoldRows(isUrl, INITIAL, []) == INITIAL
  {
    hide Columns, HeadersMatch, Trim, BlankLine, HeaderLine;
    BlankLineIs(text);
    HeaderLineIs(text);
    if Trim(text) == "" {
      TrimmedAwayIsBlank(text);
    }
    if BlankLine(text) {
      BlankIsNoHeader(text);
    }
  }

  lemma BlankIsNoHeader(text: string)
    requires BlankLine(text)
    ensures !HeaderLine(text)
  {
    hide Columns, Trim, BlankLine;
    BlankLineIs(text);
    var cols := Columns(text).value;
    if |cols| == 3 {
      ColumnsTrimmed(text);
      assert Trim(cols[0]) == "" && Trim(cols[0]) == cols[0];
      assert !SameButCase(cols[0], "S. No.");
    }
  }

  lemma ColumnsTrimmed(row: string)
    requires Columns(row).Some?
    ensures forall col | col in Columns(row).value :: Trimmed(col) && Trim(col) == col
  {
    hide RawColumns;
    forall col | col in Columns(row).value ensures Trimmed(col) && Trim(col) == col {
      TrimOfPadded("", col, "");
      assert "" + col + "" == col;
    }
  }

  lemma SameLetterIsPlain(a: char, b: char)
    requires SameLetter(a, b)
    ensures (a == ',' <==> b == ',') && (a == '"' <==> b == '"') && (IsNewline(a) <==> IsNewline(b))
    ensures IsSpace(a) <==> IsSpace(b)
  {
  }

  /** Changing the case keeps a string free of commas, quotes, newlines and outer white space. */
  lemma SameButCaseIsPlain(a: string, b: string)
    requires SameButCase(a, b)
    ensures (',' in a <==> ',' in b) && ('"' in a <==> '"' in b)
    ensures (NewlineFree(a) <==> NewlineFree(b)) && (Trimmed(a) <==> Trimmed(b))
  {
    hide SameLetter, IsSpace, IsNewline;
    forall i | 0 <= i < |a|
      ensures (a[i] == ',' <==> b[i] == ',') && (a[i] == '"' <==> b[i] == '"')
      ensures (IsNewline(a[i]) <==> IsNewline(b[i])) && (IsSpace(a[i]) <==> IsSpace(b[i]))
    {
      SameLetterIsPlain(a[i], b[i]);
    }
  }

  lemma ExpectedArePlain(h: string)
    requires h in {"S. No.", "Product Name", "Input Image Urls"}
    ensures ',' !in h && '"' !in h && Trimmed(h) && NewlineFree(h)
  {
    hide NewlineFree;
    ExpectedAreNewlineFree(h);
  }

  lemma ExpectedAreNewlineFree(h: string)
    requires h in {"S. No.", "Product Name", "Input Image Urls"}
    ensures NewlineFree(h)
  {
  }

  lemma HeaderIsPlain(cols: seq<string>)
    requires IsHeader(cols)
    ensures forall h | h in cols :: ',' !in h && '"' !in h && Trimmed(h) && NewlineFree(h)
  {
    hide SameButCase, Trimmed, NewlineFree;
    ExpectedArePlain("S. No.");
    ExpectedArePlain("Product Name");
    ExpectedArePlain("Input Image Urls");
    SameButCaseIsPlain(cols[0], "S. No.");
    SameButCaseIsPlain(cols[1], "Product Name");
    SameButCaseIsPlain(cols[2], "Input Image Urls");
    assert cols == [cols[0], cols[1], cols[2]];
  }

  /** The three headers in any case, written plainly, are a header line. */
  lemma AnyCaseIsAccepted(cols: seq<string>)
    requires IsHeader(cols)
    ensures HeaderLine(Join(cols, ",")) && NewlineFree(Join(cols, ","))
  {
    hide Columns, Split, Join, Trim, SameButCase, NewlineFree, Trimmed;
    HeaderIsPlain(cols);
    PlainColumns(cols);
    JoinChars(cols, ",");
    JoinedIsNewlineFree(cols);
  }

  lemma JoinedIsNewlineFree(cols: seq<string>)
    requires forall h | h in cols :: NewlineFree(h)
    ensures NewlineFree(Join(cols, ","))
  {
    hide Join;
    JoinChars(cols, ",");
  }

  /** Plain columns joined by commas are read back. */
  lemma PlainColumns(cols: seq<string>)
    requires cols != [] && forall h | h in cols :: ',' !in h && '"' !in h && Trimmed(h)
    ensures Columns(Join(cols, ",")) == Some(cols)
  {
    hide Columns, Split, Join, Trim, Trimmed;
    SplitOfJoin(cols, ',');
    JoinChars(cols, ",");
    QuoteFreeRow(Join(cols, ","));
    forall i | 0 <= i < |cols| ensures Trim(cols[i]) == cols[i] {
      assert cols[i] in cols;
      TrimmedIsItsTrim(cols[i]);
    }
    assert TrimAll(cols) == cols;
  }

  lemma ExpectedHeaderIsAccepted()
    ensures HeaderLine(Join(EXPECTED_HEADERS, ","))
  {
    hide Columns, Join;
    AnyCaseIsAccepted(EXPECTED_HEADERS);
  }

  /**
   * What every accepted text begins with, blank ones aside: a first line of exactly three columns,
   * the expected headers up to the case of their letters.
   */
  lemma AcceptedHasHeader(isUrl: string -> bool, text: string)
    requires ParseText(isUrl, text).Ok? && !(NewlineFree(text) && BlankLine(text))
    ensures var cols := Columns(Lines("", text)[0]);
            cols.Some? && IsHeader(cols.value)
  {
    hide ParseText, BlankLine, IsHeader, Lines, NewlineFree;
    EmptyIsNewlineFree();
    LinesCount("", text);
    if NewlineFree(text) {
      MeaningOfOneLine(isUrl, text);
      assert "" + text == text;
    } else {
      MeaningOfText(isUrl, text);
    }
  }

  // What an accepted product looks like.

  predicate WellFormed(isUrl: string -> bool, p: Product) {
    && p.name != "" && Trimmed(p.name) && NewlineFree(p.name) && p.name !in INHERITED_NAMES
    && p.inputImageUrls != []
    && forall url | url in p.inputImageUrls ::
         isUrl(url) && Trimmed(url) && ',' !in url && NewlineFree(url)
  }

  predicate AllWellFormed(isUrl: string -> bool, products: map<string, Product>) {
    forall name | name in products ::
      products[name].name == name && WellFormed(isUrl, products[name])
  }

  lemma {:induction false} ScanChars(row: string, i: nat, current: string, inQuotes: bool)
    requires i <= |row|
    requires NewlineFree(row) && NewlineFree(current)
    ensures var r := ScanFrom(row, i, current, inQuotes);
            r.Some? ==> forall col | col in r.value :: NewlineFree(col)
    decreases |row| - i
  {
    hide AtEdge;
    if i < |row| {
      if DoubledAt(row, i) {
        ScanChars(row, i + 2, current + "\"", inQuotes);
      } else if StructuralAt(row, i) {
        ScanChars(row, i + 1, current, !inQuotes);
      } else if row[i] == ',' && !inQuotes {
        ScanChars(row, i + 1, "", false);
      } else {
        assert row[i] in row;
        ScanChars(row, i + 1, current + [row[i]], inQuotes);
      }
    }
  }

  lemma ProductIsWellFormed(isUrl: string -> bool, line: string)
    requires NewlineFree(line) && ProductLine(isUrl, line)
    ensures WellFormed(isUrl, ProductAt(Columns(line).value))
  {
    hide AtEdge, ScanFrom, EmptyRow, Trim, Split;
    var cols := Columns(line).value;
    ScanChars(line, 0, "", false);
    ColumnsTrimmed(line);
    var raw := RawColumns(line).value;
    assert cols[1] == Trim(raw[1]) && cols[1] in cols && cols[2] == Trim(raw[2]);
    assert raw[1] in raw && raw[2] in raw;
    TrimChars(raw[1]);
    TrimChars(raw[2]);
    UrlsAreWellFormed(cols[2]);
  }

  lemma UrlsAreWellFormed(col: string)
    requires NewlineFree(col)
    ensures var urls := TrimAll(Split(Trim(col), ','));
            urls != [] && forall url | url in urls :: Trimmed(url) && ',' !in url && NewlineFree(url)
  {
    hide Trim, Split;
    var text := Trim(col);
    TrimChars(col);
    var pieces := Split(text, ',');
    SplitPieces(text, ',');
    forall url | url in TrimAll(pieces) ensures Trimmed(url) && ',' !in url && NewlineFree(url) {
      var i :| 0 <= i < |pieces| && url == Trim(pieces[i]);
      assert pieces[i] in pieces;
      TrimChars(pieces[i]);
    }
  }

  lemma MergeKeepsWellFormed(isUrl: string -> bool, products: map<string, Product>, p: Product)
    requires AllWellFormed(isUrl, products) && WellFormed(isUrl, p)
    ensures AllWellFormed(isUrl, Merge(products, p))
  {
    if p.name in products {
      var urls := products[p.name].inputImageUrls + p.inputImageUrls;
      assert urls[0] in urls;
      assert urls[0] in FirstOccurrences(urls);
    }
  }

  lemma {:induction false} MergeAllWellFormed(isUrl: string -> bool, lines: seq<string>)
    requires BodyAccepted(isUrl, lines) && forall line | line in lines :: NewlineFree(line)
    ensures AllWellFormed(isUrl, MergeAll(ProductsOf(isUrl, lines)))
    decreases |lines|
  {
    hide WellFormed, Merge, BlankLine, ProductLine, AllWellFormed, Columns, ProductAt;
    if lines == [] {
      NothingIsWellFormed(isUrl);
    } else {
      var front, last := lines[..|lines| - 1], lines[|lines| - 1];
      ProductsOfLast(isUrl, lines);
      MergeAllWellFormed(isUrl, front);
      if ProductLine(isUrl, last) {
        ProductIsWellFormed(isUrl, last);
        MergeKeepsWellFormed(isUrl, MergeAll(ProductsOf(isUrl, front)), ProductAt(Columns(last).value));
      }
    }
  }

  lemma NothingIsWellFormed(isUrl: string -> bool)
    ensures AllWellFormed(isUrl, map[])
  {
  }

  /** Whatever the text, what the reader accepts is well formed and keyed by its own name. */
  lemma AcceptedIsWellFormed(isUrl: string -> bool, text: string)
    requires ParseText(isUrl, text).Ok?
    ensures AllWellFormed(isUrl, ParseText(isUrl, text).value)
  {
    hide BlankLine, ProductLine, HeaderLine, WellFormed, Merge;
    if NewlineFree(text) {
      MeaningOfOneLine(isUrl, text);
    } else {
      MeaningOfText(isUrl, text);
      TailIsNewlineFree("", text);
      var body := Lines("", text)[1..];
      MergeAllIsGroupBy(ProductsOf(isUrl, body));
      MergeAllWellFormed(isUrl, body);
    }
  }
}
