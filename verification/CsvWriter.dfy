/** The writer `buildCSV`, and when the reader's row split and scanner read its document back. */
module CsvWriter {
  import opened Wrappers
  import opened Text
  import opened CsvScanner
  import opened CsvQuoting
  import opened CsvReader
  import CsvMeaning
  import Decimal

  datatype OutputProduct = OutputProduct(
    name: string, inputImageUrls: seq<string>, outputImageUrls: seq<string>)

  const OUTPUT_HEADERS := ["S. No.", "Product Name", "Input Image Urls", "Output Image Urls"]

  function UrlText(urls: seq<string>): string {
    Join(urls, ",")
  }

  function Row(i: nat, p: OutputProduct): string {
    Decimal.Of(i) + "," + p.name + ",\"" + UrlText(p.inputImageUrls) + "\",\"" +
    UrlText(p.outputImageUrls) + "\""
  }

  /** The numbered rows of `products`, each ended by CR LF. */
  function Body(products: seq<OutputProduct>, i: nat): string {
    if products == [] then "" else Row(i, products[0]) + "\r\n" + Body(products[1..], i + 1)
  }

  function Document(products: seq<OutputProduct>): string {
    Join(OUTPUT_HEADERS, ",") + "\r\n" + Body(products, 1)
  }

  lemma {:induction false} BodyConcat(a: seq<OutputProduct>, b: seq<OutputProduct>, i: nat)
    ensures Body(a + b, i) == Body(a, i) + Body(b, i + |a|)
  {
    hide Row;
    if a == [] {
      assert a + b == b;
    } else {
      assert (a + b)[1..] == a[1..] + b;
      BodyConcat(a[1..], b, i + 1);
      var head := Row(i, a[0]) + "\r\n";
      assert head + (Body(a[1..], i + 1) + Body(b, i + |a|)) == head + Body(a[1..], i + 1) + Body(b, i + |a|);
    }
  }

  /** `products` are the values of the record in the order it enumerates its keys. */
  method BuildCSV(products: seq<OutputProduct>) returns (csv: string)
    ensures csv == Document(products)
  {
    hide *;
    csv := Join(OUTPUT_HEADERS, ",") + "\r\n";
    ghost var head := csv;
    NoRows(head);
    for k := 0 to |products|
      invariant csv == head + Body(products[..k], 1)
    {
      csv := csv + Row(k + 1, products[k]) + "\r\n";
      RowAppended(head, products, k);
    }
    assert products[..|products|] == products;
    DocumentIs(products);
  }

  lemma DocumentIs(products: seq<OutputProduct>)
    ensures Document(products) == Join(OUTPUT_HEADERS, ",") + "\r\n" + Body(products, 1)
  {
  }

  lemma NoRows(head: string)
    ensures forall products: seq<OutputProduct> | |products| == 0 :: head + Body(products, 1) == head
  {
    assert head + "" == head;
  }

  lemma RowAppended(head: string, products: seq<OutputProduct>, k: nat)
    requires k < |products|
    ensures head + Body(products[..k], 1) + Row(k + 1, products[k]) + "\r\n" ==
            head + Body(products[..k + 1], 1)
  {
    hide Row, Body;
    var front, p := products[..k], products[k];
    assert products[..k + 1] == front + [p];
    BodyConcat(front, [p], 1);
    OneRow(p, k + 1);
    var row := Row(k + 1, p);
    assert head + Body(front, 1) + row + "\r\n" == head + (Body(front, 1) + (row + "\r\n"));
  }

  lemma OneRow(p: OutputProduct, i: nat)
    ensures Body([p], i) == Row(i, p) + "\r\n"
  {
    hide Row;
    assert Body([p], i) == Row(i, p) + "\r\n" + "";
  }

  // Reading a row back.

  /** A URL as the reader accepts it, and free of quotes. */
  predicate SafeUrl(u: string) {
    u != "" && Trimmed(u) && ',' !in u && '"' !in u && NewlineFree(u)
  }

  predicate SafeUrls(urls: seq<string>) {
    urls != [] && forall u | u in urls :: SafeUrl(u)
  }

  function UrlList(col: string): seq<string> {
    TrimAll(Split(Trim(col), ','))
  }

  /** The scanner finds the number, the name and both URL lists in the row. */
  predicate ReadsBack(row: string, i: nat, p: OutputProduct) {
    match Columns(row)
    case None => false
    case Some(cols) =>
      |cols| == 4 && cols[0] == Decimal.Of(i) && cols[1] == p.name
      && UrlList(cols[2]) == p.inputImageUrls && UrlList(cols[3]) == p.outputImageUrls
  }

  predicate NameSurvives(name: string) {
    Trimmed(name) && PlainName(name)
  }

  /** No comma, no quote at either end and no two quotes in a row. */
  predicate PlainName(name: string) {
    && ',' !in name
    && (name != "" ==> name[0] != '"' && name[|name| - 1] != '"')
    && forall k | 0 <= k < |name| - 1 :: !(name[k] == '"' && name[k + 1] == '"')
  }

  lemma UrlTextIsSafe(urls: seq<string>)
    requires SafeUrls(urls)
    ensures var u := UrlText(urls); u != "" && Trimmed(u) && '"' !in u && NewlineFree(u)
    ensures UrlList(UrlText(urls)) == urls
  {
    hide Trim, Split, Trimmed, Join;
    var u := UrlText(urls);
    JoinEnds(urls);
    JoinChars(urls, ",");
    SplitOfJoin(urls, ',');
    TrimmedIsItsTrim(u);
    forall k | 0 <= k < |urls| ensures Trim(urls[k]) == urls[k] {
      assert urls[k] in urls;
      TrimmedIsItsTrim(urls[k]);
    }
  }

  lemma {:induction false} JoinEnds(urls: seq<string>)
    requires SafeUrls(urls)
    ensures UrlText(urls) != "" && Trimmed(UrlText(urls))
  {
    hide IsSpace, NewlineFree;
    assert urls[0] in urls;
    if |urls| > 1 {
      assert forall u | u in urls[1..] :: u in urls;
      JoinEnds(urls[1..]);
    }
  }

  /** Where the pieces of a written row stand: the name is `row[a..b]`. */
  ghost predicate Written(row: string, i: nat, p: OutputProduct, a: nat, b: nat) {
    var ins, outs := UrlText(p.inputImageUrls), UrlText(p.outputImageUrls);
    && At(row, 0, Decimal.Of(i)) && a == |Decimal.Of(i)| + 1
    && At(row, a, p.name) && b == a + |p.name| && b + |ins| + |outs| + 6 == |row|
    && row[a - 1] == ',' && row[b] == ',' && At(row, b + 1, Lists(ins, outs))
  }

  function Lists(ins: string, outs: string): string {
    "\"" + ins + "\",\"" + outs + "\""
  }

  lemma RowLayout(i: nat, p: OutputProduct) returns (a: nat, b: nat)
    ensures Written(Row(i, p), i, p, a, b)
  {
    hide Decimal.Of, UrlText, Lists;
    var row, d := Row(i, p), Decimal.Of(i);
    var ins, outs := UrlText(p.inputImageUrls), UrlText(p.outputImageUrls);
    var r3 := "," + Lists(ins, outs);
    var r2 := p.name + r3;
    var r1 := "," + r2;
    RowInParts(d, p.name, ins, outs);
    ListsLength(ins, outs);
    a := |d| + 1;
    b := a + |p.name|;
    AtParts(row, 0, d, r1);
    AtParts(row, |d|, ",", r2);
    AtParts(row, a, p.name, r3);
    AtParts(row, b, ",", Lists(ins, outs));
  }

  lemma RowInParts(d: string, name: string, ins: string, outs: string)
    ensures d + "," + name + ",\"" + ins + "\",\"" + outs + "\"" ==
            d + ("," + (name + ("," + Lists(ins, outs))))
  {
    assert ",\"" == "," + "\"";
  }

  lemma NumberIsPlain(i: nat)
    ensures var d := Decimal.Of(i); '"' !in d && ',' !in d && Trimmed(d) && NewlineFree(d) && Trim(d) == d
  {
    var d := Decimal.Of(i);
    hide Trim;
    assert forall k | 0 <= k < |d| :: Decimal.IsDigit(d[k]);
    TrimmedIsItsTrim(d);
  }

  lemma ScanNumber(row: string, i: nat, p: OutputProduct, a: nat, b: nat)
    requires Written(row, i, p, a, b)
    ensures RawColumns(row) == Prepend(Decimal.Of(i), ScanFrom(row, a, "", false))
  {
    hide UrlText, Decimal.Of, AtEdge;
    NumberIsPlain(i);
    RawFieldScan(row, 0, Decimal.Of(i));
  }

  /** The two quoted lists, read as written fields. */
  lemma ScanLists(row: string, i: nat, p: OutputProduct, a: nat, b: nat)
    requires Written(row, i, p, a, b) && SafeUrls(p.inputImageUrls) && SafeUrls(p.outputImageUrls)
    ensures Reads(ScanFrom(row, b + 1, "", false),
                  [UrlText(p.inputImageUrls), UrlText(p.outputImageUrls)])
  {
    hide ScanFrom, Trim, Trimmed, UrlText, UrlList, Decimal.Of, SafeUrls, NewlineFree, Reads, Encode, EncodeRow,
         AllReadable, Values, WellWritten, Lists;
    var ins, outs := UrlText(p.inputImageUrls), UrlText(p.outputImageUrls);
    UrlTextIsSafe(p.inputImageUrls);
    UrlTextIsSafe(p.outputImageUrls);
    var fs := TwoQuoted(ins, outs);
    assert row[b] == ',' && b + 1 + |Lists(ins, outs)| == |row| by { ListsLength(ins, outs); }
    RowScan(row, b + 1, fs);
    TrimmedIsItsTrim(ins);
    TrimmedIsItsTrim(outs);
  }

  lemma ListsLength(ins: string, outs: string)
    ensures |Lists(ins, outs)| == |ins| + |outs| + 5
  {
  }

  lemma TwoQuoted(ins: string, outs: string) returns (fs: seq<Field>)
    requires '"' !in ins && '"' !in outs && ins != "" && outs != ""
    ensures fs != [] && EncodeRow(fs) == Lists(ins, outs) && AllReadable(fs)
    ensures forall f | f in fs :: WellWritten(f)
    ensures Values(fs) == [Trim(ins), Trim(outs)]
  {
    hide Trim, Encode, Readable;
    fs := [Quoted("", ins, ""), Quoted("", outs, "")];
    assert fs[1..] == [fs[1]];
    PlainQuoted(ins);
    PlainQuoted(outs);
    assert Values(fs[1..]) == [Trim(outs)];
    assert Lists(ins, outs) == "\"" + ins + "\"" + "," + ("\"" + outs + "\"");
  }

  lemma PlainQuoted(s: string)
    requires '"' !in s && s != ""
    ensures var f := Quoted("", s, ""); Encode(f) == "\"" + s + "\"" && Readable(f)
  {
    DoubleOfQuoteFree(s);
    assert s[0] in s;
    assert "" + "\"" + s + "\"" + "" == "\"" + s + "\"";
    assert LeadingQuotes(s) == 0;
  }

  /** No quote of `row[a..b]` is doubled or structural. */
  predicate NoMarks(row: string, a: nat, b: nat)
    requires a <= b <= |row|
  {
    forall x | a <= x < b :: !DoubledAt(row, x) && !StructuralAt(row, x)
  }

  lemma {:induction false} BackStops(row: string, a: nat, j: int)
    requires a <= j < |row| && row[a] != ' '
    ensures Back(row, j) >= a
    decreases j
  {
    if row[j] == ' ' {
      BackStops(row, a, j - 1);
    }
  }

  lemma {:induction false} ForthStops(row: string, k: nat, b: nat)
    requires k <= b < |row| && row[b] != ' '
    ensures Forth(row, k) <= b
    decreases b - k
  {
    if k < b {
      ForthStops(row, k + 1, b);
    }
  }

  lemma NameHasNoMarks(row: string, a: nat, b: nat, name: string)
    requires 0 < a && b == a + |name| < |row| && At(row, a, name) && NameSurvives(name)
    ensures NoMarks(row, a, b)
  {
    forall x | a <= x < b ensures !DoubledAt(row, x) && !StructuralAt(row, x) {
      assert row[x] == name[x - a];
      if row[x] == '"' {
        var k := x - a;
        assert 0 < k < |name| - 1;
        assert row[x + 1] == name[k + 1];
        assert row[a] == name[0] && row[b - 1] == name[|name| - 1];
        BackStops(row, a, x - 1);
        ForthStops(row, x + 1, b - 1);
        var j, f := Back(row, x - 1), Forth(row, x + 1);
        assert row[j] == name[j - a] && row[f] == name[f - a];
      }
    }
  }

  /** Conversely, a name without marks between two commas has no quote where it must not. */
  lemma MarklessName(row: string, a: nat, b: nat, name: string)
    requires 0 < a && b == a + |name| < |row| && At(row, a, name) && row[a - 1] == ',' && row[b] == ','
    requires NoMarks(row, a, b) && Trimmed(name) && ',' !in name
    ensures NameSurvives(name)
  {
    if name != "" {
      assert row[a] == name[0] && row[b - 1] == name[|name| - 1];
      assert !StructuralAt(row, a) && !StructuralAt(row, b - 1) && !DoubledAt(row, a);
    }
    forall k | 0 <= k < |name| - 1 ensures !(name[k] == '"' && name[k + 1] == '"') {
      assert row[a + k] == name[k] && row[a + k + 1] == name[k + 1];
      assert !DoubledAt(row, a + k);
    }
  }

  lemma SurvivingNameReadsBack(row: string, i: nat, p: OutputProduct, a: nat, b: nat)
    requires Written(row, i, p, a, b) && SafeUrls(p.inputImageUrls) && SafeUrls(p.outputImageUrls)
    requires NameSurvives(p.name)
    ensures ReadsBack(row, i, p)
  {
    hide Decimal.Of, UrlText, ScanFrom, UrlList, Trim;
    var ins, outs, d := UrlText(p.inputImageUrls), UrlText(p.outputImageUrls), Decimal.Of(i);
    ScanNumber(row, i, p, a, b);
    ScanName(row, a, b, p.name);
    ScanLists(row, i, p, a, b);
    TrimmedIsItsTrim(p.name);
    NumberIsPlain(i);
    var rest := ScanFrom(row, b + 1, "", false);
    ReadsPrepended(p.name, rest, p.name, [ins, outs]);
    assert [p.name] + [ins, outs] == [p.name, ins, outs];
    ReadsPrepended(d, Prepend(p.name, rest), d, [p.name, ins, outs]);
    assert [d] + [p.name, ins, outs] == [d, p.name, ins, outs];
    UrlTextIsSafe(p.inputImageUrls);
    UrlTextIsSafe(p.outputImageUrls);
  }

  lemma ScanName(row: string, a: nat, b: nat, name: string)
    requires 0 < a && b == a + |name| < |row| && At(row, a, name) && row[b] == ',' && NameSurvives(name)
    ensures ScanFrom(row, a, "", false) == Prepend(name, ScanFrom(row, b + 1, "", false))
  {
    NameHasNoMarks(row, a, b, name);
    ScanMarkless(row, a, b, name);
  }

  /** A markless, comma-free stretch before a comma is a whole column. */
  lemma ScanMarkless(row: string, a: nat, b: nat, text: string)
    requires b == a + |text| < |row| && At(row, a, text) && row[b] == ','
    requires NoMarks(row, a, b) && ',' !in text
    ensures ScanFrom(row, a, "", false) == Prepend(text, ScanFrom(row, b + 1, "", false))
  {
    hide AtEdge;
    forall x | a <= x < b ensures LiteralAt(row, x, false) {
      assert !DoubledAt(row, x) && !StructuralAt(row, x);
      assert row[x] == text[x - a];
    }
    CopyRun(row, a, text, "", false);
    assert "" + text == text;
  }

  // Rows that do not read back, by counting characters.

  lemma {:induction false} KeptShrinks(row: string, p: nat, q: nat)
    requires p <= q <= |row| && (p < q ==> !DoubledAt(row, q - 1))
    ensures |Kept(row, p)| <= (q - p) + |Kept(row, q)|
    decreases q - p
  {
    hide StructuralAt, AtEdge;
    if p < q {
      if DoubledAt(row, p) {
        KeptShrinks(row, p + 2, q);
      } else {
        KeptShrinks(row, p + 1, q);
      }
    }
  }

  lemma {:induction false} MarkShrinks(row: string, p: nat, q: nat, x: nat)
    requires p <= x < q <= |row| && !DoubledAt(row, q - 1)
    requires DoubledAt(row, x) || StructuralAt(row, x)
    ensures |Kept(row, p)| < (q - p) + |Kept(row, q)|
    decreases q - p
  {
    hide StructuralAt, AtEdge;
    if DoubledAt(row, p) {
      KeptShrinks(row, p + 2, q);
    } else if StructuralAt(row, p) {
      KeptShrinks(row, p + 1, q);
    } else {
      MarkShrinks(row, p + 1, q, x);
    }
  }

  lemma KeptOfLists(row: string, b: nat, ins: string, outs: string)
    requires b < |row| && row[b] == ',' && At(row, b + 1, Lists(ins, outs))
    requires b + |ins| + |outs| + 6 == |row|
    requires ins != "" && outs != "" && '"' !in ins && '"' !in outs
    ensures |Kept(row, b)| <= |row| - b - 4
  {
    hide *;
    var q1, q3 := b + 1, b + 4 + |ins|;
    ListMarks(row, b, ins, outs);
    KeptShrinks(row, b, q1);
    KeptOfList(row, q1, ins);
    KeptShrinks(row, q3 - 1, q3);
    KeptOfList(row, q3, outs);
    KeptAtEnd(row);
  }

  /** The two quotes around a list are dropped. */
  lemma KeptOfList(row: string, q: nat, list: string)
    requires q + |list| + 2 <= |row| && StructuralAt(row, q) && StructuralAt(row, q + 1 + |list|)
    requires !DoubledAt(row, q + |list|)
    ensures |Kept(row, q)| <= |list| + |Kept(row, q + 2 + |list|)|
  {
    hide *;
    KeptAtMark(row, q);
    KeptShrinks(row, q + 1, q + 1 + |list|);
    KeptAtMark(row, q + 1 + |list|);
  }

  lemma KeptAtEnd(row: string)
    ensures Kept(row, |row|) == ""
  {
  }

  lemma KeptAtMark(row: string, q: nat)
    requires q < |row| && StructuralAt(row, q)
    ensures Kept(row, q) == Kept(row, q + 1)
  {
    hide AtEdge;
  }

  /** The four quotes around the lists are structural, and no quote pair crosses a list's end. */
  lemma ListMarks(row: string, b: nat, ins: string, outs: string)
    requires b < |row| && row[b] == ',' && At(row, b + 1, Lists(ins, outs))
    requires b + |ins| + |outs| + 6 == |row|
    requires ins != "" && outs != "" && '"' !in ins && '"' !in outs
    ensures var q1, q2, q3, q4 := b + 1, b + 2 + |ins|, b + 4 + |ins|, |row| - 1;
            && StructuralAt(row, q1) && StructuralAt(row, q2)
            && StructuralAt(row, q3) && StructuralAt(row, q4)
            && !DoubledAt(row, b) && !DoubledAt(row, q2 - 1) && !DoubledAt(row, q3 - 1) && !DoubledAt(row, q4 - 1)
  {
    var q1, q2, q3, q4 := b + 1, b + 2 + |ins|, b + 4 + |ins|, |row| - 1;
    var l := Lists(ins, outs);
    assert l[0] == '"' && l[|ins| + 1] == '"' && l[|ins| + 2] == ',' && l[|ins| + 3] == '"' && l[|l| - 1] == '"';
    assert l[1] == ins[0] && l[|ins|] == ins[|ins| - 1];
    assert l[|ins| + 4] == outs[0] && l[|l| - 2] == outs[|outs| - 1];
    assert row[q1] == l[0] && row[q1 + 1] == l[1] && row[q2] == l[|ins| + 1] && row[q2 + 1] == l[|ins| + 2];
    assert row[q3] == l[|ins| + 3] && row[q3 + 1] == l[|ins| + 4] && row[q4] == l[|l| - 1];
    assert row[q2 - 1] == l[|ins|] && row[q4 - 1] == l[|l| - 2];
  }

  lemma NameThatReadsBackHasNoMarks(row: string, i: nat, p: OutputProduct, a: nat, b: nat)
    requires Written(row, i, p, a, b) && SafeUrls(p.inputImageUrls) && SafeUrls(p.outputImageUrls)
    requires ReadsBack(row, i, p)
    ensures NoMarks(row, a, b)
  {
    hide Decimal.Of, UrlText, ScanFrom, Kept, Lists, Trim;
    var ins, outs, d := UrlText(p.inputImageUrls), UrlText(p.outputImageUrls), Decimal.Of(i);
    UrlTextIsSafe(p.inputImageUrls);
    UrlTextIsSafe(p.outputImageUrls);
    LengthOfColumns(row, i, p);
    KeptShrinks(row, 0, a);
    KeptOfLists(row, b, ins, outs);
    forall x | a <= x < b ensures !DoubledAt(row, x) && !StructuralAt(row, x) {
      if DoubledAt(row, x) || StructuralAt(row, x) {
        MarkShrinks(row, a, b, x);
        assert false;
      }
    }
  }

  /** If the row reads back, the scanner kept at least the columns and three commas. */
  lemma LengthOfColumns(row: string, i: nat, p: OutputProduct)
    requires ReadsBack(row, i, p)
    ensures |Kept(row, 0)| >=
            |Decimal.Of(i)| + |p.name| + |UrlText(p.inputImageUrls)| + |UrlText(p.outputImageUrls)| + 3
  {
    hide Decimal.Of, ScanFrom, Kept, Trim, Split;
    var cols := Columns(row).value;
    Conservation(row);
    JoinOfTrimmed(RawColumns(row).value, ",");
    FourJoined(cols);
    ListIsNoLonger(cols[2]);
    ListIsNoLonger(cols[3]);
  }

  lemma FourJoined(cols: seq<string>)
    requires |cols| == 4
    ensures |Join(cols, ",")| == |cols[0]| + |cols[1]| + |cols[2]| + |cols[3]| + 3
  {
    var c1, c2, c3 := cols[1..], cols[2..], cols[3..];
    assert c1[1..] == c2 && c2[1..] == c3;
    assert Join(c3, ",") == cols[3];
    assert Join(c2, ",") == cols[2] + "," + Join(c3, ",");
    assert Join(c1, ",") == cols[1] + "," + Join(c2, ",");
  }

  lemma ListIsNoLonger(col: string)
    ensures |UrlText(UrlList(col))| <= |col|
  {
    hide Split;
    JoinOfSplit(Trim(col), ',');
    JoinOfTrimmed(Split(Trim(col), ','), ",");
  }

  function FirstComma(s: string): (c: nat)
    requires ',' in s
    ensures c < |s| && s[c] == ',' && ',' !in s[..c]
  {
    if s[0] == ',' then 0 else 1 + FirstComma(s[1..])
  }

  /** A comma in the name cuts its column short. */
  lemma CommaCutsName(row: string, i: nat, p: OutputProduct, a: nat, b: nat)
    requires Written(row, i, p, a, b) && NoMarks(row, a, b) && ',' in p.name
    ensures Columns(row).Some? && |Columns(row).value| > 1 ==> |Columns(row).value[1]| < |p.name|
  {
    hide Decimal.Of, UrlText, ScanFrom, Lists, Trim, AtEdge;
    var c := FirstComma(p.name);
    var head := p.name[..c];
    assert row[a + c] == p.name[c];
    assert At(row, a, head);
    ScanNumber(row, i, p, a, b);
    ScanMarkless(row, a, a + c, head);
  }

  /** A written row reads back exactly when its name survives unquoted. */
  lemma RowRoundTrip(i: nat, p: OutputProduct)
    requires SafeUrls(p.inputImageUrls) && SafeUrls(p.outputImageUrls)
    ensures ReadsBack(Row(i, p), i, p) <==> NameSurvives(p.name)
  {
    hide Columns, NoMarks, Row, UrlList;
    var row := Row(i, p);
    var a, b := RowLayout(i, p);
    if NameSurvives(p.name) {
      SurvivingNameReadsBack(row, i, p, a, b);
    } else if ReadsBack(row, i, p) {
      NameThatReadsBackHasNoMarks(row, i, p, a, b);
      if ',' in p.name {
        CommaCutsName(row, i, p, a, b);
      }
      CsvMeaning.ColumnsTrimmed(row);
      assert p.name in Columns(row).value;
      MarklessName(row, a, b, p.name);
    }
  }

  // Whole documents.

  /** The document splits into the header, one row per product that reads back, and an empty tail. */
  predicate DocumentReadsBack(products: seq<OutputProduct>) {
    var rows := SplitRows("", Document(products));
    && |rows| == |products| + 2
    && rows[0] == Join(OUTPUT_HEADERS, ",") && Tail(rows) == ""
    && forall k | 0 <= k < |products| :: ReadsBack(rows[k + 1], k + 1, products[k])
  }

  predicate DocumentSurvives(products: seq<OutputProduct>) {
    forall p | p in products :: NameSurvives(p.name) && NewlineFree(p.name)
  }

  function RowList(products: seq<OutputProduct>, i: nat): (rows: seq<string>)
    ensures |rows| == |products| && forall k | 0 <= k < |rows| :: rows[k] == Row(i + k, products[k])
  {
    if products == [] then [] else [Row(i, products[0])] + RowList(products[1..], i + 1)
  }

  lemma {:induction false} SplitAtCrLf(current: string, line: string, rest: string)
    requires NewlineFree(line)
    ensures SplitRows(current, line + "\r\n" + rest) == [current + line] + SplitRows("", rest)
    decreases |line|
  {
    var s := line + "\r\n" + rest;
    if line == "" {
      assert s[2..] == rest && current + line == current;
    } else {
      assert line[0] in line;
      assert s[1..] == line[1..] + "\r\n" + rest;
      SplitAtCrLf(current + [line[0]], line[1..], rest);
      assert current + [line[0]] + line[1..] == current + line;
    }
  }

  /** A row yields one row of the split, or more when a newline hides in it. */
  lemma {:induction false} SplitCounts(current: string, line: string, rest: string)
    requires line != "" ==> !IsNewline(line[|line| - 1])
    ensures |SplitRows(current, line + "\r\n" + rest)| >=
            |SplitRows("", rest)| + if NewlineFree(line) then 1 else 2
    decreases |line|
  {
    var s := line + "\r\n" + rest;
    if NewlineFree(line) {
      SplitAtCrLf(current, line, rest);
    } else {
      var n := SeparatorLength(s);
      var m := if n == 0 then 1 else n;
      assert m < |line| && s[0] == line[0] && s[1] == line[1];
      assert s[m..] == line[m..] + "\r\n" + rest;
      assert line == [line[0]] + line[1..];
      var c :| c in line && IsNewline(c);
      assert n == 0 ==> c in line[1..];
      SplitCounts(if n == 0 then current + [s[0]] else "", line[m..], rest);
    }
  }

  lemma RowEnds(i: nat, p: OutputProduct)
    ensures var row := Row(i, p); row != "" && !IsNewline(row[|row| - 1])
  {
  }

  lemma RowNewlines(i: nat, p: OutputProduct)
    requires SafeUrls(p.inputImageUrls) && SafeUrls(p.outputImageUrls)
    ensures NewlineFree(Row(i, p)) <==> NewlineFree(p.name)
  {
    hide Decimal.Of, UrlText, NewlineFree;
    var d, ins, outs := Decimal.Of(i), UrlText(p.inputImageUrls), UrlText(p.outputImageUrls);
    NumberIsPlain(i);
    UrlTextIsSafe(p.inputImageUrls);
    UrlTextIsSafe(p.outputImageUrls);
    RowInParts(d, p.name, ins, outs);
    PunctuationIsNewlineFree();
    NewlineFreeConcat(d, "," + (p.name + ("," + Lists(ins, outs))));
    NewlineFreeConcat(",", p.name + ("," + Lists(ins, outs)));
    NewlineFreeConcat(p.name, "," + Lists(ins, outs));
    NewlineFreeConcat(",", Lists(ins, outs));
    NewlineFreeConcat("\"" + ins + "\",\"" + outs, "\"");
    NewlineFreeConcat("\"" + ins + "\",\"", outs);
    NewlineFreeConcat("\"" + ins, "\",\"");
    NewlineFreeConcat("\"", ins);
  }

  lemma NewlineFreeConcat(a: string, b: string)
    ensures NewlineFree(a + b) <==> NewlineFree(a) && NewlineFree(b)
  {
    assert forall c | c in a :: c in a + b;
    assert forall c | c in b :: c in a + b;
  }

  lemma PunctuationIsNewlineFree()
    ensures NewlineFree(",") && NewlineFree("\"") && NewlineFree("\",\"")
  {
  }

  lemma {:induction false} BodySplit(products: seq<OutputProduct>, i: nat)
    requires forall p | p in products :: SafeUrls(p.inputImageUrls) && SafeUrls(p.outputImageUrls)
    ensures var rows := SplitRows("", Body(products, i));
            if forall p | p in products :: NewlineFree(p.name) then rows == RowList(products, i) + [""]
            else |rows| > |products| + 1
    ensures |SplitRows("", Body(products, i))| >= |products| + 1
    decreases |products|
  {
    hide Row, SplitRows, NewlineFree, SafeUrls;
    if products == [] {
      assert SplitRows("", "") == [""] by { SplitOfNothing(); }
    } else {
      var p, rest := products[0], Body(products[1..], i + 1);
      assert products == [p] + products[1..];
      BodySplit(products[1..], i + 1);
      RowNewlines(i, p);
      RowEnds(i, p);
      SplitCounts("", Row(i, p), rest);
      if NewlineFree(p.name) {
        SplitAtCrLf("", Row(i, p), rest);
        assert "" + Row(i, p) == Row(i, p);
      }
    }
  }

  lemma SplitOfNothing()
    ensures SplitRows("", "") == [""]
  {
  }

  /**
   * The document reads back exactly when every name is trimmed, has no comma or newline, and has
   * no quote at an end or next to another.
   */
  lemma DocumentRoundTrip(products: seq<OutputProduct>)
    requires forall p | p in products :: SafeUrls(p.inputImageUrls) && SafeUrls(p.outputImageUrls)
    ensures DocumentReadsBack(products) <==> DocumentSurvives(products)
  {
    hide Row, SplitRows, NewlineFree, SafeUrls, NameSurvives, ReadsBack, Body;
    var header := Join(OUTPUT_HEADERS, ",");
    HeaderIsOneRow(Body(products, 1));
    BodySplit(products, 1);
    var rows := SplitRows("", Document(products));
    if forall p | p in products :: NewlineFree(p.name) {
      assert rows == [header] + (RowList(products, 1) + [""]);
      forall k | 0 <= k < |products|
        ensures ReadsBack(rows[k + 1], k + 1, products[k]) <==> NameSurvives(products[k].name)
      {
        assert rows[k + 1] == Row(1 + k, products[k]);
        assert products[k] in products;
        RowRoundTrip(k + 1, products[k]);
      }
      if DocumentReadsBack(products) {
        forall p | p in products ensures NameSurvives(p.name) {
          var k :| 0 <= k < |products| && products[k] == p;
          assert ReadsBack(rows[k + 1], k + 1, products[k]);
        }
      }
    }
  }

  lemma HeaderIsOneRow(body: string)
    ensures SplitRows("", Join(OUTPUT_HEADERS, ",") + "\r\n" + body) ==
            [Join(OUTPUT_HEADERS, ",")] + SplitRows("", body)
  {
    hide SplitRows;
    var header := Join(OUTPUT_HEADERS, ",");
    HeadersAreNewlineFree();
    JoinIsNewlineFree(OUTPUT_HEADERS);
    SplitAtCrLf("", header, body);
    assert "" + header == header;
  }

  lemma JoinIsNewlineFree(pieces: seq<string>)
    requires forall p | p in pieces :: NewlineFree(p)
    ensures NewlineFree(Join(pieces, ","))
  {
    JoinChars(pieces, ",");
  }

  lemma HeadersAreNewlineFree()
    ensures forall h | h in OUTPUT_HEADERS + EXPECTED_HEADERS :: NewlineFree(h)
  {
  }

  // Line ends.

  /** No CR without its LF, and no LF without its CR, at `i`. */
  predicate CrLfAt(s: string, i: nat)
    requires i < |s|
  {
    && (s[i] == '\r' ==> i + 1 < |s| && s[i + 1] == '\n')
    && (s[i] == '\n' ==> i > 0 && s[i - 1] == '\r')
  }

  predicate OnlyCrLf(s: string) {
    forall i | 0 <= i < |s| :: CrLfAt(s, i)
  }

  lemma OnlyCrLfLine(line: string, rest: string)
    requires NewlineFree(line) && OnlyCrLf(rest)
    ensures OnlyCrLf(line + "\r\n" + rest)
  {
    var s := line + "\r\n" + rest;
    var n := |line| + 2;
    forall i | 0 <= i < |s| ensures CrLfAt(s, i) {
      if i < |line| {
        assert s[i] == line[i] && line[i] in line;
      } else if i >= n {
        assert CrLfAt(rest, i - n);
        assert s[i] == rest[i - n];
      }
    }
  }

  lemma {:induction false} BodyOnlyCrLf(products: seq<OutputProduct>, i: nat)
    requires forall p | p in products ::
               SafeUrls(p.inputImageUrls) && SafeUrls(p.outputImageUrls) && NewlineFree(p.name)
    ensures OnlyCrLf(Body(products, i))
  {
    hide Row, OnlyCrLf, SafeUrls, NewlineFree;
    if products == [] {
      assert OnlyCrLf("") by { NothingIsCrLf(); }
    } else {
      assert products[0] in products;
      BodyOnlyCrLf(products[1..], i + 1);
      RowNewlines(i, products[0]);
      OnlyCrLfLine(Row(i, products[0]), Body(products[1..], i + 1));
    }
  }

  lemma NothingIsCrLf()
    ensures OnlyCrLf("")
  {
  }

  /** The document begins with its four headers, and all its line ends are CR LF. */
  lemma DocumentLineEnds(products: seq<OutputProduct>)
    requires forall p | p in products ::
               SafeUrls(p.inputImageUrls) && SafeUrls(p.outputImageUrls) && NewlineFree(p.name)
    ensures "S. No." + "," + ("Product Name" + "," + ("Input Image Urls" + "," + "Output Image Urls")) + "\r\n" <=
            Document(products)
    ensures OnlyCrLf(Document(products))
  {
    hide OnlyCrLf, SafeUrls, NewlineFree, Body;
    var header := Join(OUTPUT_HEADERS, ",");
    HeadersAreNewlineFree();
    JoinIsNewlineFree(OUTPUT_HEADERS);
    BodyOnlyCrLf(products, 1);
    OnlyCrLfLine(header, Body(products, 1));
    HeaderText();
  }

  lemma FourInOrder(a: string, b: string, c: string, d: string)
    ensures Join([a, b, c, d], ",") == a + "," + (b + "," + (c + "," + d))
  {
    assert [a, b, c, d][1..] == [b, c, d] && [b, c, d][1..] == [c, d] && [c, d][1..] == [d];
    assert Join([c, d], ",") == c + "," + d;
    assert Join([b, c, d], ",") == b + "," + Join([c, d], ",");
  }

  lemma HeaderText()
    ensures Join(OUTPUT_HEADERS, ",") ==
            "S. No." + "," + ("Product Name" + "," + ("Input Image Urls" + "," + "Output Image Urls"))
  {
    FourInOrder("S. No.", "Product Name", "Input Image Urls", "Output Image Urls");
  }

  // What the reader accepts against what the writer's document can carry.

  /** The products are accepted ones, with quote-free URLs, and have safe upload results. */
  predicate Processed(accepted: map<string, Product>, products: seq<OutputProduct>) {
    forall p | p in products ::
      && p.name in accepted && p.inputImageUrls == accepted[p.name].inputImageUrls
      && (forall u | u in p.inputImageUrls :: '"' !in u) && SafeUrls(p.outputImageUrls)
  }

  /** Of what the reader accepted, the document reads back exactly when every name is plain. */
  lemma AcceptedProductsReadBack(isUrl: string -> bool, text: string, products: seq<OutputProduct>)
    requires !isUrl("") && ParseText(isUrl, text).Ok? && Processed(ParseText(isUrl, text).value, products)
    ensures DocumentReadsBack(products) <==> forall p | p in products :: PlainName(p.name)
  {
    hide ParseText, DocumentReadsBack, PlainName, NewlineFree, Trimmed, SafeUrls;
    CsvMeaning.AcceptedIsWellFormed(isUrl, text);
    forall p | p in products
      ensures SafeUrls(p.inputImageUrls) && SafeUrls(p.outputImageUrls) && Trimmed(p.name) && NewlineFree(p.name)
    {
      WellFormedIsSafe(isUrl, ParseText(isUrl, text).value[p.name]);
    }
    DocumentRoundTrip(products);
  }

  lemma WellFormedIsSafe(isUrl: string -> bool, p: Product)
    requires !isUrl("") && CsvMeaning.WellFormed(isUrl, p) && forall u | u in p.inputImageUrls :: '"' !in u
    ensures SafeUrls(p.inputImageUrls)
  {
    hide Trimmed, NewlineFree;
  }

  /** The product as a row of its own with everything but the number quoted. */
  function QuotedRow(name: string, urls: seq<string>): string {
    EncodeRow([Raw("1"), Quoted("", name, ""), Quoted("", UrlText(urls), "")])
  }

  /** The reader takes every quoted name that survives its scanner. */
  lemma QuotedRowIsAccepted(isUrl: string -> bool, name: string, urls: seq<string>)
    requires name != "" && Trimmed(name) && Survives(name) && name !in INHERITED_NAMES
    requires SafeUrls(urls) && forall u | u in urls :: isUrl(u)
    ensures var row := QuotedRow(name, urls);
            CsvMeaning.ProductLine(isUrl, row) && CsvMeaning.ProductAt(Columns(row).value) == Product(name, urls)
  {
    hide Columns, Trim, Trimmed, Survives, INHERITED_NAMES, UrlText, SafeUrls, Split, QuotedRow;
    QuotedRowColumns(name, urls);
    UrlTextIsSafe(urls);
    var cols := ["1", name, UrlText(urls)];
    CsvMeaning.ProductAtIs(cols);
    assert ProductOf(cols) == Product(name, urls);
  }

  lemma LettersSurvive(name: string)
    requires name != "" && (name[0] == '_' || 'a' <= name[0] <= 'z')
    requires name[|name| - 1] == '_' || 'a' <= name[|name| - 1] <= 'z'
    ensures Trimmed(name) && Survives(name)
  {
    assert LeadingQuotes(name) == 0;
  }

  /** Names that every JavaScript object answers to are refused, whatever products there are. */
  lemma InheritedNamesAreRefused(isUrl: string -> bool, name: string, urls: seq<string>, st: State)
    requires name in {"constructor", "__defineGetter__", "__defineSetter__", "hasOwnProperty", "__lookupGetter__",
                      "__lookupSetter__", "isPrototypeOf", "propertyIsEnumerable", "toString", "valueOf",
                      "__proto__", "toLocaleString"}
    requires SafeUrls(urls) && (forall u | u in urls :: isUrl(u)) && st.Open? && st.header != []
    ensures RowStep(isUrl, st, QuotedRow(name, urls)) == Failed(InheritedName(name))
  {
    hide Columns, Trim, Trimmed, Survives, UrlText, SafeUrls, Split, QuotedRow;
    LettersSurvive(name);
    QuotedRowColumns(name, urls);
    UrlTextIsSafe(urls);
    TrimmedIsItsTrim(name);
    var cols := ["1", name, UrlText(urls)];
    assert ProductOf(cols) == Product(name, urls);
    assert Trim(cols[1]) != "";
  }

  lemma QuotedRowColumns(name: string, urls: seq<string>)
    requires Trimmed(name) && Survives(name) && SafeUrls(urls)
    ensures Columns(QuotedRow(name, urls)) == Some(["1", name, UrlText(urls)])
  {
    hide Columns, Trim, Trimmed, Survives, UrlText, EncodeRow, Encode, SafeUrls, Values, NewlineFree;
    var a, b, c := Raw("1"), Quoted("", name, ""), Quoted("", UrlText(urls), "");
    UrlTextIsSafe(urls);
    PlainQuoted(UrlText(urls));
    NumberIsPlain(1);
    assert Decimal.Of(1) == "1";
    TrimmedIsItsTrim(name);
    TrimmedIsItsTrim(UrlText(urls));
    ThreeValues(a, b, c);
    RoundTrip([a, b, c]);
  }

  lemma {:induction false} DoubleIsNewlineFree(s: string)
    requires NewlineFree(s)
    ensures NewlineFree(Double(s))
  {
    if s != "" {
      assert s == [s[0]] + s[1..];
      DoubleIsNewlineFree(s[1..]);
    }
  }

  lemma QuotedIsNewlineFree(content: string)
    requires NewlineFree(content)
    ensures NewlineFree(Encode(Quoted("", content, "")))
  {
    hide NewlineFree, Double;
    var d := Double(content);
    DoubleIsNewlineFree(content);
    PunctuationIsNewlineFree();
    assert "" + "\"" + d + "\"" + "" == "\"" + (d + "\"");
    NewlineFreeConcat("\"", d + "\"");
    NewlineFreeConcat(d, "\"");
  }

  lemma {:induction false} EncodeRowIsNewlineFree(fs: seq<Field>)
    requires fs != [] && forall f | f in fs :: NewlineFree(Encode(f))
    ensures NewlineFree(EncodeRow(fs))
  {
    hide NewlineFree, Encode;
    assert fs[0] in fs;
    if |fs| > 1 {
      var rest := EncodeRow(fs[1..]);
      EncodeRowIsNewlineFree(fs[1..]);
      PunctuationIsNewlineFree();
      NewlineFreeConcat(Encode(fs[0]), ",");
      NewlineFreeConcat(Encode(fs[0]) + ",", rest);
    }
  }

  lemma RawIsItself(text: string)
    ensures Encode(Raw(text)) == text
  {
  }

  lemma QuotedRowIsOneLine(name: string, urls: seq<string>)
    requires NewlineFree(name) && SafeUrls(urls)
    ensures NewlineFree(QuotedRow(name, urls))
  {
    hide NewlineFree, UrlText, SafeUrls, EncodeRow, Encode;
    UrlTextIsSafe(urls);
    NumberIsPlain(1);
    RawIsItself(Decimal.Of(1));
    assert Decimal.Of(1) == "1";
    QuotedIsNewlineFree(name);
    QuotedIsNewlineFree(UrlText(urls));
    EncodeRowIsNewlineFree([Raw("1"), Quoted("", name, ""), Quoted("", UrlText(urls), "")]);
  }

  /** The expected header, and the row. */
  function QuotedText(name: string, urls: seq<string>): string {
    Join(EXPECTED_HEADERS, ",") + "\n" + QuotedRow(name, urls)
  }

  /**
   * Any such name is accepted, and alone in a document it reads back exactly when it is plain: the
   * reader takes quoted names that the writer, which never quotes them, cannot give back.
   */
  lemma QuotedNameReadsBack(isUrl: string -> bool, name: string, urls: seq<string>, outputs: seq<string>)
    requires name != "" && Trimmed(name) && NewlineFree(name) && Survives(name) && name !in INHERITED_NAMES
    requires SafeUrls(urls) && SafeUrls(outputs) && forall u | u in urls :: isUrl(u)
    ensures ParseText(isUrl, QuotedText(name, urls)) == Ok(map[name := Product(name, urls)])
    ensures DocumentReadsBack([OutputProduct(name, urls, outputs)]) <==> PlainName(name)
  {
    hide *;
    var row, header := QuotedRow(name, urls), Join(EXPECTED_HEADERS, ",");
    QuotedRowIsAccepted(isUrl, name, urls);
    CsvMeaning.ExpectedHeaderIsAccepted();
    QuotedRowIsOneLine(name, urls);
    assert NewlineFree(header) by {
      HeadersAreNewlineFree();
      JoinIsNewlineFree(EXPECTED_HEADERS);
    }
    CsvMeaning.TwoLines(isUrl, header, row);
    OneProductReadsBack(OutputProduct(name, urls, outputs));
    QuotedTextIs(name, urls);
  }

  lemma QuotedTextIs(name: string, urls: seq<string>)
    ensures QuotedText(name, urls) == Join(EXPECTED_HEADERS, ",") + "\n" + QuotedRow(name, urls)
  {
  }

  lemma OneProductReadsBack(p: OutputProduct)
    requires Trimmed(p.name) && NewlineFree(p.name) && SafeUrls(p.inputImageUrls) && SafeUrls(p.outputImageUrls)
    ensures DocumentReadsBack([p]) <==> PlainName(p.name)
  {
    hide DocumentReadsBack, PlainName, SafeUrls, Trimmed, NewlineFree;
    DocumentRoundTrip([p]);
    assert p in [p];
  }

  /** For one: a name with a comma. */
  lemma CommaNameIsLost(isUrl: string -> bool, url: string)
    requires isUrl(url) && SafeUrls([url])
    ensures ParseText(isUrl, QuotedText("a,b", [url])) == Ok(map["a,b" := Product("a,b", [url])])
    ensures !DocumentReadsBack([OutputProduct("a,b", [url], [url])])
  {
    hide ParseText, SafeUrls, DocumentReadsBack, QuotedText;
    var name := "a,b";
    assert name[0] == 'a' && name[1] == ',' && name[2] == 'b';
    assert Survives(name) && Trimmed(name) && !PlainName(name);
    QuotedNameReadsBack(isUrl, "a,b", [url], [url]);
  }
}
