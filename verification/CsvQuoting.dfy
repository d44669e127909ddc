/**
 * The scanner against the quoting rules of RFC 4180, section 2, items 5 to 7: which written
 * fields it reads back.
 */
module CsvQuoting {
  import opened Wrappers
  import opened Text
  import opened CsvScanner

  /** A field as written: bare, or between quotes with spaces outside them. */
  datatype Field =
    | Raw(text: string)
    | Quoted(before: string, content: string, after: string)

  predicate Spaces(s: string) {
    forall i | 0 <= i < |s| :: s[i] == ' '
  }

  predicate WellWritten(f: Field) {
    match f
    case Raw(text) => ',' !in text && '"' !in text
    case Quoted(before, _, after) => Spaces(before) && Spaces(after)
  }

  /** Inner quotes are written twice. */
  function Double(s: string): (d: string)
    ensures |d| >= |s|
  {
    if s == "" then "" else (if s[0] == '"' then "\"\"" else [s[0]]) + Double(s[1..])
  }

  function Encode(f: Field): string {
    match f
    case Raw(text) => text
    case Quoted(before, content, after) => before + "\"" + Double(content) + "\"" + after
  }

  function EncodeRow(fs: seq<Field>): string
    requires fs != []
  {
    if |fs| == 1 then Encode(fs[0]) else Encode(fs[0]) + "," + EncodeRow(fs[1..])
  }

  function Value(f: Field): string {
    match f
    case Raw(text) => Trim(text)
    case Quoted(_, content, _) => Trim(content)
  }

  function Values(fs: seq<Field>): seq<string> {
    if fs == [] then [] else [Value(fs[0])] + Values(fs[1..])
  }

  function LeadingQuotes(s: string): (n: nat)
    ensures n <= |s| && (forall i | 0 <= i < n :: s[i] == '"') && (n < |s| ==> s[n] != '"')
  {
    if s != "" && s[0] == '"' then 1 + LeadingQuotes(s[1..]) else 0
  }

  /** The first non-space is a comma. */
  predicate CommaNext(s: string) {
    s != "" && (s[0] == ',' || (s[0] == ' ' && CommaNext(s[1..])))
  }

  /**
   * What a quoted field may hold for the scanner to read it back: not only quotes (so not
   * nothing either), and if it starts with quotes then a comma follows them, spaces aside.
   */
  predicate Survives(content: string) {
    var n := LeadingQuotes(content);
    n < |content| && (n == 0 || CommaNext(content[n..]))
  }

  predicate Readable(f: Field) {
    f.Quoted? ==> Survives(f.content)
  }

  lemma AtParts(row: string, i: nat, a: string, b: string)
    requires At(row, i, a + b)
    ensures At(row, i, a) && At(row, i + |a|, b)
  {
  }

  lemma {:induction false} DoubleConcat(a: string, b: string)
    ensures Double(a + b) == Double(a) + Double(b)
  {
    if a == "" {
      assert a + b == b;
    } else {
      assert (a + b)[1..] == a[1..] + b;
      DoubleConcat(a[1..], b);
    }
  }

  lemma {:induction false} DoubleOfQuoteFree(s: string)
    requires '"' !in s
    ensures Double(s) == s
  {
    if s != "" {
      DoubleOfQuoteFree(s[1..]);
      assert s == [s[0]] + s[1..];
    }
  }

  /** In a run of quotes it does not matter which end the odd one is on. */
  lemma {:induction false} OddQuoteMoves(q: string)
    requires forall i | 0 <= i < |q| :: q[i] == '"'
    ensures "\"" + Double(q) == Double(q) + "\""
  {
    if q != "" {
      OddQuoteMoves(q[1..]);
      assert "\"" + Double(q) == "\"\"" + ("\"" + Double(q[1..]));
    }
  }

  lemma {:induction false} ScanDoubled(row: string, i: nat, s: string, current: string, inQuotes: bool)
    requires At(row, i, Double(s)) && (inQuotes || ',' !in s)
    ensures ScanFrom(row, i, current, inQuotes) == ScanFrom(row, i + |Double(s)|, current + s, inQuotes)
    decreases |s|
  {
    hide AtEdge;
    if s == "" {
      assert current + s == current;
    } else {
      var head := if s[0] == '"' then "\"\"" else [s[0]];
      AtParts(row, i, head, Double(s[1..]));
      assert row[i] == head[0];
      if s[0] == '"' {
        assert row[i + 1] == head[1];
        ScanDoubled(row, i + 2, s[1..], current + "\"", inQuotes);
        assert current + "\"" + s[1..] == current + s;
      } else {
        ScanDoubled(row, i + 1, s[1..], current + [s[0]], inQuotes);
        assert current + [s[0]] + s[1..] == current + s;
      }
    }
  }

  lemma {:induction false} BackOverSpaces(row: string, b: nat, j: int)
    requires b <= j + 1 <= |row| && forall p | b <= p <= j :: row[p] == ' '
    requires b == 0 || row[b - 1] != ' '
    ensures Back(row, j) == b - 1
    decreases j
  {
    if j >= b {
      BackOverSpaces(row, b, j - 1);
    }
  }

  lemma {:induction false} ForthOverSpaces(row: string, k: nat, e: nat)
    requires k <= e <= |row| && forall p | k <= p < e :: row[p] == ' '
    requires e == |row| || row[e] != ' '
    ensures Forth(row, k) == e
    decreases e - k
  {
    if k < e {
      ForthOverSpaces(row, k + 1, e);
    }
  }

  lemma {:induction false} ForthIntoContent(row: string, k: nat, s: string)
    requires At(row, k, Double(s)) && k + |Double(s)| < |row| && row[k + |Double(s)|] == '"'
    ensures Forth(row, k) < |row| && (row[Forth(row, k)] == ',' <==> CommaNext(s))
    decreases |s|
  {
    if s != "" {
      var head := if s[0] == '"' then "\"\"" else [s[0]];
      AtParts(row, k, head, Double(s[1..]));
      assert row[k] == head[0];
      if s[0] == ' ' {
        ForthIntoContent(row, k + 1, s[1..]);
      }
    }
  }

  /** `row[b..e]` is a whole field: it ends at the row's ends or at commas. */
  predicate Fills(row: string, b: nat, e: nat, f: Field) {
    && WellWritten(f) && At(row, b, Encode(f)) && e == b + |Encode(f)|
    && FieldStart(row, b) && FieldEnd(row, e)
  }

  predicate FieldStart(row: string, b: nat) {
    b == 0 || (b <= |row| && row[b - 1] == ',')
  }

  predicate FieldEnd(row: string, e: nat) {
    e == |row| || (e < |row| && row[e] == ',')
  }

  predicate Quotes(q: string) {
    forall i | 0 <= i < |q| :: q[i] == '"'
  }

  lemma {:induction false} DoubleOfQuotes(q: string)
    requires Quotes(q)
    ensures |Double(q)| == 2 * |q| && Quotes(Double(q))
  {
    if q != "" {
      DoubleOfQuotes(q[1..]);
    }
  }

  lemma Regroup(a: string, o: string, q: string, d: string, z: string)
    requires o + q == q + o
    ensures a + o + (q + d) + o + z == a + (q + (o + (d + (o + z))))
  {
    assert a + o + (q + d) + o + z == a + ((o + q) + (d + (o + z)));
    assert (q + o) + (d + (o + z)) == q + (o + (d + (o + z)));
  }

  /** A written quoted field with `q` its content's leading quotes and `d` the rest. */
  ghost predicate Laid(row: string, b: nat, before: string, q: string, d: string, after: string,
                       open: nat, close: nat, e: nat) {
    && At(row, b, before) && At(row, b + |before|, Double(q))
    && open == b + |before| + |Double(q)| && At(row, open, "\"")
    && At(row, open + 1, Double(d)) && close == open + 1 + |Double(d)| && At(row, close, "\"")
    && At(row, close + 1, after) && e == close + 1 + |after|
  }

  lemma Peel(row: string, b: nat, before: string, q: string, d: string, after: string)
    returns (open: nat, close: nat)
    requires At(row, b, before + (Double(q) + ("\"" + (Double(d) + ("\"" + after)))))
    ensures Laid(row, b, before, q, d, after, open, close,
                 b + |before + (Double(q) + ("\"" + (Double(d) + ("\"" + after))))|)
  {
    hide Double;
    var r4 := "\"" + after;
    var r3 := Double(d) + r4;
    var r2 := "\"" + r3;
    AtParts(row, b, before, Double(q) + r2);
    AtParts(row, b + |before|, Double(q), r2);
    open := b + |before| + |Double(q)|;
    AtParts(row, open, "\"", r3);
    AtParts(row, open + 1, Double(d), r4);
    close := open + 1 + |Double(d)|;
    AtParts(row, close, "\"", after);
  }

  lemma Layout(row: string, b: nat, e: nat, f: Field, q: string, d: string) returns (open: nat, close: nat)
    requires f.Quoted? && Fills(row, b, e, f) && f.content == q + d && Quotes(q)
    ensures Laid(row, b, f.before, q, d, f.after, open, close, e)
  {
    hide Double;
    DoubleConcat(q, d);
    OddQuoteMoves(q);
    Regroup(f.before, "\"", Double(q), Double(d), f.after);
    open, close := Peel(row, b, f.before, q, d, f.after);
  }

  lemma ScanSpaces(row: string, i: nat, s: string, current: string)
    requires At(row, i, s) && Spaces(s)
    ensures ScanFrom(row, i, current, false) == ScanFrom(row, i + |s|, current + s, false)
  {
    CopyRun(row, i, s, current, false);
  }

  /** What the scanner takes the odd quote after the leading ones for. */
  lemma OddQuote(row: string, b: nat, before: string, q: string, d: string, after: string,
                 open: nat, close: nat, e: nat)
    requires Laid(row, b, before, q, d, after, open, close, e) && FieldStart(row, b) && Spaces(before)
    requires Quotes(q) && (d != "" ==> d[0] != '"')
    ensures row[open] == '"'
    ensures DoubledAt(row, open) <==> d == ""
    ensures StructuralAt(row, open) <==> d != "" && (q == "" || CommaNext(d))
  {
    hide Back, Forth, Double, CommaNext, Spaces, Quotes;
    assert row[open] == '"' && row[close] == '"';
    if d != "" {
      DoubleHead(d);
      assert row[open + 1] == Double(d)[0];
      ForthIntoContent(row, open + 1, d);
      BackBeforeOdd(row, b, before, q, open);
    } else {
      DoubleOfNothing();
    }
  }

  lemma DoubleOfNothing()
    ensures Double("") == ""
  {
  }

  lemma DoubleHead(d: string)
    requires d != ""
    ensures Double(d) != "" && Double(d)[0] == d[0]
  {
  }

  /** Looking back from the odd quote: a quote when there are leading ones, else the field's start. */
  lemma BackBeforeOdd(row: string, b: nat, before: string, q: string, open: nat)
    requires At(row, b, before) && At(row, b + |before|, Double(q)) && open == b + |before| + |Double(q)| < |row|
    requires FieldStart(row, b) && Spaces(before) && Quotes(q)
    ensures var j := Back(row, open - 1);
            if q == "" then j == b - 1 && (j >= 0 ==> row[j] == ',') else j == open - 1 && row[j] == '"'
  {
    if q == "" {
      assert forall k | b <= k < open :: row[k] == before[k - b];
      BackOverSpaces(row, b, open - 1);
    } else {
      DoubleOfQuotes(q);
      assert row[open - 1] == Double(q)[|Double(q)| - 1];
    }
  }

  lemma ScanLeading(row: string, b: nat, before: string, q: string)
    requires At(row, b, before) && At(row, b + |before|, Double(q)) && Spaces(before) && Quotes(q)
    ensures ScanFrom(row, b, "", false) == ScanFrom(row, b + |before| + |Double(q)|, before + q, false)
  {
    ScanSpaces(row, b, before, "");
    assert "" + before == before;
    ScanDoubled(row, b + |before|, q, before, false);
  }

  lemma ScanClosing(row: string, close: nat, e: nat, current: string, after: string)
    requires At(row, close, "\"") && At(row, close + 1, after) && Spaces(after)
    requires e == close + 1 + |after| && FieldEnd(row, e)
    ensures ScanFrom(row, close, current, true) == ScanFrom(row, e, current + after, false)
  {
    assert row[close] == '"';
    assert forall k | close < k < e :: row[k] == ' ';
    ForthOverSpaces(row, close + 1, e);
    assert StructuralAt(row, close);
    ScanSpaces(row, close + 1, after, current);
  }

  /** Content as the scanner collects it, spaces outside the quotes included. */
  function Collected(f: Field): string {
    match f
    case Raw(text) => text
    case Quoted(before, content, after) => before + content + after
  }

  lemma RawFieldScan(row: string, b: nat, text: string)
    requires At(row, b, text) && ',' !in text && '"' !in text
    ensures ScanFrom(row, b, "", false) == ScanFrom(row, b + |text|, text, false)
  {
    CopyRun(row, b, text, "", false);
    assert "" + text == text;
  }

  lemma ReadableFieldScan(row: string, b: nat, e: nat, f: Field)
    requires Fills(row, b, e, f) && Readable(f)
    ensures ScanFrom(row, b, "", false) == ScanFrom(row, e, Collected(f), false)
  {
    if f.Raw? {
      RawFieldScan(row, b, f.text);
    } else {
      var n := LeadingQuotes(f.content);
      var q, d := f.content[..n], f.content[n..];
      assert f.content == q + d;
      var open, close := Layout(row, b, e, f, q, d);
      QuotedFieldScan(row, b, f.before, q, d, f.after, open, close, e);
      assert f.before + q + d + f.after == f.before + (q + d) + f.after;
    }
  }

  lemma QuotedFieldScan(row: string, b: nat, before: string, q: string, d: string, after: string,
                        open: nat, close: nat, e: nat)
    requires Laid(row, b, before, q, d, after, open, close, e) && FieldStart(row, b) && FieldEnd(row, e)
    requires Spaces(before) && Spaces(after) && Quotes(q)
    requires d != "" && d[0] != '"' && (q == "" || CommaNext(d))
    ensures ScanFrom(row, b, "", false) == ScanFrom(row, e, before + q + d + after, false)
  {
    hide Double, CommaNext, FieldStart, FieldEnd, Spaces, Quotes, AtEdge;
    OddQuote(row, b, before, q, d, after, open, close, e);
    ScanLeading(row, b, before, q);
    ScanDoubled(row, open + 1, d, before + q, true);
    ScanClosing(row, close, e, before + q + d, after);
  }

  /** A field that does not survive is collected with one quote too many. */
  lemma UnreadableFieldScan(row: string, b: nat, e: nat, f: Field)
    requires Fills(row, b, e, f) && !Readable(f)
    ensures var r := ScanFrom(row, b, "", false);
            r.Some? ==> r.value != [] && Trim(r.value[0]) != Value(f)
  {
    var n := LeadingQuotes(f.content);
    var q, d := f.content[..n], f.content[n..];
    assert f.content == q + d;
    var open, close := Layout(row, b, e, f, q, d);
    ExtraQuoteScan(row, b, f.before, q, d, f.after, open, close, e);
    var r := ScanFrom(row, b, "", false);
    if r.Some? {
      ExtraQuoteShows(f.before, q, d, r.value[0]);
    }
  }

  lemma ExtraQuoteScan(row: string, b: nat, before: string, q: string, d: string, after: string,
                       open: nat, close: nat, e: nat)
    requires Laid(row, b, before, q, d, after, open, close, e) && FieldStart(row, b) && Spaces(before)
    requires Quotes(q) && (d != "" ==> d[0] != '"' && q != "" && !CommaNext(d))
    ensures var r := ScanFrom(row, b, "", false);
            r.Some? ==> r.value != [] && before + q + "\"" <= r.value[0]
  {
    OddQuote(row, b, before, q, d, after, open, close, e);
    ScanLeading(row, b, before, q);
    ScanNonempty(row, if d == "" then open + 2 else open + 1, before + q + "\"", false);
  }

  lemma {:induction false} TrimEndReaches(w: string, k: nat)
    requires k < |w| && !IsSpace(w[k])
    ensures |TrimEnd(w)| > k && TrimEnd(w)[k] == w[k]
    decreases |w|
  {
    hide IsSpace;
    if IsSpace(w[|w| - 1]) {
      TrimEndReaches(w[..|w| - 1], k);
    }
  }

  lemma QuoteIsNoSpace()
    ensures !IsSpace('"')
  {
  }

  lemma SpacesAreBlank(s: string)
    requires Spaces(s)
    ensures Blank(s)
  {
  }

  lemma TrimOfQuoteFirst(s: string)
    requires s != "" && s[0] == '"'
    ensures Trim(s) == TrimEnd(s)
  {
    hide IsSpace, TrimEnd;
    QuoteIsNoSpace();
  }

  /** The column trims like its run of quotes and what follows, and keeps the quote after the run. */
  lemma TrimOfRun(before: string, q: string, w: string)
    requires Spaces(before) && Quotes(q)
    ensures var t := Trim(before + (q + "\"" + w)); |t| > |q| && t[|q|] == '"'
  {
    hide IsSpace, TrimEnd, Trim;
    var run := q + "\"" + w;
    assert run[0] == '"' && run[|q|] == '"';
    SpacesAreBlank(before);
    assert before + run + "" == before + run;
    TrimIgnoresPadding(before, run, "");
    TrimOfQuoteFirst(run);
    QuoteIsNoSpace();
    TrimEndReaches(run, |q|);
  }

  /** The content itself has something else there, or nothing. */
  lemma TrimOfContent(q: string, d: string)
    requires Quotes(q) && (d != "" ==> q != "" && d[0] != '"')
    ensures var t := Trim(q + d); |t| > |q| ==> t[|q|] != '"'
  {
    hide IsSpace, TrimEnd, Trim;
    if q != "" {
      assert (q + d)[0] == '"';
      TrimOfQuoteFirst(q + d);
      var t := TrimEnd(q + d);
      if |t| > |q| {
        assert t[|q|] == (q + d)[|q|] == d[0];
      }
    } else {
      assert q + d == "";
    }
  }

  lemma ExtraQuoteShows(before: string, q: string, d: string, col: string)
    requires Spaces(before) && Quotes(q)
    requires d != "" ==> q != "" && d[0] != '"'
    requires before + q + "\"" <= col
    ensures Trim(col) != Trim(q + d)
  {
    hide Trim, Spaces, Quotes;
    var w := col[|before + q + "\""|..];
    assert col == before + (q + "\"" + w);
    TrimOfRun(before, q, w);
    TrimOfContent(q, d);
  }

  // Whole rows.

  predicate FillsRow(row: string, b: nat, fs: seq<Field>)
    requires fs != []
  {
    && (forall f | f in fs :: WellWritten(f))
    && At(row, b, EncodeRow(fs)) && b + |EncodeRow(fs)| == |row|
    && (b == 0 || row[b - 1] == ',')
  }

  /** Columns `r` are there and, trimmed, are `values`. */
  predicate Reads(r: Option<seq<string>>, values: seq<string>) {
    r.Some? && TrimAll(r.value) == values
  }

  lemma ReadsPrepended(col: string, rest: Option<seq<string>>, v: string, values: seq<string>)
    requires Trim(col) == v
    ensures Reads(Prepend(col, rest), [v] + values) <==> Reads(rest, values)
  {
    hide Trim;
    if rest.Some? {
      assert ([col] + rest.value)[1..] == rest.value;
      assert ([v] + TrimAll(rest.value))[1..] == TrimAll(rest.value);
      assert ([v] + values)[1..] == values;
    }
  }

  lemma FieldsBeforeComma(row: string, b: nat, fs: seq<Field>)
    requires |fs| > 1 && FillsRow(row, b, fs)
    ensures var e := b + |Encode(fs[0])|;
            Fills(row, b, e, fs[0]) && e < |row| && FillsRow(row, e + 1, fs[1..])
  {
    hide Encode;
    var e := b + |Encode(fs[0])|;
    var rest := "," + EncodeRow(fs[1..]);
    assert EncodeRow(fs) == Encode(fs[0]) + rest;
    AtParts(row, b, Encode(fs[0]), rest);
    AtParts(row, e, ",", EncodeRow(fs[1..]));
    assert row[e] == ',';
    assert fs[0] in fs;
  }

  lemma ReadableHead(row: string, b: nat, e: nat, f: Field)
    requires Fills(row, b, e, f) && Readable(f)
    ensures ScanFrom(row, b, "", false) ==
            if e == |row| then Some([Collected(f)])
            else Prepend(Collected(f), ScanFrom(row, e + 1, "", false))
  {
    ReadableFieldScan(row, b, e, f);
  }

  lemma UnreadableHead(row: string, b: nat, e: nat, f: Field, values: seq<string>)
    requires Fills(row, b, e, f) && !Readable(f)
    ensures !Reads(ScanFrom(row, b, "", false), [Value(f)] + values)
  {
    hide ScanFrom, Trim, Encode;
    UnreadableFieldScan(row, b, e, f);
    var r := ScanFrom(row, b, "", false);
    if r.Some? {
      assert TrimAll(r.value)[0] == Trim(r.value[0]);
    }
  }

  predicate AllReadable(fs: seq<Field>) {
    forall f | f in fs :: Readable(f)
  }

  lemma AllReadableFirst(fs: seq<Field>)
    requires fs != []
    ensures AllReadable(fs) <==> Readable(fs[0]) && AllReadable(fs[1..])
  {
    assert fs == [fs[0]] + fs[1..];
  }

  lemma LastField(row: string, b: nat, fs: seq<Field>)
    requires |fs| == 1 && FillsRow(row, b, fs)
    ensures Reads(ScanFrom(row, b, "", false), Values(fs)) <==> AllReadable(fs)
  {
    hide ScanFrom, Trim, Encode, Collected;
    var f := fs[0];
    assert f in fs;
    AllReadableFirst(fs);
    assert Values(fs) == [Value(f)] + [];
    if Readable(f) {
      ReadableHead(row, b, |row|, f);
      ValueOfCollected(f);
      assert TrimAll([Collected(f)]) == [Value(f)];
    } else {
      UnreadableHead(row, b, |row|, f, []);
    }
  }

  lemma FirstField(row: string, b: nat, e: nat, fs: seq<Field>)
    requires |fs| > 1 && FillsRow(row, b, fs) && e == b + |Encode(fs[0])|
    ensures e < |row| && FillsRow(row, e + 1, fs[1..])
    ensures Reads(ScanFrom(row, b, "", false), Values(fs)) <==>
            Readable(fs[0]) && Reads(ScanFrom(row, e + 1, "", false), Values(fs[1..]))
  {
    hide ScanFrom, Trim, Readable, Value, Collected, Encode;
    var f := fs[0];
    FieldsBeforeComma(row, b, fs);
    if Readable(f) {
      ReadableHead(row, b, e, f);
      ValueOfCollected(f);
      ReadsPrepended(Collected(f), ScanFrom(row, e + 1, "", false), Value(f), Values(fs[1..]));
    } else {
      UnreadableHead(row, b, e, f, Values(fs[1..]));
    }
  }

  lemma {:induction false} RowScan(row: string, b: nat, fs: seq<Field>)
    requires fs != [] && FillsRow(row, b, fs)
    ensures Reads(ScanFrom(row, b, "", false), Values(fs)) <==> AllReadable(fs)
    decreases |fs|
  {
    hide *;
    if |fs| == 1 {
      LastField(row, b, fs);
    } else {
      var e := b + |Encode(fs[0])|;
      AllReadableFirst(fs);
      FirstField(row, b, e, fs);
      RowScan(row, e + 1, fs[1..]);
    }
  }

  lemma ValueOfCollected(f: Field)
    requires WellWritten(f)
    ensures Trim(Collected(f)) == Value(f)
  {
    if f.Quoted? {
      TrimIgnoresPadding(f.before, f.content, f.after);
    }
  }

  /**
   * The scanner gives back the trimmed contents of a row of written fields exactly when every
   * quoted field's content survives.
   */
  lemma RoundTrip(fs: seq<Field>)
    requires fs != [] && forall f | f in fs :: WellWritten(f)
    ensures Columns(EncodeRow(fs)) == Some(Values(fs)) <==> AllReadable(fs)
  {
    RowScan(EncodeRow(fs), 0, fs);
  }

  lemma ThreeValues(a: Field, b: Field, c: Field)
    ensures Values([a, b, c]) == [Value(a), Value(b), Value(c)]
  {
    hide Value;
    assert [a, b, c][1..] == [b, c] && [b, c][1..] == [c];
    assert Values([c]) == [Value(c)] + Values([]);
    assert Values([b, c]) == [Value(b)] + Values([c]);
  }

  /** An empty quoted field comes back as one quote character. */
  lemma EmptyQuotedFieldIsAQuote()
    ensures WellWritten(Quoted("", "", "")) && Columns(EncodeRow([Quoted("", "", "")])) == Some(["\""])
  {
    var fs := [Quoted("", "", "")];
    var row := EncodeRow(fs);
    assert Double("") == "" && row == "\"\"";
    OneDoubledQuote(row);
  }

  lemma OneDoubledQuote(row: string)
    requires row == "\"\""
    ensures Columns(row) == Some(["\""])
  {
    hide Trim, AtEdge;
    assert DoubledAt(row, 0);
    assert "" + "\"" == "\"";
    assert ScanFrom(row, 2, "\"", false) == Some(["\""]);
    QuoteIsNoSpace();
    TrimmedIsItsTrim("\"");
    assert TrimAll(["\""]) == ["\""];
  }
}
