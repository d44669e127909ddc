/** The column scanner `parseCols`: one row of text to its trimmed columns. */
module CsvScanner {
  import opened Wrappers
  import opened Text

  /** Index of the nearest non-space at or before `j`; -1 when there is none. */
  function Back(row: string, j: int): (r: int)
    requires -1 <= j < |row|
    ensures -1 <= r <= j
  {
    if j >= 0 && row[j] == ' ' then Back(row, j - 1) else j
  }

  /** Index of the nearest non-space at or after `k`; the row's length when there is none. */
  function Forth(row: string, k: nat): (r: nat)
    requires k <= |row|
    ensures k <= r <= |row|
    decreases |row| - k
  {
    if k < |row| && row[k] == ' ' then Forth(row, k + 1) else k
  }

  /** Position `i` is next to a comma or a row end, looking past spaces. */
  predicate AtEdge(row: string, i: nat)
    requires i < |row|
  {
    var j, k := Back(row, i - 1), Forth(row, i + 1);
    j < 0 || row[j] == ',' || k == |row| || row[k] == ','
  }

  predicate DoubledAt(row: string, i: nat): (r: bool)
    requires i < |row|
    ensures r ==> i + 2 <= |row|
  {
    row[i] == '"' && i + 1 < |row| && row[i + 1] == '"'
  }

  /** A quote that opens or closes quoting, when the scanner stops at it. */
  predicate StructuralAt(row: string, i: nat)
    requires i < |row|
  {
    row[i] == '"' && !DoubledAt(row, i) && AtEdge(row, i)
  }

  function Prepend(col: string, rest: Option<seq<string>>): Option<seq<string>> {
    match rest
    case None => None
    case Some(cols) => Some([col] + cols)
  }

  /** The untrimmed columns from position `i` on; `None` when the row ends inside quotes. */
  function ScanFrom(row: string, i: nat, current: string, inQuotes: bool): Option<seq<string>>
    requires i <= |row|
    decreases |row| - i
  {
    if i == |row| then
      if inQuotes then None else Some([current])
    else if DoubledAt(row, i) then
      ScanFrom(row, i + 2, current + "\"", inQuotes)
    else if StructuralAt(row, i) then
      ScanFrom(row, i + 1, current, !inQuotes)
    else if row[i] == ',' && !inQuotes then
      Prepend(current, ScanFrom(row, i + 1, "", false))
    else
      ScanFrom(row, i + 1, current + [row[i]], inQuotes)
  }

  function RawColumns(row: string): Option<seq<string>> {
    ScanFrom(row, 0, "", false)
  }

  /** `None` stands for the "unclosed quote" error. */
  function Columns(row: string): Option<seq<string>> {
    match RawColumns(row)
    case None => None
    case Some(cols) => Some(TrimAll(cols))
  }

  lemma {:induction false} ScanNonempty(row: string, i: nat, current: string, inQuotes: bool)
    requires i <= |row|
    ensures var r := ScanFrom(row, i, current, inQuotes);
            r.Some? ==> r.value != [] && current <= r.value[0]
    decreases |row| - i
  {
    if i < |row| {
      if DoubledAt(row, i) {
        ScanNonempty(row, i + 2, current + "\"", inQuotes);
      } else if StructuralAt(row, i) {
        ScanNonempty(row, i + 1, current, !inQuotes);
      } else if !(row[i] == ',' && !inQuotes) {
        ScanNonempty(row, i + 1, current + [row[i]], inQuotes);
      }
    }
  }

  /** The columns already pushed, then the trimmed columns still to come. */
  function Finish(pushed: seq<string>, rest: Option<seq<string>>): Option<seq<string>> {
    match rest
    case None => None
    case Some(cols) => Some(pushed + TrimAll(cols))
  }

  lemma FinishFromNothing(all: Option<seq<string>>)
    ensures Finish([], all) == match all case None => None case Some(cols) => Some(TrimAll(cols))
  {
    hide Trim;
    if all.Some? {
      assert [] + TrimAll(all.value) == TrimAll(all.value);
    }
  }

  lemma FinishOfPrepend(pushed: seq<string>, col: string, rest: Option<seq<string>>)
    ensures Finish(pushed, Prepend(col, rest)) == Finish(pushed + [Trim(col)], rest)
  {
    hide Trim;
    if rest.Some? {
      assert TrimAll([col] + rest.value) == [Trim(col)] + TrimAll(rest.value);
      assert pushed + ([Trim(col)] + TrimAll(rest.value)) == pushed + [Trim(col)] + TrimAll(rest.value);
    }
  }

  method NextToCommaOrEnd(row: string, i: nat) returns (r: bool)
    requires i < |row|
    ensures r == AtEdge(row, i)
  {
    var j, k := i - 1, i + 1;
    while j >= 0 && row[j] == ' '
      invariant -1 <= j < i
      invariant Back(row, j) == Back(row, i - 1)
    {
      j := j - 1;
    }
    while k < |row| && row[k] == ' '
      invariant i < k <= |row|
      invariant Forth(row, k) == Forth(row, i + 1)
    {
      k := k + 1;
    }
    return j < 0 || row[j] == ',' || k == |row| || row[k] == ',';
  }

  method ParseCols(row: string) returns (r: Option<seq<string>>)
    ensures r == Columns(row)
  {
    hide Trim, AtEdge;
    var cols: seq<string> := [];
    var current := "";
    var inQuotes := false;
    var i := 0;
    FinishFromNothing(RawColumns(row));
    while i < |row|
      invariant 0 <= i <= |row|
      invariant Columns(row) == Finish(cols, ScanFrom(row, i, current, inQuotes))
    {
      var c := row[i];
      if c == '"' {
        if i + 1 < |row| && row[i + 1] == '"' {
          current := current + "\"";
          i := i + 1;
        } else {
          var structural := NextToCommaOrEnd(row, i);
          if structural {
            inQuotes := !inQuotes;
          } else {
            current := current + [c];
          }
        }
      } else if c == ',' && !inQuotes {
        FinishOfPrepend(cols, current, ScanFrom(row, i + 1, "", false));
        cols := cols + [Trim(current)];
        current := "";
      } else {
        current := current + [c];
      }
      i := i + 1;
    }
    if inQuotes {
      return None;
    }
    assert TrimAll([current]) == [Trim(current)];
    cols := cols + [Trim(current)];
    return Some(cols);
  }

  // Conservation: what the scanner keeps, drops and separates on.

  /** The row from `i` on without its structural quotes and with each doubled quote made one. */
  function Kept(row: string, i: nat): string
    requires i <= |row|
    decreases |row| - i
  {
    if i == |row| then ""
    else if DoubledAt(row, i) then "\"" + Kept(row, i + 2)
    else if StructuralAt(row, i) then Kept(row, i + 1)
    else [row[i]] + Kept(row, i + 1)
  }

  function StructuralQuotes(row: string, i: nat): nat
    requires i <= |row|
    decreases |row| - i
  {
    if i == |row| then 0
    else if DoubledAt(row, i) then StructuralQuotes(row, i + 2)
    else (if StructuralAt(row, i) then 1 else 0) + StructuralQuotes(row, i + 1)
  }

  /** Commas met from `i` on with an even number of structural quotes (plus `quotes`) behind them. */
  function OpenCommas(row: string, i: nat, quotes: nat): nat
    requires i <= |row|
    decreases |row| - i
  {
    if i == |row| then 0
    else if DoubledAt(row, i) then OpenCommas(row, i + 2, quotes)
    else if StructuralAt(row, i) then OpenCommas(row, i + 1, quotes + 1)
    else (if row[i] == ',' && quotes % 2 == 0 then 1 else 0) + OpenCommas(row, i + 1, quotes)
  }

  lemma {:induction false} ScanCounts(row: string, i: nat, current: string, quotes: nat)
    requires i <= |row|
    ensures var r := ScanFrom(row, i, current, quotes % 2 == 1);
            && (r.Some? <==> (quotes + StructuralQuotes(row, i)) % 2 == 0)
            && (r.Some? ==> |r.value| == 1 + OpenCommas(row, i, quotes))
    decreases |row| - i
  {
    hide DoubledAt, StructuralAt;
    if i < |row| {
      if DoubledAt(row, i) {
        ScanCounts(row, i + 2, current + "\"", quotes);
      } else if StructuralAt(row, i) {
        ScanCounts(row, i + 1, current, quotes + 1);
      } else if row[i] == ',' && quotes % 2 == 0 {
        ScanCounts(row, i + 1, "", quotes);
      } else {
        ScanCounts(row, i + 1, current + [row[i]], quotes);
      }
    }
  }

  lemma {:induction false} ScanKeeps(row: string, i: nat, current: string, inQuotes: bool)
    requires i <= |row|
    ensures var r := ScanFrom(row, i, current, inQuotes);
            r.Some? ==> Join(r.value, ",") == current + Kept(row, i)
    decreases |row| - i
  {
    hide DoubledAt, StructuralAt;
    if i == |row| {
      assert current + "" == current;
    } else if DoubledAt(row, i) {
      ScanKeeps(row, i + 2, current + "\"", inQuotes);
      assert current + "\"" + Kept(row, i + 2) == current + ("\"" + Kept(row, i + 2));
    } else if StructuralAt(row, i) {
      ScanKeeps(row, i + 1, current, !inQuotes);
    } else if row[i] == ',' && !inQuotes {
      ScanKeeps(row, i + 1, "", false);
      ScanNonempty(row, i + 1, "", false);
      var rest := ScanFrom(row, i + 1, "", false);
      if rest.Some? {
        assert ([current] + rest.value)[1..] == rest.value;
        assert current + "," + ("" + Kept(row, i + 1)) == current + ([row[i]] + Kept(row, i + 1));
      }
    } else {
      ScanKeeps(row, i + 1, current + [row[i]], inQuotes);
      assert current + [row[i]] + Kept(row, i + 1) == current + ([row[i]] + Kept(row, i + 1));
    }
  }

  /**
   * A row is accepted exactly when it has an even number of structural quotes. Its untrimmed
   * columns joined by commas are then the row less those quotes, with doubled quotes collapsed;
   * there is one column more than there are commas outside quotes.
   */
  lemma Conservation(row: string)
    ensures RawColumns(row).Some? <==> StructuralQuotes(row, 0) % 2 == 0
    ensures RawColumns(row).Some? ==>
              && Join(RawColumns(row).value, ",") == Kept(row, 0)
              && |RawColumns(row).value| == 1 + OpenCommas(row, 0, 0)
  {
    ScanCounts(row, 0, "", 0);
    ScanKeeps(row, 0, "", false);
    assert "" + Kept(row, 0) == Kept(row, 0);
  }

  // Runs the scanner copies.

  /** `s` stands in the row at position `i`. */
  predicate At(row: string, i: nat, s: string) {
    i + |s| <= |row| && forall k | i <= k < i + |s| :: row[k] == s[k - i]
  }

  /** The scanner appends the character at `p` to the current column. */
  predicate LiteralAt(row: string, p: nat, inQuotes: bool)
    requires p < |row|
  {
    !DoubledAt(row, p) && !StructuralAt(row, p) && (row[p] == ',' ==> inQuotes)
  }

  lemma {:induction false} CopyRun(row: string, i: nat, s: string, current: string, inQuotes: bool)
    requires At(row, i, s) && forall p | i <= p < i + |s| :: LiteralAt(row, p, inQuotes)
    ensures ScanFrom(row, i, current, inQuotes) == ScanFrom(row, i + |s|, current + s, inQuotes)
    decreases |s|
  {
    if s == "" {
      assert current + s == current;
    } else {
      assert LiteralAt(row, i, inQuotes) && row[i] == s[0];
      CopyRun(row, i + 1, s[1..], current + [s[0]], inQuotes);
      assert current + [s[0]] + s[1..] == current + s;
    }
  }

  /** `current` put in front of the first of the columns. */
  function Glue(current: string, cols: seq<string>): seq<string>
    requires cols != []
  {
    [current + cols[0]] + cols[1..]
  }

  lemma {:induction false} ScanPlain(row: string, i: nat, current: string)
    requires i <= |row| && '"' !in row
    ensures ScanFrom(row, i, current, false) == Some(Glue(current, Split(row[i..], ',')))
    decreases |row| - i
  {
    hide AtEdge;
    var rest := row[i..];
    if rest == "" {
      assert Split(rest, ',') == [""];
      assert current + [""][0] == current;
      assert Glue(current, Split(rest, ',')) == [current];
    } else {
      var cols := Split(rest[1..], ',');
      assert rest[1..] == row[i + 1..] && rest[0] == row[i] && row[i] in row;
      if row[i] == ',' {
        ScanPlain(row, i + 1, "");
        assert "" + cols[0] == cols[0] && current + "" == current;
        assert ([""] + cols)[1..] == cols;
      } else {
        ScanPlain(row, i + 1, current + [row[i]]);
        assert current + ([row[i]] + cols[0]) == current + [row[i]] + cols[0];
      }
    }
  }

  /** Without quotes the scanner is split-on-comma and trim. */
  lemma QuoteFreeRow(row: string)
    requires '"' !in row
    ensures Columns(row) == Some(TrimAll(Split(row, ',')))
  {
    ScanPlain(row, 0, "");
    assert row[0..] == row;
    assert "" + Split(row, ',')[0] == Split(row, ',')[0];
  }
}
