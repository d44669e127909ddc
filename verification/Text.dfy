/** Strings as the CSV code uses them: trimming, splitting on a character, joining. */
module Text {

  /** The characters `String.prototype.trim` removes: white space and line terminators. */
  predicate IsSpace(c: char) {
    || '\t' <= c <= '\r' || c == ' ' || c == '\U{00A0}' || c == '\U{1680}'
    || '\U{2000}' <= c <= '\U{200A}' || c == '\U{2028}' || c == '\U{2029}'
    || c == '\U{202F}' || c == '\U{205F}' || c == '\U{3000}' || c == '\U{FEFF}'
  }

  predicate Blank(s: string) {
    forall i | 0 <= i < |s| :: IsSpace(s[i])
  }

  /** Neither end is white space; the empty string is trimmed. */
  predicate Trimmed(s: string) {
    s != "" ==> !IsSpace(s[0]) && !IsSpace(s[|s| - 1])
  }

  function TrimStart(s: string): (t: string)
    ensures |t| <= |s| && t == s[|s| - |t|..] && forall i | 0 <= i < |s| - |t| :: IsSpace(s[i])
    ensures t != "" ==> !IsSpace(t[0])
  {
    hide IsSpace;
    if s != "" && IsSpace(s[0]) then TrimStart(s[1..]) else s
  }

  function TrimEnd(s: string): (t: string)
    ensures |t| <= |s| && t == s[..|t|] && forall i | |t| <= i < |s| :: IsSpace(s[i])
    ensures t != "" ==> !IsSpace(t[|t| - 1])
  {
    hide IsSpace;
    if s != "" && IsSpace(s[|s| - 1]) then TrimEnd(s[..|s| - 1]) else s
  }

  function Trim(s: string): (t: string)
    ensures Trimmed(t) && |t| <= |s|
  {
    TrimEnd(TrimStart(s))
  }

  lemma TrimChars(s: string)
    ensures forall c | c in Trim(s) :: c in s
  {
  }

  function TrimAll(ss: seq<string>): (r: seq<string>)
    ensures |r| == |ss| && forall i | 0 <= i < |r| :: r[i] == Trim(ss[i])
  {
    seq(|ss|, i requires 0 <= i < |ss| => Trim(ss[i]))
  }

  lemma {:induction false} TrimStartSkips(a: string, s: string)
    requires Blank(a)
    ensures TrimStart(a + s) == TrimStart(s)
  {
    hide IsSpace;
    if a == "" {
      assert a + s == s;
    } else {
      assert (a + s)[1..] == a[1..] + s;
      TrimStartSkips(a[1..], s);
    }
  }

  lemma {:induction false} TrimEndSkips(s: string, b: string)
    requires Blank(b)
    ensures TrimEnd(s + b) == TrimEnd(s)
  {
    hide IsSpace;
    if b == "" {
      assert s + b == s;
    } else {
      assert (s + b)[..|s + b| - 1] == s + b[..|b| - 1];
      TrimEndSkips(s, b[..|b| - 1]);
    }
  }

  /** A trimmed string is the only trimmed core of whatever blank padding surrounds it. */
  lemma TrimOfPadded(a: string, core: string, b: string)
    requires Blank(a) && Blank(b) && Trimmed(core)
    ensures Trim(a + core + b) == core
  {
    hide IsSpace;
    assert a + core + b == a + (core + b);
    TrimStartSkips(a, core + b);
    if core == "" {
      assert core + b == b + core;
      TrimStartSkips(b, core);
    } else {
      assert (core + b)[0] == core[0];
      TrimEndSkips(core, b);
    }
  }

  lemma TrimmedIsItsTrim(s: string)
    requires Trimmed(s)
    ensures Trim(s) == s
  {
    hide Trim, Trimmed;
    TrimOfPadded("", s, "");
    assert "" + s + "" == s;
  }

  lemma {:induction false} TrimOfTrailing(s: string, b: string)
    requires Blank(b)
    ensures Trim(s + b) == Trim(s)
  {
    hide IsSpace;
    if s != "" && IsSpace(s[0]) {
      assert (s + b)[1..] == s[1..] + b;
      TrimOfTrailing(s[1..], b);
    } else if s == "" {
      TrimOfPadded("", "", b);
      assert "" + "" + b == s + b;
    } else {
      TrimEndSkips(s, b);
    }
  }

  /** Blank padding never changes what `Trim` returns. */
  lemma TrimIgnoresPadding(a: string, s: string, b: string)
    requires Blank(a) && Blank(b)
    ensures Trim(a + s + b) == Trim(s)
  {
    hide IsSpace;
    assert a + s + b == a + (s + b);
    TrimStartSkips(a, s + b);
    TrimOfTrailing(s, b);
  }

  function Split(s: string, sep: char): (r: seq<string>)
    ensures r != []
  {
    if s == "" then [""]
    else
      var r := Split(s[1..], sep);
      if s[0] == sep then [""] + r else [[s[0]] + r[0]] + r[1..]
  }

  function Join(ss: seq<string>, sep: string): string {
    if ss == [] then "" else if |ss| == 1 then ss[0] else ss[0] + sep + Join(ss[1..], sep)
  }

  /** Every piece is free of the separator and made of characters of the whole. */
  lemma {:induction false} SplitPieces(s: string, sep: char)
    ensures forall p | p in Split(s, sep) :: sep !in p && forall c | c in p :: c in s
  {
    if s != "" {
      SplitPieces(s[1..], sep);
      var r := Split(s[1..], sep);
      forall p | p in Split(s, sep) ensures sep !in p && forall c | c in p :: c in s {
        if s[0] != sep && p == [s[0]] + r[0] {
          assert r[0] in r;
        } else if p != "" {
          assert p in r;
        }
      }
    }
  }

  lemma {:induction false} SplitWhole(s: string, sep: char)
    requires sep !in s
    ensures Split(s, sep) == [s]
  {
    if s != "" {
      SplitWhole(s[1..], sep);
      assert [s[0]] + s[1..] == s;
    }
  }

  lemma {:induction false} SplitFirst(s: string, rest: string, sep: char)
    requires sep !in s
    ensures Split(s + [sep] + rest, sep) == [s] + Split(rest, sep)
  {
    var all := s + [sep] + rest;
    if s == "" {
      assert all[1..] == rest;
    } else {
      assert all[1..] == s[1..] + [sep] + rest;
      SplitFirst(s[1..], rest, sep);
      assert [s[0]] + s[1..] == s;
    }
  }

  /** Joining with the separator and splitting on it gives back any list of separator-free pieces. */
  lemma {:induction false} SplitOfJoin(ss: seq<string>, sep: char)
    requires ss != [] && forall s | s in ss :: sep !in s
    ensures Split(Join(ss, [sep]), sep) == ss
  {
    assert ss[0] in ss;
    if |ss| == 1 {
      SplitWhole(ss[0], sep);
    } else {
      SplitOfJoin(ss[1..], sep);
      SplitFirst(ss[0], Join(ss[1..], [sep]), sep);
    }
  }

  lemma {:induction false} JoinOfSplit(s: string, sep: char)
    ensures Join(Split(s, sep), [sep]) == s
  {
    if s != "" {
      JoinOfSplit(s[1..], sep);
      var r := Split(s[1..], sep);
      if s[0] == sep {
        assert ([""] + r)[1..] == r;
        assert "" + [sep] + s[1..] == s;
      } else if |r| == 1 {
        assert [s[0]] + s[1..] == s;
      } else {
        assert ([[s[0]] + r[0]] + r[1..])[1..] == r[1..];
        assert [s[0]] + r[0] + [sep] + Join(r[1..], [sep]) == [s[0]] + s[1..] == s;
      }
    }
  }

  /** A property of characters that every piece has is had by the joined string when the separator has it. */
  lemma {:induction false} JoinChars(ss: seq<string>, sep: string)
    ensures forall c | c in Join(ss, sep) :: c in sep || exists s | s in ss :: c in s
  {
    if |ss| == 1 {
      assert ss[0] in ss;
    } else if |ss| > 1 {
      JoinChars(ss[1..], sep);
      forall c | c in Join(ss, sep) ensures c in sep || exists s | s in ss :: c in s {
        if c in ss[0] {
          assert ss[0] in ss;
        } else if c !in sep {
          var s :| s in ss[1..] && c in s;
          assert s in ss;
        }
      }
    }
  }

  /** Trimming the pieces never makes the joined string longer. */
  lemma {:induction false} JoinOfTrimmed(ss: seq<string>, sep: string)
    ensures |Join(TrimAll(ss), sep)| <= |Join(ss, sep)|
  {
    if |ss| > 1 {
      JoinOfTrimmed(ss[1..], sep);
      assert TrimAll(ss)[1..] == TrimAll(ss[1..]);
    }
  }

  lemma SplitAtSep(s: string, sep: char)
    ensures Split([sep] + s, sep) == [""] + Split(s, sep)
  {
    assert ([sep] + s)[1..] == s;
  }

  lemma SplitOne(c: char, sep: char)
    requires c != sep
    ensures Split([c], sep) == [[c]] && Split("", sep) == [""]
  {
    assert [c][1..] == "" && [c] + "" == [c];
  }

  /** One more character at the end goes to the last piece. */
  lemma {:induction false} SplitSnoc(s: string, c: char, sep: char)
    requires c != sep
    ensures var r := Split(s, sep);
            Split(s + [c], sep) == r[..|r| - 1] + [r[|r| - 1] + [c]]
  {
    hide Split;
    if s == "" {
      SplitOne(c, sep);
      assert s + [c] == [c] && [c] == "" + [c];
    } else {
      var rest := s[1..];
      var r := Split(rest, sep);
      SplitSnoc(rest, c, sep);
      assert s + [c] == [s[0]] + (rest + [c]) && s == [s[0]] + rest;
      if s[0] == sep {
        SplitAtSep(rest, sep);
        SplitAtSep(rest + [c], sep);
      } else {
        SplitCons(s[0], rest, sep);
        SplitCons(s[0], rest + [c], sep);
        assert [s[0]] + (r[0] + [c]) == [s[0]] + r[0] + [c];
      }
    }
  }

  lemma SplitCons(c: char, s: string, sep: char)
    requires c != sep
    ensures var r := Split(s, sep); Split([c] + s, sep) == [[c] + r[0]] + r[1..]
  {
    assert ([c] + s)[1..] == s;
  }

  lemma TrimOfSpaceFirst(c: char, s: string)
    requires IsSpace(c)
    ensures Trim([c] + s) == Trim(s)
  {
    hide IsSpace, Trim;
    TrimIgnoresPadding([c], s, "");
    assert [c] + s + "" == [c] + s;
  }

  lemma TrimStartStep(s: string)
    requires s != "" && IsSpace(s[0])
    ensures TrimStart(s) == TrimStart(s[1..])
  {
    hide IsSpace;
  }

  lemma SplitAfterSpace(c: char, s: string, sep: char)
    requires IsSpace(c) && c != sep
    ensures TrimAll(Split([c] + s, sep)) == TrimAll(Split(s, sep))
  {
    hide IsSpace, Trim, Split, TrimAll;
    SplitCons(c, s, sep);
    var r := Split(s, sep);
    TrimOfSpaceFirst(c, r[0]);
    TrimAllHead([c] + r[0], r[0], r[1..]);
    assert r == [r[0]] + r[1..];
  }

  lemma {:induction false} SplitOfTrimStart(s: string, sep: char)
    requires !IsSpace(sep)
    ensures TrimAll(Split(TrimStart(s), sep)) == TrimAll(Split(s, sep))
  {
    hide IsSpace, Trim, Split, TrimAll, TrimStart;
    if s != "" && IsSpace(s[0]) {
      SplitOfTrimStart(s[1..], sep);
      TrimStartStep(s);
      SplitAfterSpace(s[0], s[1..], sep);
      assert s == [s[0]] + s[1..];
    } else {
      TrimStartStops(s);
    }
  }

  lemma TrimStartStops(s: string)
    requires s != "" ==> !IsSpace(s[0])
    ensures TrimStart(s) == s
  {
    hide IsSpace;
  }

  lemma TrimAllHead(a: string, b: string, rest: seq<string>)
    requires Trim(a) == Trim(b)
    ensures TrimAll([a] + rest) == TrimAll([b] + rest)
  {
    hide Trim;
  }

  lemma TrimAllLast(front: seq<string>, a: string, b: string)
    requires Trim(a) == Trim(b)
    ensures TrimAll(front + [a]) == TrimAll(front + [b])
  {
    hide Trim;
  }

  lemma SplitBeforeSpace(s: string, c: char, sep: char)
    requires IsSpace(c) && c != sep
    ensures TrimAll(Split(s + [c], sep)) == TrimAll(Split(s, sep))
  {
    hide IsSpace, Trim, Split, TrimAll;
    SplitSnoc(s, c, sep);
    var r := Split(s, sep);
    TrimOfTrailing(r[|r| - 1], [c]);
    TrimAllLast(r[..|r| - 1], r[|r| - 1] + [c], r[|r| - 1]);
    assert r == r[..|r| - 1] + [r[|r| - 1]];
  }

  lemma {:induction false} SplitOfTrimEnd(s: string, sep: char)
    requires !IsSpace(sep)
    ensures TrimAll(Split(TrimEnd(s), sep)) == TrimAll(Split(s, sep))
  {
    hide IsSpace, Trim, Split, TrimAll;
    if s != "" && IsSpace(s[|s| - 1]) {
      SplitOfTrimEnd(s[..|s| - 1], sep);
      SplitBeforeSpace(s[..|s| - 1], s[|s| - 1], sep);
      assert s == s[..|s| - 1] + [s[|s| - 1]];
    }
  }

  /** Trimming before splitting changes nothing when the pieces are trimmed anyway. */
  lemma SplitOfTrim(s: string, sep: char)
    requires !IsSpace(sep)
    ensures TrimAll(Split(Trim(s), sep)) == TrimAll(Split(s, sep))
  {
    hide IsSpace, Split;
    SplitOfTrimStart(s, sep);
    SplitOfTrimEnd(TrimStart(s), sep);
  }
}
