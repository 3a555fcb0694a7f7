/** The Python `str` operations the scripts rely on, restricted to ASCII text:
    `strip()`, `rstrip(ch)`, `split(sep)` and `sep.join(pieces)`. */
module PyStr {

  /** `c.isspace()` on ASCII: space, tab, line feed, vertical tab, form feed,
      carriage return, and the four separators 0x1C-0x1F. The same set is what
      the regular expression class `\s` matches on ASCII text. */
  predicate IsSpace(c: char) {
    c == ' ' || 9 <= c as int <= 13 || 28 <= c as int <= 31
  }

  /** `\d` on ASCII. */
  predicate IsDigit(c: char) {
    '0' <= c <= '9'
  }

  /** Neither end of `s` is whitespace: what `strip()` leaves behind. */
  predicate Trimmed(s: string) {
    s == [] || (!IsSpace(s[0]) && !IsSpace(s[|s| - 1]))
  }

  /** The index of the first non-whitespace character of `s` at or after `i`,
      or `|s|`. */
  function SpaceEnd(s: string, i: nat): (j: nat)
    requires i <= |s|
    ensures i <= j <= |s|
    ensures j == |s| || !IsSpace(s[j])
    decreases |s| - i
  {
    if i < |s| && IsSpace(s[i]) then SpaceEnd(s, i + 1) else i
  }

  /** The index just after the last non-whitespace character of `s` before
      `j`, but not below `lo`. */
  function SpaceStart(s: string, lo: nat, j: nat): (k: nat)
    requires lo <= j <= |s|
    ensures lo <= k <= j
    ensures k == lo || !IsSpace(s[k - 1])
  {
    if lo < j && IsSpace(s[j - 1]) then SpaceStart(s, lo, j - 1) else j
  }

  /** `s.strip()`: the slice of `s` left after removing whitespace at both ends. */
  function Strip(s: string): (r: string)
    ensures Trimmed(r)
    ensures |r| <= |s|
  {
    var a := SpaceEnd(s, 0);
    s[a..SpaceStart(s, a, |s|)]
  }

  lemma {:induction false} SpaceEndSkipsSpace(s: string, i: nat)
    requires i <= |s|
    ensures forall k :: i <= k < SpaceEnd(s, i) ==> IsSpace(s[k])
    decreases |s| - i
  {
    if i < |s| && IsSpace(s[i]) {
      SpaceEndSkipsSpace(s, i + 1);
    }
  }

  lemma {:induction false} SpaceStartSkipsSpace(s: string, lo: nat, j: nat)
    requires lo <= j <= |s|
    ensures forall k :: SpaceStart(s, lo, j) <= k < j ==> IsSpace(s[k])
  {
    if lo < j && IsSpace(s[j - 1]) {
      SpaceStartSkipsSpace(s, lo, j - 1);
    }
  }

  /** `strip()` removes only whitespace: everything outside the slice it keeps
      is whitespace, and the slice itself neither starts nor ends with any. */
  lemma StripRemovesSpace(s: string)
    ensures exists a, b :: 0 <= a <= b <= |s| && Strip(s) == s[a..b] &&
                           (forall k :: 0 <= k < a ==> IsSpace(s[k])) &&
                           (forall k :: b <= k < |s| ==> IsSpace(s[k]))
  {
    var a := SpaceEnd(s, 0);
    var b := SpaceStart(s, a, |s|);
    SpaceEndSkipsSpace(s, 0);
    SpaceStartSkipsSpace(s, a, |s|);
    assert Strip(s) == s[a..b];
  }

  /** A string with no whitespace at its ends is its own `strip()`. */
  lemma StripTrimmed(s: string)
    requires Trimmed(s)
    ensures Strip(s) == s
  {
    if s != [] {
      assert SpaceEnd(s, 0) == 0;
      assert SpaceStart(s, 0, |s|) == |s|;
    }
    assert s[0..|s|] == s;
  }

  /** `strip()` is idempotent. */
  lemma StripIdempotent(s: string)
    ensures Strip(Strip(s)) == Strip(s)
  {
    StripTrimmed(Strip(s));
  }

  /** A string of `n` copies of `ch`. */
  function Repeat(ch: char, n: nat): (r: string)
    ensures |r| == n
    ensures forall i :: 0 <= i < n ==> r[i] == ch
  {
    if n == 0 then [] else Repeat(ch, n - 1) + [ch]
  }

  /** `s.rstrip(ch)`: removes every trailing `ch`, not just one. */
  function RightStripChar(s: string, ch: char): (r: string)
    ensures |r| <= |s| && r == s[..|r|]
    ensures forall i :: |r| <= i < |s| ==> s[i] == ch
    ensures r == [] || r[|r| - 1] != ch
  {
    if |s| > 0 && s[|s| - 1] == ch then RightStripChar(s[..|s| - 1], ch) else s
  }

  /** `a` and `b` are one text followed by possibly different runs of `ch`. */
  ghost predicate SameUpToTrailing(a: string, b: string, ch: char) {
    exists m: string, i: nat, j: nat :: a == m + Repeat(ch, i) && b == m + Repeat(ch, j)
  }

  lemma {:induction false} RightStripCharPadded(m: string, ch: char, n: nat)
    ensures RightStripChar(m + Repeat(ch, n), ch) == RightStripChar(m, ch)
  {
    if n > 0 {
      var s := m + Repeat(ch, n);
      assert s[..|s| - 1] == m + Repeat(ch, n - 1);
      RightStripCharPadded(m, ch, n - 1);
    } else {
      assert m + Repeat(ch, n) == m;
    }
  }

  /** Two strings agree after `rstrip(ch)` exactly when they differ only in how
      many `ch` they end with (zero included). */
  lemma RightStripCharEqualIff(a: string, b: string, ch: char)
    ensures RightStripChar(a, ch) == RightStripChar(b, ch) <==> SameUpToTrailing(a, b, ch)
  {
    var ra, rb := RightStripChar(a, ch), RightStripChar(b, ch);
    if ra == rb {
      assert a == ra + Repeat(ch, |a| - |ra|);
      assert b == ra + Repeat(ch, |b| - |rb|);
    }
    if SameUpToTrailing(a, b, ch) {
      var m: string, i: nat, j: nat :| a == m + Repeat(ch, i) && b == m + Repeat(ch, j);
      RightStripCharPadded(m, ch, i);
      RightStripCharPadded(m, ch, j);
    }
  }

  /** `s.split(sep)` for a one-character separator: n separators give n + 1
      pieces, so `"".split(sep) == [""]`. */
  function Split(s: string, sep: char): (pieces: seq<string>)
    ensures |pieces| >= 1
    ensures forall i :: 0 <= i < |pieces| ==> sep !in pieces[i]
  {
    if |s| == 0 then [""]
    else
      var rest := Split(s[1..], sep);
      if s[0] == sep then [""] + rest
      else [[s[0]] + rest[0]] + rest[1..]
  }

  /** `sep.join(pieces)`. */
  function Join(pieces: seq<string>, sep: string): string {
    if |pieces| == 0 then ""
    else if |pieces| == 1 then pieces[0]
    else pieces[0] + sep + Join(pieces[1..], sep)
  }

  /** Joining the pieces of a split with the separator gives back the string. */
  lemma {:induction false} JoinSplit(s: string, sep: char)
    ensures Join(Split(s, sep), [sep]) == s
  {
    if |s| > 0 {
      var rest := Split(s[1..], sep);
      JoinSplit(s[1..], sep);
      if s[0] != sep {
        var pieces := Split(s, sep);
        assert pieces[0] == [s[0]] + rest[0];
        assert pieces[1..] == rest[1..];
        if |rest| > 1 {
          assert Join(rest, [sep]) == rest[0] + [sep] + Join(rest[1..], [sep]);
          assert s == [s[0]] + s[1..];
        }
      }
    }
  }

  /** Splitting `a + t` where `a` holds no separator extends the first piece. */
  lemma {:induction false} SplitPrefix(a: string, t: string, sep: char)
    requires sep !in a
    ensures Split(a + t, sep) == [a + Split(t, sep)[0]] + Split(t, sep)[1..]
  {
    var st := Split(t, sep);
    if |a| > 0 {
      assert (a + t)[0] == a[0] && a[0] != sep;
      assert (a + t)[1..] == a[1..] + t;
      SplitPrefix(a[1..], t, sep);
      var rest := Split(a[1..] + t, sep);
      assert rest == [a[1..] + st[0]] + st[1..];
      assert Split(a + t, sep) == [[a[0]] + rest[0]] + rest[1..];
      assert [a[0]] + (a[1..] + st[0]) == a + st[0];
    } else {
      assert a + t == t;
      assert a + st[0] == st[0];
      assert st == [st[0]] + st[1..];
    }
  }

  /** Splitting a join gives back the pieces when none holds the separator. */
  lemma {:induction false} SplitJoin(pieces: seq<string>, sep: char)
    requires |pieces| >= 1
    requires forall i :: 0 <= i < |pieces| ==> sep !in pieces[i]
    ensures Split(Join(pieces, [sep]), sep) == pieces
  {
    if |pieces| == 1 {
      SplitPrefix(pieces[0], "", sep);
      assert pieces[0] + "" == pieces[0];
      assert Split("", sep) == [""];
      assert Join(pieces, [sep]) == pieces[0];
    } else {
      var tail := Join(pieces[1..], [sep]);
      SplitJoin(pieces[1..], sep);
      SplitPrefix(pieces[0], [sep] + tail, sep);
      assert Join(pieces, [sep]) == pieces[0] + ([sep] + tail);
      assert ([sep] + tail)[0] == sep;
      assert ([sep] + tail)[1..] == tail;
      assert Split([sep] + tail, sep) == [""] + pieces[1..];
      assert pieces[0] + "" == pieces[0];
      assert pieces == [pieces[0]] + pieces[1..];
    }
  }

  /** `s` with every `from` replaced by `to` (`s.replace(from, to)`). */
  function Replace(s: string, from: char, to: char): (r: string)
    ensures |r| == |s|
    ensures forall i :: 0 <= i < |s| ==> r[i] == if s[i] == from then to else s[i]
  {
    if |s| == 0 then "" else [if s[0] == from then to else s[0]] + Replace(s[1..], from, to)
  }

  /** Re-joining the pieces of a split with another separator is replacing the
      separator. */
  lemma {:induction false} JoinSplitReplace(s: string, sep: char, other: char)
    ensures Join(Split(s, sep), [other]) == Replace(s, sep, other)
  {
    if |s| > 0 {
      var rest := Split(s[1..], sep);
      JoinSplitReplace(s[1..], sep, other);
      var pieces := Split(s, sep);
      if s[0] == sep {
        assert Join(pieces, [other]) == "" + [other] + Join(rest, [other]);
      } else {
        assert pieces[0] == [s[0]] + rest[0];
        assert pieces[1..] == rest[1..];
        if |rest| > 1 {
          assert Join(rest, [other]) == rest[0] + [other] + Join(rest[1..], [other]);
        }
      }
    }
  }

  /** How many times `c` occurs in `s` (`s.count(c)`). */
  function Occurrences(s: string, c: char): nat {
    if |s| == 0 then 0 else (if s[0] == c then 1 else 0) + Occurrences(s[1..], c)
  }

  /** A split gives one piece more than there are separators. */
  lemma {:induction false} SplitLength(s: string, sep: char)
    ensures |Split(s, sep)| == Occurrences(s, sep) + 1
  {
    if |s| > 0 {
      SplitLength(s[1..], sep);
    }
  }

  /** A piece followed by a separator splits off as a whole. */
  lemma PieceThenSeparator(p: string, t: string, sep: char)
    requires sep !in p
    ensures Split(p + ([sep] + t), sep) == [p] + Split(t, sep)
  {
    assert ([sep] + t)[0] == sep && ([sep] + t)[1..] == t;
    assert Split([sep] + t, sep) == [""] + Split(t, sep);
    SplitPrefix(p, [sep] + t, sep);
    assert p + "" == p;
  }

  /** Splitting text that starts with a run of separator-free pieces gives
      those pieces, then the pieces of what follows them. */
  lemma {:induction false} SplitAfterPieces(ps: seq<string>, t: string, sep: char)
    requires |ps| >= 1
    requires forall i :: 0 <= i < |ps| ==> sep !in ps[i]
    ensures Split(Join(ps, [sep]) + [sep] + t, sep) == ps + Split(t, sep)
  {
    if |ps| == 1 {
      assert Join(ps, [sep]) + [sep] + t == ps[0] + ([sep] + t);
      PieceThenSeparator(ps[0], t, sep);
    } else {
      var inner := Join(ps[1..], [sep]) + [sep] + t;
      SplitAfterPieces(ps[1..], t, sep);
      assert Join(ps, [sep]) + [sep] + t == ps[0] + ([sep] + inner);
      PieceThenSeparator(ps[0], inner, sep);
      assert ps == [ps[0]] + ps[1..];
    }
  }
}
