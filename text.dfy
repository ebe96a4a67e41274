/**
 * The string operations the geocoding code relies on: Python's `str.lower`,
 * `str.strip`, the substring test `k in s`, `str.replace` and
 * `re.sub(r"\s+", " ", s)`, restricted to ASCII case and whitespace.
 */
module Text {

  /** Python's whitespace (`str.isspace`, and `\s` in `re`), restricted to ASCII. */
  predicate IsSpace(c: char) {
    c == ' ' || (9 <= c as int <= 13) || (28 <= c as int <= 31)
  }

  predicate IsUpper(c: char) {
    'A' <= c <= 'Z'
  }

  predicate NoUpper(s: string) {
    forall i :: 0 <= i < |s| ==> !IsUpper(s[i])
  }

  predicate HasUpper(s: string) {
    exists i :: 0 <= i < |s| && IsUpper(s[i])
  }

  /** Every whitespace run has length one. */
  predicate NoDoubleSpace(s: string) {
    forall i :: 0 <= i < |s| - 1 ==> !(IsSpace(s[i]) && IsSpace(s[i + 1]))
  }

  predicate AllSpace(s: string) {
    forall i :: 0 <= i < |s| ==> IsSpace(s[i])
  }

  function LowerChar(c: char): (d: char)
    ensures !IsUpper(d)
    ensures IsSpace(d) == IsSpace(c)
    ensures !IsUpper(c) ==> d == c
  {
    if IsUpper(c) then (c as int + 32) as char else c
  }

  /** `s.lower()` on ASCII letters; every other character is kept. */
  function Lower(s: string): (r: string)
    ensures |r| == |s|
    ensures forall i :: 0 <= i < |s| ==> r[i] == LowerChar(s[i])
    ensures NoUpper(r)
  {
    seq(|s|, i requires 0 <= i < |s| => LowerChar(s[i]))
  }

  /** `s.lstrip()`: the suffix of `s` left after its leading whitespace. */
  function TrimLeft(s: string): (r: string)
    ensures |r| <= |s| && r == s[|s| - |r|..]
    ensures forall i :: 0 <= i < |s| - |r| ==> IsSpace(s[i])
    ensures r != [] ==> !IsSpace(r[0])
  {
    if s != [] && IsSpace(s[0]) then TrimLeft(s[1..]) else s
  }

  /** `s.rstrip()`: the prefix of `s` left before its trailing whitespace. */
  function TrimRight(s: string): (r: string)
    ensures |r| <= |s| && r == s[..|r|]
    ensures forall i :: |r| <= i < |s| ==> IsSpace(s[i])
    ensures r != [] ==> !IsSpace(r[|r| - 1])
  {
    if s != [] && IsSpace(s[|s| - 1]) then TrimRight(s[..|s| - 1]) else s
  }

  /**
   * `s.strip()`: the piece of `s` left once the whitespace at both ends is
   * cut off; no whitespace is left at either end.
   */
  function Strip(s: string): (r: string)
    ensures |r| <= |s|
    ensures exists a :: CutFrom(s, r, a)
    ensures r == [] || (!IsSpace(r[0]) && !IsSpace(r[|r| - 1]))
  {
    TrimBothIsSlice(s);
    TrimRight(TrimLeft(s))
  }

  /**
   * `r` is the slice of `s` starting at position `a`, and everything of `s`
   * before that slice and after it is whitespace.
   */
  predicate CutFrom(s: string, r: string, a: int) {
    0 <= a <= |s| - |r| && r == s[a..a + |r|]
    && (forall i :: 0 <= i < a ==> IsSpace(s[i]))
    && (forall i :: a + |r| <= i < |s| ==> IsSpace(s[i]))
  }

  /** What `lstrip` then `rstrip` leave is a slice of `s` with only whitespace around it. */
  lemma TrimBothIsSlice(s: string)
    ensures CutFrom(s, TrimRight(TrimLeft(s)), |s| - |TrimLeft(s)|)
  {
    var l := TrimLeft(s);
    CutPrefixOfSuffix(s, l, TrimRight(l));
  }

  /** Cutting whitespace off the front of `s`, then off the back of what is left, leaves a slice of `s`. */
  lemma CutPrefixOfSuffix(s: string, l: string, r: string)
    requires |l| <= |s| && l == s[|s| - |l|..] && forall i :: 0 <= i < |s| - |l| ==> IsSpace(s[i])
    requires |r| <= |l| && r == l[..|r|] && forall i :: |r| <= i < |l| ==> IsSpace(l[i])
    ensures CutFrom(s, r, |s| - |l|)
  {
    var a := |s| - |l|;
    forall i | a + |r| <= i < |s| ensures IsSpace(s[i]) {
      assert s[i] == l[i - a];
    }
  }

  /** `key` occurs in `text` starting at position `i`. */
  predicate OccursAt(key: string, text: string, i: int) {
    0 <= i <= |text| - |key| && text[i..i + |key|] == key
  }

  /** `key in text` on Python strings: `key` occurs as a contiguous piece of `text`. */
  predicate IsSubstring(key: string, text: string)
    ensures IsSubstring(key, text) ==> |key| <= |text|
    ensures key == [] ==> IsSubstring(key, text)
  {
    assert key == [] ==> OccursAt(key, text, 0);
    exists i | 0 <= i <= |text| - |key| :: OccursAt(key, text, i)
  }

  /**
   * `s.replace(k, v)`: every occurrence of `k`, found left to right without
   * overlap, is replaced by `v`.
   */
  function Replace(s: string, k: string, v: string): (r: string)
    requires |k| > 0
    ensures forall i :: 0 <= i < |r| ==> r[i] in s || r[i] in v
    ensures !IsSubstring(k, s) ==> r == s
    ensures IsSubstring(k, s) ==> IsSubstring(v, r)
    decreases |s|
  {
    if |s| < |k| then s
    else if s[..|k|] == k then
      var rest := Replace(s[|k|..], k, v);
      assert forall c :: c in s[|k|..] ==> c in s;
      assert OccursAt(k, s, 0);
      SubstringOfPrefix(v, rest);
      v + rest
    else
      var rest := Replace(s[1..], k, v);
      assert forall c :: c in s[1..] ==> c in s;
      SubstringShift(k, s);
      SubstringShift(v, [s[0]] + rest);
      assert ([s[0]] + rest)[1..] == rest;
      assert s == [s[0]] + s[1..];
      [s[0]] + rest
  }

  /** An occurrence in the tail is one in the whole, and one past the head is one in the tail. */
  lemma SubstringShift(k: string, s: string)
    requires s != []
    ensures IsSubstring(k, s[1..]) ==> IsSubstring(k, s)
    ensures IsSubstring(k, s) && !OccursAt(k, s, 0) ==> IsSubstring(k, s[1..])
  {
    if IsSubstring(k, s[1..]) {
      var i :| 0 <= i <= |s[1..]| - |k| && OccursAt(k, s[1..], i);
      assert s[i + 1..i + 1 + |k|] == s[1..][i..i + |k|];
      assert OccursAt(k, s, i + 1);
    }
    if IsSubstring(k, s) && !OccursAt(k, s, 0) {
      var i :| 0 <= i <= |s| - |k| && OccursAt(k, s, i);
      assert s[1..][i - 1..i - 1 + |k|] == s[i..i + |k|];
      assert OccursAt(k, s[1..], i - 1);
    }
  }

  lemma SubstringOfPrefix(v: string, t: string)
    ensures IsSubstring(v, v + t)
  {
    assert (v + t)[0..|v|] == v;
    assert OccursAt(v, v + t, 0);
  }

  /** The characters of `s` that are not whitespace, in order. */
  function NonSpace(s: string): string
    decreases |s|
  {
    if s == [] then [] else (if IsSpace(s[0]) then [] else [s[0]]) + NonSpace(s[1..])
  }

  /** `s.split()`: the maximal runs of characters that are not whitespace, in order. */
  function Words(s: string): (w: seq<string>)
    ensures s != [] && !IsSpace(s[0]) ==> |w| > 0
    decreases |s|
  {
    if s == [] then []
    else if IsSpace(s[0]) then Words(s[1..])
    else if |s| == 1 || IsSpace(s[1]) then [[s[0]]] + Words(s[1..])
    else
      var rest := Words(s[1..]);
      [[s[0]] + rest[0]] + rest[1..]
  }

  /** Every whitespace character of `s` is a blank. */
  predicate OnlyBlanks(s: string) {
    forall i :: 0 <= i < |s| && IsSpace(s[i]) ==> s[i] == ' '
  }

  /**
   * `re.sub(r"\s+", " ", s)`: each maximal run of whitespace becomes one
   * blank. The words of `s` are kept, in order; the characters that are not
   * whitespace are kept, in order; no two whitespace characters are left side
   * by side; and the result starts and ends with whitespace exactly when `s`
   * does. Together these fix the result.
   */
  function CollapseSpaces(s: string): (r: string)
    ensures (r == []) == (s == [])
    ensures r != [] ==> IsSpace(r[0]) == IsSpace(s[0])
    ensures r != [] ==> IsSpace(r[|r| - 1]) == IsSpace(s[|s| - 1])
    ensures NoDoubleSpace(r)
    ensures NonSpace(r) == NonSpace(s)
    ensures Words(r) == Words(s)
    ensures OnlyBlanks(r)
    decreases |s|
  {
    if s == [] then []
    else if IsSpace(s[0]) then
      var rest := CollapseSpaces(TrimLeft(s[1..]));
      CollapseStep(s, TrimLeft(s[1..]), ' ', rest);
      [' '] + rest
    else
      var rest := CollapseSpaces(s[1..]);
      CollapseStep(s, s[1..], s[0], rest);
      [s[0]] + rest
  }

  /** One step of `CollapseSpaces`: putting `c` in front of the collapsed tail keeps every property. */
  lemma CollapseStep(s: string, tail: string, c: char, rest: string)
    requires s != [] && tail == (if IsSpace(s[0]) then TrimLeft(s[1..]) else s[1..])
    requires c == (if IsSpace(s[0]) then ' ' else s[0])
    requires (rest == []) == (tail == [])
    requires rest != [] ==> IsSpace(rest[0]) == IsSpace(tail[0])
    requires rest != [] ==> IsSpace(rest[|rest| - 1]) == IsSpace(tail[|tail| - 1])
    requires NoDoubleSpace(rest) && NonSpace(rest) == NonSpace(tail) && OnlyBlanks(rest)
    requires Words(rest) == Words(tail)
    ensures var r := [c] + rest;
            IsSpace(r[0]) == IsSpace(s[0]) && IsSpace(r[|r| - 1]) == IsSpace(s[|s| - 1])
            && NoDoubleSpace(r) && NonSpace(r) == NonSpace(s) && OnlyBlanks(r)
            && Words(r) == Words(s)
  {
    CollapseCons(s, tail, c, rest);
    WordsCons(s, tail, c, rest);
  }

  lemma CollapseCons(s: string, tail: string, c: char, rest: string)
    requires s != [] && tail == (if IsSpace(s[0]) then TrimLeft(s[1..]) else s[1..])
    requires c == (if IsSpace(s[0]) then ' ' else s[0])
    requires (rest == []) == (tail == [])
    requires rest != [] ==> IsSpace(rest[0]) == IsSpace(tail[0])
    requires rest != [] ==> IsSpace(rest[|rest| - 1]) == IsSpace(tail[|tail| - 1])
    requires NoDoubleSpace(rest) && NonSpace(rest) == NonSpace(tail) && OnlyBlanks(rest)
    ensures var r := [c] + rest;
            IsSpace(r[0]) == IsSpace(s[0]) && IsSpace(r[|r| - 1]) == IsSpace(s[|s| - 1])
            && NoDoubleSpace(r) && NonSpace(r) == NonSpace(s) && OnlyBlanks(r)
  {
    var r := [c] + rest;
    assert r[1..] == rest;
    assert NonSpace(s) == (if IsSpace(s[0]) then [] else [s[0]]) + NonSpace(s[1..]);
    if IsSpace(s[0]) {
      NonSpaceTrimLeft(s[1..]);
      if rest != [] {
        assert !IsSpace(tail[0]);
      }
    }
    NoDoubleSpaceCons(c, rest);
    forall i | 0 <= i < |r| && IsSpace(r[i]) ensures r[i] == ' ' {
      if i > 0 {
        assert r[i] == rest[i - 1];
      }
    }
    if rest == [] {
      if IsSpace(s[0]) {
        assert IsSpace(s[|s| - 1]) by {
          if |s| > 1 {
            assert s[|s| - 1] == s[1..][|s| - 2];
          }
        }
      } else {
        assert s[1..] == [];
      }
    } else {
      assert r[|r| - 1] == rest[|rest| - 1];
      assert tail[|tail| - 1] == s[|s| - 1];
    }
  }

  /** One character in front of a string without double whitespace keeps it so, unless both are whitespace. */
  lemma NoDoubleSpaceCons(c: char, r: string)
    requires NoDoubleSpace(r) && (r != [] && IsSpace(c) ==> !IsSpace(r[0]))
    ensures NoDoubleSpace([c] + r)
  {
    var t := [c] + r;
    forall i | 0 <= i < |t| - 1 ensures !(IsSpace(t[i]) && IsSpace(t[i + 1])) {
      if i > 0 {
        assert t[i] == r[i - 1] && t[i + 1] == r[i];
      }
    }
  }

  /** One step of `CollapseSpaces` keeps the words: `rest` has the words of `tail`, so `[c] + rest` has those of `s`. */
  lemma WordsCons(s: string, tail: string, c: char, rest: string)
    requires s != [] && tail == (if IsSpace(s[0]) then TrimLeft(s[1..]) else s[1..])
    requires c == (if IsSpace(s[0]) then ' ' else s[0])
    requires (rest == []) == (tail == [])
    requires rest != [] ==> IsSpace(rest[0]) == IsSpace(tail[0])
    requires Words(rest) == Words(tail)
    ensures Words([c] + rest) == Words(s)
  {
    var r := [c] + rest;
    assert r[1..] == rest;
    if IsSpace(s[0]) {
      WordsTrimLeft(s[1..]);
    } else if rest != [] {
      assert r[1] == rest[0] && s[1] == tail[0];
    }
  }

  /** Leading whitespace holds no word. */
  lemma {:induction false} WordsTrimLeft(s: string)
    ensures Words(TrimLeft(s)) == Words(s)
    decreases |s|
  {
    if s != [] && IsSpace(s[0]) {
      WordsTrimLeft(s[1..]);
    }
  }

  /** Leading whitespace holds no character `NonSpace` keeps. */
  lemma {:induction false} NonSpaceTrimLeft(s: string)
    ensures NonSpace(TrimLeft(s)) == NonSpace(s)
    decreases |s|
  {
    if s != [] && IsSpace(s[0]) {
      NonSpaceTrimLeft(s[1..]);
    }
  }

  /**
   * `replace` scans left to right: the text before the first occurrence of
   * `k` is kept, that occurrence becomes `v`, and the scan goes on after it.
   */
  lemma ReplaceLeftmost(s: string, k: string, v: string, i: nat)
    requires |k| > 0 && OccursAt(k, s, i)
    requires forall j :: 0 <= j < i ==> !OccursAt(k, s, j)
    ensures Replace(s, k, v) == s[..i] + v + Replace(s[i + |k|..], k, v)
  {
    var p, rest := s[..i], s[i..];
    NoOccurrenceInPrefix(s, k, i);
    ReplaceSkipsPrefix(p, rest, k, v);
    ReplaceAtStart(s, rest, k, v, i);
    JoinSplit(p, v, Replace(rest, k, v), Replace(s[i + |k|..], k, v), Replace(s, k, v));
  }

  /** Regrouping the kept prefix, `v` and the rest. */
  lemma JoinSplit(p: string, v: string, tail: string, after: string, whole: string)
    requires whole == p + tail && tail == v + after
    ensures whole == p + v + after
  {
  }

  /** Splitting `s` at `i` keeps the occurrences that start before `i`. */
  lemma NoOccurrenceInPrefix(s: string, k: string, i: nat)
    requires i <= |s|
    requires forall j :: 0 <= j < i ==> !OccursAt(k, s, j)
    ensures s[..i] + s[i..] == s
    ensures forall j :: 0 <= j < |s[..i]| ==> !OccursAt(k, s[..i] + s[i..], j)
  {
    assert s[..i] + s[i..] == s;
  }

  /** An occurrence at `i` is replaced at the head of `s[i..]`. */
  lemma ReplaceAtStart(s: string, rest: string, k: string, v: string, i: nat)
    requires |k| > 0 && OccursAt(k, s, i) && rest == s[i..]
    ensures Replace(rest, k, v) == v + Replace(s[i + |k|..], k, v)
  {
    assert rest[..|k|] == s[i..i + |k|];
    assert rest[|k|..] == s[i + |k|..];
  }

  /** A prefix in which no occurrence of `k` starts comes through `replace` unchanged. */
  lemma {:induction false} ReplaceSkipsPrefix(p: string, rest: string, k: string, v: string)
    requires |k| > 0
    requires forall j :: 0 <= j < |p| ==> !OccursAt(k, p + rest, j)
    ensures Replace(p + rest, k, v) == p + Replace(rest, k, v)
    decreases |p|
  {
    if p != [] {
      var s, t := p + rest, p[1..] + rest;
      NoOccurrenceInTail(p, rest, k);
      assert s[1..] == t;
      ReplaceKeepsHead(s, k, v);
      ReplaceSkipsPrefix(p[1..], rest, k, v);
      ConsOntoSplit(p, Replace(rest, k, v), Replace(s, k, v), Replace(t, k, v));
    } else {
      assert p + rest == rest;
    }
  }

  /** Dropping the head of the prefix shifts the occurrence positions down by one. */
  lemma NoOccurrenceInTail(p: string, rest: string, k: string)
    requires p != []
    requires forall j :: 0 <= j < |p| ==> !OccursAt(k, p + rest, j)
    ensures !OccursAt(k, p + rest, 0)
    ensures forall j :: 0 <= j < |p[1..]| ==> !OccursAt(k, p[1..] + rest, j)
  {
    var s, t := p + rest, p[1..] + rest;
    forall j | 0 <= j < |p[1..]| ensures !OccursAt(k, t, j) {
      assert !OccursAt(k, s, j + 1);
      if j + |k| <= |t| {
        assert t[j..j + |k|] == s[j + 1..j + 1 + |k|];
      }
    }
  }

  /** Putting the head back in front of the tail's result gives the whole result. */
  lemma ConsOntoSplit(p: string, after: string, whole: string, tail: string)
    requires p != [] && whole == [p[0]] + tail && tail == p[1..] + after
    ensures whole == p + after
  {
    assert p == [p[0]] + p[1..];
  }

  /** Where `k` does not start `s`, `replace` keeps the first character. */
  lemma ReplaceKeepsHead(s: string, k: string, v: string)
    requires |k| > 0 && s != [] && !OccursAt(k, s, 0)
    ensures Replace(s, k, v) == [s[0]] + Replace(s[1..], k, v)
  {
    if |s| >= |k| {
      assert s[..|k|] != k;
    }
  }

  /** Replacing a key by itself changes nothing. */
  lemma {:induction false} ReplaceBySelf(s: string, k: string)
    requires |k| > 0
    ensures Replace(s, k, k) == s
    decreases |s|
  {
    if |s| < |k| {
    } else if s[..|k|] == k {
      ReplaceBySelf(s[|k|..], k);
      assert s == s[..|k|] + s[|k|..];
    } else {
      ReplaceBySelf(s[1..], k);
      assert s == [s[0]] + s[1..];
    }
  }

  /** A key holding an upper-case letter never occurs in a text without one. */
  lemma UpperKeyNotInLowerText(key: string, text: string)
    requires HasUpper(key) && NoUpper(text)
    ensures !IsSubstring(key, text)
  {
    var j :| 0 <= j < |key| && IsUpper(key[j]);
    forall i | 0 <= i <= |text| - |key| ensures !OccursAt(key, text, i) {
      assert text[i..i + |key|][j] == text[i + j];
    }
  }

  /** Lower-casing twice is lower-casing once. */
  lemma LowerIdempotent(s: string)
    ensures Lower(Lower(s)) == Lower(s)
  {
  }

  /** Lower-casing keeps whitespace, so a whitespace-only string is unchanged. */
  lemma LowerOfSpace(s: string)
    requires AllSpace(s)
    ensures Lower(s) == s
  {
  }

  /** Lower-casing distributes over concatenation. */
  lemma LowerConcat(a: string, b: string)
    ensures Lower(a + b) == Lower(a) + Lower(b)
  {
  }

  lemma {:induction false} TrimLeftOfSpacePrefix(p: string, s: string)
    requires AllSpace(p)
    ensures TrimLeft(p + s) == TrimLeft(s)
    decreases |p|
  {
    if p != [] {
      assert (p + s)[1..] == p[1..] + s;
      TrimLeftOfSpacePrefix(p[1..], s);
    } else {
      assert p + s == s;
    }
  }

  lemma {:induction false} TrimRightOfSpaceSuffix(s: string, p: string)
    requires AllSpace(p)
    ensures TrimRight(s + p) == TrimRight(s)
    decreases |p|
  {
    if p != [] {
      var n := |p| - 1;
      assert (s + p)[..|s + p| - 1] == s + p[..n];
      TrimRightOfSpaceSuffix(s, p[..n]);
    } else {
      assert s + p == s;
    }
  }

  /** Whitespace added around a string does not survive `strip`. */
  lemma StripOfPadded(p: string, s: string, q: string)
    requires AllSpace(p) && AllSpace(q)
    ensures Strip(p + s + q) == Strip(s)
  {
    assert p + s + q == p + (s + q);
    TrimLeftOfSpacePrefix(p, s + q);
    TrimLeftOfSpaceSuffix(s, q);
    var l := TrimLeft(s);
    if l == [] {
      TrimLeftOfSpacePrefix(s, q);
      assert TrimLeft(s + q) == TrimLeft(q);
      assert TrimLeft(q) == [];
    } else {
      TrimRightOfSpaceSuffix(l, q);
    }
  }

  /** Trailing whitespace is kept by `lstrip` unless everything is whitespace. */
  lemma {:induction false} TrimLeftOfSpaceSuffix(s: string, q: string)
    requires AllSpace(q)
    ensures TrimLeft(s) != [] ==> TrimLeft(s + q) == TrimLeft(s) + q
    ensures TrimLeft(s) == [] ==> AllSpace(s)
    decreases |s|
  {
    if s == [] {
    } else if IsSpace(s[0]) {
      assert (s + q)[0] == s[0];
      assert (s + q)[1..] == s[1..] + q;
      TrimLeftOfSpaceSuffix(s[1..], q);
      if TrimLeft(s) == [] {
        forall i | 0 <= i < |s| ensures IsSpace(s[i]) {
          if i > 0 {
            assert s[i] == s[1..][i - 1];
          }
        }
      }
    } else {
      assert (s + q)[0] == s[0];
    }
  }

  /** What `strip` leaves has no upper-case letter if the input had none. */
  lemma StripPreservesNoUpper(s: string)
    requires NoUpper(s)
    ensures NoUpper(Strip(s))
  {
    var l := TrimLeft(s);
    assert NoUpper(l) by {
      forall i | 0 <= i < |l| ensures !IsUpper(l[i]) {
        assert l[i] == s[|s| - |l| + i];
      }
    }
    var r := TrimRight(l);
    forall i | 0 <= i < |r| ensures !IsUpper(r[i]) {
      assert r[i] == l[i];
    }
  }

  /** `strip` of a duplicate `strip` changes nothing. */
  lemma StripIdempotent(s: string)
    ensures Strip(Strip(s)) == Strip(s)
  {
    var r := Strip(s);
    if r != [] {
      assert TrimLeft(r) == r;
      assert TrimRight(r) == r;
    }
  }
}
