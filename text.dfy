/** String operations of Python and JavaScript that the orchestrators and the
    message display rely on, written out over `seq<char>`. */
module Text {

  /** `s.startswith(prefix)` (Python), `s.startsWith(prefix)` (JavaScript). */
  predicate StartsWith(s: string, prefix: string) {
    |prefix| <= |s| && s[..|prefix|] == prefix
  }

  /** `sub` occurs in `s` starting at index `i`. */
  predicate OccursAt(s: string, sub: string, i: int) {
    0 <= i && i + |sub| <= |s| && s[i..i + |sub|] == sub
  }

  /** `sub in s` (Python), `s.includes(sub)` (JavaScript): a substring test,
      not a whole-word test. */
  predicate Contains(s: string, sub: string) {
    exists i :: 0 <= i <= |s| && OccursAt(s, sub, i)
  }

  /** A substring of `s[lo..hi]` is a substring of `s`. */
  lemma ContainsInSlice(s: string, lo: nat, hi: nat, sub: string)
    requires lo <= hi <= |s|
    requires Contains(s[lo..hi], sub)
    ensures Contains(s, sub)
  {
    var i :| 0 <= i <= hi - lo && OccursAt(s[lo..hi], sub, i);
    forall k | 0 <= k < |sub| ensures s[lo + i + k] == sub[k] {
      assert s[lo..hi][i..i + |sub|][k] == sub[k];
    }
    assert s[lo + i..lo + i + |sub|] == sub;
    assert OccursAt(s, sub, lo + i);
  }

  // ---------------------------------------------------------------------
  // Splitting on one separator character and joining with a separator.
  // ---------------------------------------------------------------------

  /** `s.split(sep)` for a one-character separator, in both Python and
      JavaScript: empty fields are kept and the empty string gives `[""]`. */
  function Split(s: string, sep: char): (fields: seq<string>)
    ensures |fields| >= 1
  {
    if |s| == 0 then [""]
    else
      var rest := Split(s[1..], sep);
      if s[0] == sep then [""] + rest else [[s[0]] + rest[0]] + rest[1..]
  }

  /** `sep.join(parts)` (Python), `parts.join(sep)` (JavaScript). */
  function Join(parts: seq<string>, sep: string): string {
    if |parts| == 0 then ""
    else if |parts| == 1 then parts[0]
    else parts[0] + sep + Join(parts[1..], sep)
  }

  /** Joining at least two parts puts the first part, then a separator, then
      the join of the rest. */
  lemma JoinCons(parts: seq<string>, sep: string)
    requires |parts| >= 2
    ensures Join(parts, sep) == parts[0] + (sep + Join(parts[1..], sep))
  {
  }

  /** Joining with one more part at the end appends a separator and the part. */
  lemma {:induction false} JoinSnoc(parts: seq<string>, last: string, sep: string)
    requires |parts| >= 1
    ensures Join(parts + [last], sep) == Join(parts, sep) + sep + last
    ensures Join(parts + [last], sep) == Join(parts, sep) + (sep + last)
  {
    var whole := parts + [last];
    if |parts| == 1 {
      assert whole[1..] == [last];
    } else {
      assert whole[1..] == parts[1..] + [last];
      JoinSnoc(parts[1..], last, sep);
    }
  }

  /** No field produced by `Split` contains the separator. */
  lemma {:induction false} SplitFieldsLackSeparator(s: string, sep: char)
    ensures forall i :: 0 <= i < |Split(s, sep)| ==> sep !in Split(s, sep)[i]
  {
    if |s| > 0 {
      SplitFieldsLackSeparator(s[1..], sep);
    }
  }

  /** Joining the fields of a split with the same separator gives the string
      back. */
  lemma {:induction false} JoinSplit(s: string, sep: char)
    ensures Join(Split(s, sep), [sep]) == s
  {
    if |s| > 0 {
      JoinSplit(s[1..], sep);
      var rest := Split(s[1..], sep);
      if s[0] == sep {
        assert Split(s, sep) == [""] + rest;
        assert ([""] + rest)[1..] == rest;
      } else {
        var fields := [[s[0]] + rest[0]] + rest[1..];
        assert Split(s, sep) == fields;
        if |rest| == 1 {
          assert Join(rest, [sep]) == rest[0];
        } else {
          assert fields[1..] == rest[1..];
          assert Join(rest, [sep]) == rest[0] + [sep] + Join(rest[1..], [sep]);
        }
        assert s == [s[0]] + s[1..];
      }
    }
  }

  /** A separator placed after a separator-free prefix starts a new field. */
  lemma {:induction false} SplitAfterField(a: string, b: string, sep: char)
    requires sep !in a
    ensures Split(a + [sep] + b, sep) == [a] + Split(b, sep)
  {
    if |a| == 0 {
      assert a + [sep] + b == [sep] + b;
      assert ([sep] + b)[1..] == b;
    } else {
      var t := a + [sep] + b;
      assert t[1..] == a[1..] + [sep] + b;
      SplitAfterField(a[1..], b, sep);
      assert [a[0]] + a[1..] == a;
    }
  }

  /** Splitting a string with a known first character: a separator opens a
      new empty field, any other character joins the first field. */
  lemma SplitCons(c: char, s: string, sep: char)
    ensures Split([c] + s, sep) ==
      if c == sep then [""] + Split(s, sep) else [[c] + Split(s, sep)[0]] + Split(s, sep)[1..]
  {
    assert ([c] + s)[1..] == s;
  }

  /** The fields `SplitCons` builds from `left + right` are those it builds
      from `left`, followed by `right`. */
  lemma ConsFieldsAppend(c: char, left: seq<string>, right: seq<string>, sep: char)
    requires |left| >= 1
    ensures (if c == sep then [""] + (left + right) else [[c] + (left + right)[0]] + (left + right)[1..])
      == (if c == sep then [""] + left else [[c] + left[0]] + left[1..]) + right
  {
    if c != sep {
      assert (left + right)[0] == left[0];
      assert (left + right)[1..] == left[1..] + right;
    }
  }

  /** Splitting at a separator splits the two sides independently: the last
      field of the left side and the first field of the right side stay
      apart. */
  lemma {:induction false} SplitConcat(a: string, b: string, sep: char)
    ensures Split(a + [sep] + b, sep) == Split(a, sep) + Split(b, sep)
  {
    if |a| == 0 {
      assert a + [sep] + b == [sep] + b;
      SplitCons(sep, b, sep);
    } else {
      var c := a[0];
      var tail := a[1..] + [sep] + b;
      assert a + [sep] + b == [c] + tail;
      assert a == [c] + a[1..];
      SplitConcat(a[1..], b, sep);
      SplitCons(c, tail, sep);
      SplitCons(c, a[1..], sep);
      ConsFieldsAppend(c, Split(a[1..], sep), Split(b, sep), sep);
    }
  }

  /** A string without the separator is a single field. */
  lemma {:induction false} SplitNoSeparator(s: string, sep: char)
    requires sep !in s
    ensures Split(s, sep) == [s]
  {
    if |s| > 0 {
      SplitNoSeparator(s[1..], sep);
      assert [s[0]] + s[1..] == s;
    }
  }

  /** Every character of a field occurs in the string that was split. */
  lemma {:induction false} SplitFieldsWithin(s: string, sep: char)
    ensures forall i, c :: 0 <= i < |Split(s, sep)| && c in Split(s, sep)[i] ==> c in s
  {
    if |s| > 0 {
      SplitFieldsWithin(s[1..], sep);
      assert forall c :: c in s[1..] ==> c in s;
    }
  }

  /** Splitting what `Join` built gives the parts back, provided there is at
      least one part and no part contains the separator. */
  lemma {:induction false} SplitJoin(parts: seq<string>, sep: char)
    requires |parts| >= 1
    requires forall i :: 0 <= i < |parts| ==> sep !in parts[i]
    ensures Split(Join(parts, [sep]), sep) == parts
  {
    if |parts| == 1 {
      SplitNoSeparator(parts[0], sep);
    } else {
      SplitJoin(parts[1..], sep);
      SplitAfterField(parts[0], Join(parts[1..], [sep]), sep);
      assert [parts[0]] + parts[1..] == parts;
    }
  }

  /** An occurrence of a separator-free string in a join lies inside one part. */
  lemma {:induction false} ContainsInJoin(parts: seq<string>, sep: char, sub: string)
    requires sep !in sub && |sub| > 0
    requires Contains(Join(parts, [sep]), sub)
    ensures exists k :: 0 <= k < |parts| && Contains(parts[k], sub)
  {
    if |parts| == 1 {
      assert Contains(parts[0], sub);
    } else if |parts| > 1 {
      var rest := Join(parts[1..], [sep]);
      var whole := parts[0] + [sep] + rest;
      assert Join(parts, [sep]) == whole;
      var i :| 0 <= i <= |whole| && OccursAt(whole, sub, i);
      if i + |sub| <= |parts[0]| {
        assert whole[i..i + |sub|] == parts[0][i..i + |sub|];
        assert OccursAt(parts[0], sub, i);
        assert Contains(parts[0], sub);
        assert 0 <= 0 < |parts| && Contains(parts[0], sub);
      } else if i > |parts[0]| {
        var j := i - |parts[0]| - 1;
        assert whole[i..i + |sub|] == rest[j..j + |sub|];
        assert OccursAt(rest, sub, j);
        ContainsInJoin(parts[1..], sep, sub);
        var k :| 0 <= k < |parts[1..]| && Contains(parts[1..][k], sub);
        assert Contains(parts[k + 1], sub);
        assert 0 <= k + 1 < |parts| && Contains(parts[k + 1], sub);
      } else {
        // the occurrence would cover the separator at index |parts[0]|
        OccurrenceCovers(whole, sub, i, |parts[0]|);
        assert false;
      }
    }
  }

  /** A join of parts none of which contains a separator-free `sub` does not
      contain it either. */
  lemma JoinAvoidsSubstring(parts: seq<string>, sep: char, sub: string)
    requires sep !in sub && |sub| > 0
    requires forall k :: 0 <= k < |parts| ==> !Contains(parts[k], sub)
    ensures !Contains(Join(parts, [sep]), sub)
  {
    if Contains(Join(parts, [sep]), sub) {
      ContainsInJoin(parts, sep, sub);
      assert false;
    }
  }

  /** Each character of an occurrence is the character of `s` it covers. */
  lemma OccurrenceCovers(s: string, sub: string, i: int, p: int)
    requires OccursAt(s, sub, i) && i <= p < i + |sub|
    ensures sub[p - i] == s[p]
  {
    assert s[i..i + |sub|][p - i] == s[p];
  }

  /** A join of parts that avoid a character avoids it too, when the separator
      is not that character. */
  lemma {:induction false} JoinAvoids(parts: seq<string>, sep: string, c: char)
    requires c !in sep
    requires forall i :: 0 <= i < |parts| ==> c !in parts[i]
    ensures c !in Join(parts, sep)
  {
    if |parts| > 1 {
      JoinAvoids(parts[1..], sep, c);
    }
  }

  // ---------------------------------------------------------------------
  // Filtering, as list comprehensions and `Array.prototype.filter` do.
  // ---------------------------------------------------------------------

  /** The elements of `xs` that satisfy `keep`, in their original order. */
  function Filter<T>(xs: seq<T>, keep: T -> bool): (kept: seq<T>)
    ensures |kept| <= |xs|
    ensures forall i :: 0 <= i < |kept| ==> keep(kept[i]) && kept[i] in xs
  {
    if |xs| == 0 then []
    else (if keep(xs[0]) then [xs[0]] else []) + Filter(xs[1..], keep)
  }

  /** Filtering distributes over concatenation: together with the one-element
      case this says the kept elements keep their relative order. */
  lemma {:induction false} FilterAppend<T>(a: seq<T>, b: seq<T>, keep: T -> bool)
    ensures Filter(a + b, keep) == Filter(a, keep) + Filter(b, keep)
  {
    if |a| == 0 {
      assert a + b == b;
    } else {
      assert (a + b)[1..] == a[1..] + b;
      FilterAppend(a[1..], b, keep);
    }
  }

  /** Every element that satisfies `keep` survives the filter. */
  lemma {:induction false} FilterKeepsSatisfying<T>(xs: seq<T>, keep: T -> bool, i: nat)
    requires i < |xs| && keep(xs[i])
    ensures xs[i] in Filter(xs, keep)
  {
    if i > 0 {
      FilterKeepsSatisfying(xs[1..], keep, i - 1);
    }
  }

  /** Every element of `xs` satisfies `p`. */
  predicate All<T>(xs: seq<T>, p: T -> bool) {
    forall i :: 0 <= i < |xs| ==> p(xs[i])
  }

  lemma AllAppend<T>(a: seq<T>, b: seq<T>, p: T -> bool)
    requires All(a, p) && All(b, p)
    ensures All(a + b, p)
  {
    forall i | 0 <= i < |a + b|
      ensures p((a + b)[i])
    {
      if i < |a| {
        assert (a + b)[i] == a[i];
      } else {
        assert (a + b)[i] == b[i - |a|];
      }
    }
  }

  lemma AllSlice<T>(xs: seq<T>, lo: nat, hi: nat, p: T -> bool)
    requires All(xs, p) && lo <= hi <= |xs|
    ensures All(xs[lo..hi], p)
  {
    forall i | 0 <= i < hi - lo
      ensures p(xs[lo..hi][i])
    {
      assert xs[lo..hi][i] == xs[lo + i];
    }
  }

  /** Filtering a sequence whose elements all satisfy `keep` changes nothing. */
  lemma {:induction false} FilterAllKept<T>(xs: seq<T>, keep: T -> bool)
    requires forall i :: 0 <= i < |xs| ==> keep(xs[i])
    ensures Filter(xs, keep) == xs
  {
    if |xs| > 0 {
      FilterAllKept(xs[1..], keep);
      assert [xs[0]] + xs[1..] == xs;
    }
  }

  // ---------------------------------------------------------------------
  // Whitespace and trimming.
  // ---------------------------------------------------------------------

  /** Python's `str.isspace()` for one character: the characters that
      `str.strip()` and `str.split()` without arguments treat as whitespace. */
  predicate IsPythonSpace(c: char) {
    c == ' ' || '\t' <= c <= '\r' || '\U{1C}' <= c <= '\U{1F}' || c == '\U{85}' || c == '\U{A0}'
    || c == '\U{1680}' || '\U{2000}' <= c <= '\U{200A}' || c == '\U{2028}' || c == '\U{2029}'
    || c == '\U{202F}' || c == '\U{205F}' || c == '\U{3000}'
  }

  /** The characters JavaScript's `String.prototype.trim` removes: white space
      and line terminators. */
  predicate IsJsSpace(c: char) {
    c == ' ' || '\t' <= c <= '\r' || c == '\U{A0}' || c == '\U{1680}' || '\U{2000}' <= c <= '\U{200A}'
    || c == '\U{2028}' || c == '\U{2029}' || c == '\U{202F}' || c == '\U{205F}' || c == '\U{3000}'
    || c == '\U{FEFF}'
  }

  /** Removes the leading characters that satisfy `space`. */
  function TrimStart(s: string, space: char -> bool): (r: string)
    ensures |r| <= |s| && r == s[|s| - |r|..]
    ensures forall i :: 0 <= i < |s| - |r| ==> space(s[i])
    ensures r == [] || !space(r[0])
  {
    if |s| > 0 && space(s[0]) then TrimStart(s[1..], space) else s
  }

  /** Removes the trailing characters that satisfy `space`. */
  function TrimEnd(s: string, space: char -> bool): (r: string)
    ensures |r| <= |s| && r == s[..|r|]
    ensures forall i :: |r| <= i < |s| ==> space(s[i])
    ensures r == [] || !space(r[|r| - 1])
  {
    if |s| > 0 && space(s[|s| - 1]) then TrimEnd(s[..|s| - 1], space) else s
  }

  /** Removes the characters that satisfy `space` at both ends. */
  function Trim(s: string, space: char -> bool): string {
    TrimEnd(TrimStart(s, space), space)
  }

  /** Python's `s.strip()`. */
  function PyStrip(s: string): string {
    Trim(s, IsPythonSpace)
  }

  /** JavaScript's `s.trim()`. */
  function JsTrim(s: string): string {
    Trim(s, IsJsSpace)
  }

  /** `TrimStart` removes exactly the leading run of spaces. */
  lemma {:induction false} TrimStartAt(s: string, space: char -> bool, a: nat)
    requires a <= |s| && (forall i :: 0 <= i < a ==> space(s[i]))
    requires a == |s| || !space(s[a])
    ensures TrimStart(s, space) == s[a..]
  {
    if a > 0 {
      TrimStartAt(s[1..], space, a - 1);
      assert s[1..][a - 1..] == s[a..];
    }
  }

  /** `TrimEnd` removes exactly the trailing run of spaces. */
  lemma {:induction false} TrimEndAt(s: string, space: char -> bool, b: nat)
    requires b <= |s| && (forall i :: b <= i < |s| ==> space(s[i]))
    requires b == 0 || !space(s[b - 1])
    ensures TrimEnd(s, space) == s[..b]
    decreases |s| - b
  {
    if b < |s| {
      var init := s[..|s| - 1];
      TrimEndAt(init, space, b);
      assert init[..b] == s[..b];
    } else {
      assert s[..b] == s;
    }
  }

  /** Cutting the trailing part off first leaves the leading run of spaces. */
  lemma TrimStartOfPrefix(s: string, space: char -> bool, a: nat, b: nat)
    requires a < b <= |s|
    requires forall i :: 0 <= i < a ==> space(s[i])
    requires !space(s[a])
    ensures TrimStart(s[..b], space) == s[a..b]
  {
    var p := s[..b];
    forall i | 0 <= i < a
      ensures space(p[i])
    {
      assert p[i] == s[i];
    }
    assert p[a] == s[a];
    TrimStartAt(p, space, a);
  }

  /** Cutting the leading part off first leaves the trailing run of spaces. */
  lemma TrimEndOfSuffix(s: string, space: char -> bool, a: nat, b: nat)
    requires a < b <= |s|
    requires forall i :: b <= i < |s| ==> space(s[i])
    requires !space(s[b - 1])
    ensures TrimEnd(s[a..], space) == s[a..b]
  {
    var q := s[a..];
    forall i | b - a <= i < |q|
      ensures space(q[i])
    {
      assert q[i] == s[a + i];
    }
    assert q[b - a - 1] == s[b - 1];
    TrimEndAt(q, space, b - a);
  }

  /** Between a leading and a trailing run of spaces, the two trims agree. */
  lemma TrimBothAt(s: string, space: char -> bool, a: nat, b: nat)
    requires a < b <= |s|
    requires forall i :: 0 <= i < a ==> space(s[i])
    requires forall i :: b <= i < |s| ==> space(s[i])
    requires !space(s[a]) && !space(s[b - 1])
    ensures TrimStart(s[..b], space) == TrimEnd(s[a..], space)
  {
    TrimStartOfPrefix(s, space, a, b);
    TrimEndOfSuffix(s, space, a, b);
  }

  /** Trimming the two ends can be done in either order. */
  lemma TrimEndsCommute(s: string, space: char -> bool)
    ensures TrimStart(TrimEnd(s, space), space) == TrimEnd(TrimStart(s, space), space)
  {
    var t := TrimStart(s, space);
    var e := TrimEnd(s, space);
    var a := |s| - |t|;
    var b := |e|;
    if a == |s| {
      assert e == [] by {
        TrimEndAt(s, space, 0);
      }
      assert t == [];
    } else {
      assert a < b && !space(s[a]) && !space(s[b - 1]) by {
        assert t[0] == s[a];
        assert e[b - 1] == s[b - 1];
      }
      TrimBothAt(s, space, a, b);
    }
  }

  /** Removing leading spaces first does not change the two-sided trim. */
  lemma TrimAfterTrimStart(s: string, space: char -> bool)
    ensures Trim(TrimStart(s, space), space) == Trim(s, space)
  {
    var t := TrimStart(s, space);
    assert t == [] || !space(t[0]);
    assert TrimStart(t, space) == t;
  }

  /** Removing trailing spaces first does not change the two-sided trim. */
  lemma TrimAfterTrimEnd(s: string, space: char -> bool)
    ensures Trim(TrimEnd(s, space), space) == Trim(s, space)
  {
    var t := TrimEnd(s, space);
    TrimEndsCommute(t, space);
    assert TrimEnd(t, space) == t;
    TrimEndsCommute(s, space);
    var u := TrimStart(t, space);
    assert u == TrimEnd(TrimStart(s, space), space);
    assert u == [] || !space(u[|u| - 1]);
    assert TrimEnd(u, space) == u;
  }

  /** A prefix made only of spaces disappears under `TrimStart`. */
  lemma {:induction false} TrimStartSkips(a: string, b: string, space: char -> bool)
    requires forall i :: 0 <= i < |a| ==> space(a[i])
    ensures TrimStart(a + b, space) == TrimStart(b, space)
  {
    if |a| > 0 {
      assert (a + b)[1..] == a[1..] + b;
      TrimStartSkips(a[1..], b, space);
    } else {
      assert a + b == b;
    }
  }

  /** When a prefix is not all spaces, `TrimStart` only touches that prefix. */
  lemma {:induction false} TrimStartStops(a: string, b: string, space: char -> bool)
    requires TrimStart(a, space) != []
    ensures TrimStart(a + b, space) == TrimStart(a, space) + b
  {
    if space(a[0]) {
      assert (a + b)[1..] == a[1..] + b;
      TrimStartStops(a[1..], b, space);
    }
  }

  /** A suffix made only of spaces disappears under `TrimEnd`. */
  lemma {:induction false} TrimEndSkips(a: string, b: string, space: char -> bool)
    requires forall i :: 0 <= i < |b| ==> space(b[i])
    ensures TrimEnd(a + b, space) == TrimEnd(a, space)
  {
    if |b| > 0 {
      assert (a + b)[..|a + b| - 1] == a + b[..|b| - 1];
      TrimEndSkips(a, b[..|b| - 1], space);
    } else {
      assert a + b == a;
    }
  }

  /** When a suffix is not all spaces, `TrimEnd` only touches that suffix. */
  lemma {:induction false} TrimEndStops(a: string, b: string, space: char -> bool)
    requires TrimEnd(b, space) != []
    ensures TrimEnd(a + b, space) == a + TrimEnd(b, space)
  {
    if space(b[|b| - 1]) {
      assert (a + b)[..|a + b| - 1] == a + b[..|b| - 1];
      TrimEndStops(a, b[..|b| - 1], space);
    }
  }

  /** Trimming is idempotent. */
  lemma TrimTwice(s: string, space: char -> bool)
    ensures Trim(Trim(s, space), space) == Trim(s, space)
  {
    var t := Trim(s, space);
    assert t == [] || (!space(t[0]) && !space(t[|t| - 1]));
    assert TrimStart(t, space) == t;
    assert TrimEnd(t, space) == t;
  }

  /** A trimmed string is a slice of the original. */
  lemma TrimIsSlice(s: string, space: char -> bool)
    ensures exists lo: nat, hi: nat :: lo <= hi <= |s| && Trim(s, space) == s[lo..hi]
  {
    var a := TrimStart(s, space);
    var b := TrimEnd(a, space);
    var lo := |s| - |a|;
    assert b == s[lo..lo + |b|];
  }

  // ---------------------------------------------------------------------
  // Case and words.
  // ---------------------------------------------------------------------

  /** The lower-case form of an ASCII capital letter; every other character is
      unchanged. */
  function LowerChar(c: char): char {
    if 'A' <= c <= 'Z' then (c as int + 32) as char else c
  }

  /** `s.lower()`, restricted to ASCII letters. */
  function Lower(s: string): (r: string)
    ensures |r| == |s|
  {
    seq(|s|, i requires 0 <= i < |s| => LowerChar(s[i]))
  }

  /** `c.isupper()`, restricted to ASCII letters. */
  predicate IsUpper(c: char) {
    'A' <= c <= 'Z'
  }

  /** The longest prefix of `s` without Python whitespace. */
  function WordPrefix(s: string): (w: string)
    ensures |w| <= |s| && w == s[..|w|]
    ensures forall i :: 0 <= i < |w| ==> !IsPythonSpace(w[i])
    ensures |w| < |s| ==> IsPythonSpace(s[|w|])
  {
    if |s| == 0 || IsPythonSpace(s[0]) then "" else [s[0]] + WordPrefix(s[1..])
  }

  /** `s.split()`: the maximal runs of non-whitespace characters, in order. */
  function Words(s: string): (words: seq<string>)
    ensures forall k :: 0 <= k < |words| ==> |words[k]| > 0
    ensures forall k, i :: 0 <= k < |words| && 0 <= i < |words[k]| ==> !IsPythonSpace(words[k][i])
    decreases |s|
  {
    if |s| == 0 then []
    else if IsPythonSpace(s[0]) then Words(s[1..])
    else
      var w := WordPrefix(s);
      [w] + Words(s[|w|..])
  }
}
