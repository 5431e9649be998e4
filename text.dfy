/**
 * The handful of Python `str` and `list` operations the modelled code relies on,
 * written out over `seq<char>`: `strip`, `lower`, `in`/`find`, `split`, `join`,
 * `startswith`, `count`, `replace`, `int()`, `str()` of an integer and the
 * slice `xs[-limit:]`, and the `name`, `parent` and `suffix` of a `pathlib`
 * path. Whitespace is Python's full `isspace` table; case and digits are
 * modelled over ASCII only.
 */
module Text {
  import opened Wrappers

  /** The characters `str.isspace()` accepts, which `strip()`, `split()` and `int()` skip. */
  predicate IsSpace(c: char) {
    ('\t' <= c <= '\r') || ('\U{001C}' <= c <= ' ') || c == '\U{0085}' || c == '\U{00A0}' || c == '\U{1680}'
    || ('\U{2000}' <= c <= '\U{200A}') || c == '\U{2028}' || c == '\U{2029}' || c == '\U{202F}'
    || c == '\U{205F}' || c == '\U{3000}'
  }

  function StripLeft(s: string): (r: string)
    ensures |r| <= |s| && r == s[|s| - |r|..]
    ensures r == [] || !IsSpace(r[0])
    ensures forall i :: 0 <= i < |s| - |r| ==> IsSpace(s[i])
  {
    if |s| > 0 && IsSpace(s[0]) then StripLeft(s[1..]) else s
  }

  function StripRight(s: string): (r: string)
    ensures |r| <= |s| && r == s[..|r|]
    ensures r == [] || !IsSpace(r[|r| - 1])
    ensures forall i :: |r| <= i < |s| ==> IsSpace(s[i])
  {
    if |s| > 0 && IsSpace(s[|s| - 1]) then StripRight(s[..|s| - 1]) else s
  }

  /** Python `s.strip()`: the longest infix with no whitespace at either end. */
  function Strip(s: string): (r: string)
    ensures |r| <= |s|
    ensures r == [] || (!IsSpace(r[0]) && !IsSpace(r[|r| - 1]))
  {
    StripRight(StripLeft(s))
  }

  /** A string with no whitespace at either end is its own strip. */
  lemma StripTrimmed(s: string)
    requires s == [] || (!IsSpace(s[0]) && !IsSpace(s[|s| - 1]))
    ensures Strip(s) == s
  {
  }

  function LowerChar(c: char): char {
    if 'A' <= c <= 'Z' then (c as int + 32) as char else c
  }

  /** Python `s.lower()` restricted to ASCII letters. */
  function Lower(s: string): (r: string)
    ensures |r| == |s|
  {
    seq(|s|, i requires 0 <= i < |s| => LowerChar(s[i]))
  }

  /** A string without upper-case ASCII letters is its own lower-case form. */
  lemma LowerUnchanged(s: string)
    requires forall i | 0 <= i < |s| :: !('A' <= s[i] <= 'Z')
    ensures Lower(s) == s
  {
    forall i | 0 <= i < |s|
      ensures Lower(s)[i] == s[i]
    {
    }
  }

  predicate OccursAt(s: string, t: string, i: int) {
    0 <= i && i + |t| <= |s| && s[i..i + |t|] == t
  }

  /** `s.find(t, from)`: the first position at or after `from` where `t` occurs, or -1. */
  function FindFrom(s: string, t: string, from: nat): (r: int)
    ensures r == -1 || (from <= r && OccursAt(s, t, r))
    ensures r == -1 ==> forall j :: from <= j ==> !OccursAt(s, t, j)
    ensures r >= 0 ==> forall j :: from <= j < r ==> !OccursAt(s, t, j)
    decreases |s| - from
  {
    if from + |t| > |s| then -1
    else if s[from..from + |t|] == t then from
    else FindFrom(s, t, from + 1)
  }

  /** Python `s.find(t)` (equivalently `s.index(t)` when `t in s`). */
  function Find(s: string, t: string): (r: int)
    ensures r == -1 <==> forall j :: !OccursAt(s, t, j)
    ensures r >= 0 ==> OccursAt(s, t, r) && forall j :: 0 <= j < r ==> !OccursAt(s, t, j)
  {
    FindFrom(s, t, 0)
  }

  /** Python `t in s`. */
  predicate Contains(s: string, t: string) {
    Find(s, t) >= 0
  }

  /** A string containing `t` contains everything `t` contains. */
  lemma ContainsTransitive(s: string, t: string, u: string)
    requires Contains(s, t) && Contains(t, u)
    ensures Contains(s, u)
  {
    var i := Find(s, t);
    var j := Find(t, u);
    assert OccursAt(s, t, i) && OccursAt(t, u, j);
    forall k | 0 <= k < |u|
      ensures s[i + j + k] == u[k]
    {
      assert s[i..i + |t|][j + k] == t[j + k];
      assert t[j..j + |u|][k] == u[k];
    }
    assert s[i + j..i + j + |u|] == u;
    assert OccursAt(s, u, i + j);
  }

  /** Every character of a contained string occurs in the containing one. */
  lemma ContainsChars(s: string, t: string, c: char)
    requires Contains(s, t) && c in t
    ensures c in s
  {
    var i := Find(s, t);
    var j :| 0 <= j < |t| && t[j] == c;
    assert s[i..i + |t|][j] == s[i + j];
  }

  predicate StartsWith(s: string, p: string) {
    |p| <= |s| && s[..|p|] == p
  }

  /** Python `sep.join(parts)`. */
  function Join(parts: seq<string>, sep: string): string {
    if |parts| == 0 then ""
    else if |parts| == 1 then parts[0]
    else parts[0] + sep + Join(parts[1..], sep)
  }

  /** Python `s.split(sep)` for a one-character separator. */
  function Split(s: string, sep: char): (r: seq<string>)
    ensures |r| >= 1
    ensures forall k :: 0 <= k < |r| ==> sep !in r[k]
    decreases |s|
  {
    var i := Find(s, [sep]);
    if i < 0 then
      CharAbsent(s, sep);
      [s]
    else
      SplitHead(s, sep, i);
      [s[..i]] + Split(s[i + 1..], sep)
  }

  lemma CharAbsent(s: string, sep: char)
    requires Find(s, [sep]) < 0
    ensures sep !in s
  {
    if sep in s {
      var j :| 0 <= j < |s| && s[j] == sep;
      assert s[j..j + 1] == [sep];
      assert OccursAt(s, [sep], j);
    }
  }

  lemma SplitHead(s: string, sep: char, i: int)
    requires i == Find(s, [sep]) && i >= 0
    ensures i < |s| && s[i] == sep && sep !in s[..i]
    ensures s[..i] + [sep] + s[i + 1..] == s
  {
    assert OccursAt(s, [sep], i);
    if sep in s[..i] {
      var j :| 0 <= j < i && s[..i][j] == sep;
      assert s[j..j + 1] == [sep];
      assert OccursAt(s, [sep], j);
    }
  }

  lemma SplitStep(s: string, sep: char, i: int)
    requires i == Find(s, [sep]) && i >= 0
    ensures i < |s| && Split(s, sep) == [s[..i]] + Split(s[i + 1..], sep)
  {
    SplitHead(s, sep, i);
  }

  /** Splitting on a character and joining on it again gives back the string. */
  lemma {:induction false} JoinSplit(s: string, sep: char)
    ensures Join(Split(s, sep), [sep]) == s
    decreases |s|
  {
    var i := Find(s, [sep]);
    if i >= 0 {
      SplitStep(s, sep, i);
      SplitHead(s, sep, i);
      var rest := Split(s[i + 1..], sep);
      JoinSplit(s[i + 1..], sep);
      assert Join([s[..i]] + rest, [sep]) == s[..i] + [sep] + Join(rest, [sep]) by {
        assert ([s[..i]] + rest)[1..] == rest;
      }
    }
  }

  /** Without the separator, `split` gives the whole string back as the only piece. */
  lemma SplitAbsent(s: string, sep: char)
    requires sep !in s
    ensures Split(s, sep) == [s]
  {
    var i := Find(s, [sep]);
    if i >= 0 {
      SplitHead(s, sep, i);
    }
  }

  /** Splitting at the first separator: the piece before it, then the split of the rest. */
  lemma SplitAround(x: string, sep: char, y: string)
    requires sep !in x
    ensures Split(x + [sep] + y, sep) == [x] + Split(y, sep)
  {
    var s := x + [sep] + y;
    var i := Find(s, [sep]);
    assert OccursAt(s, [sep], |x|) by { assert s[|x|..|x| + 1] == [sep]; }
    forall j | 0 <= j < |x|
      ensures !OccursAt(s, [sep], j)
    {
      assert s[j..j + 1][0] == x[j];
    }
    SplitStep(s, sep, i);
    assert s[..i] == x && s[i + 1..] == y;
  }

  /** `split` gives more than one piece exactly when the separator occurs. */
  lemma SplitPieces(s: string, sep: char)
    ensures |Split(s, sep)| > 1 <==> sep in s
  {
    var i := Find(s, [sep]);
    if i >= 0 {
      SplitHead(s, sep, i);
    } else {
      CharAbsent(s, sep);
    }
  }

  predicate EndsWith(s: string, suffix: string) {
    |suffix| <= |s| && s[|s| - |suffix|..] == suffix
  }

  /** A join of at least two parts ends with the last two joined by the separator. */
  lemma {:induction false} JoinSuffix(parts: seq<string>, sep: string)
    requires |parts| >= 2
    ensures EndsWith(Join(parts, sep), parts[|parts| - 2] + sep + parts[|parts| - 1])
  {
    if |parts| > 2 {
      JoinSuffix(parts[1..], sep);
      var rest := Join(parts[1..], sep);
      var suffix := parts[|parts| - 2] + sep + parts[|parts| - 1];
      assert Join(parts, sep) == parts[0] + sep + rest;
      assert (parts[0] + sep + rest)[|parts[0] + sep + rest| - |suffix|..] == rest[|rest| - |suffix|..];
    }
  }

  /** Python `s.split(sep, 1)` unpacked into two names: `None` when the separator is absent. */
  function SplitOnce(s: string, sep: char): (r: Option<(string, string)>)
    ensures r.None? <==> sep !in s
    ensures r.Some? ==> r.value.0 + [sep] + r.value.1 == s && sep !in r.value.0
  {
    var i := Find(s, [sep]);
    if i < 0 then
      CharAbsent(s, sep);
      None
    else
      SplitHead(s, sep, i);
      Some((s[..i], s[i + 1..]))
  }

  /** Python `s.count(t)`: non-overlapping occurrences scanned left to right; `len(s) + 1` for an empty `t`. */
  function Count(s: string, t: string): (r: nat)
    ensures r == 0 <==> !Contains(s, t)
    decreases |s|
  {
    if |t| == 0 then |s| + 1
    else
      var i := Find(s, t);
      if i < 0 then 0 else 1 + Count(s[i + |t|..], t)
  }

  /** Python `s.replace("", r)`: `r` before every character and at the end. */
  function ReplaceEmpty(s: string, r: string): string {
    if s == [] then r else r + [s[0]] + ReplaceEmpty(s[1..], r)
  }

  /** Python `s.replace(t, r)`: every non-overlapping occurrence, left to right. */
  function Replace(s: string, t: string, r: string): (out: string)
    ensures !Contains(s, t) ==> out == s
    decreases |s|
  {
    if |t| == 0 then ReplaceEmpty(s, r)
    else
      var i := Find(s, t);
      if i < 0 then s else s[..i] + r + Replace(s[i + |t|..], t, r)
  }

  /** Each replaced occurrence changes the length by `|r| - |t|`. */
  lemma ReplaceLength(s: string, t: string, r: string)
    ensures |Replace(s, t, r)| == |s| + Count(s, t) * (|r| - |t|)
  {
    if |t| == 0 {
      ReplaceEmptyLength(s, r);
    } else {
      ReplaceNonEmptyLength(s, t, r);
    }
  }

  lemma {:induction false} ReplaceNonEmptyLength(s: string, t: string, r: string)
    requires |t| > 0
    ensures |Replace(s, t, r)| == |s| + Count(s, t) * (|r| - |t|)
    decreases |s|
  {
    if Find(s, t) < 0 {
      assert Count(s, t) == 0 && Replace(s, t, r) == s;
    } else {
      CountStep(s, t);
      ReplaceStep(s, t, r);
      var rest := s[Find(s, t) + |t|..];
      ReplaceNonEmptyLength(rest, t, r);
      LengthStep(|Replace(s, t, r)|, |Replace(rest, t, r)|, Find(s, t), |s|, |rest|, |t|, |r|, Count(s, t), Count(rest, t));
    }
  }

  lemma CountStep(s: string, t: string)
    requires |t| > 0 && Find(s, t) >= 0
    ensures Find(s, t) + |t| <= |s|
    ensures Count(s, t) == 1 + Count(s[Find(s, t) + |t|..], t)
  {
  }

  lemma ReplaceStep(s: string, t: string, r: string)
    requires |t| > 0 && Find(s, t) >= 0
    ensures Find(s, t) + |t| <= |s|
    ensures |Replace(s, t, r)| == Find(s, t) + |r| + |Replace(s[Find(s, t) + |t|..], t, r)|
  {
  }

  lemma LengthStep(out: int, outRest: int, i: int, ls: int, lrest: int, lt: int, lr: int, a: int, c: int)
    requires out == i + lr + outRest && outRest == lrest + c * (lr - lt)
    requires ls == i + lt + lrest && a == 1 + c
    ensures out == ls + a * (lr - lt)
  {
    assert a * (lr - lt) == (lr - lt) + c * (lr - lt);
  }

  lemma {:induction false} ReplaceEmptyLength(s: string, r: string)
    ensures |ReplaceEmpty(s, r)| == |s| + (|s| + 1) * |r|
  {
    if s != [] {
      ReplaceEmptyLength(s[1..], r);
    }
  }

  /** Replacing a string by itself changes nothing. */
  lemma {:induction false} ReplaceIdentity(s: string, t: string)
    requires |t| > 0
    ensures Replace(s, t, t) == s
    decreases |s|
  {
    var i := Find(s, t);
    if i >= 0 {
      ReplaceIdentity(s[i + |t|..], t);
      assert s[i..i + |t|] == t;
      assert s == s[..i] + s[i..i + |t|] + s[i + |t|..];
    }
  }

  /** `s` with every `c` removed. */
  function Without(s: string, c: char): (r: string)
    ensures forall x :: x in r <==> x in s && x != c
  {
    if s == [] then [] else (if s[0] == c then [] else [s[0]]) + Without(s[1..], c)
  }

  lemma {:induction false} WithoutAppend(a: string, b: string, c: char)
    ensures Without(a + b, c) == Without(a, c) + Without(b, c)
  {
    if a != [] {
      WithoutAppend(a[1..], b, c);
      assert (a + b)[0] == a[0] && (a + b)[1..] == a[1..] + b;
      var head := if a[0] == c then [] else [a[0]];
      calc {
        Without(a + b, c);
        head + Without(a[1..] + b, c);
        head + (Without(a[1..], c) + Without(b, c));
        (head + Without(a[1..], c)) + Without(b, c);
      }
    } else {
      assert a + b == b;
    }
  }

  lemma {:induction false} WithoutAbsent(s: string, c: char)
    requires c !in s
    ensures Without(s, c) == s
  {
    if s != [] {
      WithoutAbsent(s[1..], c);
    }
  }

  /** Where `s.find(c)` stops: `c` is there and nowhere before. */
  lemma FindChar(s: string, c: char)
    ensures Find(s, [c]) < 0 ==> c !in s
    ensures Find(s, [c]) >= 0 ==> Find(s, [c]) < |s| && s[Find(s, [c])] == c && c !in s[..Find(s, [c])]
  {
    var i := Find(s, [c]);
    forall j | 0 <= j < |s| && (i < 0 || j < i)
      ensures s[j] != c
    {
      assert !OccursAt(s, [c], j);
      assert s[j..j + 1] == [s[j]];
    }
    if i >= 0 {
      assert OccursAt(s, [c], i);
      assert s[i..i + 1] == [s[i]];
    }
  }

  lemma WithoutAtFirst(s: string, c: char, i: int)
    requires 0 <= i < |s| && s[i] == c && c !in s[..i]
    ensures Without(s, c) == s[..i] + Without(s[i + 1..], c)
  {
    var rest := s[i + 1..];
    assert s == s[..i] + ([c] + rest);
    WithoutAppend(s[..i], [c] + rest, c);
    WithoutAbsent(s[..i], c);
    assert ([c] + rest)[1..] == rest;
  }

  lemma ReplaceAtFirst(s: string, c: char)
    requires Find(s, [c]) >= 0
    ensures Find(s, [c]) < |s|
    ensures Replace(s, [c], "") == s[..Find(s, [c])] + Replace(s[Find(s, [c]) + 1..], [c], "")
  {
    var i := Find(s, [c]);
    assert Replace(s, [c], "") == s[..i] + "" + Replace(s[i + |[c]|..], [c], "");
    assert s[..i] + "" == s[..i];
  }

  /** Python `s.replace(c, '')` for one character deletes every `c`. */
  lemma {:induction false} ReplaceCharDeletes(s: string, c: char)
    ensures Replace(s, [c], "") == Without(s, c)
    decreases |s|
  {
    FindChar(s, c);
    var i := Find(s, [c]);
    if i < 0 {
      WithoutAbsent(s, c);
    } else {
      ReplaceAtFirst(s, c);
      ReplaceCharDeletes(s[i + 1..], c);
      WithoutAtFirst(s, c, i);
    }
  }

  predicate IsDigit(c: char) { '0' <= c <= '9' }

  function DigitValue(c: char): nat requires IsDigit(c) { c as int - '0' as int }

  predicate AllDigits(ds: string) {
    forall k :: 0 <= k < |ds| ==> IsDigit(ds[k])
  }

  function DigitsValue(ds: string): nat
    requires AllDigits(ds)
  {
    if ds == [] then 0 else 10 * DigitsValue(ds[..|ds| - 1]) + DigitValue(ds[|ds| - 1])
  }

  function NatToString(n: nat): (r: string)
    ensures |r| >= 1 && AllDigits(r)
  {
    if n < 10 then [('0' as int + n) as char]
    else NatToString(n / 10) + [('0' as int + n % 10) as char]
  }

  /** Python `str(n)`. */
  function IntToString(n: int): string {
    if n < 0 then "-" + NatToString(-n) else NatToString(n)
  }

  /** ASCII digits in groups joined by single underscores, as `int()` reads them: "1_000", not "_1", "1_" or "1__0". */
  predicate DigitGroups(ds: string) {
    |ds| > 0 && ds[0] != '_' && ds[|ds| - 1] != '_'
    && (forall k :: 0 <= k < |ds| ==> IsDigit(ds[k]) || ds[k] == '_')
    && (forall k :: 0 <= k < |ds| - 1 ==> ds[k] == '_' ==> ds[k + 1] != '_')
  }

  /** Without its underscores, a digit-group literal is all digits. */
  lemma GroupsAreDigits(ds: string)
    requires DigitGroups(ds)
    ensures AllDigits(Without(ds, '_')) && |Without(ds, '_')| > 0
  {
    var r := Without(ds, '_');
    forall k | 0 <= k < |r| ensures IsDigit(r[k]) {
      assert r[k] in r;
    }
    assert ds[0] in r;
  }

  /**
   * Python `int(s)` on a decimal literal: surrounding whitespace, an optional
   * sign, then digit groups; the underscores do not count.
   */
  function ParseInt(s: string): Option<int> {
    var t := Strip(s);
    if |t| == 0 then None
    else
      var neg := t[0] == '-';
      var ds := if t[0] == '-' || t[0] == '+' then t[1..] else t;
      if !DigitGroups(ds) then None
      else
        GroupsAreDigits(ds);
        var v: int := DigitsValue(Without(ds, '_'));
        Some(if neg then -v else v)
  }

  /** "1_0" reads as ten, as Python's `int("1_0")` does. */
  lemma UnderscoreGroups()
    ensures ParseInt("1_0") == Some(10)
  {
    OneZeroGroups();
    OneZeroValue();
  }

  lemma OneZeroGroups()
    ensures Strip("1_0") == "1_0" && DigitGroups("1_0")
  {
    StripTrimmed("1_0");
  }

  lemma OneZeroValue()
    ensures Without("1_0", '_') == "10" && AllDigits("10") && DigitsValue("10") == 10
  {
    assert "10"[..1] == "1";
  }

  lemma {:induction false} DigitsRoundTrip(n: nat)
    ensures DigitsValue(NatToString(n)) == n
  {
    if n >= 10 {
      DigitsRoundTrip(n / 10);
      var r := NatToString(n);
      assert r[..|r| - 1] == NatToString(n / 10);
    }
  }

  /** Plain digits are one digit group, and have no underscore to drop. */
  lemma PlainDigits(ds: string)
    requires |ds| > 0 && AllDigits(ds)
    ensures DigitGroups(ds) && Without(ds, '_') == ds
  {
    assert '_' !in ds;
    WithoutAbsent(ds, '_');
  }

  /** `int(str(n)) == n`. */
  lemma IntRoundTrip(n: int)
    ensures ParseInt(IntToString(n)) == Some(n)
  {
    var s := IntToString(n);
    var m: nat := if n < 0 then -n else n;
    var ds := NatToString(m);
    DigitsRoundTrip(m);
    PlainDigits(ds);
    assert IsDigit(ds[|ds| - 1]) && s[|s| - 1] == ds[|ds| - 1];
    assert s[0] == '-' || IsDigit(s[0]);
    StripTrimmed(s);
    if n < 0 {
      assert s[1..] == ds;
    } else {
      assert s == ds && s[0] != '-' && s[0] != '+';
    }
  }

  /** Python `xs[k:]` for any integer `k` (negative counts from the end; out-of-range clips). */
  function SliceFrom<T>(xs: seq<T>, k: int): seq<T> {
    if k < 0 then xs[if |xs| + k < 0 then 0 else |xs| + k..]
    else xs[if k > |xs| then |xs| else k..]
  }

  /**
   * Python `xs[-limit:]`: the last `limit` items when `limit > 0`, everything
   * when `limit == 0`, and all but the first `-limit` items when `limit < 0`.
   */
  function LastN<T>(xs: seq<T>, limit: int): (r: seq<T>)
    ensures |r| <= |xs| && r == xs[|xs| - |r|..]
    ensures limit > 0 ==> |r| == (if limit < |xs| then limit else |xs|)
    ensures limit == 0 ==> r == xs
    ensures limit < 0 ==> |r| == (if |xs| + limit < 0 then 0 else |xs| + limit)
  {
    SliceFrom(xs, -limit)
  }

  // pathlib helpers, for normalised paths with '/' separators

  /** Index of the last `c` in `s`, or -1. */
  function RFind(s: string, c: char): (r: int)
    ensures -1 <= r < |s|
    ensures r >= 0 ==> s[r] == c
    ensures forall j :: r < j < |s| ==> s[j] != c
  {
    if |s| == 0 then -1
    else if s[|s| - 1] == c then |s| - 1
    else RFind(s[..|s| - 1], c)
  }

  /** `Path(p).name` for a normalised path. */
  function PathName(p: string): string {
    p[RFind(p, '/') + 1..]
  }

  /** `Path(p).parent` for a normalised path; the parent of "//x" is the root "//". */
  function PathParent(p: string): string {
    var i := RFind(p, '/');
    if i < 0 then "." else if i == 0 then "/" else if i == 1 && p[0] == '/' then "//" else p[..i]
  }

  /** `Path(p).suffix`: the final `.xxx` of the last component, or "" (also for dot-files). */
  function PathSuffix(p: string): (r: string)
    ensures r == [] || r[0] == '.'
  {
    var name := PathName(p);
    var i := RFind(name, '.');
    if 0 < i < |name| - 1 then name[i..] else ""
  }

  /** The components `pathlib` keeps: empty pieces and "." are dropped. */
  function Components(pieces: seq<string>): (r: seq<string>)
    ensures forall k | 0 <= k < |r| :: r[k] != "" && r[k] != "." && r[k] in pieces
  {
    if pieces == [] then []
    else
      var rest := Components(pieces[1..]);
      if pieces[0] == "" || pieces[0] == "." then rest else [pieces[0]] + rest
  }

  lemma {:induction false} JoinEnd(parts: seq<string>, sep: string)
    requires |parts| > 0 && parts[|parts| - 1] != []
    ensures var j := Join(parts, sep);
      j != [] && j[|j| - 1] == parts[|parts| - 1][|parts[|parts| - 1]| - 1]
  {
    if |parts| > 1 {
      JoinEnd(parts[1..], sep);
    }
  }

  /** The root `pathlib` keeps: exactly two leading slashes stay "//", one or three and more become "/". */
  function Anchor(p: string): (r: string)
    ensures r in {"", "/", "//"}
    ensures r == "" <==> (|p| == 0 || p[0] != '/')
  {
    if |p| >= 2 && p[0] == '/' && p[1] == '/' && (|p| == 2 || p[2] != '/') then "//"
    else if |p| > 0 && p[0] == '/' then "/"
    else ""
  }

  /**
   * `str(Path(p))` for a POSIX path: empty and "." components are dropped and
   * the rest joined with '/', after the root `Anchor(p)`; nothing left gives
   * the root, or "." for a relative path. The result never ends in '/' unless
   * it is a root.
   */
  function NormPath(p: string): (r: string)
    ensures r != []
    ensures r == "/" || r == "//" || r[|r| - 1] != '/'
    ensures StartsWith(r, Anchor(p))
  {
    var parts := Components(Split(p, '/'));
    var body := Join(parts, "/");
    var root := Anchor(p);
    if |parts| > 0 then
      JoinEnd(parts, "/");
      assert '/' !in parts[|parts| - 1];
      assert (root + body)[..|root|] == root;
      root + body
    else if root != "" then root
    else "."
  }

  /**
   * `str(Path(a) / b)`: an absolute `b` replaces `a`; otherwise `b` is
   * appended below `a` (directly after a root, which already ends in '/').
   */
  function PathJoin(a: string, b: string): (r: string)
    ensures |b| > 0 && b[0] == '/' ==> r == NormPath(b)
    ensures a == "" ==> r == NormPath(b)
    ensures r != []
  {
    if |b| > 0 && b[0] == '/' then NormPath(b)
    else if a == "" then NormPath(b)
    else if a[|a| - 1] == '/' then NormPath(a + b)
    else NormPath(a + "/" + b)
  }
}
