/** The Python built-in string operations the assistant relies on, as total
    functions on `string`: `lower()`, `in` (substring containment),
    `startswith`, `replace` (every non-overlapping occurrence, left to right),
    `strip()`, `split(sep)` and `str(n)` for naturals. */
module PyStr {

  /** The code points for which Python's `str.isspace()` holds; the regular
      expression class `\s` on `str` patterns matches the same set. */
  predicate IsSpace(c: char) {
    || c == ' '
    || ('\t' <= c <= '\r')
    || ('\U{1C}' <= c <= '\U{1F}')
    || c == '\U{85}' || c == '\U{A0}' || c == '\U{1680}'
    || ('\U{2000}' <= c <= '\U{200A}')
    || c == '\U{2028}' || c == '\U{2029}' || c == '\U{202F}' || c == '\U{205F}' || c == '\U{3000}'
  }

  predicate IsUpper(c: char) {
    'A' <= c <= 'Z'
  }

  /** `lower()` on one character: ASCII letters are lowered, every other
      character (Thai has no case) is its own lower case. */
  function LowerChar(c: char): (d: char)
    ensures !IsUpper(d)
    ensures IsSpace(d) <==> IsSpace(c)
    ensures !IsUpper(c) ==> d == c
  {
    if IsUpper(c) then (c as int + 32) as char else c
  }

  /** A string with no upper-case letter is its own `lower()`. */
  predicate IsLower(s: string) {
    forall i :: 0 <= i < |s| ==> !IsUpper(s[i])
  }

  /** `s.lower()`: character by character, same length. */
  function Lower(s: string): (r: string)
    ensures |r| == |s|
    ensures IsLower(r)
    ensures forall i :: 0 <= i < |s| ==> r[i] == LowerChar(s[i])
  {
    seq(|s|, i requires 0 <= i < |s| => LowerChar(s[i]))
  }

  lemma LowerOfLower(s: string)
    requires IsLower(s)
    ensures Lower(s) == s
  {
  }

  lemma LowerIdempotent(s: string)
    ensures Lower(Lower(s)) == Lower(s)
  {
    LowerOfLower(Lower(s));
  }

  lemma LowerAppend(a: string, b: string)
    ensures Lower(a + b) == Lower(a) + Lower(b)
  {
  }

  /** `s.startswith(p)`. */
  /** Concatenation regroups; a lemma of its own so that the regrouping is
      proved apart from the facts of the proof that uses it. */
  lemma Assoc(x: string, y: string, z: string)
    ensures x + y + z == x + (y + z)
  {
  }

  /** A non-empty string splits into its first character and the rest. */
  lemma HeadSplit(a: string, t: string)
    requires |a| > 0
    ensures a + t == [a[0]] + (a[1..] + t)
  {
    assert a == [a[0]] + a[1..];
  }

  /** A non-empty string is its first character followed by the rest. */
  lemma Reassembled(s: string)
    requires |s| > 0
    ensures [s[0]] + s[1..] == s
  {
  }

  predicate StartsWith(s: string, p: string) {
    |p| <= |s| && s[..|p|] == p
  }

  /** `s.endswith(p)`. */
  predicate EndsWith(s: string, p: string) {
    |p| <= |s| && s[|s| - |p|..] == p
  }

  /** Python's `p in s` on strings: `p` occurs in `s` as a contiguous
      substring (the empty string occurs in every string). */
  predicate Contains(s: string, p: string)
    decreases |s|
  {
    StartsWith(s, p) || (|s| > 0 && Contains(s[1..], p))
  }

  /** One string is a prefix of the other. */
  predicate Compatible(a: string, b: string) {
    StartsWith(a, b) || StartsWith(b, a)
  }

  /** No occurrence of `p` can begin inside `rep`, and `rep` cannot begin
      inside an occurrence of `p`: replacing something by `rep` can then
      neither create nor complete an occurrence of `p`. */
  predicate Separate(rep: string, p: string) {
    && (forall j :: 0 <= j < |rep| ==> !Compatible(rep[j..], p))
    && (forall i :: 0 <= i < |p| ==> !Compatible(p[i..], rep))
  }

  // ---------------------------------------------------------------------
  // Substring containment

  /** `p` occurs in `s` at position `i`. */
  predicate OccursAt(s: string, p: string, i: int) {
    0 <= i && i + |p| <= |s| && s[i..i + |p|] == p
  }

  lemma OccursAtShift(s: string, p: string, i: int)
    requires |s| > 0 && i >= 0
    ensures OccursAt(s[1..], p, i) <==> OccursAt(s, p, i + 1)
  {
    if 0 <= i && i + |p| <= |s| - 1 {
      assert s[1..][i..i + |p|] == s[i + 1..i + 1 + |p|];
    }
  }

  /** `s.find(p)`: the leftmost position where `p` occurs. */
  function Find(s: string, p: string): (i: nat)
    requires Contains(s, p)
    ensures OccursAt(s, p, i)
    ensures forall j :: 0 <= j < i ==> !OccursAt(s, p, j)
    decreases |s|
  {
    if StartsWith(s, p) then 0
    else
      var k := Find(s[1..], p);
      OccursAtShift(s, p, k);
      assert forall j :: 0 <= j < k ==> !OccursAt(s[1..], p, j);
      assert forall j :: 1 <= j < k + 1 ==> !OccursAt(s, p, j) by {
        forall j | 1 <= j < k + 1 ensures !OccursAt(s, p, j) {
          OccursAtShift(s, p, j - 1);
        }
      }
      k + 1
  }

  lemma {:induction false} ContainsAt(s: string, p: string, i: int)
    requires OccursAt(s, p, i)
    ensures Contains(s, p)
    decreases i
  {
    if i > 0 {
      OccursAtShift(s, p, i - 1);
      ContainsAt(s[1..], p, i - 1);
    }
  }

  /** The recursive definition agrees with the positional one. */
  lemma ContainsIffOccurs(s: string, p: string)
    ensures Contains(s, p) <==> exists i :: OccursAt(s, p, i)
  {
    if Contains(s, p) {
      var i := Find(s, p);
      assert OccursAt(s, p, i);
    }
    if exists i :: OccursAt(s, p, i) {
      var i :| OccursAt(s, p, i);
      ContainsAt(s, p, i);
    }
  }

  lemma ContainsLength(s: string, p: string)
    requires Contains(s, p)
    ensures |p| <= |s|
  {
    var i := Find(s, p);
  }

  /** Every character of an occurring pattern occurs in the string. */
  lemma ContainsChars(s: string, p: string, k: int)
    requires Contains(s, p) && 0 <= k < |p|
    ensures p[k] in s
  {
    var i := Find(s, p);
    assert s[i + k] == s[i..i + |p|][k] == p[k];
  }

  /** `p in s` and `q in p` give `q in s`. */
  lemma ContainsTransitive(s: string, p: string, q: string)
    requires Contains(s, p) && Contains(p, q)
    ensures Contains(s, q)
  {
    var i := Find(s, p);
    var j := Find(p, q);
    SliceOfSlice(s, i, |p|, j, |q|);
    ContainsAt(s, q, i + j);
  }

  /** A slice of a slice is a slice of the whole. */
  lemma SliceOfSlice(s: string, i: int, n: int, j: int, m: int)
    requires 0 <= i && i + n <= |s| && 0 <= j && j + m <= n && 0 <= m
    ensures s[i..i + n][j..j + m] == s[i + j..i + j + m]
  {
    var inner := s[i..i + n][j..j + m];
    var whole := s[i + j..i + j + m];
    assert forall k :: 0 <= k < m ==> inner[k] == whole[k];
  }

  lemma ContainsInSuffix(s: string, k: int, p: string)
    requires 0 <= k <= |s| && Contains(s[k..], p)
    ensures Contains(s, p)
  {
    var i := Find(s[k..], p);
    SliceOfSlice(s, k, |s| - k, i, |p|);
    assert s[k..] == s[k..k + (|s| - k)];
    ContainsAt(s, p, k + i);
  }

  lemma ContainsInPrefix(s: string, k: int, p: string)
    requires 0 <= k <= |s| && Contains(s[..k], p)
    ensures Contains(s, p)
  {
    var i := Find(s[..k], p);
    SliceOfSlice(s, 0, k, i, |p|);
    assert s[..k] == s[0..k];
    ContainsAt(s, p, i);
  }

  lemma ContainsInPart(a: string, b: string, p: string)
    requires Contains(a, p) || Contains(b, p)
    ensures Contains(a + b, p)
  {
    if Contains(a, p) {
      assert (a + b)[..|a|] == a;
      ContainsInPrefix(a + b, |a|, p);
    } else {
      assert (a + b)[|a|..] == b;
      ContainsInSuffix(a + b, |a|, p);
    }
  }

  /** A one-character pattern occurs exactly when the character does. */
  lemma ContainsChar(s: string, c: char)
    ensures Contains(s, [c]) <==> c in s
  {
    if c in s {
      var i :| 0 <= i < |s| && s[i] == c;
      assert s[i..i + 1] == [c];
      ContainsAt(s, [c], i);
    }
    if Contains(s, [c]) {
      ContainsChars(s, [c], 0);
    }
  }

  /** `p` matches `s` from position `i` on, compared character by character
      from the `j`-th character of `p`; the verifier can evaluate this on
      literals in both directions. */
  predicate MatchFrom(s: string, p: string, i: nat, j: nat)
    requires i + |p| <= |s| && j <= |p|
    decreases |p| - j
  {
    j == |p| || (s[i + j] == p[j] && MatchFrom(s, p, i, j + 1))
  }

  lemma {:induction false} MatchFromIff(s: string, p: string, i: nat, j: nat)
    requires i + |p| <= |s| && j <= |p|
    ensures MatchFrom(s, p, i, j) <==> s[i + j..i + |p|] == p[j..]
    decreases |p| - j
  {
    if j < |p| {
      MatchFromIff(s, p, i, j + 1);
      assert s[i + j..i + |p|] == [s[i + j]] + s[i + j + 1..i + |p|];
      assert p[j..] == [p[j]] + p[j + 1..];
    }
  }

  /** `p` occurs in `s` at some position from `i` on, decided by scanning. */
  predicate OccursFrom(s: string, p: string, i: nat)
    decreases |s| - i
  {
    i + |p| <= |s| && (MatchFrom(s, p, i, 0) || OccursFrom(s, p, i + 1))
  }

  lemma {:induction false} OccursFromIff(s: string, p: string, i: nat)
    ensures OccursFrom(s, p, i) <==> exists k :: i <= k && OccursAt(s, p, k)
    decreases |s| - i
  {
    if i + |p| <= |s| {
      MatchFromIff(s, p, i, 0);
      OccursFromIff(s, p, i + 1);
      if exists k :: i <= k && OccursAt(s, p, k) {
        var k :| i <= k && OccursAt(s, p, k);
        if k > i {
          assert i + 1 <= k && OccursAt(s, p, k);
        } else {
          assert p[0..] == p;
        }
      }
      if MatchFrom(s, p, i, 0) {
        assert p[0..] == p;
        assert OccursAt(s, p, i);
      }
    } else {
      assert forall k :: i <= k ==> !OccursAt(s, p, k);
    }
  }

  /** The scan decides `Contains`. */
  lemma ScanDecidesContains(s: string, p: string)
    ensures OccursFrom(s, p, 0) <==> Contains(s, p)
  {
    OccursFromIff(s, p, 0);
    ContainsIffOccurs(s, p);
  }

  /** The usual way to show that a pattern does NOT occur: one of its
      characters is missing from the string. */
  lemma NotContainsByChar(s: string, p: string, k: int)
    requires 0 <= k < |p| && p[k] !in s
    ensures !Contains(s, p)
  {
    if Contains(s, p) {
      ContainsChars(s, p, k);
    }
  }

  /** If no occurrence of `p` starts inside `a`, every occurrence in `a + b`
      lies in `b`. */
  lemma {:induction false} ContainsSkipPrefix(a: string, b: string, p: string)
    requires forall j :: 0 <= j < |a| ==> !StartsWith((a + b)[j..], p)
    requires Contains(a + b, p)
    ensures Contains(b, p)
    decreases |a|
  {
    if |a| == 0 {
      assert a + b == b;
    } else {
      assert !StartsWith((a + b)[0..], p);
      assert (a + b)[1..] == a[1..] + b;
      forall j | 0 <= j < |a[1..]|
        ensures !StartsWith((a[1..] + b)[j..], p)
      {
        assert (a[1..] + b)[j..] == (a + b)[j + 1..];
      }
      ContainsSkipPrefix(a[1..], b, p);
    }
  }

  // ---------------------------------------------------------------------
  // str.replace

  /** `s.replace(pat, rep)`: Python inserts `rep` around every character
      when `pat` is empty; otherwise it scans left to right and replaces
      each non-overlapping occurrence. */
  function ReplaceAll(s: string, pat: string, rep: string): string
    decreases |s|
  {
    if |pat| == 0 then InsertAround(s, rep)
    else if |s| < |pat| then s
    else if s[..|pat|] == pat then rep + ReplaceAll(s[|pat|..], pat, rep)
    else [s[0]] + ReplaceAll(s[1..], pat, rep)
  }

  function InsertAround(s: string, rep: string): string
    decreases |s|
  {
    if |s| == 0 then rep else rep + [s[0]] + InsertAround(s[1..], rep)
  }

  /** A replacement pattern matched at the front is replaced there. */
  lemma ReplaceHead(pat: string, t: string, rep: string)
    requires |pat| > 0
    ensures ReplaceAll(pat + t, pat, rep) == rep + ReplaceAll(t, pat, rep)
  {
    assert (pat + t)[..|pat|] == pat;
    assert (pat + t)[|pat|..] == t;
  }

  /** Text that cannot start an occurrence (its characters avoid the
      pattern's first one) is copied unchanged. */
  lemma {:induction false} ReplaceSkip(a: string, b: string, pat: string, rep: string)
    requires |pat| > 0 && pat[0] !in a
    ensures ReplaceAll(a + b, pat, rep) == a + ReplaceAll(b, pat, rep)
    decreases |a|
  {
    if |a| > 0 {
      var s := a + b;
      if |s| >= |pat| {
        assert s[0] == a[0] && s[..|pat|][0] == s[0];
        assert s[1..] == a[1..] + b;
        ReplaceSkip(a[1..], b, pat, rep);
      } else {
        assert ReplaceAll(b, pat, rep) == b;
      }
    } else {
      assert a + b == b;
    }
  }

  /** Replacing a pattern that does not occur changes nothing. */
  lemma {:induction false} ReplaceAbsent(s: string, pat: string, rep: string)
    requires |pat| > 0 && !Contains(s, pat)
    ensures ReplaceAll(s, pat, rep) == s
    decreases |s|
  {
    if |s| >= |pat| {
      assert !StartsWith(s, pat);
      ReplaceAbsent(s[1..], pat, rep);
    }
  }

  /** A prefix of the replaced string made of characters that cannot
      overlap `rep` was already a prefix of the original. */
  lemma {:induction false} PrefixReflect(t: string, pat: string, rep: string, q: string)
    requires |pat| > 0
    requires forall i :: 0 <= i < |q| ==> !Compatible(q[i..], rep)
    requires StartsWith(ReplaceAll(t, pat, rep), q)
    ensures StartsWith(t, q)
    decreases |t|
  {
    if |q| == 0 || |t| < |pat| {
      return;
    }
    var r := ReplaceAll(t, pat, rep);
    if t[..|pat|] == pat {
      RepBlocksPrefix(rep, ReplaceAll(t[|pat|..], pat, rep), q);
      assert false;
    } else {
      var r' := ReplaceAll(t[1..], pat, rep);
      assert r == [t[0]] + r';
      StartsWithTail(t[0], r', q);
      forall i | 0 <= i < |q[1..]|
        ensures !Compatible(q[1..][i..], rep)
      {
        assert q[1..][i..] == q[i + 1..];
      }
      PrefixReflect(t[1..], pat, rep, q[1..]);
      HeadPrefix(t, |q|);
    }
  }

  /** A prefix of `[c] + u` is `c` followed by a prefix of `u`. */
  lemma StartsWithTail(c: char, u: string, q: string)
    requires |q| > 0 && StartsWith([c] + u, q)
    ensures StartsWith(u, q[1..])
  {
    var w := [c] + u;
    assert forall k :: 0 <= k < |q| - 1 ==> u[k] == w[k + 1] == q[k + 1];
  }

  /** The first `n` characters of `t` are its head and `n - 1` of its tail. */
  lemma HeadPrefix(t: string, n: int)
    requires 1 <= n <= |t|
    ensures t[..n] == [t[0]] + t[1..][..n - 1]
  {
    assert forall k :: 1 <= k < n ==> t[1..][..n - 1][k - 1] == t[k];
  }

  /** Only a string prefix-compatible with `u` can begin an extension of `u`. */
  lemma StartsWithExtension(u: string, x: string, p: string)
    ensures StartsWith(u + x, p) ==> Compatible(u, p)
  {
    if StartsWith(u + x, p) {
      if |p| <= |u| {
        assert u[..|p|] == (u + x)[..|p|];
      } else {
        assert p[..|u|] == (u + x)[..|p|][..|u|];
      }
    }
  }

  lemma RepBlocksPrefix(rep: string, x: string, q: string)
    requires forall i :: 0 <= i < |q| ==> !Compatible(q[i..], rep)
    requires |q| > 0
    ensures !StartsWith(rep + x, q)
  {
    assert q[0..] == q;
    StartsWithExtension(rep, x, q);
  }

  lemma NoStartInside(rep: string, x: string, p: string)
    requires forall j :: 0 <= j < |rep| ==> !Compatible(rep[j..], p)
    ensures forall j :: 0 <= j < |rep| ==> !StartsWith((rep + x)[j..], p)
  {
    forall j | 0 <= j < |rep|
      ensures !StartsWith((rep + x)[j..], p)
    {
      assert (rep + x)[j..] == rep[j..] + x;
      StartsWithExtension(rep[j..], x, p);
    }
  }

  /** Replacing with a string separate from `pat` leaves no occurrence of
      `pat` behind. */
  lemma {:induction false} ReplaceRemoves(s: string, pat: string, rep: string)
    requires |pat| > 0 && Separate(rep, pat)
    ensures !Contains(ReplaceAll(s, pat, rep), pat)
    decreases |s|
  {
    var r := ReplaceAll(s, pat, rep);
    if |s| < |pat| {
      if Contains(r, pat) { ContainsLength(r, pat); }
    } else if s[..|pat|] == pat {
      var r' := ReplaceAll(s[|pat|..], pat, rep);
      ReplaceRemoves(s[|pat|..], pat, rep);
      if Contains(r, pat) {
        NoStartInside(rep, r', pat);
        ContainsSkipPrefix(rep, r', pat);
      }
    } else {
      var r' := ReplaceAll(s[1..], pat, rep);
      ReplaceRemoves(s[1..], pat, rep);
      assert r == [s[0]] + r';
      assert r[1..] == r';
      if StartsWith(r, pat) {
        PrefixReflect(s, pat, rep, pat);
      }
    }
  }

  /** Replacing with a string separate from `p` creates no occurrence of `p`. */
  lemma {:induction false} ReplaceReflectsContains(s: string, pat: string, rep: string, p: string)
    requires |pat| > 0 && Separate(rep, p)
    requires Contains(ReplaceAll(s, pat, rep), p)
    ensures Contains(s, p)
    decreases |s|
  {
    var r := ReplaceAll(s, pat, rep);
    if |s| < |pat| {
    } else if s[..|pat|] == pat {
      var r' := ReplaceAll(s[|pat|..], pat, rep);
      NoStartInside(rep, r', p);
      ContainsSkipPrefix(rep, r', p);
      ReplaceReflectsContains(s[|pat|..], pat, rep, p);
      ContainsInSuffix(s, |pat|, p);
    } else {
      var r' := ReplaceAll(s[1..], pat, rep);
      assert r == [s[0]] + r';
      assert r[1..] == r';
      if StartsWith(r, p) {
        PrefixReflect(s, pat, rep, p);
      } else {
        ReplaceReflectsContains(s[1..], pat, rep, p);
      }
    }
  }

  /** Separation can be read off the first characters. */
  lemma SeparateByFirstChars(rep: string, p: string)
    requires |rep| > 0 && |p| > 0
    requires p[0] !in rep && rep[0] !in p
    ensures Separate(rep, p)
  {
    forall j | 0 <= j < |rep|
      ensures !Compatible(rep[j..], p)
    {
      assert rep[j..][0] == rep[j];
    }
    forall i | 0 <= i < |p|
      ensures !Compatible(p[i..], rep)
    {
      assert p[i..][0] == p[i];
    }
  }

  /** Replacing a single character by a single character works position by
      position and keeps the length. */
  lemma {:induction false} ReplaceCharPointwise(s: string, c: char, d: char)
    ensures |ReplaceAll(s, [c], [d])| == |s|
    ensures forall i :: 0 <= i < |s| ==> ReplaceAll(s, [c], [d])[i] == (if s[i] == c then d else s[i])
    decreases |s|
  {
    if |s| > 0 {
      ReplaceCharPointwise(s[1..], c, d);
      if s[0] == c {
        assert s[..1] == [c];
      }
    }
  }

  // ---------------------------------------------------------------------
  // str.strip

  /** Drops the leading characters for which `drop` holds. */
  function TrimLeft(s: string, drop: char -> bool): (r: string)
    ensures |r| <= |s| && r == s[|s| - |r|..]
    ensures |r| > 0 ==> !drop(r[0])
    ensures forall i :: 0 <= i < |s| - |r| ==> drop(s[i])
    decreases |s|
  {
    if |s| > 0 && drop(s[0]) then TrimLeft(s[1..], drop) else s
  }

  /** Drops the trailing characters for which `drop` holds. */
  function TrimRight(s: string, drop: char -> bool): (r: string)
    ensures |r| <= |s| && r == s[..|r|]
    ensures |r| > 0 ==> !drop(r[|r| - 1])
    ensures forall i :: |r| <= i < |s| ==> drop(s[i])
    decreases |s|
  {
    if |s| > 0 && drop(s[|s| - 1]) then TrimRight(s[..|s| - 1], drop) else s
  }

  /** `s.strip(chars)` for the character class `drop`. */
  function StripBy(s: string, drop: char -> bool): (r: string)
    ensures |r| <= |s|
    ensures |r| > 0 ==> !drop(r[0]) && !drop(r[|r| - 1])
    ensures Contains(s, r)
  {
    var l := TrimLeft(s, drop);
    var r := TrimRight(l, drop);
    assert l[..|r|] == r;
    ContainsInPrefix(l, |r|, r);
    assert s[|s| - |l|..] == l;
    ContainsInSuffix(s, |s| - |l|, r);
    r
  }

  /** `s.strip()`: removes leading and trailing whitespace. */
  function Strip(s: string): (r: string)
    ensures |r| <= |s|
    ensures |r| > 0 ==> !IsSpace(r[0]) && !IsSpace(r[|r| - 1])
  {
    StripBy(s, IsSpace)
  }

  lemma TrimLeftNoop(s: string, drop: char -> bool)
    requires |s| == 0 || !drop(s[0])
    ensures TrimLeft(s, drop) == s
  {
  }

  lemma TrimRightNoop(s: string, drop: char -> bool)
    requires |s| == 0 || !drop(s[|s| - 1])
    ensures TrimRight(s, drop) == s
  {
  }

  /** Stripping a string whose ends are kept is the identity. */
  lemma StripNoop(s: string)
    requires |s| == 0 || (!IsSpace(s[0]) && !IsSpace(s[|s| - 1]))
    ensures Strip(s) == s
  {
    TrimLeftNoop(s, IsSpace);
    TrimRightNoop(s, IsSpace);
  }

  // ---------------------------------------------------------------------
  // str.split and '.'.join

  /** `s.split(sep)` for a one-character separator: never empty, one more
      part than there are separators. */
  function Split(s: string, sep: char): (parts: seq<string>)
    ensures |parts| >= 1
    decreases |s|
  {
    if |s| == 0 then [""]
    else if s[0] == sep then [""] + Split(s[1..], sep)
    else
      var rest := Split(s[1..], sep);
      [[s[0]] + rest[0]] + rest[1..]
  }

  /** `sep.join(parts)`. */
  function Join(parts: seq<string>, sep: char): string
    decreases |parts|
  {
    if |parts| == 0 then ""
    else if |parts| == 1 then parts[0]
    else parts[0] + [sep] + Join(parts[1..], sep)
  }

  /** Joining the parts of a split gives the string back. */
  lemma {:induction false} JoinSplit(s: string, sep: char)
    ensures Join(Split(s, sep), sep) == s
    decreases |s|
  {
    if |s| == 0 {
    } else if s[0] == sep {
      JoinSplit(s[1..], sep);
      assert Split(s, sep) == [""] + Split(s[1..], sep);
      assert s == [sep] + s[1..];
    } else {
      JoinSplit(s[1..], sep);
      var rest := Split(s[1..], sep);
      if |rest| == 1 {
        assert Join(rest, sep) == rest[0];
      } else {
        assert Join(rest, sep) == rest[0] + [sep] + Join(rest[1..], sep);
        assert ([[s[0]] + rest[0]] + rest[1..])[1..] == rest[1..];
      }
      assert s == [s[0]] + s[1..];
    }
  }

  /** No part of a split holds the separator. */
  lemma {:induction false} SplitPartsFree(s: string, sep: char)
    ensures forall k :: 0 <= k < |Split(s, sep)| ==> sep !in Split(s, sep)[k]
    decreases |s|
  {
    if |s| > 0 {
      SplitPartsFree(s[1..], sep);
    }
  }

  /** Splitting the join of separator-free parts gives the parts back. */
  lemma {:induction false} SplitJoin(parts: seq<string>, sep: char)
    requires |parts| >= 1
    requires forall k :: 0 <= k < |parts| ==> sep !in parts[k]
    ensures Split(Join(parts, sep), sep) == parts
    decreases |parts|, |parts[0]|
  {
    if |parts[0]| == 0 {
      if |parts| == 1 {
        assert Join(parts, sep) == "";
      } else {
        var j := Join(parts, sep);
        assert j == [sep] + Join(parts[1..], sep);
        assert j[1..] == Join(parts[1..], sep);
        SplitJoin(parts[1..], sep);
        assert parts == [""] + parts[1..];
      }
    } else {
      var c := parts[0][0];
      assert c in parts[0];
      var shorter := [parts[0][1..]] + parts[1..];
      forall k | 0 <= k < |shorter|
        ensures sep !in shorter[k]
      {
        if k == 0 {
          assert forall x :: x in parts[0][1..] ==> x in parts[0];
        } else {
          assert shorter[k] == parts[k];
        }
      }
      SplitJoin(shorter, sep);
      var j := Join(parts, sep);
      if |parts| == 1 {
        assert j == parts[0];
        assert Join(shorter, sep) == parts[0][1..];
      } else {
        assert Join(shorter, sep) == parts[0][1..] + [sep] + Join(parts[1..], sep);
      }
      assert j == [c] + Join(shorter, sep);
      assert j[1..] == Join(shorter, sep);
      assert [parts[0][0]] + parts[0][1..] == parts[0];
      assert parts == [parts[0]] + shorter[1..];
    }
  }

  // ---------------------------------------------------------------------
  // str(n) for naturals

  function DigitChar(d: nat): char
    requires d < 10
  {
    ('0' as int + d) as char
  }

  function DigitValue(c: char): int {
    c as int - '0' as int
  }

  predicate IsDigit(c: char) {
    '0' <= c <= '9'
  }

  /** `str(n)`: the shortest decimal numeral of `n`. */
  function NatToString(n: nat): (r: string)
    ensures |r| >= 1
    ensures forall i :: 0 <= i < |r| ==> IsDigit(r[i])
    ensures |r| > 1 ==> r[0] != '0'
    decreases n
  {
    if n < 10 then [DigitChar(n)] else NatToString(n / 10) + [DigitChar(n % 10)]
  }

  /** The value of a string of decimal digits (`int(s)`). */
  function DecimalValue(s: string): int
    decreases |s|
  {
    if |s| == 0 then 0 else 10 * DecimalValue(s[..|s| - 1]) + DigitValue(s[|s| - 1])
  }

  /** `int(str(n)) == n`. */
  lemma {:induction false} DecimalRoundTrip(n: nat)
    ensures DecimalValue(NatToString(n)) == n
    decreases n
  {
    var r := NatToString(n);
    if n >= 10 {
      DecimalRoundTrip(n / 10);
      assert r[..|r| - 1] == NatToString(n / 10);
    }
  }
}
