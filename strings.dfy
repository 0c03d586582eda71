/**
 * The JavaScript string operations the program relies on, over `seq<char>`:
 * `indexOf`/`includes`, `replace` with a string pattern (first occurrence, with
 * the `$` patterns of the replacement string), `replace(/c/g, ...)`, `split` on
 * one character, `join`, `filter(Boolean)`, `trim` and `toUpperCase`.
 */
module Strings {
  import opened Wrappers

  /** `p` occurs in `s` starting at index `i`. */
  predicate At(s: string, p: string, i: nat) {
    i + |p| <= |s| && s[i..i + |p|] == p
  }

  predicate StartsWith(s: string, p: string) {
    |p| <= |s| && s[..|p|] == p
  }

  predicate EndsWith(s: string, p: string) {
    |p| <= |s| && s[|s| - |p|..] == p
  }

  // ---------------------------------------------------------------------------
  // indexOf / includes

  /** `s.indexOf(p, from)`: the first index at or after `from` where `p` occurs. */
  function IndexFrom(s: string, p: string, from: nat): (r: Option<nat>)
    decreases |s| - from
    ensures r.Some? ==> from <= r.value && At(s, p, r.value)
    ensures r.Some? ==> forall j | from <= j < r.value :: !At(s, p, j)
    ensures r.None? ==> forall j | from <= j :: !At(s, p, j)
  {
    if from + |p| > |s| then None
    else if s[from..from + |p|] == p then Some(from)
    else IndexFrom(s, p, from + 1)
  }

  /** `s.indexOf(p)`, with `None` for JavaScript's -1. */
  function IndexOf(s: string, p: string): Option<nat> {
    IndexFrom(s, p, 0)
  }

  /** `s.includes(p)` */
  predicate Contains(s: string, p: string)
    ensures Contains(s, p) <==> exists i :: At(s, p, i)
  {
    IndexOf(s, p).Some?
  }

  /** An occurrence inside a piece is an occurrence in any text around it. */
  lemma {:induction false} ContainsInfix(a: string, s: string, b: string, p: string)
    requires Contains(s, p)
    ensures Contains(a + s + b, p)
  {
    var i: nat :| At(s, p, i);
    var t := a + s + b;
    assert t[|a| + i..|a| + i + |p|] == s[i..i + |p|];
    assert At(t, p, |a| + i);
  }

  /** The first occurrence of `p` in `s` is at `i`. */
  ghost predicate FirstAt(s: string, p: string, i: nat) {
    At(s, p, i) && forall j: nat | j < i :: !At(s, p, j)
  }

  lemma {:induction false} IndexOfFirst(s: string, p: string, i: nat)
    requires FirstAt(s, p, i)
    ensures IndexOf(s, p) == Some(i)
  {
  }

  /** `p` occurs in `a + p + b` right after `a`. */
  lemma {:induction false} AtMiddle(a: string, p: string, b: string)
    ensures At(a + p + b, p, |a|)
  {
    assert (a + p + b)[|a|..|a| + |p|] == p;
  }

  /** A text lacking one of the characters of `p` does not contain `p`. */
  lemma {:induction false} NoOccurrenceWithout(s: string, p: string, k: nat)
    requires k < |p| && p[k] !in s
    ensures !Contains(s, p)
  {
  }

  lemma {:induction false} NoHeadNoOccurrence(s: string, p: string)
    requires p != [] && p[0] !in s
    ensures !Contains(s, p)
  {
  }

  // ---------------------------------------------------------------------------
  // Counting occurrences

  /** The number of (possibly overlapping) occurrences of a non-empty `p` in `s`. */
  function Count(s: string, p: string): nat
    decreases |s|
  {
    if |p| == 0 || |s| < |p| then 0
    else (if s[..|p|] == p then 1 else 0) + Count(s[1..], p)
  }

  /** A prefix free of `p`'s first character adds no occurrence. */
  lemma {:induction false} CountSkip(a: string, b: string, p: string)
    requires p != [] && p[0] !in a
    ensures Count(a + b, p) == Count(b, p)
    decreases |a|
  {
    if a == [] {
      assert a + b == b;
    } else {
      var s := a + b;
      assert s[0] == a[0];
      assert s[1..] == a[1..] + b;
      CountSkip(a[1..], b, p);
      if |s| >= |p| {
        assert s[..|p|] != p by { assert s[..|p|][0] == a[0]; }
      } else {
        assert Count(b, p) == 0;
      }
    }
  }

  lemma {:induction false} CountNone(s: string, p: string)
    requires p != [] && p[0] !in s
    ensures Count(s, p) == 0
  {
    CountSkip(s, [], p);
    assert s + [] == s;
  }

  /** A pattern whose first character does not recur in it is counted once at the front. */
  lemma {:induction false} CountLead(p: string, b: string)
    requires p != [] && p[0] !in p[1..]
    ensures Count(p + b, p) == 1 + Count(b, p)
  {
    var s := p + b;
    assert s[..|p|] == p;
    assert s[1..] == p[1..] + b;
    CountSkip(p[1..], b, p);
  }

  /** Occurrences are counted exactly when there are some. */
  lemma {:induction false} CountPositive(s: string, p: string)
    requires p != []
    ensures Count(s, p) > 0 <==> Contains(s, p)
    decreases |s|
  {
    if |s| >= |p| {
      CountPositive(s[1..], p);
      if s[..|p|] == p {
        assert At(s, p, 0);
      } else if Contains(s, p) {
        var i: nat :| At(s, p, i);
        assert i != 0;
        assert s[1..][i - 1..i - 1 + |p|] == s[i..i + |p|];
        assert At(s[1..], p, i - 1);
      } else if Contains(s[1..], p) {
        var i: nat :| At(s[1..], p, i);
        assert s[i + 1..i + 1 + |p|] == s[1..][i..i + |p|];
        assert At(s, p, i + 1);
      }
    } else {
      forall i: nat | At(s, p, i) ensures false {}
    }
  }

  // ---------------------------------------------------------------------------
  // String.prototype.replace with a string pattern

  /**
   * The replacement text for one match, as the GetSubstitution operation of
   * ECMA-262 (section 22.1.3.19.1) computes it when there are no capture groups:
   * `$$` is a dollar sign, `$&` the matched text, `` $` `` the text before the
   * match, `$'` the text after it; every other character is copied.
   */
  function Substitution(template: string, matched: string, before: string, after: string): (r: string)
    decreases |template|
    ensures '$' !in template ==> r == template
  {
    if |template| == 0 then ""
    else if template[0] == '$' && |template| >= 2 && template[1] in "$&`'" then
      var expansion := match template[1]
        case '$' => "$"
        case '&' => matched
        case '`' => before
        case _ => after;
      expansion + Substitution(template[2..], matched, before, after)
    else
      [template[0]] + Substitution(template[1..], matched, before, after)
  }

  /** `s.replace(pattern, replacement)` with a string pattern: the FIRST occurrence only. */
  function ReplaceFirst(s: string, pattern: string, replacement: string): (r: string)
    ensures !Contains(s, pattern) ==> r == s
    ensures Contains(s, pattern) && '$' !in replacement ==> |r| == |s| - |pattern| + |replacement|
  {
    match IndexOf(s, pattern)
    case None => s
    case Some(i) =>
      s[..i] + Substitution(replacement, pattern, s[..i], s[i + |pattern|..]) + s[i + |pattern|..]
  }

  /** Without an occurrence, `replace` returns its input. */
  lemma {:induction false} ReplaceFirstAbsent(s: string, pattern: string, replacement: string)
    requires !Contains(s, pattern)
    ensures ReplaceFirst(s, pattern, replacement) == s
  {
  }

  /** With a `$`-free replacement, the first occurrence is swapped for it verbatim. */
  lemma {:induction false} ReplaceFirstAt(s: string, pattern: string, v: string, i: nat)
    requires FirstAt(s, pattern, i)
    requires '$' !in v
    ensures ReplaceFirst(s, pattern, v) == s[..i] + v + s[i + |pattern|..]
  {
    IndexOfFirst(s, pattern, i);
  }

  /**
   * Replacing in `a + pattern + b`, where `pattern` does not start inside `a`:
   * the occurrence after `a` is the one replaced, by the expanded replacement.
   */
  lemma {:induction false} ReplaceFirstSpliceAny(a: string, pattern: string, b: string, v: string)
    requires pattern != [] && pattern[0] !in a
    ensures ReplaceFirst(a + pattern + b, pattern, v) == a + Substitution(v, pattern, a, b) + b
  {
    var s := a + pattern + b;
    AtMiddle(a, pattern, b);
    forall j: nat | j < |a| ensures !At(s, pattern, j) {
      assert s[j] == a[j];
    }
    IndexOfFirst(s, pattern, |a|);
    assert s[..|a|] == a;
    assert s[|a| + |pattern|..] == b;
  }

  /** The same with a `$`-free replacement, which is inserted verbatim. */
  lemma {:induction false} ReplaceFirstSplice(a: string, pattern: string, b: string, v: string)
    requires pattern != [] && pattern[0] !in a
    requires '$' !in v
    ensures ReplaceFirst(a + pattern + b, pattern, v) == a + v + b
  {
    ReplaceFirstSpliceAny(a, pattern, b, v);
  }

  /** Splicing where the pattern sits inside an inserted piece `c + pattern + e`. */
  lemma {:induction false} ReplaceFirstSpliceInner(a: string, c: string, pattern: string, e: string, b: string,
                                                   v: string)
    requires pattern != [] && pattern[0] !in a && pattern[0] !in c
    requires '$' !in v
    ensures ReplaceFirst(a + (c + pattern + e) + b, pattern, v) == a + c + v + e + b
  {
    assert a + (c + pattern + e) + b == (a + c) + pattern + (e + b);
    ReplaceFirstSplice(a + c, pattern, e + b, v);
    assert (a + c) + v + (e + b) == a + c + v + e + b;
  }

  /** Only the first occurrence is replaced: a later, disjoint one survives. */
  lemma {:induction false} ReplaceFirstKeepsLater(s: string, pattern: string, v: string, i: nat, j: nat)
    requires FirstAt(s, pattern, i) && At(s, pattern, j) && i + |pattern| <= j
    requires '$' !in v
    ensures At(ReplaceFirst(s, pattern, v), pattern, j - |pattern| + |v|)
  {
    ReplaceFirstAt(s, pattern, v, i);
    var r := s[..i] + v + s[i + |pattern|..];
    var k := j - |pattern| + |v|;
    assert r[k..k + |pattern|] == s[j..j + |pattern|];
  }

  /** No element occurs twice. */
  ghost predicate Distinct<T>(xs: seq<T>) {
    forall i, j | 0 <= i < j < |xs| :: xs[i] != xs[j]
  }

  // ---------------------------------------------------------------------------
  // split / join / filter(Boolean)

  /** `s.split(sep)` for a one-character separator: the pieces between separators. */
  function Split(s: string, sep: char): (r: seq<string>)
    decreases |s|
    ensures |r| >= 1
    ensures forall i | 0 <= i < |r| :: sep !in r[i]
  {
    if s == [] then [""]
    else
      var rest := Split(s[1..], sep);
      if s[0] == sep then [""] + rest
      else [[s[0]] + rest[0]] + rest[1..]
  }

  /** `parts.join(sep)` */
  function Join(parts: seq<string>, sep: string): string
    decreases |parts|
  {
    if |parts| == 0 then ""
    else if |parts| == 1 then parts[0]
    else parts[0] + sep + Join(parts[1..], sep)
  }

  /** `parts.filter(Boolean)` on strings: drops the empty ones, keeps the order. */
  function NonEmpty(parts: seq<string>): (r: seq<string>)
    decreases |parts|
    ensures forall i | 0 <= i < |r| :: r[i] != ""
    ensures forall x :: x in r <==> x in parts && x != ""
    ensures (forall i | 0 <= i < |parts| :: parts[i] != "") ==> r == parts
  {
    if parts == [] then []
    else if parts[0] == "" then NonEmpty(parts[1..])
    else [parts[0]] + NonEmpty(parts[1..])
  }

  /** Filtering keeps the order: the kept pieces of `a + b` are those of `a`, then those of `b`. */
  lemma {:induction false} NonEmptyAppend(a: seq<string>, b: seq<string>)
    ensures NonEmpty(a + b) == NonEmpty(a) + NonEmpty(b)
    decreases |a|
  {
    if a == [] {
      assert a + b == b;
    } else {
      assert (a + b)[0] == a[0] && (a + b)[1..] == a[1..] + b;
      NonEmptyAppend(a[1..], b);
      if a[0] != "" {
        assert NonEmpty(a + b) == [a[0]] + (NonEmpty(a[1..]) + NonEmpty(b));
      }
    }
  }

  /** A single piece is kept exactly when it is not empty. */
  lemma {:induction false} NonEmptySingle(x: string)
    ensures NonEmpty([x]) == if x == "" then [] else [x]
  {
    assert [x][1..] == [];
  }

  /** `parts.join("")` */
  function Concat(parts: seq<string>): string
    decreases |parts|
  {
    if parts == [] then "" else parts[0] + Concat(parts[1..])
  }

  /** A character in none of the parts is not in their concatenation. */
  lemma {:induction false} ConcatExcludes(parts: seq<string>, c: char)
    requires forall i | 0 <= i < |parts| :: c !in parts[i]
    ensures c !in Concat(parts)
    decreases |parts|
  {
    if parts != [] {
      ConcatExcludes(parts[1..], c);
    }
  }

  lemma {:induction false} ConcatAppend(xs: seq<string>, ys: seq<string>)
    ensures Concat(xs + ys) == Concat(xs) + Concat(ys)
    decreases |xs|
  {
    if xs == [] {
      assert xs + ys == ys;
    } else {
      assert (xs + ys)[1..] == xs[1..] + ys;
      ConcatAppend(xs[1..], ys);
    }
  }

  /** Piece `k` of a concatenation sits right after the pieces before it. */
  lemma {:induction false} ConcatAt(xs: seq<string>, k: nat)
    requires k < |xs|
    ensures At(Concat(xs), xs[k], |Concat(xs[..k])|)
  {
    assert xs == xs[..k] + [xs[k]] + xs[k + 1..];
    ConcatAppend(xs[..k] + [xs[k]], xs[k + 1..]);
    ConcatAppend(xs[..k], [xs[k]]);
    assert Concat([xs[k]]) == xs[k];
    AtMiddle(Concat(xs[..k]), xs[k], Concat(xs[k + 1..]));
  }

  /** A concatenation is the pieces before `k`, piece `k`, and the pieces after it. */
  lemma {:induction false} ConcatInfix(xs: seq<string>, k: nat)
    requires k < |xs|
    ensures Concat(xs) == Concat(xs[..k]) + xs[k] + Concat(xs[k + 1..])
  {
    var pre, mid, post := xs[..k], [xs[k]], xs[k + 1..];
    assert xs == pre + mid + post;
    ConcatAppend(pre + mid, post);
    ConcatAppend(pre, mid);
    assert Concat(mid) == xs[k] by {
      assert mid[1..] == [];
    }
  }

  lemma {:induction false} ConcatPrefixGrows(xs: seq<string>, i: nat, j: nat)
    requires i <= j <= |xs|
    ensures |Concat(xs[..i])| <= |Concat(xs[..j])|
  {
    assert xs[..j] == xs[..i] + xs[i..j];
    ConcatAppend(xs[..i], xs[i..j]);
  }

  /** `a` occurs in `s` and `b` occurs after it, without overlapping. */
  ghost predicate Before(s: string, a: string, b: string) {
    exists i: nat, j: nat :: At(s, a, i) && At(s, b, j) && i + |a| <= j
  }

  /** In `a + x + m + y + b`, `x` comes before `y`. */
  lemma {:induction false} BeforeMiddle(a: string, x: string, m: string, y: string, b: string)
    ensures Before(a + x + m + y + b, x, y)
  {
    var t := a + x + m + y + b;
    assert t[|a|..|a| + |x|] == x;
    assert t[|a| + |x| + |m|..|a| + |x| + |m| + |y|] == y;
    assert At(t, x, |a|) && At(t, y, |a| + |x| + |m|);
  }

  /** Order is kept inside a larger text. */
  lemma {:induction false} BeforeInfix(a: string, s: string, b: string, x: string, y: string)
    requires Before(s, x, y)
    ensures Before(a + s + b, x, y)
  {
    var i: nat, j: nat :| At(s, x, i) && At(s, y, j) && i + |x| <= j;
    var t := a + s + b;
    assert t[|a| + i..|a| + i + |x|] == s[i..i + |x|];
    assert t[|a| + j..|a| + j + |y|] == s[j..j + |y|];
    assert At(t, x, |a| + i) && At(t, y, |a| + j);
  }

  /** An occurrence inside an occurrence. */
  lemma {:induction false} AtShift(s: string, x: string, i: nat, p: string, k: nat)
    requires At(s, x, i) && At(x, p, k)
    ensures At(s, p, i + k)
  {
    forall n | 0 <= n < |p|
      ensures s[i + k + n] == p[n]
    {
      assert s[i..i + |x|][k + n] == x[k + n];
      assert x[k..k + |p|][n] == p[n];
    }
  }

  /** Every text contains itself. */
  lemma {:induction false} ContainsSelf(s: string)
    ensures Contains(s, s)
  {
    assert s[0..|s|] == s;
    assert At(s, s, 0);
  }

  /** What a piece contains, a text containing the piece contains. */
  lemma {:induction false} ContainsWithin(s: string, x: string, p: string)
    requires Contains(s, x) && Contains(x, p)
    ensures Contains(s, p)
  {
    var i: nat :| At(s, x, i);
    var k: nat :| At(x, p, k);
    AtShift(s, x, i, p, k);
  }

  /** Both texts of an ordered pair occur. */
  lemma {:induction false} BeforeContains(s: string, x: string, y: string)
    requires Before(s, x, y)
    ensures Contains(s, x) && Contains(s, y)
  {
  }

  /** Parts of two ordered pieces are ordered like the pieces. */
  lemma {:induction false} BeforeInside(s: string, x: string, y: string, p: string, q: string)
    requires Before(s, x, y) && Contains(x, p) && Contains(y, q)
    ensures Before(s, p, q)
  {
    var i: nat, j: nat :| At(s, x, i) && At(s, y, j) && i + |x| <= j;
    var k: nat :| At(x, p, k);
    var l: nat :| At(y, q, l);
    AtShift(s, x, i, p, k);
    AtShift(s, y, j, q, l);
  }

  /** An ordered pair inside a piece is ordered in a text containing the piece. */
  lemma {:induction false} BeforeWithin(s: string, x: string, p: string, q: string)
    requires Contains(s, x) && Before(x, p, q)
    ensures Before(s, p, q)
  {
    var i: nat :| At(s, x, i);
    var k: nat, l: nat :| At(x, p, k) && At(x, q, l) && k + |p| <= l;
    AtShift(s, x, i, p, k);
    AtShift(s, x, i, q, l);
  }

  /** A prefix of the first piece is a prefix of the whole. */
  lemma {:induction false} StartsWithAppend(a: string, b: string, p: string)
    requires StartsWith(a, p)
    ensures StartsWith(a + b, p)
  {
    assert (a + b)[..|p|] == a[..|p|];
  }

  /** A suffix of the last piece is a suffix of the whole. */
  lemma {:induction false} EndsWithPrepend(a: string, b: string, p: string)
    requires EndsWith(b, p)
    ensures EndsWith(a + b, p)
  {
    assert (a + b)[|a + b| - |p|..] == b[|b| - |p|..];
  }

  /** `p` is at the end of `a + p`. */
  lemma {:induction false} EndsWithLast(a: string, p: string)
    ensures EndsWith(a + p, p)
  {
    assert (a + p)[|a + p| - |p|..] == p;
  }

  /** `p` is at the start of `p + b`. */
  lemma {:induction false} StartsWithFirst(p: string, b: string)
    ensures StartsWith(p + b, p)
  {
    assert (p + b)[..|p|] == p;
  }

  /** A text ending with `p` contains `p`. */
  lemma {:induction false} EndsWithContains(s: string, p: string)
    requires EndsWith(s, p)
    ensures Contains(s, p)
  {
    assert At(s, p, |s| - |p|);
  }

  /** Pieces of a concatenation appear in their order. */
  lemma {:induction false} ConcatBefore(xs: seq<string>, i: nat, j: nat)
    requires i < j < |xs|
    ensures Before(Concat(xs), xs[i], xs[j])
  {
    ConcatAt(xs, i);
    ConcatAt(xs, j);
    assert xs[..i + 1] == xs[..i] + [xs[i]];
    ConcatAppend(xs[..i], [xs[i]]);
    assert Concat([xs[i]]) == xs[i];
    ConcatPrefixGrows(xs, i + 1, j);
  }

  /** A concatenation starts with its first piece, ends with its last and contains each. */
  lemma {:induction false} ConcatEnds(xs: seq<string>)
    requires xs != []
    ensures StartsWith(Concat(xs), xs[0])
    ensures EndsWith(Concat(xs), xs[|xs| - 1])
    ensures forall k | 0 <= k < |xs| :: Contains(Concat(xs), xs[k])
  {
    StartsWithFirst(xs[0], Concat(xs[1..]));
    var n := |xs| - 1;
    ConcatInfix(xs, n);
    assert Concat(xs[n + 1..]) == "";
    EndsWithLast(Concat(xs[..n]), xs[n]);
    forall k | 0 <= k < |xs| ensures Contains(Concat(xs), xs[k]) {
      ConcatAt(xs, k);
    }
  }

  /** All pieces of a concatenation appear in their order. */
  lemma {:induction false} ConcatInOrder(xs: seq<string>)
    ensures forall i, j | 0 <= i < j < |xs| :: Before(Concat(xs), xs[i], xs[j])
  {
    forall i, j | 0 <= i < j < |xs| ensures Before(Concat(xs), xs[i], xs[j]) {
      ConcatBefore(xs, i, j);
    }
  }

  /** A separator-free text splits into exactly itself. */
  lemma {:induction false} SplitNoSep(s: string, sep: char)
    requires sep !in s
    ensures Split(s, sep) == [s]
    decreases |s|
  {
    if s != [] {
      SplitNoSep(s[1..], sep);
      assert [s[0]] + s[1..] == s;
    }
  }

  /** Splitting `a + sep + t` where `a` has no separator. */
  lemma {:induction false} SplitFirstPiece(a: string, sep: char, t: string)
    requires sep !in a
    ensures Split(a + [sep] + t, sep) == [a] + Split(t, sep)
    decreases |a|
  {
    var s := a + [sep] + t;
    if a == [] {
      assert s[0] == sep && s[1..] == t;
    } else {
      assert s[0] == a[0];
      assert s[1..] == a[1..] + [sep] + t;
      SplitFirstPiece(a[1..], sep, t);
      assert [a[0]] + a[1..] == a;
    }
  }

  /** split undoes join: the pieces come back, in order, when none holds the separator. */
  lemma {:induction false} SplitJoin(parts: seq<string>, sep: char)
    requires |parts| >= 1
    requires forall i | 0 <= i < |parts| :: sep !in parts[i]
    ensures Split(Join(parts, [sep]), sep) == parts
    decreases |parts|
  {
    if |parts| == 1 {
      SplitNoSep(parts[0], sep);
    } else {
      SplitJoin(parts[1..], sep);
      SplitFirstPiece(parts[0], sep, Join(parts[1..], [sep]));
      assert parts == [parts[0]] + parts[1..];
    }
  }

  /** join undoes split: the separators come back where they were. */
  lemma {:induction false} JoinSplit(s: string, sep: char)
    ensures Join(Split(s, sep), [sep]) == s
    decreases |s|
  {
    if s != [] {
      JoinSplit(s[1..], sep);
      var rest := Split(s[1..], sep);
      if s[0] == sep {
        assert ([""] + rest)[1..] == rest;
      } else {
        var r := [[s[0]] + rest[0]] + rest[1..];
        if |rest| == 1 {
          assert Join(r, [sep]) == [s[0]] + rest[0];
        } else {
          assert r[1..] == rest[1..];
          assert Join(rest, [sep]) == rest[0] + [sep] + Join(rest[1..], [sep]);
        }
        assert [s[0]] + s[1..] == s;
      }
    }
  }

  /** An occurrence inside one of the parts is an occurrence in their join. */
  lemma {:induction false} JoinContains(parts: seq<string>, sep: string, k: nat, p: string)
    requires k < |parts| && Contains(parts[k], p)
    ensures Contains(Join(parts, sep), p)
    decreases |parts|
  {
    if |parts| == 1 {
    } else if k == 0 {
      ContainsInfix("", parts[0], sep + Join(parts[1..], sep), p);
      assert "" + parts[0] + (sep + Join(parts[1..], sep)) == Join(parts, sep);
    } else {
      JoinContains(parts[1..], sep, k - 1, p);
      ContainsInfix(parts[0] + sep, Join(parts[1..], sep), "", p);
      assert parts[0] + sep + Join(parts[1..], sep) + "" == Join(parts, sep);
    }
  }

  lemma {:induction false} JoinExcludes(parts: seq<string>, sep: string, c: char)
    requires c !in sep
    requires forall i | 0 <= i < |parts| :: c !in parts[i]
    ensures c !in Join(parts, sep)
    decreases |parts|
  {
    if |parts| > 1 {
      JoinExcludes(parts[1..], sep, c);
    }
  }

  /** The pieces of a split hold only characters of the text. */
  lemma {:induction false} SplitPiecesWithin(s: string, sep: char, c: char)
    requires c !in s
    ensures forall i | 0 <= i < |Split(s, sep)| :: c !in Split(s, sep)[i]
    decreases |s|
  {
    if s != [] {
      SplitPiecesWithin(s[1..], sep, c);
    }
  }

  // ---------------------------------------------------------------------------
  // replace(/c/g, repl)

  /** `s.replace(/c/g, repl)` for a one-character regular expression: every occurrence. */
  function ReplaceAll(s: string, c: char, repl: string): (r: string)
    decreases |s|
    ensures c !in repl ==> c !in r
  {
    if s == [] then ""
    else (if s[0] == c then repl else [s[0]]) + ReplaceAll(s[1..], c, repl)
  }

  /** Characters other than `c` come only from the text and the replacement. */
  lemma {:induction false} ReplaceAllKeeps(s: string, c: char, repl: string, d: char)
    requires d !in s && d !in repl
    ensures d !in ReplaceAll(s, c, repl)
    decreases |s|
  {
    if s != [] {
      ReplaceAllKeeps(s[1..], c, repl, d);
    }
  }

  /** Replacing every `c` is the same as splitting on `c` and joining with the replacement. */
  lemma {:induction false} ReplaceAllIsSplitJoin(s: string, c: char, repl: string)
    ensures ReplaceAll(s, c, repl) == Join(Split(s, c), repl)
    decreases |s|
  {
    if s != [] {
      ReplaceAllIsSplitJoin(s[1..], c, repl);
      var rest := Split(s[1..], c);
      if s[0] == c {
        assert ([""] + rest)[1..] == rest;
      } else {
        var r := [[s[0]] + rest[0]] + rest[1..];
        if |rest| == 1 {
          assert Join(r, repl) == [s[0]] + rest[0];
        } else {
          assert r[1..] == rest[1..];
        }
      }
    }
  }

  // ---------------------------------------------------------------------------
  // trim

  /** The WhiteSpace and LineTerminator code points of ECMA-262 (what `trim` and `\s` use). */
  predicate IsJsWhiteSpace(c: char) {
    c == '\t' || c == '\n' || c == '\U{000B}' || c == '\U{000C}' || c == '\r' || c == ' '
    || c == '\U{00A0}' || c == '\U{1680}' || ('\U{2000}' <= c <= '\U{200A}')
    || c == '\U{2028}' || c == '\U{2029}' || c == '\U{202F}' || c == '\U{205F}'
    || c == '\U{3000}' || c == '\U{FEFF}'
  }

  predicate AllWhiteSpace(s: string) {
    forall i | 0 <= i < |s| :: IsJsWhiteSpace(s[i])
  }

  function TrimStart(s: string): (r: string)
    decreases |s|
    ensures r == "" <==> AllWhiteSpace(s)
    ensures r == "" || !IsJsWhiteSpace(r[0])
  {
    if s != [] && IsJsWhiteSpace(s[0]) then TrimStart(s[1..]) else s
  }

  function TrimEnd(s: string): (r: string)
    decreases |s|
    ensures r == "" <==> AllWhiteSpace(s)
  {
    if s != [] && IsJsWhiteSpace(s[|s| - 1]) then TrimEnd(s[..|s| - 1]) else s
  }

  /** `s.trim()` */
  function Trim(s: string): (r: string)
    ensures r == "" <==> AllWhiteSpace(s)
  {
    TrimEnd(TrimStart(s))
  }

  // ---------------------------------------------------------------------------
  // toUpperCase and number formatting

  function UpperChar(c: char): char {
    if 'a' <= c <= 'z' then (c as int - 32) as char else c
  }

  /** `s.toUpperCase()` on ASCII letters. */
  function ToUpper(s: string): (r: string)
    ensures |r| == |s|
    ensures forall i | 0 <= i < |s| :: r[i] == UpperChar(s[i])
  {
    seq(|s|, i requires 0 <= i < |s| => UpperChar(s[i]))
  }

  function DigitChar(d: nat): char
    requires d < 10
  {
    ('0' as int + d) as char
  }

  function DigitValue(c: char): nat {
    if '0' <= c <= '9' then c as int - '0' as int else 0
  }

  /** The decimal numeral JavaScript prints for a non-negative integer. */
  function NatToString(n: nat): (r: string)
    decreases n
    ensures |r| >= 1
    ensures forall i | 0 <= i < |r| :: '0' <= r[i] <= '9'
  {
    if n < 10 then [DigitChar(n)] else NatToString(n / 10) + [DigitChar(n % 10)]
  }

  /** The value of a string of decimal digits. */
  function DecimalValue(s: string): nat
    decreases |s|
  {
    if s == [] then 0 else 10 * DecimalValue(s[..|s| - 1]) + DigitValue(s[|s| - 1])
  }

  /** Printing a number and reading it back gives the number. */
  lemma {:induction false} NatToStringRoundTrip(n: nat)
    ensures DecimalValue(NatToString(n)) == n
    decreases n
  {
    if n >= 10 {
      NatToStringRoundTrip(n / 10);
      var s := NatToString(n / 10) + [DigitChar(n % 10)];
      assert s[..|s| - 1] == NatToString(n / 10);
    }
  }
}
