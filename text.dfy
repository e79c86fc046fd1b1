/**
 * The JavaScript string and array primitives the pipeline relies on:
 * character classes of its regular expressions, case mapping, substring
 * search, literal global replacement, `trim`, `split` and `slice`.
 */
module Text {
  import opened Wrappers

  /** `\s` and the characters `String.prototype.trim` removes (the same set). */
  predicate IsSpace(c: char) {
    c == ' ' || ('\t' <= c <= '\r') || c == '\U{00A0}' || c == '\U{1680}'
    || ('\U{2000}' <= c <= '\U{200A}') || c == '\U{2028}' || c == '\U{2029}'
    || c == '\U{202F}' || c == '\U{205F}' || c == '\U{3000}' || c == '\U{FEFF}'
  }

  /** `\w`. */
  predicate IsWordChar(c: char) {
    ('a' <= c <= 'z') || ('A' <= c <= 'Z') || ('0' <= c <= '9') || c == '_'
  }

  /** `[a-zA-Z0-9_-]`, which is also `[\w-]`. */
  predicate IsIdChar(c: char) {
    IsWordChar(c) || c == '-'
  }

  predicate IsUpper(c: char) { 'A' <= c <= 'Z' }

  function LowerChar(c: char): (d: char)
    ensures !IsUpper(d)
    ensures !IsUpper(c) ==> d == c
  {
    if IsUpper(c) then (c as int + 32) as char else c
  }

  function UpperChar(c: char): (d: char)
    ensures !('a' <= d <= 'z')
    ensures !('a' <= c <= 'z') ==> d == c
  {
    if 'a' <= c <= 'z' then (c as int - 32) as char else c
  }

  /** `toLowerCase`, on the ASCII letters. */
  function ToLower(s: string): (r: string)
    ensures |r| == |s|
    ensures forall i :: 0 <= i < |s| ==> r[i] == LowerChar(s[i])
  {
    seq(|s|, i requires 0 <= i < |s| => LowerChar(s[i]))
  }

  /** `toUpperCase`, on the ASCII letters. */
  function ToUpper(s: string): (r: string)
    ensures |r| == |s|
    ensures forall i :: 0 <= i < |s| ==> r[i] == UpperChar(s[i])
  {
    seq(|s|, i requires 0 <= i < |s| => UpperChar(s[i]))
  }

  predicate StartsWith(s: string, p: string) {
    |p| <= |s| && s[..|p|] == p
  }

  predicate EndsWith(s: string, p: string) {
    |p| <= |s| && s[|s| - |p|..] == p
  }

  predicate ContainsAt(s: string, p: string, i: int) {
    0 <= i && i + |p| <= |s| && s[i..i + |p|] == p
  }

  /** `s.includes(p)`. */
  predicate Contains(s: string, p: string) {
    exists i | 0 <= i <= |s| - |p| :: ContainsAt(s, p, i)
  }

  /** Lower-casing both sides keeps an occurrence where it was. */
  lemma ContainsLower(s: string, p: string, i: int)
    requires ContainsAt(s, p, i)
    ensures ContainsAt(ToLower(s), ToLower(p), i)
  {
    assert forall k :: 0 <= k < |p| ==> ToLower(s)[i..i + |p|][k] == ToLower(p)[k];
  }

  /** A lower-cased string holds no upper-case letter, so it contains no string that has one. */
  lemma LowerHidesUpper(s: string, p: string, k: nat)
    requires k < |p| && IsUpper(p[k])
    ensures !Contains(ToLower(s), p)
  {
    forall i | 0 <= i <= |s| - |p|
      ensures !ContainsAt(ToLower(s), p, i)
    {
      assert !IsUpper(ToLower(s)[i + k]);
    }
  }

  /** `s.replace(/pat/g, rep)` for a pattern that is a plain, non-empty string. */
  function ReplaceAll(s: string, pat: string, rep: string): string
    requires |pat| > 0
    decreases |s|
  {
    if |s| < |pat| then s
    else if s[..|pat|] == pat then rep + ReplaceAll(s[|pat|..], pat, rep)
    else [s[0]] + ReplaceAll(s[1..], pat, rep)
  }

  /** Replacing a pattern by itself changes nothing. */
  lemma {:induction false} ReplaceAllSelf(s: string, pat: string)
    requires |pat| > 0
    ensures ReplaceAll(s, pat, pat) == s
    decreases |s|
  {
    if |s| < |pat| {
    } else if s[..|pat|] == pat {
      ReplaceAllSelf(s[|pat|..], pat);
      assert s == pat + s[|pat|..];
    } else {
      ReplaceAllSelf(s[1..], pat);
      assert s == [s[0]] + s[1..];
    }
  }

  /** A concatenation starts with its first piece and ends with its second. */
  lemma ConcatEnds(a: string, b: string)
    ensures |a + b| == |a| + |b| && StartsWith(a + b, a) && ContainsAt(a + b, b, |a|) && EndsWith(a + b, b)
  {
    assert (a + b)[..|a|] == a;
    assert (a + b)[|a|..] == b;
  }

  /** Where each piece of a three-piece concatenation sits. */
  lemma ConcatThree(a: string, b: string, c: string)
    ensures var r := a + b + c;
            && |r| == |a| + |b| + |c|
            && StartsWith(r, a) && ContainsAt(r, b, |a|) && EndsWith(r, c)
  {
    var r := a + b + c;
    assert r[..|a|] == a;
    assert r[|a|..|a| + |b|] == b;
    assert r[|r| - |c|..] == c;
  }

  /** Where each piece of a four-piece concatenation sits. */
  lemma ConcatPieces(a: string, b: string, c: string, d: string)
    ensures var r := a + b + c + d;
            && |r| == |a| + |b| + |c| + |d|
            && StartsWith(r, a) && ContainsAt(r, b, |a|) && ContainsAt(r, c, |a| + |b|) && EndsWith(r, d)
  {
    var r := a + b + c + d;
    assert r[..|a|] == a;
    assert r[|a|..|a| + |b|] == b;
    assert r[|a| + |b|..|a| + |b| + |c|] == c;
    assert r[|r| - |d|..] == d;
  }

  /** Position of the first occurrence of `p` at or after `from`, or -1. */
  function IndexOfFrom(s: string, p: string, from: nat): (r: int)
    ensures r == -1 || (from <= r && ContainsAt(s, p, r))
    ensures r == -1 ==> forall j :: from <= j ==> !ContainsAt(s, p, j)
    ensures r != -1 ==> forall j :: from <= j < r ==> !ContainsAt(s, p, j)
    decreases |s| - from
  {
    if from + |p| > |s| then -1
    else if s[from..from + |p|] == p then from
    else IndexOfFrom(s, p, from + 1)
  }

  /** Position of the first `c` at or after `from`, or -1. */
  function IndexOfChar(s: string, c: char, from: nat): (r: int)
    ensures r == -1 || (from <= r < |s| && s[r] == c)
    ensures forall x :: from <= x < (if r == -1 then |s| else r) ==> s[x] != c
    decreases |s| - from
  {
    if from >= |s| then -1
    else if s[from] == c then from
    else IndexOfChar(s, c, from + 1)
  }

  /** Position of the last `c` in `s`, or -1. */
  function LastIndexOfChar(s: string, c: char): (r: int)
    ensures r == -1 || (0 <= r < |s| && s[r] == c)
    ensures forall x :: r < x < |s| ==> s[x] != c
    decreases |s|
  {
    if s == [] then -1
    else if s[|s| - 1] == c then |s| - 1
    else LastIndexOfChar(s[..|s| - 1], c)
  }

  /** The first of `alts` that occurs at position `i`, as a regular-expression alternation tries them. */
  function AltAt(s: string, alts: seq<string>, i: int): (r: Option<string>)
    ensures r.Some? ==> r.value in alts && ContainsAt(s, r.value, i)
    ensures r.None? ==> forall a :: a in alts ==> !ContainsAt(s, a, i)
    decreases |alts|
  {
    if alts == [] then None
    else if ContainsAt(s, alts[0], i) then Some(alts[0])
    else AltAt(s, alts[1..], i)
  }

  /** The leftmost position at or after `from` where one of `alts` occurs, or -1. */
  function IndexOfAnyFrom(s: string, alts: seq<string>, from: nat): (r: int)
    ensures r == -1 || (from <= r <= |s| && AltAt(s, alts, r).Some?)
    ensures forall j :: from <= j <= |s| && (r == -1 || j < r) ==> AltAt(s, alts, j).None?
    decreases |s| + 1 - from
  {
    if from > |s| then -1
    else if AltAt(s, alts, from).Some? then from
    else IndexOfAnyFrom(s, alts, from + 1)
  }

  /** `s.replace(/a|b|c/, rep)`: the leftmost occurrence of an alternative, the first listed winning a tie, is replaced. */
  function ReplaceFirstOf(s: string, alts: seq<string>, rep: string): (r: string)
    ensures (forall a :: a in alts ==> !Contains(s, a)) ==> r == s
    ensures (exists a :: a in alts && Contains(s, a)) ==>
              exists i, a ::
                && AltAt(s, alts, i) == Some(a) && ContainsAt(s, a, i)
                && (forall j, b :: 0 <= j < i && b in alts ==> !ContainsAt(s, b, j))
                && r == s[..i] + rep + s[i + |a|..]
  {
    var i := IndexOfAnyFrom(s, alts, 0);
    if i < 0 then s
    else
      var a := AltAt(s, alts, i).value;
      s[..i] + rep + s[i + |a|..]
  }

  /** `s.replace(p, rep)` with a string pattern: only the first occurrence. */
  function ReplaceFirst(s: string, p: string, rep: string): (r: string)
    ensures !Contains(s, p) ==> r == s
    ensures Contains(s, p) ==>
              exists i ::
                && ContainsAt(s, p, i)
                && (forall j :: 0 <= j < i ==> !ContainsAt(s, p, j))
                && r == s[..i] + rep + s[i + |p|..]
  {
    var i := IndexOfFrom(s, p, 0);
    if i < 0 then s else s[..i] + rep + s[i + |p|..]
  }

  /** Length of the leading run of characters that are not separators. */
  function RunLen(s: string, isSep: char -> bool): (n: nat)
    ensures n <= |s|
    ensures forall i :: 0 <= i < n ==> !isSep(s[i])
    ensures n < |s| ==> isSep(s[n])
    decreases |s|
  {
    if s == [] || isSep(s[0]) then 0 else 1 + RunLen(s[1..], isSep)
  }

  /** Length of the leading run of `\s` characters. */
  function SpaceRun(s: string): (n: nat)
    ensures n <= |s|
    ensures forall i :: 0 <= i < n ==> IsSpace(s[i])
    ensures n < |s| ==> !IsSpace(s[n])
    decreases |s|
  {
    if s != [] && IsSpace(s[0]) then 1 + SpaceRun(s[1..]) else 0
  }

  /**
   * The non-empty fields of `s.split(/[sep]+/)`: the maximal runs of
   * non-separator characters, in order.  (The empty fields `split` adds at
   * either end are dropped; every caller discards them anyway.)
   */
  function Fields(s: string, isSep: char -> bool): (r: seq<string>)
    ensures forall k :: 0 <= k < |r| ==> r[k] != []
    ensures forall k, i :: 0 <= k < |r| && 0 <= i < |r[k]| ==> !isSep(r[k][i])
    decreases |s|
  {
    if s == [] then []
    else if isSep(s[0]) then Fields(s[1..], isSep)
    else
      var n := RunLen(s, isSep);
      [s[..n]] + Fields(s[n..], isSep)
  }

  /** Every character of a field is a character of the string it came from. */
  lemma {:induction false} FieldsWithin(s: string, isSep: char -> bool, w: string)
    requires w in Fields(s, isSep)
    ensures forall i :: 0 <= i < |w| ==> w[i] in s
    decreases |s|
  {
    if isSep(s[0]) {
      FieldsWithin(s[1..], isSep, w);
    } else {
      var n := RunLen(s, isSep);
      if w != s[..n] {
        FieldsWithin(s[n..], isSep, w);
      }
    }
  }

  /** Lower-casing moves no whitespace, so the leading word keeps its length. */
  lemma {:induction false} RunLenLower(s: string)
    ensures RunLen(ToLower(s), IsSpace) == RunLen(s, IsSpace)
    decreases |s|
  {
    if s != [] {
      assert ToLower(s)[1..] == ToLower(s[1..]);
      RunLenLower(s[1..]);
    }
  }

  /** Each word of `s` appears, lower-cased, among the words of `s.toLowerCase()`. */
  lemma {:induction false} FieldsLower(s: string, w: string)
    requires w in Fields(s, IsSpace)
    ensures ToLower(w) in Fields(ToLower(s), IsSpace)
    decreases |s|
  {
    var l := ToLower(s);
    if IsSpace(s[0]) {
      assert l[1..] == ToLower(s[1..]);
      FieldsLower(s[1..], w);
    } else {
      var n := RunLen(s, IsSpace);
      RunLenLower(s);
      assert Fields(l, IsSpace) == [l[..n]] + Fields(l[n..], IsSpace);
      if w == s[..n] {
        assert l[..n] == ToLower(w);
      } else {
        assert l[n..] == ToLower(s[n..]);
        FieldsLower(s[n..], w);
      }
    }
  }

  /** The leading run is the one its three properties pin down. */
  lemma RunLenIs(s: string, isSep: char -> bool, n: nat)
    requires n <= |s| && (forall i :: 0 <= i < n ==> !isSep(s[i])) && (n < |s| ==> isSep(s[n]))
    ensures RunLen(s, isSep) == n
  {
  }

  /** Leading separators do not change the fields. */
  lemma {:induction false} FieldsSkip(s: string, isSep: char -> bool, k: nat)
    requires k <= |s| && forall i :: 0 <= i < k ==> isSep(s[i])
    ensures Fields(s[k..], isSep) == Fields(s, isSep)
    decreases k
  {
    if k > 0 {
      assert s[1..][k - 1..] == s[k..];
      FieldsSkip(s[1..], isSep, k - 1);
    }
  }

  /** Trailing separators do not change the fields either. */
  lemma {:induction false} FieldsDropTrailing(s: string, isSep: char -> bool, k: nat)
    requires k <= |s| && forall i :: k <= i < |s| ==> isSep(s[i])
    ensures Fields(s[..k], isSep) == Fields(s, isSep)
    decreases |s|
  {
    if s == [] {
      assert s[..k] == s;
    } else if isSep(s[0]) {
      if k == 0 {
        FieldsSkip(s, isSep, |s|);
        assert s[|s|..] == [];
      } else {
        assert s[..k][1..] == s[1..][..k - 1];
        FieldsDropTrailing(s[1..], isSep, k - 1);
      }
    } else {
      var n := RunLen(s, isSep);
      var t := s[..k];
      assert k < |s| ==> isSep(s[k]);
      assert n <= k;
      RunLenIs(t, isSep, n);
      assert t[..n] == s[..n];
      assert t[n..] == s[n..][..k - n];
      FieldsDropTrailing(s[n..], isSep, k - n);
    }
  }

  /**
   * One more non-separator in front: it starts a field of its own when the
   * rest starts with a separator, and joins the first field otherwise.
   */
  lemma FieldsCons(c: char, s: string, isSep: char -> bool)
    requires !isSep(c)
    ensures s == [] || isSep(s[0]) ==> Fields([c] + s, isSep) == [[c]] + Fields(s, isSep)
    ensures s != [] && !isSep(s[0]) ==>
              Fields([c] + s, isSep) == [[c] + Fields(s, isSep)[0]] + Fields(s, isSep)[1..]
  {
    var t := [c] + s;
    assert t[1..] == s;
    if s == [] || isSep(s[0]) {
      RunLenIs(t, isSep, 1);
      assert t[..1] == [c] && t[1..] == s;
    } else {
      var m := RunLen(s, isSep);
      assert RunLen(t, isSep) == 1 + m;
      assert t[..1 + m] == [c] + s[..m];
      assert t[1 + m..] == s[m..];
    }
  }

  /** `s.split(c)[0]`: everything before the first `c`. */
  function BeforeFirst(s: string, c: char): (r: string)
    ensures StartsWith(s, r)
    ensures c !in r
    ensures |r| < |s| ==> s[|r|] == c
  {
    var n := RunLen(s, x => x == c);
    s[..n]
  }

  function TrimStart(s: string): (r: string)
    ensures |r| <= |s| && r == s[|s| - |r|..]
    ensures r == [] || !IsSpace(r[0])
    ensures forall i :: 0 <= i < |s| - |r| ==> IsSpace(s[i])
    decreases |s|
  {
    if s != [] && IsSpace(s[0]) then TrimStart(s[1..]) else s
  }

  function TrimEnd(s: string): (r: string)
    ensures |r| <= |s| && r == s[..|r|]
    ensures r == [] || !IsSpace(r[|r| - 1])
    ensures forall i :: |r| <= i < |s| ==> IsSpace(s[i])
    decreases |s|
  {
    if s != [] && IsSpace(s[|s| - 1]) then TrimEnd(s[..|s| - 1]) else s
  }

  /** Trimming leaves nothing exactly when the text is all white space. */
  lemma TrimmedEmpty(s: string)
    ensures TrimEnd(TrimStart(s)) == [] <==> forall i :: 0 <= i < |s| ==> IsSpace(s[i])
  {
    var t := TrimStart(s);
    var k := |s| - |t|;
    if TrimEnd(t) == [] {
      forall i | 0 <= i < |s| ensures IsSpace(s[i]) {
        if k <= i {
          assert s[i] == t[i - k];
        }
      }
    } else {
      assert !IsSpace(t[0]) && s[k] == t[0];
    }
  }

  /** The trimmed text sits where the leading white space ends. */
  lemma TrimmedWithin(s: string)
    ensures ContainsAt(s, TrimEnd(TrimStart(s)), |s| - |TrimStart(s)|)
  {
    var t := TrimStart(s);
    var r := TrimEnd(t);
    var k := |s| - |t|;
    assert s[k..k + |r|] == t[..|r|];
  }

  /** `s.trim()`. */
  function Trim(s: string): (r: string)
    ensures r == [] || (!IsSpace(r[0]) && !IsSpace(r[|r| - 1]))
    ensures r == [] <==> forall i :: 0 <= i < |s| ==> IsSpace(s[i])
    ensures ContainsAt(s, r, |s| - |TrimStart(s)|)
  {
    var t := TrimStart(s);
    var r := TrimEnd(t);
    TrimmedEmpty(s);
    TrimmedWithin(s);
    r
  }

  /** A character missing from a string is missing from every slice of it. */
  lemma NoCharInSlice(s: string, c: char, i: nat, j: nat)
    requires i <= j <= |s| && c !in s
    ensures c !in s[i..j]
  {
  }

  /** Text that neither starts nor ends with white space is its own trim. */
  lemma TrimUnchanged(s: string)
    requires s == [] || (!IsSpace(s[0]) && !IsSpace(s[|s| - 1]))
    ensures Trim(s) == s
  {
  }

  /** `parts.join(sep)`. */
  function Join(parts: seq<string>, sep: string): (r: string)
    ensures |parts| == 1 ==> r == parts[0]
    decreases |parts|
  {
    if parts == [] then ""
    else if |parts| == 1 then parts[0]
    else parts[0] + sep + Join(parts[1..], sep)
  }

  /** Joining a word in front of a non-empty list puts one separator between. */
  lemma JoinCons(w: string, words: seq<string>, sep: string)
    requires words != []
    ensures Join([w] + words, sep) == w + sep + Join(words, sep)
  {
    assert ([w] + words)[1..] == words;
  }

  function DigitChar(d: nat): (c: char)
    requires d < 10
    ensures '0' <= c <= '9'
  {
    "0123456789"[d]
  }

  /** Decimal notation of a natural number, as `${n}` prints it. */
  function NatToString(n: nat): (s: string)
    ensures s != []
    ensures forall i :: 0 <= i < |s| ==> '0' <= s[i] <= '9'
    decreases n
  {
    if n < 10 then [DigitChar(n)] else NatToString(n / 10) + [DigitChar(n % 10)]
  }

  /** Decimal notation of an integer, as `${n}` prints it. */
  function IntToString(n: int): (s: string)
    ensures s != []
    ensures n < 0 <==> s[0] == '-'
  {
    if n < 0 then "-" + NatToString(-n) else NatToString(n)
  }

  /** The end index `xs.slice(0, end)` resolves to on a sequence of length `len`. */
  function SliceEnd(len: nat, end: int): (k: nat)
    ensures k <= len
    ensures 0 <= end ==> k == if end < len then end else len
    ensures end < 0 ==> k == if len + end < 0 then 0 else len + end
  {
    if end < 0 then (if len + end < 0 then 0 else len + end)
    else if end < len then end
    else len
  }

  /** `xs.slice(0, end)`; a negative `end` counts back from the end. */
  function Slice0<T>(xs: seq<T>, end: int): (r: seq<T>)
    ensures r == xs[..SliceEnd(|xs|, end)]
    ensures 0 <= end ==> |r| == if end < |xs| then end else |xs|
  {
    xs[..SliceEnd(|xs|, end)]
  }

  /** The length `Array.from({ length: n })` gets: negative lengths become 0. */
  function ArrayLength(n: int): (k: nat)
    ensures 0 <= n ==> k == n
    ensures n < 0 ==> k == 0
  {
    if n < 0 then 0 else n
  }

  /** `xs` occurs in `ys` in order, possibly with gaps. */
  predicate Subsequence<T(==)>(xs: seq<T>, ys: seq<T>)
    decreases |ys|
  {
    xs == [] || (ys != [] && if xs[0] == ys[0] then Subsequence(xs[1..], ys[1..]) else Subsequence(xs, ys[1..]))
  }

  /** `xs.filter(p)`. */
  function Filter<T(==,!new)>(xs: seq<T>, p: T -> bool): (r: seq<T>)
    ensures forall x :: x in r <==> x in xs && p(x)
    ensures forall x :: multiset(r)[x] == if p(x) then multiset(xs)[x] else 0
    ensures Subsequence(r, xs)
    ensures |r| <= |xs|
    ensures r == [] <==> forall x :: x in xs ==> !p(x)
    decreases |xs|
  {
    if xs == [] then []
    else
      var rest := Filter(xs[1..], p);
      assert xs == [xs[0]] + xs[1..];
      if p(xs[0]) then [xs[0]] + rest
      else rest
  }

  /** `xs.filter(t => allowed.includes(t))`. */
  function KeepListed(xs: seq<string>, allowed: seq<string>): (r: seq<string>)
    ensures forall t :: t in r <==> t in xs && t in allowed
    ensures |r| <= |xs|
    ensures (forall t :: t in xs ==> t !in allowed) ==> r == []
    decreases |xs|
  {
    if xs == [] then []
    else (if xs[0] in allowed then [xs[0]] else []) + KeepListed(xs[1..], allowed)
  }
}
