/**
 * `extractVideoId` of the processing function: two unanchored regular
 * expressions, tried in order, each capturing exactly eleven id characters
 * after one of the accepted URL shapes.
 */
module VideoId {
  import opened Wrappers
  import opened Text

  const WatchPrefix: string := "youtube.com/watch?v="
  const ShortPrefix: string := "youtu.be/"
  const EmbedPrefix: string := "youtube.com/embed/"
  const LegacyPrefix: string := "youtube.com/v/"

  /** `{11}` in both patterns. */
  const IdLength: nat := 11

  /**
   * The two patterns, each as its list of literal alternatives in the order
   * the regular expression tries them.
   */
  const Patterns: seq<seq<string>> := [[WatchPrefix, ShortPrefix, EmbedPrefix], [LegacyPrefix]]

  /** Every URL shape either pattern accepts. */
  const AllPrefixes: seq<string> := [WatchPrefix, ShortPrefix, EmbedPrefix, LegacyPrefix]

  predicate AllIdChars(s: string) {
    forall i :: 0 <= i < |s| ==> IsIdChar(s[i])
  }

  /** `prefix` occurs at `i` and is followed by at least eleven id characters. */
  predicate MatchesAt(url: string, prefix: string, i: int) {
    ContainsAt(url, prefix, i) && i + |prefix| + IdLength <= |url|
    && AllIdChars(url[i + |prefix|..i + |prefix| + IdLength])
  }

  /** The captured group of a match of `prefix` at `i`. */
  function IdAt(url: string, prefix: string, i: int): (id: string)
    requires MatchesAt(url, prefix, i)
    ensures |id| == IdLength && AllIdChars(id)
  {
    url[i + |prefix|..i + |prefix| + IdLength]
  }

  /** The first alternative, in pattern order, that matches at position `i`. */
  function FirstAltAt(url: string, alts: seq<string>, i: int): (r: Option<string>)
    ensures r.Some? ==> r.value in alts && MatchesAt(url, r.value, i)
    ensures r.None? ==> forall p :: p in alts ==> !MatchesAt(url, p, i)
    decreases |alts|
  {
    if alts == [] then None
    else if MatchesAt(url, alts[0], i) then Some(alts[0])
    else FirstAltAt(url, alts[1..], i)
  }

  /**
   * The regular-expression search from position `from` on: the group of the
   * leftmost position where some alternative matches.
   */
  function MatchFrom(url: string, alts: seq<string>, from: nat): (r: Option<string>)
    ensures r.Some? <==> exists i, p :: from <= i && p in alts && MatchesAt(url, p, i)
    ensures r.Some? ==> |r.value| == IdLength && AllIdChars(r.value)
    decreases |url| - from
  {
    if from > |url| then None
    else match FirstAltAt(url, alts, from)
      case Some(p) => Some(IdAt(url, p, from))
      case None => MatchFrom(url, alts, from + 1)
  }

  /** `url.match(pattern)?.[1]` for a pattern given as its alternatives. */
  function MatchPattern(url: string, alts: seq<string>): Option<string> {
    MatchFrom(url, alts, 0)
  }

  /** The patterns tried in order; the first that matches decides. */
  function FirstPatternMatch(url: string, pats: seq<seq<string>>): Option<string>
    decreases |pats|
  {
    if pats == [] then None
    else
      var m := MatchPattern(url, pats[0]);
      if m.Some? then m else FirstPatternMatch(url, pats[1..])
  }

  /** What `extractVideoId(url)` returns; `None` is its `null`. */
  function VideoIdOf(url: string): Option<string> {
    FirstPatternMatch(url, Patterns)
  }

  /** The loop of `extractVideoId`, with its early return. */
  method ExtractVideoId(url: string) returns (r: Option<string>)
    ensures r == VideoIdOf(url)
  {
    var k := 0;
    while k < |Patterns|
      invariant 0 <= k <= |Patterns|
      invariant FirstPatternMatch(url, Patterns[k..]) == VideoIdOf(url)
    {
      var m := MatchPattern(url, Patterns[k]);
      if m.Some? {
        return m;
      }
      k := k + 1;
    }
    return None;
  }

  /** `extractVideoId` tries exactly the two patterns. */
  lemma VideoIdUnfold(url: string)
    ensures VideoIdOf(url) == if MatchPattern(url, Patterns[0]).Some? then MatchPattern(url, Patterns[0])
                              else MatchPattern(url, Patterns[1])
  {
    var rest := Patterns[1..];
    assert rest[0] == Patterns[1] && rest[1..] == [];
    assert FirstPatternMatch(url, rest)
        == if MatchPattern(url, Patterns[1]).Some? then MatchPattern(url, Patterns[1]) else FirstPatternMatch(url, []);
  }

  /** Every alternative of either pattern is one of the four accepted shapes. */
  lemma PatternPrefixes(p: string)
    ensures (p in Patterns[0] || p in Patterns[1]) <==> p in AllPrefixes
  {
  }

  /** A successful search returns the group of some match. */
  lemma {:induction false} MatchFromWitness(url: string, alts: seq<string>, from: nat)
    requires MatchFrom(url, alts, from).Some?
    ensures exists i, p :: from <= i && p in alts && MatchesAt(url, p, i)
                           && MatchFrom(url, alts, from).value == IdAt(url, p, i)
    decreases |url| - from
  {
    var f := FirstAltAt(url, alts, from);
    if f.Some? {
      assert MatchFrom(url, alts, from).value == IdAt(url, f.value, from);
    } else {
      MatchFromWitness(url, alts, from + 1);
    }
  }

  /**
   * An id comes back exactly when the URL contains one of the four shapes
   * followed by eleven id characters, and it is those eleven characters.
   */
  lemma VideoIdCharacterised(url: string)
    ensures VideoIdOf(url).Some? <==> exists i, p :: p in AllPrefixes && MatchesAt(url, p, i)
    ensures VideoIdOf(url).Some? ==>
              && |VideoIdOf(url).value| == IdLength && AllIdChars(VideoIdOf(url).value)
              && exists i, p :: p in AllPrefixes && MatchesAt(url, p, i) && VideoIdOf(url).value == IdAt(url, p, i)
  {
    var m0 := MatchPattern(url, Patterns[0]);
    var m1 := MatchPattern(url, Patterns[1]);
    VideoIdUnfold(url);
    if m0.Some? {
      MatchFromWitness(url, Patterns[0], 0);
      var i, p :| 0 <= i && p in Patterns[0] && MatchesAt(url, p, i) && m0.value == IdAt(url, p, i);
      assert p in AllPrefixes;
    } else if m1.Some? {
      MatchFromWitness(url, Patterns[1], 0);
      var i, p :| 0 <= i && p in Patterns[1] && MatchesAt(url, p, i) && m1.value == IdAt(url, p, i);
      assert p in AllPrefixes;
    } else {
      forall i, p | p in AllPrefixes ensures !MatchesAt(url, p, i) {
        PatternPrefixes(p);
      }
    }
  }

  /**
   * The first pattern has priority: when one of watch?v=, youtu.be/ or
   * embed/ is followed by an id anywhere, a /v/ match does not count, even
   * one further to the left.
   */
  lemma FirstPatternHasPriority(url: string, i: int, p: string)
    requires p in Patterns[0] && MatchesAt(url, p, i)
    ensures VideoIdOf(url) == MatchPattern(url, Patterns[0])
    ensures VideoIdOf(url).Some?
  {
    VideoIdUnfold(url);
  }

  /** When no first-pattern shape matches, the leftmost /v/ match decides. */
  lemma LegacyPatternDecides(url: string, i: nat)
    requires MatchesAt(url, LegacyPrefix, i)
    requires forall j :: j < i ==> !MatchesAt(url, LegacyPrefix, j)
    requires forall j, p :: p in Patterns[0] ==> !MatchesAt(url, p, j)
    ensures VideoIdOf(url) == Some(IdAt(url, LegacyPrefix, i))
  {
    VideoIdUnfold(url);
    assert MatchPattern(url, Patterns[0]).None?;
    assert FirstAltAt(url, Patterns[1], i) == Some(LegacyPrefix);
    LeftmostMatch(url, Patterns[1], 0, i);
  }

  /** The search returns the group of the leftmost position where an alternative matches. */
  lemma {:induction false} LeftmostMatch(url: string, alts: seq<string>, from: nat, i: nat)
    requires from <= i && FirstAltAt(url, alts, i).Some?
    requires forall j :: from <= j < i ==> FirstAltAt(url, alts, j).None?
    ensures MatchFrom(url, alts, from) == Some(IdAt(url, FirstAltAt(url, alts, i).value, i))
    decreases i - from
  {
    if from < i {
      LeftmostMatch(url, alts, from + 1, i);
    }
  }

  /** No alternative can match where the URL does not hold a 'y', the first letter of every shape. */
  lemma NoMatchWithoutY(url: string, alts: seq<string>, j: int)
    requires forall q :: q in alts ==> q != [] && q[0] == 'y'
    requires 0 <= j < |url| && url[j] != 'y'
    ensures FirstAltAt(url, alts, j).None?
  {
    forall q | q in alts ensures !MatchesAt(url, q, j) {
      if ContainsAt(url, q, j) {
        assert url[j..j + |q|][0] == q[0];
      }
    }
  }

  /** A short link `https://youtu.be/` followed by an eleven-character id yields that id. */
  lemma ShortLinkId(id: string)
    requires |id| == IdLength && AllIdChars(id)
    ensures VideoIdOf("https://youtu.be/" + id) == Some(id)
  {
    var url := "https://youtu.be/" + id;
    assert forall q :: q in Patterns[0] ==> q != [] && q[0] == 'y';
    forall j | 0 <= j < 8 ensures FirstAltAt(url, Patterns[0], j).None? {
      assert url[j] == "https://"[j];
      NoMatchWithoutY(url, Patterns[0], j);
    }
    assert url[8..17] == ShortPrefix;
    assert url[17..28] == id;
    assert MatchesAt(url, ShortPrefix, 8);
    assert url[8..8 + |WatchPrefix|][5] != WatchPrefix[5];
    assert !MatchesAt(url, WatchPrefix, 8);
    assert FirstAltAt(url, Patterns[0], 8) == Some(ShortPrefix);
    LeftmostMatch(url, Patterns[0], 0, 8);
    VideoIdUnfold(url);
  }

  /** Fewer than eleven id characters after the shape: no id. */
  lemma ShortIdRejected()
    ensures VideoIdOf("https://youtu.be/abc") == None
  {
    var url := "https://youtu.be/abc";
    forall i, p | p in AllPrefixes ensures !MatchesAt(url, p, i) {
      assert |p| >= 9 && p[0] == 'y' && url[0] == 'h';
      if 0 <= i && i + |p| + IdLength <= |url| {
        assert i == 0 && url[0..|p|][0] != p[0];
      }
    }
    VideoIdCharacterised(url);
  }
}
