/**
 * `validateYouTubeUrl` of the submit page: four anchored regular
 * expressions `^https?:\/\/(www\.)?<shape>[\w-]+`, any of which accepts.
 * Also how it relates to the server's `extractVideoId`.
 */
module UrlValidation {
  import opened Wrappers
  import opened Text
  import opened VideoId

  /** `https?:\/\/`. */
  const Schemes: seq<string> := ["http://", "https://"]

  /** `(www\.)?`. */
  const Hosts: seq<string> := ["", "www."]

  /** The shapes of the four patterns, in the order `some` tries them. */
  const Shapes: seq<string> := [WatchPrefix, ShortPrefix, EmbedPrefix, LegacyPrefix]

  /** `url` starts with `lead` and at least one `[\w-]` character follows it. */
  predicate LeadThenId(url: string, lead: string) {
    StartsWith(url, lead) && |lead| < |url| && IsIdChar(url[|lead|])
  }

  /** What the validator is meant to accept, stated outright. */
  predicate Acceptable(url: string) {
    exists s, h, p :: s in Schemes && h in Hosts && p in Shapes && LeadThenId(url, s + h + p)
  }

  /** Where `^https?:\/\/` ends, if it matches. */
  function SchemeEnd(url: string): (r: Option<nat>)
    ensures r.Some? ==> exists s :: s in Schemes && StartsWith(url, s) && r.value == |s|
    ensures r.None? ==> forall s :: s in Schemes ==> !StartsWith(url, s)
  {
    if StartsWith(url, "https://") then Some(8)
    else if StartsWith(url, "http://") then Some(7)
    else None
  }

  /** `pattern.test(url)` for the pattern of `shape`: with "www." first, then without. */
  predicate TestPattern(url: string, shape: string) {
    match SchemeEnd(url)
    case None => false
    case Some(k) => LeadThenId(url[k..], "www." + shape) || LeadThenId(url[k..], shape)
  }

  /** `patterns.some(pattern => pattern.test(url))` over a list of shapes. */
  predicate SomePattern(url: string, shapes: seq<string>)
    decreases |shapes|
  {
    shapes != [] && (TestPattern(url, shapes[0]) || SomePattern(url, shapes[1..]))
  }

  /** `validateYouTubeUrl(url)`. */
  predicate ValidateYouTubeUrl(url: string) {
    SomePattern(url, Shapes)
  }

  /** Skipping a matched scheme turns a lead after it into a lead of the whole URL. */
  lemma LeadAfterScheme(url: string, s: string, rest: string)
    requires StartsWith(url, s)
    ensures LeadThenId(url[|s|..], rest) <==> LeadThenId(url, s + rest)
  {
    if LeadThenId(url[|s|..], rest) {
      assert url[..|s + rest|] == url[..|s|] + url[|s|..][..|rest|];
    }
    if LeadThenId(url, s + rest) {
      assert url[|s|..][..|rest|] == url[..|s + rest|][|s|..];
    }
  }

  /** One pattern tests true exactly when some scheme and host lead to its shape and an id character. */
  lemma TestPatternIff(url: string, shape: string)
    ensures TestPattern(url, shape) <==>
              exists s, h :: s in Schemes && h in Hosts && LeadThenId(url, s + h + shape)
  {
    var https, http := Schemes[1], Schemes[0];
    if StartsWith(url, https) {
      LeadAfterScheme(url, https, "www." + shape);
      LeadAfterScheme(url, https, shape);
      assert https + "www." + shape == https + ("www." + shape);
      assert https + "" + shape == https + shape;
      assert !StartsWith(url, http) by { assert url[4] == 's'; }
    } else if StartsWith(url, http) {
      LeadAfterScheme(url, http, "www." + shape);
      LeadAfterScheme(url, http, shape);
      assert http + "www." + shape == http + ("www." + shape);
      assert http + "" + shape == http + shape;
    }
    forall s, h | s in Schemes && h in Hosts && LeadThenId(url, s + h + shape)
      ensures StartsWith(url, s)
    {
      assert url[..|s|] == url[..|s + h + shape|][..|s|];
    }
  }

  /** `some` over a list holds exactly when one of its shapes tests true. */
  lemma {:induction false} SomePatternIff(url: string, shapes: seq<string>)
    ensures SomePattern(url, shapes) <==> exists p :: p in shapes && TestPattern(url, p)
    decreases |shapes|
  {
    if shapes != [] {
      SomePatternIff(url, shapes[1..]);
      assert forall p :: p in shapes <==> p == shapes[0] || p in shapes[1..];
    }
  }

  /**
   * The validator accepts exactly the URLs that start with http:// or
   * https://, an optional "www.", one of the four shapes and at least one
   * id character.
   */
  lemma ValidateIff(url: string)
    ensures ValidateYouTubeUrl(url) <==> Acceptable(url)
  {
    SomePatternIff(url, Shapes);
    forall p | p in Shapes ensures TestPattern(url, p) <==>
        exists s, h :: s in Schemes && h in Hosts && LeadThenId(url, s + h + p) {
      TestPatternIff(url, p);
    }
  }

  /** No scheme or host character is a 'y', the first letter of every shape. */
  lemma LeadHasNoY(s: string, h: string)
    requires s in Schemes && h in Hosts
    ensures forall j :: 0 <= j < |s + h| ==> (s + h)[j] != 'y'
  {
  }

  /** Two shapes that occur at the same position are the same shape. */
  lemma SameShapeAt(url: string, p: string, q: string, n: int)
    requires p in AllPrefixes && q in AllPrefixes
    requires ContainsAt(url, p, n) && ContainsAt(url, q, n)
    ensures p == q
  {
    assert p[5] == url[n..n + |p|][5] == url[n + 5];
    assert q[5] == url[n..n + |q|][5] == url[n + 5];
    if p != ShortPrefix && q != ShortPrefix {
      assert p[12] == url[n..n + |p|][12] == url[n + 12];
      assert q[12] == url[n..n + |q|][12] == url[n + 12];
    }
  }

  /** When the first position where a first-pattern shape matches is `n`, the id is the eleven characters after it. */
  lemma LeftmostFirstPattern(url: string, n: nat, p: string)
    requires p in Patterns[0] && MatchesAt(url, p, n)
    requires forall j :: 0 <= j < n ==> FirstAltAt(url, Patterns[0], j).None?
    ensures VideoIdOf(url) == Some(url[n + |p|..n + |p| + IdLength])
  {
    var q := FirstAltAt(url, Patterns[0], n).value;
    LeftmostMatch(url, Patterns[0], 0, n);
    VideoIdUnfold(url);
    PatternPrefixes(p);
    PatternPrefixes(q);
    SameShapeAt(url, p, q, n);
  }

  /** A URL that starts with a scheme, a host and a shape has that shape right after the host. */
  lemma ShapeAfterLead(url: string, s: string, h: string, p: string)
    requires StartsWith(url, s + h + p)
    ensures ContainsAt(url, p, |s + h|)
  {
    var lead := s + h;
    var n := |lead|;
    assert s + h + p == lead + p;
    assert url[n..n + |p|] == url[..|lead + p|][n..];
  }

  /** No first-pattern shape matches inside the scheme and host. */
  lemma NoShapeInLead(url: string, s: string, h: string, p: string)
    requires s in Schemes && h in Hosts
    requires StartsWith(url, s + h + p)
    ensures forall j :: 0 <= j < |s + h| ==> FirstAltAt(url, Patterns[0], j).None?
  {
    var lead := s + h;
    var n := |lead|;
    assert s + h + p == lead + p;
    LeadHasNoY(s, h);
    forall j | 0 <= j < n ensures FirstAltAt(url, Patterns[0], j).None? {
      assert url[j] == lead[j] by { assert url[..n] == url[..|lead + p|][..n]; }
      assert forall q :: q in Patterns[0] ==> q != [] && q[0] == 'y';
      NoMatchWithoutY(url, Patterns[0], j);
    }
  }

  /**
   * An accepted URL whose id run is at least eleven characters long is one
   * the server extracts an id from; for the first three shapes the id is
   * the first eleven characters of that run.
   */
  lemma AcceptedLongIdExtracted(url: string, s: string, h: string, p: string)
    requires s in Schemes && h in Hosts && p in Shapes
    requires StartsWith(url, s + h + p)
    requires |s + h + p| + IdLength <= |url|
    requires AllIdChars(url[|s + h + p|..|s + h + p| + IdLength])
    ensures ValidateYouTubeUrl(url)
    ensures VideoIdOf(url).Some?
    ensures p != LegacyPrefix ==> VideoIdOf(url) == Some(url[|s + h + p|..|s + h + p| + IdLength])
  {
    LongIdAccepted(url, s, h, p);
    LongIdFound(url, p, |s + h|);
    if p != LegacyPrefix {
      FirstPatternShape(p);
      FirstShapeIdExtracted(url, s, h, p);
    }
  }

  /** After a scheme and a host, a first-pattern shape and eleven id characters give those characters as the id. */
  lemma FirstShapeIdExtracted(url: string, s: string, h: string, p: string)
    requires s in Schemes && h in Hosts && p in Patterns[0]
    requires StartsWith(url, s + h + p) && MatchesAt(url, p, |s + h|)
    ensures VideoIdOf(url) == Some(url[|s + h + p|..|s + h + p| + IdLength])
  {
    NoShapeInLead(url, s, h, p);
    LeftmostFirstPattern(url, |s + h|, p);
  }

  /** Every shape but the legacy one belongs to the server's first pattern. */
  lemma FirstPatternShape(p: string)
    requires p in Shapes && p != LegacyPrefix
    ensures p in Patterns[0]
  {
  }

  /** A scheme, a host, a shape and eleven id characters pass the validator, and the shape matches after the host. */
  lemma LongIdAccepted(url: string, s: string, h: string, p: string)
    requires s in Schemes && h in Hosts && p in Shapes
    requires StartsWith(url, s + h + p)
    requires |s + h + p| + IdLength <= |url|
    requires AllIdChars(url[|s + h + p|..|s + h + p| + IdLength])
    ensures ValidateYouTubeUrl(url) && MatchesAt(url, p, |s + h|)
  {
    ShapeAfterLead(url, s, h, p);
    assert IsIdChar(url[|s + h + p|]) by {
      assert url[|s + h + p|] == url[|s + h + p|..|s + h + p| + IdLength][0];
    }
    LeadThenIdAccepted(url, s, h, p);
  }

  /** A scheme, a host and a shape followed by an id character pass the validator. */
  lemma LeadThenIdAccepted(url: string, s: string, h: string, p: string)
    requires s in Schemes && h in Hosts && p in Shapes && LeadThenId(url, s + h + p)
    ensures ValidateYouTubeUrl(url)
  {
    assert Acceptable(url);
    ValidateIff(url);
  }

  /** A shape matched anywhere means the server finds an id. */
  lemma LongIdFound(url: string, p: string, n: int)
    requires p in Shapes && MatchesAt(url, p, n)
    ensures VideoIdOf(url).Some?
  {
    VideoIdCharacterised(url);
  }

  /**
   * The validator does not ask for eleven id characters: it lets through a
   * short link the server cannot extract an id from.
   */
  lemma ShortIdPassesValidation()
    ensures ValidateYouTubeUrl("https://youtu.be/abc")
    ensures VideoIdOf("https://youtu.be/abc") == None
  {
    var url := "https://youtu.be/abc";
    assert LeadThenId(url, Schemes[1] + Hosts[0] + Shapes[1]);
    ValidateIff(url);
    ShortIdRejected();
  }

  /** A URL that does not start with http:// or https:// is refused. */
  lemma NoSchemeRejected(url: string)
    requires forall s :: s in Schemes ==> !StartsWith(url, s)
    ensures !ValidateYouTubeUrl(url)
  {
    SomePatternIff(url, Shapes);
  }

  /** `youtu.be/` followed by an eleven-character id, with nothing before it, yields that id. */
  lemma BareShortLinkId(id: string)
    requires |id| == IdLength && AllIdChars(id)
    ensures VideoIdOf(ShortPrefix + id) == Some(id)
  {
    var url := ShortPrefix + id;
    assert url[..|ShortPrefix|] == ShortPrefix;
    assert url[|ShortPrefix|..|ShortPrefix| + IdLength] == id;
    assert MatchesAt(url, ShortPrefix, 0);
    PatternPrefixes(ShortPrefix);
    LeftmostFirstPattern(url, 0, ShortPrefix);
  }

  /**
   * The server's pattern is unanchored: a URL without a scheme still yields
   * an id there, though the validator refuses it.
   */
  lemma SchemelessRejectedButExtracted(id: string)
    requires |id| == IdLength && AllIdChars(id)
    ensures !ValidateYouTubeUrl(ShortPrefix + id)
    ensures VideoIdOf(ShortPrefix + id) == Some(id)
  {
    var url := ShortPrefix + id;
    forall s | s in Schemes ensures !StartsWith(url, s) {
      assert url[0] == 'y';
    }
    NoSchemeRejected(url);
    BareShortLinkId(id);
  }
}
