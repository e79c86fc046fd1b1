/**
 * The text handling of `fetchCaptionContent`: the `<text …>…</text>`
 * elements of a timed-text XML document, tag stripping, HTML entity
 * decoding, whitespace collapsing and trimming, and the 50-character floor.
 */
module Captions {
  import opened Wrappers
  import opened Text

  const OpenTag: string := "<text"
  const CloseTag: string := "</text>"

  /** A string the caption pattern matches in full: `<text`, attributes, `>`, a non-empty body without '<', `</text>`. */
  ghost predicate IsCaptionElement(m: string) {
    exists a, b :: '>' !in a && b != [] && '<' !in b && m == OpenTag + a + ">" + b + CloseTag
  }

  /** The pieces a match consists of make up a caption element. */
  lemma ElementFromPieces(s: string, i: nat, j: nat, k: nat)
    requires ContainsAt(s, OpenTag, i) && i + |OpenTag| <= j < k && ContainsAt(s, CloseTag, k)
    requires s[j] == '>' && j + 1 < k
    requires forall x :: i + |OpenTag| <= x < j ==> s[x] != '>'
    requires forall x :: j + 1 <= x < k ==> s[x] != '<'
    ensures IsCaptionElement(s[i..k + |CloseTag|])
  {
    var a, b := s[i + |OpenTag|..j], s[j + 1..k];
    assert '>' !in a;
    assert '<' !in b;
    assert s[i..k + |CloseTag|] == s[i..i + |OpenTag|] + a + [s[j]] + b + s[k..k + |CloseTag|];
  }

  /**
   * Where a match of `<text[^>]*>([^<]+)<\/text>` starting at `i` ends, if
   * one starts there.  Neither character class can step over the character
   * that ends it, so the match, when there is one, is unique.
   */
  function CaptionMatchAt(s: string, i: nat): (e: Option<nat>)
    ensures e.Some? ==> i < e.value <= |s| && IsCaptionElement(s[i..e.value])
  {
    if !ContainsAt(s, OpenTag, i) then None
    else
      var j := IndexOfChar(s, '>', i + |OpenTag|);
      if j < 0 then None
      else
        var k := IndexOfChar(s, '<', j + 1);
        if k <= j + 1 || !ContainsAt(s, CloseTag, k) then None
        else
          ElementFromPieces(s, i, j, k);
          Some(k + |CloseTag|)
  }

  /** `xmlText.match(/<text[^>]*>([^<]+)<\/text>/g)` from position `from` on: the matched strings, left to right. */
  function CaptionMatches(s: string, from: nat): (ms: seq<string>)
    ensures forall m :: m in ms ==> IsCaptionElement(m)
    decreases |s| - from
  {
    if from >= |s| then []
    else match CaptionMatchAt(s, from)
      case Some(e) => [s[from..e]] + CaptionMatches(s, e)
      case None => CaptionMatches(s, from + 1)
  }

  /** `s.replace(/<[^>]*>/g, '')`: each '<' up to the first '>' after it goes; a '<' with no '>' after it stays. */
  function StripTags(s: string): (r: string)
    ensures |r| <= |s|
    decreases |s|
  {
    if s == [] then []
    else if s[0] == '<' then
      var j := IndexOfChar(s, '>', 1);
      if j < 0 then [s[0]] + StripTags(s[1..]) else StripTags(s[j + 1..])
    else [s[0]] + StripTags(s[1..])
  }

  /** Text without '<' passes tag stripping unchanged. */
  lemma {:induction false} StripPlain(b: string, t: string)
    requires '<' !in b
    ensures StripTags(b + t) == b + StripTags(t)
    decreases |b|
  {
    if b != [] {
      assert (b + t)[0] == b[0] && b[0] != '<';
      assert (b + t)[1..] == b[1..] + t;
      assert StripTags(b + t) == [b[0]] + StripTags(b[1..] + t);
      StripPlain(b[1..], t);
      assert b + StripTags(t) == [b[0]] + (b[1..] + StripTags(t));
    } else {
      assert b + t == t;
    }
  }

  /** Stripping the tags of a matched caption element leaves exactly its body. */
  lemma StripCaption(a: string, b: string)
    requires '>' !in a && '<' !in b
    ensures StripTags(OpenTag + a + ">" + b + CloseTag) == b
  {
    var m := OpenTag + a + ">" + b + CloseTag;
    var j := |OpenTag + a|;
    assert m[j] == '>';
    forall x | 1 <= x < j ensures m[x] != '>' {
      assert m[x] == (OpenTag + a)[x];
    }
    assert IndexOfChar(m, '>', 1) == j;
    assert m[j + 1..] == b + CloseTag;
    StripPlain(b, CloseTag);
    assert StripTags(CloseTag) == [];
  }

  /** Every matched element strips to a non-empty body free of '<'. */
  lemma StripMatched(m: string)
    requires IsCaptionElement(m)
    ensures var t := StripTags(m); t != [] && '<' !in t
  {
    var a, b :| '>' !in a && b != [] && '<' !in b && m == OpenTag + a + ">" + b + CloseTag;
    StripCaption(a, b);
  }

  /** The five entities, in the order the code replaces them. */
  const Entities: seq<(string, char)> := [("&amp;", '&'), ("&lt;", '<'), ("&gt;", '>'), ("&quot;", '"'), ("&#39;", '\'')]

  /** The entity decoding as written: five global replacements in a row, `&amp;` first. */
  function DecodeAsWritten(s: string): string {
    ReplaceAll(ReplaceAll(ReplaceAll(ReplaceAll(ReplaceAll(s, "&amp;", "&"), "&lt;", "<"), "&gt;", ">"), "&quot;", "\""), "&#39;", "'")
  }

  /** The entity that starts `s`, if one does. */
  function EntityAt(s: string): (r: Option<(string, char)>)
    ensures r.Some? ==> r.value in Entities && StartsWith(s, r.value.0) && |r.value.0| > 0
    ensures r.None? ==> forall e :: e in Entities ==> !StartsWith(s, e.0)
    ensures s == [] || s[0] != '&' ==> r.None?
  {
    if StartsWith(s, "&amp;") then Some(Entities[0])
    else if StartsWith(s, "&lt;") then Some(Entities[1])
    else if StartsWith(s, "&gt;") then Some(Entities[2])
    else if StartsWith(s, "&quot;") then Some(Entities[3])
    else if StartsWith(s, "&#39;") then Some(Entities[4])
    else None
  }

  /** Decoding in one left-to-right pass, so a decoded '&' never starts another entity. */
  function DecodeEntities(s: string): string
    decreases |s|
  {
    if s == [] then []
    else match EntityAt(s)
      case Some(e) => [e.1] + DecodeEntities(s[|e.0|..])
      case None => [s[0]] + DecodeEntities(s[1..])
  }

  /** The escaping the entities undo. */
  function EncodeChar(c: char): (r: string)
    ensures r != [] && r[0] == (if c in "&<>\"'" then '&' else c)
  {
    if c == '&' then "&amp;"
    else if c == '<' then "&lt;"
    else if c == '>' then "&gt;"
    else if c == '"' then "&quot;"
    else if c == '\'' then "&#39;"
    else [c]
  }

  function EncodeEntities(s: string): string
    decreases |s|
  {
    if s == [] then [] else EncodeChar(s[0]) + EncodeEntities(s[1..])
  }

  /** An escape of `e`'s character followed by `t` starts with entity `e`, and the pass resumes at `t`. */
  lemma DecodeEntityThen(k: nat, t: string)
    requires k < |Entities|
    ensures DecodeEntities(Entities[k].0 + t) == [Entities[k].1] + DecodeEntities(t)
  {
    var e := Entities[k];
    var s := e.0 + t;
    assert s[..|e.0|] == e.0 && s[|e.0|..] == t;
    if k == 0 {
      assert EntityAt(s) == Some(e);
    } else if k == 1 {
      assert !StartsWith(s, "&amp;") by { assert s[1] == 'l'; }
      assert EntityAt(s) == Some(e);
    } else if k == 2 {
      assert !StartsWith(s, "&amp;") && !StartsWith(s, "&lt;") by { assert s[1] == 'g'; }
      assert EntityAt(s) == Some(e);
    } else if k == 3 {
      assert !StartsWith(s, "&amp;") && !StartsWith(s, "&lt;") && !StartsWith(s, "&gt;") by { assert s[1] == 'q'; }
      assert EntityAt(s) == Some(e);
    } else {
      assert !StartsWith(s, "&amp;") && !StartsWith(s, "&lt;") && !StartsWith(s, "&gt;") && !StartsWith(s, "&quot;")
        by { assert s[1] == '#'; }
      assert EntityAt(s) == Some(e);
    }
  }

  /** Decoding an escaped character gives the character back and leaves what follows to the rest of the pass. */
  lemma DecodeEncodedChar(c: char, t: string)
    ensures DecodeEntities(EncodeChar(c) + t) == [c] + DecodeEntities(t)
  {
    if c == '&' {
      DecodeEntityThen(0, t);
    } else if c == '<' {
      DecodeEntityThen(1, t);
    } else if c == '>' {
      DecodeEntityThen(2, t);
    } else if c == '"' {
      DecodeEntityThen(3, t);
    } else if c == '\'' {
      DecodeEntityThen(4, t);
    } else {
      var s := [c] + t;
      assert s[0] == c && s[1..] == t;
      forall e | e in Entities ensures !StartsWith(s, e.0) {
        assert e.0[0] == '&';
      }
      assert EntityAt(s) == None;
    }
  }

  /** The single pass undoes escaping: decoding an escaped text gives the text back. */
  lemma {:induction false} DecodeEncode(s: string)
    ensures DecodeEntities(EncodeEntities(s)) == s
    decreases |s|
  {
    if s != [] {
      DecodeEncodedChar(s[0], EncodeEntities(s[1..]));
      DecodeEncode(s[1..]);
      assert s == [s[0]] + s[1..];
    }
  }

  /** Text without '&' decodes to itself. */
  lemma {:induction false} DecodePlain(s: string)
    requires '&' !in s
    ensures DecodeEntities(s) == s
    decreases |s|
  {
    if s != [] {
      assert s[0] in s && s[0] != '&';
      assert EntityAt(s).None?;
      assert DecodeEntities(s) == [s[0]] + DecodeEntities(s[1..]);
      assert forall c :: c in s[1..] ==> c in s;
      DecodePlain(s[1..]);
      assert s == [s[0]] + s[1..];
    }
  }

  /** Text without any of the five escaped characters encodes to itself. */
  lemma {:induction false} EncodePlain(s: string)
    requires forall i :: 0 <= i < |s| ==> s[i] !in "&<>\"'"
    ensures EncodeEntities(s) == s
    decreases |s|
  {
    if s != [] {
      EncodePlain(s[1..]);
      assert s == [s[0]] + s[1..];
    }
  }

  /**
   * Decoding `&amp;` first turns an escaped "&lt;" into '<': the chained
   * replacements decode twice, where the single pass gives "&lt;" back.
   */
  lemma DoubleDecoding()
    ensures EncodeEntities("&lt;") == "&amp;lt;"
    ensures DecodeAsWritten("&amp;lt;") == "<"
    ensures DecodeEntities("&amp;lt;") == "&lt;"
  {
    EscapedEntity();
    ChainDecodesTwice();
    PassDecodesOnce();
  }

  /** Escaping the text "&lt;" escapes its '&'. */
  lemma EscapedEntity()
    ensures EncodeEntities("&lt;") == "&amp;lt;"
  {
    EncodePlain("lt;");
    assert "&lt;"[1..] == "lt;";
    assert "&amp;" + "lt;" == "&amp;lt;";
  }

  /** The chained replacements turn "&amp;lt;" into '<'. */
  lemma ChainDecodesTwice()
    ensures DecodeAsWritten("&amp;lt;") == "<"
  {
    var s := "&amp;lt;";
    assert s[5..] == "lt;" && s[..5] == "&amp;";
    assert ReplaceAll("lt;", "&amp;", "&") == "lt;";
    assert ReplaceAll(s, "&amp;", "&") == "&lt;";
    assert ReplaceAll("&lt;", "&lt;", "<") == "<" by {
      assert ReplaceAll("", "&lt;", "<") == "";
    }
    assert ReplaceAll("<", "&gt;", ">") == "<";
    assert ReplaceAll("<", "&quot;", "\"") == "<";
    assert ReplaceAll("<", "&#39;", "'") == "<";
  }

  /** The single pass turns "&amp;lt;" into "&lt;". */
  lemma PassDecodesOnce()
    ensures DecodeEntities("&amp;lt;") == "&lt;"
  {
    assert "&amp;" + "lt;" == "&amp;lt;";
    DecodeEntityThen(0, "lt;");
    DecodePlain("lt;");
  }

  /** Single spacing: white space only as ' ', never two in a row. */
  ghost predicate SingleSpaced(t: string) {
    && (forall i :: 0 <= i < |t| && IsSpace(t[i]) ==> t[i] == ' ')
    && (forall i, j :: 0 <= i < j < |t| && j == i + 1 ==> !(IsSpace(t[i]) && IsSpace(t[j])))
  }

  /** `s.replace(/\s+/g, ' ')`: each maximal run of white space becomes one space. */
  function CollapseSpaces(s: string): (r: string)
    ensures r == [] <==> s == []
    ensures r != [] ==> (IsSpace(r[0]) <==> IsSpace(s[0]))
    ensures r != [] ==> (IsSpace(r[|r| - 1]) <==> IsSpace(s[|s| - 1]))
    ensures SingleSpaced(r)
    decreases |s|
  {
    if s == [] then []
    else if IsSpace(s[0]) then
      " " + CollapseSpaces(s[SpaceRun(s)..])
    else
      [s[0]] + CollapseSpaces(s[1..])
  }

  /** Collapsing white space keeps every word, in order: no two words merge. */
  lemma {:induction false} CollapseKeepsFields(s: string)
    ensures Fields(CollapseSpaces(s), IsSpace) == Fields(s, IsSpace)
    decreases |s|
  {
    if s == [] {
    } else if IsSpace(s[0]) {
      var n := SpaceRun(s);
      var rest := CollapseSpaces(s[n..]);
      CollapseKeepsFields(s[n..]);
      FieldsSkip(s, IsSpace, n);
      assert (" " + rest)[1..] == rest;
    } else {
      var rest := CollapseSpaces(s[1..]);
      CollapseKeepsFields(s[1..]);
      FieldsCons(s[0], s[1..], IsSpace);
      FieldsCons(s[0], rest, IsSpace);
      assert [s[0]] + s[1..] == s;
    }
  }

  /** The characters of `s` that are not white space, in order. */
  function NonSpace(s: string): string
    decreases |s|
  {
    if s == [] then [] else (if IsSpace(s[0]) then [] else [s[0]]) + NonSpace(s[1..])
  }

  lemma {:induction false} NonSpaceAppend(s: string, t: string)
    ensures NonSpace(s + t) == NonSpace(s) + NonSpace(t)
    decreases |s|
  {
    if s != [] {
      var h := if IsSpace(s[0]) then [] else [s[0]];
      assert (s + t)[0] == s[0];
      assert (s + t)[1..] == s[1..] + t;
      assert NonSpace(s + t) == h + NonSpace(s[1..] + t);
      NonSpaceAppend(s[1..], t);
      assert NonSpace(s) + NonSpace(t) == h + (NonSpace(s[1..]) + NonSpace(t));
    } else {
      assert s + t == t;
    }
  }

  /** White space only: nothing survives. */
  lemma {:induction false} NonSpaceOfSpaces(s: string)
    requires forall i :: 0 <= i < |s| ==> IsSpace(s[i])
    ensures NonSpace(s) == []
    decreases |s|
  {
    if s != [] {
      NonSpaceOfSpaces(s[1..]);
    }
  }

  /** Collapsing white space loses no other character. */
  lemma {:induction false} CollapseKeepsText(s: string)
    ensures NonSpace(CollapseSpaces(s)) == NonSpace(s)
    decreases |s|
  {
    if s == [] {
    } else if IsSpace(s[0]) {
      var n := SpaceRun(s);
      CollapseKeepsText(s[n..]);
      assert s == s[..n] + s[n..];
      NonSpaceAppend(s[..n], s[n..]);
      NonSpaceOfSpaces(s[..n]);
      NonSpaceAppend(" ", CollapseSpaces(s[n..]));
    } else {
      CollapseKeepsText(s[1..]);
      NonSpaceAppend([s[0]], CollapseSpaces(s[1..]));
    }
  }

  /** Dropping a white-space prefix loses no other character. */
  lemma DropLeadingSpaces(s: string, k: nat)
    requires k <= |s| && forall i :: 0 <= i < k ==> IsSpace(s[i])
    ensures NonSpace(s[k..]) == NonSpace(s)
  {
    var pre, post := s[..k], s[k..];
    NonSpaceAppend(pre, post);
    assert NonSpace(pre + post) == NonSpace(s) by { assert pre + post == s; }
    assert NonSpace(pre) == [] by {
      forall i | 0 <= i < |pre| ensures IsSpace(pre[i]) {
        assert pre[i] == s[i];
      }
      NonSpaceOfSpaces(pre);
    }
    assert [] + NonSpace(post) == NonSpace(post);
  }

  /** Dropping a white-space suffix loses no other character. */
  lemma {:induction false} DropTrailingSpaces(s: string, k: nat)
    requires k <= |s| && forall i :: k <= i < |s| ==> IsSpace(s[i])
    ensures NonSpace(s[..k]) == NonSpace(s)
    decreases |s|
  {
    if k < |s| {
      var init, last := s[..|s| - 1], s[|s| - 1];
      assert init[..k] == s[..k];
      DropTrailingSpaces(init, k);
      NonSpaceAppend(init, [last]);
      assert init + [last] == s;
      assert NonSpace([last]) == [] + NonSpace([]);
    } else {
      assert s[..k] == s;
    }
  }

  /** Trimming loses no character that is not white space. */
  lemma TrimKeepsText(s: string)
    ensures NonSpace(Trim(s)) == NonSpace(s)
  {
    var t := TrimStart(s);
    var r := TrimEnd(t);
    DropLeadingSpaces(s, |s| - |t|);
    DropTrailingSpaces(t, |r|);
    assert Trim(s) == r;
  }

  /** Every slice of a single-spaced string is single-spaced. */
  lemma SliceSingleSpaced(s: string, i: nat, j: nat)
    requires i <= j <= |s| && SingleSpaced(s)
    ensures SingleSpaced(s[i..j])
  {
    var t := s[i..j];
    forall k | 0 <= k < |t| - 1 ensures !(IsSpace(t[k]) && IsSpace(t[k + 1])) {
      assert t[k] == s[i + k] && t[k + 1] == s[i + k + 1];
    }
  }

  /** Trimming a single-spaced string keeps it single-spaced. */
  lemma TrimCollapsed(s: string)
    requires SingleSpaced(s)
    ensures SingleSpaced(Trim(s))
  {
    var t := Trim(s);
    var i := |s| - |TrimStart(s)|;
    assert ContainsAt(s, t, i);
    SliceSingleSpaced(s, i, i + |t|);
  }

  /** Trimming keeps every word. */
  lemma TrimKeepsFields(s: string)
    ensures Fields(Trim(s), IsSpace) == Fields(s, IsSpace)
  {
    var t := TrimStart(s);
    var r := TrimEnd(t);
    FieldsSkip(s, IsSpace, |s| - |t|);
    FieldsDropTrailing(t, IsSpace, |r|);
    assert Trim(s) == r;
  }

  /** A word, one white-space character and a non-space: the word is the first field. */
  lemma FieldsAtSpace(t: string, m: nat)
    requires m + 1 < |t| && m == RunLen(t, IsSpace) && !IsSpace(t[0]) && !IsSpace(t[m + 1])
    ensures Fields(t, IsSpace) == [t[..m]] + Fields(t[m + 1..], IsSpace)
    ensures Fields(t[m + 1..], IsSpace) != []
  {
    var u := t[m + 1..];
    assert t[m..][1..] == u;
    FieldsSkip(t[m..], IsSpace, 1);
    assert Fields(u, IsSpace) == [u[..RunLen(u, IsSpace)]] + Fields(u[RunLen(u, IsSpace)..], IsSpace);
  }

  /** In trimmed single-spaced text, a word is followed by one space and then a non-space. */
  lemma SpaceAfterWord(t: string, m: nat)
    requires SingleSpaced(t) && t != [] && !IsSpace(t[|t| - 1])
    requires m == RunLen(t, IsSpace) && m < |t|
    ensures t[m] == ' ' && m + 1 < |t| && !IsSpace(t[m + 1])
  {
    assert IsSpace(t[m]);
    assert !(IsSpace(t[m]) && IsSpace(t[m + 1]));
  }

  /**
   * A single-spaced string with no white space at either end is its words
   * joined by single spaces.
   */
  lemma {:induction false} SingleSpacedIsJoin(t: string)
    requires SingleSpaced(t) && (t == [] || (!IsSpace(t[0]) && !IsSpace(t[|t| - 1])))
    ensures t == Join(Fields(t, IsSpace), " ")
    decreases |t|
  {
    if t != [] {
      var m := RunLen(t, IsSpace);
      if m < |t| {
        SpaceAfterWord(t, m);
        var u := t[m + 1..];
        SliceSingleSpaced(t, m + 1, |t|);
        assert u[0] == t[m + 1] && u[|u| - 1] == t[|t| - 1];
        assert t == t[..m] + [t[m]] + u;
        SingleSpacedIsJoin(u);
        FieldsAtSpace(t, m);
        JoinCons(t[..m], Fields(u, IsSpace), " ");
        calc {
          Join(Fields(t, IsSpace), " ");
          Join([t[..m]] + Fields(u, IsSpace), " ");
          t[..m] + " " + Join(Fields(u, IsSpace), " ");
          t[..m] + " " + u;
          t;
        }
      } else {
        assert t[..m] == t && t[m..] == [];
      }
    }
  }

  /** `.replace(/\s+/g, ' ').trim()`. */
  function Normalise(s: string): (t: string)
    ensures SingleSpaced(t)
    ensures t == [] || (!IsSpace(t[0]) && !IsSpace(t[|t| - 1]))
    ensures NonSpace(t) == NonSpace(s)
    ensures t == Join(Fields(s, IsSpace), " ")
  {
    var c := CollapseSpaces(s);
    CollapseKeepsText(s);
    TrimKeepsText(c);
    TrimCollapsed(c);
    CollapseKeepsFields(s);
    TrimKeepsFields(c);
    SingleSpacedIsJoin(Trim(c));
    Trim(c)
  }

  /** The text of every matched element, tags stripped, decoded by `decode`, joined with single spaces. */
  function JoinedBodies(ms: seq<string>, decode: string -> string): (r: string)
    ensures ms == [] ==> r == []
    ensures |ms| == 1 ==> r == decode(StripTags(ms[0]))
  {
    Join(seq(|ms|, k requires 0 <= k < |ms| => decode(StripTags(ms[k]))), " ")
  }

  /**
   * The clean-up of the joined text: more than 50 characters once
   * normalised, or the "No text content found in captions" error.  The text
   * kept is the words of the joined text, each once and in order, joined by
   * single spaces.
   */
  function CleanedCaption(s: string): (r: Result<string>)
    ensures r.Success? <==> |Normalise(s)| > 50
    ensures r.Success? ==> r.value == Normalise(s)
    ensures r.Success? ==>
              && |r.value| > 50 && SingleSpaced(r.value) && !IsSpace(r.value[0]) && !IsSpace(r.value[|r.value| - 1])
              && NonSpace(r.value) == NonSpace(s)
    ensures r.Success? ==> r.value == Join(Fields(s, IsSpace), " ")
    ensures r.Failure? ==> r.error == "No text content found in captions"
  {
    var t := Normalise(s);
    if |t| > 50 then Success(t) else Failure("No text content found in captions")
  }

  /**
   * `fetchCaptionContent` after the download, with the chained entity
   * replacements: no match is the "No text content found in captions"
   * error; otherwise the joined bodies are cleaned up.
   */
  function CaptionText(xml: string): (r: Result<string>)
    ensures r.Success? <==>
              CaptionMatches(xml, 0) != [] && |Normalise(JoinedBodies(CaptionMatches(xml, 0), DecodeAsWritten))| > 50
    ensures r.Success? ==>
              && |r.value| > 50 && SingleSpaced(r.value) && !IsSpace(r.value[0]) && !IsSpace(r.value[|r.value| - 1])
              && NonSpace(r.value) == NonSpace(JoinedBodies(CaptionMatches(xml, 0), DecodeAsWritten))
    ensures r.Success? ==> r.value == Join(Fields(JoinedBodies(CaptionMatches(xml, 0), DecodeAsWritten), IsSpace), " ")
    ensures r.Failure? ==> r.error == "No text content found in captions"
  {
    var ms := CaptionMatches(xml, 0);
    if ms == [] then Failure("No text content found in captions")
    else CleanedCaption(JoinedBodies(ms, DecodeAsWritten))
  }

  /** The same with the single-pass entity decoding. */
  function IntendedCaptionText(xml: string): (r: Result<string>)
    ensures r.Success? <==>
              CaptionMatches(xml, 0) != [] && |Normalise(JoinedBodies(CaptionMatches(xml, 0), DecodeEntities))| > 50
    ensures r.Success? ==>
              && |r.value| > 50 && SingleSpaced(r.value) && !IsSpace(r.value[0]) && !IsSpace(r.value[|r.value| - 1])
              && NonSpace(r.value) == NonSpace(JoinedBodies(CaptionMatches(xml, 0), DecodeEntities))
    ensures r.Success? ==> r.value == Join(Fields(JoinedBodies(CaptionMatches(xml, 0), DecodeEntities), IsSpace), " ")
    ensures r.Failure? ==> r.error == "No text content found in captions"
  {
    var ms := CaptionMatches(xml, 0);
    if ms == [] then Failure("No text content found in captions")
    else CleanedCaption(JoinedBodies(ms, DecodeEntities))
  }

  /** A replacement whose pattern starts with a character the text lacks changes nothing. */
  lemma {:induction false} ReplaceAllAbsent(s: string, pat: string, rep: string)
    requires |pat| > 0 && pat[0] !in s
    ensures ReplaceAll(s, pat, rep) == s
    decreases |s|
  {
    if |s| >= |pat| {
      assert s[..|pat|][0] == s[0];
      ReplaceAllAbsent(s[1..], pat, rep);
      assert s == [s[0]] + s[1..];
    }
  }

  /** Text without '&' is left alone by the chained replacements too. */
  lemma DecodeAsWrittenPlain(s: string)
    requires '&' !in s
    ensures DecodeAsWritten(s) == s
  {
    ReplaceAllAbsent(s, "&amp;", "&");
    ReplaceAllAbsent(s, "&lt;", "<");
    ReplaceAllAbsent(s, "&gt;", ">");
    ReplaceAllAbsent(s, "&quot;", "\"");
    ReplaceAllAbsent(s, "&#39;", "'");
  }

  /** Bodies that two decodings decode alike join alike. */
  lemma JoinedBodiesAgree(ms: seq<string>, f: string -> string, g: string -> string)
    requires forall k :: 0 <= k < |ms| ==> f(StripTags(ms[k])) == g(StripTags(ms[k]))
    ensures JoinedBodies(ms, f) == JoinedBodies(ms, g)
  {
    assert seq(|ms|, k requires 0 <= k < |ms| => f(StripTags(ms[k])))
        == seq(|ms|, k requires 0 <= k < |ms| => g(StripTags(ms[k])));
  }

  /**
   * The two decodings differ only on captions with an '&': without one,
   * the caption text as written is the intended one.
   */
  lemma CaptionTextsAgreeWithoutAmpersand(xml: string)
    requires forall m :: m in CaptionMatches(xml, 0) ==> '&' !in StripTags(m)
    ensures CaptionText(xml) == IntendedCaptionText(xml)
  {
    var ms := CaptionMatches(xml, 0);
    forall k | 0 <= k < |ms| ensures DecodeAsWritten(StripTags(ms[k])) == DecodeEntities(StripTags(ms[k])) {
      assert ms[k] in ms;
      DecodeAsWrittenPlain(StripTags(ms[k]));
      DecodePlain(StripTags(ms[k]));
    }
    JoinedBodiesAgree(ms, DecodeAsWritten, DecodeEntities);
  }
}
