/**
 * The string clean-up applied to the language model's reply before
 * `JSON.parse`, for flashcards and for quiz questions.  Every global
 * `replace` is one left-to-right scan: where a match starts, it is replaced
 * and the scan resumes after it; elsewhere one character is kept.
 */
module JsonRepair {
  import opened Wrappers
  import opened Text

  /** A match at the head of the remaining text: its length and what replaces it. */
  datatype Edit = Edit(len: nat, rep: string)

  /** Matches are non-empty and lie inside the text they were found in. */
  ghost predicate ValidMatcher(m: string -> Option<Edit>) {
    forall x :: m(x).Some? ==> 0 < m(x).value.len <= |x|
  }

  /** `s.replace(/re/g, …)` for a pattern given by its matcher at a position. */
  function Scan(s: string, m: string -> Option<Edit>): string
    requires ValidMatcher(m)
    decreases |s|
  {
    if s == [] then []
    else match m(s)
      case Some(e) => e.rep + Scan(s[e.len..], m)
      case None => [s[0]] + Scan(s[1..], m)
  }

  /** A matcher that replaces every match by itself. */
  ghost predicate ReplacesBySelf(m: string -> Option<Edit>)
    requires ValidMatcher(m)
  {
    forall x :: m(x).Some? ==> m(x).value.rep == x[..m(x).value.len]
  }

  /** A step that replaces each match by itself changes nothing. */
  lemma {:induction false} ScanIdentity(s: string, m: string -> Option<Edit>)
    requires ValidMatcher(m) && ReplacesBySelf(m)
    ensures Scan(s, m) == s
    decreases |s|
  {
    if s != [] {
      match m(s)
      case Some(e) =>
        ScanIdentity(s[e.len..], m);
        assert s == s[..e.len] + s[e.len..];
      case None =>
        ScanIdentity(s[1..], m);
        assert s == [s[0]] + s[1..];
    }
  }

  /**
   * A matcher that keeps a closing "}]" at the end: nothing matches at a
   * '}' or ']', a match ending in '}' is replaced by something ending in
   * '}', and one ending in "}]" by something ending in "}]".
   */
  ghost predicate KeepsClosing(m: string -> Option<Edit>)
    requires ValidMatcher(m)
  {
    && (forall x :: x != [] && (x[0] == '}' || x[0] == ']') ==> m(x).None?)
    && (forall x :: m(x).Some? && x[m(x).value.len - 1] == '}' ==> EndsWith(m(x).value.rep, "}"))
    && (forall x :: m(x).Some? && m(x).value.len >= 2 && x[m(x).value.len - 2..m(x).value.len] == "}]" ==>
          EndsWith(m(x).value.rep, "}]"))
  }

  /** A matcher that never matches at a '['. */
  ghost predicate KeepsOpening(m: string -> Option<Edit>) {
    forall x :: x != [] && x[0] == '[' ==> m(x).None?
  }

  /** Text ending in "}]" still does after a cut that leaves those two characters. */
  lemma ClosedSuffix(s: string, k: nat)
    requires EndsWith(s, "}]") && k <= |s| - 2
    ensures EndsWith(s[k..], "}]")
  {
    assert s[k..][|s[k..]| - 2..] == s[|s| - 2..];
  }

  /** A match that ends just before a final ']' and is replaced by text ending in '}' leaves "}]" at the end. */
  lemma ScanAfterBrace(s: string, m: string -> Option<Edit>)
    requires ValidMatcher(m) && m("]").None?
    requires m(s).Some? && m(s).value.len == |s| - 1 && s[|s| - 1] == ']' && EndsWith(m(s).value.rep, "}")
    ensures EndsWith(Scan(s, m), "}]")
  {
    var e := m(s).value;
    assert s[e.len..] == "]";
    assert Scan("]", m) == [']'] + Scan([], m);
    var t := e.rep + "]";
    assert Scan(s, m) == t;
    assert t[|t| - 2..] == "}]" by { assert t[|t| - 2] == e.rep[|e.rep| - 1]; }
  }

  /** A match that ends at the final '}' of a closing "}]" keeps the text closed. */
  lemma MatchToBraceKeepsClosing(s: string, m: string -> Option<Edit>)
    requires ValidMatcher(m) && KeepsClosing(m)
    requires EndsWith(s, "}]") && m(s).Some? && m(s).value.len == |s| - 1
    ensures EndsWith(Scan(s, m), "}]")
  {
    assert s[|s| - 2] == '}' && s[|s| - 1] == ']' by { assert s[|s| - 2..] == "}]"; }
    assert m("]").None?;
    ScanAfterBrace(s, m);
  }

  /** A match that takes in the whole closing "}]" keeps the text closed. */
  lemma MatchToEndKeepsClosing(s: string, m: string -> Option<Edit>)
    requires ValidMatcher(m) && KeepsClosing(m)
    requires EndsWith(s, "}]") && m(s).Some? && m(s).value.len == |s|
    ensures EndsWith(Scan(s, m), "}]")
  {
    var e := m(s).value;
    assert s[e.len - 2..e.len] == "}]" && s[e.len..] == [];
    assert Scan(s, m) == e.rep + [];
  }

  /** A step that matches at no bracket leaves the bare closing "}]" alone. */
  lemma ScanKeepsCloser(m: string -> Option<Edit>)
    requires ValidMatcher(m) && KeepsClosing(m)
    ensures Scan("}]", m) == "}]"
  {
    var s: string := "}]";
    assert s[0] == '}' && s[1..] == "]";
    assert m(s).None?;
    assert m("]").None?;
    assert Scan("]", m) == "]" + Scan([], m);
    assert Scan(s, m) == [s[0]] + Scan(s[1..], m);
  }

  /** A step whose matcher keeps a closing "}]" keeps it at the end of the whole text. */
  lemma {:induction false} ScanKeepsClosing(s: string, m: string -> Option<Edit>)
    requires ValidMatcher(m) && KeepsClosing(m)
    requires EndsWith(s, "}]")
    ensures EndsWith(Scan(s, m), "}]")
    decreases |s|
  {
    match m(s)
    case Some(e) =>
      if e.len <= |s| - 2 {
        ClosedSuffix(s, e.len);
        ScanKeepsClosing(s[e.len..], m);
        assert Scan(s, m) == e.rep + Scan(s[e.len..], m);
      } else if e.len == |s| - 1 {
        MatchToBraceKeepsClosing(s, m);
      } else {
        MatchToEndKeepsClosing(s, m);
      }
    case None =>
      if |s| == 2 {
        assert s == "}]";
        ScanKeepsCloser(m);
      } else {
        ClosedSuffix(s, 1);
        ScanKeepsClosing(s[1..], m);
        assert Scan(s, m) == [s[0]] + Scan(s[1..], m);
      }
  }

  /** A step whose matcher never matches at a '[' keeps a leading '['. */
  lemma ScanKeepsOpening(s: string, m: string -> Option<Edit>)
    requires ValidMatcher(m) && KeepsOpening(m)
    requires s != [] && s[0] == '['
    ensures Scan(s, m) != [] && Scan(s, m)[0] == '['
  {
    assert m(s).None?;
  }

  // ---- The individual steps ----

  /** `/\[[\s\S]*\]/`: from the first '[' to the last ']' after it, or the text unchanged when there is no such pair. */
  function ExtractArray(s: string): (r: string)
    ensures var i, j := IndexOfChar(s, '[', 0), LastIndexOfChar(s, ']');
            if 0 <= i < j then r == s[i..j + 1] && r[0] == '[' && r[|r| - 1] == ']' else r == s
  {
    var i, j := IndexOfChar(s, '[', 0), LastIndexOfChar(s, ']');
    if 0 <= i < j then s[i..j + 1] else s
  }

  /** The global, case-insensitive pattern ```` ```json\s* ````: the fence, "json" in any case, and the white space after it. */
  function FenceJsonAt(x: string): (r: Option<Edit>)
    ensures r.Some? ==> 7 <= r.value.len <= |x| && r.value.rep == [] && StartsWith(x, "```")
    ensures r.Some? ==> forall k :: 7 <= k < r.value.len ==> IsSpace(x[k])
  {
    if |x| >= 7 && x[..3] == "```" && ToLower(x[3..7]) == "json" then Some(Edit(7 + SpaceRun(x[7..]), ""))
    else None
  }

  /** The global, case-insensitive pattern ```` ```\s* ````: a fence and the white space after it. */
  function FenceAt(x: string): (r: Option<Edit>)
    ensures r.Some? <==> StartsWith(x, "```")
    ensures r.Some? ==> 3 <= r.value.len <= |x| && r.value.rep == []
    ensures r.Some? ==> forall k :: 3 <= k < r.value.len ==> IsSpace(x[k])
  {
    if |x| >= 3 && x[..3] == "```" then Some(Edit(3 + SpaceRun(x[3..]), "")) else None
  }

  /** The anchored pattern `^\s*[^[]*` replaced by nothing: everything before the first '['; all of it when there is none. */
  function StripBeforeArray(s: string): (r: string)
    ensures r == [] || r[0] == '['
    ensures r == [] <==> '[' !in s
    ensures EndsWith(s, r) && '[' !in s[..|s| - |r|]
  {
    var i := IndexOfChar(s, '[', 0);
    if i < 0 then "" else s[i..]
  }

  /**
   * `.replace(/[^}]*$/, '}]')` as written: the text after the last '}'
   * (all of it when there is none) becomes "}]".
   */
  function CloseAsWritten(s: string): (r: string)
    ensures EndsWith(r, "}]")
    ensures '}' in s ==> EndsWith(r, "}}]")
    ensures s != [] && s[0] == '[' && '}' in s ==> r[0] == '['
    ensures '}' !in s ==> r == "}]"
  {
    var p := LastIndexOfChar(s, '}') + 1;
    var r := s[..p] + "}]";
    assert '}' in s ==> r[|r| - 3..] == [s[p - 1]] + "}]";
    r
  }

  /** On text that already ends in "}]" the step doubles the final brace. */
  lemma CloseAsWrittenDoublesBrace(s: string)
    requires EndsWith(s, "}]")
    ensures CloseAsWritten(s) == s[..|s| - 1] + "}]"
    ensures CloseAsWritten(s) != s
  {
    assert s[|s| - 2] == '}' && s[|s| - 1] == ']';
    assert LastIndexOfChar(s, '}') == |s| - 2;
  }

  /** A well-formed one-element array is damaged by the step. */
  lemma CloseAsWrittenExample()
    ensures CloseAsWritten("[{}]") == "[{}}]"
  {
    CloseAsWrittenDoublesBrace("[{}]");
  }

  /** The evident intent: drop what follows the last '}' and close the array after it. */
  function CloseArray(s: string): (r: string)
    ensures EndsWith(r, "}]")
    ensures EndsWith(s, "}]") ==> r == s
    ensures s != [] && s[0] == '[' && '}' in s ==> r[0] == '['
    ensures '}' !in s ==> r == "}]"
  {
    var k := LastIndexOfChar(s, '}');
    assert EndsWith(s, "}]") ==> k == |s| - 2 && s == s[..k + 1] + "]" by {
      if EndsWith(s, "}]") {
        assert s[|s| - 2] == '}' && s[|s| - 1] == ']' by { assert s[|s| - 2..] == "}]"; }
      }
    }
    if k < 0 then "}]" else s[..k + 1] + "]"
  }

  /** `/,(\s*[}\]])/g` → `$1`: a comma before a closing bracket goes. */
  function TrailingCommaAt(x: string): (r: Option<Edit>)
    ensures r.Some? ==> var e := r.value;
              && 2 <= e.len <= |x| && x[0] == ',' && (x[e.len - 1] == '}' || x[e.len - 1] == ']')
              && (forall k :: 1 <= k < e.len - 1 ==> IsSpace(x[k]))
              && e.rep == x[1..e.len]
  {
    if x != [] && x[0] == ',' then
      var n := SpaceRun(x[1..]);
      if 1 + n < |x| && (x[1 + n] == '}' || x[1 + n] == ']') then Some(Edit(n + 2, x[1..n + 2])) else None
    else None
  }

  /** `/([{,]\s*)(\w+):/g` → `$1"$2":`: an unquoted key gets quotes. */
  function BareKeyAt(x: string): (r: Option<Edit>)
    ensures r.Some? ==> var e := r.value;
              && 3 <= e.len <= |x| && (x[0] == '{' || x[0] == ',') && x[e.len - 1] == ':'
              && EndsWith(e.rep, "\":")
  {
    if x != [] && (x[0] == '{' || x[0] == ',') then
      var n := SpaceRun(x[1..]);
      var w := RunLen(x[1 + n..], c => !IsWordChar(c));
      if w > 0 && 1 + n + w < |x| && x[1 + n + w] == ':' then
        var key := x[..1 + n] + "\"" + x[1 + n..1 + n + w];
        ConcatEnds(key, "\":");
        Some(Edit(2 + n + w, key + "\":"))
      else None
    else None
  }

  /** `/:\s*'([^']*)'/g` → `:"$1"`: a single-quoted value gets double quotes. */
  function SingleQuotedAt(x: string): (r: Option<Edit>)
    ensures r.Some? ==> var e := r.value;
              && 3 <= e.len <= |x| && x[0] == ':' && x[e.len - 1] == '\''
              && StartsWith(e.rep, ":\"") && EndsWith(e.rep, "\"")
  {
    if x != [] && x[0] == ':' then
      var n := SpaceRun(x[1..]);
      if 1 + n < |x| && x[1 + n] == '\'' then
        var b := RunLen(x[2 + n..], c => c == '\'');
        if 2 + n + b < |x| then Some(Edit(3 + n + b, ":\"" + x[2 + n..2 + n + b] + "\"")) else None
      else None
    else None
  }

  /** `/\\n/g` → ' ': an escaped newline (backslash, 'n') becomes a space. */
  function EscapedNewlineAt(x: string): (r: Option<Edit>)
    ensures r.Some? <==> |x| >= 2 && x[0] == '\\' && x[1] == 'n'
    ensures r.Some? ==> r.value == Edit(2, " ")
  {
    if |x| >= 2 && x[0] == '\\' && x[1] == 'n' then Some(Edit(2, " ")) else None
  }

  /** `/\\"/g` → `\\"` as written: an escaped quote replaced by itself. */
  function EscapedQuoteAt(x: string): (r: Option<Edit>)
    ensures r.Some? <==> |x| >= 2 && x[0] == '\\' && x[1] == '"'
    ensures r.Some? ==> r.value == Edit(2, x[..2])
  {
    if |x| >= 2 && x[0] == '\\' && x[1] == '"' then Some(Edit(2, "\\\"")) else None
  }

  /** `/"/g` → `"` as written: both "smart quote" lines have the straight quote on both sides. */
  function StraightQuoteAt(x: string): (r: Option<Edit>)
    ensures r.Some? <==> x != [] && x[0] == '"'
    ensures r.Some? ==> r.value == Edit(1, x[..1])
  {
    if x != [] && x[0] == '"' then Some(Edit(1, "\"")) else None
  }

  /** The evident intent of the smart-quote lines: a curly double quote becomes a straight one. */
  function CurlyQuoteAt(x: string): (r: Option<Edit>)
    ensures r.Some? <==> x != [] && (x[0] == '\U{201C}' || x[0] == '\U{201D}')
    ensures r.Some? ==> r.value == Edit(1, "\"")
  {
    if x != [] && (x[0] == '\U{201C}' || x[0] == '\U{201D}') then Some(Edit(1, "\"")) else None
  }

  lemma MatchersValid()
    ensures ValidMatcher(FenceJsonAt) && ValidMatcher(FenceAt) && ValidMatcher(TrailingCommaAt)
    ensures ValidMatcher(BareKeyAt) && ValidMatcher(SingleQuotedAt) && ValidMatcher(EscapedNewlineAt)
    ensures ValidMatcher(EscapedQuoteAt) && ValidMatcher(StraightQuoteAt) && ValidMatcher(CurlyQuoteAt)
  {
  }

  /** The two "smart quote" lines and the escaped-quote line replace every match by itself. */
  lemma AsWrittenQuoteStepsIdentity(s: string)
    ensures Scan(s, StraightQuoteAt) == s
    ensures Scan(s, EscapedQuoteAt) == s
  {
    MatchersValid();
    forall x | StraightQuoteAt(x).Some? ensures StraightQuoteAt(x).value.rep == x[..1] {
      assert x[..1] == [x[0]];
    }
    forall x | EscapedQuoteAt(x).Some? ensures EscapedQuoteAt(x).value.rep == x[..2] {
      assert x[..2] == [x[0], x[1]];
    }
    ScanIdentity(s, StraightQuoteAt);
    ScanIdentity(s, EscapedQuoteAt);
  }

  /** With curly quotes replaced, none is left and no other character changes. */
  lemma {:induction false} CurlyQuotesReplaced(s: string)
    ensures var r := Scan(s, CurlyQuoteAt);
            |r| == |s| && forall i :: 0 <= i < |s| ==>
              r[i] == (if s[i] == '\U{201C}' || s[i] == '\U{201D}' then '"' else s[i])
    decreases |s|
  {
    MatchersValid();
    if s != [] {
      var t := s[1..];
      CurlyQuotesReplaced(t);
      var head: string := if s[0] == '\U{201C}' || s[0] == '\U{201D}' then "\"" else [s[0]];
      var r := Scan(s, CurlyQuoteAt);
      assert r == head + Scan(t, CurlyQuoteAt);
      forall i | 0 <= i < |s|
        ensures r[i] == (if s[i] == '\U{201C}' || s[i] == '\U{201D}' then '"' else s[i])
      {
        if i > 0 {
          assert s[i] == t[i - 1];
        }
      }
    }
  }

  /** The smart-quote line as written leaves a curly quote where it was. */
  lemma CurlyQuoteSurvives()
    ensures Scan("\U{201C}", StraightQuoteAt) == "\U{201C}"
    ensures Scan("\U{201C}", CurlyQuoteAt) == "\""
  {
    AsWrittenQuoteStepsIdentity("\U{201C}");
    CurlyQuotesReplaced("\U{201C}");
  }

  /** A matcher whose matches end in neither '}' nor ']' and never start at one keeps a closing "}]". */
  lemma KeepsClosingWhenClear(m: string -> Option<Edit>)
    requires ValidMatcher(m)
    requires forall x :: x != [] && (x[0] == '}' || x[0] == ']') ==> m(x).None?
    requires forall x :: m(x).Some? ==> x[m(x).value.len - 1] != '}' && x[m(x).value.len - 1] != ']'
    ensures KeepsClosing(m)
  {
    forall x | m(x).Some? && m(x).value.len >= 2
      ensures x[m(x).value.len - 2..m(x).value.len] != "}]"
    {
      var k := m(x).value.len;
      assert x[k - 2..k][1] == x[k - 1];
    }
  }

  lemma TrailingCommaKeepsClosing()
    ensures ValidMatcher(TrailingCommaAt) && KeepsClosing(TrailingCommaAt)
  {
    forall x | TrailingCommaAt(x).Some?
      ensures var e := TrailingCommaAt(x).value; x[e.len - 1] == '}' ==> EndsWith(e.rep, "}")
    {
      var e := TrailingCommaAt(x).value;
      assert e.rep[|e.rep| - 1] == x[e.len - 1];
    }
    forall x | TrailingCommaAt(x).Some? && TrailingCommaAt(x).value.len >= 2
      ensures var e := TrailingCommaAt(x).value; x[e.len - 2..e.len] != "}]"
    {
      var e := TrailingCommaAt(x).value;
      assert x[e.len - 2] == ',' || IsSpace(x[e.len - 2]);
      assert x[e.len - 2..e.len][0] == x[e.len - 2];
    }
  }

  lemma BareKeyKeepsClosing()
    ensures ValidMatcher(BareKeyAt) && KeepsClosing(BareKeyAt)
  {
    MatchersValid();
    KeepsClosingWhenClear(BareKeyAt);
  }

  lemma SingleQuotedKeepsClosing()
    ensures ValidMatcher(SingleQuotedAt) && KeepsClosing(SingleQuotedAt)
  {
    MatchersValid();
    KeepsClosingWhenClear(SingleQuotedAt);
  }

  lemma EscapedNewlineKeepsClosing()
    ensures ValidMatcher(EscapedNewlineAt) && KeepsClosing(EscapedNewlineAt)
  {
    KeepsClosingWhenClear(EscapedNewlineAt);
  }

  lemma EscapedQuoteKeepsClosing()
    ensures ValidMatcher(EscapedQuoteAt) && KeepsClosing(EscapedQuoteAt)
  {
    KeepsClosingWhenClear(EscapedQuoteAt);
  }

  lemma StraightQuoteKeepsClosing()
    ensures ValidMatcher(StraightQuoteAt) && KeepsClosing(StraightQuoteAt)
  {
    KeepsClosingWhenClear(StraightQuoteAt);
  }

  lemma CurlyQuoteKeepsClosing()
    ensures ValidMatcher(CurlyQuoteAt) && KeepsClosing(CurlyQuoteAt)
  {
    KeepsClosingWhenClear(CurlyQuoteAt);
  }

  lemma LiteralStepsKeepClosing()
    ensures ValidMatcher(EscapedNewlineAt) && KeepsClosing(EscapedNewlineAt)
    ensures ValidMatcher(EscapedQuoteAt) && KeepsClosing(EscapedQuoteAt)
    ensures ValidMatcher(StraightQuoteAt) && KeepsClosing(StraightQuoteAt)
    ensures ValidMatcher(CurlyQuoteAt) && KeepsClosing(CurlyQuoteAt)
  {
    EscapedNewlineKeepsClosing();
    EscapedQuoteKeepsClosing();
    StraightQuoteKeepsClosing();
    CurlyQuoteKeepsClosing();
  }

  lemma MatchersKeepOpening()
    ensures KeepsOpening(FenceJsonAt) && KeepsOpening(FenceAt) && KeepsOpening(TrailingCommaAt)
    ensures KeepsOpening(BareKeyAt) && KeepsOpening(SingleQuotedAt) && KeepsOpening(EscapedNewlineAt)
    ensures KeepsOpening(EscapedQuoteAt) && KeepsOpening(StraightQuoteAt) && KeepsOpening(CurlyQuoteAt)
  {
  }

  // ---- The two chains ----

  /** What the chains keep invariant once the array is closed: it ends in "}]" and is "}]" or starts with '['. */
  predicate Framed(s: string) {
    EndsWith(s, "}]") && (s == "}]" || s[0] == '[')
  }

  /** A step that matches at no bracket and keeps a closing "}]" keeps the text framed. */
  lemma ScanKeepsFramed(s: string, m: string -> Option<Edit>)
    requires ValidMatcher(m) && KeepsClosing(m) && KeepsOpening(m)
    requires Framed(s)
    ensures Framed(Scan(s, m))
  {
    ScanKeepsClosing(s, m);
    if s == "}]" {
      ScanKeepsCloser(m);
    } else {
      ScanKeepsOpening(s, m);
    }
  }

  /** Strategy 1 and the fence and prefix steps of strategy 2: the text the closing step is applied to. */
  function ArrayText(raw: string): (r: string)
    ensures r == [] || r[0] == '['
  {
    MatchersValid();
    StripBeforeArray(Scan(Scan(ExtractArray(raw), FenceJsonAt), FenceAt))
  }

  /**
   * Strategy 1 and the first four steps of strategy 2 as written, shared by
   * both chains: the closing step puts "}]" after the last '}', so text
   * that already ends in "}]" comes out ending in "}}]".
   */
  function FrameArray(raw: string): (r: string)
    ensures Framed(r)
    ensures r[0] == '[' || r == "}]"
    ensures '}' in ArrayText(raw) ==> EndsWith(r, "}}]")
  {
    CloseAsWritten(ArrayText(raw))
  }

  /** The same steps with the closing step as intended: text that already ends in "}]" is kept. */
  function IntendedFrameArray(raw: string): (r: string)
    ensures Framed(r)
    ensures r[0] == '[' || r == "}]"
    ensures EndsWith(ArrayText(raw), "}]") ==> r == ArrayText(raw)
  {
    CloseArray(ArrayText(raw))
  }

  /** On a reply whose array already ends in "}]" the two framings differ: only the intended one keeps it. */
  lemma FramingsDiffer(raw: string)
    requires EndsWith(ArrayText(raw), "}]")
    ensures IntendedFrameArray(raw) == ArrayText(raw)
    ensures FrameArray(raw) == ArrayText(raw)[..|ArrayText(raw)| - 1] + "}]" != IntendedFrameArray(raw)
  {
    CloseAsWrittenDoublesBrace(ArrayText(raw));
  }

  /** The value-level fixes: trailing commas, bare keys, single quotes, escaped newlines. */
  function FixValues(s: string): (r: string)
    requires Framed(s)
    ensures Framed(r)
  {
    TrailingCommaKeepsClosing();
    BareKeyKeepsClosing();
    SingleQuotedKeepsClosing();
    LiteralStepsKeepClosing();
    MatchersKeepOpening();
    var a := Scan(s, TrailingCommaAt);
    ScanKeepsFramed(s, TrailingCommaAt);
    var b := Scan(a, BareKeyAt);
    ScanKeepsFramed(a, BareKeyAt);
    var c := Scan(b, SingleQuotedAt);
    ScanKeepsFramed(b, SingleQuotedAt);
    ScanKeepsFramed(c, EscapedNewlineAt);
    Scan(c, EscapedNewlineAt)
  }

  /** A framed text is its own trim. */
  lemma FramedTrimmed(s: string)
    requires Framed(s)
    ensures Trim(s) == s
  {
    assert s[|s| - 1] == ']' by { assert s[|s| - 2..][1] == ']'; }
    if s == "}]" {
      assert s[0] == '}';
    }
    TrimUnchanged(s);
  }

  /**
   * The flashcard chain as written: strategies 1 and 2, `trim`, then
   * strategy 3, whose escaped-quote and two quote steps replace each match
   * by itself.  The result always ends in "}]" and starts with '[' unless it
   * is just "}]".
   */
  function CleanFlashcardJson(raw: string): (r: string)
    ensures Framed(r)
  {
    LiteralStepsKeepClosing();
    MatchersKeepOpening();
    var f := FrameArray(raw);
    FramedTrimmed(f);
    var v := FixValues(Trim(f));
    ScanKeepsFramed(v, EscapedQuoteAt);
    var q := Scan(v, EscapedQuoteAt);
    ScanKeepsFramed(q, StraightQuoteAt);
    var q' := Scan(q, StraightQuoteAt);
    ScanKeepsFramed(q', StraightQuoteAt);
    Scan(q', StraightQuoteAt)
  }

  /** The quiz chain as written: the same steps without the escaped-quote one, and `trim` last. */
  function CleanQuizJson(raw: string): (r: string)
    ensures Framed(r)
  {
    LiteralStepsKeepClosing();
    MatchersKeepOpening();
    var v := FixValues(FrameArray(raw));
    ScanKeepsFramed(v, StraightQuoteAt);
    var q := Scan(v, StraightQuoteAt);
    ScanKeepsFramed(q, StraightQuoteAt);
    var q' := Scan(q, StraightQuoteAt);
    FramedTrimmed(q');
    Trim(q')
  }

  /** The flashcard chain with the closing step kept and curly quotes straightened. */
  function IntendedCleanFlashcardJson(raw: string): (r: string)
    ensures Framed(r)
  {
    LiteralStepsKeepClosing();
    MatchersKeepOpening();
    var f := IntendedFrameArray(raw);
    FramedTrimmed(f);
    var v := FixValues(Trim(f));
    ScanKeepsFramed(v, EscapedQuoteAt);
    var q := Scan(v, EscapedQuoteAt);
    ScanKeepsFramed(q, CurlyQuoteAt);
    Scan(q, CurlyQuoteAt)
  }

  /** The quiz chain with the closing step kept and curly quotes straightened. */
  function IntendedCleanQuizJson(raw: string): (r: string)
    ensures Framed(r)
  {
    LiteralStepsKeepClosing();
    MatchersKeepOpening();
    var v := FixValues(IntendedFrameArray(raw));
    ScanKeepsFramed(v, CurlyQuoteAt);
    var q := Scan(v, CurlyQuoteAt);
    FramedTrimmed(q);
    Trim(q)
  }

  /** A step that matches nowhere in the text changes nothing. */
  lemma {:induction false} ScanNoMatch(s: string, m: string -> Option<Edit>)
    requires ValidMatcher(m)
    requires forall i :: 0 <= i < |s| ==> m(s[i..]).None?
    ensures Scan(s, m) == s
    decreases |s|
  {
    if s != [] {
      assert m(s[0..]).None? && s[0..] == s;
      assert forall i :: 0 <= i < |s| - 1 ==> s[1..][i..] == s[i + 1..];
      ScanNoMatch(s[1..], m);
      assert s == [s[0]] + s[1..];
    }
  }

  /** A step whose every match holds the character `c` matches nowhere in text without it. */
  lemma ScanWithout(s: string, m: string -> Option<Edit>, c: char)
    requires ValidMatcher(m)
    requires forall x :: m(x).Some? ==> c in x[..m(x).value.len]
    requires c !in s
    ensures Scan(s, m) == s
  {
    assert forall i :: 0 <= i < |s| ==> m(s[i..]).None?;
    ScanNoMatch(s, m);
  }

  /** Each value-level step's matches hold the character it is named by. */
  lemma ValueMatchesHold()
    ensures forall x :: TrailingCommaAt(x).Some? ==> ',' in x[..TrailingCommaAt(x).value.len]
    ensures forall x :: BareKeyAt(x).Some? ==> ':' in x[..BareKeyAt(x).value.len]
    ensures forall x :: SingleQuotedAt(x).Some? ==> ':' in x[..SingleQuotedAt(x).value.len]
    ensures forall x :: EscapedNewlineAt(x).Some? ==> '\\' in x[..EscapedNewlineAt(x).value.len]
  {
    forall x | TrailingCommaAt(x).Some? ensures ',' in x[..TrailingCommaAt(x).value.len] {
      assert x[..TrailingCommaAt(x).value.len][0] == ',';
    }
    forall x | BareKeyAt(x).Some? ensures ':' in x[..BareKeyAt(x).value.len] {
      var n := BareKeyAt(x).value.len;
      assert x[..n][n - 1] == ':';
    }
    forall x | SingleQuotedAt(x).Some? ensures ':' in x[..SingleQuotedAt(x).value.len] {
      assert x[..SingleQuotedAt(x).value.len][0] == ':';
    }
    forall x | EscapedNewlineAt(x).Some? ensures '\\' in x[..EscapedNewlineAt(x).value.len] {
      assert x[..EscapedNewlineAt(x).value.len][0] == '\\';
    }
  }

  /** Both fence matches start with a backtick. */
  lemma FenceMatchesHold()
    ensures forall x :: FenceJsonAt(x).Some? ==> '`' in x[..FenceJsonAt(x).value.len]
    ensures forall x :: FenceAt(x).Some? ==> '`' in x[..FenceAt(x).value.len]
  {
    forall x | FenceJsonAt(x).Some? ensures '`' in x[..FenceJsonAt(x).value.len] {
      assert x[..3] == "```";
      assert x[..FenceJsonAt(x).value.len][0] == '`';
    }
    forall x | FenceAt(x).Some? ensures '`' in x[..FenceAt(x).value.len] {
      assert x[..3] == "```";
      assert x[..FenceAt(x).value.len][0] == '`';
    }
  }

  /** Without a ',', a ':' or a backslash there is nothing for the value-level fixes to change. */
  lemma FixValuesNoOp(s: string)
    requires Framed(s)
    requires ',' !in s && ':' !in s && '\\' !in s
    ensures FixValues(s) == s
  {
    MatchersValid();
    ValueMatchesHold();
    ScanWithout(s, TrailingCommaAt, ',');
    ScanWithout(s, BareKeyAt, ':');
    ScanWithout(s, SingleQuotedAt, ':');
    ScanWithout(s, EscapedNewlineAt, '\\');
  }

  /** Without a backtick there is no fence to strip. */
  lemma NoBacktick(s: string)
    requires '`' !in s
    ensures Scan(s, FenceJsonAt) == s && Scan(s, FenceAt) == s
  {
    MatchersValid();
    FenceMatchesHold();
    ScanWithout(s, FenceJsonAt, '`');
    ScanWithout(s, FenceAt, '`');
  }

  /** Without a curly quote there is nothing to straighten. */
  lemma NoCurlyQuote(s: string)
    requires '\U{201C}' !in s && '\U{201D}' !in s
    ensures Scan(s, CurlyQuoteAt) == s
  {
    MatchersValid();
    forall i | 0 <= i < |s| ensures CurlyQuoteAt(s[i..]).None? {
      assert s[i..] != [] && s[i..][0] == s[i];
    }
    ScanNoMatch(s, CurlyQuoteAt);
  }

  /** The characters the clean-up steps act on. */
  predicate PlainArray(s: string) {
    Framed(s) && s != "}]" && ',' !in s && ':' !in s && '\\' !in s && '`' !in s && '\U{201C}' !in s && '\U{201D}' !in s
  }

  /** Strategy 1 and the fence and prefix steps leave a framed reply with nothing to fix as it is. */
  lemma PlainArrayText(raw: string)
    requires PlainArray(raw)
    ensures ArrayText(raw) == raw
  {
    assert raw[|raw| - 1] == ']' by { assert raw[|raw| - 2..][1] == ']'; }
    assert IndexOfChar(raw, '[', 0) == 0 && LastIndexOfChar(raw, ']') == |raw| - 1;
    assert ExtractArray(raw) == raw;
    NoBacktick(raw);
  }

  /**
   * The one-element reply `[{}]` has nothing to fix: the chains as written
   * turn it into `[{}}]`, the intended ones keep it.
   */
  lemma OneElementArrayIsPlain()
    ensures PlainArray("[{}]")
  {
    var raw := "[{}]";
    assert raw[|raw| - 2..] == "}]";
  }

  /** Doubling the final brace adds no character the clean-up steps act on. */
  lemma DoubledStaysPlain(s: string)
    requires PlainArray(s)
    ensures PlainArray(s[..|s| - 1] + "}]")
  {
    var d := s[..|s| - 1] + "}]";
    assert forall c :: c in d ==> c in s[..|s| - 1] || c == '}' || c == ']';
    assert d[|d| - 2..] == "}]";
  }

  /**
   * A framed reply with nothing to fix: both chains as written return it
   * with its final '}' doubled, which is no longer JSON.
   */
  lemma AsWrittenChainsDoubleClose(raw: string)
    requires PlainArray(raw)
    ensures CleanFlashcardJson(raw) == raw[..|raw| - 1] + "}]"
    ensures CleanQuizJson(raw) == raw[..|raw| - 1] + "}]"
  {
    PlainArrayText(raw);
    FramingsDiffer(raw);
    var d := FrameArray(raw);
    DoubledStaysPlain(raw);
    FramedTrimmed(d);
    FixValuesNoOp(d);
    AsWrittenQuoteStepsIdentity(d);
  }

  /** The intended flashcard chain keeps a framed reply with nothing to fix. */
  lemma IntendedFlashcardsKeepPlainArray(raw: string)
    requires PlainArray(raw)
    ensures IntendedCleanFlashcardJson(raw) == raw
  {
    PlainArrayText(raw);
    assert IntendedFrameArray(raw) == raw;
    FramedTrimmed(raw);
    FixValuesNoOp(raw);
    AsWrittenQuoteStepsIdentity(raw);
    NoCurlyQuote(raw);
  }

  /** The intended quiz chain keeps a framed reply with nothing to fix. */
  lemma IntendedQuizKeepsPlainArray(raw: string)
    requires PlainArray(raw)
    ensures IntendedCleanQuizJson(raw) == raw
  {
    PlainArrayText(raw);
    assert IntendedFrameArray(raw) == raw;
    FixValuesNoOp(raw);
    NoCurlyQuote(raw);
    FramedTrimmed(raw);
  }
}
