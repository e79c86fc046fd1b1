/**
 * The content-aware flashcard templates: which technical terms a
 * transcript mentions, the three to eight key concepts built from them and
 * from the title, and the `count` cards cycled out of those concepts with a
 * difficulty adjustment.
 */
module Concepts {
  import opened Wrappers
  import opened Text
  import opened Records
  import opened Store

  const ProgrammingTerms: seq<string> :=
    ["function", "variable", "method", "object", "array", "property", "event", "callback",
     "parameter", "return", "loop", "condition"]
  const DomTerms: seq<string> :=
    ["element", "selector", "attribute", "innerHTML", "textContent", "addEventListener",
     "querySelector", "getElementById"]
  const JsTerms: seq<string> :=
    ["const", "let", "var", "arrow function", "template literal", "destructuring", "spread operator"]

  /** The terms looked for, in the order they are looked for. */
  const AllTerms: seq<string> := ProgrammingTerms + DomTerms + JsTerms

  /** The selection methods the element-selection answer lists when they were found. */
  const SelectionMethods: seq<string> := ["querySelector", "getElementById", "getElementsByClassName"]

  /**
   * Term detection as written: each term is looked for, unchanged, in the
   * lower-cased transcript.
   */
  function TermsFoundAsWritten(lower: string, terms: seq<string>): (r: seq<string>)
    ensures forall t :: t in r <==> t in terms && Contains(lower, t)
    ensures |r| <= |terms|
    decreases |terms|
  {
    if terms == [] then []
    else
      var init, last := terms[..|terms| - 1], terms[|terms| - 1];
      assert terms == init + [last];
      TermsFoundAsWritten(lower, init) + (if Contains(lower, last) then [last] else [])
  }

  /**
   * Term detection as intended: the term is lower-cased too, so a
   * camel-case term is found whatever its case in the transcript.
   */
  function TermsFound(lower: string, terms: seq<string>): (r: seq<string>)
    ensures forall t :: t in r <==> t in terms && Contains(lower, ToLower(t))
    ensures |r| <= |terms|
    decreases |terms|
  {
    if terms == [] then []
    else
      var init, last := terms[..|terms| - 1], terms[|terms| - 1];
      assert terms == init + [last];
      TermsFound(lower, init) + (if Contains(lower, ToLower(last)) then [last] else [])
  }

  /** The `forEach` over a term list, pushing every term the lower-cased transcript contains unchanged. */
  method PushMentioned(lower: string, terms: seq<string>) returns (found: seq<string>)
    ensures found == TermsFoundAsWritten(lower, terms)
  {
    found := [];
    var i := 0;
    while i < |terms|
      invariant 0 <= i <= |terms|
      invariant found == TermsFoundAsWritten(lower, terms[..i])
    {
      var term := terms[i];
      assert terms[..i + 1][..i] == terms[..i];
      if Contains(lower, term) {
        found := found + [term];
      }
      i := i + 1;
    }
    assert terms[..i] == terms;
  }

  /** The term search over the three lists onto `technicalTerms`. */
  method FindTechnicalTerms(transcript: string) returns (found: seq<string>)
    ensures found == TermsFoundAsWritten(ToLower(transcript), AllTerms)
    ensures forall t :: t in found <==> t in AllTerms && Contains(ToLower(transcript), t)
  {
    found := PushMentioned(ToLower(transcript), AllTerms);
  }

  /**
   * As written, a term with an upper-case letter is never found, whatever
   * the transcript says.
   */
  lemma CamelCaseNeverDetected(transcript: string, terms: seq<string>)
    ensures forall t :: t in TermsFoundAsWritten(ToLower(transcript), terms) ==>
              forall k :: 0 <= k < |t| ==> !IsUpper(t[k])
  {
    forall t, k | t in TermsFoundAsWritten(ToLower(transcript), terms) && 0 <= k < |t|
      ensures !IsUpper(t[k])
    {
      if IsUpper(t[k]) {
        LowerHidesUpper(transcript, t, k);
      }
    }
  }

  /** A string with an upper-case letter. */
  predicate HasUpper(t: string) {
    exists k :: 0 <= k < |t| && IsUpper(t[k])
  }

  /** The three selection methods are camel-case. */
  lemma SelectionMethodsHaveUpper()
    ensures forall t :: t in SelectionMethods ==> HasUpper(t)
  {
    assert IsUpper(SelectionMethods[0][5]);
    assert IsUpper(SelectionMethods[1][3]);
    assert IsUpper(SelectionMethods[2][3]);
  }

  /** So, as written, no camel-case term of an allow-list is ever kept from the found terms. */
  lemma NoCamelCaseListed(transcript: string, terms: seq<string>, allowed: seq<string>)
    requires forall t :: t in allowed ==> HasUpper(t)
    ensures KeepListed(TermsFoundAsWritten(ToLower(transcript), terms), allowed) == []
  {
    var found := TermsFoundAsWritten(ToLower(transcript), terms);
    CamelCaseNeverDetected(transcript, terms);
    forall t | t in found ensures t !in allowed {
    }
  }

  /**
   * The intended detection finds every listed term the transcript
   * contains, and a camel-case one is the case where it differs from the
   * detection as written.
   */
  lemma MentionedTermFound(transcript: string, t: string)
    requires t in AllTerms && Contains(transcript, t)
    ensures t in TermsFound(ToLower(transcript), AllTerms)
    ensures (exists k :: 0 <= k < |t| && IsUpper(t[k])) ==> t !in TermsFoundAsWritten(ToLower(transcript), AllTerms)
  {
    var i :| 0 <= i <= |transcript| - |t| && ContainsAt(transcript, t, i);
    ContainsLower(transcript, t, i);
    if exists k :: 0 <= k < |t| && IsUpper(t[k]) {
      var k :| 0 <= k < |t| && IsUpper(t[k]);
      LowerHidesUpper(transcript, t, k);
    }
  }

  /** `title.split('|')[0].trim()`: the title up to its first '|', without surrounding white space. */
  function MainTopic(title: string): (r: string)
    ensures '|' !in r
    ensures '|' !in title ==> r == Trim(title)
  {
    var head := BeforeFirst(title, '|');
    var r := Trim(head);
    var i := |head| - |TrimStart(head)|;
    NoCharInSlice(head, '|', i, i + |r|);
    assert '|' !in title ==> head == title;
    r
  }

  /** `[.!?]`. */
  predicate IsSentenceEnd(c: char) { c == '.' || c == '!' || c == '?' }

  /** A sentence is kept when it is over 20 characters once trimmed. */
  predicate LongSentence(s: string) { |Trim(s)| > 20 }

  /** `transcript.split(/[.!?]+/).filter(s => s.trim().length > 20).length`. */
  function SentenceCount(transcript: string): (n: nat)
    ensures n <= |Fields(transcript, IsSentenceEnd)|
  {
    |Filter(Fields(transcript, IsSentenceEnd), LongSentence)|
  }

  /** `cond ? text : ''`. */
  function When(cond: bool, text: string): (r: string)
    ensures cond ==> r == text
    ensures !cond ==> r == []
  {
    if cond then text else ""
  }

  /** `list || fallback` for a joined list. */
  function JoinedOr(parts: seq<string>, fallback: string): (r: string)
    ensures parts == [] ==> r == fallback
  {
    var j := Join(parts, ", ");
    if j == [] then fallback else j
  }

  /**
   * A key concept, by the template it comes from and the values spliced
   * into that template; `Question` and `Answer` render its text.
   */
  datatype Concept =
    | ElementSelection(methods: seq<string>)
    | EventHandling
    | Manipulation(innerHtml: bool, textContent: bool)
    | JsCovered(features: seq<string>, fundamentals: seq<string>)
    | FunctionsExplained(functions: bool, hasMethods: bool)
    | LearningObjectives(topic: string, handsOn: bool)
    | PracticalTechniques(shown: seq<string>, more: bool)
    | ProgressiveSkills(comprehensive: bool, topic: string)

  const ObjectivesLead: string :=
    "What are the key " +
    "learning objectives " +
    "addressed in \""
  const ObjectivesEnd: string := "\"?"

  /** The card question of a concept. */
  function Question(c: Concept): (q: string)
    ensures c.LearningObjectives? ==> ContainsAt(q, c.topic, |ObjectivesLead|)
  {
    match c
    case ElementSelection(_) =>
      "What methods for DOM " + "element selection are " + "discussed in this video?"
    case EventHandling => "How does the video " + "explain DOM event " + "handling?"
    case Manipulation(_, _) =>
      "What DOM manipulation " + "techniques are " + "demonstrated in this " + "video?"
    case JsCovered(_, _) =>
      "What JavaScript " + "programming concepts " + "are covered in this " + "educational content?"
    case FunctionsExplained(_, _) =>
      "How are JavaScript " + "functions and methods " + "explained in the video?"
    case LearningObjectives(topic, _) =>
      var q := ObjectivesLead + topic + ObjectivesEnd;
      assert q[|ObjectivesLead|..|ObjectivesLead| + |topic|] == topic;
      q
    case PracticalTechniques(_, _) =>
      "What practical " + "implementation " + "techniques are " + "demonstrated in this " + "video?"
    case ProgressiveSkills(_, _) => "How does this content " + "support progressive " + "skill development?"
  }

  /** The card answer of a concept, by its group. */
  function Answer(c: Concept): (a: string)
    ensures a != []
  {
    if c.ElementSelection? || c.EventHandling? || c.Manipulation? then DomAnswer(c)
    else if c.JsCovered? || c.FunctionsExplained? then JsAnswer(c)
    else OverviewAnswer(c)
  }

  /** The answers of the DOM concepts. */
  function DomAnswer(c: Concept): (a: string)
    requires c.ElementSelection? || c.EventHandling? || c.Manipulation?
    ensures a != []
  {
    match c
    case ElementSelection(methods) =>
      "Based on the video " + "content, DOM element " + "selection is performed " +
      "using JavaScript " + "methods like " + JoinedOr(methods, "standard DOM selection methods") +
      ". The video " + "demonstrates practical " + "approaches to accessing " + "HTML elements for " +
      "manipulation."
    case EventHandling =>
      "The video covers event " + "handling in the DOM, " + "showing how to respond " +
      "to user interactions " + "and browser events. " + "This includes practical " +
      "examples of attaching " + "event listeners and " + "managing event-driven " + "functionality."
    case Manipulation(innerHtml, textContent) =>
      "The video demonstrates " + "practical DOM " + "manipulation including " +
      When(innerHtml, "innerHTML modification, ") + When(textContent, "textContent updates, ") +
      "and dynamic element " + "interaction techniques."
  }

  /** The answers of the JavaScript concepts. */
  function JsAnswer(c: Concept): (a: string)
    requires c.JsCovered? || c.FunctionsExplained?
    ensures a != []
  {
    match c
    case JsCovered(features, fundamentals) =>
      "This video covers " + When(|features| > 0, "modern JavaScript " + "features including " +
      Join(features, ", ") + ", along with")
      + " fundamental " + "programming concepts " + "such as " + Join(fundamentals, ", ") +
      ". The content focuses " + "on practical " + "implementation and " + "real-world applications."
    case FunctionsExplained(functions, methods) =>
      "The video provides " + "detailed explanations " + "of JavaScript " +
      When(functions, "functions, their " + "creation and usage, ") +
      When(methods, "methods and their application, ") + "demonstrating practical " +
      "programming techniques " + "for effective code " + "development."
  }

  /** The answers of the three concepts every transcript gets. */
  function OverviewAnswer(c: Concept): (a: string)
    requires c.LearningObjectives? || c.PracticalTechniques? || c.ProgressiveSkills?
    ensures a != []
  {
    match c
    case LearningObjectives(topic, handsOn) =>
      "This educational video " + "addresses comprehensive " + "learning objectives " + "related to " +
      topic + ". The content " + "systematically builds " + "understanding through " +
      (if handsOn then "hands-on technical demonstrations" else "structured instruction")
      + ", providing both " + "conceptual knowledge " + "and practical " + "application skills."
    case PracticalTechniques(shown, more) =>
      "The video demonstrates " + "practical " + "implementation using " + Join(shown, ", ") +
      When(more, " and other key concepts") + ". The instructional " + "approach emphasizes " +
      "real-world applications " + "and hands-on coding " + "examples."
    case ProgressiveSkills(comprehensive, topic) =>
      "The video content is " + "structured to support " + "learners at different " + "levels, from " +
      "foundational concepts " + "to advanced " + "applications. It " + "includes " +
      (if comprehensive then "comprehensive explanations" else "focused instruction") +
      " that build " + "systematically on core " + "principles in " + topic + "."
  }

  /** The concepts pushed for a title that mentions "dom": selection and events when those terms were found, then manipulation. */
  function DomConcepts(terms: seq<string>): (r: seq<Concept>)
    ensures |r| == 1 + (if "element" in terms then 1 else 0) + (if "event" in terms then 1 else 0)
    ensures r[|r| - 1] == Manipulation("innerHTML" in terms, "textContent" in terms)
    ensures "element" in terms ==> r[0] == ElementSelection(KeepListed(terms, SelectionMethods))
    ensures forall c :: c in r ==> !c.JsCovered?
  {
    (if "element" in terms then [ElementSelection(KeepListed(terms, SelectionMethods))] else [])
    + (if "event" in terms then [EventHandling] else [])
    + [Manipulation("innerHTML" in terms, "textContent" in terms)]
  }

  /** The two concepts pushed for a title that mentions "javascript". */
  function JsConcepts(terms: seq<string>): (r: seq<Concept>)
    ensures |r| == 2 && r[0].JsCovered? && r[1].FunctionsExplained?
    ensures forall t :: t in r[0].features <==> t in terms && t in JsTerms
    ensures |r[0].fundamentals| <= 3
  {
    [JsCovered(KeepListed(terms, JsTerms), Slice0(KeepListed(terms, ProgrammingTerms), 3)),
     FunctionsExplained("function" in terms, "method" in terms)]
  }

  /** The only selection concept among the DOM ones lists the selection methods found. */
  lemma DomSelectionConcept(terms: seq<string>)
    ensures forall c :: c in DomConcepts(terms) && c.ElementSelection? ==>
              c == ElementSelection(KeepListed(terms, SelectionMethods))
  {
    var sel := if "element" in terms then [ElementSelection(KeepListed(terms, SelectionMethods))] else [];
    var ev := if "event" in terms then [EventHandling] else [];
    var man := [Manipulation("innerHTML" in terms, "textContent" in terms)];
    assert DomConcepts(terms) == sel + ev + man;
  }

  /** The concepts a title earns by mentioning "dom" and then "javascript" (lower-cased). */
  function TopicConcepts(title: string, terms: seq<string>): (r: seq<Concept>)
    ensures |r| <= 5
    ensures Contains(ToLower(title), "dom") ==> |DomConcepts(terms)| <= |r| && r[..|DomConcepts(terms)|] == DomConcepts(terms)
    ensures !Contains(ToLower(title), "dom") && !Contains(ToLower(title), "javascript") ==> r == []
    ensures Contains(ToLower(title), "javascript") <==> exists c :: c in r && c.JsCovered?
    ensures Contains(ToLower(title), "javascript") ==> 2 <= |r| && r[|r| - 2..] == JsConcepts(terms)
    ensures !Contains(ToLower(title), "javascript") ==>
              r == if Contains(ToLower(title), "dom") then DomConcepts(terms) else []
  {
    var lowerTitle := ToLower(title);
    var dom := if Contains(lowerTitle, "dom") then DomConcepts(terms) else [];
    var js := if Contains(lowerTitle, "javascript") then JsConcepts(terms) else [];
    assert (dom + js)[..|dom|] == dom;
    assert (dom + js)[|dom|..] == js;
    assert js != [] ==> js[0] in dom + js;
    dom + js
  }

  /** The three concepts pushed for every transcript. */
  function GeneralConcepts(transcript: string, title: string, terms: seq<string>): (r: seq<Concept>)
    ensures |r| == 3
    ensures r[0] == LearningObjectives(MainTopic(title), |terms| > 3)
    ensures r[1].PracticalTechniques? && |r[1].shown| <= 4 && (r[1].more <==> |terms| > 4)
    ensures r[2] == ProgressiveSkills(SentenceCount(transcript) > 20, MainTopic(title))
  {
    var mainTopic := MainTopic(title);
    [LearningObjectives(mainTopic, |terms| > 3),
     PracticalTechniques(Slice0(terms, 4), |terms| > 4),
     ProgressiveSkills(SentenceCount(transcript) > 20, mainTopic)]
  }

  /** The concepts pushed for the found `terms`, in push order: the topic ones, then the three general ones. */
  function ConceptsFor(transcript: string, title: string, terms: seq<string>): (r: seq<Concept>)
    ensures 3 <= |r| <= 8
    ensures r[..|r| - 3] == TopicConcepts(title, terms)
    ensures r[|r| - 3..] == GeneralConcepts(transcript, title, terms)
  {
    var topic := TopicConcepts(title, terms);
    var general := GeneralConcepts(transcript, title, terms);
    var r := topic + general;
    assert r[..|topic|] == topic && r[|topic|..] == general;
    r
  }

  /** The only selection concept among the topic concepts is the one listing the selection methods found. */
  lemma TopicSelectionConcept(title: string, terms: seq<string>)
    ensures forall c :: c in TopicConcepts(title, terms) && c.ElementSelection? ==>
              c.methods == KeepListed(terms, SelectionMethods)
  {
    var lowerTitle := ToLower(title);
    var dom := if Contains(lowerTitle, "dom") then DomConcepts(terms) else [];
    var js := if Contains(lowerTitle, "javascript") then JsConcepts(terms) else [];
    assert TopicConcepts(title, terms) == dom + js;
    DomSelectionConcept(terms);
    forall c: Concept | c in dom + js && c.ElementSelection? ensures c.methods == KeepListed(terms, SelectionMethods) {
      assert c in dom;
    }
  }

  /** The three general concepts are none of them a selection concept. */
  lemma GeneralHasNoSelection(transcript: string, title: string, terms: seq<string>)
    ensures forall c :: c in GeneralConcepts(transcript, title, terms) ==> !c.ElementSelection?
  {
    var g := GeneralConcepts(transcript, title, terms);
    assert forall c :: c in g ==> c == g[0] || c == g[1] || c == g[2];
  }

  /** The only selection concept a term list yields is the one listing its selection methods. */
  lemma SelectionConceptOf(transcript: string, title: string, terms: seq<string>)
    ensures forall c :: c in ConceptsFor(transcript, title, terms) && c.ElementSelection? ==>
              c.methods == KeepListed(terms, SelectionMethods)
  {
    var r := ConceptsFor(transcript, title, terms);
    TopicSelectionConcept(title, terms);
    GeneralHasNoSelection(transcript, title, terms);
    forall c | c in r && c.ElementSelection? ensures c.methods == KeepListed(terms, SelectionMethods) {
      var k :| 0 <= k < |r| && r[k] == c;
      if k < |r| - 3 {
        assert r[..|r| - 3][k] == c;
      }
    }
  }

  /** For a DOM title the concepts end their DOM part with the manipulation concept for the terms found. */
  lemma DomManipulationIn(transcript: string, title: string, terms: seq<string>)
    requires Contains(ToLower(title), "dom")
    ensures Manipulation("innerHTML" in terms, "textContent" in terms) in ConceptsFor(transcript, title, terms)
  {
    var r := ConceptsFor(transcript, title, terms);
    var d := DomConcepts(terms);
    assert r[..|r| - 3][..|d|] == d;
    assert r[|d| - 1] == d[|d| - 1];
  }

  /** With the detection as written, for a DOM title the manipulation concept never mentions innerHTML or textContent. */
  lemma AsWrittenManipulationBare(transcript: string, title: string, terms: seq<string>)
    requires Contains(ToLower(title), "dom")
    ensures Manipulation(false, false) in ConceptsFor(transcript, title, TermsFoundAsWritten(ToLower(transcript), terms))
  {
    var found := TermsFoundAsWritten(ToLower(transcript), terms);
    CamelCaseNeverDetected(transcript, terms);
    ManipulationTermsHaveUpper();
    assert "innerHTML" !in found && "textContent" !in found;
    DomManipulationIn(transcript, title, found);
  }

  /** With the detection as written, no selection concept lists a method. */
  lemma AsWrittenSelectionEmpty(transcript: string, title: string, terms: seq<string>)
    ensures forall c :: (c in ConceptsFor(transcript, title, TermsFoundAsWritten(ToLower(transcript), terms))
                         && c.ElementSelection?) ==> c.methods == []
  {
    var found := TermsFoundAsWritten(ToLower(transcript), terms);
    SelectionMethodsHaveUpper();
    NoCamelCaseListed(transcript, terms, SelectionMethods);
    SelectionConceptOf(transcript, title, found);
  }

  /** `extractKeyConceptsFromTranscript` as a value, with the term detection as written. */
  function KeyConcepts(transcript: string, title: string): (r: seq<Concept>)
    ensures 3 <= |r| <= 8
    ensures Contains(ToLower(title), "dom") ==> Manipulation(false, false) in r
    ensures forall c :: c in r && c.ElementSelection? ==> c.methods == []
  {
    if Contains(ToLower(title), "dom") then
      AsWrittenManipulationBare(transcript, title, AllTerms);
      AsWrittenSelectionEmpty(transcript, title, AllTerms);
      ConceptsFor(transcript, title, TermsFoundAsWritten(ToLower(transcript), AllTerms))
    else
      AsWrittenSelectionEmpty(transcript, title, AllTerms);
      ConceptsFor(transcript, title, TermsFoundAsWritten(ToLower(transcript), AllTerms))
  }

  /** The key concepts with the intended, case-blind term detection. */
  function IntendedKeyConcepts(transcript: string, title: string): (r: seq<Concept>)
    ensures 3 <= |r| <= 8
    ensures Contains(ToLower(title), "dom") && Contains(transcript, "innerHTML") ==>
              exists tc :: Manipulation(true, tc) in r
  {
    var found := TermsFound(ToLower(transcript), AllTerms);
    if Contains(ToLower(title), "dom") && Contains(transcript, "innerHTML") then
      MentionedTermFound(transcript, "innerHTML");
      DomManipulationIn(transcript, title, found);
      ConceptsFor(transcript, title, found)
    else ConceptsFor(transcript, title, found)
  }

  /** innerHTML and textContent are camel-case. */
  lemma ManipulationTermsHaveUpper()
    ensures HasUpper("innerHTML") && HasUpper("textContent")
  {
    assert IsUpper("innerHTML"[5]);
    assert IsUpper("textContent"[4]);
  }

  /**
   * With the detection as written, whatever the term list, the selection
   * answer never lists a method and the manipulation answer never mentions
   * innerHTML or textContent.
   */
  lemma AsWrittenDomConceptsMissCamelCase(transcript: string, terms: seq<string>)
    ensures var found := TermsFoundAsWritten(ToLower(transcript), terms);
            var d := DomConcepts(found);
            && d[|d| - 1] == Manipulation(false, false)
            && ("element" in found ==> d[0] == ElementSelection([]))
  {
    var found := TermsFoundAsWritten(ToLower(transcript), terms);
    SelectionMethodsHaveUpper();
    NoCamelCaseListed(transcript, terms, SelectionMethods);
    CamelCaseNeverDetected(transcript, terms);
    ManipulationTermsHaveUpper();
    assert "innerHTML" !in found && "textContent" !in found;
  }

  /** The DOM pushes: selection and events when those terms were found, manipulation always. */
  method PushDomConcepts(terms: seq<string>) returns (concepts: seq<Concept>)
    ensures concepts == DomConcepts(terms)
  {
    concepts := [];
    if "element" in terms {
      concepts := concepts + [ElementSelection(KeepListed(terms, SelectionMethods))];
    }
    if "event" in terms {
      concepts := concepts + [EventHandling];
    }
    concepts := concepts + [Manipulation("innerHTML" in terms, "textContent" in terms)];
  }

  /** The pushes for the title's topics, DOM first. */
  method PushTopicConcepts(title: string, terms: seq<string>) returns (concepts: seq<Concept>)
    ensures concepts == TopicConcepts(title, terms)
  {
    var lowerTitle := ToLower(title);
    concepts := [];
    if Contains(lowerTitle, "dom") {
      concepts := PushDomConcepts(terms);
    }
    if Contains(lowerTitle, "javascript") {
      concepts := concepts + JsConcepts(terms);
    }
  }

  /** The three pushes every transcript gets. */
  method PushGeneralConcepts(transcript: string, title: string, terms: seq<string>) returns (concepts: seq<Concept>)
    ensures concepts == GeneralConcepts(transcript, title, terms)
  {
    var mainTopic := MainTopic(title);
    concepts := [LearningObjectives(mainTopic, |terms| > 3), PracticalTechniques(Slice0(terms, 4), |terms| > 4)];
    concepts := concepts + [ProgressiveSkills(SentenceCount(transcript) > 20, mainTopic)];
  }

  /** `extractKeyConceptsFromTranscript`: the terms are found, then the concepts are pushed topic by topic. */
  method ExtractKeyConcepts(transcript: string, title: string) returns (concepts: seq<Concept>)
    ensures concepts == KeyConcepts(transcript, title)
    ensures 3 <= |concepts| <= 8
  {
    var terms := FindTechnicalTerms(transcript);
    concepts := PushTopicConcepts(title, terms);
    var general := PushGeneralConcepts(transcript, title, terms);
    concepts := concepts + general;
  }

  /** A rendered card text: question and answer. */
  datatype Flash = Flash(question: string, answer: string)

  const EasyQuestionPatterns: seq<string> := ["How does", "What techniques", "How are"]
  const EasyPhrasePatterns: seq<string> := ["are discussed", "are covered", "are demonstrated"]
  const EasyQuestion: string := "What is"
  const EasyPhrase: string := "mentioned in this video"
  const MediumQuestion: string := "How does the video explain"
  const HardWhat: string := "Analyze how"
  const HardHow: string := "Critically evaluate how"
  const EasyNote: string :=
    ". This basic concept is " +
    "fundamental to " +
    "understanding the topic."
  const MediumNote: string :=
    " Understanding this " +
    "concept requires " +
    "applying the knowledge " +
    "in practical scenarios."
  const HardNote: string :=
    " This advanced concept " +
    "requires synthesizing " +
    "multiple related ideas " +
    "and evaluating their " +
    "interactions in complex " +
    "scenarios."

  /** The difficulty adjustment; a difficulty other than easy, medium or hard has none. */
  function Adjust(difficulty: string, c: Flash): (r: Flash)
    ensures difficulty != "easy" && difficulty != "medium" && difficulty != "hard" ==> r == c
    ensures c.answer != [] ==> r.answer != []
  {
    if difficulty == "easy" then
      Flash(ReplaceFirstOf(ReplaceFirstOf(c.question, EasyQuestionPatterns, EasyQuestion),
                           EasyPhrasePatterns, EasyPhrase),
            BeforeFirst(c.answer, '.') + EasyNote)
    else if difficulty == "medium" then
      Flash(if Contains(c.question, "How") then c.question
            else ReplaceFirst(c.question, "What", MediumQuestion),
            c.answer + MediumNote)
    else if difficulty == "hard" then
      Flash(ReplaceFirst(ReplaceFirst(c.question, "What", HardWhat), "How does", HardHow),
            c.answer + HardNote)
    else c
  }

  /**
   * What the adjustment does to a card: easy keeps the answer's first
   * sentence and adds a basic note, medium and hard keep it whole and add a
   * note.  The question is rewritten by first-occurrence replacements: easy
   * swaps the first "How does"/"What techniques"/"How are" for "What is" and
   * then the first "are discussed"/"are covered"/"are demonstrated" for
   * "mentioned in this video"; medium leaves a question that already says
   * "How" alone and otherwise swaps the first "What"; hard swaps the first
   * "What" and then the first "How does".
   */
  lemma AdjustedCard(difficulty: string, c: Flash)
    ensures var r := Adjust(difficulty, c);
            && (difficulty == "easy" ==> StartsWith(r.answer, BeforeFirst(c.answer, '.')) && EndsWith(r.answer, EasyNote))
            && (difficulty == "easy" ==>
                  r.question == ReplaceFirstOf(ReplaceFirstOf(c.question, EasyQuestionPatterns, EasyQuestion),
                                               EasyPhrasePatterns, EasyPhrase))
            && (difficulty == "medium" ==> StartsWith(r.answer, c.answer) && EndsWith(r.answer, MediumNote))
            && (difficulty == "medium" && Contains(c.question, "How") ==> r.question == c.question)
            && (difficulty == "medium" && !Contains(c.question, "How") ==>
                  r.question == ReplaceFirst(c.question, "What", MediumQuestion))
            && (difficulty == "hard" ==> StartsWith(r.answer, c.answer) && EndsWith(r.answer, HardNote))
            && (difficulty == "hard" ==>
                  r.question == ReplaceFirst(ReplaceFirst(c.question, "What", HardWhat), "How does", HardHow))
  {
    var r := Adjust(difficulty, c);
    if difficulty == "easy" {
      var a := BeforeFirst(c.answer, '.');
      assert r.answer[..|a|] == a;
      assert r.answer[|r.answer| - |EasyNote|..] == EasyNote;
    } else if difficulty == "medium" {
      assert r.answer[..|c.answer|] == c.answer;
      assert r.answer[|r.answer| - |MediumNote|..] == MediumNote;
    } else if difficulty == "hard" {
      assert r.answer[..|c.answer|] == c.answer;
      assert r.answer[|r.answer| - |HardNote|..] == HardNote;
    }
  }

  /**
   * At medium, a question that opens with "What" and never says "How" has
   * that opening word replaced: "What is X?" becomes "How does the video
   * explain is X?".
   */
  lemma MediumWhatQuestion(c: Flash)
    requires StartsWith(c.question, "What") && !Contains(c.question, "How")
    ensures Adjust("medium", c).question == MediumQuestion + c.question[4..]
  {
    var q, w := c.question, "What";
    assert ContainsAt(q, w, 0);
    assert Contains(q, w);
    var i :| && ContainsAt(q, w, i) && (forall j :: 0 <= j < i ==> !ContainsAt(q, w, j))
             && ReplaceFirst(q, w, MediumQuestion) == q[..i] + MediumQuestion + q[i + |w|..];
    assert 0 < i ==> !ContainsAt(q, w, 0);
  }

  /** `[${difficulty.toUpperCase()}] `. */
  function DifficultyTag(difficulty: string): (r: string)
    ensures |r| == |difficulty| + 3 && r[0] == '[' && r[|r| - 2..] == "] "
    ensures forall i :: 1 <= i < |r| - 2 ==> !('a' <= r[i] <= 'z')
    ensures r[1..|r| - 2] == ToUpper(difficulty)
  {
    "[" + ToUpper(difficulty) + "] "
  }

  /** A concept's text. */
  function Render(c: Concept): (f: Flash)
    ensures f.answer != []
    ensures c.LearningObjectives? ==> ContainsAt(f.question, c.topic, |ObjectivesLead|)
  {
    Flash(Question(c), Answer(c))
  }

  /** The card for one rendered concept: adjusted, with the difficulty tag before the question. */
  function CardOf(f: Flash, difficulty: string): (card: RawCard)
    requires f.answer != []
    ensures card.CardObject? && card.question.Some? && card.answer.Some?
    ensures var adjusted := Adjust(difficulty, f);
            && StartsWith(card.question.value, DifficultyTag(difficulty))
            && ContainsAt(card.question.value, adjusted.question, |DifficultyTag(difficulty)|)
            && card.answer.value == adjusted.answer && adjusted.answer != []
  {
    var adjusted := Adjust(difficulty, f);
    var tag := DifficultyTag(difficulty);
    var q := tag + adjusted.question;
    assert q[..|tag|] == tag;
    assert q[|tag|..|tag| + |adjusted.question|] == adjusted.question;
    CardObject(Some(q), Some(adjusted.answer))
  }

  /** The texts of a list of concepts. */
  function Rendered(concepts: seq<Concept>): (fs: seq<Flash>)
    ensures |fs| == |concepts|
    ensures forall i :: 0 <= i < |fs| ==> fs[i] == Render(concepts[i])
    ensures forall f :: f in fs ==> f.answer != []
  {
    seq(|concepts|, i requires 0 <= i < |concepts| => Render(concepts[i]))
  }

  /** `Array.from({ length: count }, ...)`: card `i` comes from concept `i mod n`. */
  function CardsFromConcepts(flashes: seq<Flash>, count: int, difficulty: string): (cards: seq<RawCard>)
    requires flashes != [] && forall f :: f in flashes ==> f.answer != []
    ensures |cards| == ArrayLength(count)
    ensures forall i :: 0 <= i < |cards| ==> cards[i] == CardOf(flashes[i % |flashes|], difficulty)
  {
    seq(ArrayLength(count), i requires 0 <= i => CardOf(flashes[i % |flashes|], difficulty))
  }

  /**
   * The rows `saveFlashcards` builds from the template cards: exactly
   * `count` of them (none for a negative count), each tagged with the
   * difficulty, row `i` carrying concept `i mod n`, adjusted.
   */
  function TemplateRows(flashes: seq<Flash>, count: int, difficulty: string, videoId: nat): (rows: seq<FlashcardRow>)
    requires flashes != [] && forall f :: f in flashes ==> f.answer != []
    ensures |rows| == ArrayLength(count)
    ensures forall i :: 0 <= i < |rows| ==>
              && rows[i].videoId == videoId && rows[i].difficulty == difficulty
              && StartsWith(rows[i].question, DifficultyTag(difficulty))
    ensures forall i :: 0 <= i < |rows| ==>
              var adjusted := Adjust(difficulty, flashes[i % |flashes|]);
              && ContainsAt(rows[i].question, adjusted.question, |DifficultyTag(difficulty)|)
              && rows[i].answer == adjusted.answer
  {
    var cards := CardsFromConcepts(flashes, count, difficulty);
    var rows := FlashcardRows(cards, count, difficulty, videoId);
    assert forall i :: 0 <= i < |cards| ==> Truthy(cards[i].question) && Truthy(cards[i].answer);
    rows
  }

  /**
   * `generateContentAwareFlashcards`: the key concepts, cycled into `count`
   * template cards and saved.
   */
  method GenerateContentAwareFlashcards(db: Database, transcript: string, title: string, count: int,
                                        difficulty: string, videoId: nat)
    returns (r: Result<seq<FlashcardRow>>)
    modifies db
    ensures Flashcards in db.down ==> r == Failure(FlashcardSaveError) && unchanged(db)
    ensures Flashcards !in db.down ==>
              && r == Success(TemplateRows(Rendered(KeyConcepts(transcript, title)), count, difficulty, videoId))
              && db.flashcards == old(db.flashcards) + r.value
    ensures r.Success? ==> |r.value| == ArrayLength(count)
    ensures db.videos == old(db.videos) && db.quizzes == old(db.quizzes) && db.questions == old(db.questions)
    ensures old(db.Valid()) && videoId < |db.videos| ==> db.Valid()
  {
    var concepts := ExtractKeyConcepts(transcript, title);
    var flashes := Rendered(concepts);
    var cards := CardsFromConcepts(flashes, count, difficulty);
    r := db.SaveFlashcards(cards, count, difficulty, videoId);
  }
}
