/**
 * The quiz the server builds from templates when the model is unavailable:
 * the technical words of the transcript, the topic and general questions
 * for the requested difficulty, and the padding that brings the quiz to
 * exactly the requested number of questions.
 */
module QuizTemplates {
  import opened Wrappers
  import opened Text
  import opened Records
  import opened Concepts
  import opened Store

  const QuizProgrammingTerms: seq<string> :=
    ["function", "variable", "method", "object", "array", "property", "event", "callback"]
  const QuizDomTerms: seq<string> :=
    ["element", "selector", "attribute", "innerHTML", "textContent", "addEventListener", "querySelector"]
  const QuizJsTerms: seq<string> :=
    ["const", "let", "var", "arrow", "template", "destructuring", "spread"]
  const QuizTerms: seq<string> := QuizProgrammingTerms + QuizDomTerms + QuizJsTerms

  /** `transcript.toLowerCase().split(/\s+/)`, without the empty strings `split` leaves at either end. */
  function Words(transcript: string): (ws: seq<string>)
    ensures forall w :: w in ws ==> w != []
  {
    Fields(ToLower(transcript), IsSpace)
  }

  /** A word of a lower-cased transcript holds no upper-case letter. */
  lemma WordsAreLower(transcript: string)
    ensures forall w :: w in Words(transcript) ==> !HasUpper(w)
  {
    var lower := ToLower(transcript);
    forall w | w in Words(transcript) ensures !HasUpper(w) {
      FieldsWithin(lower, IsSpace, w);
      forall k | 0 <= k < |w| ensures !IsUpper(w[k]) {
        var j :| 0 <= j < |lower| && lower[j] == w[k];
      }
    }
  }

  /** Term detection as written: `words.includes(term)` with the term unchanged. */
  function WordTermsAsWritten(words: seq<string>, terms: seq<string>): (r: seq<string>)
    ensures forall t :: t in r <==> t in terms && t in words
    ensures |r| <= |terms|
    decreases |terms|
  {
    if terms == [] then []
    else
      var init, last := terms[..|terms| - 1], terms[|terms| - 1];
      assert terms == init + [last];
      WordTermsAsWritten(words, init) + (if last in words then [last] else [])
  }

  /** Term detection as intended: the term is lower-cased before the lookup. */
  function WordTerms(words: seq<string>, terms: seq<string>): (r: seq<string>)
    ensures forall t :: t in r <==> t in terms && ToLower(t) in words
    ensures |r| <= |terms|
    decreases |terms|
  {
    if terms == [] then []
    else
      var init, last := terms[..|terms| - 1], terms[|terms| - 1];
      assert terms == init + [last];
      WordTerms(words, init) + (if ToLower(last) in words then [last] else [])
  }

  /** The `forEach` over a term list, pushing every term that is, unchanged, a word of the transcript. */
  method PushWordTerms(words: seq<string>, terms: seq<string>) returns (found: seq<string>)
    ensures found == WordTermsAsWritten(words, terms)
  {
    found := [];
    var i := 0;
    while i < |terms|
      invariant 0 <= i <= |terms|
      invariant found == WordTermsAsWritten(words, terms[..i])
    {
      var term := terms[i];
      assert terms[..i + 1] == terms[..i] + [term];
      if term in words {
        found := found + [term];
      }
      i := i + 1;
    }
    assert terms[..i] == terms;
  }

  /** The term search over the quiz term lists: no camel-case term, `querySelector` among them, is ever found. */
  method FindQuizTerms(transcript: string) returns (found: seq<string>)
    ensures found == WordTermsAsWritten(Words(transcript), QuizTerms)
    ensures forall t :: t in found <==> t in QuizTerms && t in Words(transcript)
    ensures forall t :: t in found ==> !HasUpper(t)
    ensures "querySelector" !in found
  {
    found := PushWordTerms(Words(transcript), QuizTerms);
    CamelCaseNeverAWord(transcript, QuizTerms);
    QuerySelectorNeverFound(transcript, QuizTerms);
  }

  /** As written, no camel-case term is ever detected: every word is lower-case. */
  lemma CamelCaseNeverAWord(transcript: string, terms: seq<string>)
    ensures forall t :: t in WordTermsAsWritten(Words(transcript), terms) ==> !HasUpper(t)
  {
    WordsAreLower(transcript);
  }

  /**
   * As written, `technicalTerms.includes('querySelector')` never holds, so
   * the medium DOM explanation always names the generic techniques.
   */
  lemma QuerySelectorNeverFound(transcript: string, terms: seq<string>)
    ensures "querySelector" !in WordTermsAsWritten(Words(transcript), terms)
  {
    assert IsUpper("querySelector"[5]);
    CamelCaseNeverAWord(transcript, terms);
  }

  /** As intended, a listed term that is a word of the transcript, in any case, is detected. */
  lemma MentionedWordFound(transcript: string, t: string, terms: seq<string>)
    requires t in terms && t in Fields(transcript, IsSpace)
    ensures t in WordTerms(Words(transcript), terms)
  {
    FieldsLower(transcript, t);
  }

  /** The three difficulties that have modifiers. */
  datatype Level = Easy | Medium | Hard

  function Name(l: Level): (s: string) {
    match l
    case Easy => "easy"
    case Medium => "medium"
    case Hard => "hard"
  }

  /** `difficultyModifiers[difficulty]`: defined only for the three level names. */
  function LevelOf(difficulty: string): (l: Option<Level>)
    ensures l.Some? ==> Name(l.value) == difficulty
    ensures l.None? <==> difficulty != "easy" && difficulty != "medium" && difficulty != "hard"
  {
    if difficulty == "easy" then Some(Easy)
    else if difficulty == "medium" then Some(Medium)
    else if difficulty == "hard" then Some(Hard)
    else None
  }

  /** The three names differ, so at most one of the source's comparisons holds. */
  lemma NamesDistinct()
    ensures "easy" != "medium" && "easy" != "hard" && "medium" != "hard"
  {
    assert "easy"[0] != "medium"[0] && "easy"[0] != "hard"[0] && "medium"[0] != "hard"[0];
  }

  /** Each level's name leads back to the level. */
  lemma LevelNameRoundTrip(l: Level)
    ensures LevelOf(Name(l)) == Some(l)
  {
  }

  /** The error `modifier.prefix` raises when the lookup found nothing. */
  const ModifierError: string :=
    "Cannot read properties " +
    "of undefined (reading " +
    "'prefix')"

  /** The question templates, with what each interpolates. */
  datatype QuizTemplate =
    | DomAcronym(topic: string)
    | DomPurpose
    | DomSelection(querySelectorFound: bool)
    | DomRelationship
    | DomEventStrategy
    | DomSynthesis
    | JsUsage(functionFound: bool)
    | JsRelationship(pair: seq<string>)
    | JsPatterns(three: seq<string>)
    | General(level: Level, topic: string)

  predicate IsDomTemplate(t: QuizTemplate) {
    t.DomAcronym? || t.DomPurpose? || t.DomSelection? || t.DomRelationship? || t.DomEventStrategy? || t.DomSynthesis?
  }

  predicate IsJsTemplate(t: QuizTemplate) {
    t.JsUsage? || t.JsRelationship? || t.JsPatterns?
  }

  /** The DOM questions: two for each known difficulty, none otherwise. */
  function DomTemplates(terms: seq<string>, title: string, difficulty: string): (r: seq<QuizTemplate>)
    ensures forall t :: t in r ==> IsDomTemplate(t)
    ensures |r| == if LevelOf(difficulty).Some? then 2 else 0
  {
    if difficulty == "easy" then [DomAcronym(MainTopic(title)), DomPurpose]
    else if difficulty == "medium" then [DomSelection("querySelector" in terms), DomRelationship]
    else if difficulty == "hard" then [DomEventStrategy, DomSynthesis]
    else []
  }

  /** The JavaScript question: one, and the hard one for any difficulty but easy and medium. */
  function JsTemplates(terms: seq<string>, difficulty: string): (r: seq<QuizTemplate>)
    ensures |r| == 1 && IsJsTemplate(r[0])
    ensures r[0].JsRelationship? ==> |r[0].pair| <= 2 && forall t :: t in r[0].pair ==> t in terms
    ensures r[0].JsPatterns? ==> |r[0].three| <= 3 && forall t :: t in r[0].three ==> t in terms
  {
    if difficulty == "easy" then [JsUsage("function" in terms)]
    else if difficulty == "medium" then [JsRelationship(Slice0(terms, 2))]
    else [JsPatterns(Slice0(terms, 3))]
  }

  /** The topic questions: the DOM ones when the title mentions DOM, then the JavaScript one when it mentions JavaScript. */
  function TopicTemplates(terms: seq<string>, title: string, difficulty: string): (r: seq<QuizTemplate>)
    ensures |r| <= 3
    ensures forall t :: t in r && IsDomTemplate(t) ==> Contains(ToLower(title), "dom")
    ensures forall t :: t in r && !IsDomTemplate(t) ==> IsJsTemplate(t) && Contains(ToLower(title), "javascript")
    ensures !Contains(ToLower(title), "dom") && !Contains(ToLower(title), "javascript") ==> r == []
    ensures Contains(ToLower(title), "javascript") <==> exists t :: t in r && IsJsTemplate(t)
    ensures Contains(ToLower(title), "javascript") ==> 1 <= |r| && r[|r| - 1..] == JsTemplates(terms, difficulty)
  {
    var lower := ToLower(title);
    var dom := if Contains(lower, "dom") then DomTemplates(terms, title, difficulty) else [];
    var js := if Contains(lower, "javascript") then JsTemplates(terms, difficulty) else [];
    assert (dom + js)[|dom|..] == js;
    assert js != [] ==> js[0] in dom + js;
    dom + js
  }

  /** The DOM pushes: one `if` per difficulty. */
  method PushDomQuestions(terms: seq<string>, title: string, difficulty: string) returns (questions: seq<QuizTemplate>)
    ensures questions == DomTemplates(terms, title, difficulty)
  {
    NamesDistinct();
    questions := [];
    if difficulty == "easy" {
      questions := questions + [DomAcronym(MainTopic(title)), DomPurpose];
    }
    if difficulty == "medium" {
      questions := questions + [DomSelection("querySelector" in terms), DomRelationship];
    }
    if difficulty == "hard" {
      questions := questions + [DomEventStrategy, DomSynthesis];
    }
  }

  /** The JavaScript push: easy, medium, anything else. */
  method PushJsQuestion(terms: seq<string>, difficulty: string) returns (question: QuizTemplate)
    ensures [question] == JsTemplates(terms, difficulty)
  {
    if difficulty == "easy" {
      question := JsUsage("function" in terms);
    } else if difficulty == "medium" {
      question := JsRelationship(Slice0(terms, 2));
    } else {
      question := JsPatterns(Slice0(terms, 3));
    }
  }

  /** The pushes for the title's topics, in the order the source makes them. */
  method PushTopicQuestions(terms: seq<string>, title: string, difficulty: string) returns (questions: seq<QuizTemplate>)
    ensures questions == TopicTemplates(terms, title, difficulty)
  {
    var lowerTitle := ToLower(title);
    questions := [];
    if Contains(lowerTitle, "dom") {
      questions := PushDomQuestions(terms, title, difficulty);
    }
    if Contains(lowerTitle, "javascript") {
      var question := PushJsQuestion(terms, difficulty);
      questions := questions + [question];
    }
  }

  /** All the templates of a quiz at a known level: the topic ones, then the general one. */
  function QuizTemplatesFor(terms: seq<string>, title: string, level: Level): (r: seq<QuizTemplate>)
    ensures 1 <= |r| <= 4
    ensures r[|r| - 1] == General(level, MainTopic(title))
    ensures forall k :: 0 <= k < |r| - 1 ==> IsDomTemplate(r[k]) || IsJsTemplate(r[k])
  {
    TopicTemplates(terms, title, Name(level)) + [General(level, MainTopic(title))]
  }

  /** A question as `saveQuiz` receives it. */
  datatype QuizItem = QuizItem(question: string, options: seq<string>, correct: string, explanation: string)

  /** Four options, the correct answer a non-empty one of them. */
  predicate Answerable(q: QuizItem) {
    |q.options| == 4 && q.correct in q.options && q.correct != []
  }

  const AcronymLead: string := "According to \""
  const AcronymTail: string := "\", what does DOM stand for?"

  /** `modifier.prefix`. */
  function Prefix(l: Level): string {
    match l
    case Easy => "According to the video"
    case Medium => "How does the video explain"
    case Hard => "Analyze how the video demonstrates"
  }

  /** `modifier.complexity`. */
  function Complexity(l: Level): string {
    match l
    case Easy => "basic understanding of"
    case Medium => "practical application of"
    case Hard => "advanced synthesis of"
  }

  /** The general question's correct option. */
  function GeneralAnswer(l: Level): (a: string)
    ensures a != []
  {
    match l
    case Easy => "Comprehensive educational " + "content with practical examples"
    case Medium => "Applied knowledge with " + "real-world scenarios"
    case Hard => "Advanced integration of " + "multiple complex concepts"
  }

  /** The general question's first, wrong option. */
  function GeneralDecoy(l: Level): string {
    if l == Easy then "Surface-level information only" else "Theoretical concepts only"
  }

  /** What the general explanation says the instruction does. */
  function Approach(l: Level): string {
    match l
    case Easy => "introduces fundamental " + "concepts clearly"
    case Medium => "applies knowledge to " + "practical scenarios"
    case Hard => "synthesizes complex relationships " + "between advanced concepts"
  }

  /** The general question for a level and main topic. */
  function GeneralQuestion(l: Level, topic: string): (q: string)
    ensures ContainsAt(q, topic, |Prefix(l) + " the " + Complexity(l) + " concepts in \""|)
  {
    var lead := Prefix(l) + " the " + Complexity(l) + " concepts in \"";
    ConcatPieces(lead, topic, "\"?", "");
    lead + topic + "\"?"
  }

  /** A DOM template's question object. */
  function DomBase(t: QuizTemplate): (b: QuizItem)
    requires IsDomTemplate(t)
    ensures Answerable(b)
    ensures t.DomAcronym? ==> ContainsAt(b.question, t.topic, |AcronymLead|)
  {
    if t.DomAcronym? || t.DomPurpose? then DomEasyBase(t)
    else if t.DomSelection? || t.DomRelationship? then DomMediumBase(t)
    else DomHardBase(t)
  }

  /** The easy DOM questions. */
  function DomEasyBase(t: QuizTemplate): (b: QuizItem)
    requires t.DomAcronym? || t.DomPurpose?
    ensures Answerable(b)
    ensures t.DomAcronym? ==> ContainsAt(b.question, t.topic, |AcronymLead|)
  {
    match t
    case DomAcronym(topic) =>
      var answer := "Document Object Model";
      ConcatPieces(AcronymLead, topic, AcronymTail, "");
      QuizItem(AcronymLead + topic + AcronymTail,
               [answer, "Data Object Management", "Direct Object Method", "Dynamic Object Module"], answer,
               "The video explains that " +
               "DOM stands for Document " +
               "Object Model, which is " +
               "fundamental to " +
               "understanding web page " +
               "structure and " +
               "manipulation.")
    case DomPurpose =>
      var answer := "Representing web page structure";
      QuizItem("Based on the video " +
               "content, what is the " +
               "primary purpose of the " +
               "DOM?",
               ["Managing databases", answer, "Processing images", "Handling network requests"], answer,
               "The video demonstrates " +
               "that the DOM represents " +
               "the structure of web " +
               "pages, allowing " +
               "programs to interact " +
               "with HTML elements.")
  }

  /** The medium DOM questions. */
  function DomMediumBase(t: QuizTemplate): (b: QuizItem)
    requires t.DomSelection? || t.DomRelationship?
    ensures Answerable(b)
  {
    match t
    case DomSelection(named) =>
      var answer := "Using JavaScript selection methods";
      QuizItem("How does the video " +
               "explain the process of " +
               "DOM element selection?",
               ["Only through CSS", answer, "Directly editing HTML", "Through browser tools only"], answer,
               "The video demonstrates " +
               "practical JavaScript " +
               "methods like "
               + (if named then "querySelector and getElementById" else "standard DOM selection techniques")
               + " for accessing elements.")
    case DomRelationship =>
      var answer := "JavaScript can read and " +
                    "modify DOM elements";
      QuizItem("What relationship " +
               "between JavaScript and " +
               "DOM manipulation is " +
               "shown in the video?",
               ["They are unrelated", answer, "Only CSS can modify DOM", "DOM cannot be changed"], answer,
               "The video shows how " +
               "JavaScript provides " +
               "powerful capabilities " +
               "for both reading from " +
               "and writing to DOM " +
               "elements dynamically.")
  }

  /** The hard DOM questions. */
  function DomHardBase(t: QuizTemplate): (b: QuizItem)
    requires t.DomEventStrategy? || t.DomSynthesis?
    ensures Answerable(b)
  {
    match t
    case DomEventStrategy =>
      var answer := "Events provide better " +
                    "user interaction and " +
                    "dynamic response";
      QuizItem("Analyze the DOM " +
               "manipulation strategies " +
               "discussed in the video " +
               "- why would you choose " +
               "event-driven approaches " +
               "over direct " +
               "manipulation?",
               ["Events are faster", answer, "Events use less memory", "Events are easier to code"], answer,
               "The video demonstrates " +
               "that event-driven DOM " +
               "manipulation creates " +
               "more interactive and " +
               "responsive applications " +
               "by reacting to user " +
               "actions and system " +
               "events.")
    case DomSynthesis =>
      var answer := "They create a " +
                    "comprehensive system " +
                    "for dynamic web " +
                    "interaction";
      QuizItem("Evaluate the DOM " +
               "concepts presented: How " +
               "do selection methods, " +
               "modification " +
               "techniques, and event " +
               "handling work together " +
               "in real applications?",
               ["They work independently", answer, "Only selection is important", "They replace HTML entirely"], answer,
               "The video shows how " +
               "combining DOM " +
               "selection, " +
               "modification, and event " +
               "handling creates " +
               "powerful, interactive " +
               "web applications with " +
               "dynamic user " +
               "experiences.")
  }

  /** A JavaScript template's question object. */
  function JsBase(t: QuizTemplate): (b: QuizItem)
    requires IsJsTemplate(t)
    ensures Answerable(b)
  {
    match t
    case JsUsage(functions) =>
      var what := if functions then "functions" else "methods";
      var answer := "Executing code and " +
                    "performing tasks";
      QuizItem("According to the video, " +
               "what are JavaScript " + what + " used for?",
               ["Only calculations", answer, "Storing data only", "Styling web pages"], answer,
               "The video explains that " +
               "JavaScript " + what
               + " are fundamental " +
                 "building blocks for " +
                 "executing code and " +
                 "performing various " +
                 "programming tasks.")
    case JsRelationship(pair) =>
      var joined := Join(pair, " and ");
      var answer := "They work together to " +
                    "create functionality";
      QuizItem("How does the video " +
               "demonstrate the " +
               "relationship between " +
               "JavaScript " + joined + "?",
               ["They are unrelated", answer, "One replaces the other", "They are identical"], answer,
               "The video shows how " +
               "different JavaScript " +
               "concepts like " + joined
               + " complement each other " +
                 "to build comprehensive " +
                 "programming solutions.")
    case JsPatterns(three) =>
      var answer := "They enable " +
                    "sophisticated " +
                    "programming " +
                    "architectures and " +
                    "problem-solving " +
                    "approaches";
      QuizItem("Synthesize the " +
               "JavaScript programming " +
               "patterns shown in the " +
               "video: How do " + Join(three, ", ")
               + " combine to solve " +
                 "complex programming " +
                 "challenges?",
               ["They create simple scripts only", answer, "They only handle basic operations",
                "They replace other " +
                "programming languages"], answer,
               "The video demonstrates " +
               "how advanced JavaScript " +
               "concepts work " +
               "synergistically to " +
               "create robust, scalable " +
               "solutions for complex " +
               "programming challenges " +
               "in modern web " +
               "development.")
  }

  /** The general question object for a level and main topic. */
  function GeneralBase(level: Level, topic: string): (b: QuizItem)
    ensures Answerable(b)
    ensures b.options[1] == b.correct == GeneralAnswer(level)
  {
    QuizItem(GeneralQuestion(level, topic),
             [GeneralDecoy(level), GeneralAnswer(level), "Entertainment content", "Historical information only"],
             GeneralAnswer(level),
             "The video provides " + Name(level) + "-level instruction that " + Approach(level)
             + " to support " +
               "comprehensive learning.")
  }

  /** A template's question object. */
  function Base(t: QuizTemplate): (b: QuizItem)
    ensures Answerable(b)
  {
    if IsDomTemplate(t) then DomBase(t)
    else if IsJsTemplate(t) then JsBase(t)
    else GeneralBase(t.level, t.topic)
  }

  /** The question objects of a list of templates. */
  function RenderAll(ts: seq<QuizTemplate>): (qs: seq<QuizItem>)
    ensures |qs| == |ts|
    ensures forall k :: 0 <= k < |qs| ==> qs[k] == Base(ts[k])
    ensures forall q :: q in qs ==> Answerable(q)
  {
    seq(|ts|, k requires 0 <= k < |ts| => Base(ts[k]))
  }

  /** `[${difficulty.toUpperCase()}] ${baseQ.q}` with the base's options, answer and explanation: an entry of the slice. */
  function Selected(b: QuizItem, level: Level): (e: QuizItem)
    ensures e.options == b.options && e.correct == b.correct && e.explanation == b.explanation
    ensures StartsWith(e.question, DifficultyTag(Name(level)))
    ensures ContainsAt(e.question, b.question, |DifficultyTag(Name(level))|)
  {
    var tag := DifficultyTag(Name(level));
    ConcatEnds(tag, b.question);
    QuizItem(tag + b.question, b.options, b.correct, b.explanation)
  }

  /** What the padding explanation says the level assesses. */
  function Skill(l: Level): string {
    match l
    case Easy => "basic recall"
    case Medium => "conceptual understanding"
    case Hard => "analytical thinking"
  }

  /** A padding entry at 1-based `position`: the base question numbered, its explanation extended. */
  function Padded(b: QuizItem, level: Level, position: nat): (e: QuizItem)
    ensures e.options == b.options && e.correct == b.correct
    ensures StartsWith(e.question, DifficultyTag(Name(level)))
    ensures ContainsAt(e.question, b.question, |DifficultyTag(Name(level))|)
    ensures EndsWith(e.question, " (Question " + IntToString(position) + ")")
    ensures StartsWith(e.explanation, b.explanation)
  {
    var tag := DifficultyTag(Name(level));
    var number := " (Question " + IntToString(position) + ")";
    var extra := " This " + Name(level) + "-level assessment evaluates " + Skill(level) + " skills.";
    ConcatThree(tag, b.question, number);
    ConcatEnds(b.explanation, extra);
    QuizItem(tag + b.question + number, b.options, b.correct, b.explanation + extra)
  }

  /** Entry `k` of the quiz: from the slice while there are bases, padding after. */
  function Entry(bases: seq<QuizItem>, k: nat, level: Level): (e: QuizItem)
    requires bases != []
  {
    var b := bases[k % |bases|];
    if k < |bases| then Selected(b, level) else Padded(b, level, k + 1)
  }

  /** The entries within the bases are the selected bases. */
  lemma EntryOfBase(bases: seq<QuizItem>, k: nat, level: Level)
    requires k < |bases|
    ensures Entry(bases, k, level) == Selected(bases[k], level)
  {
    assert k % |bases| == k;
  }

  /** The entries past the bases are the numbered variations. */
  lemma EntryOfPadding(bases: seq<QuizItem>, k: nat, level: Level)
    requires bases != [] && |bases| <= k
    ensures Entry(bases, k, level) == Padded(bases[k % |bases|], level, k + 1)
  {
  }

  /** Appending the next entry keeps a prefix of the entries a prefix of the entries. */
  lemma EntriesExtend(prefix: seq<QuizItem>, bases: seq<QuizItem>, next: QuizItem, level: Level)
    requires bases != []
    requires forall k :: 0 <= k < |prefix| ==> prefix[k] == Entry(bases, k, level)
    requires next == Entry(bases, |prefix|, level)
    ensures forall k :: 0 <= k < |prefix| + 1 ==> (prefix + [next])[k] == Entry(bases, k, level)
  {
  }

  /** The number of questions: the slice, padded up to `count` when `count` is not negative. */
  function QuizLength(n: nat, count: int): (len: nat)
    ensures 0 <= count ==> len == count
    ensures count < 0 ==> len == SliceEnd(n, count)
  {
    if 0 <= count then count else SliceEnd(n, count)
  }

  /** The selected questions: entry `k` for every position up to the quiz length. */
  function QuizItems(bases: seq<QuizItem>, count: int, level: Level): (items: seq<QuizItem>)
    requires bases != []
    ensures 0 <= count ==> |items| == count
    ensures count < 0 ==> |items| == SliceEnd(|bases|, count)
  {
    seq(QuizLength(|bases|, count), k requires 0 <= k => Entry(bases, k, level))
  }

  /**
   * Entry `k` is built on base `k mod n`: it keeps that base's options and
   * answer, carries the difficulty tag and the base question, and the
   * entries past the bases are numbered with their 1-based position.
   */
  lemma QuizItemsShape(bases: seq<QuizItem>, count: int, level: Level)
    requires bases != []
    ensures var items := QuizItems(bases, count, level);
            && (forall k :: 0 <= k < |items| ==>
                  items[k].options == bases[k % |bases|].options && items[k].correct == bases[k % |bases|].correct)
            && (forall k :: 0 <= k < |items| ==> StartsWith(items[k].question, DifficultyTag(Name(level))))
            && (forall k :: 0 <= k < |items| ==>
                  ContainsAt(items[k].question, bases[k % |bases|].question, |DifficultyTag(Name(level))|))
            && (forall k :: |bases| <= k < |items| ==> EndsWith(items[k].question, " (Question " + IntToString(k + 1) + ")"))
  {
  }

  /** An entry is answerable when its base is. */
  lemma EntryAnswerable(bases: seq<QuizItem>, k: nat, level: Level)
    requires bases != [] && Answerable(bases[k % |bases|])
    ensures Answerable(Entry(bases, k, level))
  {
  }

  /** Built on answerable bases, every entry is answerable. */
  lemma QuizItemsAnswerable(bases: seq<QuizItem>, count: int, level: Level)
    requires bases != [] && forall b :: b in bases ==> Answerable(b)
    ensures forall q :: q in QuizItems(bases, count, level) ==> Answerable(q)
  {
    var items := QuizItems(bases, count, level);
    forall k | 0 <= k < |items| ensures Answerable(items[k]) {
      assert bases[k % |bases|] in bases;
      EntryAnswerable(bases, k, level);
    }
  }

  /**
   * `questions.slice(0, questionCount).map(...)` followed by the `while`
   * loop that pads with numbered variations up to `questionCount`.
   */
  method SelectAndPad(questions: seq<QuizItem>, questionCount: int, level: Level) returns (selected: seq<QuizItem>)
    requires questions != []
    ensures selected == QuizItems(questions, questionCount, level)
  {
    var kept := Slice0(questions, questionCount);
    selected := seq(|kept|, k requires 0 <= k < |kept| => Selected(kept[k], level));
    forall k | 0 <= k < |selected| ensures selected[k] == Entry(questions, k, level) {
      EntryOfBase(questions, k, level);
    }
    while |selected| < questionCount
      invariant if 0 <= questionCount then |kept| <= |selected| <= questionCount else |selected| == |kept|
      invariant |kept| < questionCount ==> |kept| == |questions|
      invariant forall k :: 0 <= k < |selected| ==> selected[k] == Entry(questions, k, level)
      decreases questionCount - |selected|
    {
      var baseIndex := |selected| % |questions|;
      EntryOfPadding(questions, |selected|, level);
      EntriesExtend(selected, questions, Padded(questions[baseIndex], level, |selected| + 1), level);
      selected := selected + [Padded(questions[baseIndex], level, |selected| + 1)];
    }
    assert |selected| == QuizLength(|questions|, questionCount);
  }

  /** The quiz the templates give at a known level, with the term detection as written. */
  function ContentAwareQuiz(questionCount: int, level: Level, title: string, transcript: string): (items: seq<QuizItem>)
    ensures 0 <= questionCount ==> |items| == questionCount
    ensures forall q :: q in items ==> Answerable(q)
  {
    var templates := QuizTemplatesFor(WordTermsAsWritten(Words(transcript), QuizTerms), title, level);
    QuizItemsAnswerable(RenderAll(templates), questionCount, level);
    QuizItems(RenderAll(templates), questionCount, level)
  }

  /** The quiz the templates would give with the intended, case-blind term detection. */
  function IntendedContentAwareQuiz(questionCount: int, level: Level, title: string, transcript: string)
    : (items: seq<QuizItem>)
    ensures 0 <= questionCount ==> |items| == questionCount
    ensures forall q :: q in items ==> Answerable(q)
  {
    var templates := QuizTemplatesFor(WordTerms(Words(transcript), QuizTerms), title, level);
    QuizItemsAnswerable(RenderAll(templates), questionCount, level);
    QuizItems(RenderAll(templates), questionCount, level)
  }

  /** The objects `saveQuiz` receives. */
  function AsRaw(items: seq<QuizItem>): (raw: seq<RawQuestion>)
    ensures |raw| == |items|
    ensures forall k :: 0 <= k < |raw| ==>
              raw[k] == QuestionObject(Some(items[k].question), Some(items[k].options), Some(items[k].correct), Some(items[k].explanation))
    ensures forall q :: q in raw ==> q.QuestionObject?
  {
    seq(|items|, k requires 0 <= k < |items| =>
      QuestionObject(Some(items[k].question), Some(items[k].options), Some(items[k].correct), Some(items[k].explanation)))
  }

  /**
   * Saved, the template quiz has one row per question, each with its four
   * options and, as its answer, one of them.
   */
  lemma SavedTemplateQuizAnswerable(items: seq<QuizItem>, questionCount: int, quizId: nat)
    requires forall q :: q in items ==> Answerable(q)
    ensures var rows := QuestionRows(AsRaw(items), questionCount, quizId);
            && |rows| == SliceEnd(|items|, questionCount)
            && forall k :: 0 <= k < |rows| ==>
                 rows[k].options == items[k].options && rows[k].correctAnswer == items[k].correct
                 && |rows[k].options| == 4 && rows[k].correctAnswer in rows[k].options
  {
    var raw := AsRaw(items);
    var rows := QuestionRows(raw, questionCount, quizId);
    forall k | 0 <= k < |rows|
      ensures rows[k].options == items[k].options && rows[k].correctAnswer == items[k].correct
      ensures |rows[k].options| == 4 && rows[k].correctAnswer in rows[k].options
    {
      assert items[k] in items;
      assert rows[k] == QuestionRowOf(raw[k], k, quizId);
      assert Slice0(items[k].options, 4) == items[k].options[..4] == items[k].options;
    }
  }

  /**
   * `generateContentAwareQuiz`: the selected questions, saved, or the error
   * the modifier lookup raises for a difficulty other than easy, medium and
   * hard, before anything is saved.
   */
  method GenerateContentAwareQuiz(db: Database, questionCount: int, difficulty: string, videoId: nat,
                                  title: string, transcript: string)
    returns (r: Result<SavedQuiz>)
    modifies db
    ensures LevelOf(difficulty).None? ==> r == Failure(ModifierError) && unchanged(db)
    ensures LevelOf(difficulty).Some? && Quizzes in db.down ==> r == Failure(QuizSaveError) && unchanged(db)
    ensures LevelOf(difficulty).Some? && Quizzes !in db.down ==>
              db.quizzes == old(db.quizzes) + [QuizRowOf(videoId, title, questionCount, difficulty)]
    ensures LevelOf(difficulty).Some? && Quizzes !in db.down && QuizQuestions in db.down ==>
              r == Failure(QuestionSaveError)
    ensures LevelOf(difficulty).Some? && Quizzes !in db.down && QuizQuestions !in db.down ==>
              var id := old(|db.quizzes|);
              var items := ContentAwareQuiz(questionCount, LevelOf(difficulty).value, title, transcript);
              && r == Success(SavedQuiz(id, QuestionRows(AsRaw(items), questionCount, id)))
              && db.questions == old(db.questions) + r.value.quizQuestions
    ensures r.Success? ==> 0 <= questionCount ==> |r.value.quizQuestions| == questionCount
    ensures r.Success? ==> forall row :: row in r.value.quizQuestions ==> |row.options| == 4 && row.correctAnswer in row.options
    ensures r.Failure? ==> db.questions == old(db.questions)
    ensures r.Success? <==> LevelOf(difficulty).Some? && Quizzes !in db.down && QuizQuestions !in db.down
    ensures db.quizzes == old(db.quizzes) + if LevelOf(difficulty).Some? && Quizzes !in db.down
                                            then [QuizRowOf(videoId, title, questionCount, difficulty)] else []
    ensures db.videos == old(db.videos) && db.flashcards == old(db.flashcards)
    ensures old(db.Valid()) && videoId < |db.videos| ==> db.Valid()
  {
    var technicalTerms := FindQuizTerms(transcript);
    var questions := PushTopicQuestions(technicalTerms, title, difficulty);
    var modifier := LevelOf(difficulty);
    if modifier.None? {
      return Failure(ModifierError);
    }
    questions := questions + [General(modifier.value, MainTopic(title))];
    var selected := SelectAndPad(RenderAll(questions), questionCount, modifier.value);
    QuizItemsAnswerable(RenderAll(questions), questionCount, modifier.value);
    SavedTemplateQuizAnswerable(selected, questionCount, |db.quizzes|);
    r := db.SaveQuiz(AsRaw(selected), questionCount, difficulty, videoId, title);
  }
}
