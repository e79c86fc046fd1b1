/**
 * Getting a transcript: the first-success-wins chain over the transcript
 * strategies, the keyword-templated filler used when every strategy fails,
 * and the floor the handler applies to the result.
 */
module Transcript {
  import opened Wrappers
  import opened Text

  /** What one strategy did when the chain invoked it. */
  datatype Attempt = Returned(text: string) | Threw

  /** A strategy's result is taken when it returned a string of more than 100 characters. */
  predicate Accepted(a: Attempt) {
    a.Returned? && |a.text| > 100
  }

  /** The text of the first accepted attempt, if any. */
  function FirstAccepted(attempts: seq<Attempt>): (r: Option<string>)
    ensures r.Some? ==> exists i :: 0 <= i < |attempts| && Accepted(attempts[i]) && r.value == attempts[i].text
    ensures r.None? <==> forall i :: 0 <= i < |attempts| ==> !Accepted(attempts[i])
  {
    if attempts == [] then None
    else if Accepted(attempts[0]) then Some(attempts[0].text)
    else
      var rest := FirstAccepted(attempts[1..]);
      assert forall i :: 1 <= i < |attempts| ==> attempts[i] == attempts[1..][i - 1];
      rest
  }

  /** The first accepted attempt gives the chain's result. */
  lemma {:induction false} FirstAcceptedAt(attempts: seq<Attempt>, k: nat)
    requires k < |attempts| && Accepted(attempts[k])
    requires forall j :: 0 <= j < k ==> !Accepted(attempts[j])
    ensures FirstAccepted(attempts) == Some(attempts[k].text)
    decreases k
  {
    if k > 0 {
      var rest := attempts[1..];
      assert rest[k - 1] == attempts[k];
      assert forall j :: 0 <= j < k - 1 ==> rest[j] == attempts[j + 1];
      FirstAcceptedAt(rest, k - 1);
    }
  }

  /**
   * `extractTranscriptRobust`: `attempts[i]` is what strategy `i` does when
   * it is called; the source's chain is RapidAPI, the timedtext API, the
   * watch page and the proxy, in that order.  `invoked` counts the strategies called; `None` is the
   * final throw.
   */
  method ExtractTranscriptRobust(attempts: seq<Attempt>) returns (r: Option<string>, invoked: nat)
    ensures invoked <= |attempts|
    ensures r == FirstAccepted(attempts)
    ensures r.Some? ==> 0 < invoked && Accepted(attempts[invoked - 1]) && r.value == attempts[invoked - 1].text
    ensures r.Some? ==> forall j :: 0 <= j < invoked - 1 ==> !Accepted(attempts[j])
    ensures r.None? ==> invoked == |attempts|
  {
    var i := 0;
    while i < |attempts|
      invariant 0 <= i <= |attempts|
      invariant forall j :: 0 <= j < i ==> !Accepted(attempts[j])
    {
      var a := attempts[i];
      if a.Returned? && |a.text| > 100 {
        FirstAcceptedAt(attempts, i);
        return Some(a.text), i + 1;
      }
      i := i + 1;
    }
    return None, i;
  }

  const DomTopic: string :=
    "This video covers " +
    "Document Object Model " +
    "(DOM) concepts, " +
    "explaining how to " +
    "interact with HTML " +
    "elements using " +
    "JavaScript. The content " +
    "includes practical " +
    "examples of DOM " +
    "manipulation " +
    "techniques, element " +
    "selection methods, " +
    "event handling, and " +
    "dynamic content " +
    "modification. Students " +
    "learn how to access, " +
    "modify, and create HTML " +
    "elements " +
    "programmatically, " +
    "understanding the " +
    "structure and hierarchy " +
    "of web pages. The " +
    "tutorial demonstrates " +
    "real-world applications " +
    "of DOM programming for " +
    "interactive web " +
    "development."
  const JavaScriptTopic: string :=
    "This comprehensive " +
    "JavaScript tutorial " +
    "covers fundamental " +
    "programming concepts " +
    "and practical " +
    "implementation " +
    "techniques. The video " +
    "explains variables, " +
    "functions, control " +
    "structures, and modern " +
    "JavaScript features. " +
    "Students learn through " +
    "hands-on examples that " +
    "demonstrate real-world " +
    "coding scenarios. The " +
    "content includes best " +
    "practices for " +
    "JavaScript development, " +
    "debugging techniques, " +
    "and common programming " +
    "patterns used in web " +
    "development."
  const CssTopic: string :=
    "This CSS tutorial " +
    "covers styling " +
    "techniques and layout " +
    "principles for web " +
    "development. The video " +
    "demonstrates practical " +
    "approaches to creating " +
    "responsive designs, " +
    "understanding " +
    "selectors, and " +
    "implementing modern CSS " +
    "features. Students " +
    "learn how to structure " +
    "stylesheets effectively " +
    "and create visually " +
    "appealing web " +
    "interfaces."
  const GenericTopic: string :=
    "This educational " +
    "content provides " +
    "structured learning " +
    "with clear explanations " +
    "and practical examples. " +
    "The video covers key " +
    "concepts through " +
    "step-by-step " +
    "instruction, helping " +
    "students build " +
    "comprehensive " +
    "understanding. The " +
    "tutorial includes " +
    "real-world applications " +
    "and demonstrates best " +
    "practices in the " +
    "subject area."
  const Closing: string :=
    " The video content is " +
    "designed to help " +
    "learners progress " +
    "systematically through " +
    "the material with " +
    "practical applications " +
    "and comprehensive " +
    "coverage of essential " +
    "topics."
  const EnhancedBlock: string :=
    "\n\nKey Learning " +
    "Objectives:\n- " +
    "Understanding core " +
    "concepts and " +
    "terminology\n- Practical " +
    "application through " +
    "hands-on examples  \n- " +
    "Building foundational " +
    "knowledge for advanced " +
    "topics\n- Developing " +
    "problem-solving skills " +
    "in the subject area\n\n" +
    "The instructional " +
    "approach emphasizes:\n- " +
    "Step-by-step " +
    "methodology for complex " +
    "topics\n- Real-world " +
    "examples and use cases\n" +
    "- Interactive learning " +
    "through practical " +
    "demonstrations\n- " +
    "Progressive skill " +
    "building from basic to " +
    "advanced concepts\n\n" +
    "Students will gain " +
    "practical experience " +
    "and theoretical " +
    "understanding that can " +
    "be immediately applied " +
    "in professional and " +
    "academic contexts. The " +
    "content is structured " +
    "to accommodate " +
    "different learning " +
    "styles and provides " +
    "comprehensive coverage " +
    "of essential topics in " +
    "the field."

  /** The opening sentence, which names the title. */
  function Opening(title: string): (r: string)
    ensures |r| >= 50
    ensures ContainsAt(r, title, 31)
  {
    "This educational video titled \"" + title + "\" provides comprehensive " + "instruction on the topic. "
  }

  /** The description sentence; a falsy (empty) description contributes nothing. */
  function DescriptionSentence(description: string): (r: string)
    ensures r == [] <==> description == []
    ensures description != [] ==> ContainsAt(r, description, 28)
  {
    if description == [] then "" else "The video content includes: " + description + ". "
  }

  /** Which topic paragraph the filler uses. */
  datatype Topic = Dom | JavaScript | Css | Generic

  /** The topic, chosen on the lower-cased title: 'dom', then 'javascript', then 'css', else generic. */
  function TopicOf(title: string): (t: Topic)
    ensures var lower := ToLower(title);
            && (t == Dom <==> Contains(lower, "dom"))
            && (t == JavaScript <==> !Contains(lower, "dom") && Contains(lower, "javascript"))
            && (t == Css <==> !Contains(lower, "dom") && !Contains(lower, "javascript") && Contains(lower, "css"))
            && (t == Generic <==> !Contains(lower, "dom") && !Contains(lower, "javascript") && !Contains(lower, "css"))
  {
    var lower := ToLower(title);
    if Contains(lower, "dom") then Dom
    else if Contains(lower, "javascript") then JavaScript
    else if Contains(lower, "css") then Css
    else Generic
  }

  function TopicText(t: Topic): string {
    match t
    case Dom => DomTopic
    case JavaScript => JavaScriptTopic
    case Css => CssTopic
    case Generic => GenericTopic
  }

  /** The filler around a topic paragraph: the opening, the description sentence, the paragraph, the closing. */
  function Filler(title: string, description: string, paragraph: string): (r: string)
    ensures |r| >= 50
    ensures StartsWith(r, Opening(title)) && EndsWith(r, Closing)
    ensures ContainsAt(r, DescriptionSentence(description), |Opening(title)|)
    ensures ContainsAt(r, paragraph, |Opening(title)| + |DescriptionSentence(description)|)
  {
    var o, d := Opening(title), DescriptionSentence(description);
    ConcatPieces(o, d, paragraph, Closing);
    o + d + paragraph + Closing
  }

  /** `generateFallbackContent(title, description)`: the filler around the title's topic paragraph. */
  function FallbackContent(title: string, description: string): (r: string)
    ensures |r| >= 50
    ensures StartsWith(r, Opening(title)) && EndsWith(r, Closing)
    ensures ContainsAt(r, TopicText(TopicOf(title)), |Opening(title)| + |DescriptionSentence(description)|)
  {
    Filler(title, description, TopicText(TopicOf(title)))
  }

  /** A text followed by the fixed block of learning objectives. */
  function WithObjectives(f: string): (r: string)
    ensures StartsWith(r, f) && EndsWith(r, EnhancedBlock)
    ensures |r| == |f| + |EnhancedBlock|
  {
    ConcatEnds(f, EnhancedBlock);
    f + EnhancedBlock
  }

  /** `generateEnhancedFallbackContent`: the plain filler followed by the block of learning objectives. */
  function EnhancedFallbackContent(title: string, description: string): (r: string)
    ensures StartsWith(r, FallbackContent(title, description))
    ensures EndsWith(r, EnhancedBlock)
  {
    WithObjectives(FallbackContent(title, description))
  }

  /**
   * The handler's transcript step: the chain's result, or the filler when
   * it threw, then the enhanced filler when that is falsy or shorter than
   * 50 characters.
   */
  function TranscriptFor(chain: Option<string>, title: string, description: string): string {
    var t := if chain.Some? then chain.value else FallbackContent(title, description);
    if t == [] || |t| < 50 then EnhancedFallbackContent(title, description) else t
  }

  /**
   * The floor never fires after the chain: a transcript it accepted has over
   * 100 characters and the filler has at least 50, so the transcript passed
   * on is the chain's result or the plain filler, never the enhanced one.
   */
  lemma EnhancedFallbackUnreachable(attempts: seq<Attempt>, chain: Option<string>, title: string, description: string)
    requires chain.Some? ==> exists i :: 0 <= i < |attempts| && Accepted(attempts[i]) && chain.value == attempts[i].text
    ensures TranscriptFor(chain, title, description) == if chain.Some? then chain.value else FallbackContent(title, description)
    ensures |TranscriptFor(chain, title, description)| >= 50
  {
  }
}
