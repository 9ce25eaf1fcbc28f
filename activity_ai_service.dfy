/** The AI analysis step of the fitness service: the prompt rendered for an
    activity, and the tolerant two-stage parse that turns the provider's reply
    into a recommendation that always carries a narrative and three non-empty
    lists, falling back to a fixed default recommendation when a parse stage
    fails. */
module ActivityAIService {
  import opened Wrappers
  import opened Text
  import opened Json

  /* ---------------- Entities ---------------- */

  /** An activity as received from the queue. `additionalMetrics` lists the
      metrics map's entries in its iteration order, each value already in the
      form its `toString` gives. */
  datatype Activity = Activity(
    id: string,
    userId: string,
    activityType: string,
    duration: int,
    caloriesBurned: int,
    additionalMetrics: seq<(string, string)>)

  /** A reading of the local date-time clock, supplied by the caller. */
  type Timestamp = int

  datatype Recommendation = Recommendation(
    activityId: string,
    userId: string,
    activityType: string,
    recommendation: string,
    improvements: seq<string>,
    suggestions: seq<string>,
    safety: seq<string>,
    createdAt: Timestamp)

  /** Every list of the record holds at least one entry. */
  predicate IsComplete(r: Recommendation)
  {
    r.improvements != [] && r.suggestions != [] && r.safety != []
  }

  /** The record carries the activity's identity unchanged. */
  predicate IsFor(r: Recommendation, activity: Activity)
  {
    r.activityId == activity.id && r.userId == activity.userId && r.activityType == activity.activityType
  }

  /** What the inner document yields: the narrative and the three lists. */
  datatype Analysis = Analysis(
    narrative: string,
    improvements: seq<string>,
    suggestions: seq<string>,
    safety: seq<string>)

  /** The stage at which an exception sends the service to the default. */
  datatype Stage =
    | OuterParse     // the reply is not JSON
    | EnvelopeShape  // `get(0)` on candidates or parts gave null
    | InnerParse     // the fenced text is not JSON

  datatype ParseOutcome = Parsed(analysis: Analysis) | UseDefault(failedAt: Stage)

  /* ---------------- Fixed texts ---------------- */

  const DefaultNarrative := "Unable to generate detailed analysis"
  const DefaultImprovement := "Continue with your current routine"
  const DefaultSuggestion := "Consider consulting a fitness professional"
  const DefaultSafety := ["Always warm up before exercise", "Stay hydrated", "Listen to your body"]

  const NoImprovements := "No specific improvements provided"
  const NoSuggestions := "No specific suggestions provided"
  const NoSafety := "Follow general safety guidelines"

  const JsonFenceOpen := "```json\n"
  const FenceClose := "\n```"

  /* ---------------- Default recommendation ---------------- */

  /** The recommendation used whenever a parse stage fails. */
  function DefaultRecommendation(activity: Activity, now: Timestamp): (r: Recommendation)
    ensures IsComplete(r) && IsFor(r, activity) && r.createdAt == now
    ensures r.recommendation == DefaultNarrative && r.improvements == [DefaultImprovement]
    ensures r.suggestions == [DefaultSuggestion] && r.safety == DefaultSafety
  {
    Recommendation(activity.id, activity.userId, activity.activityType, DefaultNarrative,
                   [DefaultImprovement], [DefaultSuggestion], DefaultSafety, now)
  }

  /* ---------------- Envelope stage ---------------- */

  /** The root has a non-empty `candidates` array whose first element has
      `content.parts` as a non-empty array: the two `get(0)` calls yield
      nodes and no null is dereferenced. */
  predicate HasFirstPart(root: Node)
  {
    && root.Obj? && "candidates" in root.fields
    && root.fields["candidates"].Arr? && root.fields["candidates"].items != []
    && HasPartsArray(root.fields["candidates"].items[0])
  }

  /** A candidate whose `content.parts` is a non-empty array. */
  predicate HasPartsArray(candidate: Node)
  {
    && candidate.Obj? && "content" in candidate.fields
    && candidate.fields["content"].Obj? && "parts" in candidate.fields["content"].fields
    && candidate.fields["content"].fields["parts"].Arr?
    && candidate.fields["content"].fields["parts"].items != []
  }

  function FirstPart(root: Node): Node
    requires HasFirstPart(root)
  {
    root.fields["candidates"].items[0].fields["content"].fields["parts"].items[0]
  }

  /** `candidates[0].content.parts[0].text` read with `path`/`get`/`asText`;
      `None` where a `get(0)` returns null and the next call throws. A first
      part without `text` gives "" rather than a failure. */
  function EnvelopeText(root: Node): (r: Option<string>)
    ensures r.Some? <==> HasFirstPart(root)
    ensures r.Some? ==> r.value == AsText(Path(FirstPart(root), "text"))
  {
    match First(Path(root, "candidates"))
    case None => None
    case Some(candidate) =>
      match First(Path(Path(candidate, "content"), "parts"))
      case None => None
      case Some(part) => Some(AsText(Path(part, "text")))
  }

  /** The envelope the provider sends for one candidate with one text part. */
  function Envelope(text: string): Node
  {
    Obj(map["candidates" := Arr([Obj(map["content" := Obj(map["parts" := Arr([Obj(map["text" := Str(text)])])])])])])
  }

  lemma EnvelopeRoundTrip(text: string)
    ensures EnvelopeText(Envelope(text)) == Some(text)
  {
  }

  /* ---------------- Fence stripping ---------------- */

  /** Removes every "```json\n", then every "\n```", then trims. */
  function StripFences(text: string): (r: string)
    ensures IsTrimmed(r)
  {
    Trim(RemoveAll(RemoveAll(text, JsonFenceOpen), FenceClose))
  }

  /** Text with neither marker that is already trimmed is left unchanged. */
  lemma StripFencesKeepsPlainText(text: string)
    requires !Contains(text, JsonFenceOpen) && !Contains(text, FenceClose) && IsTrimmed(text)
    ensures StripFences(text) == text
  {
    RemoveAllWithoutOccurrence(text, JsonFenceOpen);
    RemoveAllWithoutOccurrence(text, FenceClose);
    TrimOfTrimmed(text);
  }

  /** A document wrapped in a json code fence. */
  function Fenced(doc: string): string
  {
    JsonFenceOpen + doc + FenceClose
  }

  /** Stripping undoes the fence for a trimmed document that holds no marker
      of its own (and does not end in "```json", which the newline of the
      closing fence would turn into an opening marker), whatever blanks
      follow the closing fence. */
  lemma StripFencesUndoesFence(doc: string, w: string)
    requires IsTrimmed(doc) && AllTrimmable(w)
    requires !Contains(doc + FenceClose, JsonFenceOpen) && !Contains(doc, FenceClose)
    ensures StripFences(Fenced(doc) + w) == doc
  {
    OpenFenceRemoved(doc, w);
    CloseFenceRemoved(doc, w);
    if doc == [] {
      assert doc + w == w;
      TrimOfBlanks(w);
    } else {
      TrimDropsTrailingBlanks(doc, w);
    }
  }

  /** The first removal takes off the opening marker and nothing else. */
  lemma OpenFenceRemoved(doc: string, w: string)
    requires AllTrimmable(w) && !Contains(doc + FenceClose, JsonFenceOpen)
    ensures RemoveAll(Fenced(doc) + w, JsonFenceOpen) == (doc + FenceClose) + w
  {
    var s := Fenced(doc) + w;
    var u := doc + FenceClose;
    assert StartsWith(s, JsonFenceOpen);
    assert s[|JsonFenceOpen|..] == u + w;
    forall i: nat | i <= |u + w|
      ensures !OccursAt(u + w, JsonFenceOpen, i)
    {
      NoOpenRunsIntoBlanks(u, w, i);
    }
    RemoveAllWithoutOccurrence(u + w, JsonFenceOpen);
  }

  /** The second removal takes off the closing marker and nothing else. */
  lemma CloseFenceRemoved(doc: string, w: string)
    requires IsTrimmed(doc) && AllTrimmable(w) && !Contains(doc, FenceClose)
    ensures RemoveAll((doc + FenceClose) + w, FenceClose) == doc + w
  {
    assert (doc + FenceClose) + w == doc + (FenceClose + w);
    forall i: nat | i < |doc|
      ensures !OccursAt(doc + (FenceClose + w), FenceClose, i)
    {
      NoCloseStartsBeforeBlanks(doc, w, i);
    }
    RemoveAllKeepsUntouchedPrefix(doc, FenceClose + w, FenceClose);
    assert StartsWith(FenceClose + w, FenceClose);
    assert (FenceClose + w)[|FenceClose|..] == w;
    BlanksHoldNoClose(w);
  }

  /** A closing marker starting inside the document would end inside the
      closing fence, whatever follows it. */
  lemma NoCloseStartsBeforeBlanks(doc: string, w: string, i: nat)
    requires IsTrimmed(doc) && !Contains(doc, FenceClose) && i < |doc|
    ensures !OccursAt(doc + (FenceClose + w), FenceClose, i)
  {
    var u := doc + FenceClose;
    NoCloseStartsInside(doc, i);
    assert u + w == doc + (FenceClose + w);
    assert (u + w)[i..i + |FenceClose|] == u[i..i + |FenceClose|];
  }

  /** Blanks hold no backquote, so removing the closing marker keeps them. */
  lemma BlanksHoldNoClose(w: string)
    requires AllTrimmable(w)
    ensures RemoveAll(w, FenceClose) == w
  {
    forall i: nat | i <= |w|
      ensures !OccursAt(w, FenceClose, i)
    {
      if i + |FenceClose| <= |w| {
        assert w[i..i + |FenceClose|][1] == w[i + 1] != FenceClose[1];
      }
    }
    RemoveAllWithoutOccurrence(w, FenceClose);
  }

  /** No opening marker occurs in `u + w` when `u` has none, ends in a
      backquote and `w` is blank: the marker's letters and backquotes cannot
      lie in `w`. */
  lemma NoOpenRunsIntoBlanks(u: string, w: string, i: nat)
    requires !Contains(u, JsonFenceOpen) && u != [] && u[|u| - 1] == '`' && AllTrimmable(w)
    ensures !OccursAt(u + w, JsonFenceOpen, i)
  {
    var t := u + w;
    var n := |JsonFenceOpen|;
    if i + n > |t| {
    } else if i + n <= |u| {
      assert t[i..i + n] == u[i..i + n];
      assert !OccursAt(u, JsonFenceOpen, i);
    } else if i >= |u| {
      assert t[i..i + n][0] == w[i - |u|] != JsonFenceOpen[0];
    } else if i == |u| - 7 {
      assert t[i..i + n][6] == u[|u| - 1] != JsonFenceOpen[6];
    } else {
      assert t[i..i + n][|u| - i] == w[0] != JsonFenceOpen[|u| - i];
    }
  }

  /** No closing marker starts inside a trimmed document that has none of
      its own, even one that would run into the closing fence. */
  lemma NoCloseStartsInside(doc: string, i: nat)
    requires IsTrimmed(doc) && !Contains(doc, FenceClose) && i < |doc|
    ensures !OccursAt(doc + FenceClose, FenceClose, i)
  {
    var s := doc + FenceClose;
    if i + |FenceClose| <= |doc| {
      assert s[i..i + |FenceClose|] == doc[i..i + |FenceClose|];
      assert !OccursAt(doc, FenceClose, i);
    } else if i == |doc| - 1 {
      assert s[i] == doc[|doc| - 1] != FenceClose[0];
    } else {
      assert s[|doc|] == '\n' != FenceClose[|doc| - i];
    }
  }

  /* ---------------- Narrative ---------------- */

  /** One labelled section: the prefix, the value's text and a blank line
      when `key` is present under `analysis`, nothing when it is absent. */
  function Section(analysisNode: Node, key: string, prefix: string): string
  {
    if Path(analysisNode, key).Missing? then "" else prefix + AsText(Path(analysisNode, key)) + "\n\n"
  }

  /** The sections in their fixed order, before trimming. */
  function AllSections(analysisNode: Node): string
  {
    Section(analysisNode, "overall", "Overall:")
    + Section(analysisNode, "pace", "Pace:")
    + Section(analysisNode, "heartRate", "Heart Rate:")
    + Section(analysisNode, "caloriesBurned", "Calories:")
  }

  /** True when none of the four narrative keys is present. */
  predicate NoSectionPresent(analysisNode: Node)
  {
    Path(analysisNode, "overall").Missing? && Path(analysisNode, "pace").Missing?
    && Path(analysisNode, "heartRate").Missing? && Path(analysisNode, "caloriesBurned").Missing?
  }

  /** The consolidated narrative: the sections, trimmed. */
  function Narrative(analysisNode: Node): (r: string)
    ensures IsTrimmed(r)
  {
    Trim(AllSections(analysisNode))
  }

  /** The sections text is empty or starts with the first letter of a label. */
  lemma AllSectionsStart(analysisNode: Node)
    ensures NoSectionPresent(analysisNode) <==> AllSections(analysisNode) == []
    ensures AllSections(analysisNode) != [] ==> AllSections(analysisNode)[0] in {'O', 'P', 'H', 'C'}
  {
  }

  /** The narrative is empty exactly when no narrative key is present. */
  lemma NarrativeEmptyIff(analysisNode: Node)
    ensures Narrative(analysisNode) == [] <==> NoSectionPresent(analysisNode)
  {
    AllSectionsStart(analysisNode);
    if !NoSectionPresent(analysisNode) {
      TrimKeepsFirst(AllSections(analysisNode));
    }
  }

  /** A parsed narrative is never the default narrative: it is empty or
      begins with a label. */
  lemma NarrativeIsNotDefault(analysisNode: Node)
    ensures Narrative(analysisNode) != DefaultNarrative
  {
    AllSectionsStart(analysisNode);
    if !NoSectionPresent(analysisNode) {
      TrimKeepsFirst(AllSections(analysisNode));
      assert DefaultNarrative[0] == 'U';
    }
  }

  /** With only `overall` present and a trimmed value, the narrative is the
      label followed by that value, with no space after the colon and no
      blank line left at the end. */
  lemma OverallOnlyNarrative(analysisNode: Node)
    requires !Path(analysisNode, "overall").Missing?
    requires Path(analysisNode, "pace").Missing? && Path(analysisNode, "heartRate").Missing?
    requires Path(analysisNode, "caloriesBurned").Missing?
    requires IsTrimmed(AsText(Path(analysisNode, "overall")))
    ensures Narrative(analysisNode) == "Overall:" + AsText(Path(analysisNode, "overall"))
  {
    var t := AsText(Path(analysisNode, "overall"));
    var x := "Overall:" + t;
    assert AllSections(analysisNode) == x + "\n\n";
    assert x[0] == 'O';
    assert x[|x| - 1] == if t == [] then ':' else t[|t| - 1];
    TrimDropsTrailingBlanks(x, "\n\n");
  }

  /** An analysis object holding only `overall` with a trimmed string. */
  lemma OverallStringNarrative(t: string)
    requires IsTrimmed(t)
    ensures Narrative(Obj(map["overall" := Str(t)])) == "Overall:" + t
  {
    var analysisNode := Obj(map["overall" := Str(t)]);
    assert Path(analysisNode, "overall") == Str(t);
    assert Path(analysisNode, "pace") == Path(analysisNode, "heartRate") == Missing;
    assert Path(analysisNode, "caloriesBurned") == Missing;
    OverallOnlyNarrative(analysisNode);
  }

  lemma GoodPaceExample()
    ensures Narrative(Obj(map["overall" := Str("Good pace")])) == "Overall:Good pace"
  {
    GoodPaceLabelled("Good pace");
  }

  /** The labelled example, with the value held apart from the literal so
      that the narrative is not evaluated on it character by character. */
  lemma GoodPaceLabelled(t: string)
    requires t == "Good pace"
    ensures Narrative(Obj(map["overall" := Str(t)])) == "Overall:Good pace"
  {
    assert t[0] == 'G' && t[|t| - 1] == 'e';
    OverallStringNarrative(t);
    GoodPaceText(t);
  }

  /** The label and the value joined, kept apart from the narrative so that
      the solver compares the literals on their own. */
  lemma GoodPaceText(t: string)
    requires t == "Good pace"
    ensures "Overall:" + t == "Overall:Good pace"
  {
  }

  /* ---------------- Lists ---------------- */

  /** `String.format("%s: %s", ...)` of two sub-fields of an element, each
      "" when missing. */
  function PairLine(element: Node, firstKey: string, secondKey: string): string
  {
    AsText(Path(element, firstKey)) + ": " + AsText(Path(element, secondKey))
  }

  /** One line per array element, in order; the placeholder alone when the
      node is not an array or is an empty one. */
  function PairLines(node: Node, firstKey: string, secondKey: string, placeholder: string): (r: seq<string>)
    ensures r != []
  {
    if node.Arr? && node.items != [] then
      seq(|node.items|, i requires 0 <= i < |node.items| => PairLine(node.items[i], firstKey, secondKey))
    else
      [placeholder]
  }

  function Improvements(node: Node): seq<string>
  {
    PairLines(node, "area", "recommendation", NoImprovements)
  }

  function Suggestions(node: Node): seq<string>
  {
    PairLines(node, "workout", "description", NoSuggestions)
  }

  /** The text of every element in order; the placeholder alone when the
      node is not an array or is an empty one. */
  function SafetyGuidelines(node: Node): (r: seq<string>)
    ensures r != []
  {
    if node.Arr? && node.items != [] then
      seq(|node.items|, i requires 0 <= i < |node.items| => AsText(node.items[i]))
    else
      [NoSafety]
  }

  /** A rendered pair always holds ": ", so a placeholder without a colon
      stands alone exactly when the node gave no element. */
  lemma PairLinesPlaceholderIff(node: Node, firstKey: string, secondKey: string, placeholder: string)
    requires ':' !in placeholder
    ensures PairLines(node, firstKey, secondKey, placeholder) == [placeholder]
            <==> !(node.Arr? && node.items != [])
  {
    if node.Arr? && node.items != [] {
      var line := PairLine(node.items[0], firstKey, secondKey);
      var k := |AsText(Path(node.items[0], firstKey))|;
      assert line[k] == ':';
      assert ':' in line;
      assert PairLines(node, firstKey, secondKey, placeholder)[0] == line != placeholder;
    }
  }

  lemma ImprovementsPlaceholderIff(node: Node)
    ensures Improvements(node) == [NoImprovements] <==> !(node.Arr? && node.items != [])
  {
    assert ':' !in NoImprovements;
    PairLinesPlaceholderIff(node, "area", "recommendation", NoImprovements);
  }

  lemma SuggestionsPlaceholderIff(node: Node)
    ensures Suggestions(node) == [NoSuggestions] <==> !(node.Arr? && node.items != [])
  {
    assert ':' !in NoSuggestions;
    PairLinesPlaceholderIff(node, "workout", "description", NoSuggestions);
  }

  /** An improvement with only an area renders as the area, colon, space. */
  lemma AreaOnlyImprovement()
    ensures Improvements(Arr([Obj(map["area" := Str("Form")])])) == ["Form: "]
  {
    var element := Obj(map["area" := Str("Form")]);
    assert Path(element, "area") == Str("Form") && Path(element, "recommendation") == Missing;
    assert PairLine(element, "area", "recommendation") == "Form: ";
  }

  /* ---------------- Inner stage ---------------- */

  /** Everything read from the inner document. The safety list comes from
      the key "saftey", spelled as the service spells it. */
  function Analyse(doc: Node): (a: Analysis)
    ensures a.improvements != [] && a.suggestions != [] && a.safety != []
  {
    var analysisNode := Path(doc, "analysis");
    Analysis(Narrative(analysisNode),
             Improvements(Path(doc, "improvements")),
             Suggestions(Path(doc, "suggestions")),
             SafetyGuidelines(Path(doc, "saftey")))
  }

  /** A document without the misspelled key gets the safety placeholder,
      whatever it holds under "safety". */
  lemma SafetyNeedsMisspelledKey(fields: map<string, Node>)
    requires "saftey" !in fields
    ensures Analyse(Obj(fields)).safety == [NoSafety]
  {
  }

  /** A JSON array of strings. */
  function StrArray(xs: seq<string>): (r: Node)
    ensures r.Arr? && |r.items| == |xs|
    ensures forall i :: 0 <= i < |xs| ==> r.items[i] == Str(xs[i])
  {
    Arr(seq(|xs|, i requires 0 <= i < |xs| => Str(xs[i])))
  }

  /** The document shape the prompt asks for: flat keys, string lists. */
  function RequestedShape(summary: string, improvements: seq<string>, suggestions: seq<string>, safety: seq<string>): Node
  {
    Obj(map["recommendation" := Str(summary), "improvements" := StrArray(improvements),
            "suggestions" := StrArray(suggestions), "safety" := StrArray(safety)])
  }

  /** `n` lines of an element with neither key. */
  function EmptyPairs(n: nat): (r: seq<string>)
    ensures |r| == n && forall i :: 0 <= i < n ==> r[i] == ": "
  {
    seq(n, _ => ": ")
  }

  /** Strings have no sub-fields, so each renders as ": ". */
  lemma PairLinesOfStrings(xs: seq<string>, firstKey: string, secondKey: string, placeholder: string)
    requires xs != []
    ensures PairLines(StrArray(xs), firstKey, secondKey, placeholder) == EmptyPairs(|xs|)
  {
    var r := PairLines(StrArray(xs), firstKey, secondKey, placeholder);
    forall i | 0 <= i < |xs|
      ensures r[i] == ": "
    {
      assert Path(Str(xs[i]), firstKey) == Missing && Path(Str(xs[i]), secondKey) == Missing;
    }
  }

  /** What `path` finds in the requested shape. */
  lemma RequestedShapePaths(summary: string, improvements: seq<string>, suggestions: seq<string>, safety: seq<string>)
    ensures var doc := RequestedShape(summary, improvements, suggestions, safety);
      && Path(doc, "analysis") == Missing && Path(doc, "saftey") == Missing
      && Path(doc, "improvements") == StrArray(improvements)
      && Path(doc, "suggestions") == StrArray(suggestions)
  {
  }

  /** A reply in the shape the prompt requests loses its content: no
      narrative, every improvement and suggestion rendered as ": ", and the
      safety placeholder. */
  lemma RequestedShapeIsNotRead(summary: string, improvements: seq<string>, suggestions: seq<string>, safety: seq<string>)
    ensures var a := Analyse(RequestedShape(summary, improvements, suggestions, safety));
      && a.narrative == ""
      && (improvements != [] ==> a.improvements == EmptyPairs(|improvements|))
      && (suggestions != [] ==> a.suggestions == EmptyPairs(|suggestions|))
      && a.safety == [NoSafety]
  {
    var doc := RequestedShape(summary, improvements, suggestions, safety);
    RequestedShapePaths(summary, improvements, suggestions, safety);
    NoAnalysisNoSaftey(doc);
    if improvements != [] {
      PairLinesOfStrings(improvements, "area", "recommendation", NoImprovements);
      assert Analyse(doc).improvements == PairLines(Path(doc, "improvements"), "area", "recommendation", NoImprovements);
    }
    if suggestions != [] {
      PairLinesOfStrings(suggestions, "workout", "description", NoSuggestions);
      assert Analyse(doc).suggestions == PairLines(Path(doc, "suggestions"), "workout", "description", NoSuggestions);
    }
  }

  /** Without "analysis" and "saftey" the narrative is empty and the safety
      list is the placeholder. */
  lemma NoAnalysisNoSaftey(doc: Node)
    requires Path(doc, "analysis") == Missing && Path(doc, "saftey") == Missing
    ensures Analyse(doc).narrative == "" && Analyse(doc).safety == [NoSafety]
  {
    NarrativeOfMissing();
    assert Analyse(doc) == Analysis(Narrative(Missing), Improvements(Path(doc, "improvements")),
                                    Suggestions(Path(doc, "suggestions")), SafetyGuidelines(Missing));
  }

  lemma NarrativeOfMissing()
    ensures Narrative(Missing) == ""
  {
    assert AllSections(Missing) == [];
    TrimOfTrimmed([]);
  }

  /* ---------------- processAiResponse ---------------- */

  /** The two parse stages with the envelope walk and fence stripping
      between them; `parse` is `ObjectMapper.readTree`, `None` when it throws
      or yields null. */
  function ParseAiResponse(reply: string, parse: string -> Option<Node>): (r: ParseOutcome)
    ensures r == UseDefault(OuterParse) <==> parse(reply).None?
    ensures r == UseDefault(EnvelopeShape) <==> parse(reply).Some? && EnvelopeText(parse(reply).value).None?
    ensures r == UseDefault(InnerParse)
            <==> && parse(reply).Some? && EnvelopeText(parse(reply).value).Some?
                 && parse(StripFences(EnvelopeText(parse(reply).value).value)).None?
    ensures r.Parsed? ==> r.analysis == Analyse(parse(StripFences(EnvelopeText(parse(reply).value).value)).value)
  {
    match parse(reply)
    case None => UseDefault(OuterParse)
    case Some(root) =>
      match EnvelopeText(root)
      case None => UseDefault(EnvelopeShape)
      case Some(text) =>
        match parse(StripFences(text))
        case None => UseDefault(InnerParse)
        case Some(doc) => Parsed(Analyse(doc))
  }

  /** The recommendation for an activity and a reply: assembled from the
      analysis when both stages parse, the default otherwise. */
  function ProcessAiResponse(activity: Activity, reply: string, parse: string -> Option<Node>, now: Timestamp): (r: Recommendation)
    ensures IsComplete(r) && IsFor(r, activity) && r.createdAt == now
  {
    match ParseAiResponse(reply, parse)
    case UseDefault(_) => DefaultRecommendation(activity, now)
    case Parsed(a) =>
      Recommendation(activity.id, activity.userId, activity.activityType, a.narrative,
                     a.improvements, a.suggestions, a.safety, now)
  }

  /** The result is the default exactly when the outer parse fails, the
      envelope has no first part, or the inner parse fails. */
  lemma DefaultExactlyOnFailure(activity: Activity, reply: string, parse: string -> Option<Node>, now: Timestamp)
    ensures ProcessAiResponse(activity, reply, parse, now) == DefaultRecommendation(activity, now)
            <==> (parse(reply).None?
                  || !HasFirstPart(parse(reply).value)
                  || parse(StripFences(AsText(Path(FirstPart(parse(reply).value), "text")))).None?)
  {
    match ParseAiResponse(reply, parse)
    case UseDefault(_) =>
    case Parsed(a) =>
      var doc := parse(StripFences(EnvelopeText(parse(reply).value).value)).value;
      NarrativeIsNotDefault(Path(doc, "analysis"));
  }

  /** A reply whose envelope, whatever else it holds, carries a fenced inner
      document as its first text part yields that document's analysis. */
  lemma FencedReplyIsAnalysed(activity: Activity, reply: string, parse: string -> Option<Node>, now: Timestamp,
                               docText: string, w: string, doc: Node)
    requires IsTrimmed(docText) && AllTrimmable(w)
    requires !Contains(docText + FenceClose, JsonFenceOpen) && !Contains(docText, FenceClose)
    requires parse(reply).Some? && EnvelopeText(parse(reply).value) == Some(Fenced(docText) + w)
    requires parse(docText) == Some(doc)
    ensures var r := ProcessAiResponse(activity, reply, parse, now);
      && r.recommendation == Narrative(Path(doc, "analysis"))
      && r.improvements == Improvements(Path(doc, "improvements"))
      && r.suggestions == Suggestions(Path(doc, "suggestions"))
      && r.safety == SafetyGuidelines(Path(doc, "saftey"))
  {
    StripFencesUndoesFence(docText, w);
  }

  /* ---------------- Prompt ---------------- */

  const PromptIntro := "Act as a professional fitness coach. Analyze the following activity:\n"
  const PromptInstructions := "\nBased on this data, provide a detailed analysis including:\n1. A general recommendation/summary.\n2. Specific areas for improvement.\n3. Suggestions for future workouts.\n4. Safety advice relevant to this activity.\n\nOutput the result strictly in the following JSON format:\n{\n  \"recommendation\": \"String\",\n  \"improvements\": [\"String\", \"String\"],\n  \"suggestions\": [\"String\", \"String\"],\n  \"safety\": [\"String\", \"String\"]\n}\n"

  function TypeLine(activity: Activity): string
  {
    "Activity Type: " + activity.activityType + "\n"
  }

  function DurationLine(activity: Activity): string
  {
    "Duration: " + FormatInt(activity.duration) + " minutes\n"
  }

  function CaloriesLine(activity: Activity): string
  {
    "Calories Burned: " + FormatInt(activity.caloriesBurned) + "\n"
  }

  function MetricsLine(activity: Activity): string
  {
    "Additional Metrics: " + RenderMap(activity.additionalMetrics) + "\n"
  }

  /** `p` is exactly the six parts laid out one after another: each stands
      at the sum of the lengths of the parts before it, and nothing follows
      the last. */
  predicate LaidOut(p: string, a: string, t: string, d: string, c: string, m: string, e: string)
  {
    && OccursAt(p, a, 0)
    && OccursAt(p, t, |a|)
    && OccursAt(p, d, |a| + |t|)
    && OccursAt(p, c, |a| + |t| + |d|)
    && OccursAt(p, m, |a| + |t| + |d| + |c|)
    && OccursAt(p, e, |a| + |t| + |d| + |c| + |m|)
    && |p| == |a| + |t| + |d| + |c| + |m| + |e|
  }

  lemma SixPartsAt(a: string, t: string, d: string, c: string, m: string, e: string)
    ensures LaidOut(a + (t + (d + (c + (m + e)))), a, t, d, c, m, e)
  {
  }

  /** The prompt: the fixed template with the activity's type, duration,
      calories and metrics substituted. It is the fixed introduction, then
      each substituted line in template order, then the instructions. */
  function PromptForActivity(activity: Activity): (r: string)
    ensures LaidOut(r, PromptIntro, TypeLine(activity), DurationLine(activity), CaloriesLine(activity),
                    MetricsLine(activity), PromptInstructions)
  {
    SixPartsAt(PromptIntro, TypeLine(activity), DurationLine(activity), CaloriesLine(activity),
               MetricsLine(activity), PromptInstructions);
    PromptIntro + (TypeLine(activity) + (DurationLine(activity) + (CaloriesLine(activity)
    + (MetricsLine(activity) + PromptInstructions))))
  }

  /* ---------------- generateRecommendation ---------------- */

  /** The whole step for one activity: the prompt goes to `answer` (the
      gateway), and its reply is processed. */
  function GenerateRecommendation(activity: Activity, answer: string -> string, parse: string -> Option<Node>, now: Timestamp): (r: Recommendation)
    ensures IsComplete(r) && IsFor(r, activity) && r.createdAt == now
  {
    ProcessAiResponse(activity, answer(PromptForActivity(activity)), parse, now)
  }

  /* ---------------- The in-place builders ---------------- */

  /** The `StringBuilder` the narrative is appended to. */
  class TextBuilder {
    var text: string

    constructor ()
      ensures text == ""
    {
      text := "";
    }

    method Append(s: string)
      modifies this
      ensures text == old(text) + s
    {
      text := text + s;
    }
  }

  /** Appends the labelled section for `key` when it is present. */
  method AddAnalysisSection(builder: TextBuilder, analysisNode: Node, key: string, prefix: string)
    modifies builder
    ensures builder.text == old(builder.text) + Section(analysisNode, key, prefix)
  {
    var value := Path(analysisNode, key);
    if !value.Missing? {
      builder.Append(prefix);
      builder.Append(AsText(value));
      builder.Append("\n\n");
    }
  }

  /** Builds the four sections into one builder and trims the result. */
  method BuildNarrative(analysisNode: Node) returns (narrative: string)
    ensures narrative == Narrative(analysisNode)
  {
    var builder := new TextBuilder();
    AddAnalysisSection(builder, analysisNode, "overall", "Overall:");
    assert builder.text == Section(analysisNode, "overall", "Overall:");
    AddAnalysisSection(builder, analysisNode, "pace", "Pace:");
    AddAnalysisSection(builder, analysisNode, "heartRate", "Heart Rate:");
    AddAnalysisSection(builder, analysisNode, "caloriesBurned", "Calories:");
    assert builder.text == AllSections(analysisNode);
    narrative := Trim(builder.text);
  }

  /** Fills a list with one rendered pair per array element, then falls
      back to the placeholder if the list stayed empty. */
  method ExtractPairLines(node: Node, firstKey: string, secondKey: string, placeholder: string) returns (lines: seq<string>)
    ensures lines == PairLines(node, firstKey, secondKey, placeholder)
  {
    var collected: seq<string> := [];
    if node.Arr? {
      var i := 0;
      while i < |node.items|
        invariant 0 <= i <= |node.items|
        invariant |collected| == i
        invariant forall j :: 0 <= j < i ==> collected[j] == PairLine(node.items[j], firstKey, secondKey)
      {
        collected := collected + [PairLine(node.items[i], firstKey, secondKey)];
        i := i + 1;
      }
    }
    lines := if collected == [] then [placeholder] else collected;
  }

  method ExtractImprovements(node: Node) returns (improvements: seq<string>)
    ensures improvements == Improvements(node)
  {
    improvements := ExtractPairLines(node, "area", "recommendation", NoImprovements);
  }

  method ExtractSuggestions(node: Node) returns (suggestions: seq<string>)
    ensures suggestions == Suggestions(node)
  {
    suggestions := ExtractPairLines(node, "workout", "description", NoSuggestions);
  }

  method ExtractSafetyGuidelines(node: Node) returns (safety: seq<string>)
    ensures safety == SafetyGuidelines(node)
  {
    var collected: seq<string> := [];
    if node.Arr? {
      var i := 0;
      while i < |node.items|
        invariant 0 <= i <= |node.items|
        invariant |collected| == i
        invariant forall j :: 0 <= j < i ==> collected[j] == AsText(node.items[j])
      {
        collected := collected + [AsText(node.items[i])];
        i := i + 1;
      }
    }
    safety := if collected == [] then [NoSafety] else collected;
  }
}
