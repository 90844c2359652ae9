/** The travel-planning agent: four graph nodes that write into one shared
    state (analyse the query, search the web, draft the plans, compose the
    answer), the routing between them, and the runner that strips the query,
    runs the graph and projects the final state. The language model and the
    search service are parameters: what each returns is left open, and the
    model states what the agent does with it. */
module TravelAgent {
  import opened Wrappers
  import opened Text

  // ==================== State ====================

  /** `extracted_preferences`; a missing key is `None`. */
  datatype Prefs = Prefs(destination: Option<string>, duration: Option<string>,
                         budget: Option<string>, interests: Option<seq<string>>)

  /** The empty preferences dict `{}`. */
  const NoPrefs := Prefs(None, None, None, None)

  /** One search result; a missing key is `None`. */
  datatype Hit = Hit(title: Option<string>, url: Option<string>, content: Option<string>, snippet: Option<string>)

  /** One entry of `travel_plans`. */
  datatype Plan = Plan(content: string, kind: string)

  const PlanKind := "comprehensive_plans"

  /** The keys of `TravelState` the nodes read or write; a key not yet
      written is `None`. */
  datatype State = State(query: string, preferences: Option<Prefs>, needsClarification: Option<bool>,
                         questions: Option<seq<string>>, searchResults: Option<seq<Hit>>,
                         plans: Option<seq<Plan>>, answer: Option<string>)

  /** The state the runner starts the graph with: only the query is set. */
  function Initial(query: string): State {
    State(query, None, None, None, None, None, None)
  }

  /** The shared state dict that the nodes update in place. */
  class TravelState {
    var query: string
    var preferences: Option<Prefs>
    var needsClarification: Option<bool>
    var questions: Option<seq<string>>
    var searchResults: Option<seq<Hit>>
    var plans: Option<seq<Plan>>
    var answer: Option<string>

    constructor (query: string)
      ensures View() == Initial(query)
    {
      this.query := query;
      preferences := None;
      needsClarification := None;
      questions := None;
      searchResults := None;
      plans := None;
      answer := None;
    }

    function View(): State
      reads this
    {
      State(query, preferences, needsClarification, questions, searchResults, plans, answer)
    }
  }

  // ==================== External services ====================

  /** The analysis JSON once decoded; a missing key is `None`. */
  datatype Analysis = Analysis(hasDestination: Option<bool>, needsClarification: Option<bool>,
                               questions: Option<seq<string>>, preferences: Option<Prefs>)

  /** The outcome of looking for a `{...}` span in the model's reply and
      decoding it: no span, a span that is not valid JSON, or the object. */
  datatype Reply = NoJson | BadJson | Parsed(analysis: Analysis)

  /** The language model, as a function of what each prompt is built from:
      the query for the analysis, the preferences and search results for the
      plans, the query and search results for the fallback answer. */
  datatype Llm = Llm(analyze: string -> Reply,
                     plan: (Prefs, seq<Hit>) -> string,
                     answer: (string, seq<Hit>) -> string)

  /** One call of the search service. */
  datatype SearchRequest = SearchRequest(query: string, depth: string, includeAnswer: bool, maxResults: nat)

  /** A call that raised. */
  datatype SearchError = SearchError(message: string)

  /** The service's reply: the `results` list (`None` when the key is
      missing), or the exception. */
  type SearchReply = Result<Option<seq<Hit>>, SearchError>

  /** The search client; it records every call it receives. */
  class SearchClient {
    var requests: seq<SearchRequest>
    const respond: SearchRequest -> SearchReply

    constructor (respond: SearchRequest -> SearchReply)
      ensures requests == [] && this.respond == respond
    {
      requests := [];
      this.respond := respond;
    }

    method Search(req: SearchRequest) returns (r: SearchReply)
      modifies this
      ensures requests == old(requests) + [req]
      ensures r == respond(req)
    {
      requests := requests + [req];
      r := respond(req);
    }
  }

  // ==================== Node: analyze ====================

  /** Python's `s[:n]`. */
  function Take<T>(s: seq<T>, n: nat): (r: seq<T>)
    ensures |r| <= n && |r| <= |s| && r == s[..|r|]
    ensures |s| <= n ==> r == s
  {
    if |s| <= n then s else s[..n]
  }

  /** The preferences assumed when the analysis cannot be used. */
  function FallbackPrefs(destination: string): Prefs {
    Prefs(Some(destination), Some("flexible"), Some("flexible"), Some([]))
  }

  /** `_analyze_user_query` after the model has replied. A decoded analysis
      asks for clarification only when the model suggests it and reports no
      destination, and keeps at most two of its questions. Otherwise no
      clarification is asked and the questions are not touched; without any
      JSON the raw query becomes the destination, with undecodable JSON the
      destination is "general". */
  function AnalyzeNode(v: State, reply: Reply): (w: State)
    ensures w.needsClarification.Some?
    ensures w.needsClarification == Some(true) <==>
              reply.Parsed? && reply.analysis.needsClarification == Some(true)
              && reply.analysis.hasDestination != Some(true)
    ensures reply.Parsed? ==> var given := reply.analysis.questions.GetOr([]);
              && w.questions.Some? && |w.questions.value| == (if |given| < 2 then |given| else 2)
              && w.questions.value == given[..|w.questions.value|]
              && w.preferences == Some(reply.analysis.preferences.GetOr(NoPrefs))
    ensures !reply.Parsed? ==> w.questions == v.questions
    ensures reply == NoJson ==> w.preferences == Some(FallbackPrefs(v.query))
    ensures reply == BadJson ==> w.preferences == Some(FallbackPrefs("general"))
    ensures w.query == v.query && w.searchResults == v.searchResults && w.plans == v.plans && w.answer == v.answer
  {
    match reply
    case Parsed(a) =>
      v.(needsClarification := Some(a.needsClarification.GetOr(false) && !a.hasDestination.GetOr(false)),
         questions := Some(Take(a.questions.GetOr([]), 2)),
         preferences := Some(a.preferences.GetOr(NoPrefs)))
    case BadJson =>
      v.(needsClarification := Some(false), preferences := Some(FallbackPrefs("general")))
    case NoJson =>
      v.(needsClarification := Some(false), preferences := Some(FallbackPrefs(v.query)))
  }

  /** `_analyze_user_query`. */
  method AnalyzeUserQuery(s: TravelState, llm: Llm)
    modifies s
    ensures s.View() == AnalyzeNode(old(s.View()), llm.analyze(old(s.query)))
  {
    var reply := llm.analyze(s.query);
    match reply {
      case Parsed(a) =>
        var hasDestination := a.hasDestination.GetOr(false);
        s.needsClarification := Some(a.needsClarification.GetOr(false) && !hasDestination);
        s.questions := Some(Take(a.questions.GetOr([]), 2));
        s.preferences := Some(a.preferences.GetOr(NoPrefs));
      case BadJson =>
        s.needsClarification := Some(false);
        s.preferences := Some(FallbackPrefs("general"));
      case NoJson =>
        s.needsClarification := Some(false);
        s.preferences := Some(FallbackPrefs(s.query));
    }
  }

  // ==================== Node: web_search ====================

  /** The four search phrases built from the destination. */
  function SearchPhrases(destination: string): seq<string> {
    [destination + " best attractions places to visit 2025",
     destination + " hotels accommodation recommendations",
     destination + " local food restaurants must try",
     destination + " travel tips transportation guide"]
  }

  /** How many of the phrases are sent. */
  const QueryCap := 2

  function Request(query: string): SearchRequest {
    SearchRequest(query, "advanced", true, 4)
  }

  /** The calls `_deep_web_search` makes: the first two phrases only, each
      an advanced search for at most four results. */
  function SearchRequests(destination: string): (rs: seq<SearchRequest>)
    ensures |rs| == QueryCap < |SearchPhrases(destination)|
    ensures forall i :: 0 <= i < |rs| ==>
              && rs[i].query == SearchPhrases(destination)[i]
              && rs[i].depth == "advanced" && rs[i].includeAnswer && rs[i].maxResults == 4
  {
    var phrases := SearchPhrases(destination);
    [Request(phrases[0]), Request(phrases[1])]
  }

  /** The destination the search uses: `""` when missing. */
  function Destination(v: State): string {
    v.preferences.GetOr(NoPrefs).destination.GetOr("")
  }

  /** What one call contributes: its results, nothing when they are
      missing, nothing when the call raised. */
  function Returned(r: SearchReply): seq<Hit> {
    if r.Ok? then r.value.GetOr([]) else []
  }

  /** The results of the calls, concatenated in call order. */
  function Collected(rs: seq<SearchRequest>, respond: SearchRequest -> SearchReply): (hits: seq<Hit>)
    ensures hits == [] <==> forall i :: 0 <= i < |rs| ==> Returned(respond(rs[i])) == []
    decreases |rs|
  {
    if rs == [] then []
    else
      var rest := Collected(rs[1..], respond);
      assert forall i :: 1 <= i < |rs| ==> rs[i] == rs[1..][i - 1];
      Returned(respond(rs[0])) + rest
  }

  /** One more call appends its contribution at the end. */
  lemma {:induction false} CollectedSnoc(rs: seq<SearchRequest>, r: SearchRequest,
                                         respond: SearchRequest -> SearchReply)
    ensures Collected(rs + [r], respond) == Collected(rs, respond) + Returned(respond(r))
    decreases |rs|
  {
    if rs == [] {
      assert [r][1..] == [];
    } else {
      assert (rs + [r])[1..] == rs[1..] + [r];
      CollectedSnoc(rs[1..], r, respond);
    }
  }

  /** A call that raised contributes nothing, wherever it stands. */
  lemma {:induction false} CollectedSkipsFailure(before: seq<SearchRequest>, r: SearchRequest,
                                                 after: seq<SearchRequest>, respond: SearchRequest -> SearchReply)
    requires respond(r).Err?
    ensures Collected(before + [r] + after, respond) == Collected(before + after, respond)
    decreases |before|
  {
    if before == [] {
      assert before + [r] + after == [r] + after;
      assert ([r] + after)[1..] == after;
      assert before + after == after;
    } else {
      assert (before + [r] + after)[1..] == before[1..] + [r] + after;
      assert (before + after)[1..] == before[1..] + after;
      CollectedSkipsFailure(before[1..], r, after, respond);
    }
  }

  /** `_deep_web_search` after its calls. */
  function SearchNode(v: State, respond: SearchRequest -> SearchReply): State {
    v.(searchResults := Some(Collected(SearchRequests(Destination(v)), respond)))
  }

  /** `_deep_web_search`: the capped loop over the phrases; a call that
      raises is skipped and the others' results are appended in order. */
  method DeepWebSearch(s: TravelState, client: SearchClient)
    modifies s, client
    ensures s.View() == SearchNode(old(s.View()), client.respond)
    ensures client.requests == old(client.requests) + SearchRequests(Destination(old(s.View())))
  {
    var destination := s.preferences.GetOr(NoPrefs).destination.GetOr("");
    var phrases := SearchPhrases(destination);
    ghost var sent := SearchRequests(destination);
    var all: seq<Hit> := [];
    for i := 0 to QueryCap
      modifies client
      invariant client.requests == old(client.requests) + sent[..i]
      invariant all == Collected(sent[..i], client.respond)
    {
      var results := client.Search(Request(phrases[i]));
      assert sent[..i + 1] == sent[..i] + [sent[i]];
      CollectedSnoc(sent[..i], sent[i], client.respond);
      if results.Ok? {
        all := all + results.value.GetOr([]);
      }
    }
    assert sent[..QueryCap] == sent;
    s.searchResults := Some(all);
  }

  // ==================== Node: create_plans ====================

  /** `_create_travel_plans`: a single plan holding the model's text. */
  function PlanNode(v: State, llm: Llm): (w: State)
    ensures w.plans.Some? && |w.plans.value| == 1 && w.plans.value[0].kind == PlanKind
    ensures w.plans.value[0].content == llm.plan(v.preferences.GetOr(NoPrefs), v.searchResults.GetOr([]))
    ensures w == v.(plans := w.plans)
  {
    v.(plans := Some([Plan(llm.plan(v.preferences.GetOr(NoPrefs), v.searchResults.GetOr([])), PlanKind)]))
  }

  /** `_create_travel_plans`. */
  method CreateTravelPlans(s: TravelState, llm: Llm)
    modifies s
    ensures s.View() == PlanNode(old(s.View()), llm)
  {
    var preferences := s.preferences.GetOr(NoPrefs);
    var documents := s.searchResults.GetOr([]);
    var plansText := llm.plan(preferences, documents);
    s.plans := Some([Plan(plansText, PlanKind)]);
  }

  // ==================== Node: synthesize ====================

  /** Python truthiness of an optional string. */
  predicate Truthy(s: Option<string>) {
    s.Some? && s.value != ""
  }

  function NumberedLine(n: nat, q: string): string {
    NatToString(n) + ". " + q + "\n"
  }

  /** The questions numbered from `first`, one line each. */
  function Numbered(qs: seq<string>, first: nat): string
    decreases |qs|
  {
    if qs == [] then "" else Numbered(qs[..|qs| - 1], first) + NumberedLine(first + |qs| - 1, qs[|qs| - 1])
  }

  function ClarificationText(qs: seq<string>, t: Texts): string {
    t.clarifyHeader + Numbered(qs, 1) + t.clarifyTip
  }

  /** The clarification answer for one or two questions, line by line. */
  lemma NumberedLines(q1: string, q2: string)
    ensures Numbered([q1], 1) == "1. " + q1 + "\n"
    ensures Numbered([q1, q2], 1) == "1. " + q1 + "\n" + "2. " + q2 + "\n"
  {
    assert NatToString(1) == "1" && NatToString(2) == "2";
    assert [q1, q2][..1] == [q1];
    assert [q1][..0] == [];
  }

  /** The fixed blocks of the composed answers. */
  datatype Texts = Texts(clarifyHeader: string, clarifyTip: string, banner: string,
                         genericHeading: string, guide: string, guideTitle: string)

  /** The blocks as the agent writes them. */
  const SourceTexts := Texts(
    "# \U{1F914} Quick Questions\n\n"
    + "To create the perfect itinerary for you, I need a bit more information:\n\n",
    "\n\U{1F4A1} **Tip:** Include destination, duration, and budget for the best recommendations!",
    "<div style=\"text-align: center; padding: 30px; background: linear-gradient(135deg, #667eea 0%, #764ba2 100%); color: white; border-radius: 12px; margin-bottom: 30px;\">\n\n",
    "# \U{2708}\U{FE0F} Your Perfect Journey Starts Here!\n\n"
    + "### \U{1F30D} Personalized travel plans just for you\n\n",
    "</div>\n\n"
    + "<div style=\"background: #FEF3C7; padding: 15px; border-radius: 8px; border-left: 4px solid #F59E0B; margin: 20px 0;\">\n\n"
    + "**\U{1F4D6} How to use these plans:**\n\n"
    + "1. \U{1F50D} Review all 3 plans to find your perfect match\n"
    + "2. \U{1F4CB} Each plan includes detailed daily itineraries, accommodation, and costs\n"
    + "3. \U{1F4A1} Check insider tips to maximize your experience\n"
    + "4. \U{1F517} Use the resource links for bookings and more information\n\n"
    + "</div>\n\n"
    + "---\n\n"
    + "## \U{1F4D1} Quick Navigation\n\n"
    + "- [\U{1F31F} Plan 1: Budget-Friendly Explorer](#plan-1-budget-friendly-explorer)\n"
    + "- [\U{2696}\U{FE0F} Plan 2: Balanced Adventurer](#plan-2-balanced-adventurer)\n"
    + "- [\U{1F48E} Plan 3: Premium Experience](#plan-3-premium-experience)\n\n"
    + "---\n\n",
    "# \U{2708}\U{FE0F} Travel Guide\n\n")

  /** A preference value worth showing: present, non-empty and not the
      placeholder `skip`. */
  predicate Specific(s: Option<string>, skip: string) {
    s.Some? && s.value != "" && s.value != skip
  }

  /** The heading lines for a known destination. */
  function DestinationHeading(p: Prefs): string
    requires Specific(p.destination, "general")
  {
    var interests := p.interests.GetOr([]);
    "# \U{2708}\U{FE0F} Your " + p.destination.value + " Adventure Awaits!\n\n"
    + (if Specific(p.duration, "flexible") then "### \U{1F3AF} " + p.duration.value + " of unforgettable experiences\n\n" else "")
    + (if Specific(p.budget, "flexible") then "\U{1F4B0} Budget: " + p.budget.value + "\n\n" else "")
    + (if interests != [] then "\U{1F3A8} Focus: " + Join(interests, ", ") + "\n\n" else "")
  }

  /** The styled introduction put before the plans. */
  function Intro(p: Prefs, t: Texts): string {
    t.banner + (if Specific(p.destination, "general") then DestinationHeading(p) else t.genericHeading) + t.guide
  }

  /** Without a usable destination the introduction is the generic one,
      whatever the other preferences say. */
  lemma IntroGeneric(p: Prefs, t: Texts)
    requires !Specific(p.destination, "general")
    ensures Intro(p, t) == Intro(NoPrefs, t) == t.banner + t.genericHeading + t.guide
  {
  }

  /** With a usable destination the introduction names it right after
      the banner. */
  lemma IntroNamesDestination(p: Prefs, t: Texts)
    requires Specific(p.destination, "general")
    ensures var heading := "# \U{2708}\U{FE0F} Your " + p.destination.value + " Adventure Awaits!\n\n";
            Intro(p, t)[|t.banner|..|t.banner| + |heading|] == heading
  {
    var heading := "# \U{2708}\U{FE0F} Your " + p.destination.value + " Adventure Awaits!\n\n";
    var rest := DestinationHeading(p)[|heading|..] + t.guide;
    assert DestinationHeading(p) == heading + DestinationHeading(p)[|heading|..];
    assert Intro(p, t) == t.banner + heading + rest;
  }

  /** A placeholder duration (missing, empty or "flexible") is not shown. */
  lemma IntroSkipsFlexibleDuration(p: Prefs, t: Texts)
    requires !Specific(p.duration, "flexible")
    ensures Intro(p, t) == Intro(p.(duration := None), t)
  {
  }

  function SynthesizeNode(v: State, llm: Llm, t: Texts): State {
    if Truthy(v.answer) then v
    else if v.needsClarification == Some(true) && v.questions.GetOr([]) != [] then
      v.(answer := Some(ClarificationText(v.questions.value, t)))
    else if v.plans.GetOr([]) != [] then
      v.(answer := Some(Intro(v.preferences.GetOr(NoPrefs), t) + v.plans.value[0].content))
    else
      v.(answer := Some(t.guideTitle + llm.answer(v.query, v.searchResults.GetOr([]))))
  }

  /** What `_synthesize_answer` produces. An answer already given is kept.
      Otherwise a needed clarification with questions yields the numbered
      questions; else the first plan follows the introduction; else the
      model's fallback answer follows the guide title. Only `answer`
      changes, and it is always set. */
  lemma SynthesizeSpec(v: State, llm: Llm, t: Texts)
    ensures var w := SynthesizeNode(v, llm, t);
      && (Truthy(v.answer) ==> w == v)
      && w.answer.Some? && w == v.(answer := w.answer)
      && (!Truthy(v.answer) && v.needsClarification == Some(true) && v.questions.GetOr([]) != [] ==>
            w.answer.value == ClarificationText(v.questions.value, t))
      && (!Truthy(v.answer) && !(v.needsClarification == Some(true) && v.questions.GetOr([]) != [])
          && v.plans.GetOr([]) != [] ==>
            var content := v.plans.value[0].content;
            var intro := Intro(v.preferences.GetOr(NoPrefs), t);
            && |w.answer.value| == |intro| + |content|
            && w.answer.value[..|intro|] == intro && w.answer.value[|intro|..] == content)
      && (!Truthy(v.answer) && !(v.needsClarification == Some(true) && v.questions.GetOr([]) != [])
          && v.plans.GetOr([]) == [] ==>
            w.answer.value == t.guideTitle + llm.answer(v.query, v.searchResults.GetOr([])))
  {
  }

  /** When clarifying, the plans and the search results play no part. */
  lemma ClarifyingIgnoresPlans(v: State, plans: Option<seq<Plan>>, results: Option<seq<Hit>>, llm: Llm, t: Texts)
    requires !Truthy(v.answer) && v.needsClarification == Some(true) && v.questions.GetOr([]) != []
    ensures SynthesizeNode(v.(plans := plans, searchResults := results), llm, t).answer == SynthesizeNode(v, llm, t).answer
  {
  }

  /** The numbered lines, built as the source's `enumerate(questions, 1)` loop does. */
  method NumberQuestions(qs: seq<string>) returns (text: string)
    ensures text == Numbered(qs, 1)
  {
    text := "";
    for i := 0 to |qs|
      invariant text == Numbered(qs[..i], 1)
    {
      assert qs[..i + 1][..i] == qs[..i];
      text := text + NumberedLine(i + 1, qs[i]);
    }
    assert qs[..|qs|] == qs;
  }

  /** `_synthesize_answer`. */
  method SynthesizeAnswer(s: TravelState, llm: Llm, t: Texts)
    modifies s
    ensures s.View() == SynthesizeNode(old(s.View()), llm, t)
  {
    if s.answer.Some? && s.answer.value != "" {
      return;
    }
    if s.needsClarification == Some(true) {
      var questions := s.questions.GetOr([]);
      if questions != [] {
        var lines := NumberQuestions(questions);
        s.answer := Some(t.clarifyHeader + lines + t.clarifyTip);
        return;
      }
    }
    var travelPlans := s.plans.GetOr([]);
    if travelPlans != [] {
      var answer := travelPlans[0].content;
      var preferences := s.preferences.GetOr(NoPrefs);
      var intro := t.banner;
      if Specific(preferences.destination, "general") {
        intro := intro + DestinationHeading(preferences);
      } else {
        intro := intro + t.genericHeading;
      }
      intro := intro + t.guide;
      s.answer := Some(intro + answer);
    } else {
      var answer := llm.answer(s.query, s.searchResults.GetOr([]));
      s.answer := Some(t.guideTitle + answer);
    }
  }

  // ==================== Graph ====================

  datatype Node = Analyze | WebSearch | CreatePlans | Synthesize | End

  /** `_should_search`: straight to the answer when clarification is needed. */
  function ShouldSearch(v: State): Node {
    if v.needsClarification == Some(true) then Synthesize else WebSearch
  }

  /** The edges of the compiled graph, entered at `Analyze`; `End` stays put. */
  function Successor(n: Node, v: State): Node {
    match n
    case Analyze => ShouldSearch(v)
    case WebSearch => CreatePlans
    case CreatePlans => Synthesize
    case Synthesize => End
    case End => End
  }

  function Rank(n: Node): nat {
    match n
    case Analyze => 4
    case WebSearch => 3
    case CreatePlans => 2
    case Synthesize => 1
    case End => 0
  }

  /** The routing: `synthesize` is the only node with an edge to the end,
      every edge moves forward, and after the analysis the search is skipped
      exactly when clarification is needed. */
  lemma Routing(n: Node, v: State)
    ensures n != End ==> Rank(Successor(n, v)) < Rank(n)
    ensures Successor(n, v) == End <==> n == Synthesize || n == End
    ensures Successor(Analyze, v) == Synthesize <==> v.needsClarification == Some(true)
    ensures Successor(Analyze, v) != Synthesize ==> Successor(Analyze, v) == WebSearch
  {
  }

  /** What running one node does to the state. */
  function Step(n: Node, v: State, llm: Llm, respond: SearchRequest -> SearchReply, t: Texts): State {
    match n
    case Analyze => AnalyzeNode(v, llm.analyze(v.query))
    case WebSearch => SearchNode(v, respond)
    case CreatePlans => PlanNode(v, llm)
    case Synthesize => SynthesizeNode(v, llm, t)
    case End => v
  }

  /** The search calls one node makes. */
  function StepRequests(n: Node, v: State): seq<SearchRequest> {
    if n == WebSearch then SearchRequests(Destination(v)) else []
  }

  /** The state at the end of the run from node `n`. */
  function Run(n: Node, v: State, llm: Llm, respond: SearchRequest -> SearchReply, t: Texts): State
    decreases Rank(n)
  {
    if n == End then v
    else
      var w := Step(n, v, llm, respond, t);
      Routing(n, w);
      Run(Successor(n, w), w, llm, respond, t)
  }

  /** The nodes the run from `n` passes through. */
  function Visits(n: Node, v: State, llm: Llm, respond: SearchRequest -> SearchReply, t: Texts): seq<Node>
    decreases Rank(n)
  {
    if n == End then []
    else
      var w := Step(n, v, llm, respond, t);
      Routing(n, w);
      [n] + Visits(Successor(n, w), w, llm, respond, t)
  }

  /** The search calls the run from `n` makes. */
  function RunRequests(n: Node, v: State, llm: Llm, respond: SearchRequest -> SearchReply, t: Texts): seq<SearchRequest>
    decreases Rank(n)
  {
    if n == End then []
    else
      var w := Step(n, v, llm, respond, t);
      Routing(n, w);
      StepRequests(n, v) + RunRequests(Successor(n, w), w, llm, respond, t)
  }

  /** Running one node of the compiled graph. */
  method RunNode(n: Node, s: TravelState, llm: Llm, client: SearchClient, t: Texts)
    requires n != End
    modifies s, client
    ensures s.View() == Step(n, old(s.View()), llm, client.respond, t)
    ensures client.requests == old(client.requests) + StepRequests(n, old(s.View()))
  {
    match n {
      case Analyze => AnalyzeUserQuery(s, llm);
      case WebSearch => DeepWebSearch(s, client);
      case CreatePlans => CreateTravelPlans(s, llm);
      case Synthesize => SynthesizeAnswer(s, llm, t);
    }
  }

  /** One node further along a run. */
  lemma RunOneStep(n: Node, v: State, w: State, llm: Llm, respond: SearchRequest -> SearchReply, t: Texts)
    requires n != End && w == Step(n, v, llm, respond, t)
    ensures Run(n, v, llm, respond, t) == Run(Successor(n, w), w, llm, respond, t)
    ensures Visits(n, v, llm, respond, t) == [n] + Visits(Successor(n, w), w, llm, respond, t)
    ensures RunRequests(n, v, llm, respond, t) == StepRequests(n, v) + RunRequests(Successor(n, w), w, llm, respond, t)
  {
  }

  lemma AppendAssoc<T>(a: seq<T>, b: seq<T>, c: seq<T>)
    ensures a + b + c == a + (b + c)
  {
  }

  /** `compiled.invoke`: run the node the edges lead to until the end. */
  method Invoke(s: TravelState, llm: Llm, client: SearchClient, t: Texts) returns (visited: seq<Node>)
    modifies s, client
    ensures s.View() == Run(Analyze, old(s.View()), llm, client.respond, t)
    ensures visited == Visits(Analyze, old(s.View()), llm, client.respond, t)
    ensures client.requests == old(client.requests) + RunRequests(Analyze, old(s.View()), llm, client.respond, t)
  {
    ghost var start := s.View();
    var node := Analyze;
    visited := [];
    while node != End
      invariant Run(node, s.View(), llm, client.respond, t) == Run(Analyze, start, llm, client.respond, t)
      invariant visited + Visits(node, s.View(), llm, client.respond, t) == Visits(Analyze, start, llm, client.respond, t)
      invariant client.requests + RunRequests(node, s.View(), llm, client.respond, t)
                == old(client.requests) + RunRequests(Analyze, start, llm, client.respond, t)
      decreases Rank(node)
    {
      ghost var before := s.View();
      ghost var sent := client.requests;
      RunNode(node, s, llm, client, t);
      RunOneStep(node, before, s.View(), llm, client.respond, t);
      AppendAssoc(visited, [node], Visits(Successor(node, s.View()), s.View(), llm, client.respond, t));
      AppendAssoc(sent, StepRequests(node, before), RunRequests(Successor(node, s.View()), s.View(), llm, client.respond, t));
      Routing(node, s.View());
      visited := visited + [node];
      node := Successor(node, s.View());
    }
  }

  /** The clarification route from a fresh state: analyze, then
      synthesize; nothing is searched and no plans exist. The answer is the
      numbered questions, or, when the analysis gave none, the fallback
      answer written without any search results. */
  lemma ClarifyRoute(q: string, llm: Llm, respond: SearchRequest -> SearchReply, t: Texts)
    requires AnalyzeNode(Initial(q), llm.analyze(q)).needsClarification == Some(true)
    ensures var analyzed := AnalyzeNode(Initial(q), llm.analyze(q));
            var final := Run(Analyze, Initial(q), llm, respond, t);
            && Visits(Analyze, Initial(q), llm, respond, t) == [Analyze, Synthesize]
            && RunRequests(Analyze, Initial(q), llm, respond, t) == []
            && final.searchResults == None && final.plans == None
            && (analyzed.questions.GetOr([]) != [] ==>
                  final.answer == Some(ClarificationText(analyzed.questions.value, t)))
            && (analyzed.questions.GetOr([]) == [] ==>
                  final.answer == Some(t.guideTitle + llm.answer(q, [])))
  {
    var v0 := Initial(q);
    var v1 := AnalyzeNode(v0, llm.analyze(q));
    assert Step(Analyze, v0, llm, respond, t) == v1;
    var v2 := SynthesizeNode(v1, llm, t);
    SynthesizeSpec(v1, llm, t);
    assert Run(Synthesize, v1, llm, respond, t) == v2;
    assert Visits(Synthesize, v1, llm, respond, t) == [Synthesize];
    assert RunRequests(Synthesize, v1, llm, respond, t) == [];
  }

  /** The search route from a fresh state: all four nodes in order,
      exactly the two capped searches, their results kept, one plan, and
      the answer is the introduction followed by that plan. */
  lemma SearchRoute(q: string, llm: Llm, respond: SearchRequest -> SearchReply, t: Texts)
    requires AnalyzeNode(Initial(q), llm.analyze(q)).needsClarification != Some(true)
    ensures var analyzed := AnalyzeNode(Initial(q), llm.analyze(q));
            var final := Run(Analyze, Initial(q), llm, respond, t);
            && Visits(Analyze, Initial(q), llm, respond, t) == [Analyze, WebSearch, CreatePlans, Synthesize]
            && RunRequests(Analyze, Initial(q), llm, respond, t) == SearchRequests(Destination(analyzed))
            && final.searchResults == Some(Collected(SearchRequests(Destination(analyzed)), respond))
            && final.plans.Some? && |final.plans.value| == 1
            && var prefs := analyzed.preferences.GetOr(NoPrefs);
               final.answer == Some(Intro(prefs, t) + llm.plan(prefs, final.searchResults.value))
  {
    var v0 := Initial(q);
    var v1 := AnalyzeNode(v0, llm.analyze(q));
    assert Step(Analyze, v0, llm, respond, t) == v1;
    var v2 := SearchNode(v1, respond);
    var v3 := PlanNode(v2, llm);
    var v4 := SynthesizeNode(v3, llm, t);
    SynthesizeSpec(v3, llm, t);
    assert Run(Synthesize, v3, llm, respond, t) == v4;
    assert Run(CreatePlans, v2, llm, respond, t) == v4;
    assert Run(WebSearch, v1, llm, respond, t) == v4;
    assert Visits(Synthesize, v3, llm, respond, t) == [Synthesize];
    assert Visits(CreatePlans, v2, llm, respond, t) == [CreatePlans, Synthesize];
    assert Visits(WebSearch, v1, llm, respond, t) == [WebSearch, CreatePlans, Synthesize];
    assert RunRequests(Synthesize, v3, llm, respond, t) == [];
    assert RunRequests(CreatePlans, v2, llm, respond, t) == [];
    assert RunRequests(WebSearch, v1, llm, respond, t) == SearchRequests(Destination(v1));
  }

  // ==================== Runner ====================

  /** One entry of `sources`. */
  datatype Source = Source(title: Option<string>, url: Option<string>)

  /** The runner's result dict. */
  datatype Output = Output(answer: string, sources: seq<Source>)

  datatype TravelError = EmptyQuery

  /** `sources`: each search result reduced to its title and url, same
      length and order. */
  function Sources(hits: seq<Hit>): (r: seq<Source>)
    ensures |r| == |hits|
    ensures forall i :: 0 <= i < |hits| ==> r[i].title == hits[i].title && r[i].url == hits[i].url
  {
    seq(|hits|, i requires 0 <= i < |hits| => Source(hits[i].title, hits[i].url))
  }

  /** The projection is taken piecewise, so the sources of concatenated
      results are the concatenated sources. */
  lemma SourcesAppend(a: seq<Hit>, b: seq<Hit>)
    ensures Sources(a + b) == Sources(a) + Sources(b)
  {
    assert forall i :: 0 <= i < |b| ==> (a + b)[|a| + i] == b[i];
  }

  /** The final state's projection; a missing answer or result list is
      empty. */
  function Project(v: State): (out: Output)
    ensures out.answer == v.answer.GetOr("")
    ensures out.sources == Sources(v.searchResults.GetOr([]))
  {
    Output(v.answer.GetOr(""), Sources(v.searchResults.GetOr([])))
  }

  /** `run_travel_agent`: a query that is empty once stripped is refused
      before any search; otherwise the graph runs on the stripped query and
      its final state is projected. */
  method RunTravelAgent(query: string, llm: Llm, client: SearchClient) returns (r: Result<Output, TravelError>)
    modifies client
    ensures r.Err? <==> Strip(query) == []
    ensures r.Err? ==> r.error == EmptyQuery && client.requests == old(client.requests)
    ensures r.Ok? ==> r.value == Project(Run(Analyze, Initial(Strip(query)), llm, client.respond, SourceTexts))
                      && client.requests == old(client.requests)
                                            + RunRequests(Analyze, Initial(Strip(query)), llm, client.respond, SourceTexts)
  {
    var normalized := Strip(query);
    if normalized == [] {
      return Err(EmptyQuery);
    }
    var state := new TravelState(normalized);
    var _ := Invoke(state, llm, client, SourceTexts);
    r := Ok(Project(state.View()));
  }
}
