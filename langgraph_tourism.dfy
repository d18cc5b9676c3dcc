/** The graph orchestrator behind `process_query`: the shared state, the five
    steps (analyze, planning, weather, places, synthesize) as functions from
    state to state over the results of the external services, the routing
    after analysis, and the fixed edges between the steps. */
module LangGraphTourism {
  import opened Wrappers
  import opened Text
  import opened Json
  import opened Chat
  import opened QueryAnalysis

  /** The state that flows through the graph. Values copied out of a decoded
      model reply keep their JSON form, `JNull` standing for Python's `None`,
      and are tested by truthiness where the code tests them. */
  datatype TourismState = TourismState(
    query: string,
    conversationHistory: seq<Message>,
    location: Json,
    needsWeather: Json,
    needsPlaces: Json,
    queryType: Json,
    isComplexQuery: bool,
    executionPlan: Json,
    weatherInfo: Option<string>,
    placesInfo: Option<seq<Json>>,
    travelTips: Json,
    finalResponse: Option<string>,
    error: Option<string>)

  datatype Coordinates = Coordinates(lat: real, lon: real)

  datatype WeatherReading = WeatherReading(temperature: real, precipitationProbability: Option<real>)

  /** What each prompt is built from; the wording around it is not modelled. */
  datatype Prompt =
    | AnalysisPrompt(historyContext: string, query: string)
    | PlanningPrompt(query: string)
    | ItineraryPrompt(query: string, location: Json, weatherInfo: Option<string>, places: seq<Json>,
                      steps: seq<Json>, travelTips: Json)
    | PlacesPrompt(context: string)
    | WeatherPrompt(context: string)
    | GeneralPrompt(context: string)

  /** The outside world, as fixed functions: the completion client called with
      one user message (its reply is `None` when the provider gives no message
      content), `json.loads`, the geocoder, the current-weather and
      attraction lookups, the formatting of the weather sentence, and `str()`
      of a JSON value that is not a string. */
  datatype Services = Services(
    complete: (Prompt, real) -> Call<Option<string>>,
    decode: string -> Option<Json>,
    geocode: Json -> Call<Option<Coordinates>>,
    currentWeather: Coordinates -> Call<Option<WeatherReading>>,
    weatherSentence: (Json, real, real) -> string,
    attractions: Coordinates -> Call<Json>,
    show: Json -> string)

  const AnalysisTemperature: real := 0.3
  const PlanningTemperature: real := 0.4
  const ItineraryTemperature: real := 0.5
  const PlacesTemperature: real := 0.3
  const ConversationTemperature: real := 0.8

  const DefaultPlan: seq<Json> :=
    [JStr("Check weather"), JStr("Find top attractions"), JStr("Provide recommendations")]

  const LocationNotFound: string := "Location not found"
  const WeatherUnavailable: string := "Weather data not available"
  const WeatherFailure: string := "Could not fetch weather: "
  const ErrorApology: string := "I apologize, but I encountered an error generating your response."
  const EmptyApology: string := "I apologize, but I couldn't generate a response. Please try again."
  const NoResponse: string := "I couldn't process your request."

  /** `str(v)` in an f-string. */
  function Str(svc: Services, v: Json): string {
    if v.JStr? then v.s else svc.show(v)
  }

  /** A decoded reply that is a dict; any other outcome makes `.get` raise. */
  function DecodedObject(decoded: Option<Json>): Option<seq<(string, Json)>> {
    match decoded
    case Some(JObj(members)) => Some(members)
    case _ => None
  }

  // ---------------------------------------------------------------------
  // Analyze.
  // ---------------------------------------------------------------------

  /** The analysis reply after fence stripping: decoded whole, or else the
      first `{...}` block is decoded; `None` when neither gives a value. */
  function DecodeAnalysis(svc: Services, reply: string): Option<Json> {
    var cleaned := StripFences(reply);
    match svc.decode(PyStrip(cleaned))
    case Some(v) => Some(v)
    case None =>
      match FirstBraceBlock(cleaned, 0)
      case None => None
      case Some(block) => svc.decode(block)
  }

  /** The state after a successful analysis whose decoded reply has `members`. */
  function AnalysisResult(s: TourismState, members: seq<(string, Json)>): TourismState {
    var lower := Lower(s.query);
    var askingForPlaces := MentionsAny(lower, PlacesKeywords);
    var isComplex := MentionsAny(lower, ComplexKeywords);
    var hasDuration := MentionsAny(lower, DurationKeywords);
    var flagged := GetOr(members, "needs_places", JBool(false));
    var needsPlaces := if Truthy(flagged) then flagged else JBool(askingForPlaces);
    var queryType :=
      if isComplex && hasDuration then JStr("multi_step_itinerary")
      else if Truthy(needsPlaces) && !isComplex then JStr("detailed_places")
      else GetOr(members, "query_type", JStr("simple"));
    s.(location := GetOr(members, "location", JNull),
       needsWeather := GetOr(members, "needs_weather", JBool(false)),
       needsPlaces := needsPlaces,
       queryType := queryType,
       isComplexQuery := isComplex,
       executionPlan := JNull,
       travelTips := JNull)
  }

  /** The state after a failed analysis. */
  function AnalysisFallback(s: TourismState): TourismState {
    var location := match FallbackLocation(Words(s.query))
      case None => JNull
      case Some(word) => JStr(word);
    s.(location := location,
       needsWeather := JBool(true),
       needsPlaces := JBool(true),
       queryType := JStr("simple"),
       isComplexQuery := false,
       executionPlan := JNull,
       travelTips := JNull)
  }

  /** `analyze_query_node`. */
  function AnalyzeNode(svc: Services, s: TourismState): TourismState {
    match svc.complete(AnalysisPrompt(HistoryContext(s.conversationHistory), s.query), AnalysisTemperature)
    case Raised(_) => AnalysisFallback(s)
    case Returned(None) => AnalysisFallback(s)  // `None.strip()` raises
    case Returned(Some(reply)) =>
      match DecodedObject(DecodeAnalysis(svc, reply))
      case None => AnalysisFallback(s)
      case Some(members) => AnalysisResult(s, members)
  }

  // ---------------------------------------------------------------------
  // Planning.
  // ---------------------------------------------------------------------

  /** `planning_node`. */
  function PlanningNode(svc: Services, s: TourismState): TourismState {
    if !s.isComplexQuery then s
    else
      var plan := match svc.complete(PlanningPrompt(s.query), PlanningTemperature)
        case Raised(_) => None
        case Returned(None) => None  // `None.strip()` raises
        case Returned(Some(reply)) => DecodedObject(svc.decode(PyStrip(StripFences(reply))));
      match plan
      case None =>
        s.(executionPlan := JArr(DefaultPlan), needsWeather := JBool(true), needsPlaces := JBool(true))
      case Some(members) =>
        s.(executionPlan := GetOr(members, "execution_plan", JArr([])),
           travelTips := GetOr(members, "travel_tips", JNull),
           needsWeather := JBool(true),
           needsPlaces := JBool(true))
  }

  // ---------------------------------------------------------------------
  // Weather and places.
  // ---------------------------------------------------------------------

  /** The guard of both lookup steps. */
  predicate ShouldFetch(location: Json, flag: Json) {
    Truthy(location) && Truthy(flag)
  }

  /** The weather text for `location`; an exception is reported in the text. */
  function WeatherText(svc: Services, location: Json): string {
    match svc.geocode(location)
    case Raised(e) => WeatherFailure + e
    case Returned(None) => LocationNotFound
    case Returned(Some(coords)) =>
      match svc.currentWeather(coords)
      case Raised(e) => WeatherFailure + e
      case Returned(None) => WeatherUnavailable
      case Returned(Some(reading)) =>
        // an absent (or zero) chance of rain is reported as zero
        svc.weatherSentence(location, reading.temperature, reading.precipitationProbability.GetOr(0.0))
  }

  /** `weather_node`. */
  function WeatherNode(svc: Services, s: TourismState): TourismState {
    if !ShouldFetch(s.location, s.needsWeather) then s
    else s.(weatherInfo := Some(WeatherText(svc, s.location)))
  }

  /** The attraction names for `location`; every failure gives none. */
  function PlacesFound(svc: Services, location: Json): seq<Json> {
    match svc.geocode(location)
    case Raised(_) => []
    case Returned(None) => []
    case Returned(Some(coords)) =>
      match svc.attractions(coords)
      case Raised(_) => []
      case Returned(found) => if found.JArr? then found.items else []
  }

  /** `places_node`. */
  function PlacesNode(svc: Services, s: TourismState): TourismState {
    if !ShouldFetch(s.location, s.needsPlaces) then s
    else s.(placesInfo := Some(PlacesFound(svc, s.location)))
  }

  // ---------------------------------------------------------------------
  // Synthesize.
  // ---------------------------------------------------------------------

  /** `s[:n]`. */
  function Truncate(s: string, n: nat): (r: string)
    ensures |r| <= n && |r| <= |s| && r == s[..|r|]
    ensures |s| <= n ==> r == s
  {
    if |s| <= n then s else s[..n]
  }

  function HistoryPart(m: Message): string {
    m.role + ": " + Truncate(m.content, 200)
  }

  function PlaceBullet(svc: Services, place: Json): string {
    "- " + Str(svc, place)
  }

  predicate HasWeather(s: TourismState) {
    s.weatherInfo.Some? && s.weatherInfo.value != ""
  }

  predicate HasPlaces(s: TourismState) {
    s.placesInfo.Some? && |s.placesInfo.value| > 0
  }

  function PlacesOrNone(s: TourismState): seq<Json> {
    if s.placesInfo.Some? then s.placesInfo.value else []
  }

  /** One line per message, in order. */
  function HistoryParts(messages: seq<Message>): (r: seq<string>)
    ensures |r| == |messages|
    ensures forall i :: 0 <= i < |messages| ==> r[i] == HistoryPart(messages[i])
  {
    if |messages| == 0 then []
    else HistoryParts(messages[..|messages| - 1]) + [HistoryPart(messages[|messages| - 1])]
  }

  /** One bullet per place, in order. */
  function PlaceBullets(svc: Services, places: seq<Json>): (r: seq<string>)
    ensures |r| == |places|
    ensures forall i :: 0 <= i < |places| ==> r[i] == PlaceBullet(svc, places[i])
  {
    if |places| == 0 then []
    else PlaceBullets(svc, places[..|places| - 1]) + [PlaceBullet(svc, places[|places| - 1])]
  }

  /** The recent conversation, framed by its heading and a blank part. */
  function HistorySection(history: seq<Message>): seq<string> {
    if |history| > 0 then ["Previous conversation:"] + HistoryParts(LastN(history, 4)) + [""] else []
  }

  function LocationSection(svc: Services, s: TourismState): seq<string> {
    if Truthy(s.location) then ["Location: " + Str(svc, s.location)] else []
  }

  function WeatherSection(s: TourismState): seq<string> {
    if HasWeather(s) then ["Weather: " + s.weatherInfo.value] else []
  }

  function PlacesSection(svc: Services, s: TourismState): seq<string> {
    if HasPlaces(s) then ["Top attractions:\n" + Join(PlaceBullets(svc, s.placesInfo.value), "\n")] else []
  }

  /** The parts of the synthesis context, in order. */
  function ContextParts(svc: Services, s: TourismState): seq<string> {
    HistorySection(s.conversationHistory) + ["Current query: " + s.query]
    + LocationSection(svc, s) + WeatherSection(s) + PlacesSection(svc, s)
  }

  /** The first `append`s of the context: the heading, one part per recent
      message and the blank part, or nothing without a history. */
  method AppendHistory(history: seq<Message>) returns (parts: seq<string>)
    ensures parts == HistorySection(history)
  {
    parts := [];
    if |history| > 0 {
      var recent := LastN(history, 4);
      parts := parts + ["Previous conversation:"];
      var i := 0;
      while i < |recent|
        invariant 0 <= i <= |recent|
        invariant parts == ["Previous conversation:"] + HistoryParts(recent[..i])
      {
        assert recent[..i + 1][..i] == recent[..i];
        parts := parts + [recent[i].role + ": " + Truncate(recent[i].content, 200)];
        i := i + 1;
      }
      assert recent[..i] == recent;
      parts := parts + [""];
    }
  }

  /** The `append` sequence that builds the context parts; the place list is
      a comprehension, `PlaceBullets`. */
  method BuildContextParts(svc: Services, s: TourismState) returns (parts: seq<string>)
    ensures parts == ContextParts(svc, s)
  {
    parts := AppendHistory(s.conversationHistory);
    assert parts == HistorySection(s.conversationHistory);
    parts := parts + ["Current query: " + s.query];
    ghost var built := parts;
    if Truthy(s.location) {
      parts := parts + ["Location: " + Str(svc, s.location)];
    }
    assert parts == built + LocationSection(svc, s);
    built := parts;
    if s.weatherInfo.Some? && s.weatherInfo.value != "" {
      parts := parts + ["Weather: " + s.weatherInfo.value];
    }
    assert parts == built + WeatherSection(s);
    built := parts;
    if s.placesInfo.Some? && |s.placesInfo.value| > 0 {
      parts := parts + ["Top attractions:\n" + Join(PlaceBullets(svc, s.placesInfo.value), "\n")];
    }
    assert parts == built + PlacesSection(svc, s);
  }

  /** The number of messages the history part shows. */
  function Shown(history: seq<Message>): nat {
    if |history| < 4 then |history| else 4
  }

  /** One message of the history part, at its place after the heading. */
  lemma HistorySectionAt(history: seq<Message>, j: int)
    requires |history| - Shown(history) <= j < |history|
    ensures var section := HistorySection(history);
      |section| == Shown(history) + 2 &&
      section[j - (|history| - Shown(history)) + 1] == HistoryPart(history[j])
  {
    var recent := LastN(history, 4);
    var start := |history| - Shown(history);
    assert |recent| == Shown(history) && recent == history[start..];
    var lines := HistoryParts(recent);
    var i := j - start;
    assert lines[i] == HistoryPart(history[j]) by {
      assert recent[i] == history[j];
    }
    assert HistorySection(history) == ["Previous conversation:"] + lines + [""];
    assert (["Previous conversation:"] + lines + [""])[i + 1] == lines[i];
  }

  /** The history part of the context: the last four messages at most, in
      order, each with its content cut to 200 characters, between the heading
      and a blank part; nothing without a history. */
  lemma HistorySectionLayout(history: seq<Message>)
    ensures |history| == 0 ==> HistorySection(history) == []
    ensures |history| > 0 ==>
      var section := HistorySection(history);
      |section| == Shown(history) + 2 && section[0] == "Previous conversation:" && section[|section| - 1] == "" &&
      forall j :: |history| - Shown(history) <= j < |history| ==>
        section[j - (|history| - Shown(history)) + 1] == HistoryPart(history[j])
  {
    if |history| > 0 {
      var lines := HistoryParts(LastN(history, 4));
      assert HistorySection(history) == ["Previous conversation:"] + lines + [""];
      forall j | |history| - Shown(history) <= j < |history|
        ensures HistorySection(history)[j - (|history| - Shown(history)) + 1] == HistoryPart(history[j])
      {
        HistorySectionAt(history, j);
      }
    }
  }

  /** Each history line holds at most 200 characters of the message. */
  lemma HistoryPartTruncates(m: Message)
    ensures var shown := Truncate(m.content, 200);
      HistoryPart(m) == m.role + ": " + shown && |shown| <= 200 && shown == m.content[..|shown|] &&
      (|m.content| <= 200 ==> shown == m.content)
  {
  }

  /** The context text given to the places, weather and general templates. */
  function SynthesisContext(svc: Services, s: TourismState): string {
    Join(ContextParts(svc, s), "\n\n")
  }

  /** The prompt and temperature chosen for the final reply, or `None` when
      building the itinerary prompt raises because the plan cannot be
      iterated. */
  function SynthesisRequest(svc: Services, s: TourismState): Option<(Prompt, real)> {
    var context := SynthesisContext(svc, s);
    if s.queryType == JStr("multi_step_itinerary") && Truthy(s.executionPlan) then
      match Iterate(s.executionPlan)
      case None => None
      case Some(steps) =>
        Some((ItineraryPrompt(s.query, s.location, s.weatherInfo, PlacesOrNone(s), steps, s.travelTips),
              ItineraryTemperature))
    else if s.queryType == JStr("detailed_places") && HasPlaces(s) then Some((PlacesPrompt(context), PlacesTemperature))
    else if s.queryType == JStr("weather_focused") then Some((WeatherPrompt(context), ConversationTemperature))
    else Some((GeneralPrompt(context), ConversationTemperature))
  }

  /** The final reply text made of the completion's answer. */
  function ReplyText(call: Call<Option<string>>): string {
    match call
    case Raised(_) => ErrorApology
    case Returned(None) => EmptyApology
    case Returned(Some(reply)) => if PyStrip(reply) == "" then EmptyApology else PyStrip(reply)
  }

  /** The final reply text. */
  function FinalText(svc: Services, s: TourismState): string {
    match SynthesisRequest(svc, s)
    case None => ErrorApology
    case Some((prompt, temperature)) => ReplyText(svc.complete(prompt, temperature))
  }

  /** `synthesize_node`. */
  function SynthesizeNode(svc: Services, s: TourismState): TourismState {
    s.(finalResponse := Some(FinalText(svc, s)))
  }

  // ---------------------------------------------------------------------
  // The graph.
  // ---------------------------------------------------------------------

  datatype Step = Analyze | Planning | Weather | Places | Synthesize

  datatype Route = ToPlanning | FetchData | ToSynthesize

  predicate ErrorSet(s: TourismState) {
    s.error.Some? && s.error.value != ""
  }

  /** `route_after_analysis`. */
  function RouteAfterAnalysis(s: TourismState): Route {
    if ErrorSet(s) then ToSynthesize
    else if s.isComplexQuery then ToPlanning
    else if Truthy(s.needsWeather) || Truthy(s.needsPlaces) then FetchData
    else ToSynthesize
  }

  /** The edges: the conditional edge out of analyze, then planning to weather,
      weather to places, places to synthesize, and synthesize to the end
      (`None`). */
  function NextStep(step: Step, s: TourismState): Option<Step> {
    match step
    case Analyze =>
      (match RouteAfterAnalysis(s)
       case ToPlanning => Some(Planning)
       case FetchData => Some(Weather)
       case ToSynthesize => Some(Synthesize))
    case Planning => Some(Weather)
    case Weather => Some(Places)
    case Places => Some(Synthesize)
    case Synthesize => None
  }

  /** The node registered under each step name. */
  function RunStep(svc: Services, step: Step, s: TourismState): TourismState {
    match step
    case Analyze => AnalyzeNode(svc, s)
    case Planning => PlanningNode(svc, s)
    case Weather => WeatherNode(svc, s)
    case Places => PlacesNode(svc, s)
    case Synthesize => SynthesizeNode(svc, s)
  }

  /** The compiled graph's nodes, as the engine sees them. */
  function Nodes(svc: Services): (Step, TourismState) -> TourismState {
    (step, s) => RunStep(svc, step, s)
  }

  /** How many steps can still follow: every edge lowers it. */
  function Rank(step: Step): nat {
    match step
    case Analyze => 4
    case Planning => 3
    case Weather => 2
    case Places => 1
    case Synthesize => 0
  }

  /** The graph engine: runs the registered nodes from `step` to the end,
      following the edges; the result is the final state and the steps
      visited, in order. */
  function Execute(nodes: (Step, TourismState) -> TourismState, step: Step, s: TourismState): (TourismState, seq<Step>)
    decreases Rank(step)
  {
    var after := nodes(step, s);
    match NextStep(step, after)
    case None => (after, [step])
    case Some(next) =>
      assert Rank(next) < Rank(step);
      var rest := Execute(nodes, next, after);
      (rest.0, [step] + rest.1)
  }

  /** The state `process_query` starts from. */
  function InitialState(query: string, history: Option<seq<Message>>): TourismState {
    TourismState(query, history.GetOr([]), JNull, JBool(false), JBool(false), JNull, false, JNull,
                 None, None, JNull, None, None)
  }

  datatype QueryResult = QueryResult(
    location: Json,
    weatherInfo: Option<string>,
    placesInfo: seq<Json>,
    finalResponse: string)

  /** `process_query`: the final state with its defaults filled in. */
  function ProcessQuery(svc: Services, query: string, history: Option<seq<Message>>): QueryResult {
    var final := Execute(Nodes(svc), Analyze, InitialState(query, history)).0;
    QueryResult(
      if Truthy(final.location) then final.location else JStr("Unknown"),
      final.weatherInfo,
      if final.placesInfo.Some? && final.placesInfo.value != [] then final.placesInfo.value else [],
      if final.finalResponse.Some? && final.finalResponse.value != "" then final.finalResponse.value else NoResponse)
  }

  // ---------------------------------------------------------------------
  // Properties of the steps.
  // ---------------------------------------------------------------------

  /** After a reply that decodes to a dict: `needs_places` is the model's flag
      when truthy and otherwise whether a places keyword occurs; the query is
      complex exactly when a complex keyword occurs; complex with a duration
      keyword gives the itinerary type, else places wanted and not complex
      gives the places type, else the model's type with `"simple"` as default.
      Plan and tips are cleared and weather, places, the reply and the error
      are untouched. */
  lemma AnalysisRules(s: TourismState, members: seq<(string, Json)>)
    ensures var r := AnalysisResult(s, members);
      var lower := Lower(s.query);
      (Truthy(r.needsPlaces) <==>
        Truthy(GetOr(members, "needs_places", JBool(false))) || MentionsAny(lower, PlacesKeywords)) &&
      (r.isComplexQuery <==> MentionsAny(lower, ComplexKeywords)) &&
      (r.isComplexQuery && MentionsAny(lower, DurationKeywords) ==> r.queryType == JStr("multi_step_itinerary")) &&
      (!r.isComplexQuery && Truthy(r.needsPlaces) ==> r.queryType == JStr("detailed_places")) &&
      (r.isComplexQuery && !MentionsAny(lower, DurationKeywords) ==>
        r.queryType == GetOr(members, "query_type", JStr("simple"))) &&
      (!r.isComplexQuery && !Truthy(r.needsPlaces) ==>
        r.queryType == GetOr(members, "query_type", JStr("simple"))) &&
      r.location == GetOr(members, "location", JNull) &&
      r.needsWeather == GetOr(members, "needs_weather", JBool(false)) &&
      r.executionPlan == JNull && r.travelTips == JNull &&
      r == s.(location := r.location, needsWeather := r.needsWeather, needsPlaces := r.needsPlaces,
              queryType := r.queryType, isComplexQuery := r.isComplexQuery, executionPlan := JNull,
              travelTips := JNull)
  {
  }

  /** When the model's reply decodes to a dict, the analysis step's result is
      the one `AnalysisRules` describes for that dict's members. */
  lemma AnalysisDecoded(svc: Services, s: TourismState)
    requires var call := svc.complete(AnalysisPrompt(HistoryContext(s.conversationHistory), s.query), AnalysisTemperature);
      call.Returned? && call.value.Some? && DecodedObject(DecodeAnalysis(svc, call.value.value)).Some?
    ensures var call := svc.complete(AnalysisPrompt(HistoryContext(s.conversationHistory), s.query), AnalysisTemperature);
      var members := DecodedObject(DecodeAnalysis(svc, call.value.value)).value;
      AnalyzeNode(svc, s) == AnalysisResult(s, members) &&
      (Truthy(AnalyzeNode(svc, s).needsPlaces) <==>
        Truthy(GetOr(members, "needs_places", JBool(false))) || MentionsAny(Lower(s.query), PlacesKeywords)) &&
      (AnalyzeNode(svc, s).isComplexQuery <==> MentionsAny(Lower(s.query), ComplexKeywords))
  {
    var call := svc.complete(AnalysisPrompt(HistoryContext(s.conversationHistory), s.query), AnalysisTemperature);
    AnalysisRules(s, DecodedObject(DecodeAnalysis(svc, call.value.value)).value);
  }

  /** After a failed call, a `None` reply or an undecodable reply: the location is the first
      capitalised word longer than three characters (trailing `?,.` removed),
      or none; both lookups are wanted, the type is `"simple"` and the query is
      not complex. */
  lemma AnalysisFallbackRules(svc: Services, s: TourismState)
    requires var call := svc.complete(AnalysisPrompt(HistoryContext(s.conversationHistory), s.query), AnalysisTemperature);
      call.Raised? || call.value.None? || DecodedObject(DecodeAnalysis(svc, call.value.value)).None?
    ensures var r := AnalyzeNode(svc, s);
      (r.location == JNull <==> forall k :: 0 <= k < |Words(s.query)| ==> !IsLocationWord(Words(s.query)[k])) &&
      (r.location != JNull ==>
        r.location.JStr? && |r.location.s| > 0 && IsUpper(r.location.s[0]) &&
        (exists k :: 0 <= k < |Words(s.query)| && IsLocationWord(Words(s.query)[k]) &&
          (forall j :: 0 <= j < k ==> !IsLocationWord(Words(s.query)[j])) &&
          r.location.s == TrimEnd(Words(s.query)[k], IsTrailingPunctuation))) &&
      r.needsWeather == JBool(true) && r.needsPlaces == JBool(true) &&
      r.queryType == JStr("simple") && !r.isComplexQuery &&
      r.executionPlan == JNull && r.travelTips == JNull &&
      r.query == s.query && r.weatherInfo == s.weatherInfo && r.placesInfo == s.placesInfo &&
      r.finalResponse == s.finalResponse && r.error == s.error
  {
    FallbackLocationSpec(Words(s.query));
  }

  /** A weather question about London that the model tags as weather only is
      still treated as a places query, because `"do"` occurs in "london". */
  lemma LondonCountsAsPlacesQuery(s: TourismState)
    requires s.query == "London"
    ensures var r := AnalysisResult(s, [("needs_places", JBool(false)), ("query_type", JStr("weather_focused"))]);
      r.needsPlaces == JBool(true) && r.queryType == JStr("detailed_places")
  {
    KeywordsMatchInsideWords();
    assert Lower("London") == "london";
    forall k | 0 <= k < |ComplexKeywords|
      ensures !Contains("london", ComplexKeywords[k])
    {
      var w := ComplexKeywords[k];
      forall i | 0 <= i <= |"london"|
        ensures !OccursAt("london", w, i)
      {
        if i + |w| <= |"london"| {
          assert "london"[i..i + |w|][0] == "london"[i];
        }
      }
    }
  }

  /** Planning leaves a simple query alone. For a complex one both lookups
      become wanted; a failed call, a `None` reply or an undecodable reply
      gives the fixed three-step plan and keeps the tips, a decoded dict gives
      its plan (default `[]`) and tips. Nothing else changes. */
  lemma PlanningRules(svc: Services, s: TourismState)
    ensures !s.isComplexQuery ==> PlanningNode(svc, s) == s
    ensures s.isComplexQuery ==>
      var r := PlanningNode(svc, s);
      r.needsWeather == JBool(true) && r.needsPlaces == JBool(true) &&
      r == s.(executionPlan := r.executionPlan, travelTips := r.travelTips,
              needsWeather := JBool(true), needsPlaces := JBool(true)) &&
      var call := svc.complete(PlanningPrompt(s.query), PlanningTemperature);
      var plan := if call.Raised? || call.value.None? then None
                  else DecodedObject(svc.decode(PyStrip(StripFences(call.value.value))));
      (plan.None? ==> r.executionPlan == JArr(DefaultPlan) && r.travelTips == s.travelTips) &&
      (plan.Some? ==> r.executionPlan == GetOr(plan.value, "execution_plan", JArr([])) &&
                      r.travelTips == GetOr(plan.value, "travel_tips", JNull))
  {
  }

  /** The weather step runs only with a location and the weather flag, and
      then sets nothing but the weather text: "Location not found" when the
      geocoder finds nothing, "Weather data not available" without a reading,
      "Could not fetch weather: " and the message on an exception, and the
      weather sentence otherwise. */
  lemma WeatherRules(svc: Services, s: TourismState)
    ensures !ShouldFetch(s.location, s.needsWeather) ==> WeatherNode(svc, s) == s
    ensures ShouldFetch(s.location, s.needsWeather) ==>
      var r := WeatherNode(svc, s);
      r == s.(weatherInfo := r.weatherInfo) && r.weatherInfo.Some? &&
      var geo := svc.geocode(s.location);
      (geo.Raised? ==> r.weatherInfo.value == WeatherFailure + geo.message) &&
      (geo == Returned(None) ==> r.weatherInfo.value == LocationNotFound) &&
      (geo.Returned? && geo.value.Some? ==>
        var reading := svc.currentWeather(geo.value.value);
        (reading.Raised? ==> r.weatherInfo.value == WeatherFailure + reading.message) &&
        (reading == Returned(None) ==> r.weatherInfo.value == WeatherUnavailable) &&
        (reading.Returned? && reading.value.Some? ==>
          r.weatherInfo.value == svc.weatherSentence(s.location, reading.value.value.temperature,
                                                     reading.value.value.precipitationProbability.GetOr(0.0))))
  {
  }

  /** The places step runs only with a location and the places flag, and
      then sets nothing but the place list: empty on any failure or when the
      lookup does not return a list, otherwise the returned list. */
  lemma PlacesRules(svc: Services, s: TourismState)
    ensures !ShouldFetch(s.location, s.needsPlaces) ==> PlacesNode(svc, s) == s
    ensures ShouldFetch(s.location, s.needsPlaces) ==>
      var r := PlacesNode(svc, s);
      r == s.(placesInfo := r.placesInfo) && r.placesInfo.Some? &&
      var geo := svc.geocode(s.location);
      (geo.Raised? || geo == Returned(None) ==> r.placesInfo == Some([])) &&
      (geo.Returned? && geo.value.Some? ==>
        var found := svc.attractions(geo.value.value);
        (found.Raised? || (found.Returned? && !found.value.JArr?) ==> r.placesInfo == Some([])) &&
        (found.Returned? && found.value.JArr? ==> r.placesInfo == Some(found.value.items)))
  {
  }

  /** The template and temperature of the final reply: the itinerary at 0.5
      for the itinerary type with a truthy plan (an exception when the plan
      cannot be iterated), the places template at 0.3 for the places type with
      places found, the weather template at 0.8 for the weather type, and the
      general template at 0.8 otherwise. */
  lemma SynthesisTemplate(svc: Services, s: TourismState)
    ensures var request := SynthesisRequest(svc, s);
      var itinerary := s.queryType == JStr("multi_step_itinerary") && Truthy(s.executionPlan);
      (request.None? <==> itinerary && Iterate(s.executionPlan).None?) &&
      (request.Some? ==>
        (request.value.0.ItineraryPrompt? <==> itinerary) &&
        (request.value.0.ItineraryPrompt? ==>
          request.value.1 == ItineraryTemperature && request.value.0.steps == Iterate(s.executionPlan).value) &&
        (request.value.0.PlacesPrompt? <==> s.queryType == JStr("detailed_places") && HasPlaces(s)) &&
        (request.value.0.PlacesPrompt? ==> request.value.1 == PlacesTemperature) &&
        (request.value.0.WeatherPrompt? <==> s.queryType == JStr("weather_focused")) &&
        (request.value.0.GeneralPrompt? <==>
          !itinerary && !(s.queryType == JStr("detailed_places") && HasPlaces(s)) &&
          s.queryType != JStr("weather_focused")) &&
        (request.value.0.WeatherPrompt? || request.value.0.GeneralPrompt? ==>
          request.value.1 == ConversationTemperature &&
          request.value.0.context == SynthesisContext(svc, s)))
  {
  }

  /** The reply made of a completion's answer is never empty: the stripped
      answer when that has text, the "couldn't generate" apology when it is
      blank or `None`, and the "encountered an error" apology when the call
      raises; a stripped answer is left unchanged by stripping again. */
  lemma ReplyTextRules(call: Call<Option<string>>)
    ensures ReplyText(call) != ""
    ensures call.Raised? ==> ReplyText(call) == ErrorApology
    ensures call == Returned(None) ==> ReplyText(call) == EmptyApology
    ensures call.Returned? && call.value.Some? && PyStrip(call.value.value) == "" ==>
      ReplyText(call) == EmptyApology
    ensures call.Returned? && call.value.Some? && PyStrip(call.value.value) != "" ==>
      ReplyText(call) == PyStrip(call.value.value) && PyStrip(ReplyText(call)) == ReplyText(call)
  {
    if call.Returned? && call.value.Some? {
      TrimTwice(call.value.value, IsPythonSpace);
    }
  }

  /** The final reply is never empty: it is the stripped model reply when that
      has text, the "couldn't generate" apology when it is blank or `None`,
      and the "encountered an error" apology when the call or the prompt
      raises. Nothing but the reply changes. */
  lemma SynthesisResponds(svc: Services, s: TourismState)
    ensures var r := SynthesizeNode(svc, s);
      r == s.(finalResponse := r.finalResponse) && r.finalResponse.Some? && r.finalResponse.value != "" &&
      var request := SynthesisRequest(svc, s);
      (request.None? ==> r.finalResponse.value == ErrorApology) &&
      (request.Some? ==> r.finalResponse.value == ReplyText(svc.complete(request.value.0, request.value.1)))
  {
    var request := SynthesisRequest(svc, s);
    if request.Some? {
      ReplyTextRules(svc.complete(request.value.0, request.value.1));
    }
  }

  // ---------------------------------------------------------------------
  // Properties of the whole run.
  // ---------------------------------------------------------------------

  /** No step sets the error field. */
  lemma StepsKeepError(svc: Services, step: Step, s: TourismState)
    ensures RunStep(svc, step, s).error == s.error
  {
  }

  /** The steps visited after analysis for each route. */
  function Visits(route: Route): seq<Step> {
    match route
    case ToPlanning => [Analyze, Planning, Weather, Places, Synthesize]
    case FetchData => [Analyze, Weather, Places, Synthesize]
    case ToSynthesize => [Analyze, Synthesize]
  }

  /** One edge of the run: the step, then the run from its successor. */
  lemma ExecuteEdge(nodes: (Step, TourismState) -> TourismState, step: Step, next: Step, s: TourismState)
    requires NextStep(step, nodes(step, s)) == Some(next)
    ensures Execute(nodes, step, s) ==
      (Execute(nodes, next, nodes(step, s)).0, [step] + Execute(nodes, next, nodes(step, s)).1)
  {
  }

  /** The run ends after synthesis. */
  lemma ExecuteLast(nodes: (Step, TourismState) -> TourismState, s: TourismState)
    ensures Execute(nodes, Synthesize, s) == (nodes(Synthesize, s), [Synthesize])
  {
  }

  /** The fixed tail from the weather step. */
  lemma ExecuteFromWeather(nodes: (Step, TourismState) -> TourismState, s: TourismState)
    ensures Execute(nodes, Weather, s) ==
      (nodes(Synthesize, nodes(Places, nodes(Weather, s))), [Weather, Places, Synthesize])
  {
    var w := nodes(Weather, s);
    var p := nodes(Places, w);
    ExecuteLast(nodes, p);
    ExecuteEdge(nodes, Places, Synthesize, w);
    ExecuteEdge(nodes, Weather, Places, s);
    assert [Weather] + ([Places] + [Synthesize]) == [Weather, Places, Synthesize];
  }

  /** The step the conditional edge out of analysis leads to. */
  function RouteTarget(route: Route): Step {
    match route
    case ToPlanning => Planning
    case FetchData => Weather
    case ToSynthesize => Synthesize
  }

  /** The state synthesis starts from along `route`, from the analysed state
      `a`. */
  function RouteBeforeSynthesis(nodes: (Step, TourismState) -> TourismState, route: Route, a: TourismState)
    : TourismState
  {
    match route
    case ToPlanning => nodes(Places, nodes(Weather, nodes(Planning, a)))
    case FetchData => nodes(Places, nodes(Weather, a))
    case ToSynthesize => a
  }

  /** The final state reached along `route` from the analysed state `a`. */
  function RouteFinal(nodes: (Step, TourismState) -> TourismState, route: Route, a: TourismState): TourismState {
    nodes(Synthesize, RouteBeforeSynthesis(nodes, route, a))
  }

  /** The run after analysis follows the route to its end. */
  lemma ExecuteRoute(nodes: (Step, TourismState) -> TourismState, route: Route, a: TourismState)
    ensures Execute(nodes, RouteTarget(route), a) == (RouteFinal(nodes, route, a), Visits(route)[1..])
  {
    match route
    case ToPlanning =>
      ExecuteFromWeather(nodes, nodes(Planning, a));
      ExecuteEdge(nodes, Planning, Weather, a);
      assert [Planning] + [Weather, Places, Synthesize] == Visits(route)[1..];
    case FetchData =>
      ExecuteFromWeather(nodes, a);
    case ToSynthesize =>
      ExecuteLast(nodes, a);
  }

  /** The run from analysis visits exactly the steps its route names. */
  lemma ExecuteFromAnalyze(nodes: (Step, TourismState) -> TourismState, s: TourismState)
    ensures var a := nodes(Analyze, s);
      Execute(nodes, Analyze, s) == (RouteFinal(nodes, RouteAfterAnalysis(a), a), Visits(RouteAfterAnalysis(a)))
  {
    var a := nodes(Analyze, s);
    var route := RouteAfterAnalysis(a);
    assert NextStep(Analyze, a) == Some(RouteTarget(route));
    ExecuteRoute(nodes, route, a);
    ExecuteEdge(nodes, Analyze, RouteTarget(route), s);
    assert [Analyze] + Visits(route)[1..] == Visits(route);
  }

  /** The shape of each route's visits: analysis first and only first,
      synthesis last and only last, planning only on the planning route, and
      the two lookups together on every route but the direct one. */
  lemma VisitsShape(route: Route)
    ensures var trace := Visits(route);
      |trace| >= 2 && trace[0] == Analyze && trace[|trace| - 1] == Synthesize &&
      (forall i :: 0 < i < |trace| ==> trace[i] != Analyze) &&
      (forall i :: 0 <= i < |trace| - 1 ==> trace[i] != Synthesize) &&
      (Planning in trace <==> route == ToPlanning) &&
      (Weather in trace <==> route != ToSynthesize) &&
      (Places in trace <==> route != ToSynthesize)
  {
  }

  /** When no error is set (always, since no step sets one), the route is
      planning exactly for a complex query, and direct to synthesis exactly
      when neither lookup is wanted. */
  lemma RouteWithoutError(s: TourismState)
    requires s.error.None?
    ensures RouteAfterAnalysis(s) == ToPlanning <==> s.isComplexQuery
    ensures RouteAfterAnalysis(s) == ToSynthesize <==>
      !s.isComplexQuery && !Truthy(s.needsWeather) && !Truthy(s.needsPlaces)
  {
  }

  /** The shape of a trace after analysis produced `a`: it starts at analysis
      and ends at synthesis, and visits each of the two only there; it visits
      planning exactly when analysis found the query complex, and the two
      lookups together, exactly when the query is complex or analysis wanted
      weather or places. */
  predicate TraceShape(trace: seq<Step>, a: TourismState) {
    |trace| >= 2 && trace[0] == Analyze && trace[|trace| - 1] == Synthesize &&
    (forall i :: 0 < i < |trace| ==> trace[i] != Analyze) &&
    (forall i :: 0 <= i < |trace| - 1 ==> trace[i] != Synthesize) &&
    (Planning in trace <==> a.isComplexQuery) &&
    (Weather in trace <==> Places in trace) &&
    (Weather in trace <==> a.isComplexQuery || Truthy(a.needsWeather) || Truthy(a.needsPlaces))
  }

  /** From an analysed state without an error, the run's trace has the shape
      `TraceShape` describes. */
  lemma RunShape(nodes: (Step, TourismState) -> TourismState, s: TourismState)
    requires nodes(Analyze, s).error.None?
    ensures TraceShape(Execute(nodes, Analyze, s).1, nodes(Analyze, s))
  {
    var a := nodes(Analyze, s);
    ExecuteFromAnalyze(nodes, s);
    VisitsShape(RouteAfterAnalysis(a));
    RouteWithoutError(a);
  }

  /** No node sets the error field. */
  ghost predicate KeepsError(nodes: (Step, TourismState) -> TourismState) {
    forall step, s :: nodes(step, s).error == s.error
  }

  /** The synthesis node always leaves a non-empty reply. */
  ghost predicate AlwaysResponds(nodes: (Step, TourismState) -> TourismState) {
    forall s :: nodes(Synthesize, s).finalResponse.Some? && nodes(Synthesize, s).finalResponse.value != ""
  }

  /** No node of the tourism graph sets the error field. */
  lemma NodesKeepError(svc: Services)
    ensures KeepsError(Nodes(svc))
  {
    forall step, s
      ensures Nodes(svc)(step, s).error == s.error
    {
      StepsKeepError(svc, step, s);
    }
  }

  /** The synthesis node of the tourism graph always leaves a non-empty
      reply. */
  lemma NodesRespond(svc: Services)
    ensures AlwaysResponds(Nodes(svc))
  {
    forall s
      ensures Nodes(svc)(Synthesize, s).finalResponse.Some? && Nodes(svc)(Synthesize, s).finalResponse.value != ""
    {
      SynthesisResponds(svc, s);
    }
  }

  /** A run of nodes that keep the error, from a state without one, ends
      without one; when synthesis always responds, the run ends with a
      non-empty reply. */
  lemma RunReply(nodes: (Step, TourismState) -> TourismState, s: TourismState)
    requires s.error.None? && KeepsError(nodes)
    ensures var final := Execute(nodes, Analyze, s).0;
      final.error == None &&
      (AlwaysResponds(nodes) ==> final.finalResponse.Some? && final.finalResponse.value != "")
  {
    var a := nodes(Analyze, s);
    assert a.error == None;
    ExecuteFromAnalyze(nodes, s);
    var route := RouteAfterAnalysis(a);
    var before := RouteBeforeSynthesis(nodes, route, a);
    assert before.error == None by {
      match route
      case ToPlanning =>
        assert nodes(Planning, a).error == None;
        assert nodes(Weather, nodes(Planning, a)).error == None;
      case FetchData =>
        assert nodes(Weather, a).error == None;
      case ToSynthesize =>
    }
    assert nodes(Synthesize, before).error == None;
  }

  /** Every run of `process_query` has the shape `TraceShape` describes for
      the state analysis produced. */
  lemma ProcessQueryTrace(svc: Services, query: string, history: Option<seq<Message>>)
    ensures var start := InitialState(query, history);
      TraceShape(Execute(Nodes(svc), Analyze, start).1, AnalyzeNode(svc, start))
  {
    var start := InitialState(query, history);
    assert Nodes(svc)(Analyze, start) == AnalyzeNode(svc, start) && AnalyzeNode(svc, start).error == None by {
      StepsKeepError(svc, Analyze, start);
    }
    RunShape(Nodes(svc), start);
  }

  /** The error branch of the routing never fires, and the final reply is
      always set and non-empty, so the "couldn't process" default is never
      used. */
  lemma ProcessQueryReply(svc: Services, query: string, history: Option<seq<Message>>)
    ensures var final := Execute(Nodes(svc), Analyze, InitialState(query, history)).0;
      final.error == None && final.finalResponse.Some? && final.finalResponse.value != "" &&
      ProcessQuery(svc, query, history).finalResponse == final.finalResponse.value
  {
    var start := InitialState(query, history);
    var final := Execute(Nodes(svc), Analyze, start).0;
    assert final.error == None && final.finalResponse.Some? && final.finalResponse.value != "" by {
      NodesKeepError(svc);
      NodesRespond(svc);
      RunReply(Nodes(svc), start);
    }
  }

  /** The output of `process_query`: the location or `"Unknown"`, the weather
      text as found, the place list or `[]`. */
  lemma ProcessQueryDefaults(svc: Services, query: string, history: Option<seq<Message>>)
    ensures var final := Execute(Nodes(svc), Analyze, InitialState(query, history)).0;
      var r := ProcessQuery(svc, query, history);
      (Truthy(final.location) ==> r.location == final.location) &&
      (!Truthy(final.location) ==> r.location == JStr("Unknown")) &&
      Truthy(r.location) &&
      r.weatherInfo == final.weatherInfo &&
      r.placesInfo == (if final.placesInfo.Some? then final.placesInfo.value else [])
  {
  }

  /** The run starts from unset flags and absent values, with the given
      history or none. */
  lemma InitialStateFields(query: string, history: Option<seq<Message>>)
    ensures var s := InitialState(query, history);
      s.query == query && s.conversationHistory == (if history.Some? then history.value else []) &&
      !Truthy(s.location) && !Truthy(s.needsWeather) && !Truthy(s.needsPlaces) && s.queryType == JNull &&
      !s.isComplexQuery && s.executionPlan == JNull && s.weatherInfo.None? && s.placesInfo.None? &&
      s.travelTips == JNull && s.finalResponse.None? && s.error.None?
  {
  }
}
