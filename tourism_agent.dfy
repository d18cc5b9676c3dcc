/** The single-pass tourism agent: analyse the query, stop early when no
    place is named or the place is unknown, look up weather and attractions
    as asked, and phrase the reply, with a fixed text for every failure. The
    model returns, beside the reply, the external calls made, in order. The
    reply is `None` only when the completion asked to phrase it returns
    `None`, which the agent passes on. */
module TourismAgent {
  import opened Wrappers
  import opened Text
  import opened Json

  /** What each completion is asked about; the prompt wording is not
      modelled. */
  datatype AgentPrompt =
    | QueryAnalysis(query: string)
    | ReplyRequest(query: string, place: string, context: string)

  datatype Coordinates = Coordinates(lat: real, lon: real)

  /** The outside world: the completion client (its reply is `None` when the
      provider gives no message content), `json.loads`, the geocoder,
      the weather and places child agents, and `str()` of a JSON value. The
      places agent's `None` and `[]` are both the empty sequence. */
  datatype Services = Services(
    complete: (AgentPrompt, real) -> Call<Option<string>>,
    decode: string -> Option<Json>,
    geocode: Json -> Call<Option<Coordinates>>,
    weatherInfo: Json -> Call<Option<string>>,
    touristPlaces: Json -> Call<seq<string>>,
    show: Json -> string)

  /** The external calls, in the order they are made. */
  datatype ExternalCall =
    | CompleteCall(prompt: AgentPrompt, temperature: real)
    | GeocodeCall(place: Json)
    | WeatherCall(place: Json)
    | PlacesCall(place: Json)

  datatype Outcome = Outcome(reply: Option<string>, calls: seq<ExternalCall>)

  const AnalysisTemperature: real := 0.3
  const ReplyTemperature: real := 0.7

  const ErrorReply: string := "I encountered an error processing your request. Please try again."
  const NoPlaceReply: string :=
    "I couldn't identify which place you're asking about. Could you please specify the location?"

  function UnknownPlaceReply(place: string): string {
    "I don't know if " + place + " exists or I couldn't find information about it. Please check the spelling or try a different location."
  }

  function NoInformationReply(place: string): string {
    "I couldn't find any information about " + place + "."
  }

  function UnavailableReply(place: string): string {
    "Information about " + place + " is currently unavailable."
  }

  function Str(svc: Services, v: Json): string {
    if v.JStr? then v.s else svc.show(v)
  }

  /** Python truthiness of an optional string. */
  predicate Present(text: Option<string>) {
    text.Some? && text.value != ""
  }

  /** The analysis used when the completion or its decoding fails. */
  const DefaultAnalysis: Json :=
    JObj([("place", JNull), ("wants_weather", JBool(false)), ("wants_places", JBool(true))])

  /** `analyze_query`: the decoded reply, whatever JSON value it is, or the
      default analysis on any failure. */
  function AnalyzeQuery(svc: Services, query: string): Json {
    match svc.complete(QueryAnalysis(query), AnalysisTemperature)
    case Raised(_) => DefaultAnalysis
    case Returned(None) => DefaultAnalysis  // `None.strip()` raises
    case Returned(Some(reply)) =>
      match svc.decode(PyStrip(reply))
      case None => DefaultAnalysis
      case Some(analysis) => analysis
  }

  // ---------------------------------------------------------------------
  // The final reply.
  // ---------------------------------------------------------------------

  /** The parts of the context given to the completion. */
  function ContextParts(weather: Option<string>, places: Option<string>): seq<string> {
    (if Present(weather) then ["Weather information: " + weather.value] else [])
    + (if Present(places) then ["Tourist attractions:\n" + places.value] else [])
  }

  /** The parts of the reply used when the completion fails. */
  function FallbackParts(weather: Option<string>, places: Option<string>): seq<string> {
    (if Present(weather) then [weather.value] else [])
    + (if Present(places) then ["These are the places you can visit:\n" + places.value] else [])
  }

  /** What `_generate_final_response` returns, with the calls it makes. */
  function FinalResponse(svc: Services, query: string, place: string,
                         weather: Option<string>, places: Option<string>): Outcome {
    var parts := ContextParts(weather, places);
    if |parts| == 0 then Outcome(Some(NoInformationReply(place)), [])
    else
      var prompt := ReplyRequest(query, place, Join(parts, "\n\n"));
      var fallback := FallbackParts(weather, places);
      var reply := match svc.complete(prompt, ReplyTemperature)
        case Returned(text) => text
        case Raised(_) => Some(if |fallback| > 0 then Join(fallback, " ") else UnavailableReply(place));
      Outcome(reply, [CompleteCall(prompt, ReplyTemperature)])
  }

  /** `_generate_final_response`, appending to its part lists. */
  method GenerateFinalResponse(svc: Services, query: string, place: string,
                               weather: Option<string>, places: Option<string>)
    returns (reply: Option<string>, calls: seq<ExternalCall>)
    ensures Outcome(reply, calls) == FinalResponse(svc, query, place, weather, places)
  {
    var contextParts: seq<string> := [];
    if weather.Some? && weather.value != "" {
      contextParts := contextParts + ["Weather information: " + weather.value];
    }
    if places.Some? && places.value != "" {
      contextParts := contextParts + ["Tourist attractions:\n" + places.value];
    }
    if |contextParts| == 0 {
      return Some(NoInformationReply(place)), [];
    }
    var prompt := ReplyRequest(query, place, Join(contextParts, "\n\n"));
    calls := [CompleteCall(prompt, ReplyTemperature)];
    var response := svc.complete(prompt, ReplyTemperature);
    if response.Returned? {
      return response.value, calls;
    }
    var parts: seq<string> := [];
    if weather.Some? && weather.value != "" {
      parts := parts + [weather.value];
    }
    if places.Some? && places.value != "" {
      parts := parts + ["These are the places you can visit:\n" + places.value];
    }
    assert parts == FallbackParts(weather, places);
    reply := Some(if |parts| > 0 then Join(parts, " ") else UnavailableReply(place));
  }

  // ---------------------------------------------------------------------
  // The whole query.
  // ---------------------------------------------------------------------

  /** What `process_query` returns, with the calls it makes. */
  function Reply(svc: Services, query: string): Outcome {
    var analysis := AnalyzeQuery(svc, query);
    var analysisCall := CompleteCall(QueryAnalysis(query), AnalysisTemperature);
    if !analysis.JObj? then Outcome(Some(ErrorReply), [analysisCall])
    else
      var rest := AfterAnalysis(svc, query, analysis.members);
      Outcome(rest.reply, [analysisCall] + rest.calls)
  }

  /** The rest of `process_query` for an analysis that is an object: the
      place check, the geocoding and the gathering. */
  function AfterAnalysis(svc: Services, query: string, analysis: seq<(string, Json)>): Outcome {
    var place := GetOr(analysis, "place", JNull);
    var wantsWeather := GetOr(analysis, "wants_weather", JBool(false));
    var wantsPlaces := GetOr(analysis, "wants_places", JBool(false));
    if !Truthy(place) then Outcome(Some(NoPlaceReply), [])
    else
      match svc.geocode(place)
      case Raised(_) => Outcome(Some(ErrorReply), [GeocodeCall(place)])
      case Returned(None) => Outcome(Some(UnknownPlaceReply(Str(svc, place))), [GeocodeCall(place)])
      case Returned(Some(_)) =>
        var rest := Gather(svc, query, place, Truthy(wantsWeather), Truthy(wantsPlaces));
        Outcome(rest.reply, [GeocodeCall(place)] + rest.calls)
  }

  /** The rest of `process_query` once the place is found: the lookups asked
      for, then the final response; the calls are those made from here on. */
  function Gather(svc: Services, query: string, place: Json, wantsWeather: bool, wantsPlaces: bool): Outcome {
    var weatherCalls := if wantsWeather then [WeatherCall(place)] else [];
    var weather := if wantsWeather then svc.weatherInfo(place) else Returned(None);
    match weather
    case Raised(_) => Outcome(Some(ErrorReply), weatherCalls)
    case Returned(weatherText) =>
      var placesCalls := if wantsPlaces then [PlacesCall(place)] else [];
      var found := if wantsPlaces then svc.touristPlaces(place) else Returned([]);
      match found
      case Raised(_) => Outcome(Some(ErrorReply), weatherCalls + placesCalls)
      case Returned(names) =>
        var placesText := if |names| > 0 then Some(Join(names, "\n")) else None;
        var final := FinalResponse(svc, query, Str(svc, place), weatherText, placesText);
        Outcome(final.reply, weatherCalls + placesCalls + final.calls)
  }

  /** `process_query`, reassigning the weather and places texts step by step;
      every exception becomes the fixed error reply. */
  method ProcessQuery(svc: Services, query: string) returns (reply: Option<string>, calls: seq<ExternalCall>)
    ensures Outcome(reply, calls) == Reply(svc, query)
  {
    calls := [CompleteCall(QueryAnalysis(query), AnalysisTemperature)];
    var analysis := AnalyzeQuery(svc, query);
    if !analysis.JObj? {
      return Some(ErrorReply), calls;
    }
    var rest;
    reply, rest := LocatePlace(svc, query, analysis.members);
    calls := calls + rest;
  }

  /** Steps 2 and 3 of `process_query`: the place check and the geocoding,
      then the gathering; the calls are those made from here on. */
  method LocatePlace(svc: Services, query: string, analysis: seq<(string, Json)>)
    returns (reply: Option<string>, calls: seq<ExternalCall>)
    ensures Outcome(reply, calls) == AfterAnalysis(svc, query, analysis)
  {
    var place := GetOr(analysis, "place", JNull);
    var wantsWeather := GetOr(analysis, "wants_weather", JBool(false));
    var wantsPlaces := GetOr(analysis, "wants_places", JBool(false));
    if !Truthy(place) {
      return Some(NoPlaceReply), [];
    }
    calls := [GeocodeCall(place)];
    var location := svc.geocode(place);
    if location.Raised? {
      return Some(ErrorReply), calls;
    }
    if location.value.None? {
      return Some(UnknownPlaceReply(Str(svc, place))), calls;
    }
    var rest;
    reply, rest := GatherInformation(svc, query, place, Truthy(wantsWeather), Truthy(wantsPlaces));
    calls := calls + rest;
  }

  /** Steps 3 and 4 of `process_query`: the weather and places texts, set
      step by step, then the final response. */
  method GatherInformation(svc: Services, query: string, place: Json, wantsWeather: bool, wantsPlaces: bool)
    returns (reply: Option<string>, calls: seq<ExternalCall>)
    ensures Outcome(reply, calls) == Gather(svc, query, place, wantsWeather, wantsPlaces)
  {
    calls := [];
    var weatherText: Option<string> := None;
    var placesText: Option<string> := None;
    if wantsWeather {
      calls := calls + [WeatherCall(place)];
      var weather := svc.weatherInfo(place);
      if weather.Raised? {
        return Some(ErrorReply), calls;
      }
      weatherText := weather.value;
    }
    if wantsPlaces {
      calls := calls + [PlacesCall(place)];
      var found := svc.touristPlaces(place);
      if found.Raised? {
        return Some(ErrorReply), calls;
      }
      if |found.value| > 0 {
        placesText := Some(Join(found.value, "\n"));
      }
    }
    var finalCalls;
    reply, finalCalls := GenerateFinalResponse(svc, query, Str(svc, place), weatherText, placesText);
    calls := calls + finalCalls;
  }

  // ---------------------------------------------------------------------
  // Properties.
  // ---------------------------------------------------------------------

  /** A failed completion, a `None` reply or an undecodable reply gives the
      default analysis: no place, no weather, places wanted. */
  lemma AnalysisDefault(svc: Services, query: string)
    requires match svc.complete(QueryAnalysis(query), AnalysisTemperature)
      case Returned(Some(reply)) => svc.decode(PyStrip(reply)).None?
      case _ => true
    ensures var analysis := AnalyzeQuery(svc, query);
      analysis.JObj? && Lookup(analysis.members, "place") == Some(JNull) &&
      Lookup(analysis.members, "wants_weather") == Some(JBool(false)) &&
      Lookup(analysis.members, "wants_places") == Some(JBool(true))
  {
    assert Lookup(DefaultAnalysis.members, "wants_places") == Some(JBool(true));
    assert Lookup(DefaultAnalysis.members, "wants_weather") == Some(JBool(false));
    assert Lookup(DefaultAnalysis.members, "place") == Some(JNull);
  }

  /** Without a usable place the agent asks which place is meant, after the
      analysis call alone and without geocoding; a failed analysis always ends
      here. */
  lemma NoPlaceExit(svc: Services, query: string)
    requires AnalyzeQuery(svc, query).JObj?
    requires !Truthy(GetOr(AnalyzeQuery(svc, query).members, "place", JNull))
    ensures Reply(svc, query) == Outcome(Some(NoPlaceReply), [CompleteCall(QueryAnalysis(query), AnalysisTemperature)])
    ensures forall k :: 0 <= k < |Reply(svc, query).calls| ==> !Reply(svc, query).calls[k].GeocodeCall?
  {
  }

  /** When the analysis fails the reply is the "which place" question. */
  lemma FailedAnalysisAsksForPlace(svc: Services, query: string)
    requires match svc.complete(QueryAnalysis(query), AnalysisTemperature)
      case Returned(Some(reply)) => svc.decode(PyStrip(reply)).None?
      case _ => true
    ensures Reply(svc, query).reply == Some(NoPlaceReply)
  {
    AnalysisDefault(svc, query);
    NoPlaceExit(svc, query);
  }

  /** An analysis that is not a JSON object, or a geocoder that raises, gives
      the fixed error reply. */
  lemma ErrorExits(svc: Services, query: string)
    ensures !AnalyzeQuery(svc, query).JObj? ==> Reply(svc, query).reply == Some(ErrorReply)
    ensures var analysis := AnalyzeQuery(svc, query);
      analysis.JObj? && Truthy(GetOr(analysis.members, "place", JNull)) &&
      svc.geocode(GetOr(analysis.members, "place", JNull)).Raised? ==>
      Reply(svc, query).reply == Some(ErrorReply)
  {
  }

  /** For an analysis that is an object, the reply and calls are those of
      the rest of the query after the analysis call. */
  lemma ReplyOfObject(svc: Services, query: string)
    requires AnalyzeQuery(svc, query).JObj?
    ensures var rest := AfterAnalysis(svc, query, AnalyzeQuery(svc, query).members);
      Reply(svc, query) == Outcome(rest.reply, [CompleteCall(QueryAnalysis(query), AnalysisTemperature)] + rest.calls)
  {
  }

  /** A place the geocoder cannot find gives the "don't know if it exists"
      reply naming the place, after the analysis and the geocoding calls. */
  lemma UnknownPlaceExit(svc: Services, query: string)
    requires AnalyzeQuery(svc, query).JObj?
    requires var place := GetOr(AnalyzeQuery(svc, query).members, "place", JNull);
      Truthy(place) && svc.geocode(place) == Returned(None)
    ensures var place := GetOr(AnalyzeQuery(svc, query).members, "place", JNull);
      Reply(svc, query) ==
        Outcome(Some(UnknownPlaceReply(Str(svc, place))),
                [CompleteCall(QueryAnalysis(query), AnalysisTemperature), GeocodeCall(place)])
  {
  }

  /** Once the place is found, the rest of the query is the gathering for
      the flags the analysis holds, after the geocoding call. */
  lemma FoundPlaceGathers(svc: Services, query: string, analysis: seq<(string, Json)>)
    requires var place := GetOr(analysis, "place", JNull);
      Truthy(place) && svc.geocode(place).Returned? && svc.geocode(place).value.Some?
    ensures var place := GetOr(analysis, "place", JNull);
      var rest := Gather(svc, query, place, Truthy(GetOr(analysis, "wants_weather", JBool(false))),
                         Truthy(GetOr(analysis, "wants_places", JBool(false))));
      AfterAnalysis(svc, query, analysis) == Outcome(rest.reply, [GeocodeCall(place)] + rest.calls)
  {
  }

  lemma PrependTwo<T>(x: T, y: T, rest: seq<T>)
    ensures [x] + ([y] + rest) == [x, y] + rest
  {
  }

  /** The final response makes no call but the completion. */
  lemma FinalResponseCompletes(svc: Services, query: string, place: string,
                               weather: Option<string>, places: Option<string>)
    ensures forall k :: 0 <= k < |FinalResponse(svc, query, place, weather, places).calls| ==>
      FinalResponse(svc, query, place, weather, places).calls[k].CompleteCall?
  {
  }

  /** The gathering asks the weather agent exactly when weather is wanted and
      the places agent exactly when places are wanted and the weather lookup
      did not raise; a raising lookup gives the error reply, and otherwise the
      reply is the final response over what the lookups returned. */
  lemma GatherFollowsFlags(svc: Services, query: string, place: Json, wantsWeather: bool, wantsPlaces: bool)
    ensures var outcome := Gather(svc, query, place, wantsWeather, wantsPlaces);
      (WeatherCall(place) in outcome.calls <==> wantsWeather) &&
      (!(wantsWeather && svc.weatherInfo(place).Raised?) ==>
        (PlacesCall(place) in outcome.calls <==> wantsPlaces)) &&
      (wantsWeather && svc.weatherInfo(place).Raised? ==> outcome.reply == Some(ErrorReply)) &&
      (var weatherText := if wantsWeather then svc.weatherInfo(place) else Returned(None);
       var found := if wantsPlaces then svc.touristPlaces(place) else Returned([]);
       weatherText.Returned? && found.Returned? ==>
         outcome.reply == FinalResponse(svc, query, Str(svc, place), weatherText.value,
                                        if |found.value| > 0 then Some(Join(found.value, "\n")) else None).reply)
  {
    var weatherCalls := if wantsWeather then [WeatherCall(place)] else [];
    var placesCalls := if wantsPlaces then [PlacesCall(place)] else [];
    var weather := if wantsWeather then svc.weatherInfo(place) else Returned(None);
    var found := if wantsPlaces then svc.touristPlaces(place) else Returned([]);
    if weather.Returned? && found.Returned? {
      var placesText := if |found.value| > 0 then Some(Join(found.value, "\n")) else None;
      var final := FinalResponse(svc, query, Str(svc, place), weather.value, placesText);
      FinalResponseCompletes(svc, query, Str(svc, place), weather.value, placesText);
      assert WeatherCall(place) !in final.calls && PlacesCall(place) !in final.calls;
    }
  }

  /** Once the place is found, the weather agent is asked exactly when weather
      is wanted and the places agent exactly when places are wanted (and the
      weather lookup did not raise); the reply is then the final response over
      what they returned, the names joined by newlines and an empty list
      giving no places text. */
  lemma LookupsFollowFlags(svc: Services, query: string)
    requires AnalyzeQuery(svc, query).JObj?
    requires var place := GetOr(AnalyzeQuery(svc, query).members, "place", JNull);
      Truthy(place) && match svc.geocode(place) case Returned(Some(_)) => true case _ => false
    ensures var members := AnalyzeQuery(svc, query).members;
      var place := GetOr(members, "place", JNull);
      var wantsWeather := Truthy(GetOr(members, "wants_weather", JBool(false)));
      var wantsPlaces := Truthy(GetOr(members, "wants_places", JBool(false)));
      var outcome := Reply(svc, query);
      |outcome.calls| >= 2 && outcome.calls[..2] == [CompleteCall(QueryAnalysis(query), AnalysisTemperature), GeocodeCall(place)] &&
      (WeatherCall(place) in outcome.calls <==> wantsWeather) &&
      (!(wantsWeather && svc.weatherInfo(place).Raised?) ==>
        (PlacesCall(place) in outcome.calls <==> wantsPlaces)) &&
      (wantsWeather && svc.weatherInfo(place).Raised? ==> outcome.reply == Some(ErrorReply)) &&
      (var weatherText := if wantsWeather then svc.weatherInfo(place) else Returned(None);
       var found := if wantsPlaces then svc.touristPlaces(place) else Returned([]);
       weatherText.Returned? && found.Returned? ==>
         outcome.reply == FinalResponse(svc, query, Str(svc, place), weatherText.value,
                                        if |found.value| > 0 then Some(Join(found.value, "\n")) else None).reply)
  {
    var members := AnalyzeQuery(svc, query).members;
    var place := GetOr(members, "place", JNull);
    var wantsWeather := Truthy(GetOr(members, "wants_weather", JBool(false)));
    var wantsPlaces := Truthy(GetOr(members, "wants_places", JBool(false)));
    var rest := Gather(svc, query, place, wantsWeather, wantsPlaces);
    var head := [CompleteCall(QueryAnalysis(query), AnalysisTemperature), GeocodeCall(place)];
    assert Reply(svc, query) == Outcome(rest.reply, head + rest.calls) by {
      ReplyOfObject(svc, query);
      FoundPlaceGathers(svc, query, members);
      PrependTwo(CompleteCall(QueryAnalysis(query), AnalysisTemperature), GeocodeCall(place), rest.calls);
    }
    GatherFollowsFlags(svc, query, place, wantsWeather, wantsPlaces);
    assert (head + rest.calls)[..2] == head;
    assert WeatherCall(place) in head + rest.calls <==> WeatherCall(place) in rest.calls;
    assert PlacesCall(place) in head + rest.calls <==> PlacesCall(place) in rest.calls;
  }

  /** Without any weather or places text the reply says nothing was found and
      no completion is requested; otherwise exactly one completion is asked
      for at 0.7 and its reply is returned as it is, `None` included. */
  lemma FinalResponseRules(svc: Services, query: string, place: string,
                           weather: Option<string>, places: Option<string>)
    ensures var outcome := FinalResponse(svc, query, place, weather, places);
      (!Present(weather) && !Present(places) ==> outcome == Outcome(Some(NoInformationReply(place)), [])) &&
      (Present(weather) || Present(places) ==>
        |outcome.calls| == 1 && outcome.calls[0].CompleteCall? &&
        outcome.calls[0].temperature == ReplyTemperature &&
        outcome.calls[0].prompt == ReplyRequest(query, place, Join(ContextParts(weather, places), "\n\n")) &&
        (svc.complete(outcome.calls[0].prompt, ReplyTemperature).Returned? ==>
          outcome.reply == svc.complete(outcome.calls[0].prompt, ReplyTemperature).value))
  {
  }

  /** When the completion fails, the reply joins the weather text and the
      places sentence with a space. The fallback always has a part, since it
      is reached only with some information, so the "currently unavailable"
      branch is never taken. */
  lemma FallbackReply(svc: Services, query: string, place: string,
                      weather: Option<string>, places: Option<string>)
    requires Present(weather) || Present(places)
    requires svc.complete(ReplyRequest(query, place, Join(ContextParts(weather, places), "\n\n")), ReplyTemperature).Raised?
    ensures var reply := FinalResponse(svc, query, place, weather, places).reply;
      var placesLine := "These are the places you can visit:\n" + places.GetOr("");
      |FallbackParts(weather, places)| > 0 &&
      reply == Some(Join(FallbackParts(weather, places), " ")) &&
      (Present(weather) && Present(places) ==> reply == Some(weather.value + " " + placesLine)) &&
      (Present(weather) && !Present(places) ==> reply == Some(weather.value)) &&
      (!Present(weather) && Present(places) ==> reply == Some(placesLine))
  {
    var placesLine := "These are the places you can visit:\n" + places.GetOr("");
    var fallback := FallbackParts(weather, places);
    if Present(weather) && Present(places) {
      assert fallback == [weather.value, placesLine];
      JoinCons(fallback, " ");
      assert fallback[1..] == [placesLine];
    }
  }

  // ---------------------------------------------------------------------
  // A `None` reply.
  // ---------------------------------------------------------------------

  /** The last call made is the completion asked to phrase the reply, and it
      returned `None`. */
  predicate EndsInNoneCompletion(svc: Services, calls: seq<ExternalCall>) {
    |calls| > 0 && calls[|calls| - 1].CompleteCall? && calls[|calls| - 1].prompt.ReplyRequest? &&
    svc.complete(calls[|calls| - 1].prompt, calls[|calls| - 1].temperature) == Returned(None)
  }

  lemma EndsInNoneCompletionAppend(svc: Services, first: seq<ExternalCall>, last: seq<ExternalCall>)
    requires EndsInNoneCompletion(svc, last)
    ensures EndsInNoneCompletion(svc, first + last)
  {
    assert (first + last)[|first + last| - 1] == last[|last| - 1];
  }

  /** The final response is `None` exactly when there is some information
      and the completion asked to phrase it returns `None`; that completion is
      then the last call. */
  lemma FinalResponseNone(svc: Services, query: string, place: string,
                          weather: Option<string>, places: Option<string>)
    ensures var outcome := FinalResponse(svc, query, place, weather, places);
      (outcome.reply.None? <==>
        (Present(weather) || Present(places)) &&
        svc.complete(ReplyRequest(query, place, Join(ContextParts(weather, places), "\n\n")), ReplyTemperature) == Returned(None)) &&
      (outcome.reply.None? ==> EndsInNoneCompletion(svc, outcome.calls))
  {
  }

  /** Once the place is found, a `None` reply comes from the final
      completion. */
  lemma GatherNone(svc: Services, query: string, place: Json, wantsWeather: bool, wantsPlaces: bool)
    ensures var outcome := Gather(svc, query, place, wantsWeather, wantsPlaces);
      outcome.reply.None? ==> EndsInNoneCompletion(svc, outcome.calls)
  {
    var outcome := Gather(svc, query, place, wantsWeather, wantsPlaces);
    var weather := if wantsWeather then svc.weatherInfo(place) else Returned(None);
    var found := if wantsPlaces then svc.touristPlaces(place) else Returned([]);
    if outcome.reply.None? {
      assert weather.Returned? && found.Returned?;
      var placesText := if |found.value| > 0 then Some(Join(found.value, "\n")) else None;
      var final := FinalResponse(svc, query, Str(svc, place), weather.value, placesText);
      var lookups := (if wantsWeather then [WeatherCall(place)] else []) + (if wantsPlaces then [PlacesCall(place)] else []);
      assert outcome == Outcome(final.reply, lookups + final.calls);
      FinalResponseNone(svc, query, Str(svc, place), weather.value, placesText);
      EndsInNoneCompletionAppend(svc, lookups, final.calls);
    }
  }

  /** After the analysis, a `None` reply comes from the final completion. */
  lemma AfterAnalysisNone(svc: Services, query: string, analysis: seq<(string, Json)>)
    ensures var outcome := AfterAnalysis(svc, query, analysis);
      outcome.reply.None? ==> EndsInNoneCompletion(svc, outcome.calls)
  {
    var outcome := AfterAnalysis(svc, query, analysis);
    var place := GetOr(analysis, "place", JNull);
    if outcome.reply.None? {
      var rest := Gather(svc, query, place, Truthy(GetOr(analysis, "wants_weather", JBool(false))),
                         Truthy(GetOr(analysis, "wants_places", JBool(false))));
      assert outcome == Outcome(rest.reply, [GeocodeCall(place)] + rest.calls);
      GatherNone(svc, query, place, Truthy(GetOr(analysis, "wants_weather", JBool(false))),
                 Truthy(GetOr(analysis, "wants_places", JBool(false))));
      EndsInNoneCompletionAppend(svc, [GeocodeCall(place)], rest.calls);
    }
  }

  /** The agent's reply is `None` only when the completion asked to phrase it
      returned `None`, the last call made. Every fixed reply is a string. */
  lemma NoneReplyFromCompletion(svc: Services, query: string)
    ensures var outcome := Reply(svc, query);
      outcome.reply.None? ==> EndsInNoneCompletion(svc, outcome.calls)
  {
    var outcome := Reply(svc, query);
    if outcome.reply.None? {
      var rest := AfterAnalysis(svc, query, AnalyzeQuery(svc, query).members);
      assert outcome == Outcome(rest.reply, [CompleteCall(QueryAnalysis(query), AnalysisTemperature)] + rest.calls) by {
        ReplyOfObject(svc, query);
      }
      AfterAnalysisNone(svc, query, AnalyzeQuery(svc, query).members);
      EndsInNoneCompletionAppend(svc, [CompleteCall(QueryAnalysis(query), AnalysisTemperature)], rest.calls);
    }
  }
}
