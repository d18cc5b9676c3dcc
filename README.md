# Tourism assistant core, modelled in Dafny

This project models the decision logic of a tourism chat assistant. A user
asks about a place. The backend works out what is wanted (weather,
attractions, an itinerary), looks it up, and asks a language model to
phrase the answer. The frontend then cleans the model's markdown before
showing it.

The model covers these parts:

- **Graph orchestrator** (`langgraph_tourism.py`), in `langgraph_tourism.dfy` and `query_analysis.dfy`.
  - A shared `TourismState` record passes through five steps: analyze, planning, weather, places and synthesize.
  - Each step is a function from state to state over the results of the external services.
  - The routing after analysis and the fixed edges form an explicit step type. `Execute` runs it to the end.
  - The analysis text handling is modelled on `seq<char>`: substring keyword tests, the history context, fence stripping, `{...}` extraction and the capitalised-word location guess.
  - Where the source updates a variable in a loop, the model has a method proved equal to the specifying function: `BuildHistoryContext`, `DropFenceLines`, `FindFallbackLocation`, `AppendHistory` and `BuildContextParts`.
- **Single-pass agent** (`tourism_agent.py`), in `tourism_agent.dfy`.
  - It analyses the query, takes the early exits, runs the optional lookups and builds the final reply with its fallback.
  - Each method returns the reply together with the list of external calls it made. Properties such as "no geocoding happens" and "no completion is requested" are therefore stated in the contracts.
- **Completion client** (`ai_client.py`), in `ai_client.dfy`.
  - The constructor's provider and key checks, as a class whose fields are set once.
  - The loop that splits the system message off for the Anthropic route.
- **Attraction extraction** (`places_repo.py`), in `places_repo.dfy`. The loop that collects `tags.name` from the decoded Overpass response.
- **Bubble text cleaning** (`MessageBubble.jsx`, lines 37-50), in `message_bubble.dfy`.
- **Shared vocabulary.**
  - `text.dfy` models the Python and JavaScript string operations used by the code: `split`, `join`, `strip`, `trim`, `in`, `lower` and `str.split()`.
  - `json.dfy` models decoded JSON values, with Python's truthiness, `dict.get`, `in`, indexing and iteration.
  - `wrappers.dfy` holds `Option`, `Call` (a value returned or an exception raised) and `Result`.

External calls are parameters. The language model, `json.loads`, the
geocoder, the weather and attraction lookups, and the formatting of the
weather sentence are fields of a `Services` value. Each field is a
function, so one query is modelled over one fixed set of answers. A
completion answers `Call<Option<string>>`, because the OpenAI client's
message content can be `None`. The graph's analysis and planning steps then
raise on `.strip()` and take their fallback, and its synthesis step gives the
blank-reply apology. The single-pass agent passes a `None` final completion
on as its reply, so its reply is an `Option<string>`.

## Model

| member | source | states |
|---|---|---|
| AiClient.ConfigureAccepts | backend/app/services/ai_client.py:12-27 | construction succeeds exactly when the lower-cased provider is "openai" or "anthropic" and that provider's key is set; the kept provider, key and model are those of the chosen provider |
| AiClient.ProviderNameIgnoresCase | backend/app/services/ai_client.py:12-27 | "OpenAI" and "ANTHROPIC" are accepted; "Gemini" fails with "Unsupported AI provider: gemini" |
| AiClient.Client.Create | backend/app/services/ai_client.py:11-27 | the constructor raises (a `Failure` with the source's message) exactly when the configuration is rejected; otherwise the new client's fields hold the chosen configuration |
| AiClient.SplitSystemMessages | backend/app/services/ai_client.py:44-55 | the loop yields the last system message's content (or "") and the non-system messages in order |
| AiClient.SystemPromptIsLast | backend/app/services/ai_client.py:45-61 | the system argument is the content of the last system message, with later ones overwriting earlier ones, and "" when there is none |
| AiClient.ConversationLength | backend/app/services/ai_client.py:48-55 | the Anthropic list has no system message; its length is the input length minus the number of system messages |
| AiClient.ConversationKeepsOrder | backend/app/services/ai_client.py:48-55 | every non-system message appears unchanged, at the position given by the non-system messages before it |
| AiClient.Client.ChatCompletion | backend/app/services/ai_client.py:29-72 | exactly one request is sent: the list unchanged for OpenAI, or the system prompt, the conversation and the 1024-token cap for Anthropic; the provider's reply (`None` included) or exception is passed back unchanged |
| PlacesRepo.GetTouristAttractions | backend/app/repos/places_repo.py:16-32 | the loop returns the names of the decoded elements; a failed fetch or decode, or an exception while scanning, gives [] |
| PlacesRepo.RaisingPrefix | backend/app/repos/places_repo.py:22-24 | an element whose test raises makes the whole scan raise |
| PlacesRepo.NamesOfAppend | backend/app/repos/places_repo.py:20-24 | names come out in the order of their elements: the names of a concatenation are the names of each part |
| PlacesRepo.NamesOfOne | backend/app/repos/places_repo.py:23-24 | one element contributes its name or nothing |
| PlacesRepo.NamesBounded | backend/app/repos/places_repo.py:20-25 | there are never more names than elements |
| PlacesRepo.ElementWithoutName | backend/app/repos/places_repo.py:23 | an element without "tags", or whose tags lack "name", contributes nothing |
| PlacesRepo.NoElementsKey | backend/app/repos/places_repo.py:20-25 | a response without "elements" yields [] |
| PlacesRepo.DuplicatesKept | backend/app/repos/places_repo.py:20-25 | duplicate names are kept; there is no de-duplication |
| MessageBubble.DisplayedTextByRole | frontend/src/components/MessageBubble.jsx:37-49 | a user's message is shown verbatim; any other message is shown cleaned |
| MessageBubble.RemoveStars | frontend/src/components/MessageBubble.jsx:41 | removing `*` leaves no `*` |
| MessageBubble.StarRemovalsCombine | frontend/src/components/MessageBubble.jsx:40-41 | removing `**` and then `*` is the same as removing every `*` |
| MessageBubble.LeadingDigits | frontend/src/components/MessageBubble.jsx:46 | the counted prefix is the maximal run of ASCII digits |
| MessageBubble.LinesFilteredIndependently | frontend/src/components/MessageBubble.jsx:42-47 | each line is kept or dropped on its own; the kept lines of two texts joined by a line break are the kept lines of each, in order |
| MessageBubble.CleanedLines | frontend/src/components/MessageBubble.jsx:42-49 | the cleaned text is a join, by line breaks, of lines that pass the filter and hold no `*` or line break |
| MessageBubble.CleanReplyLines | frontend/src/components/MessageBubble.jsx:42-49 | every line of the cleaned text passes the filter: it mentions neither label, is not a numbered item once trimmed, and holds no `*` |
| MessageBubble.CleanReplyHasNoMarkers | frontend/src/components/MessageBubble.jsx:40-46 | the cleaned text contains no `*`, no "Weather:" and no "Location:" anywhere |
| MessageBubble.CleanReplyTrimmed | frontend/src/components/MessageBubble.jsx:49 | the cleaned text has no leading or trailing whitespace |
| MessageBubble.CleanReplyIdempotent | frontend/src/components/MessageBubble.jsx:39-49 | cleaning an already cleaned text changes nothing |
| MessageBubble.NumberedItemExamples | frontend/src/components/MessageBubble.jsx:46 | "12. Louvre" is a numbered item; "Day 1. Louvre" and "1 Louvre" are not |
| MessageBubble.IndentedItemDropped | frontend/src/components/MessageBubble.jsx:46 | an indented numbered line is dropped, because the test applies to the trimmed line |
| QueryAnalysis.KeywordsMatchInsideWords | backend/app/services/langgraph_tourism.py:115-125 | the keyword tests are substring tests: "do" matches "london" and "day" matches "today" |
| QueryAnalysis.LastN | backend/app/services/langgraph_tourism.py:61 | `xs[-n:]` holds the last min(n, len) elements |
| QueryAnalysis.BuildHistoryContext | backend/app/services/langgraph_tourism.py:57-64 | the `+=` loop builds exactly the specified history context |
| QueryAnalysis.HistoryLinesAppend | backend/app/services/langgraph_tourism.py:61-64 | the lines of several messages are the lines of each, in order |
| QueryAnalysis.HistoryContextUsesLastFour | backend/app/services/langgraph_tourism.py:58-64 | only the last four messages reach the analysis prompt; anything earlier makes no difference |
| QueryAnalysis.HistoryContextShape | backend/app/services/langgraph_tourism.py:57-64 | the context is empty exactly without history; otherwise it starts with the header, and it holds all messages when there are at most four |
| QueryAnalysis.DropFenceLines | backend/app/services/langgraph_tourism.py:100-101 | the comprehension keeps exactly the lines that do not start with a fence, in order |
| QueryAnalysis.StripFencesLines | backend/app/services/langgraph_tourism.py:96-101 | for a stripped reply that starts with a fence, the cleaned lines are its non-fence lines in order and none starts with a fence; otherwise the reply is only stripped |
| QueryAnalysis.MatchAtSpec | backend/app/services/langgraph_tourism.py:107-110 | a match of the brace pattern starts at a position exactly when one is found there |
| QueryAnalysis.FirstBraceBlockSpec | backend/app/services/langgraph_tourism.py:103-112 | the extracted block is the leftmost `{`, at least one non-`}` character, `}` span; without one, nothing matches |
| QueryAnalysis.FindFallbackLocation | backend/app/services/langgraph_tourism.py:164-167 | the word loop with its early exit computes the specified location guess |
| QueryAnalysis.FallbackLocationSpec | backend/app/services/langgraph_tourism.py:160-167 | no guess exactly when no word is longer than three characters with a capital first; otherwise the guess is the first such word with trailing `?,.` removed, non-empty and capitalised |
| LangGraphTourism.AnalysisRules | backend/app/services/langgraph_tourism.py:115-152 | after a reply that decodes to a dict: needs_places is the model's flag or a places keyword; the query is complex exactly when a complex keyword occurs; complex with a duration gives the itinerary type, else places without complexity gives the places type, else the model's type (default "simple"); plan and tips are cleared and nothing else changes |
| LangGraphTourism.AnalysisDecoded | backend/app/services/langgraph_tourism.py:96-152 | when the model's reply decodes to a dict, the analysis step's result is the one AnalysisRules describes for its members: needs_places is the model's flag or a places keyword, and the query is complex exactly when a complex keyword occurs |
| LangGraphTourism.AnalysisFallbackRules | backend/app/services/langgraph_tourism.py:154-178 | on a failed call, a `None` reply or an undecodable reply: the location is the capitalised-word guess or none, both lookups are wanted, the type is "simple", the query is not complex and the other fields are kept |
| LangGraphTourism.LondonCountsAsPlacesQuery | backend/app/services/langgraph_tourism.py:115-135 | a query "London" that the model tags as weather-only with no places is still given `needs_places` true and the places type |
| LangGraphTourism.PlanningRules | backend/app/services/langgraph_tourism.py:180-243 | a simple query is unchanged; a complex one gets both lookups wanted, and either the decoded plan (default []) and tips or, on a failure or a `None` reply, the fixed three-step plan with the tips kept; nothing else changes |
| LangGraphTourism.WeatherRules | backend/app/services/langgraph_tourism.py:245-283 | without a location or the weather flag the state is unchanged; otherwise only the weather text changes: "Location not found", "Weather data not available", "Could not fetch weather: " and the message, or the weather sentence |
| LangGraphTourism.PlacesRules | backend/app/services/langgraph_tourism.py:285-320 | without a location or the places flag the state is unchanged; otherwise only the place list changes: [] on any failure or a non-list result, else the names returned |
| LangGraphTourism.Truncate | backend/app/services/langgraph_tourism.py:338 | `s[:n]` is the prefix of at most n characters, the whole string when it is short enough |
| LangGraphTourism.HistoryParts | backend/app/services/langgraph_tourism.py:336-339 | one context line per history message, in order |
| LangGraphTourism.PlaceBullets | backend/app/services/langgraph_tourism.py:351 | one bullet per place, in order |
| LangGraphTourism.AppendHistory | backend/app/services/langgraph_tourism.py:334-340 | the history loop appends exactly the specified history section: a heading, one line per message of the last four, and a blank part |
| LangGraphTourism.BuildContextParts | backend/app/services/langgraph_tourism.py:331-353 | the `append` sequence builds exactly the specified context parts |
| LangGraphTourism.HistorySectionLayout | backend/app/services/langgraph_tourism.py:334-340 | without history there is no history part; otherwise a heading, the last four messages at most in order, and a blank part |
| LangGraphTourism.HistoryPartTruncates | backend/app/services/langgraph_tourism.py:336-339 | a history line shows at most the first 200 characters of the message |
| LangGraphTourism.SynthesisTemplate | backend/app/services/langgraph_tourism.py:357-513 | the itinerary template at 0.5 for the itinerary type with a truthy plan (raising when the plan cannot be iterated); the places template at 0.3 for the places type with places; the weather template at 0.8 for the weather type; the general template at 0.8 otherwise; the last three carry the joined context |
| LangGraphTourism.ReplyTextRules | backend/app/services/langgraph_tourism.py:520-542 | the reply made of the completion's answer is never empty: the stripped answer, the "couldn't generate" apology for a blank or `None` one, or the "encountered an error" apology on an exception |
| LangGraphTourism.SynthesisResponds | backend/app/services/langgraph_tourism.py:515-542 | the final reply is always set and non-empty: the "encountered an error" apology when the prompt cannot be built, otherwise the reply made of the completion's answer; nothing else changes |
| LangGraphTourism.StepsKeepError | backend/app/services/langgraph_tourism.py:48-542 | no step sets the error field |
| LangGraphTourism.RouteWithoutError | backend/app/services/langgraph_tourism.py:546-565 | with no error set, the route is planning exactly for a complex query, and direct to synthesis exactly when neither lookup is wanted |
| LangGraphTourism.ExecuteEdge | backend/app/services/langgraph_tourism.py:583-603 | for any registered step functions, a run is the step followed by the run from its successor |
| LangGraphTourism.ExecuteLast | backend/app/services/langgraph_tourism.py:603 | for any registered step functions, the run ends after synthesis |
| LangGraphTourism.ExecuteFromWeather | backend/app/services/langgraph_tourism.py:601-603 | for any registered step functions, weather is always followed by places and then synthesis |
| LangGraphTourism.ExecuteRoute | backend/app/services/langgraph_tourism.py:586-603 | for any registered step functions, each route runs its fixed chain of steps to synthesis |
| LangGraphTourism.ExecuteFromAnalyze | backend/app/services/langgraph_tourism.py:569-605 | for any registered step functions, a run from analysis visits exactly the steps of the chosen route and ends in that route's final state |
| LangGraphTourism.VisitsShape | backend/app/services/langgraph_tourism.py:583-603 | each route's steps start at analysis and end at synthesis, analysis only first and synthesis only last; planning appears only on its route; the two lookups appear together |
| LangGraphTourism.RunShape | backend/app/services/langgraph_tourism.py:546-605 | for any registered step functions, a run from a state that analysis leaves without an error has the trace shape: analysis only first, synthesis only last, planning exactly for a complex query, and both lookups together exactly when the query is complex or a lookup is wanted |
| LangGraphTourism.NodesKeepError | backend/app/services/langgraph_tourism.py:48-542 | none of the tourism graph's five nodes sets the error field |
| LangGraphTourism.NodesRespond | backend/app/services/langgraph_tourism.py:515-542 | the tourism graph's synthesis node always leaves a non-empty reply |
| LangGraphTourism.RunReply | backend/app/services/langgraph_tourism.py:546-605 | for registered step functions that keep the error field, a run from a state without an error ends without one, and with a non-empty reply when synthesis always gives one |
| LangGraphTourism.ProcessQueryTrace | backend/app/services/langgraph_tourism.py:609-638 | every run of `process_query` has the trace shape for the state analysis produced |
| LangGraphTourism.ProcessQueryReply | backend/app/services/langgraph_tourism.py:609-647 | the error branch never fires and the final reply is always set and non-empty, so the "couldn't process" default is never used |
| LangGraphTourism.ProcessQueryDefaults | backend/app/services/langgraph_tourism.py:641-647 | the result's location is the final location or "Unknown", the weather text is passed on, and the place list is the final one or [] |
| LangGraphTourism.InitialStateFields | backend/app/services/langgraph_tourism.py:622-636 | the run starts with the given query and history (none becomes []), false flags and absent values |
| TourismAgent.AnalysisDefault | backend/app/services/tourism_agent.py:54-70 | a failed completion, a `None` reply or a failed decoding gives place None, wants_weather false and wants_places true |
| TourismAgent.NoPlaceExit | backend/app/services/tourism_agent.py:79-85 | a missing or falsy place gives the "couldn't identify which place" reply after the analysis call alone, without geocoding |
| TourismAgent.FailedAnalysisAsksForPlace | backend/app/services/tourism_agent.py:65-85 | a failed analysis always ends with the "couldn't identify which place" reply |
| TourismAgent.ErrorExits | backend/app/services/tourism_agent.py:76-117 | an analysis that is not an object, or a geocoder that raises, gives the fixed error reply |
| TourismAgent.UnknownPlaceExit | backend/app/services/tourism_agent.py:87-89 | a place the geocoder cannot find gives the "I don't know if {place} exists" reply, after the analysis and geocoding calls |
| TourismAgent.LookupsFollowFlags | backend/app/services/tourism_agent.py:91-109 | once the place is found, weather is asked for exactly when wanted, and places exactly when wanted unless the weather lookup raised; the names are joined by newlines, and an empty list gives no places text |
| TourismAgent.ProcessQuery | backend/app/services/tourism_agent.py:72-117 | the method returns the specified reply and calls; every exception becomes the fixed error reply |
| TourismAgent.LocatePlace | backend/app/services/tourism_agent.py:76-109 | after the analysis, the place check, the geocoding and the lookups return the specified reply and calls |
| TourismAgent.ReplyOfObject | backend/app/services/tourism_agent.py:72-78 | for an analysis that is an object, the reply and calls are those of the rest of the query after the analysis call |
| TourismAgent.FoundPlaceGathers | backend/app/services/tourism_agent.py:79-109 | once the place is found, the rest of the query is the lookups for the analysis flags, after the geocoding call |
| TourismAgent.GatherFollowsFlags | backend/app/services/tourism_agent.py:91-109 | the weather lookup is made exactly when wanted, the places lookup exactly when wanted unless the weather lookup raised; a raised lookup gives the error reply, otherwise the final response over the texts found |
| TourismAgent.FinalResponseCompletes | backend/app/services/tourism_agent.py:119-166 | the final response makes no call but the completion |
| TourismAgent.GatherInformation | backend/app/services/tourism_agent.py:91-109 | the weather and places texts are set step by step as specified, then the final response is built |
| TourismAgent.GenerateFinalResponse | backend/app/services/tourism_agent.py:119-179 | the `append`-built context and fallback lists give exactly the specified reply and calls |
| TourismAgent.FinalResponseRules | backend/app/services/tourism_agent.py:129-166 | with neither weather nor places text the reply is "I couldn't find any information about {place}." and no completion is requested; otherwise exactly one completion is requested at 0.7, and its reply is returned unchanged, `None` included |
| TourismAgent.FinalResponseNone | backend/app/services/tourism_agent.py:119-166 | the final response is `None` exactly when there is some information and the completion asked to phrase it returns `None`; that completion is then the last call |
| TourismAgent.GatherNone | backend/app/services/tourism_agent.py:91-109 | once the place is found, a `None` reply comes from the final completion, the last call made |
| TourismAgent.AfterAnalysisNone | backend/app/services/tourism_agent.py:79-109 | after the analysis, a `None` reply comes from the final completion, the last call made |
| TourismAgent.NoneReplyFromCompletion | backend/app/services/tourism_agent.py:72-166 | the agent's reply is `None` only when the completion asked to phrase it returned `None`, the last call made; every fixed reply is a string |
| TourismAgent.FallbackReply | backend/app/services/tourism_agent.py:167-179 | on a failed completion the reply joins the weather text and "These are the places you can visit:\n…" with a space; the fallback always has a part, so the "currently unavailable" branch is unreachable |

## Left out

- The language model, `json.loads`, the geocoder (including its Nominatim-to-Photon fallback), and the weather, attraction and child-agent lookups are fields of `Services`. Each is a total function, with an exception as `Raised`. The HTTP requests, retries and latency are not modelled. The model does not capture that two identical calls may answer differently.
- Prompt wording is not modelled. A prompt is a tag carrying the values the source interpolates into it. The same holds for the system prompts of `tourism_agent.py`.
- Temperatures are `real` constants (0.3, 0.4, 0.5, 0.7, 0.8). Float formatting of the weather sentence (`{temperature}`, `{precip:.1f}`) is the opaque `weatherSentence` service. `str()` of a JSON value that is not a string is the opaque `show` service.
- Values copied out of a decoded model reply keep their JSON form, because the source does not check their types. A location, flag or query type may therefore be any JSON value, tested by Python truthiness as the code does. The `TypedDict` annotations of `TourismState` are not enforced.
- `str.lower()` and `str.isupper()` are modelled on ASCII letters only. Unicode case mapping is left out. Python's `str.isspace()` and JavaScript's `trim` are modelled by their documented whitespace sets.
- History entries are modelled as `Message(role, content)` records. The `.get('role', 'user')` and `.get('content', '')` defaults for entries missing a key are not modelled, because conversation messages always have both keys.
- `places_node` passes `limit=5` to a repository method without that parameter. That call is kept abstract as the `attractions` service, and the five-result cap of the Overpass query is not modelled.
- The places child agent's `None` and `[]` results are both the empty sequence, since the code treats them alike.
- Logging is left out because it has no effect on results. `inspect.stack()`, the `has_weather` and `is_complex` locals used only in log messages, and the module-level singletons are left out too.
- The graph library's scheduling, state merging and async execution are left out. `Execute` runs the steps one after another, as the edges fix them.
- `process_query` in `langgraph_tourism.py` re-raises any exception from the graph. No step raises in the model, because the steps catch every failure of their services, so this path is not modelled.
- The itinerary prompt's enumeration of plan steps (`{i+1}. {step}`) and place bullets are kept as the step and place values, without formatting.
- The code does not de-duplicate place names. The keyword override applies only after a decoded reply, not in the fallback. `DuplicatesKept` and `AnalysisFallbackRules` state these.
- The lookups stay abstract, so the model does not capture what the shipped repositories make of them:
  - `places_node` calls `get_tourist_attractions(lat, lon, limit=5)` (langgraph_tourism.py:303-307), but the repository method takes no `limit` (places_repo.py:8). The call raises `TypeError`, which is caught at langgraph_tourism.py:314, so the place list is always `[]` once geocoding succeeds.
  - `places_agent.py:30` passes `limit` positionally, fails the same way and returns `None`.
  - `get_current_weather` returns the raw decoded dict (weather_repo.py:19), so `weather.precipitation_probability` (langgraph_tourism.py:272) raises `AttributeError` for a non-empty dict. That is caught at langgraph_tourism.py:277, so a successful fetch gives the weather text "Could not fetch weather: …". A failed fetch returns `None` and gives "Weather data not available".
- `get_coordinates`, the weather repository, `weather_agent.py` and `places_agent.py` are not part of this model beyond their results.
