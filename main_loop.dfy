/** src/main.py: `parse_config`'s search-model defaulting, and the `while True` turn loop
    that drives the store, the engine, the search tool and the view. The collaborators main.py
    calls but the repository does not define (`add_system_message`, `add_user_message`,
    `add_search_message`, `add_assistant_message`, `determine_search`,
    `no_thinking_main_fallback`, and `handle_command` as main.py calls it) are abstract events;
    what the user types, what the classifier decides, what the search returns (or that it
    raised) and how each stream request goes are scripted per turn. */
module MainLoop {
  import opened Wrappers
  import opened Seqs
  import opened Text
  import opened Models
  import View
  import ChatMemory
  import Search

  // ------------------------------------------------------------ parse_config

  /** A TOML value as far as `parse_config` looks at it. */
  datatype ConfigValue = Str(s: string) | Null | Other

  datatype ConfigError = KeyError(key: string)

  type Section = map<string, ConfigValue>

  /** The four sections `parse_config` hands to the config records. */
  datatype ParsedConfig = ParsedConfig(modelSettings: Section, searchSettings: Section, userData: Section, styleSettings: Section)

  /** The loaded config dict, which `parse_config` mutates in place. */
  class ConfigData {
    var data: map<string, Section>

    constructor (data: map<string, Section>)
      ensures this.data == data
    {
      this.data := data;
    }
  }

  /** The `model_settings` section after the defaulting step: an empty `search_model`, or a
      `main_model` of None, makes `search_model` a copy of `main_model`. Both keys must exist
      (the `or` reads `search_model` first, then `main_model` either in the test or in the
      assignment). */
  function DefaultSearchModel(ms: Section): (r: Result<Section, ConfigError>)
    ensures r.Failure? <==> "search_model" !in ms || "main_model" !in ms
    ensures r.Success? ==> r.value.Keys == ms.Keys
    ensures r.Success? ==> forall k :: k in ms && k != "search_model" ==> r.value[k] == ms[k]
    ensures r.Success? ==> r.value["search_model"]
                           == if ms["search_model"] == Str("") || ms["main_model"] == Null then ms["main_model"]
                              else ms["search_model"]
  {
    if "search_model" !in ms then Failure(KeyError("search_model"))
    else if ms["search_model"] == Str("") then
      if "main_model" !in ms then Failure(KeyError("main_model"))
      else Success(ms["search_model" := ms["main_model"]])
    else if "main_model" !in ms then Failure(KeyError("main_model"))
    else if ms["main_model"] == Null then Success(ms["search_model" := ms["main_model"]])
    else Success(ms)
  }

  /** Defaulting is idempotent: a normalised section is left as it is. */
  lemma DefaultSearchModelIdempotent(ms: Section)
    requires DefaultSearchModel(ms).Success?
    ensures DefaultSearchModel(DefaultSearchModel(ms).value) == DefaultSearchModel(ms)
  {
    var once := DefaultSearchModel(ms).value;
    var twice := DefaultSearchModel(once).value;
    assert twice.Keys == once.Keys;
    forall k | k in once ensures twice[k] == once[k] { }
    assert twice == once;
  }

  /** After defaulting, a configured search model is never the empty string unless the main
      model is itself the empty string. */
  lemma DefaultedSearchModelNonEmpty(ms: Section)
    requires DefaultSearchModel(ms).Success?
    requires ms["main_model"] != Str("")
    ensures DefaultSearchModel(ms).value["search_model"] != Str("")
  {
  }

  /** `parse_config`: the defaulting is written back into the dict before the other three
      sections are looked up, so it persists even when one of them is missing. */
  method ParseConfig(config: ConfigData) returns (r: Result<ParsedConfig, ConfigError>)
    modifies config
    ensures "model_settings" !in old(config.data) ==> r == Failure(KeyError("model_settings")) && config.data == old(config.data)
    ensures "model_settings" in old(config.data) && DefaultSearchModel(old(config.data)["model_settings"]).Failure? ==>
              r == Failure(DefaultSearchModel(old(config.data)["model_settings"]).error) && config.data == old(config.data)
    ensures "model_settings" in old(config.data) && DefaultSearchModel(old(config.data)["model_settings"]).Success? ==>
              && config.data == old(config.data)["model_settings" := DefaultSearchModel(old(config.data)["model_settings"]).value]
              && (r.Success? <==> "search_settings" in config.data && "user_data" in config.data && "style_settings" in config.data)
              && (r.Success? ==> r.value == ParsedConfig(config.data["model_settings"], config.data["search_settings"],
                                                         config.data["user_data"], config.data["style_settings"]))
  {
    if "model_settings" !in config.data {
      return Failure(KeyError("model_settings"));
    }
    var normalised := DefaultSearchModel(config.data["model_settings"]);
    if normalised.Failure? {
      return Failure(normalised.error);
    }
    config.data := config.data["model_settings" := normalised.value];
    if "search_settings" !in config.data {
      return Failure(KeyError("search_settings"));
    }
    if "user_data" !in config.data {
      return Failure(KeyError("user_data"));
    }
    if "style_settings" !in config.data {
      return Failure(KeyError("style_settings"));
    }
    r := Success(ParsedConfig(config.data["model_settings"], config.data["search_settings"],
                              config.data["user_data"], config.data["style_settings"]));
  }

  // ------------------------------------------------------------ the turn loop

  /** What `determine_search` answers. */
  datatype Decision = Decision(needsSearch: bool, searchTerm: string)

  /** What `text_query` hands back, as main.py reads it. */
  datatype SearchData = SearchData(notifications: seq<string>, context: string)

  /** How one `get_response_stream` + `live_response` attempt goes: the chunks it streams,
      or an `ollama.ResponseError`. */
  datatype StreamOutcome = Streamed(chunks: seq<View.Chunk>) | ResponseError

  /** Everything the environment supplies for one iteration of the loop. */
  datatype Turn = Turn(
    input: string,             // view.get_user_input()
    commandRaises: bool,       // whether handle_command raised
    newId: int,                // the id create_conversation assigns
    decision: Decision,
    search: Result<SearchData, Search.SearchError>,  // text_query's data, or the Exception it raises
    time: string,
    first: StreamOutcome,
    retry: StreamOutcome)

  /** The operations one iteration performs, in order. */
  datatype Event =
    | Command(input: string)
    | CreateConversation(title: string)
    | AddSystemMessage
    | AddUserMessage(content: string)
    | DetermineSearch
    | WebSearch(term: string)
    | AddSearchMessage(context: string)
    | RequestStream
    | Shown(frames: seq<seq<View.Panel>>)
    | ThinkingUnavailable
    | NoThinkingFallback
    | AddAssistantMessage(response: ModelResponse)
    | ShowSources(notifications: seq<string>)

  /** How the loop ended: `/exit`, input exhausted (KeyboardInterrupt is swallowed), or an
      exception escaping `main`. */
  datatype RunOutcome = Exited | InputEnded | Crashed

  /** The display settings `live_response` gets. */
  datatype Styles = Styles(mainModel: string, assistant: string, thinking: string)

  /** The title of a new conversation: the first ten words, joined by single spaces. */
  function Title(userInput: string): string {
    var words := Words(userInput);
    Join(words[..if |words| < 10 then |words| else 10], " ")
  }

  /** The title holds exactly the first ten words of the input (all of them if fewer). */
  lemma TitleWords(userInput: string)
    ensures var w := Words(userInput);
            Words(Title(userInput)) == w[..if |w| < 10 then |w| else 10]
  {
    var w := Words(userInput);
    var n := if |w| < 10 then |w| else 10;
    assert forall k :: 0 <= k < n ==> w[..n][k] == w[k];
    WordsOfJoin(w[..n]);
  }

  predicate IsCommand(userInput: string) {
    |userInput| > 0 && Lower(userInput)[0] == '/'
  }

  predicate IsExit(userInput: string) {
    Lower(userInput) == "/exit"
  }

  /** The ordinary turns: non-empty, not `/exit`, not a command. */
  predicate IsChat(userInput: string) {
    userInput != "" && !IsExit(userInput) && !IsCommand(userInput)
  }

  /** The result of one iteration: its events, the current id after it, and whether the
      loop stops. */
  datatype Step = Step(events: seq<Event>, current: Option<int>, stop: Option<RunOutcome>)

  /** A new conversation, with its system message, when none is current. */
  function Opening(current: Option<int>, t: Turn): seq<Event> {
    if !ChatMemory.Truthy(current) then [CreateConversation(Title(t.input)), AddSystemMessage] else []
  }

  /** The current id after an ordinary turn. */
  function NextCurrent(current: Option<int>, t: Turn): Option<int> {
    if !ChatMemory.Truthy(current) then Some(t.newId) else current
  }

  /** A search was decided and `text_query` raised; nothing in the loop catches it. */
  predicate SearchRaised(t: Turn) {
    t.decision.needsSearch && t.search.Failure?
  }

  /** The search part: the query and, when it answered, the persisted results, when a
      search was decided. */
  function SearchPart(t: Turn): seq<Event> {
    if t.decision.needsSearch then
      [WebSearch(t.decision.searchTerm)] + (if t.search.Success? then [AddSearchMessage(t.search.value.context)] else [])
    else []
  }

  /** `notifications` at the end of the turn: reset to [] and replaced only by a search. */
  function Notifications(t: Turn): seq<string> {
    if t.decision.needsSearch && t.search.Success? then t.search.value.notifications else []
  }

  /** The response that a finished stream yields: what `live_response` returns. */
  function Finalised(chunks: seq<View.Chunk>): ModelResponse {
    ModelResponse(View.Thoughts(chunks), View.Content(chunks))
  }

  /** The response part of a chat turn: a first attempt and, after a ResponseError, one
      retry with thinking switched off; a second error escapes (no response). */
  function Respond(t: Turn, st: Styles): (seq<Event>, Option<ModelResponse>) {
    match t.first
    case Streamed(chunks) =>
      ([RequestStream, Shown(View.Frames(chunks, st.mainModel, t.time, st.assistant, st.thinking))], Some(Finalised(chunks)))
    case ResponseError =>
      match t.retry
      case Streamed(chunks) =>
        ([RequestStream, ThinkingUnavailable, NoThinkingFallback, RequestStream,
          Shown(View.Frames(chunks, st.mainModel, t.time, st.assistant, st.thinking))], Some(Finalised(chunks)))
      case ResponseError =>
        ([RequestStream, ThinkingUnavailable, NoThinkingFallback, RequestStream], None)
  }

  /** The response part as the turn reaches it: nothing at all when the search raised. */
  function Answer(t: Turn, st: Styles): (seq<Event>, Option<ModelResponse>) {
    if SearchRaised(t) then ([], None) else Respond(t, st)
  }

  /** What follows a response: the assistant message, then the sources if there are any. */
  function Closing(t: Turn, response: Option<ModelResponse>): seq<Event> {
    match response
    case None => []
    case Some(r) => [AddAssistantMessage(r)] + (if Notifications(t) != [] then [ShowSources(Notifications(t))] else [])
  }

  /** The events of an ordinary turn, in order. */
  function ChatEvents(current: Option<int>, t: Turn, st: Styles): seq<Event> {
    Opening(current, t) + [AddUserMessage(t.input), DetermineSearch] + SearchPart(t)
    + Answer(t, st).0 + Closing(t, Answer(t, st).1)
  }

  /** One iteration of `while True`. */
  function TurnStep(current: Option<int>, t: Turn, st: Styles): Step {
    if t.input == "" then Step([], current, None)
    else if IsExit(t.input) then Step([], current, Some(Exited))
    else if IsCommand(t.input) then Step([Command(t.input)], current, if t.commandRaises then Some(Crashed) else None)
    else Step(ChatEvents(current, t, st), NextCurrent(current, t), if Answer(t, st).1.None? then Some(Crashed) else None)
  }

  datatype RunResult = RunResult(trace: seq<Event>, outcome: RunOutcome, current: Option<int>)

  /** The whole loop over a scripted input sequence. */
  function RunSpec(turns: seq<Turn>, current: Option<int>, st: Styles): RunResult {
    if turns == [] then RunResult([], InputEnded, current)
    else
      var s := TurnStep(current, turns[0], st);
      if s.stop.Some? then RunResult(s.events, s.stop.value, s.current)
      else
        var rest := RunSpec(turns[1..], s.current, st);
        RunResult(s.events + rest.trace, rest.outcome, rest.current)
  }

  /** The `try`/`except ollama.ResponseError` block: request and display the response,
      and on an error announce it, switch thinking off and request once more. */
  method GetResponse(t: Turn, st: Styles) returns (events: seq<Event>, aiResponse: Option<ModelResponse>)
    ensures (events, aiResponse) == Respond(t, st)
  {
    match t.first {
      case Streamed(chunks) =>
        var frames, response := View.LiveResponse(st.mainModel, t.time, chunks, st.assistant, st.thinking);
        events := [RequestStream, Shown(frames)];
        aiResponse := Some(response);
      case ResponseError =>
        match t.retry {
          case ResponseError =>
            events := [RequestStream, ThinkingUnavailable, NoThinkingFallback, RequestStream];
            aiResponse := None;
          case Streamed(chunks) =>
            var frames, response := View.LiveResponse(st.mainModel, t.time, chunks, st.assistant, st.thinking);
            events := [RequestStream, ThinkingUnavailable, NoThinkingFallback, RequestStream, Shown(frames)];
            aiResponse := Some(response);
        }
    }
  }

  /** One iteration, performed step by step. */
  method RunTurn(current: Option<int>, t: Turn, st: Styles) returns (events: seq<Event>, current': Option<int>, stop: Option<RunOutcome>)
    ensures Step(events, current', stop) == TurnStep(current, t, st)
  {
    events, current', stop := [], current, None;
    if t.input == "" {
      return;
    }
    if Lower(t.input) == "/exit" {
      stop := Some(Exited);
      return;
    }
    if |t.input| > 0 && Lower(t.input)[0] == '/' {
      events := [Command(t.input)];
      if t.commandRaises {
        stop := Some(Crashed);
      }
      return;
    }
    if !ChatMemory.Truthy(current) {
      var words := Words(t.input);
      var truncatedMessage := Join(words[..if |words| < 10 then |words| else 10], " ");
      events := events + [CreateConversation(truncatedMessage), AddSystemMessage];
      current' := Some(t.newId);
    }
    assert events == Opening(current, t);
    events := events + [AddUserMessage(t.input)];
    var notifications: seq<string> := [];
    events := events + [DetermineSearch];
    if t.decision.needsSearch {
      events := events + [WebSearch(t.decision.searchTerm)];
      if t.search.Failure? {
        assert events == ChatEvents(current, t, st) by {
          assert SearchPart(t) == [WebSearch(t.decision.searchTerm)];
          assert Answer(t, st) == ([], None) && Closing(t, None) == [];
        }
        stop := Some(Crashed);
        return;
      }
      notifications := t.search.value.notifications;
      events := events + [AddSearchMessage(t.search.value.context)];
    }
    assert events == Opening(current, t) + [AddUserMessage(t.input), DetermineSearch] + SearchPart(t);
    assert notifications == Notifications(t);
    assert Answer(t, st) == Respond(t, st);
    var responseEvents, aiResponse := GetResponse(t, st);
    events := events + responseEvents;
    if aiResponse.None? {
      stop := Some(Crashed);
      return;
    }
    events := events + [AddAssistantMessage(aiResponse.value)];
    if notifications != [] {
      events := events + [ShowSources(notifications)];
    }
  }

  /** One step of the run: the turn at `i`, then the rest unless it stops. */
  lemma RunSpecUnfold(turns: seq<Turn>, i: nat, current: Option<int>, st: Styles)
    requires i < |turns|
    ensures var s := TurnStep(current, turns[i], st);
            RunSpec(turns[i..], current, st)
            == if s.stop.Some? then RunResult(s.events, s.stop.value, s.current)
               else var rest := RunSpec(turns[i + 1..], s.current, st);
                    RunResult(s.events + rest.trace, rest.outcome, rest.current)
  {
    assert turns[i..][0] == turns[i] && turns[i..][1..] == turns[i + 1..];
  }

  /** `main`'s loop: turns are taken one at a time until one stops the loop or the input
      runs out. */
  method Run(turns: seq<Turn>, current0: Option<int>, st: Styles) returns (trace: seq<Event>, outcome: RunOutcome, current: Option<int>)
    ensures RunResult(trace, outcome, current) == RunSpec(turns, current0, st)
  {
    trace, current := [], current0;
    var i := 0;
    while i < |turns|
      invariant 0 <= i <= |turns|
      invariant var rest := RunSpec(turns[i..], current, st);
                RunSpec(turns, current0, st) == RunResult(trace + rest.trace, rest.outcome, rest.current)
    {
      RunSpecUnfold(turns, i, current, st);
      var events, next, stop := RunTurn(current, turns[i], st);
      if stop.Some? {
        return trace + events, stop.value, next;
      }
      var rest := RunSpec(turns[i + 1..], next, st);
      assert trace + (events + rest.trace) == (trace + events) + rest.trace;
      trace, current := trace + events, next;
      i := i + 1;
    }
    outcome := InputEnded;
  }

  // ------------------------------------------------------------ properties of the loop

  predicate IsCreate(e: Event) {
    e.CreateConversation?
  }

  predicate IsStoreWrite(e: Event) {
    e.CreateConversation? || e.AddSystemMessage? || e.AddUserMessage? || e.AddSearchMessage? || e.AddAssistantMessage?
  }

  predicate IsRequest(e: Event) {
    e.RequestStream?
  }

  /** Ids the store hands out are positive (SQLite rowids start at 1). */
  predicate PositiveIds(turns: seq<Turn>) {
    forall k :: 0 <= k < |turns| ==> turns[k].newId >= 1
  }

  /** A turn's events split into its five parts, and so do the events any filter keeps. */
  lemma ChatEventsParts(current: Option<int>, t: Turn, st: Styles, p: Event -> bool)
    ensures Filter(ChatEvents(current, t, st), p)
            == Filter(Opening(current, t), p) + Filter([AddUserMessage(t.input), DetermineSearch], p)
               + Filter(SearchPart(t), p) + Filter(Answer(t, st).0, p) + Filter(Closing(t, Answer(t, st).1), p)
  {
    var a, b, c, d, e := Opening(current, t), [AddUserMessage(t.input), DetermineSearch], SearchPart(t),
                         Answer(t, st).0, Closing(t, Answer(t, st).1);
    FilterConcat(a + b + c + d, e, p);
    FilterConcat(a + b + c, d, p);
    FilterConcat(a + b, c, p);
    FilterConcat(a, b, p);
  }

  /** What each part of a turn contributes to the three filters the properties use. */
  lemma OpeningFilters(current: Option<int>, t: Turn)
    ensures Filter(Opening(current, t), IsCreate) == if ChatMemory.Truthy(current) then [] else [CreateConversation(Title(t.input))]
    ensures Filter(Opening(current, t), IsStoreWrite) == Opening(current, t)
    ensures Filter(Opening(current, t), IsRequest) == []
  {
    if !ChatMemory.Truthy(current) {
      var x, y := CreateConversation(Title(t.input)), AddSystemMessage;
      FilterPairExact(x, y, IsCreate);
      FilterPairExact(x, y, IsStoreWrite);
      FilterPairExact(x, y, IsRequest);
    }
  }

  lemma MiddleFilters(t: Turn)
    ensures Filter([AddUserMessage(t.input), DetermineSearch], IsCreate) == []
    ensures Filter([AddUserMessage(t.input), DetermineSearch], IsStoreWrite) == [AddUserMessage(t.input)]
    ensures Filter([AddUserMessage(t.input), DetermineSearch], IsRequest) == []
  {
    var x, y := AddUserMessage(t.input), DetermineSearch;
    FilterPairExact(x, y, IsCreate);
    FilterPairExact(x, y, IsStoreWrite);
    FilterPairExact(x, y, IsRequest);
  }

  /** The search results persisted by a turn: those of a search that answered. */
  function SearchWrites(t: Turn): seq<Event> {
    if t.decision.needsSearch && t.search.Success? then [AddSearchMessage(t.search.value.context)] else []
  }

  lemma SearchFilters(t: Turn)
    ensures Filter(SearchPart(t), IsCreate) == []
    ensures Filter(SearchPart(t), IsStoreWrite) == SearchWrites(t)
    ensures Filter(SearchPart(t), IsRequest) == []
  {
    if t.decision.needsSearch {
      if t.search.Success? {
        var x, y := WebSearch(t.decision.searchTerm), AddSearchMessage(t.search.value.context);
        FilterPairExact(x, y, IsCreate);
        FilterPairExact(x, y, IsStoreWrite);
        FilterPairExact(x, y, IsRequest);
      } else {
        var x := WebSearch(t.decision.searchTerm);
        assert SearchPart(t) == [x];
        FilterSingle(x, IsCreate);
        FilterSingle(x, IsStoreWrite);
        FilterSingle(x, IsRequest);
      }
    }
  }

  lemma AnswerFilters(t: Turn, st: Styles)
    ensures Filter(Answer(t, st).0, IsCreate) == []
    ensures Filter(Answer(t, st).0, IsStoreWrite) == []
  {
    var r := Answer(t, st).0;
    assert forall k :: 0 <= k < |r| ==> !IsStoreWrite(r[k]) && !IsCreate(r[k]);
    FilterAllOrNone(r, IsCreate);
    FilterAllOrNone(r, IsStoreWrite);
  }

  lemma AnswerRequests(t: Turn, st: Styles)
    ensures |Filter(Answer(t, st).0, IsRequest)| == if SearchRaised(t) then 0 else if t.first.ResponseError? then 2 else 1
  {
    var r := Answer(t, st).0;
    if SearchRaised(t) {
    } else if t.first.Streamed? {
      assert r == [RequestStream, r[1]];
      FilterPairExact(RequestStream, r[1], IsRequest);
    } else {
      var front, back, tail := [RequestStream, ThinkingUnavailable], [NoThinkingFallback, RequestStream], r[4..];
      assert r == front + back + tail;
      FilterConcat(front + back, tail, IsRequest);
      FilterConcat(front, back, IsRequest);
      FilterPairExact(RequestStream, ThinkingUnavailable, IsRequest);
      FilterPairExact(NoThinkingFallback, RequestStream, IsRequest);
      assert forall k :: 0 <= k < |tail| ==> !IsRequest(tail[k]);
      FilterAllOrNone(tail, IsRequest);
    }
  }

  lemma ClosingFilters(t: Turn, response: Option<ModelResponse>)
    ensures Filter(Closing(t, response), IsCreate) == []
    ensures Filter(Closing(t, response), IsStoreWrite) == if response.Some? then [AddAssistantMessage(response.value)] else []
    ensures Filter(Closing(t, response), IsRequest) == []
  {
    var c := Closing(t, response);
    FilterAllOrNone(c, IsCreate);
    FilterAllOrNone(c, IsRequest);
    if response.Some? {
      var sources := if Notifications(t) != [] then [ShowSources(Notifications(t))] else [];
      FilterConcat([AddAssistantMessage(response.value)], sources, IsStoreWrite);
      FilterSingle(AddAssistantMessage(response.value), IsStoreWrite);
      FilterAllOrNone(sources, IsStoreWrite);
    }
  }

  /** Only the opening of a turn creates a conversation. */
  lemma ChatEventsCreates(current: Option<int>, t: Turn, st: Styles)
    ensures Count(ChatEvents(current, t, st), IsCreate) == if ChatMemory.Truthy(current) then 0 else 1
  {
    ChatEventsParts(current, t, st, IsCreate);
    OpeningFilters(current, t);
    MiddleFilters(t);
    SearchFilters(t);
    AnswerFilters(t, st);
    ClosingFilters(t, Answer(t, st).1);
  }

  /** One iteration creates a conversation exactly when it is an ordinary turn and none is
      current; a current conversation stays current, and an ordinary turn leaves one. */
  lemma TurnCreates(current: Option<int>, t: Turn, st: Styles)
    requires t.newId >= 1
    ensures var s := TurnStep(current, t, st);
            && Count(s.events, IsCreate) == (if IsChat(t.input) && !ChatMemory.Truthy(current) then 1 else 0)
            && (ChatMemory.Truthy(current) ==> s.current == current)
            && (IsChat(t.input) ==> ChatMemory.Truthy(s.current))
            && (!IsChat(t.input) ==> s.current == current)
  {
    if IsChat(t.input) {
      ChatEventsCreates(current, t, st);
    }
  }

  /** A conversation is created at most once per run, and never when one is already
      current; once current, a conversation stays current. */
  lemma {:induction false} AtMostOneConversation(turns: seq<Turn>, current: Option<int>, st: Styles)
    requires PositiveIds(turns)
    ensures var r := RunSpec(turns, current, st);
            Count(r.trace, IsCreate) <= (if ChatMemory.Truthy(current) then 0 else 1)
            && (ChatMemory.Truthy(current) ==> r.current == current)
  {
    if turns != [] {
      var s := TurnStep(current, turns[0], st);
      TurnCreates(current, turns[0], st);
      if s.stop.None? {
        assert PositiveIds(turns[1..]) by {
          forall k | 0 <= k < |turns[1..]| ensures turns[1..][k].newId >= 1 {
            assert turns[1..][k] == turns[k + 1];
          }
        }
        AtMostOneConversation(turns[1..], s.current, st);
        var rest := RunSpec(turns[1..], s.current, st);
        FilterConcat(s.events, rest.trace, IsCreate);
      }
    }
  }

  /** What a turn persists before its closing part, whether or not a response came. */
  lemma StoreWritesBeforeClosing(current: Option<int>, t: Turn, st: Styles)
    ensures Filter(ChatEvents(current, t, st), IsStoreWrite)
            == Opening(current, t)
               + [AddUserMessage(t.input)]
               + SearchWrites(t)
               + Filter(Closing(t, Answer(t, st).1), IsStoreWrite)
  {
    var closing := Filter(Closing(t, Answer(t, st).1), IsStoreWrite);
    var fa, fb, fc, fd :=
      Filter(Opening(current, t), IsStoreWrite), Filter([AddUserMessage(t.input), DetermineSearch], IsStoreWrite),
      Filter(SearchPart(t), IsStoreWrite), Filter(Answer(t, st).0, IsStoreWrite);
    assert Filter(ChatEvents(current, t, st), IsStoreWrite) == fa + fb + fc + fd + closing by {
      ChatEventsParts(current, t, st, IsStoreWrite);
    }
    assert fa == Opening(current, t) by { OpeningFilters(current, t); }
    assert fb == [AddUserMessage(t.input)] by { MiddleFilters(t); }
    assert fc == SearchWrites(t) by { SearchFilters(t); }
    assert fd == [] by { AnswerFilters(t, st); }
  }

  /** A turn whose first attempt or retry streamed yields that attempt's response. */
  lemma RespondSucceeds(t: Turn, st: Styles)
    requires t.first.Streamed? || t.retry.Streamed?
    ensures Respond(t, st).1 == Some(Finalised(if t.first.Streamed? then t.first.chunks else t.retry.chunks))
  {
  }

  /** The persistence order of an ordinary turn that completes: title and system message
      (only for a new conversation), then the user message, then the search message (only
      when a search was decided), then the assistant message carrying the response of the
      attempt that succeeded. */
  lemma ChatTurnWrites(current: Option<int>, t: Turn, st: Styles)
    requires !SearchRaised(t)
    requires t.first.Streamed? || t.retry.Streamed?
    ensures Filter(ChatEvents(current, t, st), IsStoreWrite)
            == Opening(current, t)
               + [AddUserMessage(t.input)]
               + (if t.decision.needsSearch then [AddSearchMessage(t.search.value.context)] else [])
               + [AddAssistantMessage(Finalised(if t.first.Streamed? then t.first.chunks else t.retry.chunks))]
  {
    var response := Finalised(if t.first.Streamed? then t.first.chunks else t.retry.chunks);
    StoreWritesBeforeClosing(current, t, st);
    RespondSucceeds(t, st);
    ClosingFilters(t, Some(response));
  }

  /** Unless the search raised, the stream is requested once, or twice after a
      ResponseError; the turn crashes exactly when the search raised or both attempts fail,
      and then no assistant message is persisted. */
  lemma OneRetry(current: Option<int>, t: Turn, st: Styles)
    ensures Count(ChatEvents(current, t, st), IsRequest)
            == (if SearchRaised(t) then 0 else if t.first.ResponseError? then 2 else 1)
    ensures Answer(t, st).1.None? <==> SearchRaised(t) || (t.first.ResponseError? && t.retry.ResponseError?)
    ensures Answer(t, st).1.None? ==> Closing(t, Answer(t, st).1) == []
  {
    ChatEventsParts(current, t, st, IsRequest);
    OpeningFilters(current, t);
    MiddleFilters(t);
    SearchFilters(t);
    AnswerRequests(t, st);
    ClosingFilters(t, Answer(t, st).1);
  }

  /** A search that raises ends the loop with the exception: after the query nothing more
      happens, so the turn persists only its opening and the user message. */
  lemma SearchRaiseEndsTurn(current: Option<int>, t: Turn, st: Styles)
    requires IsChat(t.input) && SearchRaised(t)
    ensures var s := TurnStep(current, t, st);
            && s.stop == Some(Crashed)
            && s.events == Opening(current, t) + [AddUserMessage(t.input), DetermineSearch, WebSearch(t.decision.searchTerm)]
            && Filter(s.events, IsStoreWrite) == Opening(current, t) + [AddUserMessage(t.input)]
  {
    StoreWritesBeforeClosing(current, t, st);
    assert SearchPart(t) == [WebSearch(t.decision.searchTerm)];
  }

  /** Sources are shown only after a search that produced notifications, and only once the
      reply is persisted, as the last event of the turn. */
  lemma SourcesOnlyAfterSearch(current: Option<int>, t: Turn, st: Styles)
    ensures var e := ChatEvents(current, t, st);
            e[|e| - 1].ShowSources? <==>
              Answer(t, st).1.Some? && t.decision.needsSearch && t.search.Success? && t.search.value.notifications != []
  {
  }

  /** Empty input changes nothing and the loop goes on; `/exit` in any letter case ends it;
      other "/" input is one command and persists nothing. */
  lemma NonChatInput(current: Option<int>, t: Turn, st: Styles)
    ensures t.input == "" ==> TurnStep(current, t, st) == Step([], current, None)
    ensures t.input != "" && IsExit(t.input) ==> TurnStep(current, t, st) == Step([], current, Some(Exited))
    ensures t.input != "" && !IsExit(t.input) && IsCommand(t.input) ==>
              TurnStep(current, t, st).events == [Command(t.input)] && TurnStep(current, t, st).current == current
  {
  }
}
