/** The model-facing side of src/engine.py: the append-only message log with its fixed
    content templates, and the availability check `get_models` performs on the list of
    installed model names. The Ollama calls themselves are not modelled; what `ollama.list`
    answers is a parameter. */
module Engine {
  import opened Wrappers
  import opened Models

  const NumCtx: int := 16384

  /** What `ollama.list()` answers: the installed names, or one of the two failures the
      method treats specially. */
  datatype Listing =
    | Installed(names: seq<string>)
    | Unreachable                      // ConnectionError
    | ServerError(reason: string)      // ollama.ResponseError

  /** The exception `get_models` ends with. */
  datatype EngineError =
    | Exception(message: string)
    | ConnectionError(message: string)
    | ResponseError(reason: string)

  const Hint: string := "\nIs it configured correctly in config.yaml?\nHint: Run 'ollama list' to list installed models"

  const ConnectMessage: string := "Could not connect to Ollama.\nIs the service running?"

  /** The decision of `get_models`: the listing when both models are installed, else the
      error the first matching branch raises. */
  function GetModels(model: string, searchTermModel: string, listing: Listing): (r: Result<seq<string>, EngineError>)
    ensures r.Success? <==> listing.Installed? && model in listing.names && searchTermModel in listing.names
    ensures r.Success? ==> r.value == listing.names
    ensures listing.Unreachable? ==> r == Failure(ConnectionError(ConnectMessage))
    ensures listing.ServerError? ==> r == Failure(ResponseError(listing.reason))
  {
    match listing
    case Unreachable => Failure(ConnectionError(ConnectMessage))
    case ServerError(reason) => Failure(ResponseError(reason))
    case Installed(names) =>
      var hasMain := model in names;
      var hasSub := searchTermModel in names;
      if !hasMain && !hasSub && model != searchTermModel then
        Failure(Exception("Model '" + model + "' and sub-model '" + searchTermModel + "' are not installed." + Hint))
      else if !hasMain then
        Failure(Exception("Model '" + model + "' not installed." + Hint))
      else if !hasSub then
        Failure(Exception("Sub-model '" + searchTermModel + "' not installed.?" + Hint))
      else Success(names)
  }

  /** Which error is chosen, branch by branch, when the server answers. */
  lemma GetModelsErrorChoice(model: string, searchTermModel: string, names: seq<string>)
    ensures model !in names && searchTermModel !in names && model != searchTermModel ==>
              GetModels(model, searchTermModel, Installed(names))
              == Failure(Exception("Model '" + model + "' and sub-model '" + searchTermModel + "' are not installed." + Hint))
    ensures model !in names && (searchTermModel in names || model == searchTermModel) ==>
              GetModels(model, searchTermModel, Installed(names))
              == Failure(Exception("Model '" + model + "' not installed." + Hint))
    ensures model in names && searchTermModel !in names ==>
              GetModels(model, searchTermModel, Installed(names))
              == Failure(Exception("Sub-model '" + searchTermModel + "' not installed.?" + Hint))
  {
  }

  /** The content `set_system_message` writes. */
  function SystemContent(initialContext: string, today: string, initialInstructions: string): (c: string)
    ensures |c| == 39 + |initialContext| + |today| + |initialInstructions|
    ensures c[..9] == "CONTEXT: "
    ensures c[|c| - |initialInstructions| - 15..] == "\nINSTRUCTIONS: " + initialInstructions
  {
    "CONTEXT: " + initialContext + "\nCURRENT DATE: " + today + "\nINSTRUCTIONS: " + initialInstructions
  }

  const SearchPrefix: string := "INTERNET SEARCH RESULTS:\n"

  /** The message `add_search_message` writes: a `user` entry carrying the results after a
      fixed header. */
  function SearchMessage(content: string): (m: Message)
    ensures m.role == "user"
    ensures |m.content| == |SearchPrefix| + |content|
    ensures m.content[..|SearchPrefix|] == SearchPrefix && m.content[|SearchPrefix|..] == content
  {
    Message("user", SearchPrefix + content)
  }

  /** The search results can be read back from the message that carries them, so different
      results give different messages. */
  lemma SearchMessageInjective(a: string, b: string)
    requires SearchMessage(a) == SearchMessage(b)
    ensures a == b
  {
    assert a == SearchMessage(a).content[|SearchPrefix|..];
  }

  class AIEngine {
    var model: string
    var searchTermModel: string
    var routerModel: string
    var numCtx: int
    var models: seq<string>
    var messages: seq<Message>

    /** `__init__` after `get_models` succeeded with `installed`. */
    constructor (model: string, searchTermModel: string, routerModel: string, installed: seq<string>)
      ensures this.model == model && this.searchTermModel == searchTermModel && this.routerModel == routerModel
      ensures numCtx == NumCtx && models == installed
      ensures messages == []
    {
      this.model := model;
      this.searchTermModel := searchTermModel;
      this.routerModel := routerModel;
      numCtx := NumCtx;
      models := installed;
      messages := [];
    }

    /** `__init__` as a whole: it raises what `get_models` raises, else yields a fresh engine
        with an empty log. */
    static method Create(model: string, searchTermModel: string, routerModel: string, listing: Listing)
      returns (r: Result<AIEngine, EngineError>)
      ensures r.Failure? <==> GetModels(model, searchTermModel, listing).Failure?
      ensures r.Failure? ==> r.error == GetModels(model, searchTermModel, listing).error
      ensures r.Success? ==> fresh(r.value) && r.value.messages == [] && r.value.numCtx == NumCtx
                             && r.value.model == model && r.value.searchTermModel == searchTermModel
    {
      var m := GetModels(model, searchTermModel, listing);
      if m.Failure? {
        return Failure(m.error);
      }
      var e := new AIEngine(model, searchTermModel, routerModel, m.value);
      r := Success(e);
    }

    /** Appends the `system` entry; `userData` is accepted and not used. */
    method SetSystemMessage(initialContext: string, initialInstructions: string, userData: Option<string>, today: string)
      modifies this
      ensures messages == old(messages) + [Message("system", SystemContent(initialContext, today, initialInstructions))]
      ensures model == old(model) && searchTermModel == old(searchTermModel) && numCtx == old(numCtx)
      ensures routerModel == old(routerModel) && models == old(models)
    {
      messages := messages + [Message("system", SystemContent(initialContext, today, initialInstructions))];
    }

    method AddUserMessage(content: string)
      modifies this
      ensures messages == old(messages) + [Message("user", content)]
      ensures model == old(model) && searchTermModel == old(searchTermModel) && numCtx == old(numCtx)
      ensures routerModel == old(routerModel) && models == old(models)
    {
      messages := messages + [Message("user", content)];
    }

    method AddAssistantMessage(content: string)
      modifies this
      ensures messages == old(messages) + [Message("assistant", content)]
      ensures model == old(model) && searchTermModel == old(searchTermModel) && numCtx == old(numCtx)
      ensures routerModel == old(routerModel) && models == old(models)
    {
      messages := messages + [Message("assistant", content)];
    }

    method AddSearchMessage(content: string)
      modifies this
      ensures messages == old(messages) + [SearchMessage(content)]
      ensures model == old(model) && searchTermModel == old(searchTermModel) && numCtx == old(numCtx)
      ensures routerModel == old(routerModel) && models == old(models)
    {
      messages := messages + [SearchMessage(content)];
    }
  }
}
