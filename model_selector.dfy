/**
 * The model picker of the content-generation page
 * (src/pages/content-generation/components/ModelSelector.jsx): the
 * classification of a model by its name, the lookup of the selected model,
 * and the effect of loading the daemon's model list.
 */
module ModelSelector {
  import opened Wrappers
  import Text
  import O = OllamaService

  /** The characteristics `getModelChar` attaches to a model. */
  datatype Traits = Traits(kind: string, icon: string, speed: string)

  /** The lowercased name contains `sub`. */
  predicate Has(name: string, sub: string) {
    Text.Contains(Text.ToLower(name), sub)
  }

  /** `getModelChar`: the first test that matches the lowercased name decides. */
  function ModelChar(name: string): Traits {
    if Has(name, "code") then Traits("Code", "\U{1F4BB}", "Medium")
    else if Has(name, "chat") || Has(name, "neural") then Traits("Chat", "\U{1F4AC}", "Fast")
    else if Has(name, "llama2:13b") || Has(name, "13b") then Traits("Large", "\U{1F9E0}", "Slow")
    else if Has(name, "mistral") then Traits("General", "\U{26A1}", "Fast")
    else if Has(name, "mini") || Has(name, "3b") then Traits("Compact", "\U{1F680}", "Ultra Fast")
    else Traits("General", "\U{1F916}", "Medium")
  }

  /** A name that contains `"13b"` also contains `"3b"`. */
  lemma ThirteenContainsThree(name: string)
    requires Has(name, "13b")
    ensures Has(name, "3b")
  {
    Text.ContainsTransitive(Text.ToLower(name), "13b", "3b", 1);
  }

  /**
   * The first match wins: any name with `code` is Code whatever else it holds,
   * and a `13b` name without code/chat/neural is Large although it also holds
   * `3b`, so the Compact test never sees it.
   */
  lemma FirstMatchWins(name: string)
    ensures Has(name, "code") ==> ModelChar(name).kind == "Code"
    ensures !Has(name, "code") && !Has(name, "chat") && !Has(name, "neural") && Has(name, "13b") ==>
              Has(name, "3b") && ModelChar(name).kind == "Large"
  {
    if Has(name, "13b") {
      ThirteenContainsThree(name);
    }
  }

  /** `codellama:13b` is classified as Code. */
  lemma CodeLlamaIsCode()
    ensures ModelChar("codellama:13b").kind == "Code"
  {
    var lower := Text.ToLower("codellama:13b");
    assert lower[0..4] == "code";
    assert Text.OccursAt(lower, "code", 0);
  }

  /** The `'llama2:13b'` test adds nothing to the `'13b'` test beside it. */
  lemma LlamaTestIsSubsumed(name: string)
    requires Has(name, "llama2:13b")
    ensures Has(name, "13b")
  {
    Text.ContainsTransitive(Text.ToLower(name), "llama2:13b", "13b", 7);
  }

  /** What `getModelInfo` returns: the listed model with its characteristics. */
  datatype ModelInfo = ModelInfo(model: O.ModelDescriptor, traits: Traits)

  /** `models.find(m => m.name === name)`: the index of the first model with that name. */
  function FindModel(models: seq<O.ModelDescriptor>, name: string): (r: Option<nat>)
    ensures r.None? <==> forall k | 0 <= k < |models| :: models[k].name != name
    ensures r.Some? ==> r.value < |models| && models[r.value].name == name
                        && forall k | 0 <= k < r.value :: models[k].name != name
    decreases |models|
  {
    if |models| == 0 then None
    else if models[0].name == name then Some(0)
    else
      var rest := FindModel(models[1..], name);
      if rest.None? then None else Some(rest.value + 1)
  }

  /** `getModelInfo`: null for a name not in the list, else the first such model and its characteristics. */
  function GetModelInfo(models: seq<O.ModelDescriptor>, name: string): (r: Option<ModelInfo>)
    ensures r.None? <==> forall k | 0 <= k < |models| :: models[k].name != name
    ensures r.Some? ==> r.value.model in models && r.value.model.name == name
                        && r.value.traits == ModelChar(name)
  {
    var k := FindModel(models, name);
    if k.None? then None else Some(ModelInfo(models[k.value], ModelChar(name)))
  }

  const NoModelsFound := "No models found. Please install Ollama models first."

  /** The picker's own state. */
  class Picker {
    var models: seq<O.ModelDescriptor>
    var loading: bool
    var error: Option<string>

    /** The first render: no models, loading, no error. */
    constructor()
      ensures models == [] && loading && error == None
    {
      models := [];
      loading := true;
      error := None;
    }

    /**
     * `loadModels` over the daemon's reply. A successful, non-empty listing
     * replaces the models and, when no model is selected, returns the first
     * model's name for the page to select; an empty listing or a failure keeps
     * the old list and sets the error. Loading always ends.
     */
    method LoadModels(reply: O.Fetched, body: O.JsonRead<O.TagsBody>, selectedModel: string)
      returns (autoSelect: Option<string>)
      modifies this
      ensures !loading
      ensures var result := O.GetAvailableModels(reply, body);
        if result.success && |result.models| > 0 then
          && models == result.models && error == None
          && autoSelect == (if selectedModel == "" then Some(result.models[0].name) else None)
        else
          models == old(models) && error == Some(NoModelsFound) && autoSelect == None
    {
      loading := true;
      error := None;
      autoSelect := None;
      var result := O.GetAvailableModels(reply, body);
      if result.success && |result.models| > 0 {
        models := result.models;
        if selectedModel == "" {
          autoSelect := Some(result.models[0].name);
        }
      } else {
        error := Some(NoModelsFound);
      }
      loading := false;
    }

    /** `getModelInfo` over the loaded list. */
    function Info(name: string): Option<ModelInfo>
      reads this
    {
      GetModelInfo(models, name)
    }
  }
}
