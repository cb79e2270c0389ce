/** The placeholder inference backend (ModelManager.swift). Model loading and inference are stubs. */
module ModelManagers {
  import opened Wrappers

  datatype ModelError = ModelNotLoaded | InferenceError(message: string) | ModelNotFound

  const NotLoadedDescription: string := "Model has not been loaded yet"
  const InferencePrefix: string := "Inference failed: "
  const NotFoundDescription: string := "Core ML model file not found"

  /** `errorDescription`: a fixed text per error, the inference error's message after a fixed prefix. */
  function ErrorDescription(e: ModelError): (r: Option<string>)
    ensures r.Some?
    ensures e.InferenceError? ==> r.value == InferencePrefix + e.message
  {
    match e
    case ModelNotLoaded => Some(NotLoadedDescription)
    case InferenceError(message) => Some(InferencePrefix + message)
    case ModelNotFound => Some(NotFoundDescription)
  }

  /** `localizedDescription` of a `LocalizedError`: its `errorDescription`, which is never nil here. */
  function LocalizedDescription(e: ModelError): (r: string)
    ensures e == ModelNotLoaded ==> r == NotLoadedDescription
    ensures e.InferenceError? ==> r == InferencePrefix + e.message
    ensures e == ModelNotFound ==> r == NotFoundDescription
  {
    ErrorDescription(e).value
  }

  /** Different errors are described differently, so the description identifies the error. */
  lemma ErrorDescriptionsDistinct(e1: ModelError, e2: ModelError)
    requires e1 != e2
    ensures LocalizedDescription(e1) != LocalizedDescription(e2)
  {
    var d1, d2 := LocalizedDescription(e1), LocalizedDescription(e2);
    if e1.InferenceError? && e2.InferenceError? {
      assert d1[|InferencePrefix|..] == e1.message != e2.message == d2[|InferencePrefix|..];
    } else {
      assert d1[0] != d2[0];
    }
  }

  /** The text `generate` returns for every request. */
  const PlaceholderResponse: string :=
    "This is a placeholder response. Real Core ML inference will happen here once the model is integrated."

  /** What a streaming request yields: the tokens passed to `onToken`, then completion or an error. */
  datatype StreamResult = StreamResult(tokens: seq<string>, outcome: Option<ModelError>)

  class ModelManager {
    var isModelLoaded: bool

    /** A fresh manager has no model loaded. */
    constructor ()
      ensures !isModelLoaded
    {
      isModelLoaded := false;
    }

    /**
     * `loadModel`: after the simulated loading delay the model counts as loaded. The delay is the
     * only thing that can throw (when its task is cancelled); then the flag is left as it was.
     */
    method LoadModel(sleepCancelled: bool) returns (ok: bool)
      modifies this
      ensures ok == !sleepCancelled
      ensures isModelLoaded == (old(isModelLoaded) || ok)
    {
      if sleepCancelled {
        return false;
      }
      isModelLoaded := true;
      return true;
    }

    /** `generate`: the same placeholder text for every prompt, token limit and temperature; never fails. */
    function Generate(prompt: string, maxTokens: int, temperature: real): (r: Result<string, ModelError>)
      ensures r.Success? && r.value == PlaceholderResponse
    {
      Success(PlaceholderResponse)
    }

    /** `generateStreaming`: fails with `modelNotLoaded` before producing any token. */
    function GenerateStreaming(prompt: string, maxTokens: int, temperature: real): (r: StreamResult)
      ensures r.tokens == [] && r.outcome == Some(ModelNotLoaded)
    {
      StreamResult([], Some(ModelNotLoaded))
    }

    /** `modelInfo`: says whether the model is loaded. */
    function ModelInfo(): (r: string)
      reads this
      ensures isModelLoaded <==> r == "Model loaded (simulated mode)"
      ensures !isModelLoaded <==> r == "No model loaded"
    {
      if isModelLoaded then "Model loaded (simulated mode)" else "No model loaded"
    }

    /** `estimatedMemoryUsage`: nothing is loaded into memory yet. */
    function EstimatedMemoryUsage(): (r: int)
      ensures r == 0
    {
      0
    }
  }

  /** A manager's answer does not depend on what is asked or on whether it is loaded. */
  lemma GenerateIgnoresRequest(m: ModelManager, p1: string, n1: int, t1: real, p2: string, n2: int, t2: real)
    ensures m.Generate(p1, n1, t1) == m.Generate(p2, n2, t2)
  {
  }
}
