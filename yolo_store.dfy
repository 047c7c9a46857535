/**
 * The `yolo` module of the frontend's Vuex store (`store/modules/yolo.js`).
 * Response data are JavaScript values; the HTTP call of each action is an
 * input: `Ok(data)` when the request resolves, `Err(reason)` when it is
 * rejected. The store object holds the state in fields; mutations change
 * them one at a time and a ghost log records every commit.
 */
module YoloStore {
  import opened Wrappers
  import YoloRoutes

  /** A JavaScript value as found in response data. */
  datatype Json =
    | Null
    | Undefined
    | Bool(b: bool)
    | Num(n: real)
    | Str(s: string)
    | Arr(items: seq<Json>)
    | Obj(fields: map<string, Json>)

  /** JavaScript truthiness: null, undefined, false, 0 and "" are falsy; arrays and objects are truthy. */
  predicate Truthy(v: Json) {
    match v
    case Null => false
    case Undefined => false
    case Bool(b) => b
    case Num(n) => n != 0.0
    case Str(s) => s != ""
    case Arr(_) => true
    case Obj(_) => true
  }

  /** Property access `v.key` on a value that is not null: undefined unless an object has the key. */
  function Field(v: Json, key: string): Json {
    match v
    case Obj(f) => if key in f then f[key] else Undefined
    case _ => Undefined
  }

  /** The module's state. */
  datatype State = State(detectionResults: Json, availableModels: Json, currentModel: Json, isLoading: bool, error: Option<string>)

  const InitialState := State(Null, Arr([]), Null, false, None)

  /** The mutations, each with its payload. */
  datatype Mutation =
    | SetDetectionResults(results: Json)
    | SetAvailableModels(data: Json)
    | SetCurrentModel(model: Json)
    | SetLoading(loading: bool)
    | SetError(message: Option<string>)

  /**
   * `setAvailableModels`: a truthy `data.models` becomes the list (and a
   * truthy `data.current_model` the current model); otherwise `data` itself,
   * or an empty list when `data` is falsy.
   */
  function ModelsUpdate(s: State, data: Json): (r: State)
    ensures r.detectionResults == s.detectionResults && r.isLoading == s.isLoading && r.error == s.error
    ensures Truthy(data) && Truthy(Field(data, "models")) ==> r.availableModels == Field(data, "models")
    ensures !(Truthy(data) && Truthy(Field(data, "models"))) ==> r.availableModels == (if Truthy(data) then data else Arr([]))
    ensures r.currentModel ==
      (if Truthy(data) && Truthy(Field(data, "models")) && Truthy(Field(data, "current_model"))
       then Field(data, "current_model") else s.currentModel)
  {
    if Truthy(data) && Truthy(Field(data, "models")) then
      var current := Field(data, "current_model");
      s.(availableModels := Field(data, "models"), currentModel := if Truthy(current) then current else s.currentModel)
    else
      s.(availableModels := if Truthy(data) then data else Arr([]))
  }

  /** The effect of one mutation. */
  function Apply(s: State, m: Mutation): (r: State)
    ensures !m.SetDetectionResults? ==> r.detectionResults == s.detectionResults
    ensures !m.SetAvailableModels? ==> r.availableModels == s.availableModels
    ensures !(m.SetCurrentModel? || m.SetAvailableModels?) ==> r.currentModel == s.currentModel
    ensures !m.SetLoading? ==> r.isLoading == s.isLoading
    ensures !m.SetError? ==> r.error == s.error
  {
    match m
    case SetDetectionResults(v) => s.(detectionResults := v)
    case SetAvailableModels(data) => ModelsUpdate(s, data)
    case SetCurrentModel(v) => s.(currentModel := v)
    case SetLoading(b) => s.(isLoading := b)
    case SetError(e) => s.(error := e)
  }

  /** The effect of committing mutations in order. */
  function ApplyAll(s: State, ms: seq<Mutation>): State
    decreases ms
  {
    if |ms| == 0 then s else ApplyAll(Apply(s, ms[0]), ms[1..])
  }

  /** Proof helper: committing two mutations is applying them in order. */
  lemma ApplyTwo(s: State, m0: Mutation, m1: Mutation)
    ensures ApplyAll(s, [m0, m1]) == Apply(Apply(s, m0), m1)
  {
    assert [m0, m1][1..] == [m1];
    assert [m1][1..] == [];
    calc {
      ApplyAll(s, [m0, m1]);
      ApplyAll(Apply(s, m0), [m1]);
      ApplyAll(Apply(Apply(s, m0), m1), []);
    }
  }

  /** Proof helper: committing four mutations is applying them in order. */
  lemma ApplyFour(s: State, m0: Mutation, m1: Mutation, m2: Mutation, m3: Mutation)
    ensures ApplyAll(s, [m0, m1, m2, m3]) == Apply(Apply(Apply(Apply(s, m0), m1), m2), m3)
  {
    assert [m0, m1, m2, m3][1..] == [m1, m2, m3];
    assert [m1, m2, m3][1..] == [m2, m3];
    ApplyTwo(Apply(Apply(s, m0), m1), m2, m3);
  }

  // ---------------------------------------------------------------------
  // Actions

  /** The four actions that call the backend. */
  datatype Action = GetAvailableModels | DetectImages | DetectVideo | ChangeModel(modelPath: string)

  /** The message each action stores when its request fails. */
  function FailureMessage(a: Action): string {
    match a
    case GetAvailableModels => "获取模型列表失败"
    case DetectImages => "图片检测失败"
    case DetectVideo => "视频检测失败"
    case ChangeModel(_) => "切换模型失败"
  }

  /** The mutation committed when the request resolves with `data`. */
  function SuccessMutation(a: Action, data: Json): Mutation {
    match a
    case GetAvailableModels => SetAvailableModels(data)
    case DetectImages => SetDetectionResults(data)
    case DetectVideo => SetDetectionResults(data)
    case ChangeModel(path) => SetCurrentModel(Str(path))
  }

  /**
   * The commits of an action: loading on and error cleared, then the success
   * mutation or the failure message, and (the `finally`) loading off.
   */
  function ActionCommits(a: Action, response: Result<Json, string>): (ms: seq<Mutation>)
    ensures |ms| == 4
    ensures ms[0] == SetLoading(true) && ms[1] == SetError(None) && ms[3] == SetLoading(false)
    ensures response.Ok? ==> ms[2] == SuccessMutation(a, response.value)
    ensures response.Err? ==> ms[2] == SetError(Some(FailureMessage(a)))
  {
    [SetLoading(true), SetError(None)]
    + [if response.Ok? then SuccessMutation(a, response.value) else SetError(Some(FailureMessage(a)))]
    + [SetLoading(false)]
  }

  /**
   * After any backend action the store is no longer loading; the error is
   * the action's message exactly when the request failed; and a failed
   * request changes nothing but the error.
   */
  lemma ActionSettles(s: State, a: Action, response: Result<Json, string>)
    ensures var t := ApplyAll(s, ActionCommits(a, response));
      && !t.isLoading
      && (t.error.Some? <==> response.Err?)
      && (response.Err? ==> t == s.(isLoading := false, error := Some(FailureMessage(a))))
      && (response.Ok? ==> t == Apply(s.(isLoading := false, error := None), SuccessMutation(a, response.value)).(isLoading := false))
  {
    var ms := ActionCommits(a, response);
    assert ms == [ms[0], ms[1], ms[2], ms[3]];
    ApplyFour(s, ms[0], ms[1], ms[2], ms[3]);
  }

  /** `changeModel` updates the current model only when the backend accepted the change. */
  lemma ChangeModelSetsCurrentOnSuccess(s: State, path: string, response: Result<Json, string>)
    ensures ApplyAll(s, ActionCommits(ChangeModel(path), response)).currentModel
      == (if response.Ok? then Str(path) else s.currentModel)
  {
    ActionSettles(s, ChangeModel(path), response);
  }

  /** The commits of `clearResults`. */
  const ClearCommits := [SetDetectionResults(Null), SetError(None)]

  /** `clearResults` empties the results and the error and keeps the models and the loading flag. */
  lemma ClearResultsEffect(s: State)
    ensures ApplyAll(s, ClearCommits) == s.(detectionResults := Null, error := None)
  {
    ApplyTwo(s, SetDetectionResults(Null), SetError(None));
  }

  /** The JSON the `available_models` endpoint sends. */
  function ModelsJson(body: YoloRoutes.ModelsBody): Json {
    Obj(map["models" := Arr(seq(|body.models|, i requires 0 <= i < |body.models| => Str(body.models[i]))),
            "current_model" := Str(body.currentModel)])
  }

  /**
   * The backend's models response is read as intended: the list becomes the
   * available models (even when empty) and a nonempty current model name
   * becomes the current model.
   */
  lemma ModelsResponseAccepted(s: State, body: YoloRoutes.ModelsBody)
    ensures var t := ModelsUpdate(s, ModelsJson(body));
      && t.availableModels == Field(ModelsJson(body), "models")
      && t.currentModel == (if body.currentModel != "" then Str(body.currentModel) else s.currentModel)
  {
    var data := ModelsJson(body);
    assert Field(data, "models").Arr?;
    assert Field(data, "current_model") == Str(body.currentModel);
  }

  // ---------------------------------------------------------------------
  // The store object

  class YoloModule {
    var detectionResults: Json
    var availableModels: Json
    var currentModel: Json
    var isLoading: bool
    var error: Option<string>
    /** Every mutation committed so far, oldest first. */
    ghost var commits: seq<Mutation>

    function Current(): State
      reads this
    {
      State(detectionResults, availableModels, currentModel, isLoading, error)
    }

    constructor ()
      ensures Current() == InitialState && commits == []
    {
      detectionResults := Null;
      availableModels := Arr([]);
      currentModel := Null;
      isLoading := false;
      error := None;
      commits := [];
    }

    /** `commit`: run one mutation on the fields. */
    method Commit(m: Mutation)
      modifies this
      ensures Current() == Apply(old(Current()), m)
      ensures commits == old(commits) + [m]
    {
      match m {
        case SetDetectionResults(v) => detectionResults := v;
        case SetAvailableModels(data) =>
          if Truthy(data) && Truthy(Field(data, "models")) {
            availableModels := Field(data, "models");
            if Truthy(Field(data, "current_model")) {
              currentModel := Field(data, "current_model");
            }
          } else {
            availableModels := if Truthy(data) then data else Arr([]);
          }
        case SetCurrentModel(v) => currentModel := v;
        case SetLoading(b) => isLoading := b;
        case SetError(e) => error := e;
      }
      commits := commits + [m];
    }

    /**
     * One of the four backend actions: it returns the response data, or
     * passes the rejection on after recording the failure.
     */
    method Run(a: Action, response: Result<Json, string>) returns (r: Result<Json, string>)
      modifies this
      ensures r == response
      ensures commits == old(commits) + ActionCommits(a, response)
      ensures Current() == ApplyAll(old(Current()), ActionCommits(a, response))
    {
      ghost var s0 := Current();
      Commit(SetLoading(true));
      Commit(SetError(None));
      if response.Ok? {
        Commit(SuccessMutation(a, response.value));
      } else {
        Commit(SetError(Some(FailureMessage(a))));
      }
      Commit(SetLoading(false));
      ghost var ms := ActionCommits(a, response);
      assert ms == [ms[0], ms[1], ms[2], ms[3]];
      ApplyFour(s0, ms[0], ms[1], ms[2], ms[3]);
      r := response;
    }

    /** `clearResults`. */
    method ClearResults()
      modifies this
      ensures commits == old(commits) + ClearCommits
      ensures Current() == ApplyAll(old(Current()), ClearCommits)
    {
      Commit(SetDetectionResults(Null));
      Commit(SetError(None));
      ApplyTwo(old(Current()), SetDetectionResults(Null), SetError(None));
    }
  }
}
