/** The model selector of `services/model_manager.py`: a fixed catalogue of
    model profiles, one current model id, and the client configuration that
    is derived from the current profile. The Python class mutates itself;
    here a `Manager` is an immutable value and every operation returns the
    manager it leaves behind. */
module ModelManager {
  import opened Outcomes
  import opened Config

  /** The `'mode'` entry of a profile. */
  datatype Mode = Text | Image

  datatype ModelProfile = ModelProfile(name: string, description: string, mode: Mode)

  /** Response modality codes of the Gemini API (0 unspecified, 1 text,
      2 image, 3 audio); only the two the selector uses are named. */
  const ModalityText: int := 1
  const ModalityImage: int := 2

  /** The system instruction handed to every client. Its wording is not
      part of this model; only that every configuration carries it. */
  const SystemInstruction: string

  const DefaultModelId: string := "gemini-2.5-flash-lite"
  const ImageModelId: string := "gemini-2.0-flash-preview-image-generation"

  /** The class-level `AVAILABLE_MODELS` catalogue. */
  const AvailableModels: map<string, ModelProfile> := map[
    "gemini-2.5-flash-lite" :=
      ModelProfile("Gemini 2.5 Flash-Lite", "Fastest and most cost-effective model", Text),
    "gemini-2.5-flash" :=
      ModelProfile("Gemini 2.5 Flash", "Fast and efficient for most conversations", Text),
    "gemini-2.5-pro" :=
      ModelProfile("Gemini 2.5 Pro", "Most capable model for complex tasks", Text),
    "gemini-2.0-flash-lite" :=
      ModelProfile("Gemini 2.0 Flash-Lite", "Lightweight and quick responses", Text),
    "gemini-2.0-flash" :=
      ModelProfile("Gemini 2.0 Flash", "Balanced performance and speed", Text),
    "gemini-2.0-flash-preview-image-generation" :=
      ModelProfile("Gemini 2.0 Flash Preview", "Image generation model", Image)
  ]

  /** The keyword arguments the client is constructed with. An absent
      `response_modalities` key is `None`. */
  datatype ClientConfig = ClientConfig(
    model: string,
    googleApiKey: string,
    convertSystemMessageToHuman: bool,
    streaming: bool,
    systemInstruction: string,
    responseModalities: Option<seq<int>>)

  /** The state of one `ModelManager` object. `llm` stands for the client
      object by the configuration it was built from; `initialisations`
      counts the clients built so far, so that a re-initialisation is
      observable even when it rebuilds an identical configuration. */
  datatype Manager = Manager(
    settings: Settings,
    currentModelId: string,
    llm: Option<ClientConfig>,
    initialisations: nat)

  /** The set of catalogue ids whose profile is an image model. */
  function ImageModelIds(): set<string>
  {
    set id | id in AvailableModels && AvailableModels[id].mode == Image
  }

  /** The configuration `_initialize_model` builds for a catalogue id. */
  function BuildConfig(id: string, settings: Settings): (c: ClientConfig)
    requires id in AvailableModels
    ensures c.model == id && c.googleApiKey == settings.googleApiKey
    ensures c.convertSystemMessageToHuman && c.streaming
    ensures c.systemInstruction == SystemInstruction
    ensures c.responseModalities.Some? <==> AvailableModels[id].mode == Image
    ensures c.responseModalities.Some? ==>
              c.responseModalities.value == [ModalityImage, ModalityText]
  {
    var base := ClientConfig(id, settings.googleApiKey, true, true, SystemInstruction, None);
    if AvailableModels[id].mode == Image
    then base.(responseModalities := Some([ModalityImage, ModalityText]))
    else base
  }

  /** The invariant every manager reachable from the constructor keeps: the
      current id is a catalogue key and the client was built for it. */
  predicate Valid(m: Manager)
  {
    && m.currentModelId in AvailableModels
    && m.llm == Some(BuildConfig(m.currentModelId, m.settings))
  }

  /** `_initialize_model`: an unknown current id falls back to the default,
      then a fresh client is built for the (now known) current id. */
  function InitializeModel(m: Manager): (r: Manager)
    ensures Valid(r)
    ensures m.currentModelId in AvailableModels ==> r.currentModelId == m.currentModelId
    ensures m.currentModelId !in AvailableModels ==> r.currentModelId == DefaultModelId
    ensures r.settings == m.settings
    ensures r.initialisations == m.initialisations + 1
  {
    var id := if m.currentModelId in AvailableModels then m.currentModelId else DefaultModelId;
    m.(currentModelId := id,
       llm := Some(BuildConfig(id, m.settings)),
       initialisations := m.initialisations + 1)
  }

  /** `ModelManager()`: the default model with one client built for it. */
  function NewManager(settings: Settings): (m: Manager)
    ensures Valid(m)
    ensures m.currentModelId == DefaultModelId
    ensures m.settings == settings
    ensures m.initialisations == 1
  {
    InitializeModel(Manager(settings, DefaultModelId, None, 0))
  }

  /** `get_llm`: the current client, `None` only before initialisation. */
  function GetLlm(m: Manager): (c: Option<ClientConfig>)
    ensures Valid(m) ==> c == Some(BuildConfig(m.currentModelId, m.settings))
  {
    m.llm
  }

  /** `is_image_generation_model`. */
  function IsImageGenerationModel(m: Manager): (b: bool)
    ensures b ==> m.currentModelId in AvailableModels
    ensures b <==> m.currentModelId in ImageModelIds()
  {
    if m.currentModelId !in AvailableModels then false
    else AvailableModels[m.currentModelId].mode == Image
  }

  /** `set_model`: the manager left behind and the boolean returned, when
      building the client succeeds (see `SetModelAsWritten` for the path on
      which the client constructor raises). */
  function SetModel(m: Manager, id: string): (r: (Manager, bool))
    ensures id !in AvailableModels ==> r == (m, false)
    ensures id in AvailableModels ==> r.1 && r.0.currentModelId == id
    ensures id == m.currentModelId ==> r.0 == m
    ensures id in AvailableModels && id != m.currentModelId ==>
              && r.0.llm == Some(BuildConfig(id, m.settings))
              && r.0.initialisations == m.initialisations + 1
    ensures r.0.settings == m.settings
    ensures Valid(m) ==> Valid(r.0)
  {
    if id !in AvailableModels then (m, false)
    else if id != m.currentModelId then (InitializeModel(m.(currentModelId := id)), true)
    else (m, true)
  }

  /** `get_current_model_id`. */
  function GetCurrentModelId(m: Manager): (id: string)
    ensures id == m.currentModelId
    ensures Valid(m) ==> id in AvailableModels
  {
    m.currentModelId
  }

  /** `get_available_models`: a copy of the catalogue. Maps are values here,
      so whatever a caller does to the copy cannot reach the catalogue. */
  function GetAvailableModels(m: Manager): (r: map<string, ModelProfile>)
    ensures r.Keys == AvailableModels.Keys
    ensures forall id :: id in r ==> r[id] == AvailableModels[id]
  {
    AvailableModels
  }

  /** Exactly one catalogue entry is an image model. */
  lemma ExactlyOneImageModel()
    ensures ImageModelIds() == {ImageModelId}
  {
  }

  /** Being an image model is the same as having the image model's id. */
  lemma ImageModelIsTheImageId(m: Manager)
    ensures IsImageGenerationModel(m) <==> m.currentModelId == ImageModelId
  {
  }

  /** On every reachable manager, the client asks for several response
      modalities exactly when the current model is an image model. */
  lemma ModalitiesIffImageModel(m: Manager)
    requires Valid(m)
    ensures GetLlm(m).Some?
    ensures GetLlm(m).value.responseModalities.Some? <==> IsImageGenerationModel(m)
    ensures GetLlm(m).value.model == GetCurrentModelId(m)
    ensures GetLlm(m).value.streaming
  {
  }

  /** Selecting the same id twice is the same as selecting it once. */
  lemma SetModelIdempotent(m: Manager, id: string)
    ensures SetModel(SetModel(m, id).0, id) == SetModel(m, id)
  {
  }

  /** After selecting a catalogue id, the manager reports that id as
      current; after an unknown id, it reports the one it had before. */
  lemma SelectedIdIsReported(m: Manager, id: string)
    ensures id in AvailableModels ==> GetCurrentModelId(SetModel(m, id).0) == id
    ensures id !in AvailableModels ==> GetCurrentModelId(SetModel(m, id).0) == GetCurrentModelId(m)
  {
  }

  /** `set_model` when the client constructor may raise: `builds(c)` tells
      whether constructing a client from configuration `c` succeeds. The
      new id is stored before `_initialize_model` runs, so a raising
      constructor leaves the new id next to the previous client. The second
      component is the boolean returned, or `Fail` when the call raises. */
  function SetModelAsWritten(m: Manager, id: string, builds: ClientConfig -> bool): (r: (Manager, Outcome<bool>))
    ensures id !in AvailableModels ==> r == (m, Ok(false))
    ensures id == m.currentModelId ==> r.0 == m
    ensures id in AvailableModels && id == m.currentModelId ==> r.1 == Ok(true)
    ensures id in AvailableModels && id != m.currentModelId && builds(BuildConfig(id, m.settings)) ==>
              r == (SetModel(m, id).0, Ok(true))
    ensures id in AvailableModels && id != m.currentModelId && !builds(BuildConfig(id, m.settings)) ==>
              && r.1 == Fail
              && r.0 == m.(currentModelId := id)
  {
    if id !in AvailableModels then (m, Ok(false))
    else if id != m.currentModelId then
      var switched := m.(currentModelId := id);
      if builds(BuildConfig(id, m.settings)) then (InitializeModel(switched), Ok(true))
      else (switched, Fail)
    else (m, Ok(true))
  }

  /** The discrepancy on one input: a switch whose client construction
      raises leaves the new id with the old client; selecting that id again
      then reports success without building the client, even once the
      constructor would succeed, so the manager no longer keeps its
      invariant. */
  lemma FailedSwitchLeavesStaleClient(settings: Settings)
    ensures var m := NewManager(settings);
            var first := SetModelAsWritten(m, "gemini-2.5-pro", _ => false);
            var retry := SetModelAsWritten(first.0, "gemini-2.5-pro", _ => true);
            && first.1 == Fail
            && retry.1 == Ok(true)
            && GetCurrentModelId(retry.0) == "gemini-2.5-pro"
            && GetLlm(retry.0) == Some(BuildConfig(DefaultModelId, settings))
            && !Valid(retry.0)
  {
  }

  /** Intended `set_model`: the client is built for the new id first, and
      the id is stored only once that succeeded, so a raising constructor
      leaves the manager exactly as it was. */
  function SetModelAtomic(m: Manager, id: string, builds: ClientConfig -> bool): (r: (Manager, Outcome<bool>))
    ensures id !in AvailableModels ==> r == (m, Ok(false))
    ensures id in AvailableModels && id == m.currentModelId ==> r == (m, Ok(true))
    ensures r.1.Fail? ==> id in AvailableModels && id != m.currentModelId && !builds(BuildConfig(id, m.settings))
    ensures r.1.Fail? ==> r.0 == m
    ensures r.1 == Ok(true) ==> GetCurrentModelId(r.0) == id
    ensures r.1.Ok? ==> r.0 == SetModel(m, id).0 && r.1.value == SetModel(m, id).1
    ensures id in AvailableModels && id != m.currentModelId ==>
              (r.1 == Fail <==> !builds(BuildConfig(id, m.settings)))
    ensures Valid(m) ==> Valid(r.0)
  {
    if id in AvailableModels && id != m.currentModelId && !builds(BuildConfig(id, m.settings))
    then (m, Fail)
    else (SetModel(m, id).0, Ok(SetModel(m, id).1))
  }

  /** With the intended ordering, a failed switch followed by a successful
      retry of the same id does build the client for it. */
  lemma AtomicRetryBuildsClient(m: Manager, id: string)
    requires Valid(m) && id in AvailableModels
    ensures var first := SetModelAtomic(m, id, _ => false);
            var retry := SetModelAtomic(first.0, id, _ => true);
            && (id != m.currentModelId ==> first == (m, Fail))
            && retry.1 == Ok(true)
            && Valid(retry.0)
            && GetLlm(retry.0) == Some(BuildConfig(id, m.settings))
  {
  }

  /** Applies `set_model` to every id in turn, discarding the booleans. */
  function SelectAll(m: Manager, ids: seq<string>): Manager
    decreases |ids|
  {
    if ids == [] then m else SelectAll(SetModel(m, ids[0]).0, ids[1..])
  }

  /** Reference definition: the current id after a series of selections is
      the last catalogue id among them, or the starting id if none is. */
  function LastKnown(start: string, ids: seq<string>): string
    decreases |ids|
  {
    if ids == [] then start
    else if ids[|ids| - 1] in AvailableModels then ids[|ids| - 1]
    else LastKnown(start, ids[..|ids| - 1])
  }

  /** Reference definition: how many selections in the series name a known
      id different from the one current at that moment. */
  function Switches(start: string, ids: seq<string>): nat
    decreases |ids|
  {
    if ids == [] then 0
    else
      var front := ids[..|ids| - 1];
      var last := ids[|ids| - 1];
      Switches(start, front)
      + (if last in AvailableModels && last != LastKnown(start, front) then 1 else 0)
  }

  lemma {:induction false} SelectAllSnoc(m: Manager, ids: seq<string>, id: string)
    ensures SelectAll(m, ids + [id]) == SetModel(SelectAll(m, ids), id).0
    decreases |ids|
  {
    if ids == [] {
      assert ([] + [id])[1..] == [];
    } else {
      assert (ids + [id])[0] == ids[0];
      assert (ids + [id])[1..] == ids[1..] + [id];
      SelectAllSnoc(SetModel(m, ids[0]).0, ids[1..], id);
    }
  }

  /** Any series of selections keeps the invariant, leaves the last known
      id current, and rebuilds the client once per actual change of id and
      never otherwise. */
  lemma {:induction false} SelectAllTrace(m: Manager, ids: seq<string>)
    ensures Valid(m) ==> Valid(SelectAll(m, ids))
    ensures SelectAll(m, ids).currentModelId == LastKnown(m.currentModelId, ids)
    ensures SelectAll(m, ids).initialisations == m.initialisations + Switches(m.currentModelId, ids)
    decreases |ids|
  {
    if ids != [] {
      var front := ids[..|ids| - 1];
      var last := ids[|ids| - 1];
      assert ids == front + [last];
      SelectAllSnoc(m, front, last);
      SelectAllTrace(m, front);
    }
  }

  /** Corollary: from construction on, the current id is always a
      catalogue key, whatever ids callers pass. */
  lemma CurrentAlwaysKnown(settings: Settings, ids: seq<string>)
    ensures GetCurrentModelId(SelectAll(NewManager(settings), ids)) in AvailableModels
  {
    SelectAllTrace(NewManager(settings), ids);
  }
}
