/**
 * The state of the page (`App` and `SettingsModal`, App.tsx): the selected
 * techniques, the input record, the role mode, the run flags, and the
 * settings dialog with its view of the session store. Each event handler of
 * the original program is a method that updates these fields.
 */
module App {
  import opened Wrappers
  import opened Types
  import opened Text
  import opened Selection
  import opened Assembler
  import opened Gemini
  import Catalog

  /** The input record the page starts with. */
  const InitialInputs: PromptInputs := PromptInputs(
    "", "", "", "", "",
    "1. 고객의 불편함 정의\n2. 제품의 고유 가치 제안\n3. 설득력 있는 증거 제시",
    "입력: 새로운 가습기\n출력: 당신의 수면을 촉촉하게 지켜주는 안개 가습기\n---\n입력: 오가닉 샐러드\n출력: 바쁜 아침, 5분 만에 챙기는 내 몸의 활력",
    Catalog.Roles[0],
    "소비자의 실제 일상 환경",
    Catalog.Emotions[0],
    "전문적이지만 친근한 말투",
    "신제품에 대한 신뢰 형성 및 첫 구매 유도",
    "사용자가 3초 이내에 핵심 편익을 이해해야 함")

  /** The second substring of a result that sends the user to the settings. */
  const SettingsMarker: string := "설정에서 키를 확인"

  /** A result re-opens the settings when it mentions the API key or asks to check the key in the settings. */
  predicate ReopensSettings(result: string) {
    Contains(result, ApiKeyMarker) || Contains(result, SettingsMarker)
  }

  /** The fields that have an editor on the page; the role has its own selector, emotion and attitude none. */
  predicate HasEditor(f: Field) {
    f != RoleName && f != EmotionName && f != Attitude
  }

  /** The browser session's slot for the manually entered key. */
  class SessionStore {
    var slot: Option<string>

    constructor (initial: Option<string>)
      ensures slot == initial
    {
      slot := initial;
    }
  }

  /** The settings dialog: the key being edited, whether a key is saved, and the store it writes. */
  class SettingsModal {
    var apiKeyInput: string
    var isSaved: bool
    const store: SessionStore

    constructor (store: SessionStore)
      ensures apiKeyInput == "" && !isSaved && this.store == store
    {
      apiKeyInput := "";
      isSaved := false;
      this.store := store;
    }

    /** On opening: show the stored key, or nothing, and mark it saved when there is one. */
    method Load()
      modifies this
      ensures apiKeyInput == store.slot.GetOr("")
      ensures isSaved <==> apiKeyInput != ""
    {
      apiKeyInput := store.slot.GetOr("");
      isSaved := apiKeyInput != "";
    }

    /** Typing in the key field. */
    method EditKey(v: string)
      modifies this
      ensures apiKeyInput == v && isSaved == old(isSaved)
    {
      apiKeyInput := v;
    }

    /**
     * Saving: a non-blank input is stored trimmed, replacing any earlier key;
     * a blank one changes nothing. The field keeps what was typed.
     */
    method SaveKey()
      modifies this, store
      ensures apiKeyInput == old(apiKeyInput)
      ensures Trim(apiKeyInput) != "" ==> store.slot == Some(Trim(apiKeyInput)) && isSaved
      ensures Trim(apiKeyInput) == "" ==> store.slot == old(store.slot) && isSaved == old(isSaved)
    {
      var trimmed := Trim(apiKeyInput);
      if trimmed != "" {
        store.slot := Some(trimmed);
        isSaved := true;
      }
    }

    /** Deleting: the store, the field and the saved mark are all cleared. */
    method DeleteKey()
      modifies this, store
      ensures store.slot == None && apiKeyInput == "" && !isSaved
    {
      store.slot := None;
      apiKeyInput := "";
      isSaved := false;
    }
  }

  /** The page. */
  class PromptFlowApp {
    var selected: seq<TechniqueType>
    var inputs: PromptInputs
    var customRole: string
    var directInputMode: bool
    var isGenerating: bool
    var isSettingsOpen: bool
    var apiResult: Option<string>
    /** The browser session's store, shared with the settings dialog. */
    const store: SessionStore
    const settings: SettingsModal
    /** The environment's `API_KEY`, fixed for the page's lifetime. */
    const env: Option<string>

    /** The selection is non-empty and repetition-free; the dialog writes the page's store. */
    ghost predicate Valid()
      reads this
    {
      ValidSelection(selected) && settings.store == store
    }

    /** The prompt on display: `buildPrompt` of the current state. */
    function AssembledPrompt(): string
      reads this
    {
      BuildPrompt(inputs, selected, customRole, directInputMode)
    }

    /** The run button is enabled when no run is in progress and the task is not empty. */
    predicate CanRun()
      reads this
    {
      !isGenerating && inputs.task != ""
    }

    /** A preset button is highlighted when its task is the current task. */
    predicate IsHighlighted(p: PresetTemplate)
      reads this
    {
      inputs.task == p.task
    }

    constructor (store: SessionStore, env: Option<string>)
      ensures selected == [ZeroShot] && inputs == InitialInputs
      ensures inputs.role == Catalog.Roles[0] && inputs.emotion == Catalog.Emotions[0]
      ensures customRole == "" && !directInputMode
      ensures !isGenerating && !isSettingsOpen && apiResult == None
      ensures this.store == store && this.env == env && fresh(settings)
      ensures !CanRun()
      ensures Valid()
    {
      selected := [ZeroShot];
      inputs := InitialInputs;
      customRole := "";
      directInputMode := false;
      isGenerating := false;
      isSettingsOpen := false;
      apiResult := None;
      this.store := store;
      this.env := env;
      settings := new SettingsModal(store);
    }

    /** A click on a technique card. */
    method ToggleTechnique(t: TechniqueType)
      requires Valid()
      modifies this
      ensures Valid()
      ensures selected == Toggle(old(selected), t)
      ensures inputs == old(inputs) && customRole == old(customRole) && directInputMode == old(directInputMode)
      ensures isGenerating == old(isGenerating) && isSettingsOpen == old(isSettingsOpen) && apiResult == old(apiResult)
    {
      ToggleKeepsValid(selected, t);
      selected := Toggle(selected, t);
    }

    /**
     * A click on a preset: its task replaces the task and nothing else; when
     * the preset is one of the catalog's, it is then the only highlighted one.
     */
    method PickPreset(p: PresetTemplate)
      modifies this
      ensures inputs == Set(old(inputs), Task, p.task)
      ensures p in Catalog.Presets ==> forall q :: q in Catalog.Presets ==> (IsHighlighted(q) <==> q == p)
      ensures selected == old(selected) && customRole == old(customRole) && directInputMode == old(directInputMode)
      ensures isGenerating == old(isGenerating) && isSettingsOpen == old(isSettingsOpen) && apiResult == old(apiResult)
    {
      inputs := inputs.(task := p.task);
      if p in Catalog.Presets {
        forall q | q in Catalog.Presets && IsHighlighted(q) ensures q == p {
          Catalog.AtMostOneHighlighted(p.task, p, q);
        }
      }
    }

    /** Typing in one of the input fields: that field, and only that one, takes the new value. */
    method EditField(f: Field, v: string)
      requires HasEditor(f)
      modifies this
      ensures inputs == Set(old(inputs), f, v)
      ensures selected == old(selected) && customRole == old(customRole) && directInputMode == old(directInputMode)
      ensures isGenerating == old(isGenerating) && isSettingsOpen == old(isSettingsOpen) && apiResult == old(apiResult)
    {
      inputs := Set(inputs, f, v);
    }

    /** Typing a free-text role; the field is shown in direct-input mode only. */
    method EditCustomRole(v: string)
      requires directInputMode
      modifies this
      ensures customRole == v
      ensures selected == old(selected) && inputs == old(inputs) && directInputMode == old(directInputMode)
      ensures isGenerating == old(isGenerating) && isSettingsOpen == old(isSettingsOpen) && apiResult == old(apiResult)
    {
      customRole := v;
    }

    /**
     * Choosing a role from the list, which is shown outside direct-input mode
     * only: the direct-input sentinel switches the mode and leaves the role
     * as it was; any other role is written to the inputs.
     */
    method ChooseRole(v: string)
      requires !directInputMode && v in Catalog.Roles
      modifies this
      ensures v == Catalog.DirectInput ==> directInputMode && inputs == old(inputs)
      ensures v != Catalog.DirectInput ==> !directInputMode && inputs == Set(old(inputs), RoleName, v)
      ensures selected == old(selected) && customRole == old(customRole)
      ensures isGenerating == old(isGenerating) && isSettingsOpen == old(isSettingsOpen) && apiResult == old(apiResult)
    {
      if v == Catalog.DirectInput {
        directInputMode := true;
      } else {
        inputs := inputs.(role := v);
      }
    }

    /** The undo button next to the free-text role: back to the list, with the free text cleared. */
    method LeaveDirectInput()
      requires directInputMode
      modifies this
      ensures !directInputMode && customRole == ""
      ensures selected == old(selected) && inputs == old(inputs)
      ensures isGenerating == old(isGenerating) && isSettingsOpen == old(isSettingsOpen) && apiResult == old(apiResult)
    {
      directInputMode := false;
      customRole := "";
    }

    /** Opening the settings; the dialog loads the stored key when it goes from closed to open. */
    method OpenSettings()
      requires Valid()
      modifies this, settings
      ensures Valid() && isSettingsOpen
      ensures !old(isSettingsOpen) ==> settings.apiKeyInput == store.slot.GetOr("")
                                       && (settings.isSaved <==> settings.apiKeyInput != "")
      ensures old(isSettingsOpen) ==> unchanged(settings)
      ensures selected == old(selected) && inputs == old(inputs) && customRole == old(customRole)
      ensures directInputMode == old(directInputMode) && isGenerating == old(isGenerating) && apiResult == old(apiResult)
    {
      if !isSettingsOpen {
        isSettingsOpen := true;
        settings.Load();
      }
    }

    /** Closing the settings. */
    method CloseSettings()
      modifies this
      ensures !isSettingsOpen
      ensures selected == old(selected) && inputs == old(inputs) && customRole == old(customRole)
      ensures directInputMode == old(directInputMode) && isGenerating == old(isGenerating) && apiResult == old(apiResult)
    {
      isSettingsOpen := false;
    }

    /** Closing the result dialog. */
    method CloseResult()
      modifies this
      ensures apiResult == None
      ensures selected == old(selected) && inputs == old(inputs) && customRole == old(customRole)
      ensures directInputMode == old(directInputMode) && isGenerating == old(isGenerating) && isSettingsOpen == old(isSettingsOpen)
    {
      apiResult := None;
    }

    /** The start of a run: the page is busy, and the prompt on display is what will be sent. */
    method BeginRun() returns (prompt: string)
      requires CanRun()
      modifies this
      ensures isGenerating && prompt == old(AssembledPrompt())
      ensures selected == old(selected) && inputs == old(inputs) && customRole == old(customRole)
      ensures directInputMode == old(directInputMode) && isSettingsOpen == old(isSettingsOpen) && apiResult == old(apiResult)
    {
      prompt := AssembledPrompt();
      isGenerating := true;
    }

    /**
     * The end of a run: the settings open when the result asks for a key, the
     * result is shown, and the page is no longer busy.
     */
    method FinishRun(result: string)
      requires Valid()
      modifies this, settings
      ensures Valid()
      ensures apiResult == Some(result) && !isGenerating
      ensures isSettingsOpen <==> old(isSettingsOpen) || ReopensSettings(result)
      ensures !old(isSettingsOpen) && ReopensSettings(result) ==>
                settings.apiKeyInput == store.slot.GetOr("") && (settings.isSaved <==> settings.apiKeyInput != "")
      ensures old(isSettingsOpen) || !ReopensSettings(result) ==> unchanged(settings)
      ensures selected == old(selected) && inputs == old(inputs) && customRole == old(customRole)
      ensures directInputMode == old(directInputMode)
    {
      if ReopensSettings(result) {
        OpenSettings();
      }
      apiResult := Some(result);
      isGenerating := false;
    }

    /**
     * `handleRunTest`: the prompt on display is sent with the stored key and
     * the environment key; the outcome is shown, the settings re-open for a
     * key problem, and the page is idle again afterwards.
     */
    method RunTest(generate: Request -> Outcome)
      requires Valid() && CanRun()
      modifies this, settings
      ensures Valid()
      ensures apiResult == Some(RunPrompt(old(AssembledPrompt()), old(store.slot), env, generate))
      ensures !isGenerating
      ensures isSettingsOpen <==> old(isSettingsOpen) || ReopensSettings(apiResult.value)
      ensures !old(isSettingsOpen) && ReopensSettings(apiResult.value) ==>
                settings.apiKeyInput == store.slot.GetOr("") && (settings.isSaved <==> settings.apiKeyInput != "")
      ensures old(isSettingsOpen) || !ReopensSettings(apiResult.value) ==> unchanged(settings)
      ensures selected == old(selected) && inputs == old(inputs) && customRole == old(customRole)
      ensures directInputMode == old(directInputMode)
    {
      var prompt := BeginRun();
      var result := RunPrompt(prompt, store.slot, env, generate);
      FinishRun(result);
    }
  }

  // ---------------------------------------------------------------------------
  // Properties

  /**
   * A missing key, and an error that looks like a rejected key, both yield a
   * result that re-opens the settings.
   */
  lemma KeyProblemsReopenSettings(prompt: string, manual: Option<string>, env: Option<string>, generate: Request -> Outcome)
    requires KeyMissing(ChooseKey(manual, env))
      || (var o := generate(Gemini.Request(Model, ChooseKey(manual, env).value, prompt));
          o.Failure? && IsAuthError(o.message.GetOr("")))
    ensures ReopensSettings(RunPrompt(prompt, manual, env, generate))
  {
    KeyResultsMentionApiKey();
    if KeyMissing(ChooseKey(manual, env)) {
      MissingKeyShortCircuits(prompt, manual, env, generate);
    } else {
      RunPromptOutcomes(prompt, manual, env, generate);
    }
  }

  /**
   * The other direction: with a key present, a response whose text carries
   * no marker, and an error that is not a rejected key and whose message
   * carries no marker, yield a result that leaves the settings closed. The
   * fixed texts and the error prefix add no marker of their own.
   */
  lemma OtherOutcomesKeepSettingsClosed(prompt: string, manual: Option<string>, env: Option<string>,
                                        generate: Request -> Outcome)
    requires !KeyMissing(ChooseKey(manual, env))
    requires var o := generate(Gemini.Request(Model, ChooseKey(manual, env).value, prompt));
      || (o.Success? && !ReopensSettings(o.text.GetOr("")))
      || (o.Failure? && !IsAuthError(o.message.GetOr("")) && !ReopensSettings(RenderMessage(o.message)))
    ensures !ReopensSettings(RunPrompt(prompt, manual, env, generate))
  {
    RunPromptOutcomes(prompt, manual, env, generate);
    var o := generate(Gemini.Request(Model, ChooseKey(manual, env).value, prompt));
    if o.Success? {
      EmptyResponseKeepsSettingsClosed();
    } else {
      PrefixKeepsSettingsClosed(RenderMessage(o.message));
    }
  }

  /** The text for a response without text carries no marker. */
  lemma EmptyResponseKeepsSettingsClosed()
    ensures !ReopensSettings(EmptyResponseMessage)
  {
    LacksMarkerCharacters(EmptyResponseMessage);
  }

  /** A text using neither `A` nor `설` carries no marker. */
  lemma LacksMarkerCharacters(s: string)
    requires 'A' !in s && '설' !in s
    ensures !ReopensSettings(s)
  {
    LacksCharacter(s, ApiKeyMarker, 'A');
    LacksCharacter(s, SettingsMarker, '설');
  }

  /** The error prefix adds no marker to a message that has none. */
  lemma PrefixKeepsSettingsClosed(m: string)
    requires !ReopensSettings(m)
    ensures !ReopensSettings(ErrorPrefix + m)
  {
    assert ApiKeyMarker[0] == 'A' && 'A' !in ErrorPrefix;
    PrefixAddsNoOccurrence(ErrorPrefix, m, ApiKeyMarker);
    assert SettingsMarker[0] == '설' && '설' !in ErrorPrefix;
    PrefixAddsNoOccurrence(ErrorPrefix, m, SettingsMarker);
  }

  /**
   * The prompt the page shows before any input: the subject section with
   * four placeholders and the request section with the task placeholder.
   */
  lemma InitialPrompt()
    ensures BuildPrompt(InitialInputs, [ZeroShot], "", false) ==
      "## 대상 정보\n- **제품/브랜드**: " + NotEntered + "\n- **분류**: " + NotEntered
      + "\n- **타깃 대상**: " + NotEntered + "\n- **핵심 특징**: " + NotEntered
      + Separator + "## 요청 과제\n" + TaskPlaceholder
  {
    ZeroShotOnlyPrompt(InitialInputs, "", false);
  }

  /**
   * A saved key survives the dialog being opened again and saved again:
   * saving a non-blank input stores it trimmed; reopening loads that key
   * into the field; saving once more stores the same key, still marked saved.
   */
  method SavedKeyIsStable(dialog: SettingsModal)
    requires Trim(dialog.apiKeyInput) != ""
    modifies dialog, dialog.store
    ensures dialog.store.slot == Some(Trim(old(dialog.apiKeyInput)))
    ensures dialog.apiKeyInput == Trim(old(dialog.apiKeyInput)) && dialog.isSaved
  {
    var key := Trim(dialog.apiKeyInput);
    dialog.SaveKey();
    assert dialog.store.slot == Some(key);
    dialog.Load();
    assert dialog.apiKeyInput == key;
    TrimIdempotent(old(dialog.apiKeyInput));
    dialog.SaveKey();
  }

  /**
   * A saved key that is not the text "undefined" is the key the model is
   * asked with, whatever the environment holds.
   */
  lemma SavedKeyIsUsed(input: string, env: Option<string>)
    requires Trim(input) != "" && Trim(input) != "undefined"
    ensures ChooseKey(Some(Trim(input)), env) == Some(Trim(input))
    ensures !KeyMissing(ChooseKey(Some(Trim(input)), env))
  {
  }
}
