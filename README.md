# Prompt Flow — a verified model of the prompt builder

Prompt Flow is a single-page tool for assembling prompts. The user picks
prompting techniques (zero-shot, chain-of-thought, few-shot, role, emotion,
step-back) and fills in a product record and a task. The page then shows a
prompt built from up to seven sections. It can also send that prompt to a
Gemini model, using an API key from the browser session or from the
environment, and it shows the answer or a classified error.

This project models the logic behind that page in Dafny and proves its
properties:

- `types.dfy` (module `Types`): the technique enumeration, the input record
  with field access and single-field update, the technique each
  technique-specific field belongs to, and the catalog record shapes.
- `catalog.dfy` (module `Catalog`): the technique catalog, the eleven task
  presets, the role and emotion lists with the direct-input sentinel, and the
  icon lookup with its fallback.
- `text.dfy` (module `Text`): the JavaScript string operations the program
  uses:
  - `||` on strings;
  - `join`;
  - `includes`;
  - `trim`, over the ECMAScript whitespace and line-terminator characters.
- `assembler.dfy` (module `Assembler`): `buildPrompt`.
  - The specification is `BuildPrompt`: the emitted sections, in a fixed slot
    order, joined with a blank line.
  - `Assemble` pushes the sections one at a time, as the original does, and
    `JoinParts` joins them with a loop. Both are proved to compute
    `BuildPrompt`.
- `selection.dfy` (module `Selection`): the technique-card toggle and the
  invariant it keeps, a non-empty selection without repetition.
- `gemini.dfy` (module `Gemini`): `runPrompt`.
  - It covers key choice, missing-key detection, the success fallback and
    error classification.
  - The model call is a parameter from a request to an outcome.
- `app.dfy` (module `App`): the page state as classes.
  - `SessionStore` is the session's key slot.
  - `SettingsModal` holds load, edit, save and delete of the key.
  - `PromptFlowApp` holds the selection, the inputs, the role mode, the run
    flags and the result. Each event handler is a method on it.
- `wrappers.dfy` (module `Wrappers`): `Option`.

`KeyMissing` treats only an absent key, `""` and the text `"undefined"` as
missing, so a key made of spaces is sent to the model
(services/geminiService.ts:15-18).

## Model

| member | source | states |
|---|---|---|
| `Types.AllTechniquesClosed` | types.ts:2-9 | The technique enumeration has exactly six values, each listed once, in declaration order. |
| `Types.Set` | App.tsx:468-510 | A record spread `{...inputs, f: v}` gives `f` the new value and leaves every other field unchanged. |
| `Types.FieldsDetermineInputs` | types.ts:26-43 | Two input records that agree on all thirteen fields are equal. |
| `Types.Owner` | types.ts:35-42 | The five common fields belong to no technique; every other field belongs to one technique. |
| `Types.ZeroShotOwnsNoField` | types.ts:35-42 | Zero-shot is the only technique that owns no input field. |
| `Text.Or` | App.tsx:288-297 | JavaScript's logical-or fallback on a string gives the fallback only for the exact empty string; any other string, whitespace included, is kept. |
| `Text.Join` | App.tsx:311 | `join` gives `""` for no parts, the one part alone, and otherwise the parts with the separator between neighbours and nowhere else. |
| `Text.JoinAppend` | App.tsx:311 | Joining two non-empty lists puts exactly one separator at the seam. |
| `Text.ContainsAt` | App.tsx:320 | The left-to-right scan `Contains` (the model of `includes`) holds exactly when the substring occurs at some index. |
| `Text.Contains` | App.tsx:320 | `includes`: the substring starts at the first position or occurs in the rest of the string. |
| `Text.TrimStart` | App.tsx:114-115 | It removes the leading whitespace: a suffix of the input, everything removed is whitespace, and the result does not start with whitespace. |
| `Text.TrimEnd` | App.tsx:114-115 | The mirror image of `TrimStart` at the end of the string. |
| `Text.Trim` | App.tsx:114-115 | `trim` removes the leading whitespace, then the trailing whitespace. |
| `Text.TrimIsCore` | App.tsx:114-115 | `trim` returns a slice `s[i..j]` with only whitespace outside it and no whitespace at either end of it. |
| `Text.TrimEmptyIffBlank` | App.tsx:114 | The trimmed input is empty exactly when every character is whitespace. |
| `Text.TrimIdempotent` | App.tsx:114-115 | Trimming twice gives the same result as trimming once. |
| `Catalog.IconTableMatchesNames` | constants.tsx:113-131 | The icon table maps each of the seventeen names to its own icon and nothing else. |
| `Catalog.GetIcon` | constants.tsx:112-133 | A name registered in the table returns its own icon; an unregistered name returns the `Zap` fallback (names inherited from `Object.prototype` are not modelled, see "Left out"). |
| `Catalog.TechniquesFollowDeclarationOrder` | constants.tsx:23-96 | The catalog has one entry per technique, in enum declaration order. |
| `Catalog.IndexOf` | types.ts:2-9 | Each technique has a position in the declaration order. |
| `Catalog.Lookup` | constants.tsx:23-96 | Every technique has a catalog entry of its own kind. |
| `Catalog.EveryEntryHasDetail` | constants.tsx:31-94 | Every catalog entry carries a detail with a concept and an example. |
| `Catalog.PresetsDistinct` | constants.tsx:98-110 | Preset ids are pairwise distinct, and so are preset tasks. |
| `Catalog.CatalogIconsRegistered` | constants.tsx:29-109 | Every icon name used by the catalog and the presets is in the table, so none of them falls back. |
| `Catalog.RolesEndWithSentinel` | constants.tsx:135-136 | The role and emotion lists are non-empty. The direct-input sentinel is the last role and appears nowhere else. |
| `Catalog.AtMostOneHighlighted` | App.tsx:441 | Two catalog presets with the same task are the same preset, so at most one is highlighted. |
| `Assembler.Rank` | App.tsx:284-309 | Each section slot has its position in the fixed section order. |
| `Assembler.SectionOf` | App.tsx:286-308 | The slot a technique gates is the inverse of the gate. Zero-shot gates nothing, and every other technique gates exactly one slot. |
| `Assembler.Gate` | App.tsx:285-309 | The technique whose selection guards each push: role for the persona, step-back for the strategy, chain-of-thought for the reasoning, few-shot for the reference, emotion for the tone; subject and request are pushed unconditionally. |
| `Assembler.Emits` | App.tsx:286-307 | A slot is pushed when it is unguarded or its technique is in the selection (`includes`). |
| `Assembler.ResolvedRole` | App.tsx:287 | The persona names the free-text role in direct-input mode and the chosen role otherwise. |
| `Assembler.PersonaSection` | App.tsx:288 | The persona sentence with the resolved role (or `(역할 지정)` when empty) and the perspective. |
| `Assembler.SubjectSection` | App.tsx:291 | The subject section: product, category, audience and features, each `(미입력)` when empty. |
| `Assembler.StrategySection` | App.tsx:294 | The step-back section with the goal and the criteria verbatim. |
| `Assembler.RequestSection` | App.tsx:297 | The request section with the task, or the task placeholder when empty. |
| `Assembler.ReasoningSection` | App.tsx:300 | The chain-of-thought section followed by the steps verbatim. |
| `Assembler.ReferenceSection` | App.tsx:304 | The few-shot section followed by the examples verbatim. |
| `Assembler.ToneSection` | App.tsx:308 | The tone section with the emotion and the attitude verbatim. |
| `Assembler.Parts` | App.tsx:283-309 | The sections pushed onto `promptParts`: the text of every emitted slot, in slot order. |
| `Assembler.BuildPrompt` | App.tsx:282-311 | `buildPrompt`: the parts joined with a blank line. |
| `Assembler.EmittedFromMembers` | App.tsx:286-307 | A slot is emitted exactly when it is ungated or its technique is selected. |
| `Assembler.EmittedFromInOrder` | App.tsx:284-309 | Filtering slots keeps their order. |
| `Assembler.SectionsInFixedOrder` | App.tsx:284-309 | Sections appear in the order persona, subject, strategy, request, reasoning, reference, tone, whatever the selection order. Each section appears iff its gate allows. Subject and request are always present. |
| `Assembler.AllSelectedEmitsEverySection` | App.tsx:284-309 | With every technique selected, all seven sections appear in order. |
| `Assembler.ZeroShotOnlyPrompt` | App.tsx:291-297 | With only zero-shot selected, the prompt is exactly the subject section, a blank line, and the request section. |
| `Assembler.EmittedFromMembershipOnly` | App.tsx:286-307 | Which slots are emitted depends only on which techniques are members of the selection. |
| `Assembler.PromptDependsOnMembershipOnly` | App.tsx:286-307 | Selections with the same members give the same prompt. Order and repetition do not matter. |
| `Assembler.EmittedFromWithout` | App.tsx:286-307 | Deselecting a technique removes exactly its slot and keeps all other slots in place. |
| `Assembler.EmittedFromOtherSlots` | App.tsx:286-307 | Slots not gated by a technique are emitted alike with and without it. |
| `Assembler.RemovingTechniqueRemovesItsSection` | App.tsx:286-309 | Removing a gated technique removes exactly its section text. Every other section stays byte-identical and in place. |
| `Assembler.RenderAllInsert` | App.tsx:284-309 | Inserting a slot inserts its text at the same position. |
| `Assembler.RenderAllAppend` | App.tsx:284-309 | Rendering distributes over concatenation of slot lists. |
| `Assembler.RenderAllPush` | App.tsx:286-309 | A conditional push of one slot appends that slot's text exactly when the slot is emitted. |
| `Assembler.RenderAllGated` | App.tsx:286-309 | A gated one-slot list renders as that slot's text, or as nothing. |
| `Assembler.RenderIgnoresForeignField` | App.tsx:286-308 | A section's text does not depend on a field owned by a technique other than its own gate. |
| `Assembler.UnselectedFieldsDoNotMatter` | App.tsx:283-311 | Editing a field of an unselected technique leaves the prompt unchanged. |
| `Assembler.PlaceholdersOnlyForEmpty` | App.tsx:287-297 | `(미입력)` replaces an empty subject field and the task placeholder replaces an empty task. Only the exact empty string triggers them, so whitespace is rendered verbatim. The persona sentence holds `(역할 지정)` for an empty resolved role and the resolved role verbatim otherwise. |
| `Assembler.JoinParts` | App.tsx:311 | The loop that joins the parts computes `join` with the separator. |
| `Assembler.Assemble` | App.tsx:282-311 | The step-by-step construction (conditional pushes in source order, then join) equals `BuildPrompt`. |
| `Assembler.PartsUnfolded` | App.tsx:284-309 | The specified sections are the seven conditional pushes written out in source order. |
| `Assembler.RenderGatedSlots` | App.tsx:284-309 | Rendering the seven optional or fixed slots gives the seven section texts in the same order. |
| `Assembler.EmittedUnfolded` | App.tsx:284-309 | The emitted slots are the seven gated slots written out in source order. |
| `Selection.Remove` | App.tsx:394 | `filter(t => t !== x)` keeps exactly the members other than `x` and never grows the list. |
| `Selection.RemoveAbsent` | App.tsx:394 | Filtering out an absent technique changes nothing. |
| `Selection.RemoveAppend` | App.tsx:394 | Filtering distributes over concatenation, so the order is kept. |
| `Selection.AppendFresh` | App.tsx:395 | Appending an absent technique keeps the list free of repetition. |
| `Selection.RemoveNoDuplicates` | App.tsx:394 | Filtering keeps the list free of repetition. |
| `Selection.RemoveAt` | App.tsx:394 | In a list without repetition, filtering removes exactly the technique's one position and keeps the others in order. |
| `Selection.OccursOnce` | App.tsx:394 | In a list without repetition, a technique occurs neither before nor after its index. |
| `Selection.RemoveSplice` | App.tsx:394 | Filtering out a technique that occurs once between two parts leaves the two parts joined. |
| `Selection.Toggle` | App.tsx:392-396 | The click handler's update. Afterwards `t` is selected iff it was not, unless it was the only one, and every other technique keeps its membership. |
| `Selection.ToggleKeepsValid` | App.tsx:392-396 | The toggle keeps the selection non-empty and free of repetition. |
| `Selection.ToggleCases` | App.tsx:392-396 | Toggling the only selected technique changes nothing. An absent technique is appended at the end. A selected technique among others is removed from its position, and the others keep their order. |
| `Selection.ToggleTwiceRestores` | App.tsx:392-396 | Toggling an absent technique twice restores a non-empty selection. |
| `Gemini.ChooseKey` | services/geminiService.ts:10-15 | A stored key that is present and non-empty takes precedence. Otherwise the environment key is used. |
| `Gemini.KeyMissing` | services/geminiService.ts:18 | A key is missing when it is absent, `""` or the text `"undefined"`; a key of spaces is not missing. |
| `Gemini.IsAuthError` | services/geminiService.ts:33-35 | Some marker of `AuthMarkers` occurs in the message (an absent message is read as `""`). |
| `Gemini.RenderMessage` | services/geminiService.ts:39 | The template literal shows the message, or `undefined` when the error has none. |
| `Gemini.Caught` | services/geminiService.ts:33-39 | An error message with an auth marker gives the fixed invalid-key text. Any other error gives the prefix followed by the message, with an absent message shown as "undefined". |
| `Gemini.RunPrompt` | services/geminiService.ts:7-40 | `runPrompt` always returns a non-empty text. Every failure is turned into a text. |
| `Gemini.AuthMarkersListed` | services/geminiService.ts:35 | A message is classified as a rejected key exactly when it contains one of `API_KEY`, `403`, `401`, `not authorized`, `entity was not found`, matched case-sensitively. |
| `Gemini.MissingKeyIsNotAuthError` | services/geminiService.ts:19-35 | The missing-key message contains none of the auth markers. |
| `Gemini.MissingKeyLacks` | services/geminiService.ts:19 | The missing-key message uses none of the characters `K`, `4`, `z`, `y`. |
| `Gemini.KeyMissingCases` | services/geminiService.ts:15-18 | A non-empty stored key decides alone, so a stored "undefined" masks a valid environment key. Otherwise the environment key decides. |
| `Gemini.MissingKeyShortCircuits` | services/geminiService.ts:18-39 | With a missing key the model is never called, and the result is the prefix followed by the missing-key message. |
| `Gemini.StoredUndefinedMasksEnvironment` | services/geminiService.ts:10-19 | A stored "undefined" gives the missing-key result, whatever the environment holds. |
| `Gemini.OnlyTheChosenRequestMatters` | services/geminiService.ts:22-27 | With a key present, the result depends on the model only through its answer to the request (fixed model name, chosen key, the prompt unchanged). |
| `Gemini.RunPromptOutcomes` | services/geminiService.ts:29-39 | These are the outcomes when a key is present. Non-empty response text comes back verbatim. Missing or empty text gives `결과를 생성할 수 없습니다.`. A marked error gives the invalid-key text, and any other error gives the prefixed message. |
| `Gemini.KeyResultsMentionApiKey` | services/geminiService.ts:19-36 | Both the missing-key result and the invalid-key result contain `API 키`. |
| `App.SessionStore.constructor` | App.tsx:105 | The session slot starts with whatever the browser session holds. |
| `App.SettingsModal.constructor` | App.tsx:100-101 | The dialog starts with an empty field and nothing marked saved. |
| `App.SettingsModal.Load` | App.tsx:103-109 | On opening, the field shows the stored key or `''`, and the saved mark is set exactly when that is non-empty. |
| `App.SettingsModal.EditKey` | App.tsx:171 | Typing replaces the field and nothing else. |
| `App.SettingsModal.SaveKey` | App.tsx:113-121 | A non-blank input is stored trimmed, overwriting any earlier key, and marked saved. A blank input leaves the store and the mark unchanged. |
| `App.SettingsModal.DeleteKey` | App.tsx:123-128 | Deleting clears the store and the field, and unmarks saved. |
| `App.ReopensSettings` | App.tsx:320 | A result reopens the settings when it contains `API 키` or `설정에서 키를 확인`. |
| `App.PromptFlowApp.AssembledPrompt` | App.tsx:282-313 | The prompt on display is `buildPrompt` of the current inputs, selection, custom role and mode. |
| `App.PromptFlowApp.CanRun` | App.tsx:655 | The run button is enabled when no run is in progress and the task is not empty. |
| `App.PromptFlowApp.IsHighlighted` | App.tsx:441 | A preset button is highlighted when its task equals the current task. |
| `App.PromptFlowApp.constructor` | App.tsx:253-278 | The initial state is: selection `[ZeroShot]`, the initial inputs (first role, first emotion), no custom role, list mode, idle, settings closed, no result. The run button starts disabled. |
| `App.PromptFlowApp.ToggleTechnique` | App.tsx:391-396 | The selection becomes `Toggle` of the old one and stays valid. Nothing else changes. |
| `App.PromptFlowApp.PickPreset` | App.tsx:439-444 | Only the task changes, to the preset's task. A catalog preset is then the only highlighted preset. |
| `App.PromptFlowApp.EditField` | App.tsx:468-510 | An edit overwrites exactly the edited field. This covers every field with an editor, including perspective, steps, examples, goal and criteria at App.tsx:570-616. The model allows those five edits in any state, while the page renders their editors only while their technique is selected; this over-approximation admits more traces than the page, never fewer. |
| `App.PromptFlowApp.EditCustomRole` | App.tsx:535 | Typing a free-text role replaces the custom role and nothing else. |
| `App.PromptFlowApp.ChooseRole` | App.tsx:550-556 | The direct-input sentinel switches to direct mode and leaves the role unchanged. Any other role is written to the inputs. |
| `App.PromptFlowApp.LeaveDirectInput` | App.tsx:539 | Undo leaves direct mode and clears the custom role. |
| `App.PromptFlowApp.OpenSettings` | App.tsx:363 | The settings open. The dialog loads the stored key when it goes from closed to open, and is untouched otherwise. |
| `App.PromptFlowApp.CloseSettings` | App.tsx:334 | The settings close and nothing else changes. |
| `App.PromptFlowApp.CloseResult` | App.tsx:680 | The result dialog is dismissed and nothing else changes. |
| `App.PromptFlowApp.BeginRun` | App.tsx:316-319 | It is callable only when the button is enabled (not generating, task non-empty; App.tsx:655). The page becomes busy, and the displayed prompt is what gets sent. |
| `App.PromptFlowApp.FinishRun` | App.tsx:320-328 | The result is shown and the page is idle again. The settings are open afterwards iff they were already open or the result contains a settings marker. When the result opens the closed settings, the dialog loads the stored key (App.tsx:103-109); otherwise the dialog is untouched. |
| `App.PromptFlowApp.RunTest` | App.tsx:316-329 | The result shown is `runPrompt` of the displayed prompt with the stored and environment keys. The page is idle afterwards, and the settings reopen exactly for a result with a marker; the dialog then loads the stored key if it was closed, and is untouched otherwise. |
| `App.KeyProblemsReopenSettings` | App.tsx:320-322 | A missing key, or an error that looks like a rejected key, gives a result that reopens the settings. |
| `App.OtherOutcomesKeepSettingsClosed` | App.tsx:320-322 | The converse, with a key present. A response whose text has no marker leaves the settings closed, and so does an error that is not a rejected key and whose message has no marker. The fallback text and the error prefix add no marker (services/geminiService.ts:29-39). |
| `App.EmptyResponseKeepsSettingsClosed` | services/geminiService.ts:29 | The text for a response without text contains neither settings marker. |
| `App.PrefixKeepsSettingsClosed` | services/geminiService.ts:39 | The error prefix cannot complete a settings marker, so a prefixed message reopens the settings only if the message itself does. |
| `App.InitialPrompt` | App.tsx:253-274 | Before any input, the page shows the subject section with four `(미입력)` placeholders, a blank line, and the request section with the task placeholder. |
| `App.SavedKeyIsStable` | App.tsx:103-121 | Saving a non-blank input, reopening the dialog and saving again leaves the trimmed input in the store, shown in the field and marked saved. |
| `App.SavedKeyIsUsed` | services/geminiService.ts:10-18 | A saved key other than "undefined" is the key the model is called with, whatever the environment holds. |

## Left out

- Rendering is not modelled: React, JSX markup, styling, the guide dialog, the technique detail dialog and the icon elements. Icons are names only.
- The `useCallback`/`useEffect` plumbing that recomputes the displayed prompt is not modelled. `PromptFlowApp.AssembledPrompt` computes `buildPrompt` of the current state on demand instead.
- Browser side effects with timing are not modelled: clipboard writes, `alert` and the `setTimeout` reset of the copy label.
- The Gemini client library and the network call are not modelled. They are the parameter `generate` from a request to an outcome, either response text or an error message, each possibly absent.
- `sessionStorage` and `process.env` are an `Option<string>` slot (`SessionStore`) and an `Option<string>` constant (`PromptFlowApp.env`). Only the manual-key entry of the session storage is modelled.
- `console.error` is not modelled because it only logs.
- `index.tsx` (mounting the page) and the unused `window.aistudio` declaration are not part of this model.
- `runPrompt` rejects instead of returning a text in two cases. One is a thrown value that is `null` or `undefined`, because reading its `message` fails. The other is a thrown value whose `message` is truthy but not a string (for example the number `403`), because `msg.includes` fails (services/geminiService.ts:33-35). Neither case is modelled, because `Failure` carries only an optional string message. For the same reason the `catch` branch of `handleRunTest` (App.tsx:324-325) is not modelled either. That branch would show a fixed error text without opening the settings.
- A thrown value without a `message` (a thrown string, or an object without that property) is `Failure(None)`. Its result is the error prefix followed by `undefined`, as `Caught(None)` states.
- The technique-specific fields are plain strings. The page always initialises them, so their optional typing in types.ts:35-42 never produces "undefined" in a prompt.
- The emotion and attitude fields have no editor on the page, so `EditField` excludes them. The role has its own selector.
- `App.PromptFlowApp.RunTest`: treats the awaited call as finishing before any other event. Edits made while a run is in flight are modelled only through `BeginRun` and `FinishRun` separately, and two overlapping runs are not modelled, because the button is disabled during a run.
- The unused model identifier `gemini-3-pro-preview` in types.ts is not modelled.
- `Catalog.GetIcon`: the table is a map of the seventeen registered names only. In the original, `icons` is an object literal, so a name inherited from `Object.prototype` (`toString`, `constructor`, `__proto__`, …) finds a truthy value and does not fall back to `Zap`; the model returns `Zap` for those names. The page only passes catalog names, which are all registered (`CatalogIconsRegistered`).
- Guide and detail dialog flags (`isGuideOpen`, `detailTechnique`) and the copy label are not modelled because they only affect display.
