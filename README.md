# The Yellow Lilac: a verified model of the narrative and interaction core

This project is a Dafny model of the small state machines that drive *The Yellow Lilac*, a first-person Unity game set in an apartment. It covers four parts:

- **The apartment director** (`ApartmentDirector`). It dispatches story shifts by note id. Shift 0 gives the book a new material. Shift 1 starts a fade of the apartment light towards a new colour. It also keeps a note counter that decides which notes are active.
- **The light fade** (`FadeLightColor`). This coroutine is modelled as a step machine. Each frame it resumes once. While the elapsed time is below the duration it writes `Lerp(start, target, time/duration)` and adds the frame time. After that it writes the target colour exactly and ends.
- **The player interaction state machine** (`PlayerInteraction`). Each frame it either closes the open note or does highlight detection and then may open the note of the highlighted object.
- **The UI manager** (`UIManager`) and **the interactable record** (`InteractableObject`). These are the observable effects of the interaction: a note panel, a look prompt, and one outline per object.

Modules:

- `Wrappers` (wrappers.dfy) holds `Option`.
- `Engine` (engine.dfy) holds stand-ins for the engine types the scripts touch: colours and `Lerp`, game objects, lights, renderers, the cursor, the input component and the movement controller. `SetActive` becomes a write of a field.
- `Interactables` (interactable_object.dfy), `UI` (ui_manager.dfy), `Fading` (light_fade.dfy), `Director` (apartment_director.dfy) and `Interaction` (player_interaction.dfy) follow the source files.

Every state-changing operation is a method on a class. Its `ensures` clauses give the whole new state.

- The fade method `LightFade.Resume` is proved against the pure function `Fading.Step`. The lemmas about `Step` and `Run` then prove the fade's promises: the start colour is captured once, each in-loop parameter lies in [0, 1), and elapsed time is the sum of the frame times. The loop exits exactly when those times reach the duration, and the light then holds the target colour exactly, whatever the frame times were.
- `PlayerInteraction.Valid()` is the interaction invariant. Every frame preserves it. It ties the note panel, the look prompt, the current outline and the player's control to the two state variables `isShowingNote` and `currentInteractable`.

Points where the code's behaviour is easy to misread:

- The director has one dispatch over two shifts and one colour fade.
- `EnableNoteByID` makes every assigned note whose `noteID` equals the counter active. That can be none, one or several notes.
- `time/duration` reaches `Color.Lerp` unclamped. `Fading.InLoopWrite` proves that, along any run of a fade, every in-loop write uses a parameter in [0, 1).
- `ApartmentDirector.cs:104` reads `note.noteID`, but `InteractableObject.cs` declares no such field. The model gives the record an integer `noteID`.

## Model

| member | source | states |
|---|---|---|
| `Interactables.InteractableObject.constructor` | Assets/Scripts/ObjectInteraction/InteractableObject.cs:9-19 | The record holds the prompt text, the note text, an optional outline object and the note id, all fixed once the object exists. |
| `Interactables.InteractableObject.OnEnable` | Assets/Scripts/ObjectInteraction/InteractableObject.cs:21-28 | Whenever an outline is assigned it ends inactive. It may change only the outline, so with no outline nothing changes, and the prompt and note text never change. |
| `Interactables.InteractableObject.SetActive` | Assets/_Project/Features/ApartmentDirector.cs:105 | The object's active flag becomes the given value. Its outline is switched off exactly when the object goes from inactive to active, because the engine then runs OnEnable. Otherwise the outline is untouched. |
| `UI.UIManager.constructor` | Assets/_Project/Features/UI/Scripts/UIManager.cs:13-19 | The manager holds the note panel, its label, the look-prompt panel and its label, each possibly unassigned. |
| `UI.UIManager.Awake` | Assets/_Project/Features/UI/Scripts/UIManager.cs:34-36 | After Awake neither the note panel nor the look prompt is active. Both show nothing, the labels are unchanged, and which references are assigned is unchanged. |
| `UI.UIManager.ShowInteractionPanel` | Assets/_Project/Features/UI/Scripts/UIManager.cs:45-52 | With panel and label both assigned, the label holds the text and the panel is active. Otherwise nothing changes. The look prompt is never touched. |
| `UI.UIManager.HideInteractionPanel` | Assets/_Project/Features/UI/Scripts/UIManager.cs:57-63 | An assigned panel ends inactive and an unassigned one stays unassigned. Hiding a panel that is not active changes nothing, so hiding is idempotent. The label and the look prompt are never touched. |
| `UI.UIManager.ShowLookPrompt` | Assets/_Project/Features/UI/Scripts/UIManager.cs:71-78 | With prompt panel and label both assigned, the label holds the text and the prompt is active. Otherwise nothing changes. The note panel is never touched. |
| `UI.UIManager.HideLookPrompt` | Assets/_Project/Features/UI/Scripts/UIManager.cs:83-89 | An assigned prompt ends inactive. Hiding an inactive prompt changes nothing, so hiding is idempotent. The note panel is never touched. |
| `Fading.Step` | Assets/_Project/Features/ApartmentDirector.cs:75-81 | One resumption never changes the start colour, the target or the duration, and never decreases the elapsed time. A finished fade stays as it is. A resumption that exits the loop leaves the light at the target exactly. |
| `Fading.Begin` | Assets/_Project/Features/ApartmentDirector.cs:71-79 | Starting a fade captures the light's current colour as the start colour. With duration ≤ 0 the loop body never runs: the fade finishes at once with the light at the target and no time elapsed. Otherwise the first frame writes `Lerp(start, target, 0)` and the elapsed time becomes that frame's time. |
| `Fading.Run` | Assets/_Project/Features/ApartmentDirector.cs:75-80 | Resuming once per frame, over any non-negative frame times, keeps the captured start colour, the target and the duration, and the elapsed time never decreases. |
| `Fading.RunThenStep` | Assets/_Project/Features/ApartmentDirector.cs:75-80 | Resuming over some frames and then one more is the same as one further resumption after them: the coroutine's frames compose. |
| `Fading.InLoopWrite` | Assets/_Project/Features/ApartmentDirector.cs:73-78 | Along any run of a fade started on a colour, take a resumption made while the loop is still running, its elapsed time below the duration. That elapsed time is the sum of the earlier frame times, the resumption writes `Lerp(start, target, elapsed/duration)` with that parameter in [0, 1), and the loop has not exited after the write. |
| `Fading.RunAfterFinish` | Assets/_Project/Features/ApartmentDirector.cs:81 | Once the loop has exited, the coroutine has ended and no later frame changes anything. |
| `Fading.RunSettlesOnTarget` | Assets/_Project/Features/ApartmentDirector.cs:75-81 | Whenever a run of frames ends with the loop exited, the light holds the target colour exactly, whatever frame times were used. |
| `Fading.RunTime` | Assets/_Project/Features/ApartmentDirector.cs:73-78 | While the loop has not exited, the elapsed time is the start time plus the sum of all frame times. |
| `Fading.RunFinishedIff` | Assets/_Project/Features/ApartmentDirector.cs:75-80 | The loop has exited after a run of frames if and only if the elapsed time plus the frame times before the last resumption reaches the duration. |
| `Fading.FadeConverges` | Assets/_Project/Features/ApartmentDirector.cs:71-81 | For a fade started on any colour, over any frame times, the fade has finished exactly when the frame times before the last resumption add up to the duration. It then leaves the light at the target exactly, however the time was split into frames. |
| `Fading.LightFade.Start` | Assets/_Project/Features/ApartmentDirector.cs:71-79 | Starting the coroutine on a light captures its colour and runs to the first yield. The coroutine's state and the light's colour are then `Begin` of the light's old colour, the target, the duration and the frame time. |
| `Fading.LightFade.Resume` | Assets/_Project/Features/ApartmentDirector.cs:75-81 | One later frame's resumption moves the coroutine and its light to `Step` of their previous state, and keeps the elapsed time non-negative. |
| `Director.ApartmentDirector.constructor` | Assets/_Project/Features/ApartmentDirector.cs:7-18 | The director starts at note 0 with no fade started, holding its configured notes, book, material, light, colour and duration. |
| `Director.ApartmentDirector.TriggerNoteShift` | Assets/_Project/Features/ApartmentDirector.cs:32-43 | Id 0 gives an assigned book renderer the new material and starts no fade. Id 1 starts exactly one fresh fade of an assigned light towards the new colour over the configured duration, and leaves the book alone. Any other id changes neither book, light nor fades. The note counter never changes. |
| `Director.ApartmentDirector.FirstShiftSequence` | Assets/_Project/Features/ApartmentDirector.cs:57-62 | An assigned book renderer gets the new material. Nothing else may change. |
| `Director.ApartmentDirector.SecondShiftSequence` | Assets/_Project/Features/ApartmentDirector.cs:64-69 | With the light assigned, exactly one fade is appended to the started fades. It is fresh, drives the apartment light, and is in state `Begin(old light colour, new colour, configured duration, frame time)`. With no light, nothing changes. |
| `Director.ApartmentDirector.NextNote` | Assets/_Project/Features/ApartmentDirector.cs:84-88 | The note counter grows by exactly one. Every assigned note is then active exactly when its id equals the new counter. The only outlines that change are those of notes switched on, and those are switched off. |
| `Director.ApartmentDirector.EnableNoteByID` | Assets/_Project/Features/ApartmentDirector.cs:90-107 | Every assigned note ends active exactly when its id equals the target. Unassigned entries are skipped, and a missing or empty array changes nothing. A note switched from inactive to active starts with its outline off, and no other outline changes. If the notes already matched the target, nothing changes, so repeating the call is idempotent. |
| `Interaction.PlayerInteraction.Start` | Assets/Scripts/ObjectInteraction/PlayerInteraction.cs:21-30 | After the UI has hidden its panels, the interaction starts with no note open and nothing highlighted, and its invariant holds. |
| `Interaction.PlayerInteraction.Update` | Assets/Scripts/ObjectInteraction/PlayerInteraction.cs:32-55 | The frame preserves the interaction invariant. With a note open, detection is skipped, the current interactable never changes and the detected object's outline is untouched; `interact` closes the note, restores control and is reset, and without `interact` nothing changes at all. Every frame keeps each of the four UI references assigned or unassigned as it was. The note label changes only when the frame opens a note with panel and label assigned, and then holds that note's text; the prompt label changes only when the frame shows the current object's prompt (on a highlight change or on closing a note) with panel and label assigned, and then holds that prompt. With no note open, detection runs first and the detected object becomes current. `interact` then opens a note exactly when something is current, and is reset exactly then; otherwise it stays set and control is untouched. A quiet frame, with no note open, the same object detected and no `interact` on it, changes neither the UI, the input, the controller, the cursor nor the outline. |
| `Interaction.PlayerInteraction.HandleInteractionDetection` | Assets/Scripts/ObjectInteraction/PlayerInteraction.cs:60-93 | Detecting the current object changes nothing. On a change, the old outline goes off (unless the new object shares it) and the prompt is hidden. The new outline goes on, the prompt shows the new object's prompt text when panel and label are assigned, and the detected object becomes current. The note panel is never touched. |
| `Interaction.PlayerInteraction.ShowNote` | Assets/Scripts/ObjectInteraction/PlayerInteraction.cs:95-109 | The showing flag is set. The current outline is switched off and the prompt hidden. The note panel shows the text when panel and label are assigned. Player control is taken away, and `interact` is untouched. |
| `Interaction.PlayerInteraction.CloseNote` | Assets/Scripts/ObjectInteraction/PlayerInteraction.cs:111-123 | The showing flag is cleared, the note panel hidden and control restored. The current interactable's outline and prompt are shown again when it exists. |
| `Interaction.PlayerInteraction.SetPlayerControl` | Assets/Scripts/ObjectInteraction/PlayerInteraction.cs:128-136 | Controller enabled, cursor locked and cursor-look input all equal `hasControl`. The cursor is visible exactly when `hasControl` is false, and the lock mode is Locked exactly when `hasControl` is true and None otherwise. |

## Left out

- `AbyssController.cs` is not part of this model. It is floating-point effect code (distance, inverse lerp, power, overlay alpha), and its `LateUpdate` computes a value it never uses.
- The older `Assets/Scripts/UIManager.cs` is not part of this model. It is superseded by the `_Project` UI manager, which adds the look-prompt methods the interaction calls.
- Singleton instances and `Destroy` in the `Awake` methods are not modelled. The interaction holds its UI manager as a field, and the director is an ordinary object.
- The sphere cast, the camera and component lookups (`PlayerInteraction.cs:25-30, 62-69`) are not modelled. The object the cast hit is an input to `Update`.
- The engine's coroutine scheduler is not modelled. Starting a coroutine runs it to its first yield, within `LightFade.Start`. Each later frame is one call to `LightFade.Resume` with that frame's `Time.deltaTime`, which is assumed never negative. `Fading.Run` is that sequence of calls.
- Several fades running on the same light at once are not modelled: no claim covers their interleaving. A trigger of shift 1 during a running fade starts a second, independent `LightFade`.
- Float rounding is not modelled. Colours and times are reals, and `Lerp` follows the engine's clamped linear interpolation. No proof depends on its body.
- A `NullReferenceException` from an unassigned book renderer or light aborts the shift before any write. The model treats that as "nothing changes". The exception log itself is not modelled, and neither are `Debug.Log`, `LogWarning` and `LogError`.
- Fields these scripts never read or write are left out: `paintingsToWarp`, the audio sources, `shadowEffect`, `vasePrefab` and `vaseSpawnPoint`.
- A note's game object is modelled as the note's own `active` flag, one interactable per game object. Parent activation and OnDisable hooks are not modelled.
- UI panels and labels belong to the UI manager alone. A panel that is also some object's outline is not modelled.
- The four UI references (note panel, note label, prompt panel, prompt label) are taken to be distinct objects. One game object assigned to both panels is not modelled.
- The Unity `?.` operator's treatment of destroyed objects is not modelled.
- In the Editor an unassigned serialized `outlineObject` is a fake-null object, so `outlineObject?.SetActive` (`PlayerInteraction.cs:78, 86, 102, 120`) throws there. The model skips the call, as it does for a true null.
- `Interaction.PlayerInteraction.Update`: the invariant covers the interaction and UI state only. It does not account for the director switching the current note off or re-running its OnEnable between frames.
- `Director.ApartmentDirector.NextNote`: does not model the 32-bit wrap-around of `currentNote`, which is reached only after 2^31 − 1 calls.
