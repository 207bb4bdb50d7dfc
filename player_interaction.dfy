/**
 * The player's interaction state machine: each frame it either closes the open
 * note or highlights what the player is looking at and may open its note.
 * The sphere cast is an input to each frame: the interactable it hit, or null.
 */
module Interaction {

  import opened Wrappers
  import opened Engine
  import opened Interactables
  import opened UI

  class PlayerInteraction {
    const ui: UIManager
    const input: StarterAssetsInputs
    const controller: FirstPersonController
    const cursor: Cursor
    var isShowingNote: bool
    var currentInteractable: InteractableObject?

    /** Movement, look and cursor settings for `hasControl`. */
    ghost predicate HasControl(hasControl: bool)
      reads input, controller, cursor
    {
      && controller.enabled == hasControl
      && input.cursorLocked == hasControl
      && input.cursorInputForLook == hasControl
      && cursor.lockState == (if hasControl then CursorLockMode.Locked else CursorLockMode.None)
      && cursor.visible == !hasControl
    }

    /**
     * The interaction invariant: an open note belongs to the current
     * interactable and takes control away from the player; the note panel
     * shows the open note's text; the look prompt and the outline show the
     * current interactable exactly while no note is open.
     */
    ghost predicate Valid()
      reads this, ui, input, controller, cursor, OutlineOf(currentInteractable)
    {
      && (isShowingNote ==> currentInteractable != null && HasControl(false))
      && (currentInteractable != null && currentInteractable.outlineObject != null ==>
            currentInteractable.outlineObject.active == !isShowingNote)
      && ui.NotePanelDisplays(if isShowingNote then Some(currentInteractable.noteText) else Option.None)
      && ui.LookPromptDisplays(
           if currentInteractable != null && !isShowingNote then Some(currentInteractable.interactionPrompt) else Option.None)
    }

    /** Start: nothing is highlighted and no note is open; the UI has already hidden its panels in Awake. */
    constructor Start(ui: UIManager, input: StarterAssetsInputs, controller: FirstPersonController, cursor: Cursor)
      requires ui.NotePanelDisplays(Option.None) && ui.LookPromptDisplays(Option.None)
      ensures this.ui == ui && this.input == input && this.controller == controller && this.cursor == cursor
      ensures !isShowingNote && currentInteractable == null
      ensures Valid()
    {
      this.ui := ui;
      this.input := input;
      this.controller := controller;
      this.cursor := cursor;
      isShowingNote := false;
      currentInteractable := null;
    }

    /** One frame, where `detected` is what the sphere cast hit this frame. */
    method Update(detected: InteractableObject?)
      requires Valid()
      modifies this, ui, input, controller, cursor, OutlineOf(currentInteractable), OutlineOf(detected)
      ensures Valid()
      ensures old(isShowingNote) ==> currentInteractable == old(currentInteractable)
      ensures old(isShowingNote) ==> isShowingNote == !old(input.interact) && !input.interact
      ensures old(isShowingNote) && !isShowingNote ==> HasControl(true)
      ensures old(isShowingNote) ==> unchanged(OutlineOf(detected) - OutlineOf(currentInteractable))
      ensures old(isShowingNote) && !old(input.interact) ==> unchanged(this, ui, input, controller, cursor)
      ensures ui.noteDisplayPanel.Assigned? == old(ui.noteDisplayPanel.Assigned?) && ui.noteText.Some? == old(ui.noteText.Some?)
      ensures ui.lookPromptPanel.Assigned? == old(ui.lookPromptPanel.Assigned?) && ui.lookPromptText.Some? == old(ui.lookPromptText.Some?)
      ensures !old(isShowingNote) && detected == old(currentInteractable) && (detected == null || !old(input.interact)) ==>
        !isShowingNote && unchanged(ui, input, controller, cursor) && unchanged(OutlineOf(detected))
      ensures ui.noteText == if !old(isShowingNote) && isShowingNote && old(ui.noteDisplayPanel.Assigned? && ui.noteText.Some?)
        then Some(currentInteractable.noteText) else old(ui.noteText)
      ensures ui.lookPromptText == if old(ui.lookPromptPanel.Assigned? && ui.lookPromptText.Some?) && currentInteractable != null
          && (if old(isShowingNote) then old(input.interact) else detected != old(currentInteractable))
        then Some(currentInteractable.interactionPrompt) else old(ui.lookPromptText)
      ensures !old(isShowingNote) ==> currentInteractable == detected
      ensures !old(isShowingNote) ==> isShowingNote == (detected != null && old(input.interact))
      ensures !old(isShowingNote) ==> input.interact == (old(input.interact) && detected == null)
      ensures !old(isShowingNote) && !isShowingNote ==>
        controller.enabled == old(controller.enabled) && input.cursorLocked == old(input.cursorLocked)
        && input.cursorInputForLook == old(input.cursorInputForLook)
        && cursor.lockState == old(cursor.lockState) && cursor.visible == old(cursor.visible)
      ensures !old(isShowingNote) && old(currentInteractable) != detected && old(currentInteractable) != null
        && old(currentInteractable).outlineObject != null && old(currentInteractable).outlineObject !in OutlineOf(detected)
        ==> !old(currentInteractable).outlineObject.active
    {
      if isShowingNote {
        if input.interact {
          CloseNote();
          input.interact := false;
        }
      } else {
        HandleInteractionDetection(detected);
        if currentInteractable != null && input.interact {
          ShowNote(currentInteractable.noteText);
          input.interact := false;
        }
      }
    }

    /**
     * Highlight detection: when the detected object differs from the current
     * one, the old outline goes off and its prompt is hidden, the new outline
     * goes on and its prompt is shown, and the detected object becomes current.
     * When it is the same object nothing changes.
     */
    method HandleInteractionDetection(detected: InteractableObject?)
      modifies this, ui, OutlineOf(currentInteractable), OutlineOf(detected)
      ensures currentInteractable == detected && isShowingNote == old(isShowingNote)
      ensures detected == old(currentInteractable) ==>
        unchanged(ui) && unchanged(OutlineOf(detected))
      ensures detected != old(currentInteractable) && detected != null && detected.outlineObject != null ==>
        detected.outlineObject.active
      ensures detected != old(currentInteractable) && old(currentInteractable) != null
        && old(currentInteractable).outlineObject != null && old(currentInteractable).outlineObject !in OutlineOf(detected)
        ==> !old(currentInteractable).outlineObject.active
      ensures detected != old(currentInteractable) && detected != null && old(ui.lookPromptPanel.Assigned? && ui.lookPromptText.Some?) ==>
        ui.lookPromptPanel == Assigned(true) && ui.lookPromptText == Some(detected.interactionPrompt)
      ensures detected != old(currentInteractable) && detected != null && !old(ui.lookPromptPanel.Assigned? && ui.lookPromptText.Some?) ==>
        ui.lookPromptText == old(ui.lookPromptText) &&
        ui.lookPromptPanel == if old(currentInteractable) != null && old(ui.lookPromptPanel.Assigned?) then Assigned(false) else old(ui.lookPromptPanel)
      ensures detected != old(currentInteractable) && detected == null ==>
        ui.lookPromptText == old(ui.lookPromptText) &&
        ui.lookPromptPanel == if old(ui.lookPromptPanel.Assigned?) then Assigned(false) else Unassigned
      ensures ui.noteDisplayPanel == old(ui.noteDisplayPanel) && ui.noteText == old(ui.noteText)
    {
      if detected != currentInteractable {
        if currentInteractable != null {
          if currentInteractable.outlineObject != null {
            currentInteractable.outlineObject.active := false;
          }
          ui.HideLookPrompt();
        }
        if detected != null {
          if detected.outlineObject != null {
            detected.outlineObject.active := true;
          }
          ui.ShowLookPrompt(detected.interactionPrompt);
        }
        currentInteractable := detected;
      }
    }

    /**
     * Opens a note with the given text: the flag is set, the current outline
     * and look prompt are hidden, the note panel shows the text and the
     * player loses control.
     */
    method ShowNote(text: string)
      modifies this, ui, input, controller, cursor, OutlineOf(currentInteractable)
      ensures isShowingNote && currentInteractable == old(currentInteractable)
      ensures input.interact == old(input.interact)
      ensures HasControl(false)
      ensures currentInteractable != null && currentInteractable.outlineObject != null ==>
        !currentInteractable.outlineObject.active
      ensures ui.lookPromptText == old(ui.lookPromptText)
      ensures ui.lookPromptPanel ==
        if currentInteractable != null && old(ui.lookPromptPanel.Assigned?) then Assigned(false) else old(ui.lookPromptPanel)
      ensures old(ui.noteDisplayPanel.Assigned? && ui.noteText.Some?) ==>
        ui.noteDisplayPanel == Assigned(true) && ui.noteText == Some(text)
      ensures !old(ui.noteDisplayPanel.Assigned? && ui.noteText.Some?) ==>
        ui.noteDisplayPanel == old(ui.noteDisplayPanel) && ui.noteText == old(ui.noteText)
    {
      isShowingNote := true;
      if currentInteractable != null {
        if currentInteractable.outlineObject != null {
          currentInteractable.outlineObject.active := false;
        }
        ui.HideLookPrompt();
      }
      ui.ShowInteractionPanel(text);
      SetPlayerControl(false);
    }

    /**
     * Closes the open note: the flag is cleared, the note panel is hidden,
     * control returns to the player, and the current outline and look prompt
     * are shown again.
     */
    method CloseNote()
      modifies this, ui, input, controller, cursor, OutlineOf(currentInteractable)
      ensures !isShowingNote && currentInteractable == old(currentInteractable)
      ensures input.interact == old(input.interact)
      ensures HasControl(true)
      ensures currentInteractable != null && currentInteractable.outlineObject != null ==>
        currentInteractable.outlineObject.active
      ensures ui.noteDisplayPanel == if old(ui.noteDisplayPanel.Assigned?) then Assigned(false) else Unassigned
      ensures ui.noteText == old(ui.noteText)
      ensures currentInteractable != null && old(ui.lookPromptPanel.Assigned? && ui.lookPromptText.Some?) ==>
        ui.lookPromptPanel == Assigned(true) && ui.lookPromptText == Some(currentInteractable.interactionPrompt)
      ensures !(currentInteractable != null && old(ui.lookPromptPanel.Assigned? && ui.lookPromptText.Some?)) ==>
        ui.lookPromptPanel == old(ui.lookPromptPanel) && ui.lookPromptText == old(ui.lookPromptText)
    {
      isShowingNote := false;
      ui.HideInteractionPanel();
      SetPlayerControl(true);
      if currentInteractable != null {
        if currentInteractable.outlineObject != null {
          currentInteractable.outlineObject.active := true;
        }
        ui.ShowLookPrompt(currentInteractable.interactionPrompt);
      }
    }

    /** Gives movement and look control to the player, or takes it away and frees the cursor. */
    method SetPlayerControl(hasControl: bool)
      modifies input, controller, cursor
      ensures HasControl(hasControl)
      ensures input.interact == old(input.interact)
    {
      controller.enabled := hasControl;
      input.cursorLocked := hasControl;
      input.cursorInputForLook := hasControl;
      cursor.lockState := if hasControl then CursorLockMode.Locked else CursorLockMode.None;
      cursor.visible := !hasControl;
    }
  }
}
