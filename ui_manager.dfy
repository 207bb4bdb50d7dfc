/**
 * The UI state holder: a note panel and a look prompt, each a panel with a
 * text label. The panels and labels belong to the UI manager alone; a label
 * reference left unassigned in the scene is None, an assigned one holds its text;
 * a panel reference is Unassigned or holds the panel's active flag.
 */
module UI {

  import opened Wrappers

  /** A panel reference: unassigned, or assigned with the panel's active flag. */
  datatype Panel = Unassigned | Assigned(active: bool)

  class UIManager {
    var noteDisplayPanel: Panel
    var noteText: Option<string>
    var lookPromptPanel: Panel
    var lookPromptText: Option<string>

    constructor (noteDisplayPanel: Panel, noteText: Option<string>,
                 lookPromptPanel: Panel, lookPromptText: Option<string>)
      ensures this.noteDisplayPanel == noteDisplayPanel && this.noteText == noteText
      ensures this.lookPromptPanel == lookPromptPanel && this.lookPromptText == lookPromptText
    {
      this.noteDisplayPanel := noteDisplayPanel;
      this.noteText := noteText;
      this.lookPromptPanel := lookPromptPanel;
      this.lookPromptText := lookPromptText;
    }

    /**
     * What the note panel shows: None for nothing, Some(t) for the text t.
     * With the label unassigned the panel can never be shown.
     */
    ghost predicate NotePanelDisplays(shown: Option<string>)
      reads this
    {
      && (noteDisplayPanel.Assigned? ==> (noteDisplayPanel.active <==> shown.Some? && noteText.Some?))
      && (noteDisplayPanel == Assigned(true) ==> noteText == shown)
    }

    /** What the look prompt shows, in the same sense as NotePanelDisplays. */
    ghost predicate LookPromptDisplays(shown: Option<string>)
      reads this
    {
      && (lookPromptPanel.Assigned? ==> (lookPromptPanel.active <==> shown.Some? && lookPromptText.Some?))
      && (lookPromptPanel == Assigned(true) ==> lookPromptText == shown)
    }

    /** The hiding part of Awake: both panels start hidden. */
    method Awake()
      modifies this
      ensures noteDisplayPanel.Assigned? == old(noteDisplayPanel.Assigned?) && noteDisplayPanel != Assigned(true)
      ensures lookPromptPanel.Assigned? == old(lookPromptPanel.Assigned?) && lookPromptPanel != Assigned(true)
      ensures noteText == old(noteText) && lookPromptText == old(lookPromptText)
      ensures NotePanelDisplays(None) && LookPromptDisplays(None)
    {
      HideInteractionPanel();
      HideLookPrompt();
    }

    /** Shows the note panel with the text, when both panel and label are assigned. */
    method ShowInteractionPanel(textToShow: string)
      modifies this
      ensures old(noteDisplayPanel.Assigned? && noteText.Some?) ==>
        noteDisplayPanel == Assigned(true) && noteText == Some(textToShow)
      ensures !old(noteDisplayPanel.Assigned? && noteText.Some?) ==>
        noteDisplayPanel == old(noteDisplayPanel) && noteText == old(noteText)
      ensures lookPromptPanel == old(lookPromptPanel) && lookPromptText == old(lookPromptText)
    {
      if noteDisplayPanel.Assigned? && noteText.Some? {
        noteText := Some(textToShow);
        noteDisplayPanel := Assigned(true);
      }
    }

    /** Hides the note panel when it is assigned; hiding a hidden panel changes nothing. */
    method HideInteractionPanel()
      modifies this
      ensures noteDisplayPanel == if old(noteDisplayPanel.Assigned?) then Assigned(false) else Unassigned
      ensures old(noteDisplayPanel) != Assigned(true) ==> unchanged(this)
      ensures noteText == old(noteText)
      ensures lookPromptPanel == old(lookPromptPanel) && lookPromptText == old(lookPromptText)
    {
      if noteDisplayPanel.Assigned? {
        noteDisplayPanel := Assigned(false);
      }
    }

    /** Shows the look prompt with the text, when both panel and label are assigned. */
    method ShowLookPrompt(promptText: string)
      modifies this
      ensures old(lookPromptPanel.Assigned? && lookPromptText.Some?) ==>
        lookPromptPanel == Assigned(true) && lookPromptText == Some(promptText)
      ensures !old(lookPromptPanel.Assigned? && lookPromptText.Some?) ==>
        lookPromptPanel == old(lookPromptPanel) && lookPromptText == old(lookPromptText)
      ensures noteDisplayPanel == old(noteDisplayPanel) && noteText == old(noteText)
    {
      if lookPromptPanel.Assigned? && lookPromptText.Some? {
        lookPromptText := Some(promptText);
        lookPromptPanel := Assigned(true);
      }
    }

    /** Hides the look prompt when it is assigned; hiding a hidden prompt changes nothing. */
    method HideLookPrompt()
      modifies this
      ensures lookPromptPanel == if old(lookPromptPanel.Assigned?) then Assigned(false) else Unassigned
      ensures old(lookPromptPanel) != Assigned(true) ==> unchanged(this)
      ensures lookPromptText == old(lookPromptText)
      ensures noteDisplayPanel == old(noteDisplayPanel) && noteText == old(noteText)
    {
      if lookPromptPanel.Assigned? {
        lookPromptPanel := Assigned(false);
      }
    }
  }
}
