/**
 * The apartment director: dispatches story shifts by note id and keeps the
 * note counter that decides which notes are active.
 */
module Director {

  import opened Engine
  import opened Interactables
  import opened Fading

  class ApartmentDirector {
    /** The index of the note the story has reached. */
    var currentNote: int
    /** The notes of the apartment; the array and its entries may be unassigned. */
    const notes: array?<InteractableObject?>
    const bookRenderer: Renderer?
    const bookNewMaterial: Material?
    const apartmentLight: Light?
    const newLightColor: Color
    const lightChangeDuration: real
    /** The light fades started by the second shift, in the order they were started. */
    var fades: seq<LightFade>

    constructor (notes: array?<InteractableObject?>, bookRenderer: Renderer?, bookNewMaterial: Material?,
                 apartmentLight: Light?, newLightColor: Color, lightChangeDuration: real)
      ensures this.notes == notes && this.bookRenderer == bookRenderer && this.bookNewMaterial == bookNewMaterial
      ensures this.apartmentLight == apartmentLight && this.newLightColor == newLightColor
      ensures this.lightChangeDuration == lightChangeDuration
      ensures currentNote == 0 && fades == []
    {
      this.notes := notes;
      this.bookRenderer := bookRenderer;
      this.bookNewMaterial := bookNewMaterial;
      this.apartmentLight := apartmentLight;
      this.newLightColor := newLightColor;
      this.lightChangeDuration := lightChangeDuration;
      currentNote := 0;
      fades := [];
    }

    /** The assigned notes. */
    ghost function NoteObjects(): set<InteractableObject>
      reads this, notes
    {
      if notes == null then {} else set i | 0 <= i < notes.Length && notes[i] != null :: notes[i]
    }

    /** The notes that are inactive now and would be switched on for `target`. */
    ghost function Enabling(target: int): set<InteractableObject>
      reads this, notes, NoteObjects()
    {
      set n | n in NoteObjects() && !n.active && n.noteID == target
    }

    /** Every assigned note is active exactly when its id is `target`. */
    ghost predicate Selects(target: int)
      reads this, notes, NoteObjects()
    {
      forall n :: n in NoteObjects() ==> n.active == (n.noteID == target)
    }

    /**
     * Dispatches a story shift: id 0 starts the first shift, id 1 the second,
     * any other id does nothing. `dt` is the time of the current frame.
     */
    method TriggerNoteShift(noteID: int, dt: real)
      requires dt >= 0.0
      modifies this, bookRenderer, apartmentLight
      ensures currentNote == old(currentNote)
      ensures noteID == 0 && bookRenderer != null ==> bookRenderer.material == bookNewMaterial
      ensures noteID != 0 && bookRenderer != null ==> bookRenderer.material == old(bookRenderer.material)
      ensures noteID != 1 ==> fades == old(fades)
      ensures noteID != 1 && apartmentLight != null ==> apartmentLight.color == old(apartmentLight.color)
      ensures noteID == 1 && apartmentLight == null ==> fades == old(fades)
      ensures noteID == 1 && apartmentLight != null ==>
        && |fades| == |old(fades)| + 1 && fades[..|old(fades)|] == old(fades)
        && fresh(fades[|old(fades)|]) && fades[|old(fades)|].Valid()
        && fades[|old(fades)|].light == apartmentLight
        && fades[|old(fades)|].State() == Begin(old(apartmentLight.color), newLightColor, lightChangeDuration, dt)
    {
      if noteID == 0 {
        FirstShiftSequence();
      } else if noteID == 1 {
        SecondShiftSequence(dt);
      }
    }

    /**
     * The first shift gives the book its new material. An unassigned renderer
     * makes the coroutine fail before the assignment, so nothing changes.
     */
    method FirstShiftSequence()
      modifies bookRenderer
      ensures bookRenderer != null ==> bookRenderer.material == bookNewMaterial
    {
      if bookRenderer != null {
        bookRenderer.material := bookNewMaterial;
      }
    }

    /**
     * The second shift starts one fade of the apartment light towards the new
     * colour over the configured duration. An unassigned light makes the fade
     * fail before it writes anything, so nothing changes.
     */
    method SecondShiftSequence(dt: real)
      requires dt >= 0.0
      modifies this, apartmentLight
      ensures currentNote == old(currentNote)
      ensures apartmentLight == null ==> fades == old(fades)
      ensures apartmentLight != null ==>
        && |fades| == |old(fades)| + 1 && fades[..|old(fades)|] == old(fades)
        && fresh(fades[|old(fades)|]) && fades[|old(fades)|].Valid()
        && fades[|old(fades)|].light == apartmentLight
        && fades[|old(fades)|].State() == Begin(old(apartmentLight.color), newLightColor, lightChangeDuration, dt)
    {
      if apartmentLight != null {
        var fade := new LightFade.Start(apartmentLight, newLightColor, lightChangeDuration, dt);
        fades := fades + [fade];
      }
    }

    /** Advances the note counter by one and selects the notes with the new id. */
    method NextNote()
      modifies this, NoteObjects(), OutlinesOf(NoteObjects())
      ensures currentNote == old(currentNote) + 1 && fades == old(fades)
      ensures Selects(currentNote)
      ensures forall g :: g in OutlinesOf(NoteObjects()) ==>
        g.active == (old(g.active) && g !in old(OutlinesOf(Enabling(currentNote + 1))))
    {
      currentNote := currentNote + 1;
      EnableNoteByID(currentNote);
    }

    /**
     * Makes every assigned note active exactly when its id is `target`. A
     * note switched on starts with its outline off; no other outline changes.
     * A missing or empty array changes nothing, and unassigned entries are skipped.
     */
    method EnableNoteByID(target: int)
      modifies NoteObjects(), OutlinesOf(NoteObjects())
      ensures Selects(target)
      ensures forall g :: g in OutlinesOf(NoteObjects()) ==>
        g.active == (old(g.active) && g !in old(OutlinesOf(Enabling(target))))
      ensures forall n :: n in old(Enabling(target)) && n.outlineObject != null ==> !n.outlineObject.active
      ensures old(Selects(target)) ==>
        && (forall n :: n in NoteObjects() ==> n.active == old(n.active))
        && (forall g :: g in OutlinesOf(NoteObjects()) ==> g.active == old(g.active))
    {
      if notes == null || notes.Length == 0 {
        return;
      }
      ghost var enabling := Enabling(target);
      ghost var seen: set<InteractableObject> := {};
      for i := 0 to notes.Length
        invariant seen <= NoteObjects()
        invariant forall j :: 0 <= j < i && notes[j] != null ==> notes[j] in seen
        invariant forall n :: n in NoteObjects() ==>
          n.active == if n in seen then n.noteID == target else old(n.active)
        invariant forall g :: g in OutlinesOf(NoteObjects()) ==>
          g.active == (old(g.active) && g !in OutlinesOf(enabling * seen))
      {
        var note := notes[i];
        if note != null {
          note.SetActive(note.noteID == target);
          seen := seen + {note};
        }
      }
    }
  }
}
