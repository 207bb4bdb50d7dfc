/** An object the player can look at and read: a note or any other interactable. */
module Interactables {

  import opened Engine

  class InteractableObject {
    /** The short text shown while the player looks at the object. */
    const interactionPrompt: string
    /** The full text shown when the player interacts with the object. */
    const noteText: string
    /** The child object that draws the highlight, if one is assigned. */
    const outlineObject: GameObject?
    /** The position of this note in the story, read by the apartment director. */
    const noteID: int
    /** Whether the object's own game object is active. */
    var active: bool

    constructor (interactionPrompt: string, noteText: string, outlineObject: GameObject?, noteID: int)
      ensures this.interactionPrompt == interactionPrompt && this.noteText == noteText
      ensures this.outlineObject == outlineObject && this.noteID == noteID
      ensures !active
    {
      this.interactionPrompt := interactionPrompt;
      this.noteText := noteText;
      this.outlineObject := outlineObject;
      this.noteID := noteID;
      active := false;
    }

    /** The engine hook run when the object becomes active: the outline starts off. */
    method OnEnable()
      modifies outlineObject
      ensures outlineObject != null ==> !outlineObject.active
    {
      if outlineObject != null {
        outlineObject.active := false;
      }
    }

    /**
     * Sets the active flag of the object's game object. Switching an inactive
     * object on makes the engine run OnEnable; every other call only writes the flag.
     */
    method SetActive(value: bool)
      modifies this, outlineObject
      ensures active == value
      ensures outlineObject != null ==>
        outlineObject.active == (old(outlineObject.active) && !(value && !old(active)))
    {
      var enabling := value && !active;
      active := value;
      if enabling {
        OnEnable();
      }
    }
  }

  /** The outline an interactable may toggle, as a frame. */
  function OutlineOf(o: InteractableObject?): set<GameObject>
  {
    if o == null || o.outlineObject == null then {} else {o.outlineObject}
  }

  /** The outlines of a set of interactables, as a frame. */
  function OutlinesOf(s: set<InteractableObject>): set<GameObject>
  {
    set n | n in s && n.outlineObject != null :: n.outlineObject
  }
}
