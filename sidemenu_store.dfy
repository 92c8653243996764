/** The side menu store: whether the side menu is open, and the update-mode
    flag it is created with. */
module SidemenuStore {
  class SidemenuStore {
    var open: bool
    var updateMode: bool

    constructor ()
      ensures !open && !updateMode
    {
      open := false;
      updateMode := false;
    }

    /** Opens the menu whatever its state; updateMode is untouched. */
    method Show()
      modifies this`open
      ensures open
    {
      open := true;
    }

    /** Closes the menu whatever its state; updateMode is untouched. */
    method Hide()
      modifies this`open
      ensures !open
    {
      open := false;
    }
  }
}
