/** The store behind the edit-bill sheet: whether it is open and which bill it edits. */
module EditBillStore {
  import opened Wrappers

  class Store {
    var id: Option<string>
    var open: bool

    /** The sheet starts closed, editing nothing. */
    constructor()
      ensures id == None && !open
    {
      id := None;
      open := false;
    }

    /**
     * Sets both fields at once; a call without an id clears it. The new
     * state therefore depends on this call's arguments only.
     */
    method SetOpen(open': bool, id': Option<string>)
      modifies this
      ensures open == open' && id == id'
    {
      open := open';
      id := id';
    }
  }
}
