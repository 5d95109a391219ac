/** One row of the todo list (src/components/todo/TodoItem.tsx): a view
    mode and an edit mode with a draft title. The callbacks it calls are
    returned as the calls it makes. */
module TodoItem {
  import opened Text
  import TP = TodosPage

  /** A call the item makes to the list. */
  datatype Call = OnToggle(id: string) | OnDelete(id: string) | OnEdit(id: string, newTitle: string)

  class Item {
    const todo: TP.Todo
    var isEditing: bool
    var editedTitle: string

    /** The item starts in view mode with the todo's title as the draft. */
    constructor (todo: TP.Todo)
      ensures this.todo == todo && !isEditing && editedTitle == todo.title
    {
      this.todo := todo;
      isEditing := false;
      editedTitle := todo.title;
    }

    /** The pencil button. */
    method StartEditing()
      modifies this
      ensures isEditing && editedTitle == old(editedTitle)
    {
      isEditing := true;
    }

    /** Typing into the input. */
    method Type(value: string)
      modifies this
      ensures editedTitle == value && isEditing == old(isEditing)
    {
      editedTitle := value;
    }

    /** `handleEdit()`: a draft that is not blank is passed on as typed and
        edit mode ends; a blank draft changes nothing. */
    method HandleEdit() returns (call: Option<Call>)
      modifies this
      ensures Trim(old(editedTitle)) != "" ==> call == Some(OnEdit(todo.id, old(editedTitle))) && !isEditing
      ensures Trim(old(editedTitle)) == "" ==> call.None? && isEditing == old(isEditing)
      ensures editedTitle == old(editedTitle)
    {
      call := None;
      if Trim(editedTitle) != "" {
        call := Some(OnEdit(todo.id, editedTitle));
        isEditing := false;
      }
    }

    /** `handleCancel()`: the draft is reset and edit mode ends. */
    method HandleCancel()
      modifies this
      ensures editedTitle == todo.title && !isEditing
    {
      editedTitle := todo.title;
      isEditing := false;
    }

    /** The checkbox and the bin: each passes the item's own id. */
    function Toggle(): (c: Call)
      ensures c.OnToggle? && c.id == todo.id
    {
      OnToggle(todo.id)
    }

    function Delete(): (c: Call)
      ensures c.OnDelete? && c.id == todo.id
    {
      OnDelete(todo.id)
    }
  }
}
