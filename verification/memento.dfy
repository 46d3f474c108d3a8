/**
 * Memento: a text editor whose content can be captured in snapshots, and a
 * caretaker that keeps the history of snapshots with a cursor for undo/redo.
 */
module Memento {

  /** ConcreteTextEditorMemento: an immutable copy of the editor's content (`getState`). */
  datatype Snapshot = Snapshot(state: string)

  /** The originator. Its content is read directly (`getContent`). */
  class TextEditor {
    var content: string

    constructor (content: string)
      ensures this.content == content
    {
      this.content := content;
    }

    method SetContent(content: string)
      modifies this
      ensures this.content == content
    {
      this.content := content;
    }

    /** Captures the current content without changing it. */
    method SaveToMemento() returns (memento: Snapshot)
      ensures memento.state == content
    {
      memento := Snapshot(content);
    }

    /** Replaces the content by the snapshot's. */
    method RestoreFromMemento(memento: Snapshot)
      modifies this
      ensures content == memento.state
    {
      content := memento.state;
    }
  }

  /** Restoring a snapshot just taken leaves the editor as it was. */
  method SaveThenRestore(editor: TextEditor)
    modifies editor
    ensures editor.content == old(editor.content)
  {
    var memento := editor.SaveToMemento();
    editor.RestoreFromMemento(memento);
  }

  /** The history of snapshots and the cursor into it. */
  class Caretaker {
    var mementos: seq<Snapshot>
    var currentIndex: int
    const textEditor: TextEditor

    /** The cursor is inside the history, and is -1 exactly while nothing has been saved. */
    ghost predicate Valid()
      reads this
    {
      -1 <= currentIndex < |mementos| && (currentIndex == -1 <==> mementos == [])
    }

    constructor (textEditor: TextEditor)
      ensures Valid()
      ensures mementos == [] && currentIndex == -1 && this.textEditor == textEditor
    {
      mementos := [];
      currentIndex := -1;
      this.textEditor := textEditor;
    }

    /**
     * Appends a snapshot of the editor's content and moves the cursor to it;
     * earlier snapshots, including any ahead of the cursor, are kept.
     */
    method Save()
      requires Valid()
      modifies this
      ensures Valid()
      ensures mementos == old(mementos) + [Snapshot(textEditor.content)]
      ensures currentIndex == |mementos| - 1
    {
      var memento := textEditor.SaveToMemento();
      mementos := mementos + [memento];
      currentIndex := |mementos| - 1;
    }

    /**
     * Steps the cursor back and restores that snapshot; at the first snapshot
     * or with an empty history nothing changes. Content edited since the last
     * save is overwritten and cannot be recovered.
     */
    method Undo()
      requires Valid()
      modifies this, textEditor
      ensures Valid()
      ensures mementos == old(mementos)
      ensures old(currentIndex) <= 0 ==>
        currentIndex == old(currentIndex) && textEditor.content == old(textEditor.content)
      ensures old(currentIndex) > 0 ==>
        currentIndex == old(currentIndex) - 1 && textEditor.content == mementos[currentIndex].state
    {
      if currentIndex > 0 {
        currentIndex := currentIndex - 1;
        var memento := mementos[currentIndex];
        textEditor.RestoreFromMemento(memento);
      }
    }

    /** Steps the cursor forward and restores that snapshot; at the last snapshot nothing changes. */
    method Redo()
      requires Valid()
      modifies this, textEditor
      ensures Valid()
      ensures mementos == old(mementos)
      ensures old(currentIndex) == |mementos| - 1 ==>
        currentIndex == old(currentIndex) && textEditor.content == old(textEditor.content)
      ensures old(currentIndex) < |mementos| - 1 ==>
        currentIndex == old(currentIndex) + 1 && textEditor.content == mementos[currentIndex].state
    {
      if currentIndex < |mementos| - 1 {
        currentIndex := currentIndex + 1;
        var memento := mementos[currentIndex];
        textEditor.RestoreFromMemento(memento);
      }
    }
  }

  /**
   * The example script: three saves, an unsaved edit, then undo, undo, redo,
   * redo. The unsaved "Even more changes" is lost by the first undo.
   */
  method UndoRedoScenario() returns (current: string, undone1: string, undone2: string,
                                     redone1: string, redone2: string)
    ensures current == "Even more changes"
    ensures undone1 == "Updated content" && undone2 == "Initial content"
    ensures redone1 == "Updated content" && redone2 == "More changes"
  {
    var editor := new TextEditor("Initial content");
    var caretaker := new Caretaker(editor);
    caretaker.Save();
    editor.SetContent("Updated content");
    caretaker.Save();
    editor.SetContent("More changes");
    caretaker.Save();
    editor.SetContent("Even more changes");
    current := editor.content;
    caretaker.Undo();
    undone1 := editor.content;
    caretaker.Undo();
    undone2 := editor.content;
    caretaker.Redo();
    redone1 := editor.content;
    caretaker.Redo();
    redone2 := editor.content;
  }
}
