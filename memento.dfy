/**
 * The editor with mementos: the editor's text, the state recorded by the last
 * `setText`, and mementos that wrap such a state.
 */
module MementoPattern {
  import opened Wrappers

  /** A recorded editor state. Immutable: built once, no setters. */
  datatype State = State(text: string)

  /** A memento wraps one recorded state. */
  datatype Memento = Memento(state: State)

  /** Reading the typed `$state` property before any `setText` has assigned it. */
  datatype Error = UninitializedState

  class Editor {
    var text: string
    /** The recorded state; `None` until the first `setText`. */
    var state: Option<State>

    constructor ()
      ensures text == "" && state == None
    {
      text := "";
      state := None;
    }

    /** `setText`: sets the text and records a new state holding it. */
    method SetText(text: string)
      modifies this
      ensures this.text == text && state == Some(State(text))
    {
      this.text := text;
      state := Some(State(this.text));
    }

    /** `saveToMemento`: wraps the recorded state; fails when none was recorded yet. */
    method SaveToMemento() returns (r: Result<Memento, Error>)
      ensures r.Failure? <==> state == None
      ensures r.Failure? ==> r.error == UninitializedState
      ensures r.Success? ==> r.value.state == state.value
    {
      if state == None {
        return Failure(UninitializedState);
      }
      return Success(Memento(state.value));
    }

    /** `restoreFromMemento`: takes the memento's text; the recorded state is left as it was. */
    method RestoreFromMemento(memento: Memento)
      modifies this
      ensures text == memento.state.text
      ensures state == old(state)
    {
      text := memento.state.text;
    }

    function GetText(): string
      reads this
    {
      text
    }
  }

  /**
   * The round trip: after `setText(first)` and a save, any later `setText` calls
   * followed by restoring the saved memento give back `first`.
   */
  method RoundTrip(first: string, later: seq<string>) returns (restored: string, saved: Memento)
    ensures saved.state.text == first
    ensures restored == first
  {
    var editor := new Editor();
    editor.SetText(first);
    var r := editor.SaveToMemento();
    saved := r.value;
    for i := 0 to |later| {
      editor.SetText(later[i]);
    }
    editor.RestoreFromMemento(saved);
    restored := editor.GetText();
  }

  /** Saving before any `setText` fails. */
  method SaveOnNewEditor() returns (r: Result<Memento, Error>)
    ensures r == Failure(UninitializedState)
  {
    var editor := new Editor();
    r := editor.SaveToMemento();
  }

  /**
   * The demonstration, continued by one more save: the restored text is "Hello",
   * but a memento saved right after the restore still holds "Hello World",
   * because restoring does not update the recorded state.
   */
  method SaveAfterRestore() returns (beforeRestore: string, afterRestore: string, resaved: Memento)
    ensures beforeRestore == "Hello World"
    ensures afterRestore == "Hello"
    ensures resaved.state.text == "Hello World"
  {
    var editor := new Editor();
    editor.SetText("Hello");
    var mementoWithHello := editor.SaveToMemento();
    editor.SetText("Hello World");
    beforeRestore := editor.GetText();
    editor.RestoreFromMemento(mementoWithHello.value);
    afterRestore := editor.GetText();
    var r := editor.SaveToMemento();
    resaved := r.value;
  }
}
