/**
 * Memento pattern demo: a text editor with an Undo button.
 *
 * The originator is the text area; `save` copies its text into a memento and
 * `restore` copies a memento's state back. The caretaker pushes a memento on
 * a stack every time a key is typed, and Undo pops the most recent one and
 * restores it, doing nothing when the stack is empty.
 */
module Memento {

  /** The memento: one saved text. */
  class EditorMomento {
    var state: string

    constructor (state: string)
      ensures this.state == state
    {
      this.state := state;
    }

    function GetState(): string
      reads this
    {
      state
    }

    method SetState(state: string)
      modifies this
      ensures GetState() == state
    {
      this.state := state;
    }
  }

  /** The originator: the editable text area. */
  class EditorOriginator {
    var text: string

    /** A new text area is empty. */
    constructor ()
      ensures text == ""
    {
      text := "";
    }

    /** A fresh memento holding the current text; the text is left alone. */
    method Save() returns (m: EditorMomento)
      ensures fresh(m) && m.GetState() == text
    {
      m := new EditorMomento(text);
    }

    /** Replaces the text by exactly the memento's state. */
    method Restore(m: EditorMomento)
      modifies this
      ensures text == m.GetState()
    {
      text := m.GetState();
    }
  }

  // ---------------------------------------------------------------------------
  // The editor as a value: the text and the saved texts, oldest first.
  // ---------------------------------------------------------------------------

  datatype Editor = Editor(text: string, history: seq<string>)

  /** The key listener: pushes a snapshot of the current text on top of the history. */
  function AfterKeyTyped(e: Editor): (r: Editor)
    ensures r.text == e.text
    ensures |r.history| == |e.history| + 1
    ensures r.history[..|e.history|] == e.history && r.history[|e.history|] == e.text
  {
    Editor(e.text, e.history + [e.text])
  }

  /** The Undo button: with a non-empty history, removes the newest snapshot and makes it the text. */
  function AfterUndo(e: Editor): (r: Editor)
    ensures e.history == [] ==> r == e
    ensures e.history != [] ==> |r.history| == |e.history| - 1 && r.history == e.history[..|r.history|]
    ensures e.history != [] ==> r.text == e.history[|e.history| - 1]
  {
    if e.history == [] then e else Editor(e.history[|e.history| - 1], e.history[..|e.history| - 1])
  }

  /** The text area replacing its own text (the user's edit); the history is not touched. */
  function Edited(e: Editor, text: string): Editor
  {
    e.(text := text)
  }

  /**
   * A run of key strokes: at each one the listener snapshots the text, and
   * the text area then holds the next text of `texts`.
   */
  function TypeAll(e: Editor, texts: seq<string>): Editor
    decreases |texts|
  {
    if texts == [] then e else TypeAll(Edited(AfterKeyTyped(e), texts[0]), texts[1..])
  }

  /** `n` presses of Undo. */
  function UndoTimes(e: Editor, n: nat): Editor
  {
    if n == 0 then e else AfterUndo(UndoTimes(e, n - 1))
  }

  /** Undo right after a key stroke takes back exactly that stroke's snapshot. */
  lemma UndoAfterKeyTyped(e: Editor)
    ensures AfterUndo(AfterKeyTyped(e)) == e
  {
    assert (e.history + [e.text])[..|e.history|] == e.history;
  }

  /**
   * Undo is last in, first out: after k key strokes, k presses of Undo give
   * back the text from before the first stroke and the history as it was.
   */
  lemma {:induction false} UndoAllAfterTyping(e: Editor, texts: seq<string>)
    ensures UndoTimes(TypeAll(e, texts), |texts|) == e
    decreases |texts|
  {
    if texts != [] {
      var e1 := Edited(AfterKeyTyped(e), texts[0]);
      UndoAllAfterTyping(e1, texts[1..]);
      assert UndoTimes(TypeAll(e, texts), |texts|) == AfterUndo(e1);
      assert e1.history == e.history + [e.text];
      assert e1.history[..|e.history|] == e.history;
    }
  }

  /** Once the history is empty a further Undo changes nothing. */
  lemma UndoBeyondHistory(e: Editor, texts: seq<string>)
    requires e.history == []
    ensures AfterUndo(UndoTimes(TypeAll(e, texts), |texts|)) == e
  {
    UndoAllAfterTyping(e, texts);
  }

  // ---------------------------------------------------------------------------
  // The caretaker.
  // ---------------------------------------------------------------------------

  /** The caretaker: the text area and the stack of mementos, top last. */
  class EditorCaretaker {
    var states: seq<EditorMomento>
    const originator: EditorOriginator

    /** The saved texts, oldest first. */
    ghost function Snapshots(): (ts: seq<string>)
      reads this, states
      ensures |ts| == |states|
      ensures forall i :: 0 <= i < |states| ==> ts[i] == states[i].state
    {
      seq(|states|, i reads this, states requires 0 <= i < |states| => states[i].state)
    }

    ghost function Model(): Editor
      reads this, originator, states
    {
      Editor(originator.text, Snapshots())
    }

    constructor ()
      ensures fresh(originator) && Model() == Editor("", [])
    {
      states := [];
      originator := new EditorOriginator();
    }

    /** The `keyTyped` listener. */
    method KeyTyped()
      modifies this
      ensures Model() == AfterKeyTyped(old(Model()))
      ensures |states| == |old(states)| + 1 && states[..|old(states)|] == old(states)
    {
      var m := originator.Save();
      states := states + [m];
    }

    /** The Undo button's listener. */
    method Undo()
      modifies this, originator
      ensures Model() == AfterUndo(old(Model()))
    {
      if states != [] {
        var m := states[|states| - 1];
        states := states[..|states| - 1];
        originator.Restore(m);
      }
    }
  }
}
