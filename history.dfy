/** The drawing history: the committed strokes and the redo stack. Undo
    moves the newest stroke onto the redo stack, redo moves it back, and a
    new commit discards everything that could have been redone. */
module DocumentHistory {

  datatype History<T> = History(strokes: seq<T>, redoStack: seq<T>)

  function Empty<T>(): History<T> {
    History([], [])
  }

  /** A new stroke is appended and the redo stack is cleared. */
  function Commit<T>(h: History<T>, s: T): History<T> {
    History(h.strokes + [s], [])
  }

  function Undo<T>(h: History<T>): History<T> {
    if |h.strokes| == 0 then h
    else History(h.strokes[..|h.strokes| - 1], h.redoStack + [h.strokes[|h.strokes| - 1]])
  }

  function Redo<T>(h: History<T>): History<T> {
    if |h.redoStack| == 0 then h
    else History(h.strokes + [h.redoStack[|h.redoStack| - 1]], h.redoStack[..|h.redoStack| - 1])
  }

  /** k undos in a row. */
  function UndoN<T>(h: History<T>, k: nat): History<T> {
    if k == 0 then h else Undo(UndoN(h, k - 1))
  }

  /** k redos in a row. */
  function RedoN<T>(h: History<T>, k: nat): History<T>
    decreases k
  {
    if k == 0 then h else RedoN(Redo(h), k - 1)
  }

  function Reverse<T>(s: seq<T>): (r: seq<T>)
    ensures |r| == |s|
    ensures forall i :: 0 <= i < |s| ==> r[i] == s[|s| - 1 - i]
  {
    if s == [] then [] else Reverse(s[1..]) + [s[0]]
  }

  /** Everything ever committed and not cleared, on either side. */
  function Content<T>(h: History<T>): multiset<T> {
    multiset(h.strokes) + multiset(h.redoStack)
  }

  lemma UndoSpec<T>(h: History<T>)
    ensures |h.strokes| == 0 ==> Undo(h) == h
    ensures |h.strokes| > 0 ==>
      Undo(h).strokes + [h.strokes[|h.strokes| - 1]] == h.strokes &&
      Undo(h).redoStack == h.redoStack + [h.strokes[|h.strokes| - 1]]
  {
  }

  lemma RedoSpec<T>(h: History<T>)
    ensures |h.redoStack| == 0 ==> Redo(h) == h
    ensures |h.redoStack| > 0 ==>
      Redo(h).strokes == h.strokes + [h.redoStack[|h.redoStack| - 1]] &&
      Redo(h).redoStack + [h.redoStack[|h.redoStack| - 1]] == h.redoStack
  {
  }

  /** Undo then redo restores both lists exactly. */
  lemma UndoThenRedo<T>(h: History<T>)
    requires |h.strokes| > 0
    ensures Redo(Undo(h)) == h
  {
    assert Undo(h).redoStack[..|Undo(h).redoStack| - 1] == h.redoStack;
    assert Undo(h).strokes + [h.strokes[|h.strokes| - 1]] == h.strokes;
  }

  /** Redo then undo restores both lists exactly. */
  lemma RedoThenUndo<T>(h: History<T>)
    requires |h.redoStack| > 0
    ensures Undo(Redo(h)) == h
  {
    assert Redo(h).strokes[..|Redo(h).strokes| - 1] == h.strokes;
    assert Redo(h).redoStack + [h.redoStack[|h.redoStack| - 1]] == h.redoStack;
  }

  /** A commit appends the stroke, forgets the redo stack, and undoing it
      leaves that stroke as the only redoable one. */
  lemma CommitSpec<T>(h: History<T>, s: T)
    ensures Commit(h, s).strokes == h.strokes + [s]
    ensures Commit(h, s).redoStack == []
    ensures Redo(Commit(h, s)) == Commit(h, s)
    ensures Undo(Commit(h, s)) == History(h.strokes, [s])
  {
    assert (h.strokes + [s])[..|h.strokes|] == h.strokes;
  }

  /** Undo and redo never lose or invent a stroke. */
  lemma UndoRedoPreserveContent<T>(h: History<T>)
    ensures Content(Undo(h)) == Content(h)
    ensures Content(Redo(h)) == Content(h)
    ensures |Undo(h).strokes| + |Undo(h).redoStack| == |h.strokes| + |h.redoStack|
    ensures |Redo(h).strokes| + |Redo(h).redoStack| == |h.strokes| + |h.redoStack|
  {
    MoveLastPreservesContent(h.strokes, h.redoStack);
    MoveLastPreservesContent(h.redoStack, h.strokes);
    if |h.redoStack| > 0 {
      var r := Redo(h);
      assert multiset(r.strokes) + multiset(r.redoStack) == multiset(r.redoStack) + multiset(r.strokes);
    }
  }

  /** Moving the last element of `a` onto the end of `b` keeps the joint content. */
  lemma MoveLastPreservesContent<T>(a: seq<T>, b: seq<T>)
    ensures |a| > 0 ==>
      multiset(a[..|a| - 1]) + multiset(b + [a[|a| - 1]]) == multiset(a) + multiset(b)
  {
    if |a| > 0 {
      SplitLast(a);
      assert multiset(b + [a[|a| - 1]]) == multiset(b) + multiset{a[|a| - 1]};
    }
  }

  /** A non-empty sequence holds its prefix and its last element. */
  lemma SplitLast<T>(s: seq<T>)
    requires |s| > 0
    ensures multiset(s) == multiset(s[..|s| - 1]) + multiset{s[|s| - 1]}
  {
    assert s == s[..|s| - 1] + [s[|s| - 1]];
  }

  /** After k undos the newest k strokes have left the list and sit on top
      of the redo stack in reverse order, the oldest of them on top. */
  lemma {:induction false} UndoNClosedForm<T>(h: History<T>, k: nat)
    requires k <= |h.strokes|
    ensures UndoN(h, k).strokes == h.strokes[..|h.strokes| - k]
    ensures UndoN(h, k).redoStack == h.redoStack + Reverse(h.strokes[|h.strokes| - k..])
  {
    if k > 0 {
      UndoNClosedForm(h, k - 1);
      var n := |h.strokes|;
      var prev := UndoN(h, k - 1);
      assert prev.strokes[|prev.strokes| - 1] == h.strokes[n - k];
      assert prev.strokes[..|prev.strokes| - 1] == h.strokes[..n - k];
      var tail := h.strokes[n - k..];
      assert Reverse(tail) == Reverse(tail[1..]) + [tail[0]];
      assert tail[1..] == h.strokes[n - (k - 1)..];
    }
  }

  /** Undoing k strokes and then redoing k restores the history exactly. */
  lemma {:induction false} UndoNThenRedoN<T>(h: History<T>, k: nat)
    requires k <= |h.strokes|
    ensures RedoN(UndoN(h, k), k) == h
  {
    if k > 0 {
      UndoNClosedForm(h, k - 1);
      var prev := UndoN(h, k - 1);
      assert |prev.strokes| > 0;
      UndoThenRedo(prev);
      RedoNAfterUndo(prev, k - 1);
      UndoNThenRedoN(h, k - 1);
    }
  }

  /** Unfolding helper: redoing k + 1 after an undo is redoing k after the
      undo was taken back. */
  lemma RedoNAfterUndo<T>(prev: History<T>, k: nat)
    requires |prev.strokes| > 0
    ensures RedoN(Undo(prev), k + 1) == RedoN(prev, k)
  {
    UndoThenRedo(prev);
  }
}
