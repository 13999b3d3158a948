/** The browser's undo/redo history: the list of canvas snapshots and the
    index of the one on display, with -1 meaning "none". */
module UndoHistory {
  import opened Protocol

  datatype Timeline = Timeline(history: seq<string>, step: int)

  /** The step points into the history, and is -1 exactly when the history is
      empty. This is stronger than -1 <= step <= |history| - 1 and every
      transition keeps it. */
  predicate Valid(t: Timeline) {
    (0 <= t.step < |t.history|) || (t.step == -1 && t.history == [])
  }

  /** The snapshot on display, if any. */
  function Current(t: Timeline): (c: Option<string>)
    requires Valid(t)
    ensures c.None? <==> t.history == []
  {
    if t.step >= 0 then Some(t.history[t.step]) else None
  }

  predicate CanUndo(t: Timeline) {
    t.step > 0
  }

  predicate CanRedo(t: Timeline) {
    t.step < |t.history| - 1
  }

  /** The state on mount, and after a local or a remote clear. */
  function Empty(): (t: Timeline)
    ensures Valid(t) && Current(t) == None && !CanUndo(t) && !CanRedo(t)
  {
    Timeline([], -1)
  }

  /** The state once the board's stored snapshot has been drawn on mount. */
  function Loaded(snapshot: string): (t: Timeline)
    ensures Valid(t) && Current(t) == Some(snapshot) && !CanUndo(t) && !CanRedo(t)
  {
    Timeline([snapshot], 0)
  }

  /** The debounced save: keep the snapshots up to the one on display, drop
      the redo branch, append the new snapshot and display it. */
  function Saved(t: Timeline, snapshot: string): (r: Timeline)
    requires Valid(t)
    ensures Valid(r)
    ensures |r.history| == t.step + 2
    ensures r.history[..t.step + 1] == t.history[..t.step + 1]
    ensures Current(r) == Some(snapshot)
    ensures !CanRedo(r)
  {
    var kept := t.history[..t.step + 1];
    Timeline(kept + [snapshot], |kept + [snapshot]| - 1)
  }

  /** undo: one step back, never past the first snapshot. */
  function Undone(t: Timeline): (r: Timeline)
    requires Valid(t)
    ensures Valid(r) && r.history == t.history
    ensures CanUndo(t) ==> r.step == t.step - 1
    ensures !CanUndo(t) ==> r == t
  {
    if t.step <= 0 then t else t.(step := t.step - 1)
  }

  /** redo: one step forward, never past the last snapshot. */
  function Redone(t: Timeline): (r: Timeline)
    requires Valid(t)
    ensures Valid(r) && r.history == t.history
    ensures CanRedo(t) ==> r.step == t.step + 1
    ensures !CanRedo(t) ==> r == t
  {
    if t.step >= |t.history| - 1 then t else t.(step := t.step + 1)
  }

  /** Redo takes back an undo that moved. */
  lemma RedoUndoes(t: Timeline)
    requires Valid(t) && CanUndo(t)
    ensures CanRedo(Undone(t)) && Redone(Undone(t)) == t
  {
  }

  /** Undo takes back a redo that moved. */
  lemma UndoRedoes(t: Timeline)
    requires Valid(t) && CanRedo(t) && t.step >= 0
    ensures CanUndo(Redone(t)) && Undone(Redone(t)) == t
  {
  }

  /** Undo never leaves the canvas without a snapshot once one is shown. */
  lemma UndoKeepsASnapshot(t: Timeline)
    requires Valid(t) && t.history != []
    ensures Current(Undone(t)).Some?
  {
  }

  /** Undoing a save displays again what was displayed before it. */
  lemma UndoAfterSave(t: Timeline, snapshot: string)
    requires Valid(t) && t.step >= 0
    ensures Current(Undone(Saved(t, snapshot))) == Current(t)
  {
  }

  /** A save from an undone state drops the snapshots that redo would have
      brought back. */
  lemma SaveDropsRedoBranch(t: Timeline, snapshot: string)
    requires Valid(t) && CanRedo(t)
    ensures |Saved(t, snapshot).history| <= |t.history|
    ensures !CanRedo(Saved(t, snapshot))
  {
  }

  function UndoneTimes(t: Timeline, n: nat): (r: Timeline)
    decreases n
    requires Valid(t)
    ensures Valid(r)
  {
    if n == 0 then t else UndoneTimes(Undone(t), n - 1)
  }

  function RedoneTimes(t: Timeline, n: nat): (r: Timeline)
    decreases n
    requires Valid(t)
    ensures Valid(r)
  {
    if n == 0 then t else RedoneTimes(Redone(t), n - 1)
  }

  /** n undos leave the history alone and step back n times, stopping at the
      first snapshot. */
  lemma {:induction false} UndoneTimesStep(t: Timeline, n: nat)
    decreases n
    requires Valid(t)
    ensures UndoneTimes(t, n).history == t.history
    ensures t.step >= 0 ==> UndoneTimes(t, n).step == if n <= t.step then t.step - n else 0
    ensures t.step == -1 ==> UndoneTimes(t, n) == t
  {
    if n > 0 {
      UndoneTimesStep(Undone(t), n - 1);
    }
  }

  /** n redos leave the history alone and step forward n times, stopping at
      the last snapshot. */
  lemma {:induction false} RedoneTimesStep(t: Timeline, n: nat)
    decreases n
    requires Valid(t)
    ensures RedoneTimes(t, n).history == t.history
    ensures RedoneTimes(t, n).step == if t.step + n < |t.history| then t.step + n else |t.history| - 1
  {
    if n > 0 {
      RedoneTimesStep(Redone(t), n - 1);
    }
  }

  /** Undoing k steps and redoing them restores the display. */
  lemma {:induction false} RedoneUndone(t: Timeline, k: nat)
    requires Valid(t) && k <= t.step
    ensures RedoneTimes(UndoneTimes(t, k), k) == t
  {
    UndoneTimesStep(t, k);
    RedoneTimesStep(UndoneTimes(t, k), k);
  }
}
