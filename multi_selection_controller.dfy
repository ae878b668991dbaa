/**
 * A model of the gallery's multiple-selection helper: a mutable set of selected
 * 64-bit item ids, a snapshot of that set as a long array stored under the key
 * "selection", and a change notification sent to an optional listener after
 * every mutation and every restore.
 */
module MultiSelection {

  import opened Wrappers

  /** Kotlin's `Long`: a 64-bit signed integer. */
  const MIN_LONG: int := -0x8000_0000_0000_0000
  const MAX_LONG: int := 0x7FFF_FFFF_FFFF_FFFF

  type Long = x: int | MIN_LONG <= x <= MAX_LONG

  /** The key under which the selection is saved. */
  const STATE_SELECTION: string := "selection"

  /** The saved-state container: keys mapped to long arrays. */
  type Bundle = map<string, seq<Long>>

  /** The arguments of one `onSelectionChanged(restored, fromUser)` call. */
  datatype Notification = Notification(restored: bool, fromUser: bool)

  // ---------------------------------------------------------------------------
  // Specification functions
  // ---------------------------------------------------------------------------

  /** The selection after toggling `x`: `x` is removed if present, added otherwise. */
  function Toggled(s: set<Long>, x: Long): (r: set<Long>)
    ensures x in r <==> x !in s
    ensures forall y :: y != x ==> (y in r <==> y in s)
    ensures |r| == if x in s then |s| - 1 else |s| + 1
  {
    if x in s then s - {x} else s + {x}
  }

  /** The log after one dispatch `callbacks?.onSelectionChanged(...)`: one entry when a listener is set, none otherwise. */
  function Notify(log: seq<Notification>, listening: bool, n: Notification): (r: seq<Notification>)
    ensures |r| == |log| + (if listening then 1 else 0)
    ensures r[..|log|] == log
    ensures listening ==> r[|log|] == n
  {
    if listening then log + [n] else log
  }

  /** The ids of a sequence, as a set. */
  function Elements(xs: seq<Long>): set<Long>
  {
    set x | x in xs
  }

  /** No id occurs twice in `xs`. */
  predicate Distinct(xs: seq<Long>)
  {
    forall i, j :: 0 <= i < j < |xs| ==> xs[i] != xs[j]
  }

  /**
   * The ids a present snapshot restores: those of the array under STATE_SELECTION,
   * and none when the key is missing or the array is empty.
   */
  function SavedIds(b: Bundle): (r: set<Long>)
    ensures forall x :: x in r <==> STATE_SELECTION in b && x in b[STATE_SELECTION]
  {
    if STATE_SELECTION in b && |b[STATE_SELECTION]| > 0 then Elements(b[STATE_SELECTION]) else {}
  }

  /** The selection after onCreate, given the current one and the registry's snapshot (if any). */
  function Restored(current: set<Long>, snapshot: Option<Bundle>): (r: set<Long>)
    ensures snapshot.None? ==> r == current
    ensures snapshot.Some? ==>
      forall x :: x in r <==> STATE_SELECTION in snapshot.value && x in snapshot.value[STATE_SELECTION]
  {
    match snapshot
    case None => current
    case Some(b) => SavedIds(b)
  }

  /** `b` is what saveState may return for the selection `s`: one entry, a duplicate-free array of exactly the ids in `s`. */
  predicate IsSnapshotOf(b: Bundle, s: set<Long>)
  {
    && b.Keys == {STATE_SELECTION}
    && Distinct(b[STATE_SELECTION])
    && Elements(b[STATE_SELECTION]) == s
  }

  /** The selection after toggling each id of `xs` in turn. */
  function ToggleAll(s: set<Long>, xs: seq<Long>): set<Long>
    decreases |xs|
  {
    if xs == [] then s else ToggleAll(Toggled(s, xs[0]), xs[1..])
  }

  /** How many times `y` occurs in `xs`. */
  function Occurrences(xs: seq<Long>, y: Long): nat
    decreases |xs|
  {
    if xs == [] then 0 else (if xs[0] == y then 1 else 0) + Occurrences(xs[1..], y)
  }

  // ---------------------------------------------------------------------------
  // Lemmas
  // ---------------------------------------------------------------------------

  /** Toggling the same id twice gives back the original selection. */
  lemma ToggleTwice(s: set<Long>, x: Long)
    ensures Toggled(Toggled(s, x), x) == s
  {
  }

  /** After toggling a sequence of ids, an id is selected exactly when it was selected before XOR it was toggled an odd number of times. */
  lemma {:induction false} ToggleAllParity(s: set<Long>, xs: seq<Long>, y: Long)
    ensures y in ToggleAll(s, xs) <==> (y in s) != (Occurrences(xs, y) % 2 == 1)
    decreases |xs|
  {
    if xs != [] {
      var t := Toggled(s, xs[0]);
      ToggleAllParity(t, xs[1..], y);
      assert ToggleAll(s, xs) == ToggleAll(t, xs[1..]);
      assert Occurrences(xs, y) == (if xs[0] == y then 1 else 0) + Occurrences(xs[1..], y);
      assert y in t <==> (y in s) != (xs[0] == y);
    }
  }

  /** Starting from an empty selection, the selected ids are those toggled an odd number of times. */
  lemma ToggleAllFromEmpty(xs: seq<Long>)
    ensures forall y :: y in ToggleAll({}, xs) <==> Occurrences(xs, y) % 2 == 1
  {
    forall y: Long
      ensures y in ToggleAll({}, xs) <==> Occurrences(xs, y) % 2 == 1
    {
      ToggleAllParity({}, xs, y);
    }
  }

  /** A duplicate-free array has as many entries as it has distinct ids. */
  lemma {:induction false} DistinctCardinality(xs: seq<Long>)
    requires Distinct(xs)
    ensures |Elements(xs)| == |xs|
  {
    if xs != [] {
      assert Distinct(xs[1..]) by {
        forall i, j | 0 <= i < j < |xs[1..]| ensures xs[1..][i] != xs[1..][j] {
          assert xs[1..][i] == xs[i + 1] && xs[1..][j] == xs[j + 1];
        }
      }
      DistinctCardinality(xs[1..]);
      assert Elements(xs) == Elements(xs[1..]) + {xs[0]};
      assert xs[0] !in Elements(xs[1..]) by {
        forall k | 0 <= k < |xs[1..]| ensures xs[1..][k] != xs[0] {
          assert xs[1..][k] == xs[k + 1];
        }
      }
    }
  }

  /** A snapshot's array is exactly as long as the saved selection is large. */
  lemma SnapshotLength(b: Bundle, s: set<Long>)
    requires IsSnapshotOf(b, s)
    ensures STATE_SELECTION in b && |b[STATE_SELECTION]| == |s|
  {
    DistinctCardinality(b[STATE_SELECTION]);
  }

  /**
   * Restoring a saved snapshot gives back exactly the saved selection, whatever
   * the selection has become in the meantime.
   */
  lemma RoundTrip(b: Bundle, saved: set<Long>, current: set<Long>)
    requires IsSnapshotOf(b, saved)
    ensures Restored(current, Some(b)) == saved
  {
  }

  /** Restoring from a present snapshot that lacks the key, or holds an empty array, empties the selection. */
  lemma RestoreEmpty(b: Bundle, current: set<Long>)
    requires STATE_SELECTION !in b || b[STATE_SELECTION] == []
    ensures Restored(current, Some(b)) == {}
  {
  }

  /** With no snapshot, onCreate leaves the selection alone. */
  lemma RestoreAbsent(current: set<Long>)
    ensures Restored(current, None) == current
  {
  }

  // ---------------------------------------------------------------------------
  // The controller
  // ---------------------------------------------------------------------------

  class MultiSelectionController {
    /** The selected ids. */
    var selection: set<Long>
    /** Whether `callbacks` is non-null. */
    var hasCallbacks: bool
    /** Every `onSelectionChanged` call made so far, oldest first. */
    var notifications: seq<Notification>

    /** A new controller: nothing selected, no listener, nothing notified. */
    constructor ()
      ensures selection == {} && !hasCallbacks && notifications == []
    {
      selection := {};
      hasCallbacks := false;
      notifications := [];
    }

    /** Assigns the `callbacks` property: `present` tells whether the new value is non-null. */
    method SetCallbacks(present: bool)
      modifies this
      ensures hasCallbacks == present
      ensures selection == old(selection) && notifications == old(notifications)
    {
      hasCallbacks := present;
    }

    /** The `selectedCount` property: the number of selected ids. */
    function SelectedCount(): (r: nat)
      reads this
      ensures r == |selection|
      ensures r == 0 <==> selection == {}
    {
      |selection|
    }

    /** Whether `item` is currently selected. */
    function IsSelected(item: Long): (r: bool)
      reads this
      ensures r <==> item in selection
      ensures r ==> SelectedCount() > 0
    {
      item in selection
    }

    /**
     * Restores the selection from the registry's snapshot: when one is present,
     * clears the set and adds every id of the array under STATE_SELECTION; then
     * notifies (restored = true, fromUser = false) if a listener is set.
     */
    method OnCreate(snapshot: Option<Bundle>)
      modifies this
      ensures selection == Restored(old(selection), snapshot)
      ensures notifications == Notify(old(notifications), hasCallbacks, Notification(true, false))
      ensures hasCallbacks == old(hasCallbacks)
    {
      if snapshot.Some? {
        var b := snapshot.value;
        selection := {};
        var saved := if STATE_SELECTION in b then b[STATE_SELECTION] else [];
        if |saved| > 0 {
          for i := 0 to |saved|
            invariant forall x :: x in selection <==> x in saved[..i]
            invariant hasCallbacks == old(hasCallbacks) && notifications == old(notifications)
          {
            selection := selection + {saved[i]};
          }
          assert saved[..|saved|] == saved;
        }
      }
      if hasCallbacks {
        notifications := notifications + [Notification(true, false)];
      }
    }

    /**
     * The snapshot the registry stores: STATE_SELECTION mapped to the selected ids,
     * each once, in the set's iteration order (which is unspecified).
     */
    method SaveState() returns (b: Bundle)
      ensures IsSnapshotOf(b, selection)
      ensures |b[STATE_SELECTION]| == SelectedCount()
    {
      var rest := selection;
      var ids: seq<Long> := [];
      while rest != {}
        invariant rest <= selection
        invariant forall x :: x in ids <==> x in selection && x !in rest
        invariant Distinct(ids)
        invariant |ids| + |rest| == |selection|
        decreases |rest|
      {
        var x :| x in rest;
        ids := ids + [x];
        rest := rest - {x};
      }
      b := map[STATE_SELECTION := ids];
    }

    /** Flips the membership of `item`, then notifies (false, fromUser) if a listener is set. */
    method Toggle(item: Long, fromUser: bool)
      modifies this
      ensures selection == Toggled(old(selection), item)
      ensures notifications == Notify(old(notifications), hasCallbacks, Notification(false, fromUser))
      ensures hasCallbacks == old(hasCallbacks)
    {
      if item in selection {
        selection := selection - {item};
      } else {
        selection := selection + {item};
      }
      if hasCallbacks {
        notifications := notifications + [Notification(false, fromUser)];
      }
    }

    /** Clears the selection, then notifies (false, fromUser) if a listener is set, even when nothing was selected. */
    method Reset(fromUser: bool)
      modifies this
      ensures selection == {} && SelectedCount() == 0
      ensures notifications == Notify(old(notifications), hasCallbacks, Notification(false, fromUser))
      ensures hasCallbacks == old(hasCallbacks)
    {
      selection := {};
      if hasCallbacks {
        notifications := notifications + [Notification(false, fromUser)];
      }
    }
  }

  /**
   * A client run: two toggles, a save, a reset and a restore from the saved
   * snapshot, with a listener attached.
   */
  method SaveResetRestore()
  {
    var c := new MultiSelectionController();
    c.SetCallbacks(true);
    c.Toggle(5, true);
    c.Toggle(9, false);
    assert c.selection == {5, 9};
    var b := c.SaveState();
    assert |b[STATE_SELECTION]| == 2;
    c.Reset(true);
    assert c.SelectedCount() == 0;
    c.OnCreate(Some(b));
    RoundTrip(b, {5, 9}, {});
    assert c.selection == {5, 9} && c.IsSelected(5) && !c.IsSelected(7);
    assert c.notifications == [Notification(false, true), Notification(false, false),
                               Notification(false, true), Notification(true, false)];
  }
}
