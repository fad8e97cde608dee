/**
 * The landmark screen (`LandmarkScreen`): tapping a landmark card toggles its id
 * in the selection, which holds at most `MAX_SELECT` ids.
 */
module LandmarkScreen {
  import opened Lists

  const MAX_SELECT: nat := 6

  /**
   * `toggleSelect(id)`: a selected id is removed; an unselected one is appended
   * while fewer than `MAX_SELECT` are selected, and ignored once the cap is reached.
   */
  function ToggleSelect(prev: seq<string>, id: string): (next: seq<string>)
    ensures id in next <==> id !in prev && |prev| < MAX_SELECT
    ensures forall x :: x != id ==> multiset(next)[x] == multiset(prev)[x]
    ensures id !in prev ==> |next| >= |prev| && next[..|prev|] == prev
    ensures |prev| <= MAX_SELECT ==> |next| <= MAX_SELECT
    ensures NoDuplicates(prev) ==> NoDuplicates(next)
    ensures id in prev ==> next == RemoveAll(prev, id)
    ensures id !in prev && |prev| < MAX_SELECT ==> next == prev + [id]
    ensures id !in prev && |prev| >= MAX_SELECT ==> next == prev
  {
    if id in prev then RemoveAll(prev, id)
    else if |prev| < MAX_SELECT then
      assert multiset(prev + [id]) == multiset(prev) + multiset{id};
      assert (prev + [id])[..|prev|] == prev;
      prev + [id]
    else prev
  }

  /** Toggling an id on and then off again restores the selection. */
  lemma {:induction false} ToggleSelectTwice(prev: seq<string>, id: string)
    requires id !in prev && |prev| < MAX_SELECT
    ensures ToggleSelect(ToggleSelect(prev, id), id) == prev
  {
    RemoveAllAfterAppend(prev, id);
  }

  /** The "Next" button is enabled only when at least one landmark is selected. */
  predicate CanProceed(selected: seq<string>): (b: bool)
    ensures b <==> multiset(selected) != multiset{}
  {
    |selected| != 0
  }

  /** The selection after the given taps, starting from the screen's empty selection. */
  function AfterTaps(taps: seq<string>): seq<string>
  {
    if taps == [] then [] else ToggleSelect(AfterTaps(taps[..|taps| - 1]), taps[|taps| - 1])
  }

  /** Whatever the taps, the selection never exceeds `MAX_SELECT` ids and never repeats one. */
  lemma {:induction false} AfterTapsBounded(taps: seq<string>)
    ensures |AfterTaps(taps)| <= MAX_SELECT
    ensures NoDuplicates(AfterTaps(taps))
  {
    if taps == [] {
      assert forall x :: multiset(AfterTaps(taps))[x] == 0;
    } else {
      AfterTapsBounded(taps[..|taps| - 1]);
    }
  }

  /** A tap on an id selects it when there is room, so the screen can always proceed after it. */
  lemma TapThenProceed(prev: seq<string>, id: string)
    requires id !in prev && |prev| < MAX_SELECT
    ensures CanProceed(ToggleSelect(prev, id))
  {
  }
}
