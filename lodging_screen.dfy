/**
 * The lodging screen (`LodgingScreen`): the user picks one hotel name per day,
 * and saving writes a single lodging record into the trip store.
 *
 * Days are non-negative integers. For day keys below 2^32 - 1 (array indices)
 * `Object.keys` lists the days in ascending order, so "the first key" is the
 * smallest chosen day. Larger integer keys come after them, in insertion order,
 * which this model does not capture.
 */
module LodgingScreen {
  import opened Common
  import TripStore

  /** Every non-empty set of days has a smallest day. */
  lemma {:induction false} SmallestDay(days: set<nat>) returns (d: nat)
    requires days != {}
    ensures d in days && forall k :: k in days ==> d <= k
  {
    var x :| x in days;
    var rest := days - {x};
    if rest == {} {
      d := x;
      forall k | k in days ensures d <= k {
        assert k !in rest;
      }
    } else {
      var m := SmallestDay(rest);
      d := if x < m then x else m;
      forall k | k in days ensures d <= k {
        if k != x {
          assert k in rest;
        }
      }
    }
  }

  /** The record `saveLodgingToStore` writes for the chosen name of day `day`. */
  function RecordFor(selected: map<nat, string>, day: nat): (r: TripStore.LodgingRecord)
    requires day in selected
    ensures r.name == selected[day] && r.address == "" && r.checkIn.None? && r.checkOut.None?
  {
    TripStore.LodgingRecord(selected[day], "", None, None)
  }

  class Screen {
    /** The chosen hotel name of each day that has one. */
    var selected: map<nat, string>

    constructor()
      ensures selected == map[]
    {
      selected := map[];
    }

    /** `handleSelect(day, lodging)`: choose `lodging` for `day`, replacing an earlier choice. */
    method HandleSelect(day: nat, lodging: string)
      modifies this
      ensures selected == old(selected)[day := lodging]
      ensures day in selected && selected[day] == lodging
      ensures forall d :: d in old(selected) && d != day ==> d in selected && selected[d] == old(selected)[d]
      ensures selected.Keys == old(selected).Keys + {day}
    {
      selected := selected[day := lodging];
    }

    /**
     * `saveLodgingToStore`: nothing happens when no day has a choice; otherwise the
     * record for the smallest chosen day replaces the store's whole lodging value.
     */
    method SaveLodgingToStore(store: TripStore.Store) returns (written: Option<TripStore.LodgingRecord>)
      modifies store
      ensures selected == map[] ==> written.None? && store.State() == old(store.State())
      ensures selected != map[] ==>
        exists d :: d in selected && (forall k :: k in selected ==> d <= k) &&
                    written == Some(RecordFor(selected, d)) &&
                    store.State() == old(store.State()).(selectedLodging := TripStore.Single(written.value))
    {
      if selected == map[] {
        return None;
      }
      ghost var smallest := SmallestDay(selected.Keys);
      var firstDay :| firstDay in selected && forall k :: k in selected ==> firstDay <= k;
      written := Some(TripStore.LodgingRecord(selected[firstDay], "", None, None));
      store.SetSelectedLodging(TripStore.Single(written.value));
    }
  }

  /** Once saved, the store holds no hotel for any day, whatever was chosen. */
  lemma SavedLodgingHasNoDay(selected: map<nat, string>, day: nat, lodgingDay: int)
    requires day in selected
    ensures TripStore.HotelForDay(TripStore.Single(RecordFor(selected, day)), lodgingDay).None?
  {
  }
}
