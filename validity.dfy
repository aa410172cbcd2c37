/**
 * `filter_valid_parking` (scripts/utils.py): one boolean mask over the
 * fetched rows, keeping on-street lots with real-time reporting, numeric and
 * non-negative free space, updated today. `today` is the clock's date,
 * passed in.
 */
module Validity {

  import opened Wrappers
  import opened Records
  import Seqs

  /** The mask's conjunction, for one row. */
  predicate IsValid(r: ParkingRow, today: Date) {
    && r.lotType == "NW"
    && r.realtimeFlag == "1"
    && r.capacity.Some?
    && r.occupied.Some?
    && r.capacity.value - r.occupied.value >= 0
    && r.updated.Some? && r.updated.value.date == today
  }

  /**
   * The rows the mask keeps: exactly the valid ones, each as often as in the
   * input, in input order.
   */
  function FilterValid(rows: seq<ParkingRow>, today: Date): (kept: seq<ParkingRow>)
    ensures forall i :: 0 <= i < |kept| ==> kept[i] in rows && IsValid(kept[i], today)
    ensures forall i :: 0 <= i < |rows| && IsValid(rows[i], today) ==> rows[i] in kept
    ensures forall r :: multiset(kept)[r] == if IsValid(r, today) then multiset(rows)[r] else 0
    ensures Seqs.IsSubsequence(kept, rows)
  {
    var p := (r: ParkingRow) => IsValid(r, today);
    Seqs.FilterIsSubsequence(p, rows);
    forall r ensures multiset(Seqs.Filter(p, rows))[r] == if IsValid(r, today) then multiset(rows)[r] else 0 {
      Seqs.FilterMultiplicity(p, rows, r);
    }
    Seqs.Filter(p, rows)
  }
}
