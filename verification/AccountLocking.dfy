/** lockAccountLifecycle as the loop it is. */
module AccountLocking {
  import opened BookingRows
  import opened LockOrder
  import opened LockPlans

  class LockLog {
    var taken: seq<Lock>

    constructor ()
      ensures taken == []
    {
      taken := [];
    }

    /** Take each distinct account's lock, in sorted order. */
    method LockAccountLifecycle(ids: seq<Id>)
      modifies this
      ensures taken == old(taken) + AccountLocks(SortedIds(ids))
    {
      var sorted := SortedIds(ids);
      for i := 0 to |sorted|
        invariant taken == old(taken) + AccountLocks(sorted)[..i]
      {
        taken := taken + [Lock(LockClass.Account, sorted[i])];
      }
    }
  }
}
