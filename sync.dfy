/**
 * Go's `sync.WaitGroup`, as an integer counter. The model keeps the two sums
 * that make up the counter — everything added and every `Done` — so that
 * contracts can speak of how many workers were ever registered; the Go
 * counter is their difference. Blocking is not modelled: `Wait` may be
 * called only where it would return at once.
 */
module Sync {

  class WaitGroup {
    var added: nat
    var done: nat

    /** A zero WaitGroup, as `&sync.WaitGroup{}` creates. */
    constructor ()
      ensures added == 0 && done == 0
    {
      added, done := 0, 0;
    }

    /** The WaitGroup's counter. */
    function Counter(): int
      reads this
    {
      added - done
    }

    /** `Add(delta)` for a non-negative delta. */
    method Add(delta: nat)
      modifies this
      ensures added == old(added) + delta && done == old(done)
    {
      added := added + delta;
    }

    /** `Done()`; Go panics when the counter would go negative. */
    method Done()
      requires Counter() > 0
      modifies this
      ensures added == old(added) && done == old(done) + 1
    {
      done := done + 1;
    }

    /** `Wait()` returns once the counter is zero; here only that case is admitted. */
    method Wait()
      requires Counter() == 0
      ensures Counter() == 0
    {
    }
  }
}
