/**
 * Resource<T> of src/wifi_client.h: an ownership flag kept as the time the
 * resource was acquired, where 0 means free. millis() is passed in as `now`;
 * fk_assert() is a precondition. The guarded object itself is not modelled.
 */
module Resources {
  import opened Basics

  class Resource {
    var acquiredAt: uint32

    constructor ()
      ensures acquiredAt == 0
    {
      acquiredAt := 0;
    }

    /** available(): free exactly when no acquisition time is recorded. */
    predicate Available(): (r: bool)
      reads this
      ensures r <==> acquiredAt == 0
    {
      acquiredAt == 0
    }

    /** acquire(): records the time; acquired at time 0 it still reads as available. */
    method Acquire(now: uint32)
      requires Available()
      modifies this
      ensures acquiredAt == now
      ensures Available() <==> now == 0
    {
      acquiredAt := now;
    }

    /** tryAcquire(): acquires and reports true exactly when the resource is available. */
    method TryAcquire(now: uint32) returns (acquired: bool)
      modifies this
      ensures acquired <==> old(Available())
      ensures acquired ==> acquiredAt == now
      ensures !acquired ==> acquiredAt == old(acquiredAt)
    {
      if Available() {
        Acquire(now);
        return true;
      }
      return false;
    }

    /** release(). */
    method Release()
      requires !Available()
      modifies this
      ensures Available()
    {
      acquiredAt := 0;
    }
  }

  /**
   * Two holders in turn: while the first holds the resource (acquired at any
   * time but 0) the second is refused, and after the release the second gets it.
   */
  method TakeTurns(first: uint32, second: uint32) returns (a: bool, b: bool, c: bool)
    requires first != 0
    ensures a && !b && c
  {
    var r := new Resource();
    a := r.TryAcquire(first);
    b := r.TryAcquire(second);
    r.Release();
    c := r.TryAcquire(second);
  }

  /** Acquired at time 0 the resource still reads as free, so a second tryAcquire() also succeeds. */
  method AcquiredAtZero(later: uint32) returns (a: bool, b: bool)
    ensures a && b
  {
    var r := new Resource();
    a := r.TryAcquire(0);
    b := r.TryAcquire(later);
  }
}
