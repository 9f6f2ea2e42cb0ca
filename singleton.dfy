/**
 * The lazy singleton. The static `$instance` slot becomes a holder object; the
 * instance is created by the first `getInstance` and returned ever after.
 */
module SingletonPattern {
  import opened Wrappers

  /** The single instance. It has no state of its own. */
  class Singleton {
    constructor ()
    {
    }
  }

  /** The static slot of the Singleton class. */
  class SingletonHolder {
    var instance: Singleton?
    /** How many instances have been created so far. */
    ghost var created: nat

    /** At most one instance is ever created, and it is the one in the slot. */
    ghost predicate Valid()
      reads this
    {
      created == if instance == null then 0 else 1
    }

    constructor ()
      ensures Valid() && instance == null
    {
      instance := null;
      created := 0;
    }

    /**
     * `getInstance`: creates the instance when the slot is empty, and returns the
     * instance in the slot.
     */
    method GetInstance() returns (r: Singleton)
      requires Valid()
      modifies this
      ensures Valid() && created <= 1
      ensures instance == r
      ensures old(instance) != null ==> r == old(instance) && created == old(created)
      ensures old(instance) == null ==> fresh(r)
    {
      if instance == null {
        instance := new Singleton();
        created := created + 1;
      }
      r := instance;
    }

    /**
     * Unserialising a stored instance: `__wakeup` always throws, so no second
     * instance comes into being and the slot keeps the one it had. `data` stands
     * for the serialised string; its content plays no part, since every string
     * that encodes a Singleton ends in the same `__wakeup`.
     */
    method Unserialize(data: string) returns (r: Result<Singleton, string>)
      requires Valid()
      ensures Valid()
      ensures r.Failure? && r.error == "Cannot unserialize a singleton."
      ensures instance == old(instance) && created == old(created)
    {
      r := Failure("Cannot unserialize a singleton.");
    }
  }

  /** The demonstration: two calls return the identical object. */
  method Demo() returns (one: Singleton, second: Singleton)
    ensures one == second
  {
    var holder := new SingletonHolder();
    one := holder.GetInstance();
    second := holder.GetInstance();
  }

  /**
   * The demonstration, continued by an attempt to unserialise the instance: the
   * attempt fails, and the next call still returns the first call's object.
   */
  method UnserializeBetweenCalls(data: string) returns (one: Singleton, copy: Result<Singleton, string>, second: Singleton)
    ensures copy.Failure?
    ensures one == second
  {
    var holder := new SingletonHolder();
    one := holder.GetInstance();
    copy := holder.Unserialize(data);
    second := holder.GetInstance();
  }

  /** Any number of calls after the first keep returning the first call's object. */
  method RepeatedCalls(holder: SingletonHolder, calls: nat) returns (first: Singleton, last: Singleton)
    requires holder.Valid()
    modifies holder
    ensures holder.Valid() && holder.created == 1
    ensures last == first && holder.instance == first
  {
    first := holder.GetInstance();
    last := first;
    for i := 0 to calls
      invariant holder.Valid() && holder.instance == first && holder.created == 1
      invariant last == first
    {
      last := holder.GetInstance();
    }
  }
}
