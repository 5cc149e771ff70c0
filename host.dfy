/**
 * The two pieces of the host environment the core mutates: the accessory
 * objects the home-automation framework hands out (their UUID, name and
 * `context.config`), and the event loop's table of interval timers.
 */
module Host {
  import opened JsonValue

  class PlatformAccessory {
    const displayName: string
    const uuid: string
    /** `accessory.context.config`: the raw sensor entry the accessory was last configured with. */
    var config: Json

    constructor (displayName: string, uuid: string)
      ensures this.displayName == displayName && this.uuid == uuid && config == JNull
    {
      this.displayName := displayName;
      this.uuid := uuid;
      config := JNull;
    }
  }

  /** The interval timers armed on the event loop: each live handle with its period in milliseconds. */
  class Scheduler {
    var active: map<nat, real>
    var nextHandle: nat

    ghost predicate Valid()
      reads this
    {
      forall h | h in active :: h < nextHandle
    }

    constructor ()
      ensures Valid() && active == map[]
    {
      active := map[];
      nextHandle := 0;
    }

    /** `setInterval`: arms a timer under a handle no live timer has. */
    method SetInterval(period: real) returns (handle: nat)
      requires Valid()
      modifies this
      ensures Valid()
      ensures handle !in old(active) && old(nextHandle) <= handle < nextHandle
      ensures active == old(active)[handle := period]
    {
      handle := nextHandle;
      active := active[handle := period];
      nextHandle := nextHandle + 1;
    }

    /** `clearInterval`: disarms the timer; a handle no longer armed is ignored. */
    method ClearInterval(handle: nat)
      requires Valid()
      modifies this
      ensures Valid()
      ensures active == old(active) - {handle} && nextHandle == old(nextHandle)
    {
      active := active - {handle};
    }
  }
}
