/** The plugin object as one caller at a time sees it (plugin.go:22-34, 74-147). What other callers do
    in between is the subject of module Lease. */
module Plugin {
  import opened Lease
  import opened Wrappers

  class HelperSlot {
    const path: string
    var active: int
    var closed: bool

    constructor (path: string)
      ensures this.path == path && active == 0 && !closed
    {
      this.path := path;
      active, closed := 0, false;
    }

    method Close()
      modifies this
      ensures closed && active == old(active)
    {
      closed := true;
    }

    /** Returning a lease; a wait group panics when its counter would go below zero. */
    method Release()
      requires active > 0
      modifies this`active
      ensures active == old(active) - 1
    {
      active := active - 1;
    }
  }

  class ImagePlugin {
    var config: Config
    var helper: HelperSlot?

    /** The current helper runs the configured program and is open. */
    ghost predicate Valid()
      reads this, helper
    {
      helper != null ==> helper.path == config.helperPath && !helper.closed
    }

    constructor (cfg: Config)
      ensures Valid() && config == cfg && helper != null && fresh(helper) && helper.active == 0
    {
      config := cfg;
      helper := new HelperSlot(cfg.helperPath);
    }

    /** The lease: a configuration and the slot that was current with it. */
    method AcquireHelper() returns (lease: Option<(Config, HelperSlot)>)
      requires Valid()
      modifies helper
      ensures Valid() && config == old(config) && helper == old(helper)
      ensures lease.None? <==> helper == null
      ensures lease.Some? ==>
        && lease.value == (config, helper) && helper.active == old(helper.active) + 1
        && lease.value.1.path == lease.value.0.helperPath
    {
      if helper == null { return None; }
      helper.active := helper.active + 1;
      lease := Some((config, helper));
    }

    /** Returns the slot to retire: the old helper iff the path changed. It is left open. */
    method Reconfigure(cfg: Config) returns (retiring: HelperSlot?)
      requires Valid()
      modifies this
      ensures Valid() && config == cfg && helper != null
      ensures helper == old(helper) <==> old(helper) != null && old(config.helperPath) == cfg.helperPath
      ensures helper != old(helper) ==> fresh(helper) && helper.active == 0
      ensures retiring == if helper != old(helper) then old(helper) else null
    {
      if config == cfg && helper != null { return null; }
      var oldHelper := helper;
      if oldHelper == null || oldHelper.path != cfg.helperPath {
        helper := new HelperSlot(cfg.helperPath);
      }
      var newHelper := helper;
      config := cfg;
      retiring := if oldHelper != null && oldHelper != newHelper then oldHelper else null;
    }

    method Shutdown()
      requires Valid()
      modifies this, helper
      ensures Valid() && helper == null && config == old(config)
      ensures old(helper) != null ==> old(helper).closed && old(helper).active == old(helper.active)
    {
      var slot := helper;
      helper := null;
      if slot != null { slot.Close(); }
    }
  }
}
