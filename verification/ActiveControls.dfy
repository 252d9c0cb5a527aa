/** The helper's table of active requests and the operations on it (helper/main.py:17-19, 50-106). */
module ActiveControls {
  import opened Clock
  import opened Control

  type Id = nat

  /** What remains of the table when the request that `control` belongs to has ended. */
  function Without(active: map<Id, RequestControl>, id: Id, control: RequestControl): map<Id, RequestControl> {
    if id in active && active[id] == control then active - {id} else active
  }

  /** Ending a request never takes another request's control out of the table, even if both came with
      the same id; and its own is gone afterwards unless it stands under another id. */
  lemma OnlyItsOwn(active: map<Id, RequestControl>, id: Id, control: RequestControl, k: Id)
    ensures k in active && (active[k] != control || k != id) ==>
              k in Without(active, id, control) && Without(active, id, control)[k] == active[k]
    ensures id in Without(active, id, control) ==> Without(active, id, control)[id] != control
  {
  }

  class Service {
    var active: map<Id, RequestControl>

    constructor ()
      ensures active == map[]
    {
      active := map[];
    }

    /** A request that is not a cancel frame; an older one with the same id is left without an entry. */
    method Admit(id: Id, now: int, timeout: int) returns (control: RequestControl)
      modifies this
      ensures fresh(control) && !control.cancelled && control.resources == {}
      ensures control.deadline == now + Max(timeout, 10 * MILLISECOND)
      ensures active == old(active)[id := control]
    {
      control := new RequestControl(now, timeout);
      active := active[id := control];
    }

    /** The finally clause of process_request. */
    method Finish(id: Id, control: RequestControl)
      modifies this
      ensures active == Without(old(active), id, control)
    {
      if id in active && active[id] == control {
        active := active - {id};
      }
    }

    /** cancel_request: the target's resources are closed, and nothing happens to any other request. */
    method CancelTarget(target: Id) returns (found: bool)
      modifies active.Values
      ensures found <==> target in active
      ensures found ==> active[target].cancelled && active[target].resources == old(active[target].resources)
                        && active[target].closed == old(active[target].closed) + old(active[target].resources)
      ensures forall c | c in active.Values && !(found && c == active[target]) :: unchanged(c)
    {
      if target !in active { return false; }
      assert active[target] in active.Values;
      active[target].Cancel();
      found := true;
    }

    /** The end of serve_stdio: every active request is cancelled and everything it had open is closed. */
    method CancelAll()
      modifies active.Values
      ensures forall c | c in active.Values :: c.cancelled && c.resources == old(c.resources)
      ensures forall c | c in active.Values :: c.closed == old(c.closed) + old(c.resources)
    {
      var todo := active.Values;
      while todo != {}
        invariant todo <= active.Values
        invariant forall c | c in todo :: unchanged(c)
        invariant forall c | c in active.Values - todo ::
                    c.cancelled && c.resources == old(c.resources) && c.closed == old(c.closed) + old(c.resources)
        decreases |todo|
      {
        var control :| control in todo;
        todo := todo - {control};
        control.Cancel();
      }
    }
  }
}
