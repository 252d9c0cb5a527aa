/** The state of the Go client that its mutex protects, and the critical sections that change it
    (helper_client.go:30-39, 47-146, 187-213). */
module HelperClient {
  import opened Wrappers

  type Id = nat
  type Chan = nat
  type Pid = nat

  /** `cmd` and `stdin` name the process they belong to. */
  datatype Client = Client(cmd: Option<Pid>, stdin: Option<Pid>, pending: map<Id, Chan>, nextID: nat)

  function Fresh(): Client { Client(None, None, map[], 0) }

  function Started(c: Client, p: Pid): Client { c.(cmd := Some(p), stdin := Some(p)) }

  function Numbered(c: Client): Client { c.(nextID := c.nextID + 1) }

  function Registered(c: Client, id: Id, ch: Chan): Client { c.(pending := c.pending[id := ch]) }

  function Forgotten(c: Client, id: Id): Client { c.(pending := c.pending - {id}) }

  function Emptied(c: Client): Client { c.(cmd := None, stdin := None, pending := map[]) }

  class HelperClient {
    var cmd: Option<Pid>
    var stdin: Option<Pid>
    var pending: map<Id, Chan>
    var nextID: nat

    function View(): Client
      reads this
    {
      Client(cmd, stdin, pending, nextID)
    }

    constructor ()
      ensures View() == Fresh()
    {
      cmd, stdin, pending, nextID := None, None, map[], 0;
    }

    /** `spawned` is the process that `exec` would start, None if it fails. Reports whether a process
        is there, and whether it is a new one, for which a reader has to be started. */
    method EnsureStarted(spawned: Option<Pid>) returns (ok: bool, started: bool)
      modifies this
      ensures ok <==> old(cmd).Some? || spawned.Some?
      ensures started <==> old(cmd).None? && spawned.Some?
      ensures View() == if started then Started(old(View()), spawned.value) else old(View())
    {
      if cmd.Some? { return true, false; }
      if spawned.None? { return false, false; }
      cmd := spawned;
      stdin := spawned;
      return true, true;
    }

    method NextId() returns (id: Id)
      modifies this`nextID
      ensures View() == Numbered(old(View())) && id == nextID
    {
      nextID := nextID + 1;
      id := nextID;
    }

    method Register(id: Id, ch: Chan) returns (pipe: Option<Pid>)
      modifies this`pending
      ensures View() == Registered(old(View()), id, ch) && pipe == stdin
    {
      pending := pending[id := ch];
      pipe := stdin;
    }

    method Forget(id: Id)
      modifies this`pending
      ensures View() == Forgotten(old(View()), id)
    {
      pending := pending - {id};
    }

    /** The reader's look-up: whoever gets the channel is the only one who will. */
    method TakeChannel(id: Id) returns (ch: Option<Chan>)
      modifies this`pending
      ensures ch == if id in old(pending) then Some(old(pending)[id]) else None
      ensures View() == Forgotten(old(View()), id) && id !in pending
    {
      ch := if id in pending then Some(pending[id]) else None;
      pending := pending - {id};
    }

    /** The critical section of failProcess and Close: the process to kill and the channels to tell. */
    method TakeAll() returns (process: Option<Pid>, channels: map<Id, Chan>)
      modifies this
      ensures process == old(cmd) && channels == old(pending)
      ensures View() == Emptied(old(View()))
    {
      process := cmd;
      cmd := None;
      stdin := None;
      channels := pending;
      pending := map[];
    }
  }
}
