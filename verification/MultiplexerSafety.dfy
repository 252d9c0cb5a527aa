/** What every run of the protocol of module Multiplexer keeps, and what its callers can rely on. */
module MultiplexerSafety {
  import opened HelperClient
  import opened Multiplexer
  import opened Wrappers

  // ---------- facts that later steps never take back ----------

  predicate Owned(s: State, id: Id, ch: Chan) {
    id in s.uses && s.uses[id].ForCall? && s.uses[id].ch == ch
  }

  /** The response belongs to its id: the finished computation of that call, or the acknowledgement of
      a cancel frame, whose id is never that of a call. */
  predicate ResponseOK(s: State, r: Response) {
    && r.id in s.uses
    && match r.answer
       case Computed(body) => s.uses[r.id].ForCall? && r.id in s.computed &&
         s.computed[r.id] == (s.uses[r.id].payload, body)
       case CancelAck(_) => s.uses[r.id].ForCancel?
  }

  predicate MessageOK(s: State, ch: Chan, m: Message) {
    m.Reply? ==> ResponseOK(s, m.response) && Owned(s, m.response.id, ch)
  }

  predicate TicketOK(s: State, t: Ticket) {
    t.id in s.uses && s.uses[t.id] == ForCall(t.ch, t.payload)
  }

  predicate IsSent(s: State, ch: Chan, m: Message) {
    ch < |s.chans| && s.chans[ch].sent == [m]
  }

  predicate Cancelling(pc: Pc) { pc.CallCancel? || pc.CallCancelNumber? || pc.CallCancelWrite? }

  predicate HasTicket(pc: Pc) {
    || pc.CallRegister? || pc.CallWrite? || pc.CallFail? || pc.CallBroadcast? || pc.CallWait?
    || pc.CallForget? || Cancelling(pc) || pc.CallDone? || pc.CallPanicked?
  }

  predicate GaveUp(pc: Pc) {
    pc.CallForget? || Cancelling(pc) || (pc.CallDone? && pc.result.TimedOut?)
  }

  ghost predicate PcOK(s: State, pc: Pc) {
    && (HasTicket(pc) ==> TicketOK(s, pc.t))
    && (GaveUp(pc) ==> pc.t.id in s.abandoned)
    && (pc.CallWrite? && pc.pipe.Some? ==> pc.pipe.value < |s.procs|)
    && (pc.CallCancelNumber? || pc.CallCancelWrite? ==> pc.target < |s.procs|)
    && (pc.CallCancelWrite? ==> pc.id in s.uses && s.uses[pc.id] == ForCancel(pc.t.id))
    && (pc.CallDone? && pc.result.Got? ==>
      IsSent(s, pc.t.ch, pc.result.message) && MessageOK(s, pc.t.ch, pc.result.message))
    && (pc.Lookup? || pc.Deliver? ==> ResponseOK(s, pc.r))
    && (pc.Deliver? ==> Owned(s, pc.r.id, pc.ch))
    && (pc.CallFail? || pc.Reading? || pc.Lookup? || pc.Deliver? || pc.ReaderFail? ==> pc.p < |s.procs|)
    && (Broadcasting(pc) ==> forall ch :: ch in pc.all ==> ch in pc.todo || IsSent(s, ch, Gone))
  }

  predicate RequestOK(s: State, p: Pid, r: Request) {
    && r.id in s.uses && r.id in s.written && s.written[r.id] == p
    && match r
       case Images(id, payload) => s.uses[id].ForCall? && s.uses[id].payload == payload
       case CancelFrame(id, target) => s.uses[id] == ForCancel(target) && target in s.abandoned
  }

  predicate TaskOK(s: State, p: Pid, id: Id, task: Task) {
    && id in s.uses && s.uses[id].ForCall? && s.uses[id].payload == task.payload
    && id in s.written && s.written[id] == p
    && (task.cancelled ==> id in s.abandoned)
    && (task.answer.Some? ==> id in s.computed && s.computed[id] == (task.payload, task.answer.value))
  }

  ghost predicate ProcessOK(s: State, p: Pid, q: Process) {
    && (forall i | 0 <= i < |q.inbox| :: RequestOK(s, p, q.inbox[i]))
    && (forall id | id in q.tasks :: TaskOK(s, p, id, q.tasks[id]))
    && (forall i | 0 <= i < |q.outbox| :: ResponseOK(s, q.outbox[i]))
  }

  predicate ClientOK(s: State) {
    s.client.stdin == s.client.cmd && (s.client.cmd.Some? ==> s.client.cmd.value < |s.procs|)
  }

  ghost predicate ChannelOK(s: State, ch: Chan)
    requires ch < |s.chans|
  {
    forall i | 0 <= i < |s.chans[ch].sent| :: MessageOK(s, ch, s.chans[ch].sent[i])
  }

  ghost predicate PendingOK(s: State) {
    forall id | id in s.client.pending :: Owned(s, id, s.client.pending[id])
  }

  ghost predicate PcsOK(s: State) {
    forall a | a in s.agents :: PcOK(s, s.agents[a])
  }

  ghost predicate ChannelsOK(s: State) {
    forall ch: nat | ch < |s.chans| :: ChannelOK(s, ch)
  }

  ghost predicate ProcessesOK(s: State) {
    forall p: nat | p < |s.procs| :: ProcessOK(s, p, s.procs[p])
  }

  ghost predicate Consistent(s: State) {
    ClientOK(s) && PendingOK(s) && PcsOK(s) && ChannelsOK(s) && ProcessesOK(s)
  }

  /** What a run never takes back. */
  ghost predicate Grows(s: State, s': State) {
    && |s.chans| <= |s'.chans| && |s.procs| <= |s'.procs|
    && (forall id | id in s.uses :: id in s'.uses && s'.uses[id] == s.uses[id])
    && (forall id | id in s.written :: id in s'.written && s'.written[id] == s.written[id])
    && (forall id | id in s.computed :: id in s'.computed && s'.computed[id] == s.computed[id])
    && s.abandoned <= s'.abandoned
    && (forall ch: nat | ch < |s.chans| && s.chans[ch].sent != [] :: s'.chans[ch].sent == s.chans[ch].sent)
  }

  lemma PcFrame(s: State, s': State, pc: Pc)
    requires Grows(s, s') && PcOK(s, pc)
    ensures PcOK(s', pc)
  {
  }

  lemma ChannelFrame(s: State, s': State, ch: Chan)
    requires Grows(s, s') && ch < |s.chans| && ChannelOK(s, ch) && s'.chans[ch].sent == s.chans[ch].sent
    ensures ChannelOK(s', ch)
  {
    forall i | 0 <= i < |s'.chans[ch].sent|
      ensures MessageOK(s', ch, s'.chans[ch].sent[i])
    {
      assert MessageOK(s, ch, s.chans[ch].sent[i]);
    }
  }

  lemma ProcessFrame(s: State, s': State, p: Pid, q: Process)
    requires Grows(s, s') && ProcessOK(s, p, q)
    ensures ProcessOK(s', p, q)
  {
    forall i | 0 <= i < |q.inbox|
      ensures RequestOK(s', p, q.inbox[i])
    {
      assert RequestOK(s, p, q.inbox[i]);
    }
    forall id | id in q.tasks
      ensures TaskOK(s', p, id, q.tasks[id])
    {
      assert TaskOK(s, p, id, q.tasks[id]);
    }
    forall i | 0 <= i < |q.outbox|
      ensures ResponseOK(s', q.outbox[i])
    {
      assert ResponseOK(s, q.outbox[i]);
    }
  }

  lemma PendingFrame(s: State, s': State)
    requires PendingOK(s) && Grows(s, s')
    requires forall id | id in s'.client.pending ::
      id in s.client.pending && s'.client.pending[id] == s.client.pending[id]
    ensures PendingOK(s')
  {
    forall id | id in s'.client.pending
      ensures Owned(s', id, s'.client.pending[id])
    {
      assert Owned(s, id, s.client.pending[id]);
    }
  }

  lemma PcsFrame(s: State, s': State, a: Agent, pc': Pc)
    requires PcsOK(s) && Grows(s, s') && s'.agents == s.agents[a := pc'] && PcOK(s', pc')
    ensures PcsOK(s')
  {
    forall b | b in s'.agents
      ensures PcOK(s', s'.agents[b])
    {
      if b != a { PcFrame(s, s', s.agents[b]); }
    }
  }

  lemma SamePcs(s: State, s': State)
    requires PcsOK(s) && Grows(s, s') && s'.agents == s.agents
    ensures PcsOK(s')
  {
    forall b | b in s'.agents
      ensures PcOK(s', s'.agents[b])
    {
      PcFrame(s, s', s.agents[b]);
    }
  }

  lemma SameChannels(s: State, s': State)
    requires ChannelsOK(s) && Grows(s, s') && s'.chans == s.chans
    ensures ChannelsOK(s')
  {
    forall ch: nat | ch < |s'.chans|
      ensures ChannelOK(s', ch)
    {
      ChannelFrame(s, s', ch);
    }
  }

  lemma OneChannel(s: State, s': State, k: Chan, x: Channel)
    requires ChannelsOK(s) && Grows(s, s') && k < |s.chans| && s'.chans == s.chans[k := x]
    requires x.sent == s.chans[k].sent || forall i | 0 <= i < |x.sent| :: MessageOK(s', k, x.sent[i])
    ensures ChannelsOK(s')
  {
    forall ch: nat | ch < |s'.chans|
      ensures ChannelOK(s', ch)
    {
      if s'.chans[ch].sent == s.chans[ch].sent { ChannelFrame(s, s', ch); }
    }
  }

  lemma SameProcesses(s: State, s': State)
    requires ProcessesOK(s) && Grows(s, s') && s'.procs == s.procs
    ensures ProcessesOK(s')
  {
    forall p: nat | p < |s'.procs|
      ensures ProcessOK(s', p, s'.procs[p])
    {
      ProcessFrame(s, s', p, s.procs[p]);
    }
  }

  lemma OneProcess(s: State, s': State, k: Pid, q: Process)
    requires ProcessesOK(s) && Grows(s, s') && k < |s.procs| && s'.procs == s.procs[k := q] && ProcessOK(s', k, q)
    ensures ProcessesOK(s')
  {
    forall p: nat | p < |s'.procs|
      ensures ProcessOK(s', p, s'.procs[p])
    {
      if p != k { ProcessFrame(s, s', p, s.procs[p]); }
    }
  }

  /** A step of a that leaves channels and processes alone and registers nothing. */
  lemma QuietFrame(s: State, s': State, a: Agent, pc': Pc)
    requires Consistent(s) && Grows(s, s') && ClientOK(s') && s'.chans == s.chans && s'.procs == s.procs
    requires forall id | id in s'.client.pending ::
      id in s.client.pending && s'.client.pending[id] == s.client.pending[id]
    requires s'.agents == s.agents[a := pc'] && PcOK(s', pc')
    ensures Consistent(s')
  {
    PendingFrame(s, s');
    PcsFrame(s, s', a, pc');
    SameChannels(s, s');
    SameProcesses(s, s');
  }

  // ---------- who owns what ----------

  ghost predicate IdsInv(s: State) {
    && (forall id :: id in s.uses <==> 1 <= id <= s.client.nextID)
    && (forall id | id in s.uses && s.uses[id].ForCall? :: s.uses[id].ch < |s.chans|)
    && (forall i, j | i in s.uses && j in s.uses && s.uses[i].ForCall? && s.uses[j].ForCall? &&
      s.uses[i].ch == s.uses[j].ch :: i == j)
    && (forall id | id in s.written :: id in s.uses)
    && (forall id | id in s.computed :: id in s.written)
    && (forall id | id in s.abandoned :: id in s.uses)
  }

  predicate Unwritten(pc: Pc) { pc.CallRegister? || pc.CallWrite? }

  predicate Open(pc: Pc) {
    pc.CallRegister? || pc.CallWrite? || pc.CallFail? || pc.CallBroadcast? || pc.CallWait? || pc.CallPanicked?
  }

  /** What only the caller itself can change. */
  predicate LocalOK(s: State, pc: Pc) {
    && (Unwritten(pc) ==> pc.t.id !in s.written)
    && (pc.CallCancelWrite? ==> pc.id !in s.written)
    && (Open(pc) ==> pc.t.id !in s.abandoned && pc.t.ch < |s.chans| && s.chans[pc.t.ch].taken == 0)
    && (pc.CallDone? && !pc.result.TimedOut? ==> pc.t.id !in s.abandoned)
  }

  ghost predicate CallersInv(s: State) {
    && (forall a | a in s.agents :: LocalOK(s, s.agents[a]))
    && (forall a, b | a in s.agents && b in s.agents && a != b && HasTicket(s.agents[a]) && HasTicket(s.agents[b]) ::
          s.agents[a].t.id != s.agents[b].t.id)
  }

  /** The channels on which the agent alone is entitled to send, or which it has yet to register. */
  function Holds(pc: Pc): set<Chan> {
    match pc
    case CallRegister(t) => {t.ch}
    case Deliver(_, _, ch) => {ch}
    case CallBroadcast(_, _, todo) => todo
    case ReaderBroadcast(_, todo) => todo
    case CloseBroadcast(_, todo) => todo
    case _ => {}
  }

  predicate HeldBy(s: State, a: Agent, ch: Chan) {
    a in s.agents && ch in Holds(s.agents[a])
  }

  predicate Pending(s: State, ch: Chan) { ch in s.client.pending.Values }

  predicate Unsent(s: State, ch: Chan) { ch < |s.chans| && s.chans[ch] == Channel([], 0) }

  ghost predicate OwnersInv(s: State) {
    && (forall ch: nat | ch < |s.chans| :: s.chans[ch].taken <= |s.chans[ch].sent| <= 1)
    && (forall id | id in s.client.pending :: Unsent(s, s.client.pending[id]))
    && (forall a, ch | HeldBy(s, a, ch) :: Unsent(s, ch) && !Pending(s, ch))
    && (forall a, b, ch | HeldBy(s, a, ch) && HeldBy(s, b, ch) :: a == b)
  }

  ghost predicate Held(s: State, ch: Chan) {
    exists a :: HeldBy(s, a, ch)
  }

  /** No call is lost: its channel is registered, in the hands of a sender, or has its message, unless
      the caller has given up. */
  ghost predicate AccountedFor(s: State, id: Id, ch: Chan) {
    || (id in s.client.pending && s.client.pending[id] == ch)
    || Held(s, ch)
    || (ch < |s.chans| && s.chans[ch].sent != [])
    || id in s.abandoned
  }

  ghost predicate AccountInv(s: State) {
    forall id, ch | Owned(s, id, ch) :: AccountedFor(s, id, ch)
  }

  /** A request is in one place only, and has not been answered while it is waiting or running. */
  ghost predicate OnceIn(s: State, q: Process) {
    && (forall i | 0 <= i < |q.inbox| && q.inbox[i].Images? ::
      q.inbox[i].id !in s.computed && q.inbox[i].id !in q.tasks)
    && (forall i, j | 0 <= i < j < |q.inbox| && q.inbox[i].Images? && q.inbox[j].Images? ::
      q.inbox[i].id != q.inbox[j].id)
    && (forall id | id in q.tasks && q.tasks[id].answer.None? :: id !in s.computed)
  }

  ghost predicate OnceInv(s: State) {
    forall p: nat | p < |s.procs| :: OnceIn(s, s.procs[p])
  }

  ghost predicate Inv(s: State) {
    Consistent(s) && IdsInv(s) && CallersInv(s) && OwnersInv(s) && AccountInv(s) && OnceInv(s)
  }

  // ---------- preservation: moves that change nothing but the agent's position ----------

  predicate SameTicket(pc: Pc, pc': Pc) {
    HasTicket(pc') ==> HasTicket(pc) && pc'.t == pc.t
  }

  /** A step of a whose other effects do not concern the local facts of any other agent. */
  lemma CallersFrame(s: State, s': State, a: Agent, pc': Pc)
    requires CallersInv(s) && a in s.agents && s'.agents == s.agents[a := pc']
    requires SameTicket(s.agents[a], pc') && LocalOK(s', pc')
    requires forall b | b in s.agents && b != a :: LocalOK(s, s.agents[b]) ==> LocalOK(s', s.agents[b])
    ensures CallersInv(s')
  {
  }

  lemma HeldFrame(s: State, s': State, a: Agent, ch: Chan)
    requires a in s.agents && a in s'.agents && s'.agents == s.agents[a := s'.agents[a]]
    requires Held(s, ch) && (ch in Holds(s.agents[a]) ==> ch in Holds(s'.agents[a]))
    ensures Held(s', ch)
  {
    var b :| HeldBy(s, b, ch);
    assert HeldBy(s', b, ch);
  }

  lemma AccountFrame(s: State, s': State, a: Agent)
    requires AccountInv(s) && a in s.agents && a in s'.agents && s'.agents == s.agents[a := s'.agents[a]]
    requires s'.uses == s.uses && Grows(s, s')
    requires forall id, ch | Owned(s, id, ch) && id in s.client.pending && s.client.pending[id] == ch ::
      AccountedFor(s', id, ch)
    requires forall id, ch | Owned(s, id, ch) && ch in Holds(s.agents[a]) && ch !in Holds(s'.agents[a]) ::
      AccountedFor(s', id, ch)
    ensures AccountInv(s')
  {
    forall id, ch | Owned(s', id, ch)
      ensures AccountedFor(s', id, ch)
    {
      assert Owned(s, id, ch);
      assert AccountedFor(s, id, ch);
      if Held(s, ch) && !(ch in Holds(s.agents[a]) && ch !in Holds(s'.agents[a])) { HeldFrame(s, s', a, ch); }
    }
  }

  lemma OwnersFrame(s: State, s': State, a: Agent)
    requires OwnersInv(s) && s'.chans == s.chans
    requires forall id | id in s'.client.pending ::
      id in s.client.pending && s'.client.pending[id] == s.client.pending[id]
    requires a in s.agents && a in s'.agents && s'.agents == s.agents[a := s'.agents[a]]
    requires Holds(s'.agents[a]) == Holds(s.agents[a])
    ensures OwnersInv(s')
  {
    forall b, ch | HeldBy(s', b, ch)
      ensures HeldBy(s, b, ch)
    {
    }
  }

  lemma IdsFrame(s: State, s': State)
    requires IdsInv(s) && s'.uses == s.uses && s'.client.nextID == s.client.nextID && |s'.chans| == |s.chans|
    requires s'.written == s.written && s'.computed == s.computed && s'.abandoned == s.abandoned
    ensures IdsInv(s')
  {
  }

  lemma OnceFrame(s: State, s': State)
    requires OnceInv(s) && s'.computed == s.computed && s'.procs == s.procs
    ensures OnceInv(s')
  {
    forall p: nat | p < |s'.procs|
      ensures OnceIn(s', s'.procs[p])
    {
      assert OnceIn(s, s.procs[p]);
    }
  }

  lemma OneProcessOnce(s: State, s': State, k: Pid, q: Process)
    requires OnceInv(s) && s'.computed == s.computed && k < |s.procs| && s'.procs == s.procs[k := q] && OnceIn(s', q)
    ensures OnceInv(s')
  {
    forall p: nat | p < |s'.procs|
      ensures OnceIn(s', s'.procs[p])
    {
      assert p != k ==> OnceIn(s, s.procs[p]);
    }
  }

  lemma MoveKeepsConsistent(s: State, a: Agent, pc': Pc)
    requires Consistent(s) && PcOK(s, pc')
    ensures Consistent(Goto(s, a, pc'))
  {
    PcFrame(s, Goto(s, a, pc'), pc');
    QuietFrame(s, Goto(s, a, pc'), a, pc');
  }

  lemma MoveKeepsCallers(s: State, a: Agent, pc': Pc)
    requires CallersInv(s) && a in s.agents && SameTicket(s.agents[a], pc') && LocalOK(s, pc')
    ensures CallersInv(Goto(s, a, pc'))
  {
    CallersFrame(s, Goto(s, a, pc'), a, pc');
  }

  lemma MoveKeepsOwners(s: State, a: Agent, pc': Pc)
    requires OwnersInv(s) && (Holds(pc') == {} || (a in s.agents && Holds(pc') == Holds(s.agents[a])))
    ensures OwnersInv(Goto(s, a, pc'))
  {
    forall b, ch | HeldBy(Goto(s, a, pc'), b, ch)
      ensures HeldBy(s, b, ch)
    {
    }
  }

  lemma MoveKeepsAccount(s: State, a: Agent, pc': Pc)
    requires AccountInv(s) && a in s.agents && Holds(pc') == Holds(s.agents[a])
    ensures AccountInv(Goto(s, a, pc'))
  {
    AccountFrame(s, Goto(s, a, pc'), a);
  }

  lemma MoveKeepsInv(s: State, a: Agent, pc': Pc)
    requires Inv(s) && a in s.agents
    requires SameTicket(s.agents[a], pc') && Holds(pc') == Holds(s.agents[a]) && PcOK(s, pc') && LocalOK(s, pc')
    ensures Inv(Goto(s, a, pc'))
  {
    MoveKeepsConsistent(s, a, pc');
    IdsFrame(s, Goto(s, a, pc'));
    MoveKeepsCallers(s, a, pc');
    MoveKeepsOwners(s, a, pc');
    MoveKeepsAccount(s, a, pc');
    OnceFrame(s, Goto(s, a, pc'));
  }

  lemma BeginKeepsAccount(s: State, a: Agent, entry: Pc)
    requires AccountInv(s) && a !in s.agents
    ensures AccountInv(Goto(s, a, entry))
  {
    var s' := Goto(s, a, entry);
    forall id, ch | Owned(s', id, ch)
      ensures AccountedFor(s', id, ch)
    {
      assert Owned(s, id, ch) && AccountedFor(s, id, ch);
      if Held(s, ch) {
        var b :| HeldBy(s, b, ch);
        assert HeldBy(s', b, ch);
      }
    }
  }

  lemma BeginKeepsCallers(s: State, a: Agent, entry: Pc)
    requires CallersInv(s) && !HasTicket(entry)
    ensures CallersInv(Goto(s, a, entry))
  {
  }

  lemma BeginKeepsInv(s: State, a: Agent, entry: Pc)
    requires Inv(s) && a !in s.agents
    requires entry.CallStart? || entry.CloseStart? || (entry.Reading? && entry.p < |s.procs|)
    ensures Inv(Goto(s, a, entry))
  {
    MoveKeepsConsistent(s, a, entry);
    IdsFrame(s, Goto(s, a, entry));
    BeginKeepsCallers(s, a, entry);
    MoveKeepsOwners(s, a, entry);
    BeginKeepsAccount(s, a, entry);
    OnceFrame(s, Goto(s, a, entry));
  }

  // ---------- preservation: drawing an id and registering ----------

  lemma TicketsAreUsed(s: State, a: Agent)
    requires PcsOK(s) && a in s.agents && HasTicket(s.agents[a])
    ensures TicketOK(s, s.agents[a].t)
  {
    assert PcOK(s, s.agents[a]);
  }

  lemma NumberGrows(s: State, a: Agent, payload: Payload)
    requires IdsInv(s)
    ensures Grows(s, NumberStep(s, a, payload))
  {
  }

  lemma NumberKeepsChannels(s: State, a: Agent, payload: Payload)
    requires ChannelsOK(s) && Grows(s, NumberStep(s, a, payload))
    ensures ChannelsOK(NumberStep(s, a, payload))
  {
    var s' := NumberStep(s, a, payload);
    forall ch: nat | ch < |s'.chans|
      ensures ChannelOK(s', ch)
    {
      if ch < |s.chans| { ChannelFrame(s, s', ch); }
    }
  }

  lemma NumberKeepsConsistent(s: State, a: Agent, payload: Payload)
    requires Consistent(s) && IdsInv(s) && a in s.agents && s.agents[a] == CallNumber(payload)
    ensures Consistent(NumberStep(s, a, payload))
  {
    var s' := NumberStep(s, a, payload);
    NumberGrows(s, a, payload);
    PendingFrame(s, s');
    PcsFrame(s, s', a, CallRegister(Ticket(s.client.nextID + 1, |s.chans|, payload)));
    NumberKeepsChannels(s, a, payload);
    SameProcesses(s, s');
  }

  lemma NumberKeepsIds(s: State, a: Agent, payload: Payload)
    requires IdsInv(s)
    ensures IdsInv(NumberStep(s, a, payload))
  {
  }

  lemma NumberKeepsCallers(s: State, a: Agent, payload: Payload)
    requires PcsOK(s) && IdsInv(s) && CallersInv(s) && a in s.agents && s.agents[a] == CallNumber(payload)
    ensures CallersInv(NumberStep(s, a, payload))
  {
    forall b | b in s.agents && HasTicket(s.agents[b])
      ensures s.agents[b].t.id in s.uses
    {
      TicketsAreUsed(s, b);
    }
  }

  lemma NumberKeepsOwners(s: State, a: Agent, payload: Payload)
    requires OwnersInv(s) && a in s.agents && s.agents[a] == CallNumber(payload)
    ensures OwnersInv(NumberStep(s, a, payload))
  {
    var s' := NumberStep(s, a, payload);
    forall b, ch | HeldBy(s', b, ch)
      ensures if b == a then ch == |s.chans| else HeldBy(s, b, ch)
    {
    }
  }

  lemma NumberKeepsAccount(s: State, a: Agent, payload: Payload)
    requires IdsInv(s) && AccountInv(s) && a in s.agents && s.agents[a] == CallNumber(payload)
    ensures AccountInv(NumberStep(s, a, payload))
  {
    var s' := NumberStep(s, a, payload);
    assert HeldBy(s', a, |s.chans|);
    forall id, ch | Owned(s', id, ch)
      ensures AccountedFor(s', id, ch)
    {
      if Owned(s, id, ch) {
        assert AccountedFor(s, id, ch);
        if Held(s, ch) { HeldFrame(s, s', a, ch); }
      }
    }
  }

  lemma NumberKeepsInv(s: State, a: Agent, payload: Payload)
    requires Inv(s) && a in s.agents && s.agents[a] == CallNumber(payload)
    ensures Inv(NumberStep(s, a, payload))
  {
    NumberKeepsConsistent(s, a, payload);
    NumberKeepsIds(s, a, payload);
    NumberKeepsCallers(s, a, payload);
    NumberKeepsOwners(s, a, payload);
    NumberKeepsAccount(s, a, payload);
    OnceFrame(s, NumberStep(s, a, payload));
  }

  lemma RegisterKeepsConsistent(s: State, a: Agent, t: Ticket)
    requires Consistent(s) && a in s.agents && s.agents[a] == CallRegister(t)
    ensures Consistent(RegisterStep(s, a, t))
  {
    var s' := RegisterStep(s, a, t);
    TicketsAreUsed(s, a);
    PcsFrame(s, s', a, CallWrite(t, s.client.stdin));
    SameChannels(s, s');
    SameProcesses(s, s');
  }

  lemma RegisterKeepsCallers(s: State, a: Agent, t: Ticket)
    requires CallersInv(s) && a in s.agents && s.agents[a] == CallRegister(t)
    ensures CallersInv(RegisterStep(s, a, t))
  {
    assert LocalOK(s, s.agents[a]);
    CallersFrame(s, RegisterStep(s, a, t), a, CallWrite(t, s.client.stdin));
  }

  lemma RegisterKeepsOwners(s: State, a: Agent, t: Ticket)
    requires OwnersInv(s) && a in s.agents && s.agents[a] == CallRegister(t)
    ensures OwnersInv(RegisterStep(s, a, t))
  {
    assert HeldBy(s, a, t.ch);
    forall b, ch | HeldBy(RegisterStep(s, a, t), b, ch)
      ensures b != a && HeldBy(s, b, ch)
    {
    }
  }

  lemma RegisterKeepsAccount(s: State, a: Agent, t: Ticket)
    requires PcsOK(s) && IdsInv(s) && AccountInv(s) && a in s.agents && s.agents[a] == CallRegister(t)
    ensures AccountInv(RegisterStep(s, a, t))
  {
    var s' := RegisterStep(s, a, t);
    TicketsAreUsed(s, a);
    forall id, ch | Owned(s, id, ch) && ch in Holds(s.agents[a])
      ensures AccountedFor(s', id, ch)
    {
      assert id == t.id;
    }
    AccountFrame(s, s', a);
  }

  lemma RegisterKeepsInv(s: State, a: Agent, t: Ticket)
    requires Inv(s) && a in s.agents && s.agents[a] == CallRegister(t)
    ensures Inv(RegisterStep(s, a, t))
  {
    RegisterKeepsConsistent(s, a, t);
    IdsFrame(s, RegisterStep(s, a, t));
    RegisterKeepsCallers(s, a, t);
    RegisterKeepsOwners(s, a, t);
    RegisterKeepsAccount(s, a, t);
    OnceFrame(s, RegisterStep(s, a, t));
  }

  // ---------- preservation: writing a request ----------

  lemma WriteGrows(s: State, p: Pid, r: Request)
    requires r.id !in s.written
    ensures Grows(s, WriteRequest(s, p, r))
  {
  }

  /** Writing a request that was never written before. */
  lemma WriteKeepsProcess(s: State, s': State, p: Pid, r: Request)
    requires ProcessesOK(s) && Grows(s, s') && p < |s.procs| && s'.procs == WriteRequest(s, p, r).procs
    requires RequestOK(s', p, r)
    ensures ProcessesOK(s')
  {
    var q := s.procs[p].(inbox := s.procs[p].inbox + [r]);
    ProcessFrame(s, s', p, s.procs[p]);
    assert ProcessOK(s', p, s.procs[p]);
    OneProcess(s, s', p, q);
  }

  lemma NeverSeen(s: State, p: Pid, id: Id)
    requires ProcessesOK(s) && p < |s.procs| && id !in s.written
    ensures id !in s.procs[p].tasks && forall i | 0 <= i < |s.procs[p].inbox| :: s.procs[p].inbox[i].id != id
  {
    assert ProcessOK(s, p, s.procs[p]);
    assert id in s.procs[p].tasks ==> TaskOK(s, p, id, s.procs[p].tasks[id]);
    forall i | 0 <= i < |s.procs[p].inbox|
      ensures s.procs[p].inbox[i].id != id
    {
      assert RequestOK(s, p, s.procs[p].inbox[i]);
    }
  }

  lemma WriteKeepsOnce(s: State, s': State, p: Pid, r: Request)
    requires ProcessesOK(s) && OnceInv(s) && p < |s.procs| && r.id !in s.written && r.id !in s.computed
    requires s'.computed == s.computed && s'.procs == WriteRequest(s, p, r).procs
    ensures OnceInv(s')
  {
    NeverSeen(s, p, r.id);
    assert OnceIn(s, s.procs[p]);
    OneProcessOnce(s, s', p, s.procs[p].(inbox := s.procs[p].inbox + [r]));
  }

  predicate Writing(s: State, a: Agent, t: Ticket, p: Pid) {
    a in s.agents && s.agents[a] == CallWrite(t, Some(p)) && p < |s.procs| && t.id !in s.written
  }

  lemma WrittenKeepsConsistent(s: State, a: Agent, t: Ticket, p: Pid)
    requires Consistent(s) && Writing(s, a, t, p)
    ensures Consistent(WrittenStep(s, a, t, p))
  {
    var s' := WrittenStep(s, a, t, p);
    WriteGrows(s, p, Images(t.id, t.payload));
    TicketsAreUsed(s, a);
    PendingFrame(s, s');
    PcsFrame(s, s', a, CallWait(t));
    SameChannels(s, s');
    WriteKeepsProcess(s, s', p, Images(t.id, t.payload));
  }

  lemma WrittenKeepsIds(s: State, a: Agent, t: Ticket, p: Pid)
    requires IdsInv(s) && TicketOK(s, t)
    ensures IdsInv(WrittenStep(s, a, t, p))
  {
  }

  /** The id that a call writes is not the one that another agent is about to write. */
  lemma WrittenIdsDiffer(s: State, a: Agent, t: Ticket, p: Pid, b: Agent)
    requires PcsOK(s) && CallersInv(s) && Writing(s, a, t, p) && b in s.agents && b != a
    ensures Unwritten(s.agents[b]) ==> s.agents[b].t.id != t.id
    ensures s.agents[b].CallCancelWrite? ==> s.agents[b].id != t.id
  {
    assert PcOK(s, s.agents[a]) && PcOK(s, s.agents[b]);
  }

  lemma WrittenKeepsCallers(s: State, a: Agent, t: Ticket, p: Pid)
    requires PcsOK(s) && CallersInv(s) && Writing(s, a, t, p)
    ensures CallersInv(WrittenStep(s, a, t, p))
  {
    assert LocalOK(s, s.agents[a]);
    forall b | b in s.agents && b != a
      ensures LocalOK(s, s.agents[b]) ==> LocalOK(WrittenStep(s, a, t, p), s.agents[b])
    {
      WrittenIdsDiffer(s, a, t, p, b);
    }
    CallersFrame(s, WrittenStep(s, a, t, p), a, CallWait(t));
  }

  lemma WrittenKeepsAccount(s: State, a: Agent, t: Ticket, p: Pid)
    requires AccountInv(s) && Writing(s, a, t, p)
    ensures AccountInv(WrittenStep(s, a, t, p))
  {
    WriteGrows(s, p, Images(t.id, t.payload));
    AccountFrame(s, WrittenStep(s, a, t, p), a);
  }

  lemma WrittenKeepsOnce(s: State, a: Agent, t: Ticket, p: Pid)
    requires ProcessesOK(s) && OnceInv(s) && Writing(s, a, t, p) && t.id !in s.computed
    ensures OnceInv(WrittenStep(s, a, t, p))
  {
    WriteKeepsOnce(s, WrittenStep(s, a, t, p), p, Images(t.id, t.payload));
  }

  lemma WrittenKeepsOwners(s: State, a: Agent, t: Ticket, p: Pid)
    requires OwnersInv(s) && Writing(s, a, t, p)
    ensures OwnersInv(WrittenStep(s, a, t, p))
  {
    OwnersFrame(s, WrittenStep(s, a, t, p), a);
  }

  lemma WrittenKeepsInv(s: State, a: Agent, t: Ticket, p: Pid)
    requires Inv(s) && Writing(s, a, t, p)
    ensures Inv(WrittenStep(s, a, t, p))
  {
    TicketsAreUsed(s, a);
    WrittenKeepsConsistent(s, a, t, p);
    WrittenKeepsIds(s, a, t, p);
    WrittenKeepsCallers(s, a, t, p);
    WrittenKeepsOwners(s, a, t, p);
    WrittenKeepsAccount(s, a, t, p);
    WrittenKeepsOnce(s, a, t, p);
  }

  // ---------- preservation: waiting and giving up ----------

  lemma ExpireKeepsConsistent(s: State, a: Agent, t: Ticket)
    requires Consistent(s) && a in s.agents && s.agents[a] == CallWait(t)
    ensures Consistent(ExpireStep(s, a, t))
  {
    TicketsAreUsed(s, a);
    QuietFrame(s, ExpireStep(s, a, t), a, CallForget(t));
  }

  lemma ExpireKeepsIds(s: State, a: Agent, t: Ticket)
    requires IdsInv(s) && TicketOK(s, t)
    ensures IdsInv(ExpireStep(s, a, t))
  {
  }

  lemma ExpireKeepsCallers(s: State, a: Agent, t: Ticket)
    requires CallersInv(s) && a in s.agents && s.agents[a] == CallWait(t)
    ensures CallersInv(ExpireStep(s, a, t))
  {
    CallersFrame(s, ExpireStep(s, a, t), a, CallForget(t));
  }

  lemma ExpireKeepsAccount(s: State, a: Agent, t: Ticket)
    requires AccountInv(s) && a in s.agents && s.agents[a] == CallWait(t)
    ensures AccountInv(ExpireStep(s, a, t))
  {
    AccountFrame(s, ExpireStep(s, a, t), a);
  }

  lemma ExpireKeepsInv(s: State, a: Agent, t: Ticket)
    requires Inv(s) && a in s.agents && s.agents[a] == CallWait(t)
    ensures Inv(ExpireStep(s, a, t))
  {
    TicketsAreUsed(s, a);
    ExpireKeepsConsistent(s, a, t);
    ExpireKeepsIds(s, a, t);
    ExpireKeepsCallers(s, a, t);
    OwnersFrame(s, ExpireStep(s, a, t), a);
    ExpireKeepsAccount(s, a, t);
    OnceFrame(s, ExpireStep(s, a, t));
  }

  /** The waiting caller's only message has come and has not been taken. */
  predicate Arrived(s: State, a: Agent, t: Ticket) {
    && a in s.agents && s.agents[a] == CallWait(t)
    && t.ch < |s.chans| && |s.chans[t.ch].sent| == 1 && s.chans[t.ch].taken == 0
  }

  lemma ReceiveGrows(s: State, a: Agent, t: Ticket)
    ensures Grows(s, ReceiveStep(s, a, t))
  {
  }

  lemma ReceivedIsOK(s: State, a: Agent, t: Ticket)
    requires ChannelsOK(s) && TicketOK(s, t) && Arrived(s, a, t)
    ensures PcOK(ReceiveStep(s, a, t), CallDone(t, Got(s.chans[t.ch].sent[0])))
  {
    assert ChannelOK(s, t.ch);
    assert s.chans[t.ch].sent == [s.chans[t.ch].sent[0]];
  }

  lemma ReceiveKeepsConsistent(s: State, a: Agent, t: Ticket)
    requires Consistent(s) && Arrived(s, a, t)
    ensures Consistent(ReceiveStep(s, a, t))
  {
    var s' := ReceiveStep(s, a, t);
    TicketsAreUsed(s, a);
    ReceiveGrows(s, a, t);
    ReceivedIsOK(s, a, t);
    PendingFrame(s, s');
    PcsFrame(s, s', a, CallDone(t, Got(s.chans[t.ch].sent[0])));
    OneChannel(s, s', t.ch, s.chans[t.ch].(taken := 1));
    SameProcesses(s, s');
  }

  lemma ReceiveKeepsOwners(s: State, a: Agent, t: Ticket)
    requires OwnersInv(s) && Arrived(s, a, t)
    ensures OwnersInv(ReceiveStep(s, a, t))
  {
    var s' := ReceiveStep(s, a, t);
    forall b, ch | HeldBy(s', b, ch)
      ensures HeldBy(s, b, ch) && Unsent(s', ch)
    {
      assert HeldBy(s, b, ch);
    }
    forall id | id in s'.client.pending
      ensures Unsent(s', s'.client.pending[id])
    {
      assert Unsent(s, s.client.pending[id]);
    }
  }

  lemma ReceiveKeepsCallers(s: State, a: Agent, t: Ticket)
    requires PcsOK(s) && IdsInv(s) && CallersInv(s) && Arrived(s, a, t)
    ensures CallersInv(ReceiveStep(s, a, t))
  {
    var s' := ReceiveStep(s, a, t);
    TicketsAreUsed(s, a);
    assert LocalOK(s, s.agents[a]);
    forall b | b in s.agents && b != a && LocalOK(s, s.agents[b])
      ensures LocalOK(s', s.agents[b])
    {
      if HasTicket(s.agents[b]) { TicketsAreUsed(s, b); }
    }
    CallersFrame(s, s', a, CallDone(t, Got(s.chans[t.ch].sent[0])));
  }

  lemma ReceiveKeepsAccount(s: State, a: Agent, t: Ticket)
    requires AccountInv(s) && Arrived(s, a, t)
    ensures AccountInv(ReceiveStep(s, a, t))
  {
    ReceiveGrows(s, a, t);
    AccountFrame(s, ReceiveStep(s, a, t), a);
  }

  lemma ReceiveKeepsInv(s: State, a: Agent, t: Ticket)
    requires Inv(s) && Arrived(s, a, t)
    ensures Inv(ReceiveStep(s, a, t))
  {
    ReceiveKeepsConsistent(s, a, t);
    IdsFrame(s, ReceiveStep(s, a, t));
    ReceiveKeepsCallers(s, a, t);
    ReceiveKeepsOwners(s, a, t);
    ReceiveKeepsAccount(s, a, t);
    OnceFrame(s, ReceiveStep(s, a, t));
  }

  lemma WaitingHasRoom(s: State, a: Agent, t: Ticket)
    requires CallersInv(s) && OwnersInv(s) && a in s.agents && s.agents[a] == CallWait(t)
    ensures Arrived(s, a, t) || ReceiveStep(s, a, t) == s
  {
    assert LocalOK(s, s.agents[a]);
  }

  lemma ForgetKeepsConsistent(s: State, a: Agent, t: Ticket)
    requires Consistent(s) && a in s.agents && s.agents[a] == CallForget(t)
    ensures Consistent(ForgetStep(s, a, t))
  {
    assert PcOK(s, s.agents[a]);
    QuietFrame(s, ForgetStep(s, a, t), a, CallCancel(t));
  }

  lemma ForgetKeepsCallers(s: State, a: Agent, t: Ticket)
    requires CallersInv(s) && a in s.agents && s.agents[a] == CallForget(t)
    ensures CallersInv(ForgetStep(s, a, t))
  {
    CallersFrame(s, ForgetStep(s, a, t), a, CallCancel(t));
  }

  lemma ForgetKeepsAccount(s: State, a: Agent, t: Ticket)
    requires PcsOK(s) && AccountInv(s) && a in s.agents && s.agents[a] == CallForget(t)
    ensures AccountInv(ForgetStep(s, a, t))
  {
    assert PcOK(s, s.agents[a]);
    AccountFrame(s, ForgetStep(s, a, t), a);
  }

  lemma ForgetKeepsInv(s: State, a: Agent, t: Ticket)
    requires Inv(s) && a in s.agents && s.agents[a] == CallForget(t)
    ensures Inv(ForgetStep(s, a, t))
  {
    ForgetKeepsConsistent(s, a, t);
    IdsFrame(s, ForgetStep(s, a, t));
    ForgetKeepsCallers(s, a, t);
    OwnersFrame(s, ForgetStep(s, a, t), a);
    ForgetKeepsAccount(s, a, t);
    OnceFrame(s, ForgetStep(s, a, t));
  }

  lemma CancelKeepsInv(s: State, a: Agent, t: Ticket)
    requires Inv(s) && a in s.agents && s.agents[a] == CallCancel(t)
    ensures Inv(CancelStep(s, a, t))
  {
    assert PcOK(s, s.agents[a]);
    var pipe := s.client.stdin;
    MoveKeepsInv(s, a, if pipe.None? then CallDone(t, TimedOut) else CallCancelNumber(t, pipe.value));
  }

  // ---------- preservation: the cancel frame ----------

  lemma CancelNumberGrows(s: State, target: Id)
    requires IdsInv(s)
    ensures Grows(s, CancelNumbered(s, target))
  {
  }

  lemma CancelNumberKeepsConsistent(s: State, target: Id)
    requires Consistent(s) && IdsInv(s)
    ensures Consistent(CancelNumbered(s, target))
  {
    var s' := CancelNumbered(s, target);
    CancelNumberGrows(s, target);
    PendingFrame(s, s');
    SamePcs(s, s');
    SameChannels(s, s');
    SameProcesses(s, s');
  }

  lemma CancelNumberKeepsAccount(s: State, target: Id)
    requires AccountInv(s) && IdsInv(s)
    ensures AccountInv(CancelNumbered(s, target))
  {
    var s' := CancelNumbered(s, target);
    forall id, ch | Owned(s', id, ch)
      ensures AccountedFor(s', id, ch)
    {
      assert Owned(s, id, ch) && AccountedFor(s, id, ch);
      if Held(s, ch) {
        var b :| HeldBy(s, b, ch);
        assert HeldBy(s', b, ch);
      }
    }
  }

  lemma CancelNumberKeepsOwners(s: State, target: Id)
    requires OwnersInv(s)
    ensures OwnersInv(CancelNumbered(s, target))
  {
    forall b, ch | HeldBy(CancelNumbered(s, target), b, ch)
      ensures HeldBy(s, b, ch)
    {
    }
  }

  lemma CancelNumberKeepsIds(s: State, target: Id)
    requires IdsInv(s)
    ensures IdsInv(CancelNumbered(s, target))
  {
  }

  lemma CancelNumberKeepsInv(s: State, target: Id)
    requires Inv(s)
    ensures Inv(CancelNumbered(s, target))
  {
    CancelNumberKeepsConsistent(s, target);
    CancelNumberKeepsIds(s, target);
    CancelNumberKeepsOwners(s, target);
    CancelNumberKeepsAccount(s, target);
    OnceFrame(s, CancelNumbered(s, target));
  }

  /** The id drawn for a cancel frame is new. */
  lemma CancelNumberIsNew(s: State, t: Ticket, p: Pid)
    requires IdsInv(s) && TicketOK(s, t) && t.id in s.abandoned && p < |s.procs|
    ensures var s1, pc' := CancelNumbered(s, t.id), CallCancelWrite(t, s.client.nextID + 1, p);
            s1.agents == s.agents && PcOK(s1, pc') && LocalOK(s1, pc')
  {
  }

  lemma CancelNumberStepKeepsInv(s: State, a: Agent, t: Ticket, p: Pid)
    requires Inv(s) && a in s.agents && s.agents[a] == CallCancelNumber(t, p)
    ensures Inv(CancelNumberStep(s, a, t, p))
  {
    assert PcOK(s, s.agents[a]);
    CancelNumberKeepsInv(s, t.id);
    CancelNumberIsNew(s, t, p);
    MoveKeepsInv(CancelNumbered(s, t.id), a, CallCancelWrite(t, s.client.nextID + 1, p));
  }

  predicate Cancels(s: State, a: Agent, t: Ticket, id: Id, p: Pid) {
    && a in s.agents && s.agents[a] == CallCancelWrite(t, id, p) && p < |s.procs|
    && id !in s.written && id in s.uses && s.uses[id] == ForCancel(t.id) && t.id in s.abandoned
  }

  lemma CancelSentKeepsConsistent(s: State, a: Agent, t: Ticket, id: Id, p: Pid)
    requires Consistent(s) && Cancels(s, a, t, id, p)
    ensures Consistent(CancelSentStep(s, a, t, id, p))
  {
    var s' := CancelSentStep(s, a, t, id, p);
    WriteGrows(s, p, CancelFrame(id, t.id));
    assert PcOK(s, s.agents[a]);
    PendingFrame(s, s');
    PcsFrame(s, s', a, CallDone(t, TimedOut));
    SameChannels(s, s');
    WriteKeepsProcess(s, s', p, CancelFrame(id, t.id));
  }

  lemma CancelSentKeepsIds(s: State, a: Agent, t: Ticket, id: Id, p: Pid)
    requires IdsInv(s) && Cancels(s, a, t, id, p)
    ensures IdsInv(CancelSentStep(s, a, t, id, p))
  {
  }

  /** The id of a cancel frame is not the one that another agent is about to write. */
  lemma CancelIdsDiffer(s: State, a: Agent, t: Ticket, id: Id, p: Pid, b: Agent)
    requires PcsOK(s) && CallersInv(s) && Cancels(s, a, t, id, p) && b in s.agents && b != a
    ensures Unwritten(s.agents[b]) ==> s.agents[b].t.id != id
    ensures s.agents[b].CallCancelWrite? ==> s.agents[b].id != id
  {
    assert PcOK(s, s.agents[a]) && PcOK(s, s.agents[b]);
  }

  lemma CancelSentKeepsCallers(s: State, a: Agent, t: Ticket, id: Id, p: Pid)
    requires PcsOK(s) && CallersInv(s) && Cancels(s, a, t, id, p)
    ensures CallersInv(CancelSentStep(s, a, t, id, p))
  {
    forall b | b in s.agents && b != a
      ensures LocalOK(s, s.agents[b]) ==> LocalOK(CancelSentStep(s, a, t, id, p), s.agents[b])
    {
      CancelIdsDiffer(s, a, t, id, p, b);
    }
    CallersFrame(s, CancelSentStep(s, a, t, id, p), a, CallDone(t, TimedOut));
  }

  lemma CancelSentKeepsOwners(s: State, a: Agent, t: Ticket, id: Id, p: Pid)
    requires OwnersInv(s) && Cancels(s, a, t, id, p)
    ensures OwnersInv(CancelSentStep(s, a, t, id, p))
  {
    OwnersFrame(s, CancelSentStep(s, a, t, id, p), a);
  }

  lemma CancelSentKeepsAccount(s: State, a: Agent, t: Ticket, id: Id, p: Pid)
    requires AccountInv(s) && Cancels(s, a, t, id, p)
    ensures AccountInv(CancelSentStep(s, a, t, id, p))
  {
    WriteGrows(s, p, CancelFrame(id, t.id));
    AccountFrame(s, CancelSentStep(s, a, t, id, p), a);
  }

  lemma CancelSentKeepsOnce(s: State, a: Agent, t: Ticket, id: Id, p: Pid)
    requires ProcessesOK(s) && OnceInv(s) && Cancels(s, a, t, id, p) && id !in s.computed
    ensures OnceInv(CancelSentStep(s, a, t, id, p))
  {
    WriteKeepsOnce(s, CancelSentStep(s, a, t, id, p), p, CancelFrame(id, t.id));
  }

  lemma CancelSentKeepsInv(s: State, a: Agent, t: Ticket, id: Id, p: Pid)
    requires Inv(s) && Cancels(s, a, t, id, p)
    ensures Inv(CancelSentStep(s, a, t, id, p))
  {
    CancelSentKeepsConsistent(s, a, t, id, p);
    CancelSentKeepsIds(s, a, t, id, p);
    CancelSentKeepsCallers(s, a, t, id, p);
    CancelSentKeepsOwners(s, a, t, id, p);
    CancelSentKeepsAccount(s, a, t, id, p);
    CancelSentKeepsOnce(s, a, t, id, p);
  }

  lemma CancelIsReady(s: State, a: Agent, t: Ticket, id: Id, p: Pid)
    requires PcsOK(s) && CallersInv(s) && a in s.agents && s.agents[a] == CallCancelWrite(t, id, p)
    ensures Cancels(s, a, t, id, p)
  {
    assert PcOK(s, s.agents[a]) && LocalOK(s, s.agents[a]);
  }

  lemma CancelUnsentKeepsInv(s: State, a: Agent, t: Ticket, id: Id, p: Pid)
    requires Inv(s) && Cancels(s, a, t, id, p)
    ensures Inv(Goto(s, a, CallDone(t, TimedOut)))
  {
    assert PcOK(s, s.agents[a]);
    MoveKeepsInv(s, a, CallDone(t, TimedOut));
  }

  lemma CancelWriteKeepsInv(s: State, a: Agent, t: Ticket, id: Id, p: Pid, c: Choice)
    requires Inv(s) && a in s.agents && s.agents[a] == CallCancelWrite(t, id, p)
    ensures Inv(AgentStep(s, a, s.agents[a], c))
  {
    CancelIsReady(s, a, t, id, p);
    var s' := AgentStep(s, a, s.agents[a], c);
    if c.ok { CancelSentKeepsInv(s, a, t, id, p); assert s' == CancelSentStep(s, a, t, id, p); }
    else { CancelUnsentKeepsInv(s, a, t, id, p); assert s' == Goto(s, a, CallDone(t, TimedOut)); }
  }

  // ---------- preservation: failProcess, Close and every send ----------

  /** Steps that leave the callers, the channels and the registered calls alone. */
  predicate SameCalls(s: State, s': State) {
    && s'.client.pending == s.client.pending && s'.agents == s.agents && s'.chans == s.chans
    && s'.uses == s.uses && s'.abandoned == s.abandoned
  }

  lemma SameCallsKeepOwners(s: State, s': State)
    requires OwnersInv(s) && AccountInv(s) && SameCalls(s, s')
    ensures OwnersInv(s') && AccountInv(s')
  {
    forall b, ch | HeldBy(s', b, ch)
      ensures HeldBy(s, b, ch)
    {
    }
    forall id, ch | Owned(s', id, ch)
      ensures AccountedFor(s', id, ch)
    {
      assert Owned(s, id, ch) && AccountedFor(s, id, ch);
      if Held(s, ch) {
        var b :| HeldBy(s, b, ch);
        assert HeldBy(s', b, ch);
      }
    }
  }

  lemma SameCallsKeepCallers(s: State, s': State)
    requires CallersInv(s) && SameCalls(s, s') && s'.written == s.written
    ensures CallersInv(s')
  {
    forall b | b in s'.agents
      ensures LocalOK(s', s'.agents[b])
    {
      assert LocalOK(s, s.agents[b]);
    }
  }

  lemma KillKeepsProcesses(s: State, p: Option<Pid>)
    requires ProcessesOK(s) && Grows(s, Kill(s, p))
    ensures ProcessesOK(Kill(s, p))
  {
    if p.Some? && p.value < |s.procs| {
      var q := s.procs[p.value];
      ProcessFrame(s, Kill(s, p), p.value, q);
      assert ProcessOK(Kill(s, p), p.value, q);
      OneProcess(s, Kill(s, p), p.value, q.(alive := false));
    } else {
      SameProcesses(s, Kill(s, p));
    }
  }

  lemma KillKeepsOnce(s: State, p: Option<Pid>)
    requires OnceInv(s)
    ensures OnceInv(Kill(s, p))
  {
    if p.Some? && p.value < |s.procs| {
      assert OnceIn(s, s.procs[p.value]);
      OneProcessOnce(s, Kill(s, p), p.value, s.procs[p.value].(alive := false));
    } else {
      OnceFrame(s, Kill(s, p));
    }
  }

  lemma KillGrows(s: State, p: Option<Pid>)
    ensures Grows(s, Kill(s, p)) && (ClientOK(s) ==> ClientOK(Kill(s, p)))
  {
  }

  lemma KillKeepsConsistent(s: State, p: Option<Pid>)
    requires Consistent(s)
    ensures Consistent(Kill(s, p))
  {
    var s' := Kill(s, p);
    KillGrows(s, p);
    PendingFrame(s, s');
    SamePcs(s, s');
    SameChannels(s, s');
    KillKeepsProcesses(s, p);
  }

  lemma KillLeavesTheRest(s: State, p: Option<Pid>)
    ensures Kill(s, p) == s.(procs := Kill(s, p).procs)
  {
  }

  lemma KillKeepsInv(s: State, p: Option<Pid>)
    requires Inv(s)
    ensures Inv(Kill(s, p))
  {
    KillLeavesTheRest(s, p);
    KillKeepsConsistent(s, p);
    IdsFrame(s, Kill(s, p));
    SameCallsKeepCallers(s, Kill(s, p));
    SameCallsKeepOwners(s, Kill(s, p));
    KillKeepsOnce(s, p);
  }

  /** The critical section: the agent takes every registered channel and is then the only one that may
      send on them. */
  function TakeAllStep(s: State, a: Agent): State
    requires a in s.agents && TakingDown(s.agents[a])
  {
    Goto(s.(client := Emptied(s.client)), a, BeginBroadcast(s.agents[a], s.client.pending.Values))
  }

  lemma TakeAllKeepsConsistent(s: State, a: Agent)
    requires Consistent(s) && a in s.agents && TakingDown(s.agents[a])
    ensures Consistent(TakeAllStep(s, a))
  {
    assert PcOK(s, s.agents[a]);
    QuietFrame(s, TakeAllStep(s, a), a, BeginBroadcast(s.agents[a], s.client.pending.Values));
  }

  lemma TakeAllKeepsCallers(s: State, a: Agent)
    requires CallersInv(s) && a in s.agents && TakingDown(s.agents[a])
    ensures CallersInv(TakeAllStep(s, a))
  {
    assert LocalOK(s, s.agents[a]);
    CallersFrame(s, TakeAllStep(s, a), a, BeginBroadcast(s.agents[a], s.client.pending.Values));
  }

  lemma TakeAllKeepsOwners(s: State, a: Agent)
    requires OwnersInv(s) && a in s.agents && TakingDown(s.agents[a])
    ensures OwnersInv(TakeAllStep(s, a))
  {
    forall b, ch | HeldBy(TakeAllStep(s, a), b, ch)
      ensures if b == a then Pending(s, ch) else HeldBy(s, b, ch)
    {
    }
  }

  lemma TakeAllKeepsAccount(s: State, a: Agent)
    requires AccountInv(s) && a in s.agents && TakingDown(s.agents[a])
    ensures AccountInv(TakeAllStep(s, a))
  {
    var s' := TakeAllStep(s, a);
    forall id, ch | Owned(s, id, ch) && id in s.client.pending && s.client.pending[id] == ch
      ensures AccountedFor(s', id, ch)
    {
      assert HeldBy(s', a, ch);
    }
    AccountFrame(s, s', a);
  }

  lemma TakeAllKeepsInv(s: State, a: Agent)
    requires Inv(s) && a in s.agents && TakingDown(s.agents[a])
    ensures Inv(TakeAllStep(s, a))
  {
    TakeAllKeepsConsistent(s, a);
    IdsFrame(s, TakeAllStep(s, a));
    TakeAllKeepsCallers(s, a);
    TakeAllKeepsOwners(s, a);
    TakeAllKeepsAccount(s, a);
    OnceFrame(s, TakeAllStep(s, a));
  }

  lemma TakeDownKeepsInv(s: State, a: Agent)
    requires Inv(s) && a in s.agents && TakingDown(s.agents[a])
    ensures Inv(TakeDownStep(s, a, s.agents[a]))
  {
    TakeAllKeepsInv(s, a);
    KillKeepsInv(TakeAllStep(s, a), s.client.cmd);
    assert TakeDownStep(s, a, s.agents[a]) == Kill(TakeAllStep(s, a), s.client.cmd);
  }

  /** The agent sends on a channel it holds and lets go of it. */
  ghost predicate Sends(s: State, a: Agent, ch: Chan, m: Message, pc': Pc) {
    && HeldBy(s, a, ch) && Unsent(s, ch) && Holds(pc') == Holds(s.agents[a]) - {ch} && MessageOK(s, ch, m)
    && SameTicket(s.agents[a], pc') && PcOK(Goto(Send(s, ch, m), a, pc'), pc') && LocalOK(s, pc')
  }

  lemma SendGrows(s: State, a: Agent, ch: Chan, m: Message, pc': Pc)
    requires Unsent(s, ch)
    ensures Grows(s, Goto(Send(s, ch, m), a, pc'))
  {
  }

  lemma SendKeepsConsistent(s: State, a: Agent, ch: Chan, m: Message, pc': Pc)
    requires Consistent(s) && Sends(s, a, ch, m, pc')
    ensures Consistent(Goto(Send(s, ch, m), a, pc'))
  {
    var s' := Goto(Send(s, ch, m), a, pc');
    SendGrows(s, a, ch, m, pc');
    PendingFrame(s, s');
    PcsFrame(s, s', a, pc');
    assert s.chans[ch].sent + [m] == [m];
    OneChannel(s, s', ch, Channel([m], 0));
    SameProcesses(s, s');
  }

  lemma SendKeepsOwners(s: State, a: Agent, ch: Chan, m: Message, pc': Pc)
    requires OwnersInv(s) && Sends(s, a, ch, m, pc')
    ensures OwnersInv(Goto(Send(s, ch, m), a, pc'))
  {
    var s' := Goto(Send(s, ch, m), a, pc');
    assert !Pending(s, ch);
    forall b, k | HeldBy(s', b, k)
      ensures HeldBy(s, b, k) && Unsent(s', k)
    {
      assert HeldBy(s, b, k);
    }
    forall id | id in s'.client.pending
      ensures Unsent(s', s'.client.pending[id])
    {
      assert Unsent(s, s.client.pending[id]);
    }
  }

  lemma SendKeepsCallers(s: State, a: Agent, ch: Chan, m: Message, pc': Pc)
    requires CallersInv(s) && Sends(s, a, ch, m, pc')
    ensures CallersInv(Goto(Send(s, ch, m), a, pc'))
  {
    CallersFrame(s, Goto(Send(s, ch, m), a, pc'), a, pc');
  }

  lemma SendKeepsAccount(s: State, a: Agent, ch: Chan, m: Message, pc': Pc)
    requires AccountInv(s) && Sends(s, a, ch, m, pc')
    ensures AccountInv(Goto(Send(s, ch, m), a, pc'))
  {
    SendGrows(s, a, ch, m, pc');
    AccountFrame(s, Goto(Send(s, ch, m), a, pc'), a);
  }

  lemma SendKeepsInv(s: State, a: Agent, ch: Chan, m: Message, pc': Pc)
    requires Inv(s) && Sends(s, a, ch, m, pc')
    ensures Inv(Goto(Send(s, ch, m), a, pc'))
  {
    SendKeepsConsistent(s, a, ch, m, pc');
    IdsFrame(s, Goto(Send(s, ch, m), a, pc'));
    SendKeepsCallers(s, a, ch, m, pc');
    SendKeepsOwners(s, a, ch, m, pc');
    SendKeepsAccount(s, a, ch, m, pc');
    OnceFrame(s, Goto(Send(s, ch, m), a, pc'));
  }

  lemma HeldIsUnsent(s: State, a: Agent, ch: Chan)
    requires OwnersInv(s) && HeldBy(s, a, ch)
    ensures Unsent(s, ch)
  {
  }

  lemma BroadcastFacts(s: State, a: Agent, pc: Pc, ch: Chan)
    requires PcOK(s, pc) && Broadcasting(pc) && Unsent(s, ch)
    ensures var pc' := pc.(todo := pc.todo - {ch}); PcOK(Goto(Send(s, ch, Gone), a, pc'), pc')
  {
    var pc' := pc.(todo := pc.todo - {ch});
    forall k | k in pc'.all && k !in pc'.todo
      ensures IsSent(Goto(Send(s, ch, Gone), a, pc'), k, Gone)
    {
      assert k == ch || IsSent(s, k, Gone);
    }
  }

  lemma TellIsASend(s: State, a: Agent, pc: Pc, pick: Chan)
    requires PcsOK(s) && CallersInv(s) && OwnersInv(s)
    requires a in s.agents && s.agents[a] == pc && Broadcasting(pc) && pick in pc.todo
    ensures Sends(s, a, pick, Gone, pc.(todo := pc.todo - {pick}))
  {
    assert PcOK(s, pc) && LocalOK(s, pc);
    HeldIsUnsent(s, a, pick);
    BroadcastFacts(s, a, pc, pick);
  }

  /** One channel of a broadcast. Its slot is free, so the send does not block. */
  lemma TellKeepsInv(s: State, a: Agent, pc: Pc, pick: Chan)
    requires Inv(s) && a in s.agents && s.agents[a] == pc && Broadcasting(pc) && pick in pc.todo
    ensures Inv(Goto(Send(s, pick, Gone), a, pc.(todo := pc.todo - {pick})))
  {
    TellIsASend(s, a, pc, pick);
    SendKeepsInv(s, a, pick, Gone, pc.(todo := pc.todo - {pick}));
  }

  lemma AfterBroadcastIsSound(s: State, pc: Pc)
    requires PcOK(s, pc) && LocalOK(s, pc) && Broadcasting(pc)
    ensures SameTicket(pc, AfterBroadcast(pc)) && Holds(AfterBroadcast(pc)) == {}
    ensures PcOK(s, AfterBroadcast(pc)) && LocalOK(s, AfterBroadcast(pc))
  {
  }

  lemma BroadcastEnds(s: State, a: Agent, pc: Pc)
    requires Inv(s) && a in s.agents && s.agents[a] == pc && Broadcasting(pc) && pc.todo == {}
    ensures Inv(Goto(s, a, AfterBroadcast(pc)))
  {
    AfterBroadcastIsSound(s, pc);
    MoveKeepsInv(s, a, AfterBroadcast(pc));
  }

  lemma BroadcastKeepsInv(s: State, a: Agent, pc: Pc, pick: Chan)
    requires Inv(s) && a in s.agents && s.agents[a] == pc && Broadcasting(pc)
    ensures Inv(BroadcastStep(s, a, pc, pick))
  {
    if pc.todo == {} { BroadcastEnds(s, a, pc); }
    else if pick in pc.todo { TellKeepsInv(s, a, pc, pick); }
  }

  // ---------- preservation: starting a process ----------

  lemma SpawnKeepsProcesses(s: State)
    requires ProcessesOK(s)
    ensures ProcessesOK(Spawn(s))
  {
    var s' := Spawn(s);
    forall p: nat | p < |s'.procs|
      ensures ProcessOK(s', p, s'.procs[p])
    {
      if p < |s.procs| { ProcessFrame(s, s', p, s.procs[p]); }
    }
  }

  lemma SpawnKeepsConsistent(s: State)
    requires Consistent(s)
    ensures Consistent(Spawn(s))
  {
    PendingFrame(s, Spawn(s));
    SamePcs(s, Spawn(s));
    SameChannels(s, Spawn(s));
    SpawnKeepsProcesses(s);
  }

  lemma SpawnKeepsOnce(s: State)
    requires OnceInv(s)
    ensures OnceInv(Spawn(s))
  {
    forall p: nat | p < |Spawn(s).procs|
      ensures OnceIn(Spawn(s), Spawn(s).procs[p])
    {
      assert p < |s.procs| ==> OnceIn(s, s.procs[p]);
    }
  }

  lemma SpawnKeepsInv(s: State)
    requires Inv(s)
    ensures Inv(Spawn(s))
  {
    SpawnKeepsConsistent(s);
    IdsFrame(s, Spawn(s));
    SameCallsKeepCallers(s, Spawn(s));
    SameCallsKeepOwners(s, Spawn(s));
    SpawnKeepsOnce(s);
  }

  lemma ReaderBegins(s: State, reader: Agent)
    requires Inv(s) && reader !in s.agents
    ensures Inv(Goto(Spawn(s), reader, Reading(|s.procs|)))
  {
    SpawnKeepsInv(s);
    BeginKeepsInv(Spawn(s), reader, Reading(|s.procs|));
  }

  lemma NumberComes(s: State, a: Agent, payload: Payload)
    requires Inv(s) && a in s.agents && s.agents[a] == CallStart(payload)
    ensures Inv(Goto(s, a, CallNumber(payload)))
  {
    MoveKeepsInv(s, a, CallNumber(payload));
  }

  lemma StartKeepsInv(s: State, a: Agent, payload: Payload, c: Choice)
    requires Inv(s) && a in s.agents && s.agents[a] == CallStart(payload)
    ensures Inv(StartStep(s, a, payload, c))
  {
    if s.client.cmd.Some? {
      NumberComes(s, a, payload);
    } else if !c.ok {
      MoveKeepsInv(s, a, CallNotStarted);
    } else if c.reader !in s.agents {
      ReaderBegins(s, c.reader);
      NumberComes(Goto(Spawn(s), c.reader, Reading(|s.procs|)), a, payload);
    }
  }

  // ---------- preservation: readLoop ----------

  lemma TakeResponseKeepsConsistent(s: State, p: Pid)
    requires Consistent(s) && p < |s.procs| && s.procs[p].outbox != []
    ensures Consistent(TakeResponse(s, p))
    ensures ResponseOK(TakeResponse(s, p), s.procs[p].outbox[0])
  {
    var s' := TakeResponse(s, p);
    PendingFrame(s, s');
    SamePcs(s, s');
    SameChannels(s, s');
    ProcessFrame(s, s', p, s.procs[p]);
    assert ProcessOK(s', p, s.procs[p]);
    OneProcess(s, s', p, s.procs[p].(outbox := s.procs[p].outbox[1..]));
  }

  lemma TakeResponseKeepsOnce(s: State, p: Pid)
    requires OnceInv(s) && p < |s.procs| && s.procs[p].outbox != []
    ensures OnceInv(TakeResponse(s, p))
  {
    assert OnceIn(s, s.procs[p]);
    OneProcessOnce(s, TakeResponse(s, p), p, s.procs[p].(outbox := s.procs[p].outbox[1..]));
  }

  lemma TakeResponseKeepsInv(s: State, p: Pid)
    requires Inv(s) && p < |s.procs| && s.procs[p].outbox != []
    ensures Inv(TakeResponse(s, p))
  {
    TakeResponseKeepsConsistent(s, p);
    IdsFrame(s, TakeResponse(s, p));
    SameCallsKeepCallers(s, TakeResponse(s, p));
    SameCallsKeepOwners(s, TakeResponse(s, p));
    TakeResponseKeepsOnce(s, p);
  }

  lemma GarbleKeepsConsistent(s: State, id: Id)
    requires Consistent(s)
    ensures Consistent(Garble(s, id))
  {
    PendingFrame(s, Garble(s, id));
    SamePcs(s, Garble(s, id));
    SameChannels(s, Garble(s, id));
    SameProcesses(s, Garble(s, id));
  }

  lemma GarbleKeepsInv(s: State, id: Id)
    requires Inv(s)
    ensures Inv(Garble(s, id))
  {
    GarbleKeepsConsistent(s, id);
    IdsFrame(s, Garble(s, id));
    SameCallsKeepCallers(s, Garble(s, id));
    SameCallsKeepOwners(s, Garble(s, id));
    OnceFrame(s, Garble(s, id));
  }

  lemma GarbledKeepsInv(s: State, a: Agent, p: Pid)
    requires Inv(s) && a in s.agents && s.agents[a] == Reading(p) && p < |s.procs| && s.procs[p].outbox != []
    ensures Inv(Goto(Garble(TakeResponse(s, p), s.procs[p].outbox[0].id), a, Reading(p)))
  {
    TakeResponseKeepsInv(s, p);
    GarbleKeepsInv(TakeResponse(s, p), s.procs[p].outbox[0].id);
    MoveKeepsInv(Garble(TakeResponse(s, p), s.procs[p].outbox[0].id), a, Reading(p));
  }

  lemma ResponseKeepsInv(s: State, a: Agent, p: Pid)
    requires Inv(s) && a in s.agents && s.agents[a] == Reading(p) && p < |s.procs| && s.procs[p].outbox != []
    ensures Inv(Goto(TakeResponse(s, p), a, Lookup(p, s.procs[p].outbox[0])))
  {
    TakeResponseKeepsConsistent(s, p);
    TakeResponseKeepsInv(s, p);
    MoveKeepsInv(TakeResponse(s, p), a, Lookup(p, s.procs[p].outbox[0]));
  }

  lemma ReadKeepsInv(s: State, a: Agent, p: Pid, c: Choice)
    requires Inv(s) && a in s.agents && s.agents[a] == Reading(p)
    ensures Inv(ReadStep(s, a, p, c))
  {
    assert PcOK(s, s.agents[a]);
    if !c.ok {
      MoveKeepsInv(s, a, ReaderFail(p));
    } else if s.procs[p].outbox != [] {
      if c.garbled { GarbledKeepsInv(s, a, p); } else { ResponseKeepsInv(s, a, p); }
    }
  }

  /** Where the reader goes after looking up the response's id. */
  function AfterLookup(s: State, p: Pid, r: Response): Pc {
    if r.id in s.client.pending then Deliver(p, r, s.client.pending[r.id]) else Reading(p)
  }

  lemma LookupKeepsConsistent(s: State, a: Agent, p: Pid, r: Response)
    requires Consistent(s) && a in s.agents && s.agents[a] == Lookup(p, r)
    ensures Consistent(LookupStep(s, a, p, r))
  {
    assert PcOK(s, s.agents[a]);
    assert r.id in s.client.pending ==> Owned(s, r.id, s.client.pending[r.id]);
    QuietFrame(s, LookupStep(s, a, p, r), a, AfterLookup(s, p, r));
  }

  lemma LookupKeepsCallers(s: State, a: Agent, p: Pid, r: Response)
    requires CallersInv(s) && a in s.agents && s.agents[a] == Lookup(p, r)
    ensures CallersInv(LookupStep(s, a, p, r))
  {
    CallersFrame(s, LookupStep(s, a, p, r), a, AfterLookup(s, p, r));
  }

  lemma PendingAreDistinct(s: State, i: Id, j: Id)
    requires PendingOK(s) && IdsInv(s) && i in s.client.pending && j in s.client.pending && i != j
    ensures s.client.pending[i] != s.client.pending[j]
  {
    assert Owned(s, i, s.client.pending[i]) && Owned(s, j, s.client.pending[j]);
  }

  lemma LookupKeepsOwners(s: State, a: Agent, p: Pid, r: Response)
    requires OwnersInv(s) && a in s.agents && s.agents[a] == Lookup(p, r)
    requires forall k | k in s.client.pending && k != r.id && r.id in s.client.pending ::
      s.client.pending[k] != s.client.pending[r.id]
    ensures OwnersInv(LookupStep(s, a, p, r))
  {
    var s' := LookupStep(s, a, p, r);
    if r.id in s.client.pending {
      assert !Pending(s', s.client.pending[r.id]);
    }
    forall b, ch | HeldBy(s', b, ch)
      ensures HeldBy(s, b, ch) || (b == a && r.id in s.client.pending && ch == s.client.pending[r.id])
    {
    }
  }

  lemma LookupKeepsAccount(s: State, a: Agent, p: Pid, r: Response)
    requires AccountInv(s) && a in s.agents && s.agents[a] == Lookup(p, r)
    ensures AccountInv(LookupStep(s, a, p, r))
  {
    var s' := LookupStep(s, a, p, r);
    forall id, ch | Owned(s, id, ch) && id in s.client.pending && s.client.pending[id] == ch
      ensures AccountedFor(s', id, ch)
    {
      if id == r.id { assert HeldBy(s', a, ch); }
    }
    AccountFrame(s, s', a);
  }

  lemma LookupKeepsInv(s: State, a: Agent, p: Pid, r: Response)
    requires Inv(s) && a in s.agents && s.agents[a] == Lookup(p, r)
    ensures Inv(LookupStep(s, a, p, r))
  {
    LookupKeepsConsistent(s, a, p, r);
    IdsFrame(s, LookupStep(s, a, p, r));
    LookupKeepsCallers(s, a, p, r);
    forall k | k in s.client.pending && k != r.id && r.id in s.client.pending
      ensures s.client.pending[k] != s.client.pending[r.id]
    {
      PendingAreDistinct(s, k, r.id);
    }
    LookupKeepsOwners(s, a, p, r);
    LookupKeepsAccount(s, a, p, r);
    OnceFrame(s, LookupStep(s, a, p, r));
  }

  lemma DeliverIsASend(s: State, a: Agent, p: Pid, r: Response, ch: Chan)
    requires PcsOK(s) && OwnersInv(s) && a in s.agents && s.agents[a] == Deliver(p, r, ch)
    ensures Sends(s, a, ch, Reply(r), Reading(p))
  {
    assert PcOK(s, s.agents[a]);
    assert HeldBy(s, a, ch);
    HeldIsUnsent(s, a, ch);
  }

  lemma DeliverKeepsInv(s: State, a: Agent, p: Pid, r: Response, ch: Chan)
    requires Inv(s) && a in s.agents && s.agents[a] == Deliver(p, r, ch)
    ensures Inv(DeliverStep(s, a, p, r, ch))
  {
    DeliverIsASend(s, a, p, r, ch);
    SendKeepsInv(s, a, ch, Reply(r), Reading(p));
  }

  // ---------- preservation: any agent ----------

  lemma WriteFailureKeepsInv(s: State, a: Agent, t: Ticket, pipe: Option<Pid>)
    requires Inv(s) && a in s.agents && s.agents[a] == CallWrite(t, pipe)
    ensures Inv(Goto(s, a, if pipe.None? then CallPanicked(t) else CallFail(t, pipe.value)))
  {
    assert PcOK(s, s.agents[a]) && LocalOK(s, s.agents[a]);
    MoveKeepsInv(s, a, if pipe.None? then CallPanicked(t) else CallFail(t, pipe.value));
  }

  lemma CallWriteKeepsInv(s: State, a: Agent, t: Ticket, pipe: Option<Pid>, c: Choice)
    requires Inv(s) && a in s.agents && s.agents[a] == CallWrite(t, pipe)
    ensures Inv(AgentStep(s, a, s.agents[a], c))
  {
    var s' := AgentStep(s, a, s.agents[a], c);
    if pipe.Some? && c.ok {
      assert PcOK(s, s.agents[a]) && LocalOK(s, s.agents[a]);
      WrittenKeepsInv(s, a, t, pipe.value);
      assert s' == WrittenStep(s, a, t, pipe.value);
    } else {
      WriteFailureKeepsInv(s, a, t, pipe);
      assert s' == Goto(s, a, if pipe.None? then CallPanicked(t) else CallFail(t, pipe.value));
    }
  }

  lemma CallWaitKeepsInv(s: State, a: Agent, t: Ticket, c: Choice)
    requires Inv(s) && a in s.agents && s.agents[a] == CallWait(t)
    ensures Inv(AgentStep(s, a, s.agents[a], c))
  {
    if c.expire {
      ExpireKeepsInv(s, a, t);
    } else {
      WaitingHasRoom(s, a, t);
      if Arrived(s, a, t) { ReceiveKeepsInv(s, a, t); }
    }
  }

  lemma AgentKeepsInv(s: State, a: Agent, c: Choice)
    requires Inv(s) && a in s.agents
    ensures Inv(AgentStep(s, a, s.agents[a], c))
  {
    var pc := s.agents[a];
    var s' := AgentStep(s, a, pc, c);
    if TakingDown(pc) { TakeDownKeepsInv(s, a); }
    else if Broadcasting(pc) { BroadcastKeepsInv(s, a, pc, c.pick); }
    else if pc.CallStart? { StartKeepsInv(s, a, pc.payload, c); assert s' == StartStep(s, a, pc.payload, c); }
    else if pc.CallNumber? { NumberKeepsInv(s, a, pc.payload); assert s' == NumberStep(s, a, pc.payload); }
    else if pc.CallRegister? { RegisterKeepsInv(s, a, pc.t); assert s' == RegisterStep(s, a, pc.t); }
    else if pc.CallWrite? { CallWriteKeepsInv(s, a, pc.t, pc.pipe, c); }
    else if pc.CallWait? { CallWaitKeepsInv(s, a, pc.t, c); }
    else if pc.CallForget? { ForgetKeepsInv(s, a, pc.t); assert s' == ForgetStep(s, a, pc.t); }
    else if pc.CallCancel? { CancelKeepsInv(s, a, pc.t); assert s' == CancelStep(s, a, pc.t); }
    else if pc.CallCancelNumber? {
      CancelNumberStepKeepsInv(s, a, pc.t, pc.target);
      assert s' == CancelNumberStep(s, a, pc.t, pc.target);
    }
    else if pc.CallCancelWrite? { CancelWriteKeepsInv(s, a, pc.t, pc.id, pc.target, c); }
    else if pc.Reading? { ReadKeepsInv(s, a, pc.p, c); assert s' == ReadStep(s, a, pc.p, c); }
    else if pc.Lookup? { LookupKeepsInv(s, a, pc.p, pc.r); assert s' == LookupStep(s, a, pc.p, pc.r); }
    else if pc.Deliver? { DeliverKeepsInv(s, a, pc.p, pc.r, pc.ch); }
    else { assert s' == s; }
  }

  // ---------- preservation: the helper ----------

  predicate CanRead(s: State, p: Pid) { p < |s.procs| && s.procs[p].inbox != [] }

  /** Steps inside the processes do not concern the client. */
  lemma ProcsKeepInv(s: State, s': State)
    requires Inv(s) && Consistent(s') && OnceInv(s') && IdsInv(s') && SameCalls(s, s') && s'.written == s.written
    ensures Inv(s')
  {
    SameCallsKeepCallers(s, s');
    SameCallsKeepOwners(s, s');
  }

  /** What changes only processes and computed answers. */
  lemma ProcsKeepConsistent(s: State, s': State)
    requires Consistent(s) && Grows(s, s') && s'.client == s.client && s'.agents == s.agents && s'.chans == s.chans
    requires ProcessesOK(s')
    ensures Consistent(s')
  {
    PendingFrame(s, s');
    SamePcs(s, s');
    SameChannels(s, s');
  }

  lemma ReadRequestKeepsProcess(s: State, p: Pid)
    requires CanRead(s, p) && ProcessOK(s, p, s.procs[p]) && RequestOK(s, p, s.procs[p].inbox[0])
    ensures ProcessOK(ReadRequest(s, p), p, ReadRequest(s, p).procs[p])
  {
    var s' := ReadRequest(s, p);
    var q, q' := s.procs[p], s'.procs[p];
    forall i | 0 <= i < |q'.inbox|
      ensures RequestOK(s', p, q'.inbox[i])
    {
      assert RequestOK(s, p, q.inbox[i + 1]);
    }
    forall id | id in q'.tasks
      ensures TaskOK(s', p, id, q'.tasks[id])
    {
      if id in q.tasks { assert TaskOK(s, p, id, q.tasks[id]); }
    }
    forall i | 0 <= i < |q'.outbox|
      ensures ResponseOK(s', q'.outbox[i])
    {
      if i < |q.outbox| { assert ResponseOK(s, q.outbox[i]); }
    }
  }

  lemma ReadRequestKeepsConsistent(s: State, p: Pid)
    requires Consistent(s) && CanRead(s, p)
    ensures Consistent(ReadRequest(s, p))
  {
    var s' := ReadRequest(s, p);
    assert ProcessOK(s, p, s.procs[p]) && RequestOK(s, p, s.procs[p].inbox[0]);
    ReadRequestKeepsProcess(s, p);
    OneProcess(s, s', p, s'.procs[p]);
    ProcsKeepConsistent(s, s');
  }

  lemma ReadRequestKeepsOnceIn(s: State, p: Pid)
    requires CanRead(s, p) && OnceIn(s, s.procs[p])
    ensures OnceIn(ReadRequest(s, p), ReadRequest(s, p).procs[p])
  {
    var q, q' := s.procs[p], ReadRequest(s, p).procs[p];
    assert forall i | 0 <= i < |q'.inbox| :: q'.inbox[i] == q.inbox[i + 1];
  }

  lemma ReadRequestChangesOne(s: State, p: Pid)
    requires CanRead(s, p)
    ensures var s' := ReadRequest(s, p);
            p < |s'.procs| && s'.procs == s.procs[p := s'.procs[p]] && s' == s.(procs := s'.procs)
  {
  }

  lemma ReadRequestKeepsOnce(s: State, p: Pid)
    requires OnceInv(s) && CanRead(s, p)
    ensures OnceInv(ReadRequest(s, p))
  {
    var s' := ReadRequest(s, p);
    assert OnceIn(s, s.procs[p]);
    ReadRequestChangesOne(s, p);
    ReadRequestKeepsOnceIn(s, p);
    OneProcessOnce(s, s', p, s'.procs[p]);
  }

  lemma ReadRequestKeepsInv(s: State, p: Pid)
    requires Inv(s) && CanRead(s, p)
    ensures Inv(ReadRequest(s, p))
  {
    var s' := ReadRequest(s, p);
    ReadRequestChangesOne(s, p);
    ReadRequestKeepsConsistent(s, p);
    IdsFrame(s, s');
    ReadRequestKeepsOnce(s, p);
    ProcsKeepInv(s, s');
  }

  predicate CanFinish(s: State, p: Pid, id: Id) {
    p < |s.procs| && id in s.procs[p].tasks && s.procs[p].tasks[id].answer.None?
  }

  lemma FinishGrows(s: State, p: Pid, id: Id, body: string)
    requires OnceInv(s) && CanFinish(s, p, id)
    ensures Grows(s, HelperStep(s, HelperFinish(p, id, body)))
  {
    assert OnceIn(s, s.procs[p]);
  }

  lemma FinishKeepsProcess(s: State, p: Pid, id: Id, body: string)
    requires CanFinish(s, p, id) && ProcessOK(s, p, s.procs[p]) && Grows(s, HelperStep(s, HelperFinish(p, id, body)))
    ensures var s' := HelperStep(s, HelperFinish(p, id, body)); ProcessOK(s', p, s'.procs[p])
  {
    var s' := HelperStep(s, HelperFinish(p, id, body));
    assert TaskOK(s, p, id, s.procs[p].tasks[id]);
    ProcessFrame(s, s', p, s.procs[p]);
    forall k | k in s'.procs[p].tasks
      ensures TaskOK(s', p, k, s'.procs[p].tasks[k])
    {
      assert TaskOK(s', p, k, s.procs[p].tasks[k]);
    }
  }

  lemma FinishKeepsConsistent(s: State, p: Pid, id: Id, body: string)
    requires Consistent(s) && OnceInv(s) && CanFinish(s, p, id)
    ensures Consistent(HelperStep(s, HelperFinish(p, id, body)))
  {
    var s' := HelperStep(s, HelperFinish(p, id, body));
    assert ProcessOK(s, p, s.procs[p]);
    FinishGrows(s, p, id, body);
    FinishKeepsProcess(s, p, id, body);
    OneProcess(s, s', p, s'.procs[p]);
    ProcsKeepConsistent(s, s');
  }

  /** An id is at work in one place only: its frame was written once, to one process. */
  lemma NotElsewhere(s: State, p: Pid, id: Id, p': Pid)
    requires ProcessesOK(s) && OnceInv(s) && CanFinish(s, p, id) && p' < |s.procs|
    ensures forall i | 0 <= i < |s.procs[p'].inbox| && s.procs[p'].inbox[i].Images? :: s.procs[p'].inbox[i].id != id
    ensures p' != p ==> id !in s.procs[p'].tasks
  {
    assert ProcessOK(s, p, s.procs[p]) && TaskOK(s, p, id, s.procs[p].tasks[id]);
    assert ProcessOK(s, p', s.procs[p']) && OnceIn(s, s.procs[p']);
    forall i | 0 <= i < |s.procs[p'].inbox| && s.procs[p'].inbox[i].Images?
      ensures s.procs[p'].inbox[i].id != id
    {
      assert RequestOK(s, p', s.procs[p'].inbox[i]);
    }
  }

  lemma FinishKeepsOnceIn(s: State, p: Pid, id: Id, body: string, p': Pid)
    requires ProcessesOK(s) && OnceInv(s) && CanFinish(s, p, id) && p' < |s.procs|
    ensures var s' := HelperStep(s, HelperFinish(p, id, body)); OnceIn(s', s'.procs[p'])
  {
    assert OnceIn(s, s.procs[p']);
    NotElsewhere(s, p, id, p');
  }

  lemma FinishKeepsIds(s: State, p: Pid, id: Id, body: string)
    requires IdsInv(s) && ProcessesOK(s) && CanFinish(s, p, id)
    ensures IdsInv(HelperStep(s, HelperFinish(p, id, body)))
  {
    assert ProcessOK(s, p, s.procs[p]) && TaskOK(s, p, id, s.procs[p].tasks[id]);
  }

  lemma FinishKeepsInv(s: State, p: Pid, id: Id, body: string)
    requires Inv(s) && CanFinish(s, p, id)
    ensures Inv(HelperStep(s, HelperFinish(p, id, body)))
  {
    var s' := HelperStep(s, HelperFinish(p, id, body));
    FinishKeepsConsistent(s, p, id, body);
    FinishKeepsIds(s, p, id, body);
    forall p': nat | p' < |s'.procs|
      ensures OnceIn(s', s'.procs[p'])
    {
      FinishKeepsOnceIn(s, p, id, body, p');
    }
    ProcsKeepInv(s, s');
  }

  predicate CanWrite(s: State, p: Pid, id: Id) {
    p < |s.procs| && id in s.procs[p].tasks && s.procs[p].tasks[id].answer.Some?
  }

  lemma RespondKeepsConsistent(s: State, p: Pid, id: Id)
    requires Consistent(s) && CanWrite(s, p, id)
    ensures Consistent(HelperStep(s, HelperWrite(p, id)))
  {
    var s' := HelperStep(s, HelperWrite(p, id));
    assert ProcessOK(s, p, s.procs[p]) && TaskOK(s, p, id, s.procs[p].tasks[id]);
    ProcessFrame(s, s', p, s.procs[p]);
    assert ProcessOK(s', p, s.procs[p]);
    OneProcess(s, s', p, s'.procs[p]);
    ProcsKeepConsistent(s, s');
  }

  lemma RespondKeepsOnce(s: State, p: Pid, id: Id)
    requires OnceInv(s) && CanWrite(s, p, id)
    ensures OnceInv(HelperStep(s, HelperWrite(p, id)))
  {
    var s' := HelperStep(s, HelperWrite(p, id));
    assert OnceIn(s, s.procs[p]);
    OneProcessOnce(s, s', p, s'.procs[p]);
  }

  lemma RespondKeepsInv(s: State, p: Pid, id: Id)
    requires Inv(s) && CanWrite(s, p, id)
    ensures Inv(HelperStep(s, HelperWrite(p, id)))
  {
    var s' := HelperStep(s, HelperWrite(p, id));
    RespondKeepsConsistent(s, p, id);
    IdsFrame(s, s');
    RespondKeepsOnce(s, p, id);
    ProcsKeepInv(s, s');
  }

  lemma HelperKeepsInv(s: State, action: Action)
    requires Inv(s)
    ensures Inv(HelperStep(s, action))
  {
    match action {
      case HelperRead(p) => if CanRead(s, p) { ReadRequestKeepsInv(s, p); }
      case HelperFinish(p, id, body) => if CanFinish(s, p, id) { FinishKeepsInv(s, p, id, body); }
      case HelperWrite(p, id) => if CanWrite(s, p, id) { RespondKeepsInv(s, p, id); }
      case HelperExit(p) => KillKeepsInv(s, Some(p));
      case _ =>
    }
  }

  lemma NextKeepsInv(s: State, action: Action)
    requires Inv(s)
    ensures Inv(Next(s, action))
  {
    match action {
      case Begin(a, entry) =>
        if a !in s.agents && (entry.CallStart? || entry.CloseStart?) { BeginKeepsInv(s, a, entry); }
      case Step(a, c) => if a in s.agents { AgentKeepsInv(s, a, c); }
      case _ => HelperKeepsInv(s, action);
    }
  }

  lemma {:induction false} RunKeepsInv(s: State, actions: seq<Action>)
    requires Inv(s)
    ensures Inv(Run(s, actions))
    decreases |actions|
  {
    if actions != [] {
      NextKeepsInv(s, actions[0]);
      RunKeepsInv(Next(s, actions[0]), actions[1..]);
    }
  }

  lemma InitInv()
    ensures Inv(Init())
  {
  }
}
