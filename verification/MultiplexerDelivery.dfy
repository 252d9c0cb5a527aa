/** What every run of the protocol delivers: no request, answer or cancel frame is lost on the way. */
module MultiplexerDelivery {
  import opened HelperClient
  import opened Multiplexer
  import opened MultiplexerSafety
  import opened MultiplexerResults
  import opened Wrappers

  // ---------- a call that waits has sent its request ----------

  /** Positions behind the write. */
  predicate HasSent(pc: Pc) {
    pc.CallWait? || GaveUp(pc) || (pc.CallDone? && pc.result.Got?)
  }

  ghost predicate SentInv(s: State) {
    forall a | a in s.agents && HasSent(s.agents[a]) :: s.agents[a].t.id in s.written
  }

  lemma OwnStepKeepsSent(s: State, a: Agent, c: Choice)
    requires Inv(s) && SentInv(s) && a in s.agents
    ensures var s' := Next(s, Step(a, c));
            a in s'.agents && (HasSent(s'.agents[a]) ==> s'.agents[a].t.id in s'.written)
  {
    NextGrows(s, Step(a, c));
    assert LocalOK(s, s.agents[a]) && PcOK(s, s.agents[a]);
    if s.agents[a].CallStart? { StartHasNotSent(s, a, s.agents[a].payload, c); }
    else { StepHasSent(s, a, c); }
  }

  lemma StartHasNotSent(s: State, a: Agent, payload: Payload, c: Choice)
    requires a in s.agents && s.agents[a].CallStart?
    ensures a in StartStep(s, a, payload, c).agents && !HasSent(StartStep(s, a, payload, c).agents[a])
  {
  }

  lemma TakeDownHasNotSent(s: State, a: Agent, pc: Pc)
    requires TakingDown(pc)
    ensures a in TakeDownStep(s, a, pc).agents && !HasSent(TakeDownStep(s, a, pc).agents[a])
  {
  }

  lemma BroadcastHasNotSent(s: State, a: Agent, pc: Pc, pick: Chan)
    requires a in s.agents && s.agents[a] == pc && Broadcasting(pc)
    ensures a in BroadcastStep(s, a, pc, pick).agents && !HasSent(BroadcastStep(s, a, pc, pick).agents[a])
  {
  }

  lemma ReadersHaveNotSent(s: State, a: Agent, c: Choice)
    requires a in s.agents && (s.agents[a].Reading? || s.agents[a].Lookup? || s.agents[a].Deliver?)
    ensures var s' := AgentStep(s, a, s.agents[a], c); a in s'.agents && !HasSent(s'.agents[a])
  {
  }

  /** What a caller has sent after its step, it had sent before or has sent with it. */
  predicate SendsNothingElse(pc: Pc, s': State, a: Agent) {
    && a in s'.agents
    && (HasSent(s'.agents[a]) ==>
         (HasSent(pc) && s'.agents[a].t == pc.t) || s'.agents[a].t.id in s'.written)
  }

  lemma WriterHasSent(s: State, a: Agent, c: Choice)
    requires a in s.agents && s.agents[a].CallWrite?
    requires s.agents[a].pipe.Some? ==> s.agents[a].pipe.value < |s.procs|
    ensures SendsNothingElse(s.agents[a], AgentStep(s, a, s.agents[a], c), a)
  {
  }

  lemma WaiterHasSent(s: State, a: Agent, c: Choice)
    requires a in s.agents && s.agents[a].CallWait?
    ensures SendsNothingElse(s.agents[a], AgentStep(s, a, s.agents[a], c), a)
  {
  }

  lemma CallerHasSent(s: State, a: Agent, c: Choice)
    requires a in s.agents && HasTicket(s.agents[a]) && !TakingDown(s.agents[a]) && !Broadcasting(s.agents[a])
    requires !s.agents[a].CallWrite? && !s.agents[a].CallWait?
    ensures SendsNothingElse(s.agents[a], AgentStep(s, a, s.agents[a], c), a)
  {
  }

  lemma StepHasSent(s: State, a: Agent, c: Choice)
    requires a in s.agents && !s.agents[a].CallStart? && PcOK(s, s.agents[a])
    ensures SendsNothingElse(s.agents[a], AgentStep(s, a, s.agents[a], c), a)
  {
    var pc := s.agents[a];
    if TakingDown(pc) { TakeDownHasNotSent(s, a, pc); }
    else if Broadcasting(pc) { BroadcastHasNotSent(s, a, pc, c.pick); }
    else if pc.CallWrite? { WriterHasSent(s, a, c); }
    else if pc.CallWait? { WaiterHasSent(s, a, c); }
    else if HasTicket(pc) { CallerHasSent(s, a, c); }
    else if pc.Reading? || pc.Lookup? || pc.Deliver? { ReadersHaveNotSent(s, a, c); }
  }

  /** A step adds nobody who has sent anything. */
  lemma NewcomersHaveNotSent(s: State, action: Action, b: Agent)
    requires b !in s.agents && b in Next(s, action).agents
    ensures !HasSent(Next(s, action).agents[b]) && !Next(s, action).agents[b].Lookup?
  {
    match action {
      case Begin(_, _) =>
      case Step(a, c) =>
        if a in s.agents && !s.agents[a].CallStart? { StepAddsNobody(s, a, c); }
      case _ => HelperKeepsAgents(s, action);
    }
  }

  lemma StepAddsNobody(s: State, a: Agent, c: Choice)
    requires a in s.agents && !s.agents[a].CallStart?
    ensures AgentStep(s, a, s.agents[a], c).agents.Keys == s.agents.Keys
  {
    var pc := s.agents[a];
    if MakesModestSteps(pc, c) { ModestSteps(s, a, c); }
    else if TakingDown(pc) { TakeDownAddsNobody(s, a, pc); }
    else { WritingAddsNobody(s, a, c); }
  }

  lemma TakeDownAddsNobody(s: State, a: Agent, pc: Pc)
    requires a in s.agents && TakingDown(pc)
    ensures TakeDownStep(s, a, pc).agents.Keys == s.agents.Keys
  {
  }

  lemma WritingAddsNobody(s: State, a: Agent, c: Choice)
    requires a in s.agents && (s.agents[a].CallRegister? || s.agents[a].CallWrite? || s.agents[a].CallCancelWrite?)
    ensures AgentStep(s, a, s.agents[a], c).agents.Keys == s.agents.Keys
  {
  }

  lemma NextKeepsSent(s: State, action: Action)
    requires Inv(s) && SentInv(s)
    ensures SentInv(Next(s, action))
  {
    var s' := Next(s, action);
    NextGrows(s, action);
    forall b | b in s'.agents && HasSent(s'.agents[b])
      ensures s'.agents[b].t.id in s'.written
    {
      if b !in s.agents { NewcomersHaveNotSent(s, action, b); }
      else if action.Step? && action.a == b { OwnStepKeepsSent(s, b, action.c); }
      else { OthersKeepAgent(s, b, action); }
    }
  }

  // ---------- where a request is ----------

  /** The request is in front of process p or at work in it. */
  predicate AtWork(s: State, p: Pid, id: Id, payload: Payload) {
    && p < |s.procs|
    && (Images(id, payload) in s.procs[p].inbox
        || (id in s.procs[p].tasks && s.procs[p].tasks[id] == Task(payload, s.procs[p].tasks[id].cancelled, None)))
  }

  /** A reader has the response in its hands. */
  ghost predicate InHand(s: State, p: Pid, r: Response) {
    exists a :: a in s.agents && s.agents[a] == Lookup(p, r)
  }

  /** The answer has still to be written by process p, is on the pipe, or is in the hands of a reader, unless
      the call has been taken out of the table or the response could not be decoded. */
  ghost predicate OnItsWay(s: State, p: Pid, id: Id, body: string) {
    || (p < |s.procs| && id in s.procs[p].tasks && s.procs[p].tasks[id].answer == Some(body))
    || (p < |s.procs| && Response(id, Computed(body)) in s.procs[p].outbox)
    || InHand(s, p, Response(id, Computed(body)))
    || id in s.garbled
    || id !in s.client.pending
  }

  ghost predicate Located(s: State, id: Id)
    requires id in s.written && id in s.uses && s.uses[id].ForCall?
  {
    var p := s.written[id];
    if id in s.computed then OnItsWay(s, p, id, s.computed[id].1) else AtWork(s, p, id, s.uses[id].payload)
  }

  ghost predicate LocatedInv(s: State) {
    forall id | id in s.written && id in s.uses && s.uses[id].ForCall? :: Located(s, id)
  }

  /** A step that writes, computes and answers nothing and takes nothing out of a reader's hands. */
  ghost predicate Idle(s: State, s': State) {
    && s'.written == s.written && s'.computed == s.computed && s.garbled <= s'.garbled
    && (forall id | id in s.written && id in s.uses :: id in s'.uses && s'.uses[id] == s.uses[id])
    && |s.procs| <= |s'.procs|
    && (forall p: nat | p < |s.procs| :: s'.procs[p] == s.procs[p].(alive := s'.procs[p].alive))
    && (forall id | id in s.written && id in s'.client.pending :: id in s.client.pending)
    && (forall a | a in s.agents && s.agents[a].Lookup? :: a in s'.agents && s'.agents[a] == s.agents[a])
  }

  lemma HandFrame(s: State, s': State, p: Pid, r: Response)
    requires forall a | a in s.agents && s.agents[a] == Lookup(p, r) :: a in s'.agents && s'.agents[a] == s.agents[a]
    ensures InHand(s, p, r) ==> InHand(s', p, r)
  {
    if InHand(s, p, r) {
      var a :| a in s.agents && s.agents[a] == Lookup(p, r);
      assert s'.agents[a] == Lookup(p, r);
    }
  }

  lemma IdleKeepsLocated(s: State, s': State, id: Id)
    requires Idle(s, s') && ProcessesExist(s)
    requires id in s.written && id in s.uses && s.uses[id].ForCall? && Located(s, id)
    ensures id in s'.written && id in s'.uses && s'.uses[id].ForCall? && Located(s', id)
  {
    var p := s.written[id];
    assert s'.procs[p] == s.procs[p].(alive := s'.procs[p].alive);
    if id in s.computed { HandFrame(s, s', p, Response(id, Computed(s.computed[id].1))); }
  }

  /** Frames are written to processes that exist, under ids that were drawn. */
  ghost predicate ProcessesExist(s: State) {
    forall id | id in s.written :: s.written[id] < |s.procs| && id in s.uses
  }

  lemma IdleKeepsLocatedInv(s: State, s': State)
    requires Idle(s, s') && ProcessesExist(s) && LocatedInv(s)
    ensures ProcessesExist(s') && LocatedInv(s')
  {
    forall id | id in s'.written && id in s'.uses && s'.uses[id].ForCall?
      ensures Located(s', id)
    {
      assert id in s.written;
      IdleKeepsLocated(s, s', id);
    }
  }

  lemma StartIsIdle(s: State, a: Agent, payload: Payload, c: Choice)
    requires a in s.agents && s.agents[a] == CallStart(payload)
    ensures Idle(s, StartStep(s, a, payload, c))
  {
  }

  lemma NumberIsIdle(s: State, a: Agent, payload: Payload)
    requires IdsInv(s) && a in s.agents && s.agents[a] == CallNumber(payload)
    ensures Idle(s, NumberStep(s, a, payload))
  {
  }

  lemma RegisterIsIdle(s: State, a: Agent, t: Ticket)
    requires a in s.agents && s.agents[a] == CallRegister(t) && t.id !in s.written
    ensures Idle(s, RegisterStep(s, a, t))
  {
  }

  lemma MoveIsIdle(s: State, a: Agent, pc': Pc)
    requires a in s.agents && !s.agents[a].Lookup?
    ensures Idle(s, Goto(s, a, pc'))
  {
  }

  lemma ExpireIsIdle(s: State, a: Agent, t: Ticket)
    requires a in s.agents && !s.agents[a].Lookup?
    ensures Idle(s, ExpireStep(s, a, t)) && Idle(s, ForgetStep(s, a, t))
  {
  }

  lemma ReceiveIsIdle(s: State, a: Agent, t: Ticket)
    requires a in s.agents && !s.agents[a].Lookup?
    ensures Idle(s, ReceiveStep(s, a, t))
  {
  }

  lemma CancelIsIdle(s: State, a: Agent, t: Ticket)
    requires a in s.agents && !s.agents[a].Lookup?
    ensures Idle(s, CancelStep(s, a, t))
  {
  }

  lemma CancelNumberIsIdle(s: State, a: Agent, t: Ticket, p: Pid)
    requires IdsInv(s) && a in s.agents && !s.agents[a].Lookup?
    ensures Idle(s, CancelNumberStep(s, a, t, p))
  {
  }

  lemma BroadcastIsIdle(s: State, a: Agent, pc: Pc, pick: Chan)
    requires a in s.agents && s.agents[a] == pc && Broadcasting(pc)
    ensures Idle(s, BroadcastStep(s, a, pc, pick))
  {
  }

  lemma DeliverIsIdle(s: State, a: Agent, p: Pid, r: Response, ch: Chan)
    requires a in s.agents && !s.agents[a].Lookup?
    ensures Idle(s, DeliverStep(s, a, p, r, ch))
  {
  }

  lemma TakeDownIsIdle(s: State, a: Agent, pc: Pc)
    requires a in s.agents && s.agents[a] == pc && TakingDown(pc)
    ensures Idle(s, TakeDownStep(s, a, pc))
  {
  }

  predicate MakesIdleSteps(pc: Pc, c: Choice) {
    && !(pc.CallWrite? && pc.pipe.Some? && c.ok) && !(pc.CallCancelWrite? && c.ok)
    && !(pc.Reading? && c.ok) && !pc.Lookup?
  }

  lemma GivingUpIsIdle(s: State, a: Agent, c: Choice)
    requires Inv(s) && a in s.agents && MakesIdleSteps(s.agents[a], c) && (HasSent(s.agents[a]))
    ensures Idle(s, AgentStep(s, a, s.agents[a], c))
  {
    var pc := s.agents[a];
    var s' := AgentStep(s, a, pc, c);
    if pc.CallWait? {
      WaitingIsIdle(s, a, c);
    } else if pc.CallForget? {
      ExpireIsIdle(s, a, pc.t);
      assert s' == ForgetStep(s, a, pc.t);
    } else if pc.CallCancel? {
      CancelIsIdle(s, a, pc.t);
      assert s' == CancelStep(s, a, pc.t);
    } else if pc.CallCancelNumber? {
      CancelNumberIsIdle(s, a, pc.t, pc.target);
      assert s' == CancelNumberStep(s, a, pc.t, pc.target);
    } else if pc.CallCancelWrite? {
      MoveIsIdle(s, a, CallDone(pc.t, TimedOut));
      assert s' == Goto(s, a, CallDone(pc.t, TimedOut));
    } else {
      assert s' == s;
    }
  }

  lemma WaitingIsIdle(s: State, a: Agent, c: Choice)
    requires a in s.agents && s.agents[a].CallWait?
    ensures Idle(s, AgentStep(s, a, s.agents[a], c))
  {
    ExpireIsIdle(s, a, s.agents[a].t);
    ReceiveIsIdle(s, a, s.agents[a].t);
  }

  lemma CallerIsIdle(s: State, a: Agent, c: Choice)
    requires Inv(s) && a in s.agents && MakesIdleSteps(s.agents[a], c) && HasTicket(s.agents[a])
    requires !TakingDown(s.agents[a]) && !Broadcasting(s.agents[a])
    ensures Idle(s, AgentStep(s, a, s.agents[a], c))
  {
    var pc := s.agents[a];
    if HasSent(pc) {
      GivingUpIsIdle(s, a, c);
    } else if pc.CallRegister? {
      assert LocalOK(s, pc);
      RegisterIsIdle(s, a, pc.t);
    } else if pc.CallWrite? {
      MoveIsIdle(s, a, if pc.pipe.None? then CallPanicked(pc.t) else CallFail(pc.t, pc.pipe.value));
    }
  }

  lemma StepIsIdle(s: State, a: Agent, c: Choice)
    requires Inv(s) && a in s.agents && MakesIdleSteps(s.agents[a], c)
    ensures Idle(s, AgentStep(s, a, s.agents[a], c))
  {
    var pc := s.agents[a];
    if TakingDown(pc) { TakeDownIsIdle(s, a, pc); }
    else if Broadcasting(pc) { BroadcastIsIdle(s, a, pc, c.pick); }
    else if HasTicket(pc) { CallerIsIdle(s, a, c); }
    else if pc.CallStart? { StartIsIdle(s, a, pc.payload, c); }
    else if pc.CallNumber? { NumberIsIdle(s, a, pc.payload); }
    else if pc.Reading? { MoveIsIdle(s, a, ReaderFail(pc.p)); }
    else if pc.Deliver? { DeliverIsIdle(s, a, pc.p, pc.r, pc.ch); }
  }

  // ---------- the steps that move a request or its answer ----------

  /** A frame is written to process p, under an id that was not written before. */
  ghost predicate Writes(s: State, s': State, p: Pid, r: Request) {
    && p < |s.procs| && r.id !in s.written && r.id !in s.computed && r.id in s.uses
    && s'.procs == s.procs[p := s.procs[p].(inbox := s.procs[p].inbox + [r])]
    && s'.written == s.written[r.id := p]
    && s'.uses == s.uses && s'.computed == s.computed && s'.garbled == s.garbled
    && s'.client.pending == s.client.pending
    && (forall b | b in s.agents && s.agents[b].Lookup? :: b in s'.agents && s'.agents[b] == s.agents[b])
  }

  lemma WriteKeepsLocated(s: State, s': State, p: Pid, r: Request, id: Id)
    requires Writes(s, s', p, r) && ProcessesExist(s)
    requires id in s.written && id in s.uses && s.uses[id].ForCall? && Located(s, id)
    ensures Located(s', id)
  {
    var q := s.written[id];
    assert forall x | x in s.procs[q].inbox :: x in s'.procs[q].inbox;
    if id in s.computed { HandFrame(s, s', q, Response(id, Computed(s.computed[id].1))); }
  }

  lemma WriteKeepsLocatedInv(s: State, s': State, p: Pid, r: Request)
    requires Writes(s, s', p, r) && ProcessesExist(s) && LocatedInv(s)
    requires s.uses[r.id].ForCall? ==> r == Images(r.id, s.uses[r.id].payload)
    ensures ProcessesExist(s') && LocatedInv(s')
  {
    forall id | id in s'.written && id in s'.uses && s'.uses[id].ForCall?
      ensures Located(s', id)
    {
      if id == r.id {
        assert s'.procs[p].inbox[|s.procs[p].inbox|] == r;
      } else {
        WriteKeepsLocated(s, s', p, r, id);
      }
    }
  }

  lemma WrittenWrites(s: State, a: Agent, t: Ticket, p: Pid)
    requires IdsInv(s) && PcsOK(s) && Writing(s, a, t, p)
    ensures Writes(s, WrittenStep(s, a, t, p), p, Images(t.id, t.payload))
    ensures s.uses[t.id] == ForCall(t.ch, t.payload)
  {
    assert PcOK(s, s.agents[a]);
  }

  lemma CancelSentWrites(s: State, a: Agent, t: Ticket, id: Id, p: Pid)
    requires IdsInv(s) && Cancels(s, a, t, id, p)
    ensures Writes(s, CancelSentStep(s, a, t, id, p), p, CancelFrame(id, t.id))
  {
  }

  lemma TakeKeepsLocated(s: State, s': State, a: Agent, p: Pid, id: Id)
    requires a in s.agents && s.agents[a] == Reading(p) && p < |s.procs| && s.procs[p].outbox != []
    requires var r := s.procs[p].outbox[0];
      s' == Goto(TakeResponse(s, p), a, Lookup(p, r)) || s' == Goto(Garble(TakeResponse(s, p), r.id), a, Reading(p))
    requires ProcessesExist(s) && id in s.written && id in s.uses && s.uses[id].ForCall? && Located(s, id)
    ensures Located(s', id)
  {
    var q := s.written[id];
    if id in s.computed {
      var r := Response(id, Computed(s.computed[id].1));
      HandFrame(s, s', q, r);
      if q == p && r in s.procs[p].outbox { TakenOrLeft(s, s', a, p, r); }
    }
  }

  /** A response on the pipe stays there, or is now in the reader's hands, or could not be decoded. */
  lemma TakenOrLeft(s: State, s': State, a: Agent, p: Pid, r: Response)
    requires p < |s.procs| && s.procs[p].outbox != [] && r in s.procs[p].outbox
    requires var r := s.procs[p].outbox[0];
      s' == Goto(TakeResponse(s, p), a, Lookup(p, r)) || s' == Goto(Garble(TakeResponse(s, p), r.id), a, Reading(p))
    ensures r in s'.procs[p].outbox || InHand(s', p, r) || r.id in s'.garbled
  {
    var outbox := s.procs[p].outbox;
    assert outbox == [outbox[0]] + outbox[1..];
    if r == outbox[0] && s'.agents[a].Lookup? { assert s'.agents[a] == Lookup(p, r); }
  }

  lemma LookupKeepsLocated(s: State, a: Agent, p: Pid, r: Response, id: Id)
    requires a in s.agents && s.agents[a] == Lookup(p, r)
    requires id in s.written && id in s.uses && s.uses[id].ForCall? && Located(s, id)
    ensures Located(LookupStep(s, a, p, r), id)
  {
    if id in s.computed && id != r.id {
      HandFrame(s, LookupStep(s, a, p, r), s.written[id], Response(id, Computed(s.computed[id].1)));
    }
  }

  lemma ReaderKeepsLocatedInv(s: State, a: Agent, c: Choice)
    requires a in s.agents && ((s.agents[a].Reading? && c.ok) || s.agents[a].Lookup?)
    requires ProcessesExist(s) && LocatedInv(s)
    ensures var s' := AgentStep(s, a, s.agents[a], c); ProcessesExist(s') && LocatedInv(s')
  {
    var pc := s.agents[a];
    var s' := AgentStep(s, a, pc, c);
    if pc.Lookup? { assert s' == LookupStep(s, a, pc.p, pc.r); } else { assert s' == ReadStep(s, a, pc.p, c); }
    forall id | id in s'.written && id in s'.uses && s'.uses[id].ForCall?
      ensures Located(s', id)
    {
      assert Located(s, id);
      if pc.Lookup? { LookupKeepsLocated(s, a, pc.p, pc.r, id); }
      else if s' != s { TakeKeepsLocated(s, s', a, pc.p, id); }
    }
  }

  /** The frame that an agent is about to write, and where to. */
  function FrameOf(pc: Pc): Request
    requires pc.CallWrite? || pc.CallCancelWrite?
  {
    if pc.CallWrite? then Images(pc.t.id, pc.t.payload) else CancelFrame(pc.id, pc.t.id)
  }

  function AimOf(pc: Pc): Pid
    requires (pc.CallWrite? && pc.pipe.Some?) || pc.CallCancelWrite?
  {
    if pc.CallWrite? then pc.pipe.value else pc.target
  }

  predicate WritesNow(pc: Pc, c: Choice) {
    c.ok && ((pc.CallWrite? && pc.pipe.Some?) || pc.CallCancelWrite?)
  }

  lemma StepWrites(s: State, a: Agent, c: Choice)
    requires Inv(s) && a in s.agents && WritesNow(s.agents[a], c)
    ensures Writes(s, AgentStep(s, a, s.agents[a], c), AimOf(s.agents[a]), FrameOf(s.agents[a]))
    ensures s.agents[a].CallWrite? ==>
      s.uses[s.agents[a].t.id] == ForCall(s.agents[a].t.ch, s.agents[a].t.payload)
    ensures s.agents[a].CallCancelWrite? ==> s.uses[s.agents[a].id] == ForCancel(s.agents[a].t.id)
  {
    var pc := s.agents[a];
    if pc.CallWrite? {
      assert LocalOK(s, pc) && PcOK(s, pc);
      WrittenWrites(s, a, pc.t, pc.pipe.value);
    } else {
      CancelIsReady(s, a, pc.t, pc.id, pc.target);
      CancelSentWrites(s, a, pc.t, pc.id, pc.target);
    }
  }

  lemma StepKeepsLocated(s: State, a: Agent, c: Choice)
    requires Inv(s) && ProcessesExist(s) && LocatedInv(s) && a in s.agents
    ensures var s' := AgentStep(s, a, s.agents[a], c); ProcessesExist(s') && LocatedInv(s')
  {
    var pc := s.agents[a];
    var s' := AgentStep(s, a, pc, c);
    if MakesIdleSteps(pc, c) {
      StepIsIdle(s, a, c);
      IdleKeepsLocatedInv(s, s');
    } else if WritesNow(pc, c) {
      StepWrites(s, a, c);
      WriteKeepsLocatedInv(s, s', AimOf(pc), FrameOf(pc));
    } else {
      ReaderKeepsLocatedInv(s, a, c);
    }
  }

  // ---------- the steps of the helper ----------

  lemma ReadRequestKeepsLocated(s: State, p: Pid, id: Id)
    requires CanRead(s, p) && OnceIn(s, s.procs[p]) && ProcessesExist(s)
    requires id in s.written && id in s.uses && s.uses[id].ForCall? && Located(s, id)
    requires RequestOK(s, p, s.procs[p].inbox[0])
    ensures Located(ReadRequest(s, p), id)
  {
    var s', q, inbox := ReadRequest(s, p), s.written[id], s.procs[p].inbox;
    assert inbox == [inbox[0]] + inbox[1..];
    if id in s.computed { HandFrame(s, s', q, Response(id, Computed(s.computed[id].1))); }
    if q == p {
      if inbox[0].Images? { ImagesReadKeepsLocated(s, p, id); } else { CancelReadKeepsLocated(s, p, id); }
    }
  }

  lemma ImagesReadKeepsLocated(s: State, p: Pid, id: Id)
    requires CanRead(s, p) && OnceIn(s, s.procs[p]) && s.procs[p].inbox[0].Images? && ProcessesExist(s)
    requires id in s.written && s.written[id] == p && id in s.uses && s.uses[id].ForCall? && Located(s, id)
    ensures Located(ReadRequest(s, p), id)
  {
    var s', inbox := ReadRequest(s, p), s.procs[p].inbox;
    assert inbox == [inbox[0]] + inbox[1..];
    assert inbox[0].id !in s.computed && inbox[0].id !in s.procs[p].tasks;
    if id in s.computed {
      HandFrame(s, s', p, Response(id, Computed(s.computed[id].1)));
    } else if id == inbox[0].id {
      var i :| 0 <= i < |inbox| && inbox[i] == Images(id, s.uses[id].payload);
      assert i == 0;
    }
  }

  lemma CancelReadKeepsLocated(s: State, p: Pid, id: Id)
    requires CanRead(s, p) && s.procs[p].inbox[0].CancelFrame? && ProcessesExist(s)
    requires id in s.written && s.written[id] == p && id in s.uses && s.uses[id].ForCall? && Located(s, id)
    ensures Located(ReadRequest(s, p), id)
  {
    var s', inbox := ReadRequest(s, p), s.procs[p].inbox;
    assert inbox == [inbox[0]] + inbox[1..];
    if id in s.computed { HandFrame(s, s', p, Response(id, Computed(s.computed[id].1))); }
  }

  lemma FinishKeepsLocated(s: State, p: Pid, k: Id, body: string, id: Id)
    requires CanFinish(s, p, k) && TaskOK(s, p, k, s.procs[p].tasks[k]) && k !in s.computed && ProcessesExist(s)
    requires id in s.written && id in s.uses && s.uses[id].ForCall? && Located(s, id)
    ensures Located(HelperStep(s, HelperFinish(p, k, body)), id)
  {
    var s' := HelperStep(s, HelperFinish(p, k, body));
    if id in s.computed { HandFrame(s, s', s.written[id], Response(id, Computed(s.computed[id].1))); }
  }

  lemma RespondKeepsLocated(s: State, p: Pid, k: Id, id: Id)
    requires CanWrite(s, p, k) && TaskOK(s, p, k, s.procs[p].tasks[k]) && ProcessesExist(s)
    requires id in s.written && id in s.uses && s.uses[id].ForCall? && Located(s, id)
    ensures Located(HelperStep(s, HelperWrite(p, k)), id)
  {
    var s', q := HelperStep(s, HelperWrite(p, k)), s.written[id];
    if id in s.computed {
      var r := Response(id, Computed(s.computed[id].1));
      HandFrame(s, s', q, r);
      if q == p && k == id && s.procs[p].tasks[id].answer == Some(s.computed[id].1) {
        assert s'.procs[p].outbox[|s.procs[p].outbox|] == r;
      }
    }
  }

  lemma ExitIsIdle(s: State, p: Pid)
    ensures Idle(s, Kill(s, Some(p)))
  {
  }

  lemma HelperKeepsLocated(s: State, action: Action)
    requires Inv(s) && ProcessesExist(s) && LocatedInv(s)
    ensures var s' := HelperStep(s, action); ProcessesExist(s') && LocatedInv(s')
  {
    var s' := HelperStep(s, action);
    if action.HelperExit? {
      ExitIsIdle(s, action.p);
      IdleKeepsLocatedInv(s, s');
    } else {
      HelperLeavesWritten(s, action);
      forall id | id in s'.written && id in s'.uses && s'.uses[id].ForCall?
        ensures Located(s', id)
      {
        assert Located(s, id);
        HelperKeepsOneLocated(s, action, id);
      }
    }
  }

  lemma HelperLeavesWritten(s: State, action: Action)
    ensures var s' := HelperStep(s, action);
            s'.written == s.written && s'.uses == s.uses && |s'.procs| == |s.procs|
  {
  }

  lemma HelperKeepsOneLocated(s: State, action: Action, id: Id)
    requires Inv(s) && ProcessesExist(s) && !action.HelperExit?
    requires id in s.written && id in s.uses && s.uses[id].ForCall? && Located(s, id)
    ensures id in HelperStep(s, action).written && id in HelperStep(s, action).uses
    ensures HelperStep(s, action).uses[id].ForCall? && Located(HelperStep(s, action), id)
  {
    HelperLeavesWritten(s, action);
    match action {
      case HelperRead(p) =>
        if CanRead(s, p) {
          assert OnceIn(s, s.procs[p]) && ProcessOK(s, p, s.procs[p]) && RequestOK(s, p, s.procs[p].inbox[0]);
          ReadRequestKeepsLocated(s, p, id);
        }
      case HelperFinish(p, k, body) =>
        if CanFinish(s, p, k) {
          assert OnceIn(s, s.procs[p]) && ProcessOK(s, p, s.procs[p]) && TaskOK(s, p, k, s.procs[p].tasks[k]);
          FinishKeepsLocated(s, p, k, body, id);
        }
      case HelperWrite(p, k) =>
        if CanWrite(s, p, k) {
          assert ProcessOK(s, p, s.procs[p]) && TaskOK(s, p, k, s.procs[p].tasks[k]);
          RespondKeepsLocated(s, p, k, id);
        }
      case _ =>
    }
  }

  // ---------- cancel frames ----------

  /** Process p will not start the request any more, and is not working on it without knowing of the cancel. */
  predicate Stopped(s: State, p: Pid, target: Id) {
    p < |s.procs| ==>
      && (forall r | r in s.procs[p].inbox && r.Images? :: r.id != target)
      && (target in s.procs[p].tasks ==> s.procs[p].tasks[target].cancelled || s.procs[p].tasks[target].answer.Some?)
  }

  /** The cancel frame is still to be read, and no request for its target stands behind it; or it has been read. */
  ghost predicate CancelOK(s: State, id: Id, target: Id)
    requires id in s.written
  {
    var p := s.written[id];
    && target in s.written
    && (Stopped(s, p, target)
        || (p < |s.procs| && exists i :: 0 <= i < |s.procs[p].inbox| && Bars(s.procs[p].inbox, i, id, target)))
  }

  /** The cancel frame is at position i, and no request for its target behind it. */
  predicate Bars(inbox: seq<Request>, i: nat, id: Id, target: Id)
    requires i < |inbox|
  {
    && inbox[i] == CancelFrame(id, target)
    && forall j | i < j < |inbox| && inbox[j].Images? :: inbox[j].id != target
  }

  ghost predicate CancelsInv(s: State) {
    forall id | id in s.written && id in s.uses && s.uses[id].ForCancel? :: CancelOK(s, id, s.uses[id].target)
  }

  lemma IdleKeepsCancels(s: State, s': State)
    requires Idle(s, s') && ProcessesExist(s) && CancelsInv(s)
    ensures CancelsInv(s')
  {
    forall id | id in s'.written && id in s'.uses && s'.uses[id].ForCancel?
      ensures CancelOK(s', id, s'.uses[id].target)
    {
      assert id in s.uses && CancelOK(s, id, s.uses[id].target);
      var p := s.written[id];
      assert s'.procs[p] == s.procs[p].(alive := s'.procs[p].alive);
    }
  }

  lemma BarsAppend(inbox: seq<Request>, i: nat, id: Id, target: Id, r: Request)
    requires i < |inbox| && Bars(inbox, i, id, target) && (r.Images? ==> r.id != target)
    ensures Bars(inbox + [r], i, id, target)
  {
  }

  lemma WriteKeepsCancel(s: State, s': State, p: Pid, r: Request, id: Id)
    requires Writes(s, s', p, r) && id in s.written && id in s.uses && s.uses[id].ForCancel?
    requires CancelOK(s, id, s.uses[id].target)
    ensures CancelOK(s', id, s.uses[id].target)
  {
    var q, target := s.written[id], s.uses[id].target;
    if q == p {
      var inbox := s.procs[p].inbox;
      if Stopped(s, p, target) {
        assert forall x | x in s'.procs[p].inbox :: x in inbox || x == r;
      } else {
        var i :| 0 <= i < |inbox| && Bars(inbox, i, id, target);
        BarsAppend(inbox, i, id, target, r);
      }
    }
  }

  lemma WriteKeepsCancels(s: State, s': State, p: Pid, r: Request)
    requires Writes(s, s', p, r) && CancelsInv(s)
    requires s.uses[r.id].ForCancel? ==> r == CancelFrame(r.id, s.uses[r.id].target) && s.uses[r.id].target in s.written
    ensures CancelsInv(s')
  {
    forall id | id in s'.written && id in s'.uses && s'.uses[id].ForCancel?
      ensures CancelOK(s', id, s'.uses[id].target)
    {
      if id == r.id {
        assert Bars(s'.procs[p].inbox, |s.procs[p].inbox|, id, s'.uses[id].target);
      } else {
        WriteKeepsCancel(s, s', p, r, id);
      }
    }
  }

  lemma TakeKeepsCancels(s: State, s': State, p: Pid)
    requires CancelsInv(s) && p < |s.procs| && s.procs[p].outbox != [] && s'.procs == TakeResponse(s, p).procs
    requires s'.written == s.written && s'.uses == s.uses
    ensures CancelsInv(s')
  {
    forall id | id in s'.written && id in s'.uses && s'.uses[id].ForCancel?
      ensures CancelOK(s', id, s'.uses[id].target)
    {
      assert CancelOK(s, id, s.uses[id].target);
    }
  }

  lemma SameProcsKeepCancels(s: State, s': State)
    requires CancelsInv(s) && s'.procs == s.procs && s'.written == s.written && s'.uses == s.uses
    ensures CancelsInv(s')
  {
    forall id | id in s'.written && id in s'.uses && s'.uses[id].ForCancel?
      ensures CancelOK(s', id, s'.uses[id].target)
    {
      assert CancelOK(s, id, s.uses[id].target);
    }
  }

  lemma ReaderKeepsCancels(s: State, a: Agent, c: Choice)
    requires a in s.agents && ((s.agents[a].Reading? && c.ok) || s.agents[a].Lookup?) && CancelsInv(s)
    ensures CancelsInv(AgentStep(s, a, s.agents[a], c))
  {
    var pc := s.agents[a];
    var s' := AgentStep(s, a, pc, c);
    if pc.Reading? && pc.p < |s.procs| && s.procs[pc.p].outbox != [] {
      assert s' == ReadStep(s, a, pc.p, c);
      TakeKeepsCancels(s, s', pc.p);
    } else if pc.Lookup? {
      assert s' == LookupStep(s, a, pc.p, pc.r);
      SameProcsKeepCancels(s, s');
    }
  }

  lemma StepKeepsCancels(s: State, a: Agent, c: Choice)
    requires Inv(s) && SentInv(s) && ProcessesExist(s) && CancelsInv(s) && a in s.agents
    ensures CancelsInv(AgentStep(s, a, s.agents[a], c))
  {
    var pc := s.agents[a];
    var s' := AgentStep(s, a, pc, c);
    if MakesIdleSteps(pc, c) {
      StepIsIdle(s, a, c);
      IdleKeepsCancels(s, s');
    } else if WritesNow(pc, c) {
      StepWrites(s, a, c);
      WriteKeepsCancels(s, s', AimOf(pc), FrameOf(pc));
    } else {
      ReaderKeepsCancels(s, a, c);
    }
  }

  /** Reading the frame at the head of the inbox. */
  lemma TailKeepsBars(inbox: seq<Request>, i: nat, id: Id, target: Id)
    requires i < |inbox| && Bars(inbox, i, id, target)
    ensures i > 0 ==> Bars(inbox[1..], i - 1, id, target)
    ensures i == 0 ==> forall r | r in inbox[1..] && r.Images? :: r.id != target
  {
    forall r | i == 0 && r in inbox[1..] && r.Images?
      ensures r.id != target
    {
      var j :| 0 <= j < |inbox[1..]| && inbox[1..][j] == r;
      assert inbox[j + 1] == r;
    }
  }

  lemma ReadRequestTakesHead(s: State, p: Pid)
    requires CanRead(s, p)
    ensures ReadRequest(s, p).procs[p].inbox == s.procs[p].inbox[1..]
    ensures ReadRequest(s, p).written == s.written
    ensures forall r | r in s.procs[p].inbox[1..] :: r in s.procs[p].inbox
  {
  }

  lemma ReadRequestKeepsStopped(s: State, p: Pid, q: Pid, target: Id)
    requires CanRead(s, p) && q < |s.procs| && Stopped(s, q, target)
    ensures Stopped(ReadRequest(s, p), q, target)
  {
    ReadRequestTakesHead(s, p);
  }

  lemma CancelReadStops(s: State, p: Pid, id: Id, target: Id)
    requires CanRead(s, p) && Bars(s.procs[p].inbox, 0, id, target)
    ensures Stopped(ReadRequest(s, p), p, target)
  {
    ReadRequestTakesHead(s, p);
    TailKeepsBars(s.procs[p].inbox, 0, id, target);
  }

  /** What the next frame of the inbox does to the standing of a cancel. */
  lemma ReadRequestKeepsCancel(s: State, p: Pid, id: Id, target: Id)
    requires CanRead(s, p) && id in s.written && CancelOK(s, id, target)
    ensures CancelOK(ReadRequest(s, p), id, target)
  {
    var q := s.written[id];
    ReadRequestTakesHead(s, p);
    if Stopped(s, q, target) {
      if q < |s.procs| { ReadRequestKeepsStopped(s, p, q, target); }
    } else if q == p {
      var inbox := s.procs[p].inbox;
      var i :| 0 <= i < |inbox| && Bars(inbox, i, id, target);
      TailKeepsBars(inbox, i, id, target);
      if i == 0 { CancelReadStops(s, p, id, target); }
    }
  }

  lemma FinishKeepsCancel(s: State, p: Pid, k: Id, body: string, id: Id, target: Id)
    requires CanFinish(s, p, k) && id in s.written && CancelOK(s, id, target)
    ensures CancelOK(HelperStep(s, HelperFinish(p, k, body)), id, target)
  {
  }

  lemma RespondKeepsCancel(s: State, p: Pid, k: Id, id: Id, target: Id)
    requires CanWrite(s, p, k) && id in s.written && CancelOK(s, id, target)
    ensures CancelOK(HelperStep(s, HelperWrite(p, k)), id, target)
  {
  }

  lemma HelperKeepsOneCancel(s: State, action: Action, id: Id, target: Id)
    requires !action.HelperExit? && id in s.written && CancelOK(s, id, target)
    ensures id in HelperStep(s, action).written && CancelOK(HelperStep(s, action), id, target)
  {
    match action {
      case HelperRead(p) => if CanRead(s, p) { ReadRequestKeepsCancel(s, p, id, target); }
      case HelperFinish(p, k, body) => if CanFinish(s, p, k) { FinishKeepsCancel(s, p, k, body, id, target); }
      case HelperWrite(p, k) => if CanWrite(s, p, k) { RespondKeepsCancel(s, p, k, id, target); }
      case _ =>
    }
  }

  lemma HelperKeepsCancels(s: State, action: Action)
    requires ProcessesExist(s) && CancelsInv(s)
    ensures CancelsInv(HelperStep(s, action))
  {
    var s' := HelperStep(s, action);
    HelperLeavesWritten(s, action);
    if action.HelperExit? {
      ExitIsIdle(s, action.p);
      IdleKeepsCancels(s, s');
    } else {
      forall id | id in s'.written && id in s'.uses && s'.uses[id].ForCancel?
        ensures CancelOK(s', id, s'.uses[id].target)
      {
        HelperKeepsOneCancel(s, action, id, s.uses[id].target);
      }
    }
  }

  // ---------- every run ----------

  ghost predicate DeliveryInv(s: State) {
    SentInv(s) && ProcessesExist(s) && LocatedInv(s) && CancelsInv(s)
  }

  lemma BeginIsIdle(s: State, a: Agent, entry: Pc)
    requires a !in s.agents
    ensures Idle(s, Next(s, Begin(a, entry)))
  {
  }

  lemma NextKeepsDelivery(s: State, action: Action)
    requires Inv(s) && DeliveryInv(s)
    ensures DeliveryInv(Next(s, action))
  {
    NextKeepsSent(s, action);
    match action {
      case Begin(a, entry) =>
        if a !in s.agents {
          BeginIsIdle(s, a, entry);
          IdleKeepsLocatedInv(s, Next(s, action));
          IdleKeepsCancels(s, Next(s, action));
        }
      case Step(a, c) =>
        if a in s.agents {
          StepKeepsLocated(s, a, c);
          StepKeepsCancels(s, a, c);
        }
      case _ =>
        HelperKeepsLocated(s, action);
        HelperKeepsCancels(s, action);
    }
  }

  lemma {:induction false} RunKeepsDelivery(s: State, actions: seq<Action>)
    requires Inv(s) && DeliveryInv(s)
    ensures DeliveryInv(Run(s, actions))
    decreases |actions|
  {
    if actions != [] {
      NextKeepsDelivery(s, actions[0]);
      NextKeepsInv(s, actions[0]);
      RunKeepsDelivery(Next(s, actions[0]), actions[1..]);
    }
  }

  lemma Delivered(actions: seq<Action>)
    ensures Inv(Run(Init(), actions)) && DeliveryInv(Run(Init(), actions))
  {
    InitInv();
    RunKeepsDelivery(Init(), actions);
    RunKeepsInv(Init(), actions);
  }

  /** A caller that waits has sent its request, and it is not lost: its frame is in front of the process it was
      written to, or at work there, or has been answered. While the call is in the table, the answer has still
      to be written, is on the pipe or is in the hands of a reader, unless it could not be decoded. */
  lemma RequestsAreNotLost(actions: seq<Action>, a: Agent)
    requires a in Run(Init(), actions).agents && Run(Init(), actions).agents[a].CallWait?
    ensures var s := Run(Init(), actions);
            var t := s.agents[a].t;
            t.id in s.written && s.written[t.id] < |s.procs|
            && var q := s.procs[s.written[t.id]];
               && (t.id !in s.computed ==>
                    || Images(t.id, t.payload) in q.inbox
                    || (t.id in q.tasks && q.tasks[t.id].payload == t.payload && q.tasks[t.id].answer.None?))
               && (t.id in s.computed && t.id in s.client.pending && t.id !in s.garbled ==>
                    var body := s.computed[t.id].1;
                    || (t.id in q.tasks && q.tasks[t.id].answer == Some(body))
                    || Response(t.id, Computed(body)) in q.outbox
                    || InHand(s, s.written[t.id], Response(t.id, Computed(body))))
  {
    Delivered(actions);
    var s := Run(Init(), actions);
    assert PcOK(s, s.agents[a]);
    assert s.agents[a].t.id in s.written && Located(s, s.agents[a].t.id);
  }

  /** A cancel frame that was written is still to be read, and no request of the call it cancels stands behind
      it; or it has been read, and then the request will not start any more, nor go on without having been
      cancelled. */
  lemma CancelsArrive(actions: seq<Action>, id: Id)
    requires var s := Run(Init(), actions); id in s.written && id in s.uses && s.uses[id].ForCancel?
    ensures var s := Run(Init(), actions);
            var target := s.uses[id].target;
            s.written[id] < |s.procs|
            && var q := s.procs[s.written[id]];
               || (exists i :: 0 <= i < |q.inbox| && Bars(q.inbox, i, id, target))
               || ((forall r | r in q.inbox && r.Images? :: r.id != target)
                   && (target in q.tasks ==> q.tasks[target].cancelled || q.tasks[target].answer.Some?))
  {
    Delivered(actions);
    var s := Run(Init(), actions);
    assert CancelOK(s, id, s.uses[id].target);
  }

  /** A response in a reader's hands whose call is in the table reaches the caller: the reader takes the channel
      and sends, the caller receives. */
  lemma AnswersAreDelivered(actions: seq<Action>, b: Agent, a: Agent, p: Pid, r: Response, c: Choice, c': Choice)
    requires var s := Run(Init(), actions);
             && b in s.agents && s.agents[b] == Lookup(p, r)
             && a in s.agents && s.agents[a].CallWait? && s.agents[a].t.id == r.id && r.id in s.client.pending
    requires !c'.expire
    ensures var s := Run(Init(), actions);
            var s' := Next(Next(Next(s, Step(b, c)), Step(b, c)), Step(a, c'));
            a in s'.agents && s'.agents[a] == CallDone(s.agents[a].t, Got(Reply(r)))
  {
    ReachedInv(actions);
    var s := Run(Init(), actions);
    var t := s.agents[a].t;
    assert PcOK(s, s.agents[a]) && LocalOK(s, s.agents[a]);
    assert Owned(s, r.id, s.client.pending[r.id]) && Unsent(s, s.client.pending[r.id]);
    ReaderDelivers(s, b, p, r, c);
    CallerReceives(Next(Next(s, Step(b, c)), Step(b, c)), a, t, c', r);
  }

  lemma ReaderDelivers(s: State, b: Agent, p: Pid, r: Response, c: Choice)
    requires b in s.agents && s.agents[b] == Lookup(p, r) && r.id in s.client.pending
    requires Unsent(s, s.client.pending[r.id])
    ensures var s', ch := Next(Next(s, Step(b, c)), Step(b, c)), s.client.pending[r.id];
            s'.chans == s.chans[ch := Channel([Reply(r)], 0)] && s'.agents == s.agents[b := Reading(p)]
  {
    var ch := s.client.pending[r.id];
    var s1 := Next(s, Step(b, c));
    assert s1 == Goto(s.(client := Forgotten(s.client, r.id)), b, Deliver(p, r, ch));
    assert Next(s1, Step(b, c)) == DeliverStep(s1, b, p, r, ch);
    assert [] + [Reply(r)] == [Reply(r)];
    assert s.agents[b := Deliver(p, r, ch)][b := Reading(p)] == s.agents[b := Reading(p)];
  }

  lemma CallerReceives(s: State, a: Agent, t: Ticket, c: Choice, r: Response)
    requires a in s.agents && s.agents[a] == CallWait(t) && !c.expire
    requires t.ch < |s.chans| && s.chans[t.ch] == Channel([Reply(r)], 0)
    ensures var s' := Next(s, Step(a, c)); a in s'.agents && s'.agents[a] == CallDone(t, Got(Reply(r)))
  {
    assert Next(s, Step(a, c)) == ReceiveStep(s, a, t);
  }

  // ---------- giving up ----------

  /** Positions behind the removal from the table. */
  predicate HasForgotten(pc: Pc) { Cancelling(pc) || (pc.CallDone? && pc.result.TimedOut?) }

  ghost predicate ForgottenInv(s: State) {
    forall a | a in s.agents && HasForgotten(s.agents[a]) :: s.agents[a].t.id !in s.client.pending
  }

  lemma BoldPending(s: State, a: Agent, c: Choice)
    requires a in s.agents && !s.agents[a].CallRegister? && !MakesModestSteps(s.agents[a], c)
    ensures forall id | id in AgentStep(s, a, s.agents[a], c).client.pending :: id in s.client.pending
  {
    var pc := s.agents[a];
    if TakingDown(pc) { assert AgentStep(s, a, pc, c) == TakeDownStep(s, a, pc); }
    else if pc.CallStart? { assert AgentStep(s, a, pc, c) == StartStep(s, a, pc.payload, c); }
  }

  /** Only a call that registers enters the table. */
  lemma OnlyRegisteringEnters(s: State, a: Agent, c: Choice, id: Id)
    requires a in s.agents && id in AgentStep(s, a, s.agents[a], c).client.pending && id !in s.client.pending
    ensures s.agents[a].CallRegister? && s.agents[a].t.id == id
  {
    var pc := s.agents[a];
    if pc.CallRegister? { assert AgentStep(s, a, pc, c) == RegisterStep(s, a, pc.t); }
    else if MakesModestSteps(pc, c) { ModestSteps(s, a, c); }
    else { BoldPending(s, a, c); }
  }

  lemma OwnStepForgets(s: State, a: Agent, c: Choice)
    requires PcsOK(s) && CallersInv(s) && ForgottenInv(s) && a in s.agents && !s.agents[a].CallStart?
    ensures var s' := AgentStep(s, a, s.agents[a], c);
            a in s'.agents && (HasForgotten(s'.agents[a]) ==> s'.agents[a].t.id !in s'.client.pending)
  {
    var pc := s.agents[a];
    var s' := AgentStep(s, a, pc, c);
    assert PcOK(s, pc);
    StepHasSent(s, a, c);
    if pc.CallForget? { assert s' == ForgetStep(s, a, pc.t); }
    else { ForgettingComesFirst(s, a, c); }
    if a in s'.agents && HasForgotten(s'.agents[a]) && s'.agents[a].t.id in s'.client.pending {
      if !pc.CallForget? { OnlyRegisteringEnters(s, a, c, s'.agents[a].t.id); }
    }
  }

  lemma ForgettingComesFirst(s: State, a: Agent, c: Choice)
    requires a in s.agents && !s.agents[a].CallStart? && !s.agents[a].CallForget?
    requires a in AgentStep(s, a, s.agents[a], c).agents
    ensures var s' := AgentStep(s, a, s.agents[a], c);
            HasForgotten(s'.agents[a]) ==> HasForgotten(s.agents[a]) && s'.agents[a].t == s.agents[a].t
  {
    var pc := s.agents[a];
    if TakingDown(pc) { TakeDownHasNotSent(s, a, pc); }
    else if Broadcasting(pc) { BroadcastHasNotSent(s, a, pc, c.pick); }
    else if pc.Reading? || pc.Lookup? || pc.Deliver? { ReadersHaveNotSent(s, a, c); }
    else if Cancelling(pc) { CancellerForgetsFirst(s, a, c); }
    else if pc.CallWait? || pc.CallWrite? { WaiterForgetsFirst(s, a, c); }
    else { CallerForgetsFirst(s, a, c); }
  }

  /** The caller's step goes behind the removal only from there. */
  predicate ForgetsNothingNew(pc: Pc, s': State, a: Agent) {
    a in s'.agents && HasForgotten(s'.agents[a]) ==> HasForgotten(pc) && s'.agents[a].t == pc.t
  }

  lemma CancellerForgetsFirst(s: State, a: Agent, c: Choice)
    requires a in s.agents && Cancelling(s.agents[a])
    ensures ForgetsNothingNew(s.agents[a], AgentStep(s, a, s.agents[a], c), a)
  {
  }

  lemma WaiterForgetsFirst(s: State, a: Agent, c: Choice)
    requires a in s.agents && (s.agents[a].CallWait? || s.agents[a].CallWrite?)
    ensures ForgetsNothingNew(s.agents[a], AgentStep(s, a, s.agents[a], c), a)
  {
  }

  lemma CallerForgetsFirst(s: State, a: Agent, c: Choice)
    requires a in s.agents && !TakingDown(s.agents[a]) && !Broadcasting(s.agents[a]) && !Cancelling(s.agents[a])
    requires var pc := s.agents[a];
      && !pc.CallStart? && !pc.CallForget? && !pc.CallWait? && !pc.CallWrite?
      && !pc.Reading? && !pc.Lookup? && !pc.Deliver?
    ensures ForgetsNothingNew(s.agents[a], AgentStep(s, a, s.agents[a], c), a)
  {
  }

  lemma StepKeepsForgotten(s: State, a: Agent, c: Choice, b: Agent)
    requires Inv(s) && ForgottenInv(s) && a in s.agents && b in Next(s, Step(a, c)).agents
    requires HasForgotten(Next(s, Step(a, c)).agents[b])
    ensures Next(s, Step(a, c)).agents[b].t.id !in Next(s, Step(a, c)).client.pending
  {
    var s' := Next(s, Step(a, c));
    if b !in s.agents {
      NewcomersHaveNotSent(s, Step(a, c), b);
    } else if b == a {
      if s.agents[a].CallStart? { StartHasNotSent(s, a, s.agents[a].payload, c); } else { OwnStepForgets(s, a, c); }
    } else {
      OthersKeepAgent(s, b, Step(a, c));
      if s'.agents[b].t.id in s'.client.pending { OnlyRegisteringEnters(s, a, c, s'.agents[b].t.id); }
    }
  }

  lemma HelperKeepsClient(s: State, action: Action)
    ensures HelperStep(s, action).client == s.client
  {
  }

  lemma NextKeepsForgotten(s: State, action: Action)
    requires Inv(s) && ForgottenInv(s)
    ensures ForgottenInv(Next(s, action))
  {
    match action {
      case Begin(_, _) =>
      case Step(a, c) =>
        if a in s.agents {
          var s' := Next(s, action);
          forall b | b in s'.agents && HasForgotten(s'.agents[b])
            ensures s'.agents[b].t.id !in s'.client.pending
          {
            StepKeepsForgotten(s, a, c, b);
          }
        }
      case _ =>
        HelperKeepsAgents(s, action);
        HelperKeepsClient(s, action);
    }
  }

  lemma {:induction false} RunKeepsForgotten(s: State, actions: seq<Action>)
    requires Inv(s) && ForgottenInv(s)
    ensures ForgottenInv(Run(s, actions))
    decreases |actions|
  {
    if actions != [] {
      NextKeepsForgotten(s, actions[0]);
      NextKeepsInv(s, actions[0]);
      RunKeepsForgotten(Next(s, actions[0]), actions[1..]);
    }
  }

  /** The next n steps of an agent. */
  function Steps(s: State, a: Agent, c: Choice, n: nat): State {
    if n == 0 then s else Next(Steps(s, a, c, n - 1), Step(a, c))
  }

  /** The frame that cancels the call is at the end of what process p has been sent. */
  predicate CancelIsSent(s: State, s': State, p: Pid, id: Id, target: Id) {
    && id !in s.uses && id in s'.written && s'.written[id] == p && p < |s.procs| && p < |s'.procs|
    && s'.procs[p].inbox == s.procs[p].inbox + [CancelFrame(id, target)]
  }

  lemma GivingUpWrites(s: State, a: Agent, c: Choice, p: Pid)
    requires ClientOK(s) && s.client.nextID + 1 !in s.uses
    requires a in s.agents && s.agents[a].CallForget? && s.client.cmd == Some(p) && c.ok
    ensures CancelIsSent(s, Steps(s, a, c, 4), p, s.client.nextID + 1, s.agents[a].t.id)
  {
    ForgetsAndAims(s, a, c, c);
    TwoSteps(s, a, c, 0);
    NumbersAndWrites(Steps(s, a, c, 2), a, s.agents[a].t, p, c, c);
    TwoSteps(s, a, c, 2);
  }

  lemma TwoSteps(s: State, a: Agent, c: Choice, n: nat)
    ensures Steps(s, a, c, n + 2) == Next(Next(Steps(s, a, c, n), Step(a, c)), Step(a, c))
    ensures Steps(s, a, c, 0) == s
  {
    assert Steps(s, a, c, n + 2) == Next(Steps(s, a, c, n + 1), Step(a, c));
  }

  /** A call that gives up writes its cancel frame, under a new id, to the process that is current. */
  lemma GivingUpCancels(actions: seq<Action>, a: Agent, c: Choice, p: Pid)
    requires var s := Run(Init(), actions);
             a in s.agents && s.agents[a].CallForget? && s.client.cmd == Some(p) && c.ok
    ensures var s := Run(Init(), actions);
            CancelIsSent(s, Steps(s, a, c, 4), p, s.client.nextID + 1, s.agents[a].t.id)
  {
    ReachedInv(actions);
    assert IdsInv(Run(Init(), actions));
    GivingUpWrites(Run(Init(), actions), a, c, p);
  }

  lemma ForgetsAndAims(s: State, a: Agent, c: Choice, c': Choice)
    requires ClientOK(s) && a in s.agents && s.agents[a].CallForget?
    ensures var t, s1 := s.agents[a].t, Next(s, Step(a, c));
            var s2 := Next(s1, Step(a, c'));
            && t.id !in s1.client.pending && t.id !in s2.client.pending && a in s2.agents
            && s2.agents[a] == (if s.client.cmd.None? then CallDone(t, TimedOut)
                                else CallCancelNumber(t, s.client.cmd.value))
            && s2.client.nextID == s.client.nextID && s2.procs == s.procs
  {
    var s1 := Next(s, Step(a, c));
    assert s1 == ForgetStep(s, a, s.agents[a].t);
    assert Next(s1, Step(a, c')) == CancelStep(s1, a, s.agents[a].t);
  }

  lemma NumbersAndWrites(s: State, a: Agent, t: Ticket, p: Pid, c: Choice, c': Choice)
    requires a in s.agents && s.agents[a] == CallCancelNumber(t, p) && p < |s.procs| && c'.ok
    ensures var id, s' := s.client.nextID + 1, Next(Next(s, Step(a, c)), Step(a, c'));
            && a in s'.agents && s'.agents[a] == CallDone(t, TimedOut) && s'.client.pending == s.client.pending
            && id in s'.written && s'.written[id] == p && p < |s'.procs|
            && s'.procs[p].inbox == s.procs[p].inbox + [CancelFrame(id, t.id)]
  {
    var s1 := Next(s, Step(a, c));
    assert s1 == CancelNumberStep(s, a, t, p);
    assert Next(s1, Step(a, c')) == CancelSentStep(s1, a, t, s.client.nextID + 1, p);
  }

  /** A call that has given up and been removed stays out of the table, so that a late response is dropped. */
  lemma GivenUpCallsAreForgotten(actions: seq<Action>, a: Agent)
    requires a in Run(Init(), actions).agents && HasForgotten(Run(Init(), actions).agents[a])
    ensures Run(Init(), actions).agents[a].t.id !in Run(Init(), actions).client.pending
  {
    InitInv();
    RunKeepsForgotten(Init(), actions);
  }

  // ---------- a run that answers a call ----------

  /** Caller 0 waits, reader 10 is at the position given, and process 0 is as given. */
  predicate OneCall(s: State, reader: Pc, q: Process) {
    && 0 in s.agents && s.agents[0] == CallWait(Ticket(1, 0, "a")) && 10 in s.agents && s.agents[10] == reader
    && s.client == Client(Some(0), Some(0), map[1 := 0], 1) && s.chans == [Channel([], 0)] && s.procs == [q]
  }

  lemma CallIsSent() returns (s: State)
    ensures Reachable(s) && OneCall(s, Reading(0), Process(true, [Images(1, "a")], map[], []))
  {
    var s1 := FirstCallRegistered();
    s := Next(s1, Step(0, GO));
    ReachableNext(s1, Step(0, GO));
    assert s == WrittenStep(s1, 0, Ticket(1, 0, "a"), 0);
    assert s.procs[0].inbox == [Images(1, "a")];
  }

  lemma CallIsRead() returns (s: State)
    ensures Reachable(s) && OneCall(s, Reading(0), Process(true, [], map[1 := Task("a", false, None)], []))
  {
    var s1 := CallIsSent();
    s := Next(s1, HelperRead(0));
    ReachableNext(s1, HelperRead(0));
    assert s == ReadRequest(s1, 0);
    assert s.procs[0].inbox == [] && s.procs[0].tasks == map[1 := Task("a", false, None)];
  }

  lemma CallIsComputed() returns (s: State)
    ensures Reachable(s) && OneCall(s, Reading(0), Process(true, [], map[1 := Task("a", false, Some("b"))], []))
    ensures 1 in s.computed && s.computed[1] == ("a", "b")
  {
    var s1 := CallIsRead();
    s := Next(s1, HelperFinish(0, 1, "b"));
    ReachableNext(s1, HelperFinish(0, 1, "b"));
    assert s.procs[0].tasks == map[1 := Task("a", false, Some("b"))];
  }

  lemma CallIsAnswered() returns (s: State)
    ensures Reachable(s) && OneCall(s, Reading(0), Process(true, [], map[], [Response(1, Computed("b"))]))
    ensures 1 in s.computed && s.computed[1] == ("a", "b")
  {
    var s1 := CallIsComputed();
    s := Next(s1, HelperWrite(0, 1));
    ReachableNext(s1, HelperWrite(0, 1));
    assert s.procs[0].tasks == map[] && s.procs[0].outbox == [Response(1, Computed("b"))];
  }

  lemma AnswerIsRead() returns (s: State)
    ensures Reachable(s) && OneCall(s, Lookup(0, Response(1, Computed("b"))), Process(true, [], map[], []))
    ensures 1 in s.computed && s.computed[1] == ("a", "b")
  {
    var s1 := CallIsAnswered();
    s := Next(s1, Step(10, GO));
    ReachableNext(s1, Step(10, GO));
    assert s == ReadStep(s1, 10, 0, GO);
    assert s.procs[0].outbox == [];
  }

  lemma AnswerIsDelivered() returns (s: State)
    ensures Reachable(s) && 1 in s.computed && s.computed[1] == ("a", "b")
    ensures 0 in s.agents && s.agents[0] == CallWait(Ticket(1, 0, "a"))
    ensures s.chans == [Channel([Reply(Response(1, Computed("b")))], 0)]
  {
    var s1 := AnswerIsRead();
    var r := Response(1, Computed("b"));
    var s2 := Next(s1, Step(10, GO));
    ReachableNext(s1, Step(10, GO));
    assert s2 == LookupStep(s1, 10, 0, r);
    s := Next(s2, Step(10, GO));
    ReachableNext(s2, Step(10, GO));
    assert s == DeliverStep(s2, 10, 0, r, 0);
    assert [] + [Reply(r)] == [Reply(r)];
  }

  /** A run in which a call gets the answer computed from its payload. */
  lemma AnswersAreReachable() returns (s: State)
    ensures Reachable(s) && 1 in s.computed && s.computed[1] == ("a", "b")
    ensures 0 in s.agents && s.agents[0] == CallDone(Ticket(1, 0, "a"), Got(Reply(Response(1, Computed("b")))))
  {
    var s1 := AnswerIsDelivered();
    s := Next(s1, Step(0, GO));
    ReachableNext(s1, Step(0, GO));
    assert s == ReceiveStep(s1, 0, Ticket(1, 0, "a"));
  }
}
