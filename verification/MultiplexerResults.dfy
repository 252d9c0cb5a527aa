/** What callers and operators can rely on, in every run of the protocol (helper_client.go, helper/main.py). */
module MultiplexerResults {
  import opened HelperClient
  import opened Multiplexer
  import opened MultiplexerSafety
  import opened Wrappers

  lemma ReachedInv(actions: seq<Action>)
    ensures Inv(Run(Init(), actions))
  {
    InitInv();
    RunKeepsInv(Init(), actions);
  }

  // ---------- channels ----------

  /** Whoever is about to send finds the slot of the channel free. */
  lemma SendsNeverBlock(actions: seq<Action>, a: Agent, ch: Chan)
    requires HeldBy(Run(Init(), actions), a, ch)
    ensures Ready(Run(Init(), actions), ch)
  {
    ReachedInv(actions);
  }

  /** The channel of a call is in at most one of three places: registered, with a single sender, or filled
      with its only message. If it is in none, its caller has given up, which it may do at any time. */
  lemma FourPlaces(actions: seq<Action>, id: Id, ch: Chan)
    requires Owned(Run(Init(), actions), id, ch)
    ensures var s := Run(Init(), actions);
            && ch < |s.chans|
            && |s.chans[ch].sent| <= 1
            && !(Pending(s, ch) && Held(s, ch))
            && !(Pending(s, ch) && |s.chans[ch].sent| == 1)
            && !(Held(s, ch) && |s.chans[ch].sent| == 1)
            && (forall a, b :: HeldBy(s, a, ch) && HeldBy(s, b, ch) ==> a == b)
            && (!Pending(s, ch) && !Held(s, ch) && |s.chans[ch].sent| == 0 ==> id in s.abandoned)
  {
    ReachedInv(actions);
    var s := Run(Init(), actions);
    assert AccountedFor(s, id, ch);
    if Pending(s, ch) {
      var i :| i in s.client.pending && s.client.pending[i] == ch;
      assert Unsent(s, s.client.pending[i]);
    }
  }

  /** A waiting caller is never forgotten. */
  lemma WaitersAreNotForgotten(actions: seq<Action>, a: Agent)
    requires a in Run(Init(), actions).agents && Run(Init(), actions).agents[a].CallWait?
    ensures var s := Run(Init(), actions);
            var ch := s.agents[a].t.ch;
            Pending(s, ch) || Held(s, ch) || (ch < |s.chans| && |s.chans[ch].sent| == 1 && s.chans[ch].taken == 0)
  {
    ReachedInv(actions);
    var s := Run(Init(), actions);
    TicketsAreUsed(s, a);
    assert LocalOK(s, s.agents[a]);
    FourPlaces(actions, s.agents[a].t.id, s.agents[a].t.ch);
  }

  // ---------- end to end ----------

  /** A call that gets a response gets what process_request computed for its id from its own payload,
      never an acknowledgement of a cancel frame nor another call's result. */
  lemma EndToEnd(actions: seq<Action>, a: Agent)
    requires a in Run(Init(), actions).agents
    requires var pc := Run(Init(), actions).agents[a]; pc.CallDone? && pc.result.Got? && pc.result.message.Reply?
    ensures var s := Run(Init(), actions);
            var t, r := s.agents[a].t, s.agents[a].result.message.response;
            r.id == t.id && r.answer.Computed? && t.id in s.computed && s.computed[t.id] == (t.payload, r.answer.body)
  {
    ReachedInv(actions);
    var s := Run(Init(), actions);
    assert PcOK(s, s.agents[a]);
  }

  /** process_request starts at most once for an id: when its frame is read, it is neither running
      anywhere nor has it ever finished. */
  lemma StartsAtMostOnce(actions: seq<Action>, p: Pid, p': Pid)
    requires var s := Run(Init(), actions); CanRead(s, p) && s.procs[p].inbox[0].Images? && p' < |s.procs|
    ensures var s := Run(Init(), actions);
            var id := s.procs[p].inbox[0].id;
            id !in s.computed && id !in s.procs[p'].tasks
  {
    ReachedInv(actions);
    var s := Run(Init(), actions);
    assert OnceIn(s, s.procs[p]);
    assert ProcessOK(s, p, s.procs[p]) && ProcessOK(s, p', s.procs[p']);
    assert RequestOK(s, p, s.procs[p].inbox[0]);
    var id := s.procs[p].inbox[0].id;
    assert id in s.procs[p'].tasks ==> TaskOK(s, p', id, s.procs[p'].tasks[id]);
  }

  /** A cancel frame stops only work whose caller has already given up. */
  lemma OnlyUnwantedWorkIsCancelled(actions: seq<Action>, p: Pid, id: Id, a: Agent)
    requires var s := Run(Init(), actions);
             p < |s.procs| && id in s.procs[p].tasks && s.procs[p].tasks[id].cancelled
             && a in s.agents && HasTicket(s.agents[a]) && s.agents[a].t.id == id
    ensures GaveUp(Run(Init(), actions).agents[a])
  {
    ReachedInv(actions);
    var s := Run(Init(), actions);
    assert ProcessOK(s, p, s.procs[p]) && TaskOK(s, p, id, s.procs[p].tasks[id]);
    assert LocalOK(s, s.agents[a]);
  }

  // ---------- what is never taken back ----------

  lemma SpawnGrows(s: State)
    ensures Grows(s, Spawn(s))
  {
  }

  lemma StartGrows(s: State, a: Agent, payload: Payload, c: Choice)
    ensures Grows(s, StartStep(s, a, payload, c))
  {
    SpawnGrows(s);
  }

  lemma BroadcastGrows(s: State, a: Agent, pc: Pc, pick: Chan)
    requires Broadcasting(pc) && (pick in pc.todo ==> Unsent(s, pick))
    ensures Grows(s, BroadcastStep(s, a, pc, pick))
  {
    if pick in pc.todo { SendGrows(s, a, pick, Gone, pc.(todo := pc.todo - {pick})); }
  }

  lemma DeliverGrows(s: State, a: Agent, p: Pid, r: Response, ch: Chan)
    requires Unsent(s, ch)
    ensures Grows(s, DeliverStep(s, a, p, r, ch))
  {
    SendGrows(s, a, ch, Reply(r), Reading(p));
  }

  lemma TakeDownGrows(s: State, a: Agent, pc: Pc)
    requires TakingDown(pc)
    ensures Grows(s, TakeDownStep(s, a, pc))
  {
    KillGrows(s.(client := Emptied(s.client)), s.client.cmd);
  }

  lemma ReadGrows(s: State, a: Agent, p: Pid, c: Choice)
    ensures Grows(s, ReadStep(s, a, p, c))
  {
  }

  lemma SendStepGrows(s: State, a: Agent, c: Choice)
    requires OwnersInv(s) && a in s.agents && (Broadcasting(s.agents[a]) || s.agents[a].Deliver?)
    ensures Grows(s, AgentStep(s, a, s.agents[a], c))
  {
    var pc := s.agents[a];
    if pc.Deliver? {
      assert HeldBy(s, a, pc.ch);
      DeliverGrows(s, a, pc.p, pc.r, pc.ch);
    } else {
      assert c.pick in pc.todo ==> HeldBy(s, a, c.pick);
      BroadcastGrows(s, a, pc, c.pick);
    }
  }

  lemma WritingGrows(s: State, a: Agent, c: Choice)
    requires CallersInv(s) && a in s.agents
    requires (s.agents[a].CallWrite? && s.agents[a].pipe.Some? && c.ok) || s.agents[a].CallCancelWrite?
    ensures Grows(s, AgentStep(s, a, s.agents[a], c))
  {
    var pc := s.agents[a];
    assert LocalOK(s, pc);
    if pc.CallCancelWrite? { WriteGrows(s, pc.target, CancelFrame(pc.id, pc.t.id)); }
    else { WriteGrows(s, pc.pipe.value, Images(pc.t.id, pc.t.payload)); }
  }

  lemma NumberingGrows(s: State, a: Agent, c: Choice)
    requires Inv(s) && a in s.agents && (s.agents[a].CallNumber? || s.agents[a].CallCancelNumber?)
    ensures Grows(s, AgentStep(s, a, s.agents[a], c))
  {
    var pc := s.agents[a];
    if pc.CallNumber? { NumberGrows(s, a, pc.payload); } else { CancelNumberGrows(s, pc.t.id); }
  }

  lemma AgentGrows(s: State, a: Agent, c: Choice)
    requires Inv(s) && a in s.agents
    ensures Grows(s, AgentStep(s, a, s.agents[a], c))
  {
    var pc := s.agents[a];
    if TakingDown(pc) { TakeDownGrows(s, a, pc); }
    else if Broadcasting(pc) || pc.Deliver? { SendStepGrows(s, a, c); }
    else if pc.CallStart? { StartGrows(s, a, pc.payload, c); }
    else if pc.CallNumber? || pc.CallCancelNumber? { NumberingGrows(s, a, c); }
    else if OnlyMoves(pc, c) { MoveGrows(s, a, c); }
    else if pc.CallWrite? || pc.CallCancelWrite? { WritingGrows(s, a, c); }
    else if pc.CallWait? { ReceiveGrows(s, a, pc.t); }
    else if pc.Reading? { ReadGrows(s, a, pc.p, c); }
    else { QuietStepGrows(s, a, c); }
  }

  predicate OnlyMoves(pc: Pc, c: Choice) {
    pc.CallRegister? || (pc.CallWrite? && !(pc.pipe.Some? && c.ok)) || (pc.CallWait? && c.expire) || pc.CallForget?
  }

  lemma MoveGrows(s: State, a: Agent, c: Choice)
    requires a in s.agents && OnlyMoves(s.agents[a], c)
    ensures Grows(s, AgentStep(s, a, s.agents[a], c))
  {
  }

  lemma QuietStepGrows(s: State, a: Agent, c: Choice)
    requires a in s.agents
    requires var pc := s.agents[a];
             pc.CallCancel? || pc.Lookup? || pc.CallDone? || pc.CallNotStarted? || pc.CallPanicked?
             || pc.ReaderDone? || pc.CloseDone?
    ensures Grows(s, AgentStep(s, a, s.agents[a], c))
  {
  }

  lemma HelperReadGrows(s: State, p: Pid)
    requires CanRead(s, p)
    ensures Grows(s, ReadRequest(s, p))
  {
  }

  lemma HelperGrows(s: State, action: Action)
    requires OnceInv(s)
    ensures Grows(s, HelperStep(s, action))
  {
    match action {
      case HelperRead(p) => if CanRead(s, p) { HelperReadGrows(s, p); }
      case HelperFinish(p, id, body) => if CanFinish(s, p, id) { FinishGrows(s, p, id, body); }
      case HelperExit(p) => KillGrows(s, Some(p));
      case _ =>
    }
  }

  lemma NextGrows(s: State, action: Action)
    requires Inv(s)
    ensures Grows(s, Next(s, action))
  {
    match action {
      case Begin(_, _) =>
      case Step(a, c) => if a in s.agents { AgentGrows(s, a, c); }
      case _ => HelperGrows(s, action);
    }
  }

  /** A message once sent, an answer once computed and the process a frame was written to stay as they are. */
  lemma {:induction false} RunGrows(s: State, actions: seq<Action>)
    requires Inv(s)
    ensures Grows(s, Run(s, actions))
    decreases |actions|
  {
    if actions != [] {
      NextGrows(s, actions[0]);
      NextKeepsInv(s, actions[0]);
      RunGrows(Next(s, actions[0]), actions[1..]);
      GrowsTrans(s, Next(s, actions[0]), Run(s, actions));
    }
  }

  lemma GrowsTrans(s: State, s1: State, s2: State)
    requires Grows(s, s1) && Grows(s1, s2)
    ensures Grows(s, s2)
  {
  }

  // ---------- failProcess and Close ----------

  /** The 502 is in the channel, or a is still going to put it there. */
  predicate Told(s: State, a: Agent, ch: Chan) {
    IsSent(s, ch, Gone) || (a in s.agents && Broadcasting(s.agents[a]) && ch in s.agents[a].todo)
  }

  /** About to write a request to a process, or just failed to. */
  predicate OnPipe(pc: Pc) { (pc.CallWrite? && pc.pipe.Some?) || pc.CallFail? }

  function PipeOf(pc: Pc): Pid
    requires OnPipe(pc)
  {
    if pc.CallFail? then pc.p else pc.pipe.value
  }

  /** The request and its process are those of the earlier position. */
  predicate SameAim(pc: Pc, pc': Pc) {
    OnPipe(pc') ==> OnPipe(pc) && pc'.t == pc.t && PipeOf(pc') == PipeOf(pc)
  }

  /** The step moves a only, starts and takes down no process, and neither registers nor writes a call. */
  ghost predicate Modest(s: State, s': State, a: Agent) {
    && (forall b | b in s.agents && b != a :: b in s'.agents && s'.agents[b] == s.agents[b])
    && (forall b | b in s'.agents && b != a :: b in s.agents)
    && (a in s'.agents && OnPipe(s'.agents[a]) ==> a in s.agents && SameAim(s.agents[a], s'.agents[a]))
    && s'.client.cmd == s.client.cmd && s'.written == s.written && |s'.procs| == |s.procs|
    && (forall id | id in s'.client.pending :: id in s.client.pending)
  }

  lemma NumberIsModest(s: State, a: Agent, payload: Payload)
    requires a in s.agents
    ensures Modest(s, NumberStep(s, a, payload), a)
  {
  }

  lemma ReceiveIsModest(s: State, a: Agent, t: Ticket)
    requires a in s.agents
    ensures Modest(s, ReceiveStep(s, a, t), a)
  {
  }

  lemma ExpireIsModest(s: State, a: Agent, t: Ticket)
    requires a in s.agents
    ensures Modest(s, ExpireStep(s, a, t), a)
  {
  }

  lemma ForgetIsModest(s: State, a: Agent, t: Ticket)
    requires a in s.agents
    ensures Modest(s, ForgetStep(s, a, t), a)
  {
  }

  lemma CancelIsModest(s: State, a: Agent, t: Ticket)
    requires a in s.agents
    ensures Modest(s, CancelStep(s, a, t), a)
  {
  }

  lemma BroadcastIsModest(s: State, a: Agent, pc: Pc, pick: Chan)
    requires a in s.agents && Broadcasting(pc)
    ensures Modest(s, BroadcastStep(s, a, pc, pick), a)
  {
  }

  lemma ReadIsModest(s: State, a: Agent, p: Pid, c: Choice)
    requires a in s.agents
    ensures Modest(s, ReadStep(s, a, p, c), a)
  {
  }

  lemma LookupIsModest(s: State, a: Agent, p: Pid, r: Response)
    requires a in s.agents
    ensures Modest(s, LookupStep(s, a, p, r), a)
  {
  }

  lemma DeliverIsModest(s: State, a: Agent, p: Pid, r: Response, ch: Chan)
    requires a in s.agents
    ensures Modest(s, DeliverStep(s, a, p, r, ch), a)
  {
  }

  lemma MoveIsModest(s: State, a: Agent, pc': Pc)
    requires a in s.agents && SameAim(s.agents[a], pc')
    ensures Modest(s, Goto(s, a, pc'), a)
  {
  }

  lemma CancelNumberIsModest(s: State, a: Agent, t: Ticket, p: Pid)
    requires a in s.agents
    ensures Modest(s, CancelNumberStep(s, a, t, p), a)
  {
  }

  predicate MakesModestSteps(pc: Pc, c: Choice) {
    && !TakingDown(pc) && !pc.CallStart? && !pc.CallRegister? && !(pc.CallCancelWrite? && c.ok)
    && !(pc.CallWrite? && pc.pipe.Some? && c.ok)
  }

  lemma ModestSteps(s: State, a: Agent, c: Choice)
    requires a in s.agents && MakesModestSteps(s.agents[a], c)
    ensures Modest(s, AgentStep(s, a, s.agents[a], c), a)
  {
    var pc := s.agents[a];
    if Broadcasting(pc) { BroadcastIsModest(s, a, pc, c.pick); }
    else if pc.CallNumber? { NumberIsModest(s, a, pc.payload); }
    else if pc.CallWrite? {
      MoveIsModest(s, a, if pc.pipe.None? then CallPanicked(pc.t) else CallFail(pc.t, pc.pipe.value));
    }
    else if pc.CallWait? { if c.expire { ExpireIsModest(s, a, pc.t); } else { ReceiveIsModest(s, a, pc.t); } }
    else if pc.CallForget? { ForgetIsModest(s, a, pc.t); }
    else if pc.CallCancel? { CancelIsModest(s, a, pc.t); }
    else if pc.CallCancelNumber? { CancelNumberIsModest(s, a, pc.t, pc.target); }
    else if pc.CallCancelWrite? { MoveIsModest(s, a, CallDone(pc.t, TimedOut)); }
    else if pc.Reading? { ReadIsModest(s, a, pc.p, c); }
    else if pc.Lookup? { LookupIsModest(s, a, pc.p, pc.r); }
    else if pc.Deliver? { DeliverIsModest(s, a, pc.p, pc.r, pc.ch); }
  }

  lemma BoldMovesOne(s: State, b: Agent, c: Choice)
    requires b in s.agents && !s.agents[b].CallStart? && !MakesModestSteps(s.agents[b], c)
    ensures forall a | a in s.agents && a != b ::
      a in AgentStep(s, b, s.agents[b], c).agents && AgentStep(s, b, s.agents[b], c).agents[a] == s.agents[a]
  {
  }

  /** A step moves nobody but the agent itself and the reader it may start. */
  lemma StepMovesOne(s: State, b: Agent, c: Choice)
    requires b in s.agents && !s.agents[b].CallStart?
    ensures forall a | a in s.agents && a != b ::
      a in AgentStep(s, b, s.agents[b], c).agents && AgentStep(s, b, s.agents[b], c).agents[a] == s.agents[a]
  {
    if MakesModestSteps(s.agents[b], c) { ModestSteps(s, b, c); } else { BoldMovesOne(s, b, c); }
  }

  lemma StartMovesOne(s: State, b: Agent, payload: Payload, c: Choice)
    requires b in s.agents
    ensures forall a | a in s.agents && a != b ::
      a in StartStep(s, b, payload, c).agents && StartStep(s, b, payload, c).agents[a] == s.agents[a]
  {
  }

  lemma HelperKeepsAgents(s: State, action: Action)
    ensures HelperStep(s, action).agents == s.agents
  {
  }

  lemma OthersKeepAgent(s: State, a: Agent, action: Action)
    requires a in s.agents && (action.Step? ==> action.a != a)
    ensures a in Next(s, action).agents && Next(s, action).agents[a] == s.agents[a]
  {
    match action {
      case Begin(_, _) =>
      case Step(b, c) =>
        if b in s.agents {
          if s.agents[b].CallStart? { StartMovesOne(s, b, s.agents[b].payload, c); } else { StepMovesOne(s, b, c); }
        }
      case _ => HelperKeepsAgents(s, action);
    }
  }

  lemma OwnStepKeepsTold(s: State, a: Agent, c: Choice, ch: Chan)
    requires a in s.agents && Broadcasting(s.agents[a]) && ch in s.agents[a].todo && Unsent(s, ch)
    ensures Told(Next(s, Step(a, c)), a, ch)
  {
  }

  lemma NextKeepsTold(s: State, a: Agent, action: Action, ch: Chan)
    requires Inv(s) && Told(s, a, ch)
    ensures Told(Next(s, action), a, ch)
  {
    if IsSent(s, ch, Gone) {
      NextGrows(s, action);
    } else if action.Step? && action.a == a {
      assert HeldBy(s, a, ch);
      OwnStepKeepsTold(s, a, action.c, ch);
    } else {
      OthersKeepAgent(s, a, action);
    }
  }

  lemma {:induction false} RunKeepsTold(s: State, a: Agent, actions: seq<Action>, ch: Chan)
    requires Inv(s) && Told(s, a, ch)
    ensures Told(Run(s, actions), a, ch)
    decreases |actions|
  {
    if actions != [] {
      NextKeepsTold(s, a, actions[0], ch);
      NextKeepsInv(s, actions[0]);
      RunKeepsTold(Next(s, actions[0]), a, actions[1..], ch);
    }
  }

  lemma {:induction false} RunAppend(s: State, first: seq<Action>, second: seq<Action>)
    ensures Run(s, first + second) == Run(Run(s, first), second)
    decreases |first|
  {
    if first == [] {
      assert first + second == second;
    } else {
      assert (first + second)[1..] == first[1..] + second;
      RunAppend(Next(s, first[0]), first[1..], second);
    }
  }

  /** Every call that is registered when a runs failProcess or Close gets the 502 and nothing else,
      whatever happens next: at any later time the 502 is in its channel or a is still on the way
      there, and no caller has taken any other message out of it. */
  lemma TakenDownCallsGet502(actions: seq<Action>, a: Agent, c: Choice, later: seq<Action>, ch: Chan, b: Agent)
    requires var s := Run(Init(), actions); a in s.agents && TakingDown(s.agents[a]) && Pending(s, ch)
    ensures var s' := Run(Init(), actions + [Step(a, c)] + later);
            && Told(s', a, ch)
            && (b in s'.agents && s'.agents[b].CallDone? && s'.agents[b].result.Got? && s'.agents[b].t.ch == ch ==>
                  s'.agents[b].result.message == Gone)
  {
    var s := Run(Init(), actions);
    ReachedInv(actions);
    NextKeepsInv(s, Step(a, c));
    TakeDownTells(s, a, c, ch);
    RunKeepsTold(Next(s, Step(a, c)), a, later, ch);
    RunKeepsInv(Next(s, Step(a, c)), later);
    RunInParts(Init(), actions, Step(a, c), later);
    var s' := Run(Next(s, Step(a, c)), later);
    if b in s'.agents && s'.agents[b].CallDone? && s'.agents[b].result.Got? && s'.agents[b].t.ch == ch {
      ToldMeansGone(s', a, ch, b);
    }
  }

  lemma RunInParts(s: State, first: seq<Action>, action: Action, later: seq<Action>)
    ensures Run(s, first + [action] + later) == Run(Next(Run(s, first), action), later)
  {
    RunAppend(s, first, [action]);
    RunAppend(s, first + [action], later);
    assert Run(Run(s, first), [action]) == Run(Next(Run(s, first), action), []);
  }

  lemma TakeDownTells(s: State, a: Agent, c: Choice, ch: Chan)
    requires a in s.agents && TakingDown(s.agents[a]) && Pending(s, ch)
    ensures Told(Next(s, Step(a, c)), a, ch)
  {
  }

  lemma ToldMeansGone(s: State, a: Agent, ch: Chan, b: Agent)
    requires Inv(s) && Told(s, a, ch) && b in s.agents
    requires s.agents[b].CallDone? && s.agents[b].result.Got? && s.agents[b].t.ch == ch
    ensures s.agents[b].result.message == Gone
  {
    assert PcOK(s, s.agents[b]);
    assert HeldBy(s, a, ch) ==> Unsent(s, ch);
  }

  // ---------- the nil pipe ----------

  lemma {:induction false} OthersRunKeepsAgent(s: State, a: Agent, actions: seq<Action>)
    requires a in s.agents && forall i | 0 <= i < |actions| :: actions[i].Step? ==> actions[i].a != a
    ensures a in Run(s, actions).agents && Run(s, actions).agents[a] == s.agents[a]
    decreases |actions|
  {
    if actions != [] {
      OthersKeepAgent(s, a, actions[0]);
      assert forall i | 0 <= i < |actions[1..]| :: actions[1..][i] == actions[i + 1];
      OthersRunKeepsAgent(Next(s, actions[0]), a, actions[1..]);
    }
  }

  lemma RegistersCurrentPipe(s: State, a: Agent, c: Choice)
    requires ClientOK(s) && a in s.agents && s.agents[a].CallRegister?
    ensures var s' := Next(s, Step(a, c));
            a in s'.agents && s'.agents[a] == CallWrite(s.agents[a].t, s.client.cmd)
  {
  }

  lemma PanicsIffNil(s: State, a: Agent, c: Choice)
    requires a in s.agents && s.agents[a].CallWrite?
    ensures var s' := Next(s, Step(a, c));
            a in s'.agents && (s'.agents[a].CallPanicked? <==> s.agents[a].pipe.None?)
  {
  }

  /** A call writes to a nil pipe, and panics, exactly when no process was left at the moment it
      registered, whatever the others do before it writes. */
  lemma PanicsIffProcessGone(actions: seq<Action>, a: Agent, c: Choice, others: seq<Action>, c': Choice)
    requires var s := Run(Init(), actions); a in s.agents && s.agents[a].CallRegister?
    requires forall i | 0 <= i < |others| :: others[i].Step? ==> others[i].a != a
    ensures var s := Run(Init(), actions);
            var s' := Next(Run(Next(s, Step(a, c)), others), Step(a, c'));
            a in s'.agents && (s'.agents[a].CallPanicked? <==> s.client.cmd.None?)
  {
    ReachedInv(actions);
    var s := Run(Init(), actions);
    RegistersCurrentPipe(s, a, c);
    OthersRunKeepsAgent(Next(s, Step(a, c)), a, others);
    PanicsIffNil(Run(Next(s, Step(a, c)), others), a, c');
  }

  const GO := Choice(true, false, false, 10, 0)

  // ---------- a read or a write that fails ----------

  /** Calls that are registered belong to the current process, if they have reached one. */
  ghost predicate CurrentInv(s: State) {
    && (forall a | a in s.agents && OnPipe(s.agents[a]) && s.agents[a].t.id in s.client.pending ::
          s.client.cmd == Some(PipeOf(s.agents[a])))
    && (forall id | id in s.client.pending && id in s.written :: s.client.cmd == Some(s.written[id]))
  }

  lemma CurrentFrame(s: State, s': State)
    requires CurrentInv(s) && s'.client.cmd == s.client.cmd && s'.written == s.written
    requires forall id | id in s'.client.pending :: id in s.client.pending
    requires forall a | a in s'.agents && OnPipe(s'.agents[a]) :: a in s.agents && SameAim(s.agents[a], s'.agents[a])
    ensures CurrentInv(s')
  {
  }

  lemma StartKeepsCurrent(s: State, a: Agent, payload: Payload, c: Choice)
    requires CurrentInv(s) && a in s.agents
    ensures CurrentInv(StartStep(s, a, payload, c))
  {
  }

  lemma RegisterKeepsCurrent(s: State, a: Agent, t: Ticket)
    requires CurrentInv(s) && ClientOK(s) && CallersInv(s) && a in s.agents && s.agents[a] == CallRegister(t)
    ensures CurrentInv(RegisterStep(s, a, t))
  {
    assert LocalOK(s, s.agents[a]);
  }

  lemma WriteKeepsCurrent(s: State, a: Agent, t: Ticket, p: Pid)
    requires CurrentInv(s) && CallersInv(s) && a in s.agents && s.agents[a] == CallWrite(t, Some(p))
    ensures CurrentInv(WrittenStep(s, a, t, p))
  {
  }

  lemma CancelWriteKeepsCurrent(s: State, a: Agent, t: Ticket, id: Id, p: Pid)
    requires CurrentInv(s) && PendingOK(s) && Cancels(s, a, t, id, p)
    ensures CurrentInv(CancelSentStep(s, a, t, id, p))
  {
    assert id in s.client.pending ==> Owned(s, id, s.client.pending[id]);
  }

  lemma TakeDownKeepsCurrent(s: State, a: Agent, pc: Pc)
    requires TakingDown(pc)
    ensures CurrentInv(TakeDownStep(s, a, pc))
  {
  }

  lemma ModestKeepsCurrent(s: State, s': State, a: Agent)
    requires CurrentInv(s) && Modest(s, s', a)
    ensures CurrentInv(s')
  {
    CurrentFrame(s, s');
  }

  lemma HelperKeepsCurrent(s: State, action: Action)
    requires CurrentInv(s)
    ensures CurrentInv(HelperStep(s, action))
  {
    CurrentFrame(s, HelperStep(s, action));
  }

  lemma StepKeepsCurrent(s: State, a: Agent, c: Choice)
    requires Inv(s) && CurrentInv(s) && a in s.agents
    ensures CurrentInv(Next(s, Step(a, c)))
  {
    var pc := s.agents[a];
    if TakingDown(pc) { TakeDownKeepsCurrent(s, a, pc); }
    else if pc.CallStart? { StartKeepsCurrent(s, a, pc.payload, c); }
    else if pc.CallRegister? { RegisterKeepsCurrent(s, a, pc.t); }
    else if pc.CallWrite? && pc.pipe.Some? && c.ok { WriteKeepsCurrent(s, a, pc.t, pc.pipe.value); }
    else if pc.CallCancelWrite? && c.ok {
      CancelIsReady(s, a, pc.t, pc.id, pc.target);
      CancelWriteKeepsCurrent(s, a, pc.t, pc.id, pc.target);
    }
    else {
      ModestSteps(s, a, c);
      ModestKeepsCurrent(s, AgentStep(s, a, pc, c), a);
    }
  }

  lemma NextKeepsCurrent(s: State, action: Action)
    requires Inv(s) && CurrentInv(s)
    ensures CurrentInv(Next(s, action))
  {
    match action {
      case Begin(_, _) => CurrentFrame(s, Next(s, action));
      case Step(a, c) => if a in s.agents { StepKeepsCurrent(s, a, c); }
      case _ => HelperKeepsCurrent(s, action);
    }
  }

  lemma {:induction false} RunKeepsCurrent(s: State, actions: seq<Action>)
    requires Inv(s) && CurrentInv(s)
    ensures CurrentInv(Run(s, actions))
    decreases |actions|
  {
    if actions != [] {
      NextKeepsCurrent(s, actions[0]);
      NextKeepsInv(s, actions[0]);
      RunKeepsCurrent(Next(s, actions[0]), actions[1..]);
    }
  }

  /** A reader or a caller that has just failed to read from, or to write to, process p. */
  predicate Failed(s: State, a: Agent, p: Pid) {
    a in s.agents && (s.agents[a] == ReaderFail(p) || (s.agents[a].CallFail? && s.agents[a].p == p))
  }

  lemma TakeDownKills(s: State, a: Agent, p: Pid, c: Choice, q: Pid)
    requires Failed(s, a, p) && q < |s.procs| && s.procs[q].alive
    ensures var s' := Next(s, Step(a, c));
            q < |s'.procs| && (!s'.procs[q].alive <==> s.client.cmd == Some(q))
  {
  }

  lemma WrittenToCurrent(s: State, q: Pid, id: Id)
    requires CurrentInv(s) && id in s.client.pending && id in s.written
    ensures s.written[id] == q <==> s.client.cmd == Some(q)
  {
  }

  /** What a failing read or write does to a live process q other than its own: it kills it exactly if q
      is current, and a registered call that has been written gets the 502 from it, which happens to the
      calls written to q exactly if q is current. It is harmless to others iff its own process is still
      current or none is. A write that fails does such harm only after its own call was taken out of the
      table. */
  lemma FailureHarmsCurrent(actions: seq<Action>, a: Agent, p: Pid, c: Choice, q: Pid, id: Id)
    requires Failed(Run(Init(), actions), a, p)
    requires var s := Run(Init(), actions); q < |s.procs| && q != p && s.procs[q].alive
    ensures var s, s' := Run(Init(), actions), Next(Run(Init(), actions), Step(a, c));
            && q < |s'.procs| && (!s'.procs[q].alive <==> s.client.cmd == Some(q))
            && (id in s.client.pending && id in s.written ==>
                 Told(s', a, s.client.pending[id]) && (s.written[id] == q <==> s.client.cmd == Some(q)))
            && (!s'.procs[q].alive && s.agents[a].CallFail? ==> s.agents[a].t.id !in s.client.pending)
  {
    ReachedInv(actions);
    InitInv();
    RunKeepsCurrent(Init(), actions);
    var s := Run(Init(), actions);
    TakeDownKills(s, a, p, c, q);
    if id in s.client.pending {
      assert Pending(s, s.client.pending[id]);
      TakeDownTells(s, a, c, s.client.pending[id]);
      if id in s.written { WrittenToCurrent(s, q, id); }
    }
  }

  /** At step i of the run b is about to take down process p, which is current. */
  ghost predicate TakenDownAt(actions: seq<Action>, i: nat, b: Agent, p: Pid) {
    && i < |actions| && actions[i].Step? && actions[i].a == b
    && var s := Run(Init(), actions[..i]);
       b in s.agents && TakingDown(s.agents[b]) && s.client.cmd == Some(p)
  }

  predicate PastTakeDown(pc: Pc) {
    Broadcasting(pc) || pc.CallDone? || pc.ReaderDone? || pc.CloseDone?
  }

  lemma StepKeepsCmd(s: State, a: Agent, c: Choice)
    requires a in s.agents && !s.agents[a].CallStart? && !TakingDown(s.agents[a])
    ensures var s' := AgentStep(s, a, s.agents[a], c);
            s'.client.cmd == s.client.cmd && |s'.procs| == |s.procs|
  {
    if MakesModestSteps(s.agents[a], c) { ModestSteps(s, a, c); }
  }

  lemma StartedIsCurrent(s: State, a: Agent, payload: Payload, c: Choice, p: Pid)
    requires p < |StartStep(s, a, payload, c).procs| && (s.client.cmd == Some(p) || p >= |s.procs|)
    ensures StartStep(s, a, payload, c).client.cmd == Some(p)
  {
  }

  lemma HelperKeepsCmd(s: State, action: Action)
    ensures HelperStep(s, action).client.cmd == s.client.cmd && |HelperStep(s, action).procs| == |s.procs|
  {
  }

  lemma TakeDownKeepsCount(s: State, a: Agent, pc: Pc)
    requires TakingDown(pc)
    ensures |TakeDownStep(s, a, pc).procs| == |s.procs|
  {
  }

  /** A process that is current stays so until somebody takes it down, and is current when it is new. */
  lemma OnlyTakeDownsReplace(s: State, action: Action, p: Pid)
    requires p < |Next(s, action).procs| && Next(s, action).client.cmd != Some(p)
    requires s.client.cmd == Some(p) || p >= |s.procs|
    ensures s.client.cmd == Some(p)
    ensures action.Step? && action.a in s.agents && TakingDown(s.agents[action.a])
  {
    match action {
      case Begin(_, _) =>
      case Step(a, c) =>
        if a in s.agents {
          var pc := s.agents[a];
          if TakingDown(pc) { TakeDownKeepsCount(s, a, pc); }
          else if pc.CallStart? { StartedIsCurrent(s, a, pc.payload, c, p); }
          else { StepKeepsCmd(s, a, c); }
        }
      case _ => HelperKeepsCmd(s, action);
    }
  }

  lemma StepLeavesPast(s: State, a: Agent, c: Choice)
    requires a in s.agents && (TakingDown(s.agents[a]) || PastTakeDown(s.agents[a]))
    ensures a in Next(s, Step(a, c)).agents && PastTakeDown(Next(s, Step(a, c)).agents[a])
  {
  }

  lemma {:induction false} RunLeavesPast(s: State, a: Agent, actions: seq<Action>)
    requires a in s.agents && PastTakeDown(s.agents[a])
    ensures a in Run(s, actions).agents && PastTakeDown(Run(s, actions).agents[a])
    decreases |actions|
  {
    if actions != [] {
      if actions[0].Step? && actions[0].a == a {
        StepLeavesPast(s, a, actions[0].c);
      } else {
        OthersKeepAgent(s, a, actions[0]);
      }
      RunLeavesPast(Next(s, actions[0]), a, actions[1..]);
    }
  }

  /** A process that exists and is not current was taken down by somebody while it was. */
  lemma {:induction false} NotCurrentMeansTakenDown(actions: seq<Action>, p: Pid) returns (i: nat, b: Agent)
    requires var s := Run(Init(), actions); p < |s.procs| && s.client.cmd != Some(p)
    ensures TakenDownAt(actions, i, b, p)
    decreases |actions|
  {
    assert Run(Init(), []) == Init();
    var n := |actions| - 1;
    var s := Run(Init(), actions[..n]);
    assert actions == actions[..n] + [actions[n]] + [];
    RunInParts(Init(), actions[..n], actions[n], []);
    if p < |s.procs| && s.client.cmd != Some(p) {
      i, b := NotCurrentMeansTakenDown(actions[..n], p);
      assert actions[..n][..i] == actions[..i];
    } else {
      OnlyTakeDownsReplace(s, actions[n], p);
      i, b := n, actions[n].a;
    }
  }

  /** A read or a write that fails while another process is current, or none, is late: somebody else has
      taken its own process down before. */
  lemma FailureIsLate(actions: seq<Action>, a: Agent, p: Pid) returns (i: nat, b: Agent)
    requires Failed(Run(Init(), actions), a, p) && Run(Init(), actions).client.cmd != Some(p)
    ensures b != a && TakenDownAt(actions, i, b, p)
  {
    ReachedInv(actions);
    assert PcOK(Run(Init(), actions), Run(Init(), actions).agents[a]);
    i, b := NotCurrentMeansTakenDown(actions, p);
    if b == a {
      StaysPast(actions, i, a, p);
      assert false;
    }
  }

  lemma StaysPast(actions: seq<Action>, i: nat, a: Agent, p: Pid)
    requires TakenDownAt(actions, i, a, p)
    ensures a in Run(Init(), actions).agents && PastTakeDown(Run(Init(), actions).agents[a])
  {
    var s := Run(Init(), actions[..i]);
    StepLeavesPast(s, a, actions[i].c);
    RunLeavesPast(Next(s, actions[i]), a, actions[i + 1..]);
    assert actions == actions[..i] + [actions[i]] + actions[i + 1..];
    RunInParts(Init(), actions[..i], actions[i], actions[i + 1..]);
  }

  ghost predicate Reachable(s: State) {
    exists actions :: s == Run(Init(), actions)
  }

  lemma ReachableNext(s: State, action: Action)
    requires Reachable(s)
    ensures Reachable(Next(s, action))
  {
    var actions :| s == Run(Init(), actions);
    RunInParts(Init(), actions, action, []);
    assert Next(s, action) == Run(Init(), actions + [action] + []);
  }

  lemma FirstCallStarts() returns (s: State)
    ensures Reachable(s) && s.agents == map[0 := CallNumber("a"), 10 := Reading(0)]
    ensures s.client == Client(Some(0), Some(0), map[], 0) && s.chans == [] && s.procs == [Process(true, [], map[], [])]
  {
    assert Init() == Run(Init(), []);
    var s1 := Next(Init(), Begin(0, CallStart("a")));
    ReachableNext(Init(), Begin(0, CallStart("a")));
    s := Next(s1, Step(0, GO));
    ReachableNext(s1, Step(0, GO));
  }

  /** A first caller has started process 0, and Close has taken it down again. */
  lemma StartedAndClosed() returns (s: State)
    ensures Reachable(s) && s.agents == map[0 := CallNumber("a"), 10 := Reading(0), 1 := CloseBroadcast({}, {})]
    ensures s.client == Fresh() && s.chans == [] && s.procs == [Process(false, [], map[], [])]
  {
    var s1 := FirstCallStarts();
    var s2 := Next(s1, Begin(1, CloseStart));
    ReachableNext(s1, Begin(1, CloseStart));
    s := Next(s2, Step(1, GO));
    ReachableNext(s2, Step(1, GO));
    assert s2.client.pending.Values == {};
    assert s.agents[1] == CloseBroadcast({}, {});
  }

  /** The first caller draws its id and registers, and there is no pipe to note. */
  lemma FirstCallRegisters() returns (s: State)
    ensures Reachable(s) && 0 in s.agents && s.agents[0] == CallWrite(Ticket(1, 0, "a"), None)
  {
    var s1 := StartedAndClosed();
    var s2 := Next(s1, Step(0, GO));
    ReachableNext(s1, Step(0, GO));
    assert s2 == NumberStep(s1, 0, "a");
    s := Next(s2, Step(0, GO));
    ReachableNext(s2, Step(0, GO));
    assert s == RegisterStep(s2, 0, Ticket(1, 0, "a"));
  }

  /** It does happen: Close between ensureStarted and the registration of the call. */
  lemma NilPipeIsReachable() returns (s: State)
    ensures Reachable(s) && 0 in s.agents && s.agents[0].CallPanicked?
  {
    var s1 := FirstCallRegisters();
    s := Next(s1, Step(0, GO));
    ReachableNext(s1, Step(0, GO));
  }

  // A second scenario: the first caller has registered with process 0 when Close takes the process down.

  lemma FirstCallRegistered() returns (s: State)
    ensures Reachable(s) && s.agents == map[0 := CallWrite(Ticket(1, 0, "a"), Some(0)), 10 := Reading(0)]
    ensures s.client == Client(Some(0), Some(0), map[1 := 0], 1)
    ensures s.chans == [Channel([], 0)] && s.procs == [Process(true, [], map[], [])]
  {
    var s1 := FirstCallStarts();
    var s2 := Next(s1, Step(0, GO));
    ReachableNext(s1, Step(0, GO));
    assert s2 == NumberStep(s1, 0, "a");
    s := Next(s2, Step(0, GO));
    ReachableNext(s2, Step(0, GO));
    assert s == RegisterStep(s2, 0, Ticket(1, 0, "a"));
  }

  /** Reader 10 and caller 0 still belong to process 0, and agent 2 is at the position given. */
  predicate Stale(s: State, pc: Pc) {
    && 0 in s.agents && s.agents[0] == CallWrite(Ticket(1, 0, "a"), Some(0))
    && 10 in s.agents && s.agents[10] == Reading(0)
    && 2 in s.agents && s.agents[2] == pc
  }

  /** Close has taken process 0 down. */
  lemma FirstProcessIsClosed() returns (s: State)
    ensures Reachable(s) && s.client == Client(None, None, map[], 1) && s.chans == [Channel([], 0)] && |s.procs| == 1
    ensures s.agents == map[0 := CallWrite(Ticket(1, 0, "a"), Some(0)), 10 := Reading(0), 1 := CloseBroadcast({0}, {0})]
  {
    var s1 := FirstCallRegistered();
    var s2 := Next(s1, Begin(1, CloseStart));
    ReachableNext(s1, Begin(1, CloseStart));
    s := Next(s2, Step(1, GO));
    ReachableNext(s2, Step(1, GO));
    TheOnlyChannel(s2.client.pending, 1, 0);
    assert s == TakeDownStep(s2, 1, CloseStart);
  }

  lemma SecondCallBegins() returns (s: State)
    ensures Reachable(s) && Stale(s, CallStart("b")) && 11 !in s.agents
    ensures s.client == Client(None, None, map[], 1) && s.chans == [Channel([], 0)] && |s.procs| == 1
  {
    var s1 := FirstProcessIsClosed();
    s := Next(s1, Begin(2, CallStart("b")));
    ReachableNext(s1, Begin(2, CallStart("b")));
  }

  /** It has started process 1. */
  lemma SecondCallStarts() returns (s: State)
    ensures Reachable(s) && Stale(s, CallNumber("b"))
    ensures s.client == Client(Some(1), Some(1), map[], 1) && s.chans == [Channel([], 0)]
    ensures |s.procs| == 2 && s.procs[1].alive
  {
    var s1 := SecondCallBegins();
    var c := GO.(reader := 11);
    s := Next(s1, Step(2, c));
    ReachableNext(s1, Step(2, c));
    assert s == StartStep(s1, 2, "b", c);
  }

  lemma SecondCallRegisters() returns (s: State)
    ensures Reachable(s) && Stale(s, CallWrite(Ticket(2, 1, "b"), Some(1)))
    ensures s.client == Client(Some(1), Some(1), map[2 := 1], 2) && s.chans == [Channel([], 0), Channel([], 0)]
    ensures |s.procs| == 2 && s.procs[1].alive
  {
    var s1 := SecondCallStarts();
    var s2 := Next(s1, Step(2, GO));
    ReachableNext(s1, Step(2, GO));
    assert s2 == NumberStep(s1, 2, "b");
    s := Next(s2, Step(2, GO));
    ReachableNext(s2, Step(2, GO));
    assert s == RegisterStep(s2, 2, Ticket(2, 1, "b"));
  }

  /** It has written its request and waits for the answer. */
  lemma SecondCallWaits() returns (s: State)
    ensures Reachable(s) && Stale(s, CallWait(Ticket(2, 1, "b")))
    ensures s.client == Client(Some(1), Some(1), map[2 := 1], 2) && s.chans == [Channel([], 0), Channel([], 0)]
    ensures |s.procs| == 2 && s.procs[1].alive
  {
    var s1 := SecondCallRegisters();
    s := Next(s1, Step(2, GO));
    ReachableNext(s1, Step(2, GO));
    assert s == WrittenStep(s1, 2, Ticket(2, 1, "b"), 1);
  }

  /** Process 1, which was current, is taken down, and the call that waits for it has the 502. */
  predicate SecondCallHasFailed(s: State) {
    && |s.procs| == 2 && !s.procs[1].alive && s.client.cmd.None?
    && 2 in s.agents && s.agents[2] == CallWait(Ticket(2, 1, "b")) && IsSent(s, 1, Gone)
  }

  /** What follows once agent a has noticed the end of process 0. */
  lemma StaleFailure(s: State, a: Agent)
    requires Failed(s, a, 0) && a != 2 && 2 in s.agents && s.agents[2] == CallWait(Ticket(2, 1, "b"))
    requires s.client == Client(Some(1), Some(1), map[2 := 1], 2) && s.chans == [Channel([], 0), Channel([], 0)]
    requires |s.procs| == 2
    ensures SecondCallHasFailed(Next(Next(s, Step(a, GO.(pick := 1))), Step(a, GO.(pick := 1))))
  {
    var c := GO.(pick := 1);
    var s1 := Next(s, Step(a, c));
    assert s1 == TakeDownStep(s, a, s.agents[a]);
    TheOnlyChannel(s.client.pending, 2, 1);
    var pc := BeginBroadcast(s.agents[a], {1});
    assert s1.agents[a] == pc && Ready(s1, 1);
    assert Next(s1, Step(a, c)) == BroadcastStep(s1, a, pc, 1);
  }

  /** A reader whose own process is gone takes down whatever process is current: a call written to
      process 1, alive until then, gets a 502 because reading from process 0 fails. */
  lemma StaleReaderFailsNewCalls() returns (s: State)
    ensures Reachable(s) && Stale(s, CallWait(Ticket(2, 1, "b"))) && s.client.cmd == Some(1)
    ensures |s.procs| == 2 && s.procs[1].alive
    ensures var c := GO.(pick := 1);
            SecondCallHasFailed(Next(Next(Next(s, Step(10, c.(ok := false))), Step(10, c)), Step(10, c)))
  {
    s := SecondCallWaits();
    var c := GO.(pick := 1, ok := false);
    assert Next(s, Step(10, c)) == Goto(s, 10, ReaderFail(0));
    StaleFailure(Next(s, Step(10, c)), 10);
  }

  /** So does a caller that fails to write to a process that is gone. */
  lemma StaleWriterFailsNewCalls() returns (s: State)
    ensures Reachable(s) && Stale(s, CallWait(Ticket(2, 1, "b"))) && s.client.cmd == Some(1)
    ensures |s.procs| == 2 && s.procs[1].alive
    ensures var c := GO.(pick := 1);
            SecondCallHasFailed(Next(Next(Next(s, Step(0, c.(ok := false))), Step(0, c)), Step(0, c)))
  {
    s := SecondCallWaits();
    var c := GO.(pick := 1, ok := false);
    assert Next(s, Step(0, c)) == Goto(s, 0, CallFail(Ticket(1, 0, "a"), 0));
    StaleFailure(Next(s, Step(0, c)), 0);
  }

  lemma TheOnlyChannel(pending: map<Id, Chan>, id: Id, ch: Chan)
    requires pending == map[id := ch]
    ensures pending.Values == {ch}
  {
    assert pending[id] == ch;
  }
}
