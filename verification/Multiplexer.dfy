/** The request/response protocol between any number of concurrent callers and the helper processes
    they share (helper_client.go together with helper/main.py): calls, timeouts, cancel frames, readers,
    process failures and Close, interleaved at every lock operation, pipe write and channel send. */
module Multiplexer {
  import opened HelperClient
  import opened Wrappers

  type Agent = nat
  type Payload = string

  /** What a response says: the answer of process_request, or the acknowledgement of a cancel frame. */
  datatype Answer = Computed(body: string) | CancelAck(found: bool)

  datatype Response = Response(id: Id, answer: Answer)

  datatype Request = Images(id: Id, payload: Payload) | CancelFrame(id: Id, target: Id)

  /** What arrives on a caller's channel: a response, or the 502 of failProcess and Close. */
  datatype Message = Reply(response: Response) | Gone

  datatype Channel = Channel(sent: seq<Message>, taken: nat)

  /** A request inside process_request; it stays in the table of active controls while it is running. */
  datatype Task = Task(payload: Payload, cancelled: bool, answer: Option<string>)

  /** `alive` is false once the process has exited or failProcess or Close has taken it down. What a process
      does is not made to depend on it: the kill comes some time after the critical section, and until
      then the process works on. */
  datatype Process = Process(alive: bool, inbox: seq<Request>, tasks: map<Id, Task>, outbox: seq<Response>)

  datatype Ticket = Ticket(id: Id, ch: Chan, payload: Payload)

  datatype Result = Got(message: Message) | TimedOut | WriteFailed

  datatype Pc =
    // Call
    | CallStart(payload: Payload)
    | CallNumber(payload: Payload)
    | CallRegister(t: Ticket)
    | CallWrite(t: Ticket, pipe: Option<Pid>)
    | CallFail(t: Ticket, p: Pid)                                 // the write failed
    | CallBroadcast(t: Ticket, all: set<Chan>, todo: set<Chan>)
    | CallWait(t: Ticket)
    | CallForget(t: Ticket)                                       // the context is done
    | CallCancel(t: Ticket)
    | CallCancelNumber(t: Ticket, target: Pid)
    | CallCancelWrite(t: Ticket, id: Id, target: Pid)
    | CallDone(t: Ticket, result: Result)
    | CallNotStarted
    | CallPanicked(t: Ticket)                                     // wrote to a nil pipe
    // readLoop of one process
    | Reading(p: Pid)
    | Lookup(p: Pid, r: Response)
    | Deliver(p: Pid, r: Response, ch: Chan)
    | ReaderFail(p: Pid)
    | ReaderBroadcast(all: set<Chan>, todo: set<Chan>)
    | ReaderDone
    // Close
    | CloseStart
    | CloseBroadcast(all: set<Chan>, todo: set<Chan>)
    | CloseDone

  datatype Use = ForCall(ch: Chan, payload: Payload) | ForCancel(target: Id)

  /** The last five fields are history: what each id was drawn for, the process its frame was written
      to, the payload and answer of each finished process_request, the ids whose callers gave up, and those
      whose response a reader could not decode. */
  datatype State = State(client: Client, agents: map<Agent, Pc>, chans: seq<Channel>, procs: seq<Process>,
                         uses: map<Id, Use>, written: map<Id, Pid>, computed: map<Id, (Payload, string)>,
                         abandoned: set<Id>, garbled: set<Id>)

  /** `ok`: the operation (start, write, read) succeeds; `expire`: the context is done; `garbled`: the
      frame read is not a response; `reader`: the goroutine that a start creates; `pick`: the next
      channel of a broadcast. */
  datatype Choice = Choice(ok: bool, expire: bool, garbled: bool, reader: Agent, pick: Chan)

  datatype Action =
    | Begin(a: Agent, entry: Pc)
    | Step(a: Agent, c: Choice)
    | HelperRead(p: Pid)
    | HelperFinish(p: Pid, id: Id, body: string)
    | HelperWrite(p: Pid, id: Id)
    | HelperExit(p: Pid)

  function Init(): State {
    State(Fresh(), map[], [], [], map[], map[], map[], {}, {})
  }

  function Goto(s: State, a: Agent, pc: Pc): State {
    s.(agents := s.agents[a := pc])
  }

  function Send(s: State, ch: Chan, m: Message): State {
    if ch < |s.chans| then s.(chans := s.chans[ch := s.chans[ch].(sent := s.chans[ch].sent + [m])]) else s
  }

  /** The one slot of the channel is free. */
  predicate Ready(s: State, ch: Chan) {
    ch < |s.chans| && |s.chans[ch].sent| == s.chans[ch].taken
  }

  function Kill(s: State, p: Option<Pid>): State {
    if p.Some? && p.value < |s.procs| then s.(procs := s.procs[p.value := s.procs[p.value].(alive := false)]) else s
  }

  function WriteRequest(s: State, p: Pid, r: Request): State {
    if p < |s.procs|
    then s.(procs := s.procs[p := s.procs[p].(inbox := s.procs[p].inbox + [r])], written := s.written[r.id := p])
    else s
  }

  /** The critical section of failProcess and Close. The kill that it decides on is recorded at once. */
  function TakeDown(s: State): State {
    Kill(s.(client := Emptied(s.client)), s.client.cmd)
  }

  // ---------- the steps of Call ----------

  /** A new process, without its reader yet. */
  function Spawn(s: State): State {
    s.(client := Started(s.client, |s.procs|), procs := s.procs + [Process(true, [], map[], [])])
  }

  function StartStep(s: State, a: Agent, payload: Payload, c: Choice): State {
    if s.client.cmd.Some? then Goto(s, a, CallNumber(payload))
    else if !c.ok then Goto(s, a, CallNotStarted)
    else if c.reader in s.agents then s
    else Goto(Goto(Spawn(s), c.reader, Reading(|s.procs|)), a, CallNumber(payload))
  }

  function NumberStep(s: State, a: Agent, payload: Payload): State {
    var id, ch := s.client.nextID + 1, |s.chans|;
    Goto(s.(client := Numbered(s.client), chans := s.chans + [Channel([], 0)],
            uses := s.uses[id := ForCall(ch, payload)]), a, CallRegister(Ticket(id, ch, payload)))
  }

  function RegisterStep(s: State, a: Agent, t: Ticket): State {
    Goto(s.(client := Registered(s.client, t.id, t.ch)), a, CallWrite(t, s.client.stdin))
  }

  function WrittenStep(s: State, a: Agent, t: Ticket, p: Pid): State {
    Goto(WriteRequest(s, p, Images(t.id, t.payload)), a, CallWait(t))
  }

  function ExpireStep(s: State, a: Agent, t: Ticket): State {
    Goto(s.(abandoned := s.abandoned + {t.id}), a, CallForget(t))
  }

  function ReceiveStep(s: State, a: Agent, t: Ticket): State {
    if t.ch < |s.chans| && s.chans[t.ch].taken < |s.chans[t.ch].sent| then
      var m := s.chans[t.ch].sent[s.chans[t.ch].taken];
      Goto(s.(chans := s.chans[t.ch := s.chans[t.ch].(taken := s.chans[t.ch].taken + 1)]), a, CallDone(t, Got(m)))
    else s
  }

  function ForgetStep(s: State, a: Agent, t: Ticket): State {
    Goto(s.(client := Forgotten(s.client, t.id)), a, CallCancel(t))
  }

  function CancelStep(s: State, a: Agent, t: Ticket): State {
    if s.client.stdin.None? then Goto(s, a, CallDone(t, TimedOut))
    else Goto(s, a, CallCancelNumber(t, s.client.stdin.value))
  }

  /** Draws an id for a cancel frame. */
  function CancelNumbered(s: State, target: Id): State {
    s.(client := Numbered(s.client), uses := s.uses[s.client.nextID + 1 := ForCancel(target)])
  }

  function CancelNumberStep(s: State, a: Agent, t: Ticket, p: Pid): State {
    Goto(CancelNumbered(s, t.id), a, CallCancelWrite(t, s.client.nextID + 1, p))
  }

  /** The cancel frame is written; when the write fails nothing happens. */
  function CancelSentStep(s: State, a: Agent, t: Ticket, id: Id, p: Pid): State {
    Goto(WriteRequest(s, p, CancelFrame(id, t.id)), a, CallDone(t, TimedOut))
  }

  /** failProcess and Close tell every channel in turn. */
  function BroadcastStep(s: State, a: Agent, pc: Pc, pick: Chan): State
    requires Broadcasting(pc)
  {
    if pc.todo == {} then Goto(s, a, AfterBroadcast(pc))
    else if pick in pc.todo && Ready(s, pick) then Goto(Send(s, pick, Gone), a, pc.(todo := pc.todo - {pick}))
    else s
  }

  predicate Broadcasting(pc: Pc) { pc.CallBroadcast? || pc.ReaderBroadcast? || pc.CloseBroadcast? }

  function AfterBroadcast(pc: Pc): Pc
    requires Broadcasting(pc)
  {
    match pc
    case CallBroadcast(t, _, _) => CallDone(t, WriteFailed)
    case ReaderBroadcast(_, _) => ReaderDone
    case CloseBroadcast(_, _) => CloseDone
  }

  predicate TakingDown(pc: Pc) { pc.CallFail? || pc.ReaderFail? || pc.CloseStart? }

  function BeginBroadcast(pc: Pc, all: set<Chan>): Pc
    requires TakingDown(pc)
  {
    match pc
    case CallFail(t, _) => CallBroadcast(t, all, all)
    case ReaderFail(_) => ReaderBroadcast(all, all)
    case CloseStart => CloseBroadcast(all, all)
  }

  function TakeDownStep(s: State, a: Agent, pc: Pc): State
    requires TakingDown(pc)
  {
    Goto(TakeDown(s), a, BeginBroadcast(pc, s.client.pending.Values))
  }

  // ---------- the steps of readLoop ----------

  /** Takes the next response off the pipe. */
  function TakeResponse(s: State, p: Pid): State
    requires p < |s.procs| && s.procs[p].outbox != []
  {
    s.(procs := s.procs[p := s.procs[p].(outbox := s.procs[p].outbox[1..])])
  }

  function Garble(s: State, id: Id): State {
    s.(garbled := s.garbled + {id})
  }

  function ReadStep(s: State, a: Agent, p: Pid, c: Choice): State {
    if !c.ok then Goto(s, a, ReaderFail(p))
    else if p < |s.procs| && s.procs[p].outbox != [] then
      var r := s.procs[p].outbox[0];
      if c.garbled then Goto(Garble(TakeResponse(s, p), r.id), a, Reading(p))
      else Goto(TakeResponse(s, p), a, Lookup(p, r))
    else s
  }

  function LookupStep(s: State, a: Agent, p: Pid, r: Response): State {
    var s1 := s.(client := Forgotten(s.client, r.id));
    Goto(s1, a, if r.id in s.client.pending then Deliver(p, r, s.client.pending[r.id]) else Reading(p))
  }

  function DeliverStep(s: State, a: Agent, p: Pid, r: Response, ch: Chan): State {
    if Ready(s, ch) then Goto(Send(s, ch, Reply(r)), a, Reading(p)) else s
  }

  /** The next step of an agent. */
  function AgentStep(s: State, a: Agent, pc: Pc, c: Choice): State {
    if TakingDown(pc) then TakeDownStep(s, a, pc)
    else if Broadcasting(pc) then BroadcastStep(s, a, pc, c.pick)
    else
      match pc
      case CallStart(payload) => StartStep(s, a, payload, c)
      case CallNumber(payload) => NumberStep(s, a, payload)
      case CallRegister(t) => RegisterStep(s, a, t)
      case CallWrite(t, pipe) =>
        if pipe.None? then Goto(s, a, CallPanicked(t))
        else if c.ok then WrittenStep(s, a, t, pipe.value)
        else Goto(s, a, CallFail(t, pipe.value))
      case CallWait(t) => if c.expire then ExpireStep(s, a, t) else ReceiveStep(s, a, t)
      case CallForget(t) => ForgetStep(s, a, t)
      case CallCancel(t) => CancelStep(s, a, t)
      case CallCancelNumber(t, target) => CancelNumberStep(s, a, t, target)
      case CallCancelWrite(t, id, target) =>
        if c.ok then CancelSentStep(s, a, t, id, target) else Goto(s, a, CallDone(t, TimedOut))
      case Reading(p) => ReadStep(s, a, p, c)
      case Lookup(p, r) => LookupStep(s, a, p, r)
      case Deliver(p, r, ch) => DeliverStep(s, a, p, r, ch)
      case _ => s
  }

  /** serve_stdio takes one request: a cancel frame is handled at once, any other becomes a task. */
  function ReadRequest(s: State, p: Pid): State
    requires p < |s.procs| && s.procs[p].inbox != []
  {
    var q := s.procs[p].(inbox := s.procs[p].inbox[1..]);
    match s.procs[p].inbox[0]
    case Images(id, payload) => s.(procs := s.procs[p := q.(tasks := q.tasks[id := Task(payload, false, None)])])
    case CancelFrame(id, target) =>
      var found := target in q.tasks && q.tasks[target].answer.None?;
      var q1 := if found then q.(tasks := q.tasks[target := q.tasks[target].(cancelled := true)]) else q;
      s.(procs := s.procs[p := q1.(outbox := q.outbox + [Response(id, CancelAck(found))])])
  }

  function HelperStep(s: State, action: Action): State {
    match action
    case HelperRead(p) => if p < |s.procs| && s.procs[p].inbox != [] then ReadRequest(s, p) else s
    case HelperFinish(p, id, body) =>
      if p < |s.procs| && id in s.procs[p].tasks && s.procs[p].tasks[id].answer.None? then
        var task := s.procs[p].tasks[id];
        s.(procs := s.procs[p := s.procs[p].(tasks := s.procs[p].tasks[id := task.(answer := Some(body))])],
           computed := s.computed[id := (task.payload, body)])
      else s
    case HelperWrite(p, id) =>
      if p < |s.procs| && id in s.procs[p].tasks && s.procs[p].tasks[id].answer.Some? then
        s.(procs := s.procs[p := s.procs[p].(tasks := s.procs[p].tasks - {id},
             outbox := s.procs[p].outbox + [Response(id, Computed(s.procs[p].tasks[id].answer.value))])])
      else s
    case HelperExit(p) => Kill(s, Some(p))
    case _ => s
  }

  function Next(s: State, action: Action): State {
    match action
    case Begin(a, entry) =>
      if a in s.agents || !(entry.CallStart? || entry.CloseStart?) then s else Goto(s, a, entry)
    case Step(a, c) =>
      if a !in s.agents then s else AgentStep(s, a, s.agents[a], c)
    case _ => HelperStep(s, action)
  }

  function Run(s: State, actions: seq<Action>): State
    decreases |actions|
  {
    if actions == [] then s else Run(Next(s, actions[0]), actions[1..])
  }
}
