/** Any number of workers inside generate_one (helper/protocol.py:140-199) at once, one step per lock
    operation, table access and clock reading, under clocks that never go back. */
module Scheduler {
  import opened Clock
  import opened CredentialTable
  import opened Wrappers

  datatype Result = Returned | Failed(code: int)

  datatype Pc =
    | Guard                                            // the while condition
    | Scan(i: nat)                                     // the for loop is at position i
    | Look(i: nat)                                     // about to fetch the lock object
    | Try(i: nat, lock: Lock)                          // about to try to take it
    | Recheck(i: nat, lock: Lock)                      // holds it
    | Attempt(i: nat, lock: Lock)                      // inside generate_with_credential
    | Punish(i: nat, lock: Lock, penalty: int)         // about to set the cooldown
    | Unlock(i: nat, lock: Lock, success: bool)        // in the finally clause
    | RoundEnd
    | Sleep                                            // about to compute the wait
    | Sleeping(until: int)
    | Final                                            // after the loop
    | Left(result: Result)

  /** `tried`, `outcomes` and `skipped` are history: the keys attempted in order, how those attempts
      ended, and the keys passed over because they were cooling. */
  datatype Local = Local(ordered: seq<Key>, deadline: int, cancelled: bool,
                         attempted: set<Key>, busy: bool, progressed: bool, statuses: seq<int>,
                         tried: seq<Key>, outcomes: seq<Outcome>, skipped: set<Key>, pc: Pc)

  datatype State = State(table: Table, wall: int, mono: int, workers: map<Worker, Local>)

  datatype Action =
    | Enter(w: Worker, ordered: seq<Key>, deadline: int)
    | Step(w: Worker, outcome: Outcome)
    | Tick(wall: nat, mono: nat)
    | Cancel(w: Worker)

  const NAP := 20 * MILLISECOND

  function Init(): State {
    State(Table(map[], map[], 0, map[]), 0, 0, map[])
  }

  predicate Expired(l: Local, mono: int) {
    l.cancelled || mono >= l.deadline
  }

  function Keys(ordered: seq<Key>): set<Key> {
    set k | k in ordered
  }

  /** One step of a worker: what becomes of the table and of its own variables. */
  function WorkerStep(t: Table, wall: int, mono: int, w: Worker, l: Local, outcome: Outcome): (Table, Local) {
    match l.pc
    case Guard =>
      if |l.attempted| < |Keys(l.ordered)| && !Expired(l, mono)
      then (t, l.(busy := false, progressed := false, pc := Scan(0)))
      else (t, l.(pc := Final))
    case Scan(i) =>
      if i >= |l.ordered| then (t, l.(pc := RoundEnd))
      else if l.ordered[i] in l.attempted then (t, l.(pc := Scan(i + 1)))
      else if Cooling(t, l.ordered[i], wall) then (t, Skip(l, l.ordered[i]).(pc := Scan(i + 1)))
      else (t, l.(pc := Look(i)))
    case Look(i) =>
      if i >= |l.ordered| then (t, l) else
      var t' := WithLock(t, l.ordered[i]);
      (t', l.(pc := Try(i, t'.locks[l.ordered[i]])))
    case Try(i, lock) =>
      if lock in t.owner then (t, l.(busy := true, pc := Scan(i + 1)))
      else (Acquired(t, lock, w), l.(pc := Recheck(i, lock)))
    case Recheck(i, lock) =>
      if i >= |l.ordered| then (t, l)
      else if Cooling(t, l.ordered[i], wall) then (t, Skip(l, l.ordered[i]).(pc := Unlock(i, lock, false)))
      else (t, l.(attempted := l.attempted + {l.ordered[i]}, tried := l.tried + [l.ordered[i]], progressed := true,
                  pc := Attempt(i, lock)))
    case Attempt(i, lock) =>
      (t, l.(outcomes := l.outcomes + [outcome], statuses := l.statuses + Statuses([outcome]),
             pc := if outcome.Success? then Unlock(i, lock, true)
                   else if Penalty(outcome) > 0 then Punish(i, lock, Penalty(outcome))
                   else Unlock(i, lock, false)))
    case Punish(i, lock, penalty) =>
      if i >= |l.ordered| then (t, l)
      else (WithCooldown(t, l.ordered[i], wall + penalty), l.(pc := Unlock(i, lock, false)))
    case Unlock(i, lock, success) =>
      (Released(t, lock), l.(pc := if success then Left(Returned) else Scan(i + 1)))
    case RoundEnd =>
      if l.busy && !l.progressed && !Expired(l, mono) then (t, l.(pc := Sleep))
      else if !l.busy || Expired(l, mono) then (t, l.(pc := Final))
      else (t, l.(pc := Guard))
    case Sleep =>
      if Expired(l, mono) then (t, l.(pc := Left(Failed(504))))
      else (t, l.(pc := Sleeping(mono + Min(NAP, Max(MILLISECOND, l.deadline - mono)))))
    case Sleeping(until) =>
      if mono < until && !l.cancelled then (t, l)
      else (t, l.(pc := if Expired(l, mono) then Left(Failed(504)) else Guard))
    case Final => (t, l.(pc := Left(Failed(Verdict(Expired(l, mono), l.statuses)))))
    case Left(_) => (t, l)
  }

  /** A key found cooling counts as attempted and leaves no status. */
  function Skip(l: Local, k: Key): Local {
    l.(attempted := l.attempted + {k}, skipped := l.skipped + {k})
  }

  function Next(s: State, a: Action): State {
    match a
    case Enter(w, ordered, deadline) =>
      if w in s.workers then s
      else s.(workers := s.workers[w := Local(ordered, deadline, false, {}, false, false, [], [], [], {}, Guard)])
    case Step(w, outcome) =>
      if w !in s.workers then s
      else
        var (t, l) := WorkerStep(s.table, s.wall, s.mono, w, s.workers[w], outcome);
        s.(table := t, workers := s.workers[w := l])
    case Tick(wall, mono) => s.(wall := s.wall + wall, mono := s.mono + mono)
    case Cancel(w) =>
      if w in s.workers then s.(workers := s.workers[w := s.workers[w].(cancelled := true)]) else s
  }

  function Run(s: State, actions: seq<Action>): State
    decreases |actions|
  {
    if actions == [] then s else Run(Next(s, actions[0]), actions[1..])
  }

  // ---------- the invariant ----------

  /** The lock that the worker holds. */
  function Held(pc: Pc): Option<Lock> {
    match pc
    case Recheck(_, lock) => Some(lock)
    case Attempt(_, lock) => Some(lock)
    case Punish(_, lock, _) => Some(lock)
    case Unlock(_, lock, _) => Some(lock)
    case _ => None
  }

  /** The position in the list that the worker is dealing with. */
  function Position(pc: Pc): Option<nat> {
    match pc
    case Look(i) => Some(i)
    case Try(i, _) => Some(i)
    case Recheck(i, _) => Some(i)
    case Attempt(i, _) => Some(i)
    case Punish(i, _, _) => Some(i)
    case Unlock(i, _, _) => Some(i)
    case _ => None
  }

  ghost predicate OwnerInv(t: Table, workers: map<Worker, Local>) {
    forall l :: l in t.owner ==> t.owner[l] in workers && Held(workers[t.owner[l]].pc) == Some(l)
  }

  /** What a worker may assume about the shared state. */
  ghost predicate SharedInv(t: Table, wall: int, w: Worker, l: Local) {
    && (Position(l.pc).Some? ==> Position(l.pc).value < |l.ordered|)
    && (Held(l.pc).Some? ==> HoldsLock(t, w, Held(l.pc).value))
    && (Held(l.pc).Some? || l.pc.Try? ==>
         l.ordered[l.pc.i] in t.locks && t.locks[l.ordered[l.pc.i]] == l.pc.lock)
    && (l.pc.Attempt? || l.pc.Punish? ==> !Cooling(t, l.ordered[l.pc.i], wall))
  }

  ghost predicate Distinct(keys: seq<Key>) {
    forall i, j | 0 <= i < j < |keys| :: keys[i] != keys[j]
  }

  /** Every key before position n has been attempted, or some lock was found taken in this round. */
  ghost predicate ScannedTo(l: Local, n: nat) {
    l.busy || forall j | 0 <= j < n && j < |l.ordered| :: l.ordered[j] in l.attempted
  }

  ghost predicate Complete(l: Local) {
    l.attempted == Keys(l.ordered)
  }

  /** The worker is on its way out with a result. */
  predicate HasSucceeded(pc: Pc) { (pc.Unlock? && pc.success) || pc == Left(Returned) }

  /** No attempt but the last succeeds, and after one that does the worker returns. */
  ghost predicate SuccessIsLast(l: Local) {
    && (forall i | 0 <= i < |l.outcomes| :: l.outcomes[i].Success? ==> i == |l.outcomes| - 1 && HasSucceeded(l.pc))
    && (HasSucceeded(l.pc) ==> l.outcomes != [] && l.outcomes[|l.outcomes| - 1].Success?)
  }

  /** What a worker knows about its own variables. */
  ghost predicate LocalInv(l: Local, mono: int) {
    && l.attempted == Keys(l.tried) + l.skipped
    && l.attempted <= Keys(l.ordered)
    && Distinct(l.tried) && (forall k :: k in l.tried ==> k !in l.skipped)
    && l.statuses == Statuses(l.outcomes)
    && |l.tried| == |l.outcomes| + (if l.pc.Attempt? then 1 else 0)
    && match l.pc
       case Scan(i) => ScannedTo(l, i)
       case Look(i) => ScannedTo(l, i) && i < |l.ordered| && l.ordered[i] !in l.attempted
       case Try(i, _) => ScannedTo(l, i) && i < |l.ordered| && l.ordered[i] !in l.attempted
       case Recheck(i, _) => ScannedTo(l, i) && i < |l.ordered| && l.ordered[i] !in l.attempted
       case Attempt(i, _) => ScannedTo(l, i + 1) && i < |l.ordered| && l.tried[|l.tried| - 1] == l.ordered[i]
       case Punish(i, _, penalty) => ScannedTo(l, i + 1) && i < |l.ordered| && penalty > 0
       case Unlock(i, _, _) => ScannedTo(l, i + 1) && i < |l.ordered|
       case RoundEnd => l.busy || Complete(l)
       case Final => Complete(l) || Expired(l, mono)
       case Left(Failed(code)) =>
         && (code == 504 ==> Expired(l, mono))
         && (code != 504 ==> Complete(l) && code == Verdict(false, l.statuses))
       case _ => true
  }

  ghost predicate Inv(s: State) {
    && Injective(s.table) && OwnerInv(s.table, s.workers)
    && forall w :: w in s.workers ==> SharedInv(s.table, s.wall, w, s.workers[w]) && LocalInv(s.workers[w], s.mono)
  }

  // ---------- preservation ----------

  lemma FullSubset<T>(a: set<T>, b: set<T>)
    requires a <= b && |a| >= |b|
    ensures a == b
  {
    assert b == a + (b - a);
  }

  predicate Looping(pc: Pc) {
    pc.Guard? || pc.Scan? || pc.RoundEnd? || pc.Sleep? || pc.Sleeping? || pc.Final? || pc.Left?
  }

  lemma ScanKeepsLocal(t: Table, wall: int, mono: int, w: Worker, l: Local, outcome: Outcome)
    requires LocalInv(l, mono) && l.pc.Scan?
    ensures LocalInv(WorkerStep(t, wall, mono, w, l, outcome).1, mono)
  {
    var i := l.pc.i;
    if i >= |l.ordered| {
      if !l.busy { assert Keys(l.ordered) <= l.attempted; }
    } else if Cooling(t, l.ordered[i], wall) && l.ordered[i] !in l.attempted {
      SkipKeepsLocal(l, mono, l.ordered[i]);
    }
  }

  lemma SkipKeepsLocal(l: Local, mono: int, k: Key)
    requires LocalInv(l, mono) && k in l.ordered && k !in l.attempted && (l.pc.Scan? || l.pc.Recheck?)
    ensures var l' := Skip(l, k);
            && l'.attempted == Keys(l'.tried) + l'.skipped && l'.attempted <= Keys(l'.ordered)
            && (forall x :: x in l'.tried ==> x !in l'.skipped)
  {
    assert k !in Keys(l.tried);
  }

  lemma GuardKeepsLocal(t: Table, wall: int, mono: int, w: Worker, l: Local, outcome: Outcome)
    requires LocalInv(l, mono) && l.pc.Guard?
    ensures LocalInv(WorkerStep(t, wall, mono, w, l, outcome).1, mono)
  {
    if |l.attempted| >= |Keys(l.ordered)| {
      FullSubset(l.attempted, Keys(l.ordered));
    }
  }

  lemma LoopStepKeepsLocal(t: Table, wall: int, mono: int, w: Worker, l: Local, outcome: Outcome)
    requires LocalInv(l, mono) && Looping(l.pc) && !l.pc.Scan? && !l.pc.Guard?
    ensures LocalInv(WorkerStep(t, wall, mono, w, l, outcome).1, mono)
  {
  }

  lemma LockStepKeepsLocal(t: Table, wall: int, mono: int, w: Worker, l: Local, outcome: Outcome)
    requires LocalInv(l, mono) && (l.pc.Look? || l.pc.Try? || l.pc.Punish? || l.pc.Unlock?)
    ensures LocalInv(WorkerStep(t, wall, mono, w, l, outcome).1, mono)
  {
  }

  lemma RecheckKeepsLocal(t: Table, wall: int, mono: int, w: Worker, l: Local, outcome: Outcome)
    requires LocalInv(l, mono) && l.pc.Recheck?
    ensures LocalInv(WorkerStep(t, wall, mono, w, l, outcome).1, mono)
  {
    var k := l.ordered[l.pc.i];
    if Cooling(t, k, wall) {
      SkipKeepsLocal(l, mono, k);
    } else {
      assert Keys(l.tried + [k]) == Keys(l.tried) + {k};
    }
  }

  lemma AttemptKeepsLocal(t: Table, wall: int, mono: int, w: Worker, l: Local, outcome: Outcome)
    requires LocalInv(l, mono) && l.pc.Attempt?
    ensures LocalInv(WorkerStep(t, wall, mono, w, l, outcome).1, mono)
  {
    StatusesAppend(l.outcomes, outcome);
  }

  lemma StepKeepsLocal(t: Table, wall: int, mono: int, w: Worker, l: Local, outcome: Outcome)
    requires LocalInv(l, mono)
    ensures LocalInv(WorkerStep(t, wall, mono, w, l, outcome).1, mono)
  {
    if l.pc.Scan? { ScanKeepsLocal(t, wall, mono, w, l, outcome); }
    else if l.pc.Guard? { GuardKeepsLocal(t, wall, mono, w, l, outcome); }
    else if Looping(l.pc) { LoopStepKeepsLocal(t, wall, mono, w, l, outcome); }
    else if l.pc.Recheck? { RecheckKeepsLocal(t, wall, mono, w, l, outcome); }
    else if l.pc.Attempt? { AttemptKeepsLocal(t, wall, mono, w, l, outcome); }
    else { LockStepKeepsLocal(t, wall, mono, w, l, outcome); }
  }

  /** What a step does to the table: nothing, or one of four changes. */
  ghost predicate TableChange(t: Table, t': Table, w: Worker, l: Local, l': Local) {
    || (t' == t && Held(l'.pc) == Held(l.pc))
    || (Position(l.pc).Some? && Position(l.pc).value < |l.ordered| &&
         var k := l.ordered[Position(l.pc).value];
         || (l.pc.Look? && t' == WithLock(t, k) && Held(l'.pc).None?)
         || (l.pc.Try? && t' == Acquired(t, l.pc.lock, w) && l.pc.lock !in t.owner && Held(l'.pc) == Some(l.pc.lock))
         || (l.pc.Unlock? && t' == Released(t, l.pc.lock) && Held(l'.pc).None?)
         || (l.pc.Punish? && Held(l'.pc) == Held(l.pc) && k in t'.cooldowns
             && t' == WithCooldown(t, k, t'.cooldowns[k]) && t'.cooldowns[k] >= CooldownEnd(t, k)))
  }

  lemma LoopingLeavesTable(t: Table, wall: int, mono: int, w: Worker, l: Local, outcome: Outcome)
    requires Looping(l.pc)
    ensures var (t', l') := WorkerStep(t, wall, mono, w, l, outcome);
            && t' == t && l'.ordered == l.ordered && Held(l'.pc).None? && !l'.pc.Try?
            && (Position(l'.pc).Some? ==> l'.pc.Look? && l'.pc.i < |l.ordered|)
  {
  }

  lemma LookChangesTable(t: Table, wall: int, mono: int, w: Worker, l: Local, outcome: Outcome)
    requires l.pc.Look? && SharedInv(t, wall, w, l)
    ensures var (t', l') := WorkerStep(t, wall, mono, w, l, outcome);
            TableChange(t, t', w, l, l') && l'.ordered == l.ordered && SharedInv(t', wall, w, l')
  {
  }

  lemma TryChangesTable(t: Table, wall: int, mono: int, w: Worker, l: Local, outcome: Outcome)
    requires l.pc.Try? && SharedInv(t, wall, w, l)
    ensures var (t', l') := WorkerStep(t, wall, mono, w, l, outcome);
            TableChange(t, t', w, l, l') && l'.ordered == l.ordered && SharedInv(t', wall, w, l')
  {
  }

  lemma UnlockChangesTable(t: Table, wall: int, mono: int, w: Worker, l: Local, outcome: Outcome)
    requires l.pc.Unlock? && SharedInv(t, wall, w, l)
    ensures var (t', l') := WorkerStep(t, wall, mono, w, l, outcome);
            TableChange(t, t', w, l, l') && l'.ordered == l.ordered && SharedInv(t', wall, w, l')
  {
  }

  lemma RecheckChangesTable(t: Table, wall: int, mono: int, w: Worker, l: Local, outcome: Outcome)
    requires l.pc.Recheck? && SharedInv(t, wall, w, l)
    ensures var (t', l') := WorkerStep(t, wall, mono, w, l, outcome);
            TableChange(t, t', w, l, l') && l'.ordered == l.ordered && SharedInv(t', wall, w, l')
  {
  }

  lemma AttemptChangesTable(t: Table, wall: int, mono: int, w: Worker, l: Local, outcome: Outcome)
    requires l.pc.Attempt? && SharedInv(t, wall, w, l)
    ensures var (t', l') := WorkerStep(t, wall, mono, w, l, outcome);
            TableChange(t, t', w, l, l') && l'.ordered == l.ordered && SharedInv(t', wall, w, l')
  {
  }

  lemma PunishChangesTable(t: Table, wall: int, mono: int, w: Worker, l: Local, outcome: Outcome)
    requires l.pc.Punish? && SharedInv(t, wall, w, l) && l.pc.penalty > 0
    ensures var (t', l') := WorkerStep(t, wall, mono, w, l, outcome);
            TableChange(t, t', w, l, l') && l'.ordered == l.ordered && SharedInv(t', wall, w, l')
  {
  }

  lemma WorkerStepChangesTable(t: Table, wall: int, mono: int, w: Worker, l: Local, outcome: Outcome)
    requires SharedInv(t, wall, w, l) && LocalInv(l, mono)
    ensures var (t', l') := WorkerStep(t, wall, mono, w, l, outcome);
            TableChange(t, t', w, l, l') && SharedInv(t', wall, w, l')
  {
    if l.pc.Look? { LookChangesTable(t, wall, mono, w, l, outcome); }
    else if l.pc.Try? { TryChangesTable(t, wall, mono, w, l, outcome); }
    else if l.pc.Unlock? { UnlockChangesTable(t, wall, mono, w, l, outcome); }
    else if l.pc.Recheck? { RecheckChangesTable(t, wall, mono, w, l, outcome); }
    else if l.pc.Attempt? { AttemptChangesTable(t, wall, mono, w, l, outcome); }
    else if l.pc.Punish? { PunishChangesTable(t, wall, mono, w, l, outcome); }
    else { LoopingLeavesTable(t, wall, mono, w, l, outcome); }
  }

  lemma StepChangesTable(s: State, w: Worker, outcome: Outcome)
    requires Inv(s) && w in s.workers
    ensures var s' := Next(s, Step(w, outcome));
            && TableChange(s.table, s'.table, w, s.workers[w], s'.workers[w])
            && SharedInv(s'.table, s'.wall, w, s'.workers[w])
  {
    assert SharedInv(s.table, s.wall, w, s.workers[w]) && LocalInv(s.workers[w], s.mono);
    WorkerStepChangesTable(s.table, s.wall, s.mono, w, s.workers[w], outcome);
  }

  /** One worker's step is within what every other worker relies on. */
  lemma ChangeIsWithinRely(t: Table, t': Table, wall: int, w: Worker, l: Local, l': Local, v: Worker)
    requires TableChange(t, t', w, l, l') && SharedInv(t, wall, w, l) && Injective(t) && v != w
    ensures Rely(t, t', v)
  {
  }

  lemma StepIsWithinRely(s: State, w: Worker, outcome: Outcome, v: Worker)
    requires Inv(s) && w in s.workers && v != w
    ensures Rely(s.table, Next(s, Step(w, outcome)).table, v)
  {
    StepChangesTable(s, w, outcome);
    var s' := Next(s, Step(w, outcome));
    ChangeIsWithinRely(s.table, s'.table, s.wall, w, s.workers[w], s'.workers[w], v);
  }

  lemma ChangeKeepsInjective(t: Table, t': Table, w: Worker, l: Local, l': Local)
    requires TableChange(t, t', w, l, l') && Injective(t)
    ensures Injective(t')
  {
  }

  lemma ChangeKeepsOwners(t: Table, t': Table, wall: int, workers: map<Worker, Local>, w: Worker, l': Local)
    requires w in workers && TableChange(t, t', w, workers[w], l') && OwnerInv(t, workers)
    requires SharedInv(t, wall, w, workers[w])
    ensures OwnerInv(t', workers[w := l'])
  {
  }

  lemma StepKeepsTable(s: State, w: Worker, outcome: Outcome)
    requires Inv(s) && w in s.workers
    ensures var s' := Next(s, Step(w, outcome)); Injective(s'.table) && OwnerInv(s'.table, s'.workers)
  {
    var s' := Next(s, Step(w, outcome));
    StepChangesTable(s, w, outcome);
    assert SharedInv(s.table, s.wall, w, s.workers[w]);
    ChangeKeepsInjective(s.table, s'.table, w, s.workers[w], s'.workers[w]);
    ChangeKeepsOwners(s.table, s'.table, s.wall, s.workers, w, s'.workers[w]);
  }

  lemma RelyKeepsShared(t: Table, t': Table, wall: int, v: Worker, l: Local)
    requires SharedInv(t, wall, v, l) && Rely(t, t', v)
    ensures SharedInv(t', wall, v, l)
  {
  }

  lemma StepKeepsInv(s: State, w: Worker, outcome: Outcome)
    requires Inv(s) && w in s.workers
    ensures Inv(Next(s, Step(w, outcome)))
  {
    var s' := Next(s, Step(w, outcome));
    StepKeepsTable(s, w, outcome);
    forall v | v in s'.workers
      ensures SharedInv(s'.table, s'.wall, v, s'.workers[v]) && LocalInv(s'.workers[v], s'.mono)
    {
      assert SharedInv(s.table, s.wall, v, s.workers[v]) && LocalInv(s.workers[v], s.mono);
      if v == w {
        StepChangesTable(s, w, outcome);
        StepKeepsLocal(s.table, s.wall, s.mono, w, s.workers[w], outcome);
      } else {
        StepIsWithinRely(s, w, outcome, v);
        RelyKeepsShared(s.table, s'.table, s.wall, v, s.workers[v]);
      }
    }
  }

  /** Time passing and cancellation can only make a request expired. */
  lemma LaterKeepsLocal(l: Local, mono: int, l': Local, mono': int)
    requires LocalInv(l, mono) && mono <= mono' && (l' == l || l' == l.(cancelled := true))
    ensures LocalInv(l', mono')
  {
  }

  lemma TickKeepsWorker(s: State, a: Action, v: Worker)
    requires Inv(s) && !a.Step? && v in Next(s, a).workers
    ensures var s' := Next(s, a); SharedInv(s'.table, s'.wall, v, s'.workers[v]) && LocalInv(s'.workers[v], s'.mono)
  {
    var s' := Next(s, a);
    if v in s.workers {
      assert SharedInv(s.table, s.wall, v, s.workers[v]);
      LaterKeepsLocal(s.workers[v], s.mono, s'.workers[v], s'.mono);
    }
  }

  lemma TickKeepsTable(s: State, a: Action)
    requires Injective(s.table) && OwnerInv(s.table, s.workers) && !a.Step?
    ensures Injective(Next(s, a).table) && OwnerInv(Next(s, a).table, Next(s, a).workers)
  {
  }

  lemma NextKeepsInv(s: State, a: Action)
    requires Inv(s)
    ensures Inv(Next(s, a))
  {
    if a.Step? {
      if a.w in s.workers { StepKeepsInv(s, a.w, a.outcome); }
    } else {
      TickKeepsTable(s, a);
      forall v | v in Next(s, a).workers
        ensures SharedInv(Next(s, a).table, Next(s, a).wall, v, Next(s, a).workers[v])
        ensures LocalInv(Next(s, a).workers[v], Next(s, a).mono)
      {
        TickKeepsWorker(s, a, v);
      }
    }
  }

  lemma {:induction false} RunKeepsInv(s: State, actions: seq<Action>)
    requires Inv(s)
    ensures Inv(Run(s, actions))
    decreases |actions|
  {
    if actions != [] {
      NextKeepsInv(s, actions[0]);
      RunKeepsInv(Next(s, actions[0]), actions[1..]);
    }
  }

  lemma Reachable(actions: seq<Action>)
    ensures Inv(Run(Init(), actions))
  {
    RunKeepsInv(Init(), actions);
  }

  // ---------- what every run guarantees ----------

  /** The worker is inside generate_with_credential for the key. */
  ghost predicate Attempting(s: State, w: Worker, k: Key) {
    && w in s.workers && s.workers[w].pc.Attempt?
    && s.workers[w].pc.i < |s.workers[w].ordered| && s.workers[w].ordered[s.workers[w].pc.i] == k
  }

  /** At most one worker uses a credential at a time, and never one that is cooling, not even while the
      attempt lasts. */
  lemma AttemptsAreExclusiveAndWarm(actions: seq<Action>, v: Worker, w: Worker, k: Key)
    requires Attempting(Run(Init(), actions), v, k)
    ensures !Cooling(Run(Init(), actions).table, k, Run(Init(), actions).wall)
    ensures Attempting(Run(Init(), actions), w, k) ==> v == w
  {
    Reachable(actions);
    var s := Run(Init(), actions);
    assert SharedInv(s.table, s.wall, v, s.workers[v]);
    if Attempting(s, w, k) {
      assert SharedInv(s.table, s.wall, w, s.workers[w]);
    }
  }

  /** Whatever happens next, a cooldown never ends earlier than it was going to, and a key keeps the
      lock object it has. */
  lemma TableOnlyAdvances(s: State, a: Action, k: Key)
    requires Inv(s)
    ensures CooldownEnd(s.table, k) <= CooldownEnd(Next(s, a).table, k)
    ensures k in s.table.locks ==> k in Next(s, a).table.locks && Next(s, a).table.locks[k] == s.table.locks[k]
  {
    if a.Step? && a.w in s.workers {
      StepChangesTable(s, a.w, a.outcome);
    }
  }

  lemma {:induction false} RunOnlyAdvances(s: State, actions: seq<Action>, k: Key)
    requires Inv(s)
    ensures CooldownEnd(s.table, k) <= CooldownEnd(Run(s, actions).table, k)
    ensures k in s.table.locks ==>
      k in Run(s, actions).table.locks && Run(s, actions).table.locks[k] == s.table.locks[k]
    decreases |actions|
  {
    if actions != [] {
      TableOnlyAdvances(s, actions[0], k);
      NextKeepsInv(s, actions[0]);
      RunOnlyAdvances(Next(s, actions[0]), actions[1..], k);
    }
  }

  /** A run in which w itself makes no step. */
  ghost predicate Others(actions: seq<Action>, w: Worker) {
    forall i | 0 <= i < |actions| :: actions[i].Step? ==> actions[i].w != w
  }

  lemma RelyIsTransitive(t: Table, t1: Table, t2: Table, w: Worker)
    requires Rely(t, t1, w) && Rely(t1, t2, w)
    ensures Rely(t, t2, w)
  {
  }

  lemma NextIsWithinRely(s: State, a: Action, w: Worker)
    requires Inv(s) && (a.Step? ==> a.w != w)
    ensures Rely(s.table, Next(s, a).table, w)
  {
    if a.Step? && a.w in s.workers { StepIsWithinRely(s, a.w, a.outcome, w); }
  }

  lemma OthersTail(actions: seq<Action>, w: Worker)
    requires Others(actions, w) && actions != []
    ensures Others(actions[1..], w) && (actions[0].Step? ==> actions[0].w != w)
  {
    assert forall i | 0 <= i < |actions[1..]| :: actions[1..][i] == actions[i + 1];
  }

  /** Whatever any number of other workers do in any number of steps, while w makes none, stays within
      what w relies on. */
  lemma {:induction false} RunIsWithinRely(s: State, actions: seq<Action>, w: Worker)
    requires Inv(s) && Others(actions, w)
    ensures Rely(s.table, Run(s, actions).table, w)
    decreases |actions|
  {
    if actions != [] {
      var s1 := Next(s, actions[0]);
      OthersTail(actions, w);
      NextIsWithinRely(s, actions[0], w);
      NextKeepsInv(s, actions[0]);
      RunIsWithinRely(s1, actions[1..], w);
      RelyIsTransitive(s.table, s1.table, Run(s1, actions[1..]).table, w);
    }
  }

  predicate SameButCancelled(l: Local, l': Local) {
    l' == l || l' == l.(cancelled := true)
  }

  /** Meanwhile the clocks do not go back, and of w's own variables only the cancellation may change. */
  lemma {:induction false} RunLeavesOwn(s: State, actions: seq<Action>, w: Worker)
    requires Others(actions, w) && w in s.workers
    ensures var s' := Run(s, actions);
            && s.wall <= s'.wall && s.mono <= s'.mono
            && w in s'.workers && SameButCancelled(s.workers[w], s'.workers[w])
    decreases |actions|
  {
    if actions != [] {
      OthersTail(actions, w);
      RunLeavesOwn(Next(s, actions[0]), actions[1..], w);
    }
  }

  /** A penalty is served in full: once a worker has set it, no worker attempts the key, however the
      run goes on, until that much time has passed. */
  lemma PenaltiesAreServed(before: seq<Action>, w: Worker, o: Outcome, after: seq<Action>, v: Worker, k: Key)
    requires w in Run(Init(), before).workers && Run(Init(), before).workers[w].pc.Punish?
    requires var l := Run(Init(), before).workers[w]; l.pc.i < |l.ordered| && l.ordered[l.pc.i] == k
    requires Attempting(Run(Next(Run(Init(), before), Step(w, o)), after), v, k)
    ensures Run(Next(Run(Init(), before), Step(w, o)), after).wall >=
            Run(Init(), before).wall + Run(Init(), before).workers[w].pc.penalty
  {
    Reachable(before);
    var s := Run(Init(), before);
    var s1 := Next(s, Step(w, o));
    StepKeepsInv(s, w, o);
    RunOnlyAdvances(s1, after, k);
    RunKeepsInv(s1, after);
    var s2 := Run(s1, after);
    assert SharedInv(s2.table, s2.wall, v, s2.workers[v]);
  }

  /** A worker that has left, by any path, holds no lock, and a lock is held only by a worker that is
      still dealing with the key it belongs to. */
  lemma NoLockIsLeftBehind(actions: seq<Action>, lock: Lock)
    requires lock in Run(Init(), actions).table.owner
    ensures var s := Run(Init(), actions);
            var w := s.table.owner[lock];
            && w in s.workers && !s.workers[w].pc.Left? && Position(s.workers[w].pc).Some?
            && Position(s.workers[w].pc).value < |s.workers[w].ordered|
            && var k := s.workers[w].ordered[Position(s.workers[w].pc).value];
               k in s.table.locks && s.table.locks[k] == lock
  {
    Reachable(actions);
    var s := Run(Init(), actions);
    var w := s.table.owner[lock];
    assert SharedInv(s.table, s.wall, w, s.workers[w]);
  }

  /** A try-lock fails only because another worker is dealing with the same key at that moment. */
  lemma BusyMeansSameKey(actions: seq<Action>, w: Worker)
    requires w in Run(Init(), actions).workers && Run(Init(), actions).workers[w].pc.Try?
    requires Run(Init(), actions).workers[w].pc.lock in Run(Init(), actions).table.owner
    ensures var s := Run(Init(), actions);
            var l := s.workers[w];
            var v := s.table.owner[l.pc.lock];
            && v != w && v in s.workers && Position(s.workers[v].pc).Some?
            && l.pc.i < |l.ordered| && Position(s.workers[v].pc).value < |s.workers[v].ordered|
            && s.workers[v].ordered[Position(s.workers[v].pc).value] == l.ordered[l.pc.i]
  {
    Reachable(actions);
    var s := Run(Init(), actions);
    NoLockIsLeftBehind(actions, s.workers[w].pc.lock);
    assert SharedInv(s.table, s.wall, w, s.workers[w]);
  }

  /** How a worker that gave up accounts for every credential: no key was tried twice; a timeout is
      reported only once the request has expired; any other failure only after each key was tried or
      found cooling, and it is 401 exactly when some attempt ended in an error with a status and all that
      did had 401 or 403, whatever attempts ended in an unexpected exception. */
  lemma FailuresAreExplained(actions: seq<Action>, w: Worker, code: int)
    requires w in Run(Init(), actions).workers && Run(Init(), actions).workers[w].pc == Left(Failed(code))
    ensures var s := Run(Init(), actions);
            var l := s.workers[w];
            && Distinct(l.tried) && |l.outcomes| == |l.tried|
            && (code == 504 ==> Expired(l, s.mono))
            && (code != 504 ==>
                 && Keys(l.tried) + l.skipped == Keys(l.ordered)
                 && (code == 401 || code == 503)
                 && (code == 401 <==>
                      && (exists i :: 0 <= i < |l.outcomes| && HasStatus(l.outcomes[i]))
                      && forall i | 0 <= i < |l.outcomes| && HasStatus(l.outcomes[i]) :: Unauthorized(l.outcomes[i])))
  {
    Reachable(actions);
    StatusesAreReported(Run(Init(), actions).workers[w].outcomes);
  }

  /** How an attempt's end is punished: the worker goes on to set the cooldown before it lets go of the lock,
      or lets go at once. */
  lemma EndsArePunished(actions: seq<Action>, w: Worker, o: Outcome)
    requires w in Run(Init(), actions).workers && Run(Init(), actions).workers[w].pc.Attempt?
    ensures var l := Run(Init(), actions).workers[w];
            var pc := Next(Run(Init(), actions), Step(w, o)).workers[w].pc;
            && (o.Upstream? && o.status in {401, 403} ==> pc == Punish(l.pc.i, l.pc.lock, 300_000_000_000))
            && (o.Upstream? && o.status == 429 ==> pc == Punish(l.pc.i, l.pc.lock, 120_000_000_000))
            && (o.Upstream? && o.status !in {401, 403, 429} && o.retryable ==>
                 pc == Punish(l.pc.i, l.pc.lock, 30_000_000_000))
            && (o.Upstream? && o.status !in {401, 403, 429} && !o.retryable ==> pc == Unlock(l.pc.i, l.pc.lock, false))
            && (o.Crash? ==> pc == Punish(l.pc.i, l.pc.lock, 15_000_000_000))
            && (o.Helper? ==> pc == Unlock(l.pc.i, l.pc.lock, false))
            && (o.Success? ==> pc == Unlock(l.pc.i, l.pc.lock, true))
  {
  }

  /** Only an attempt adds an outcome, and nothing else changes whether the worker has succeeded. */
  predicate LeavesSuccess(l: Local, l': Local) {
    l'.outcomes == l.outcomes && HasSucceeded(l'.pc) == HasSucceeded(l.pc)
  }

  lemma LoopingLeavesSuccess(t: Table, wall: int, mono: int, w: Worker, l: Local, outcome: Outcome)
    requires Looping(l.pc)
    ensures LeavesSuccess(l, WorkerStep(t, wall, mono, w, l, outcome).1)
  {
  }

  lemma LockingLeavesSuccess(t: Table, wall: int, mono: int, w: Worker, l: Local, outcome: Outcome)
    requires !Looping(l.pc) && !l.pc.Attempt?
    ensures LeavesSuccess(l, WorkerStep(t, wall, mono, w, l, outcome).1)
  {
  }

  lemma AttemptKeepsSuccess(t: Table, wall: int, mono: int, w: Worker, l: Local, outcome: Outcome)
    requires SuccessIsLast(l) && l.pc.Attempt?
    ensures SuccessIsLast(WorkerStep(t, wall, mono, w, l, outcome).1)
  {
    assert WorkerStep(t, wall, mono, w, l, outcome).1.outcomes == l.outcomes + [outcome];
  }

  lemma StepKeepsSuccess(t: Table, wall: int, mono: int, w: Worker, l: Local, outcome: Outcome)
    requires SuccessIsLast(l)
    ensures SuccessIsLast(WorkerStep(t, wall, mono, w, l, outcome).1)
  {
    if l.pc.Attempt? { AttemptKeepsSuccess(t, wall, mono, w, l, outcome); }
    else if Looping(l.pc) { LoopingLeavesSuccess(t, wall, mono, w, l, outcome); }
    else { LockingLeavesSuccess(t, wall, mono, w, l, outcome); }
  }

  lemma {:induction false} RunKeepsSuccess(s: State, actions: seq<Action>)
    requires forall w | w in s.workers :: SuccessIsLast(s.workers[w])
    ensures forall w | w in Run(s, actions).workers :: SuccessIsLast(Run(s, actions).workers[w])
    decreases |actions|
  {
    if actions != [] {
      var a := actions[0];
      forall w | w in Next(s, a).workers
        ensures SuccessIsLast(Next(s, a).workers[w])
      {
        if a.Step? && a.w == w && w in s.workers {
          StepKeepsSuccess(s.table, s.wall, s.mono, w, s.workers[w], a.outcome);
        }
      }
      RunKeepsSuccess(Next(s, a), actions[1..]);
    }
  }

  /** A worker returns exactly if an attempt of its own has succeeded, which then was its last. */
  lemma ReturnsIffSucceeded(actions: seq<Action>, w: Worker)
    requires w in Run(Init(), actions).workers && Run(Init(), actions).workers[w].pc.Left?
    ensures var l := Run(Init(), actions).workers[w];
            && (l.pc == Left(Returned) <==> exists i :: 0 <= i < |l.outcomes| && l.outcomes[i] == Success)
            && (forall i | 0 <= i < |l.outcomes| && l.outcomes[i] == Success :: i == |l.outcomes| - 1)
  {
    RunKeepsSuccess(Init(), actions);
    assert SuccessIsLast(Run(Init(), actions).workers[w]);
  }

  /** A key that is not cooling and whose lock is free or has not been made yet is attempted with the worker's next
      three steps. */
  lemma FreeKeysAreAttempted(actions: seq<Action>, w: Worker, o: Outcome, k: Key)
    requires var s := Run(Init(), actions);
      && w in s.workers && s.workers[w].pc.Look? && s.workers[w].pc.i < |s.workers[w].ordered|
      && s.workers[w].ordered[s.workers[w].pc.i] == k
      && !Cooling(s.table, k, s.wall) && (k in s.table.locks ==> s.table.locks[k] !in s.table.owner)
    ensures var s := Run(Init(), actions);
            Attempting(Next(Next(Next(s, Step(w, o)), Step(w, o)), Step(w, o)), w, k)
  {
    Reachable(actions);
    var s := Run(Init(), actions);
    OwnedLocksAreMade(s);
    LooksUp(s, w, o, k);
    TakesAndAttempts(Next(s, Step(w, o)), w, o, k);
  }

  lemma TakesAndAttempts(s: State, w: Worker, o: Outcome, k: Key)
    requires w in s.workers && s.workers[w].pc.Try? && s.workers[w].pc.lock !in s.table.owner
    requires s.workers[w].pc.i < |s.workers[w].ordered| && s.workers[w].ordered[s.workers[w].pc.i] == k
    requires !Cooling(s.table, k, s.wall)
    ensures Attempting(Next(Next(s, Step(w, o)), Step(w, o)), w, k)
  {
    var l := s.workers[w];
    assert Next(s, Step(w, o)).workers[w] == l.(pc := Recheck(l.pc.i, l.pc.lock));
  }

  lemma OwnedLocksAreMade(s: State)
    requires Inv(s)
    ensures forall l | l in s.table.owner :: l < s.table.made
  {
    forall l | l in s.table.owner
      ensures l < s.table.made
    {
      var v := s.table.owner[l];
      assert SharedInv(s.table, s.wall, v, s.workers[v]);
    }
  }

  lemma LooksUp(s: State, w: Worker, o: Outcome, k: Key)
    requires w in s.workers && s.workers[w].pc.Look? && s.workers[w].pc.i < |s.workers[w].ordered|
    requires s.workers[w].ordered[s.workers[w].pc.i] == k && Injective(s.table) && OwnerInv(s.table, s.workers)
    requires k in s.table.locks ==> s.table.locks[k] !in s.table.owner
    requires forall l | l in s.table.owner :: l < s.table.made
    ensures var s1 := Next(s, Step(w, o));
            w in s1.workers && s1.workers[w].pc.Try? && s1.workers[w].pc.lock !in s1.table.owner
            && s1.workers[w] == s.workers[w].(pc := s1.workers[w].pc) && s1.workers[w].pc.i == s.workers[w].pc.i
            && s1.table.cooldowns == s.table.cooldowns && s1.wall == s.wall
  {
  }

  lemma GivesUpOnTime(t: Table, wall: int, mono: int, w: Worker, l: Local, outcome: Outcome)
    requires !l.pc.Left?
    ensures var l' := WorkerStep(t, wall, mono, w, l, outcome).1;
            l'.pc.Left? && l'.pc.result.Failed? ==> (l'.pc.result.code == 504 <==> Expired(l, mono))
  {
  }

  /** A nap ends 20 ms later or at the deadline, and the worker goes on only then or when it is cancelled. */
  lemma NapsLast(t: Table, wall: int, mono: int, w: Worker, l: Local, outcome: Outcome)
    ensures var l' := WorkerStep(t, wall, mono, w, l, outcome).1;
            && (l.pc.Sleep? && l'.pc.Sleeping? ==>
                 mono < l'.pc.until <= mono + 20_000_000
                 && (l'.pc.until == mono + 20_000_000 || l'.pc.until >= l.deadline))
            && (l.pc.Sleeping? && !l'.pc.Sleeping? ==> l.cancelled || mono >= l.pc.until)
  {
  }

  /** The step with which a worker gives up reports 504 exactly if the request has expired by then. */
  lemma TimeoutIffExpired(actions: seq<Action>, w: Worker, o: Outcome)
    requires var s := Run(Init(), actions); w in s.workers && !s.workers[w].pc.Left?
    requires Next(Run(Init(), actions), Step(w, o)).workers[w].pc.Left?
    requires Next(Run(Init(), actions), Step(w, o)).workers[w].pc.result.Failed?
    ensures var s := Run(Init(), actions);
            Next(s, Step(w, o)).workers[w].pc.result.code == 504 <==> Expired(s.workers[w], s.mono)
  {
    var s := Run(Init(), actions);
    GivesUpOnTime(s.table, s.wall, s.mono, w, s.workers[w], o);
  }
}
