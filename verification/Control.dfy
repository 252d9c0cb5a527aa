/** Clock units shared by the Go and Python sides: integer nanoseconds. */
module Clock {
  const MILLISECOND := 1_000_000
  const SECOND := 1_000_000_000

  function Min(a: int, b: int): int { if a <= b then a else b }
  function Max(a: int, b: int): int { if a >= b then a else b }
}

/** The per-request deadline and cancellation object of helper/control.py. */
module Control {
  import opened Clock
  import opened Wrappers

  type Resource = nat

  /** What `timeout` hands out at time `now`: a wait, or the 504 error. */
  function TimeoutAt(deadline: int, cancelled: bool, now: int, maximum: Option<int>): Option<int> {
    var remaining := deadline - now;
    if cancelled || remaining <= 0 then None
    else match maximum
      case Some(m) => Some(Max(MILLISECOND, Min(remaining, m)))
      case None => Some(Max(MILLISECOND, remaining))
  }

  predicate ExpiredAt(deadline: int, cancelled: bool, now: int) {
    cancelled || now >= deadline
  }

  /** No wait is handed out once the request has expired, and one that is handed out ends less than
      a millisecond after the deadline. It reaches the maximum or the deadline. */
  lemma TimeoutsEndInTime(deadline: int, cancelled: bool, now: int, maximum: Option<int>)
    ensures var t := TimeoutAt(deadline, cancelled, now, maximum);
            && (t.None? <==> ExpiredAt(deadline, cancelled, now))
            && (t.Some? ==> t.value >= MILLISECOND && now + t.value < deadline + MILLISECOND)
            && (t.Some? && maximum.Some? ==> t.value <= Max(maximum.value, MILLISECOND))
            && (t.Some? && maximum.Some? ==> t.value >= maximum.value || now + t.value >= deadline)
            && (t.Some? && maximum.None? ==> now + t.value >= deadline)
  {
  }

  class RequestControl {
    const deadline: int
    var cancelled: bool
    var resources: set<Resource>
    var closed: set<Resource> // the resources on which close() has been called

    constructor (now: int, timeout: int)
      ensures deadline == now + Max(timeout, 10 * MILLISECOND) && deadline > now
      ensures !cancelled && resources == {} && closed == {}
    {
      deadline := now + Max(timeout, 10 * MILLISECOND);
      cancelled, resources, closed := false, {}, {};
    }

    method Timeout(now: int, maximum: Option<int>) returns (r: Option<int>)
      ensures r == TimeoutAt(deadline, cancelled, now, maximum)
    {
      var remaining := deadline - now;
      if cancelled || remaining <= 0 { return None; }
      if maximum.Some? {
        r := Some(Max(MILLISECOND, Min(remaining, maximum.value)));
      } else {
        r := Some(Max(MILLISECOND, remaining));
      }
    }

    method Expired(now: int) returns (r: bool)
      ensures r == ExpiredAt(deadline, cancelled, now)
    {
      r := cancelled || now >= deadline;
    }

    /** Returns false where the source raises the 504 error. */
    method Register(resource: Resource) returns (ok: bool)
      modifies this
      ensures cancelled == old(cancelled) && ok == !cancelled
      ensures resources == if ok then old(resources) + {resource} else old(resources)
      ensures closed == if ok then old(closed) else old(closed) + {resource}
    {
      if cancelled {
        closed := closed + {resource};
        return false;
      }
      resources := resources + {resource};
      ok := true;
    }

    method Unregister(resource: Resource)
      modifies this
      ensures resources == old(resources) - {resource}
      ensures cancelled == old(cancelled) && closed == old(closed)
    {
      resources := resources - {resource};
    }

    method Cancel()
      modifies this
      ensures cancelled && resources == old(resources) && closed == old(closed) + resources
    {
      cancelled := true;
      var todo := resources;
      while todo != {}
        invariant cancelled && resources == old(resources)
        invariant todo <= resources && closed == old(closed) + (resources - todo)
        decreases |todo|
      {
        var resource :| resource in todo;
        closed := closed + {resource};
        todo := todo - {resource};
      }
    }
  }
}

/** The same object used by several threads at once, one step per lock operation, flag access and
    table access (helper/control.py:39-61). */
module ControlRaces {
  type Thread = nat
  type Resource = nat

  datatype Pc =
    // register(r)
    | RegStart(r: Resource)   // about to take the lock
    | RegCheck(r: Resource)   // holds it, about to read the flag
    | RegAdd(r: Resource)     // saw the flag clear
    | RegClose(r: Resource)   // saw the flag set
    | RegUnlock(r: Resource)
    // unregister(r)
    | UnregStart(r: Resource)
    | UnregDiscard(r: Resource)
    | UnregUnlock(r: Resource)
    // cancel()
    | CancelStart             // about to set the flag
    | CancelLock
    | CancelSnapshot
    | CancelUnlock(todo: set<Resource>)
    | CancelClosing(todo: set<Resource>)
    | CancelDone
    | Returned

  /** `passed` records the resources whose register call has ended; `gone` those that were
      unregistered and not registered again since. */
  datatype State = State(flag: bool, lock: set<Thread>, resources: set<Resource>, closed: set<Resource>,
                         threads: map<Thread, Pc>, passed: set<Resource>, gone: set<Resource>)

  datatype Action =
    | Call(t: Thread, entry: Pc)
    | Step(t: Thread, pick: Resource)

  function Init(): State {
    State(false, {}, {}, {}, map[], {}, {})
  }

  predicate IsEntry(pc: Pc) { pc.RegStart? || pc.UnregStart? || pc.CancelStart? }

  function Goto(s: State, t: Thread, pc: Pc): State {
    s.(threads := s.threads[t := pc])
  }

  function Lock(s: State, t: Thread, pc: Pc): State {
    if s.lock == {} then Goto(s.(lock := {t}), t, pc) else s
  }

  function Unlock(s: State, t: Thread, pc: Pc): State {
    Goto(s.(lock := s.lock - {t}), t, pc)
  }

  function Next(s: State, a: Action): State {
    match a
    case Call(t, entry) => if t in s.threads || !IsEntry(entry) then s else Goto(s, t, entry)
    case Step(t, pick) =>
      if t !in s.threads then s else
      match s.threads[t]
      case RegStart(r) => Lock(s, t, RegCheck(r))
      case RegCheck(r) => Goto(s, t, if s.flag then RegClose(r) else RegAdd(r))
      case RegAdd(r) => Goto(s.(resources := s.resources + {r}, gone := s.gone - {r}), t, RegUnlock(r))
      case RegClose(r) => Goto(s.(closed := s.closed + {r}), t, RegUnlock(r))
      case RegUnlock(r) => Unlock(s.(passed := s.passed + {r}), t, Returned)
      case UnregStart(r) => Lock(s, t, UnregDiscard(r))
      case UnregDiscard(r) => Goto(s.(resources := s.resources - {r}, gone := s.gone + {r}), t, UnregUnlock(r))
      case UnregUnlock(r) => Unlock(s, t, Returned)
      case CancelStart => Goto(s.(flag := true), t, CancelLock)
      case CancelLock => Lock(s, t, CancelSnapshot)
      case CancelSnapshot => Goto(s, t, CancelUnlock(s.resources))
      case CancelUnlock(todo) => Unlock(s, t, CancelClosing(todo))
      case CancelClosing(todo) =>
        if todo == {} then Goto(s, t, CancelDone)
        else if pick in todo then Goto(s.(closed := s.closed + {pick}), t, CancelClosing(todo - {pick}))
        else s
      case CancelDone => s
      case Returned => s
  }

  function Run(s: State, actions: seq<Action>): State
    decreases |actions|
  {
    if actions == [] then s else Run(Next(s, actions[0]), actions[1..])
  }

  predicate Holds(pc: Pc) {
    || pc.RegCheck? || pc.RegAdd? || pc.RegClose? || pc.RegUnlock?
    || pc.UnregDiscard? || pc.UnregUnlock? || pc.CancelSnapshot? || pc.CancelUnlock?
  }

  /** The cancel has taken its snapshot; what it still has to close. */
  predicate HasSnapshot(pc: Pc) { pc.CancelUnlock? || pc.CancelClosing? || pc.CancelDone? }

  function Todo(pc: Pc): set<Resource> {
    match pc
    case CancelUnlock(todo) => todo
    case CancelClosing(todo) => todo
    case _ => {}
  }

  ghost predicate LockInv(s: State) {
    && (forall t :: t in s.lock <==> t in s.threads && Holds(s.threads[t]))
    && (forall t, u :: t in s.lock && u in s.lock ==> t == u)
  }

  ghost predicate Accounted(s: State, r: Resource) {
    r in s.resources || r in s.closed || r in s.gone
  }

  /** What the position of one thread says about the shared state. */
  ghost predicate ThreadInv(s: State, pc: Pc) {
    && (pc.CancelLock? || pc.CancelSnapshot? || HasSnapshot(pc) ==> s.flag)
    && (pc.RegUnlock? ==> Accounted(s, pc.r))
    && (HasSnapshot(pc) ==> s.resources <= s.closed + Todo(pc))
  }

  ghost predicate Inv(s: State) {
    && LockInv(s)
    && (forall t :: t in s.threads ==> ThreadInv(s, s.threads[t]))
    && (forall r :: r in s.passed ==> Accounted(s, r))
    && (forall t, u :: t in s.threads && u in s.threads && HasSnapshot(s.threads[t]) ==> !s.threads[u].RegAdd?)
  }

  lemma RegisterKeepsInv(s: State, t: Thread, pick: Resource)
    requires Inv(s) && t in s.threads
    requires var pc := s.threads[t]; pc.RegStart? || pc.RegCheck? || pc.RegAdd? || pc.RegClose? || pc.RegUnlock?
    ensures Inv(Next(s, Step(t, pick)))
  {
    var s' := Next(s, Step(t, pick));
    forall u | u in s'.threads
      ensures ThreadInv(s', s'.threads[u])
    {
      assert u != t ==> ThreadInv(s, s.threads[u]);
    }
    assert LockInv(s');
  }

  lemma UnregisterKeepsInv(s: State, t: Thread, pick: Resource)
    requires Inv(s) && t in s.threads
    requires var pc := s.threads[t]; pc.UnregStart? || pc.UnregDiscard? || pc.UnregUnlock?
    ensures Inv(Next(s, Step(t, pick)))
  {
    var s' := Next(s, Step(t, pick));
    forall u | u in s'.threads
      ensures ThreadInv(s', s'.threads[u])
    {
      assert u != t ==> ThreadInv(s, s.threads[u]);
    }
    assert LockInv(s');
  }

  lemma CancelKeepsInv(s: State, t: Thread, pick: Resource)
    requires Inv(s) && t in s.threads
    requires var pc := s.threads[t]; pc.CancelStart? || pc.CancelLock? || pc.CancelSnapshot?
    ensures Inv(Next(s, Step(t, pick)))
  {
    var s' := Next(s, Step(t, pick));
    forall u | u in s'.threads
      ensures ThreadInv(s', s'.threads[u])
    {
      assert u != t ==> ThreadInv(s, s.threads[u]);
    }
    assert LockInv(s');
  }

  lemma ClosingKeepsInv(s: State, t: Thread, pick: Resource)
    requires Inv(s) && t in s.threads && HasSnapshot(s.threads[t])
    ensures Inv(Next(s, Step(t, pick)))
  {
    var s' := Next(s, Step(t, pick));
    forall u | u in s'.threads
      ensures ThreadInv(s', s'.threads[u])
    {
      assert u != t ==> ThreadInv(s, s.threads[u]);
    }
    assert LockInv(s');
  }

  lemma NextKeepsInv(s: State, a: Action)
    requires Inv(s)
    ensures Inv(Next(s, a))
  {
    match a {
      case Call(t, entry) =>
        var s' := Next(s, a);
        forall u | u in s'.threads
          ensures ThreadInv(s', s'.threads[u])
        {
          assert u != t ==> ThreadInv(s, s.threads[u]);
        }
      case Step(t, pick) =>
        if t in s.threads {
          match s.threads[t] {
            case RegStart(_) => RegisterKeepsInv(s, t, pick);
            case RegCheck(_) => RegisterKeepsInv(s, t, pick);
            case RegAdd(_) => RegisterKeepsInv(s, t, pick);
            case RegClose(_) => RegisterKeepsInv(s, t, pick);
            case RegUnlock(_) => RegisterKeepsInv(s, t, pick);
            case UnregStart(_) => UnregisterKeepsInv(s, t, pick);
            case UnregDiscard(_) => UnregisterKeepsInv(s, t, pick);
            case UnregUnlock(_) => UnregisterKeepsInv(s, t, pick);
            case Returned =>
            case CancelStart => CancelKeepsInv(s, t, pick);
            case CancelLock => CancelKeepsInv(s, t, pick);
            case CancelSnapshot => CancelKeepsInv(s, t, pick);
            case _ => ClosingKeepsInv(s, t, pick);
          }
        }
    }
  }

  lemma {:induction false} RunKeepsInv(s: State, actions: seq<Action>)
    requires Inv(s)
    ensures Inv(Run(s, actions))
    decreases |actions|
  {
    if actions != [] {
      NextKeepsInv(s, actions[0]);
      RunKeepsInv(Next(s, actions[0]), actions[1..]);
    }
  }

  /** In every interleaving, once some cancel has finished, every resource whose register call has
      ended was closed, or has been unregistered since. */
  lemma CancelLeavesNothingOpen(actions: seq<Action>)
    ensures var s := Run(Init(), actions);
            (exists t :: t in s.threads && s.threads[t].CancelDone?) ==>
              forall r :: r in s.passed ==> r in s.closed || r in s.gone
  {
    RunKeepsInv(Init(), actions);
  }
}
