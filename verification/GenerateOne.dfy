/** generate_one (helper/protocol.py:140-199) as the loop of one worker. Between any two of its steps
    other workers may do whatever Scheduler proves they stay within (StepIsWithinRely), and time passes. */
module GenerateOne {
  import opened Clock
  import opened CredentialTable
  import opened Scheduler

  datatype Moment = Moment(table: Table, wall: int, mono: int, cancelled: bool)

  /** Clocks and cooldowns have advanced, and a cancellation lasts. */
  ghost predicate Later(a: Moment, b: Moment) {
    a.wall <= b.wall && a.mono <= b.mono && (a.cancelled ==> b.cancelled) && NoneEarlier(a.table, b.table)
  }

  ghost predicate HoldsNothing(t: Table, w: Worker) {
    forall l :: !HoldsLock(t, w, l)
  }

  class Environment {
    const registry: Registry
    const deadline: int
    var wall: int
    var mono: int
    var cancelled: bool
    var naps: nat // history: how often the worker has gone to sleep

    constructor (registry: Registry, deadline: int, wall: int, mono: int)
      ensures this.registry == registry && this.deadline == deadline
      ensures this.wall == wall && this.mono == mono && !cancelled && naps == 0
    {
      this.registry := registry;
      this.deadline := deadline;
      this.wall, this.mono, cancelled, naps := wall, mono, false, 0;
    }

    ghost function Now(): Moment
      reads this, registry
    {
      Moment(registry.table, wall, mono, cancelled)
    }

    /** Anything the other workers and the clocks may do while w is between two steps. */
    method Interfere(w: Worker)
      modifies this`wall, this`mono, this`cancelled, registry`table
      ensures Rely(old(registry.table), registry.table, w) && Later(old(Now()), Now())
    {
      var wall', mono', cancelled' := ReadClocks();
      wall, mono, cancelled := Max(wall, wall'), Max(mono, mono'), cancelled || cancelled';
    }

    method ReadClocks() returns (wall: int, mono: int, cancelled: bool)
    {
      wall, mono, cancelled := *, *, *;
    }

    method IsExpired(w: Worker) returns (r: bool)
      modifies this`wall, this`mono, this`cancelled, registry`table
      ensures Rely(old(registry.table), registry.table, w) && Later(old(Now()), Now())
      ensures r <==> cancelled || mono >= deadline
    {
      Interfere(w);
      r := cancelled || mono >= deadline;
    }

    /** The wait of 20 ms: false where it raises the timeout error. A wait that is not cut short by
        a cancellation lasts as long as it was asked to. */
    method Nap(w: Worker) returns (ok: bool)
      modifies this, registry`table
      ensures Rely(old(registry.table), registry.table, w) && Later(old(Now()), Now())
      ensures ok ==> !cancelled && mono < deadline && mono >= old(mono) + 20_000_000
      ensures !ok ==> cancelled || mono >= deadline
      // it goes to sleep exactly if there is still time then, and is counted as often as it sleeps
      ensures naps == old(naps) || (naps == old(naps) + 1 && old(mono) < deadline)
      ensures ok ==> naps == old(naps) + 1
      ensures naps == old(naps) + 1 && !cancelled ==> mono >= old(mono) + Min(20_000_000, deadline - old(mono))
    {
      var gone := IsExpired(w);
      if gone { return false; }
      naps := naps + 1;
      var until := mono + Min(NAP, Max(MILLISECOND, deadline - mono));
      Interfere(w);
      if !cancelled { mono := Max(mono, until); }
      ok := !cancelled && mono < deadline;
    }
  }

  /** `Interfere` promises what any number of steps of the other workers comes to. */
  lemma InterferenceIsOthersRunning(s: State, actions: seq<Action>, w: Worker)
    requires Scheduler.Inv(s) && w in s.workers && Others(actions, w)
    ensures var s' := Run(s, actions);
            && Rely(s.table, s'.table, w)
            && w in s'.workers
            && Later(Moment(s.table, s.wall, s.mono, s.workers[w].cancelled),
                     Moment(s'.table, s'.wall, s'.mono, s'.workers[w].cancelled))
  {
    RunIsWithinRely(s, actions, w);
    RunLeavesOwn(s, actions, w);
  }

  datatype Turn = Skipped | Busy | Tried(outcome: Outcome)

  /** A cooldown that was set for that long at some time from `from` to `to`. */
  predicate CooledFor(end: int, duration: int, from: int, to: int) {
    from + duration <= end <= to + duration
  }

  /** When a key's cooldown ends after an attempt that was made between `from` and `to`, in nanoseconds; `before`
      is when it was to end before. */
  predicate IsPunished(o: Outcome, before: int, end: int, from: int, to: int) {
    && (o.Upstream? && (o.status == 401 || o.status == 403) ==> CooledFor(end, 300_000_000_000, from, to))
    && (o.Upstream? && o.status == 429 ==> CooledFor(end, 120_000_000_000, from, to))
    && (o.Upstream? && o.status !in {401, 403, 429} && o.retryable ==> CooledFor(end, 30_000_000_000, from, to))
    && (o.Crash? ==> CooledFor(end, 15_000_000_000, from, to))
    && (o.Success? || o.Helper? || (o.Upstream? && o.status !in {401, 403, 429} && !o.retryable) ==> end == before)
  }

  lemma PenaltyPunishes(o: Outcome, before: int, now: int, from: int, to: int)
    requires from <= now <= to
    ensures IsPunished(o, before, if Penalty(o) > 0 then now + Penalty(o) else before, from, to)
  {
  }

  /** One credential's turn in a round: the body of the for loop after the `attempted` test. */
  method TakeTurn(env: Environment, w: Worker, key: Key, answer: Outcome) returns (turn: Turn)
    requires HoldsNothing(env.registry.table, w)
    modifies env`wall, env`mono, env`cancelled, env.registry`table
    ensures HoldsNothing(env.registry.table, w) && Later(old(env.Now()), env.Now())
    ensures turn.Skipped? ==> CooldownEnd(env.registry.table, key) > old(env.wall)
    ensures turn.Busy? ==> key in env.registry.table.locks && env.registry.table.locks[key] in env.registry.table.owner
    ensures turn.Tried? ==> turn.outcome == answer
    ensures turn.Tried? ==>
      exists before :: CooldownEnd(old(env.registry.table), key) <= before &&
        IsPunished(answer, before, CooldownEnd(env.registry.table, key), old(env.wall), env.wall)
  {
    env.Interfere(w);
    var cooling := env.registry.IsCooling(key, env.wall);
    if cooling { return Skipped; }
    env.Interfere(w);
    var lock := env.registry.LockOf(key);
    env.Interfere(w);
    var free := env.registry.TryAcquire(lock, w);
    if !free { return Busy; }
    ghost var before, from := CooldownEnd(env.registry.table, key), env.wall;
    turn := UseCredential(env, w, key, lock, answer);
    if turn.Tried? {
      assert IsPunished(answer, before, CooldownEnd(env.registry.table, key), from, env.wall);
      assert IsPunished(answer, before, CooldownEnd(env.registry.table, key), old(env.wall), env.wall);
    }
  }

  /** The part of the turn that runs under the lock, and the release in the finally clause. The lock is
      the key's, so nobody else changes the key's cooldown meanwhile. */
  method UseCredential(env: Environment, w: Worker, key: Key, lock: Lock, answer: Outcome) returns (turn: Turn)
    requires key in env.registry.table.locks && env.registry.table.locks[key] == lock
    requires forall l :: HoldsLock(env.registry.table, w, l) <==> l == lock
    modifies env`wall, env`mono, env`cancelled, env.registry`table
    ensures HoldsNothing(env.registry.table, w) && Later(old(env.Now()), env.Now())
    ensures turn == Skipped || turn == Tried(answer)
    ensures turn.Skipped? ==> CooldownEnd(env.registry.table, key) > old(env.wall)
    ensures turn.Tried? ==> IsPunished(answer, CooldownEnd(old(env.registry.table), key),
                                       CooldownEnd(env.registry.table, key), old(env.wall), env.wall)
  {
    assert HoldsLock(env.registry.table, w, lock);
    env.Interfere(w);
    var cooling := env.registry.IsCooling(key, env.wall);
    if cooling {
      env.registry.Release(lock);
      return Skipped;
    }
    Attempt(env, w, key, lock, answer);
    turn := Tried(answer);
  }

  /** The try block with its handlers: the attempt, the penalty of its end, and the release. */
  method Attempt(env: Environment, w: Worker, key: Key, lock: Lock, answer: Outcome)
    requires key in env.registry.table.locks && env.registry.table.locks[key] == lock
    requires forall l :: HoldsLock(env.registry.table, w, l) <==> l == lock
    requires !Cooling(env.registry.table, key, env.wall)
    modifies env`wall, env`mono, env`cancelled, env.registry`table
    ensures HoldsNothing(env.registry.table, w) && Later(old(env.Now()), env.Now())
    ensures IsPunished(answer, CooldownEnd(old(env.registry.table), key), CooldownEnd(env.registry.table, key),
                       old(env.wall), env.wall)
  {
    assert HoldsLock(env.registry.table, w, lock);
    env.Interfere(w); // the attempt itself
    ghost var before, now := CooldownEnd(env.registry.table, key), env.wall;
    if Penalty(answer) > 0 {
      env.registry.SetCooldown(key, env.wall, Penalty(answer));
    }
    assert HoldsLock(env.registry.table, w, lock);
    env.Interfere(w);
    env.registry.Release(lock);
    PenaltyPunishes(answer, before, now, old(env.wall), env.wall);
  }

  /** The worker's variables, with two of them history: the keys tried in order and those passed over. */
  datatype Progress = Progress(attempted: set<Key>, statuses: seq<int>, tried: seq<Key>, skipped: set<Key>)

  /** The outcomes of the first n attempts. */
  ghost function Answers(answers: nat -> Outcome, n: nat): seq<Outcome> {
    if n == 0 then [] else Answers(answers, n - 1) + [answers(n - 1)]
  }

  /** Every key is accounted for; a key was passed over only if it was cooling after `since`. */
  ghost predicate Accounts(p: Progress, ordered: seq<Key>, answers: nat -> Outcome, since: int, t: Table) {
    && p.attempted == Keys(p.tried) + p.skipped && p.attempted <= Keys(ordered)
    && Distinct(p.tried) && (forall k :: k in p.tried ==> k !in p.skipped)
    && p.statuses == Statuses(Answers(answers, |p.tried|))
    && (forall k :: k in p.skipped ==> CooldownEnd(t, k) > since)
  }

  ghost predicate NoSuccess(answers: nat -> Outcome, n: nat) {
    forall i: nat | i < n :: answers(i) != Success
  }

  /** What the worker's variables become after the turn of key k. */
  function AfterTurn(p: Progress, k: Key, turn: Turn): Progress {
    match turn
    case Busy => p
    case Skipped => p.(attempted := p.attempted + {k}, skipped := p.skipped + {k})
    case Tried(outcome) =>
      p.(attempted := p.attempted + {k}, tried := p.tried + [k], statuses := p.statuses + Statuses([outcome]))
  }

  /** What the code of a failure that is no timeout says about the first n attempts. */
  ghost predicate Explains(code: int, answers: nat -> Outcome, n: nat) {
    && (code == 401 || code == 503)
    && (code == 401 <==> (exists i: nat :: i < n && HasStatus(answers(i)))
                         && (forall i: nat | i < n && HasStatus(answers(i)) :: Unauthorized(answers(i))))
  }

  lemma {:induction false} AnswersAt(answers: nat -> Outcome, n: nat)
    ensures |Answers(answers, n)| == n && forall i: nat | i < n :: Answers(answers, n)[i] == answers(i)
  {
    if n > 0 { AnswersAt(answers, n - 1); }
  }

  lemma VerdictExplains(answers: nat -> Outcome, n: nat)
    ensures Explains(Verdict(false, Statuses(Answers(answers, n))), answers, n)
  {
    var outcomes := Answers(answers, n);
    AnswersAt(answers, n);
    StatusesAreReported(outcomes);
    if Statuses(outcomes) != [] {
      var i :| 0 <= i < |outcomes| && HasStatus(outcomes[i]);
      assert HasStatus(answers(i));
    }
    if AllUnauthorized(Statuses(outcomes)) {
      forall i: nat | i < n && HasStatus(answers(i))
        ensures Unauthorized(answers(i))
      {
        assert HasStatus(outcomes[i]);
      }
    }
  }

  lemma AccountsForSkip(p: Progress, ordered: seq<Key>, answers: nat -> Outcome, since: int, t: Table, k: Key)
    requires Accounts(p, ordered, answers, since, t) && k in ordered && k !in p.attempted && CooldownEnd(t, k) > since
    ensures Accounts(AfterTurn(p, k, Skipped), ordered, answers, since, t)
  {
    assert p.attempted + {k} == Keys(p.tried) + (p.skipped + {k});
  }

  lemma AccountsForTry(p: Progress, ordered: seq<Key>, answers: nat -> Outcome, since: int, t: Table, k: Key)
    requires Accounts(p, ordered, answers, since, t) && k in ordered && k !in p.attempted
    ensures Accounts(AfterTurn(p, k, Tried(answers(|p.tried|))), ordered, answers, since, t)
  {
    assert Keys(p.tried + [k]) == Keys(p.tried) + {k};
    StatusesAppend(Answers(answers, |p.tried|), answers(|p.tried|));
  }

  lemma AccountsLater(p: Progress, ordered: seq<Key>, answers: nat -> Outcome, since: int, t: Table, t': Table)
    requires Accounts(p, ordered, answers, since, t) && NoneEarlier(t, t')
    ensures Accounts(p, ordered, answers, since, t')
  {
  }

  lemma AccountsForTurn(p: Progress, ordered: seq<Key>, answers: nat -> Outcome, since: int, t: Table, t': Table,
                        k: Key, turn: Turn)
    requires Accounts(p, ordered, answers, since, t) && NoneEarlier(t, t') && k in ordered && k !in p.attempted
    requires turn.Skipped? ==> CooldownEnd(t', k) > since
    requires turn.Tried? ==> turn.outcome == answers(|p.tried|)
    ensures Accounts(AfterTurn(p, k, turn), ordered, answers, since, t')
  {
    AccountsLater(p, ordered, answers, since, t, t');
    if turn.Skipped? { AccountsForSkip(p, ordered, answers, since, t', k); }
    if turn.Tried? { AccountsForTry(p, ordered, answers, since, t', k); }
  }

  /** One credential's turn, written down in the worker's variables. */
  method RecordTurn(env: Environment, w: Worker, ordered: seq<Key>, answers: nat -> Outcome, p: Progress, key: Key,
                    ghost since: int)
    returns (p': Progress, turn: Turn)
    requires HoldsNothing(env.registry.table, w) && since <= env.wall
    requires Accounts(p, ordered, answers, since, env.registry.table) && key in ordered && key !in p.attempted
    modifies env`wall, env`mono, env`cancelled, env.registry`table
    ensures HoldsNothing(env.registry.table, w) && Later(old(env.Now()), env.Now())
    ensures Accounts(p', ordered, answers, since, env.registry.table) && p' == AfterTurn(p, key, turn)
    ensures turn.Tried? ==> turn.outcome == answers(|p.tried|)
  {
    ghost var before := env.registry.table;
    turn := TakeTurn(env, w, key, answers(|p.tried|));
    AccountsForTurn(p, ordered, answers, since, before, env.registry.table, key, turn);
    p' := AfterTurn(p, key, turn);
  }

  /** One pass over the credentials. Unless some lock was taken, it leaves no key unattempted. */
  method Round(env: Environment, w: Worker, ordered: seq<Key>, answers: nat -> Outcome, start: Progress,
               ghost since: int)
    returns (p: Progress, busy: bool, progressed: bool, success: bool)
    requires HoldsNothing(env.registry.table, w) && since <= env.wall
    requires Accounts(start, ordered, answers, since, env.registry.table) && NoSuccess(answers, |start.tried|)
    modifies env`wall, env`mono, env`cancelled, env.registry`table
    ensures HoldsNothing(env.registry.table, w) && Later(old(env.Now()), env.Now())
    ensures Accounts(p, ordered, answers, since, env.registry.table) && start.attempted <= p.attempted
    ensures success <==> p.tried != [] && answers(|p.tried| - 1) == Success
    ensures NoSuccess(answers, if success then |p.tried| - 1 else |p.tried|)
    ensures progressed ==> start.attempted < p.attempted
    ensures !busy && !success ==> p.attempted == Keys(ordered)
  {
    p, busy, progressed, success := start, false, false, false;
    for i := 0 to |ordered|
      invariant HoldsNothing(env.registry.table, w) && Later(old(env.Now()), env.Now())
      invariant Accounts(p, ordered, answers, since, env.registry.table) && NoSuccess(answers, |p.tried|)
      invariant start.attempted <= p.attempted && (progressed ==> start.attempted < p.attempted)
      invariant !success && (!busy ==> forall j | 0 <= j < i :: ordered[j] in p.attempted)
    {
      var key := ordered[i];
      if key in p.attempted { continue; }
      var turn: Turn;
      p, turn := RecordTurn(env, w, ordered, answers, p, key, since);
      if turn.Busy? {
        busy := true;
      } else if turn.Tried? {
        progressed := true;
        if turn.outcome.Success? {
          success := true;
          return;
        }
      }
    }
    if !busy { assert Keys(ordered) <= p.attempted; }
  }

  datatype Decision = Again | Stop | TimedOut | Succeed

  /** What follows a round: another one, at once or after a nap; the end of the loop; or the timeout
      error raised by the nap. */
  method EndRound(env: Environment, w: Worker, busy: bool, progressed: bool) returns (next: Decision)
    requires HoldsNothing(env.registry.table, w)
    modifies env, env.registry`table
    ensures HoldsNothing(env.registry.table, w) && Later(old(env.Now()), env.Now())
    ensures env.naps == old(env.naps) || (env.naps == old(env.naps) + 1 && old(env.mono) < env.deadline)
    ensures next.Again? ==> busy
    ensures next.Again? && env.naps == old(env.naps) ==> progressed
    ensures next.Again? && env.naps > old(env.naps) ==> old(env.mono) + 20_000_000 <= env.mono < env.deadline
    ensures next.Stop? ==> env.naps == old(env.naps) && (!busy || env.cancelled || env.mono >= env.deadline)
    ensures next.TimedOut? ==> env.cancelled || env.mono >= env.deadline
    ensures !next.Succeed?
  {
    if busy && !progressed {
      var expired := env.IsExpired(w);
      if !expired {
        var awake := env.Nap(w);
        return if awake then Again else TimedOut;
      }
    }
    if !busy { return Stop; }
    var expired := env.IsExpired(w);
    next := if expired then Stop else Again;
  }

  /** At most ceil((deadline - began) / 20 ms) naps. */
  ghost predicate NapsInTime(naps: nat, began: int, deadline: int) {
    naps > 0 ==> (naps - 1) * 20_000_000 < deadline - began
  }

  /** The clock has room for the naps taken so far. */
  ghost predicate NapsFit(naps: nat, began: int, mono: int, deadline: int) {
    began + naps * 20_000_000 <= mono && (naps > 0 ==> began + naps * 20_000_000 < deadline)
  }

  /** One iteration of the while loop whose condition has just found a key left. `began` and `first` are
      the time and the count of naps when the loop was entered. */
  method Iterate(env: Environment, w: Worker, ordered: seq<Key>, answers: nat -> Outcome, start: Progress,
                 ghost since: int, ghost began: int, ghost first: nat)
    returns (p: Progress, next: Decision)
    requires HoldsNothing(env.registry.table, w) && since <= env.wall
    requires Accounts(start, ordered, answers, since, env.registry.table) && NoSuccess(answers, |start.tried|)
    requires first <= env.naps && NapsFit(env.naps - first, began, env.mono, env.deadline)
    modifies env, env.registry`table
    ensures HoldsNothing(env.registry.table, w) && old(env.wall) <= env.wall && old(env.mono) <= env.mono
    ensures Accounts(p, ordered, answers, since, env.registry.table) && start.attempted <= p.attempted
    ensures next.Succeed? <==> p.tried != [] && answers(|p.tried| - 1) == Success
    ensures NoSuccess(answers, if next.Succeed? then |p.tried| - 1 else |p.tried|)
    ensures old(env.naps) <= env.naps <= old(env.naps) + 1
    // an iteration that attempts nothing new has slept for 20 ms before the deadline
    ensures next.Again? && p.attempted == start.attempted ==>
      env.naps == old(env.naps) + 1 && old(env.mono) + 20_000_000 <= env.mono < env.deadline
    ensures NapsInTime(env.naps - first, began, env.deadline)
    ensures next.Again? ==> NapsFit(env.naps - first, began, env.mono, env.deadline)
    ensures next.Stop? ==> p.attempted == Keys(ordered) || env.cancelled || env.mono >= env.deadline
    ensures next.TimedOut? ==> env.cancelled || env.mono >= env.deadline
  {
    p := start;
    var expired := env.IsExpired(w);
    if expired {
      LastIsNoSuccess(answers, |start.tried|);
      return p, Stop;
    }
    var busy, progressed, success;
    p, busy, progressed, success := Round(env, w, ordered, answers, p, since);
    if success { return p, Succeed; }
    next := EndRound(env, w, busy, progressed);
  }

  lemma LastIsNoSuccess(answers: nat -> Outcome, n: nat)
    requires NoSuccess(answers, n)
    ensures n > 0 ==> answers(n - 1) != Success
  {
  }

  /** After the loop: the result of the attempt that succeeded, the timeout error of the nap, or the
      classification of the failure. */
  method Conclude(env: Environment, w: Worker, ghost ordered: seq<Key>, ghost answers: nat -> Outcome, p: Progress,
                  ghost since: int, next: Decision)
    returns (result: Result)
    requires HoldsNothing(env.registry.table, w) && Accounts(p, ordered, answers, since, env.registry.table)
    requires next.Stop? ==> p.attempted == Keys(ordered) || env.cancelled || env.mono >= env.deadline
    requires next.TimedOut? ==> env.cancelled || env.mono >= env.deadline
    requires !next.Again?
    modifies env`wall, env`mono, env`cancelled, env.registry`table
    ensures HoldsNothing(env.registry.table, w) && Accounts(p, ordered, answers, since, env.registry.table)
    ensures result.Returned? <==> next.Succeed?
    ensures result.Failed? ==> (result.code == 504 <==> env.cancelled || env.mono >= env.deadline)
    ensures result.Failed? && result.code != 504 ==>
      p.attempted == Keys(ordered) && Explains(result.code, answers, |p.tried|)
  {
    VerdictExplains(answers, |p.tried|);
    match next {
      case Succeed => return Returned;
      case TimedOut => return Failed(504);
      case Stop =>
        var expired := env.IsExpired(w);
        result := Failed(Verdict(expired, p.statuses));
    }
  }

  /** The while loop: it ends with a success, a timeout error, or nothing left to try. */
  method Loop(env: Environment, w: Worker, ordered: seq<Key>, answers: nat -> Outcome)
    returns (p: Progress, next: Decision)
    requires HoldsNothing(env.registry.table, w)
    modifies env, env.registry`table
    ensures HoldsNothing(env.registry.table, w)
    ensures Accounts(p, ordered, answers, old(env.wall), env.registry.table)
    ensures next.Succeed? <==> p.tried != [] && answers(|p.tried| - 1) == Success
    ensures NoSuccess(answers, if next.Succeed? then |p.tried| - 1 else |p.tried|)
    ensures !next.Again?
    ensures next.Stop? ==> p.attempted == Keys(ordered) || env.cancelled || env.mono >= env.deadline
    ensures next.TimedOut? ==> env.cancelled || env.mono >= env.deadline
    ensures old(env.naps) <= env.naps && NapsInTime(env.naps - old(env.naps), old(env.mono), env.deadline)
  {
    var keys := Keys(ordered);
    p, next := Progress({}, [], [], {}), Again;
    while |p.attempted| < |keys|
      invariant HoldsNothing(env.registry.table, w) && old(env.wall) <= env.wall
      invariant Accounts(p, ordered, answers, old(env.wall), env.registry.table) && NoSuccess(answers, |p.tried|)
      invariant next.Again? && old(env.naps) <= env.naps
      invariant NapsFit(env.naps - old(env.naps), old(env.mono), env.mono, env.deadline)
      decreases keys - p.attempted, env.deadline - env.mono
    {
      ghost var before := p.attempted;
      p, next := Iterate(env, w, ordered, answers, p, old(env.wall), old(env.mono), old(env.naps));
      if !next.Again? { break; }
      Shrinks(keys, before, p.attempted);
    }
    if next.Again? {
      FullSubset(p.attempted, keys);
      LastIsNoSuccess(answers, |p.tried|);
      next := Stop;
    }
  }

  /** `answers(n)` is how the n-th attempt ends. */
  method Generate(env: Environment, w: Worker, ordered: seq<Key>, answers: nat -> Outcome)
    returns (result: Result, p: Progress)
    requires HoldsNothing(env.registry.table, w)
    modifies env, env.registry`table
    ensures HoldsNothing(env.registry.table, w)
    // each key is tried at most once, and passed over only if it was found cooling
    ensures Accounts(p, ordered, answers, old(env.wall), env.registry.table)
    // the call returns exactly when an attempt succeeds, which is then the last one
    ensures result.Returned? <==> p.tried != [] && answers(|p.tried| - 1) == Success
    ensures NoSuccess(answers, if result.Returned? then |p.tried| - 1 else |p.tried|)
    // a failure is a timeout iff the request has expired; otherwise every key is accounted for
    ensures result.Failed? ==> (result.code == 504 <==> env.cancelled || env.mono >= env.deadline)
    ensures result.Failed? && result.code != 504 ==>
      p.attempted == Keys(ordered) && Explains(result.code, answers, |p.tried|)
    ensures old(env.naps) <= env.naps && NapsInTime(env.naps - old(env.naps), old(env.mono), env.deadline)
  {
    var next;
    p, next := Loop(env, w, ordered, answers);
    result := Conclude(env, w, ordered, answers, p, old(env.wall), next);
  }

  lemma Shrinks(keys: set<Key>, before: set<Key>, after: set<Key>)
    requires before <= after <= keys
    ensures if before == after then keys - after == keys - before else keys - after < keys - before
  {
    if before != after {
      var k :| k in after && k !in before;
      assert k in keys - before && k !in keys - after;
    }
  }
}
