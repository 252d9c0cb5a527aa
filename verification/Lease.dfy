/** Leasing and hot-swapping the helper process (plugin.go:74-147), one step per operation on the
    read/write lock, the helper pointer, the configuration and the wait group. */
module Lease {
  import opened Wrappers

  type Thread = nat
  type SlotId = nat

  /** `rest` stands for every field but the helper path. */
  datatype Config = Config(helperPath: string, rest: int)

  /** `active` is the wait group's counter; `closes` counts the calls of close() on the slot. */
  datatype Slot = Slot(path: string, active: int, closes: nat)

  datatype Pc =
    // acquireHelper
    | AcqStart
    | AcqRead                                    // holds the read lock
    | AcqAdd(slot: SlotId)                       // has read a slot, about to call Add(1)
    | AcqConfig(slot: SlotId)                    // counted, about to copy the configuration
    | AcqUnlock(slot: SlotId, cfg: Config)
    | AcqNil                                     // found no helper, about to unlock
    | Leased(slot: SlotId, cfg: Config)
    // reconfigure(cfg)
    | RecStart(cfg: Config)
    | RecRead(cfg: Config)                       // holds the write lock
    | RecSwap(cfg: Config, prev: Option<SlotId>) // has read the old helper
    | RecConfig(cfg: Config, prev: Option<SlotId>, next: Option<SlotId>)
    | RecUnlock(prev: Option<SlotId>, next: Option<SlotId>)
    | RecRetire(prev: Option<SlotId>, next: Option<SlotId>)
    // the goroutine that retire starts
    | Waiting(slot: SlotId)
    | Drained(slot: SlotId)                      // Wait has returned
    // shutdown
    | ShutStart
    | ShutRead
    | ShutUnlock(prev: Option<SlotId>)
    | ShutClose(prev: Option<SlotId>)
    | Done

  /** The last four fields are history: the slots that reconfigure has replaced, the call that took
      each slot out of service, the configurations in force one after another, and how often
      shutdown ran. */
  datatype State = State(readers: set<Thread>, writer: set<Thread>, config: Config, helper: Option<SlotId>,
                         slots: seq<Slot>, threads: map<Thread, Pc>,
                         retired: set<SlotId>, disposer: map<SlotId, Thread>,
                         applied: seq<Config>, shutdowns: nat)

  datatype Action = Call(t: Thread, entry: Pc) | Step(t: Thread)

  function Init(cfg: Config): State {
    State({}, {}, cfg, Some(0), [Slot(cfg.helperPath, 0, 0)], map[], {}, map[], [cfg], 0)
  }

  predicate IsEntry(pc: Pc) { pc.AcqStart? || pc.RecStart? || pc.ShutStart? }

  function Goto(s: State, t: Thread, pc: Pc): State {
    s.(threads := s.threads[t := pc])
  }

  function AddActive(s: State, i: SlotId, delta: int): State {
    if i < |s.slots| then s.(slots := s.slots[i := s.slots[i].(active := s.slots[i].active + delta)]) else s
  }

  function CloseSlot(s: State, i: SlotId): State {
    if i < |s.slots| then s.(slots := s.slots[i := s.slots[i].(closes := s.slots[i].closes + 1)]) else s
  }

  function PathOf(s: State, i: SlotId): string {
    if i < |s.slots| then s.slots[i].path else ""
  }

  function AcquireStep(s: State, t: Thread, pc: Pc): State {
    match pc
    case AcqStart => if s.writer == {} then Goto(s.(readers := s.readers + {t}), t, AcqRead) else s
    case AcqRead => Goto(s, t, if s.helper.None? then AcqNil else AcqAdd(s.helper.value))
    case AcqNil => Goto(s.(readers := s.readers - {t}), t, Done)
    case AcqAdd(slot) => Goto(AddActive(s, slot, 1), t, AcqConfig(slot))
    case AcqConfig(slot) => Goto(s, t, AcqUnlock(slot, s.config))
    case AcqUnlock(slot, cfg) => Goto(s.(readers := s.readers - {t}), t, Leased(slot, cfg))
    case Leased(slot, cfg) => Goto(AddActive(s, slot, -1), t, Done)
    case _ => s
  }

  /** The helper is replaced when there is none or its path differs. */
  function Swap(s: State, t: Thread, cfg: Config, prev: Option<SlotId>): State {
    if prev.Some? && PathOf(s, prev.value) == cfg.helperPath then s
    else
      var s' := s.(helper := Some(|s.slots|), slots := s.slots + [Slot(cfg.helperPath, 0, 0)]);
      if prev.None? then s'
      else s'.(retired := s.retired + {prev.value}, disposer := s.disposer[prev.value := t])
  }

  function ReconfigureStep(s: State, t: Thread, pc: Pc): State {
    match pc
    case RecStart(cfg) => if s.writer == {} && s.readers == {} then Goto(s.(writer := {t}), t, RecRead(cfg)) else s
    case RecRead(cfg) =>
      if s.config == cfg && s.helper.Some? then Goto(s.(writer := s.writer - {t}), t, Done)
      else Goto(s, t, RecSwap(cfg, s.helper))
    case RecSwap(cfg, prev) =>
      var s' := Swap(s, t, cfg, prev);
      Goto(s', t, RecConfig(cfg, prev, s'.helper))
    case RecConfig(cfg, prev, next) => Goto(s.(config := cfg, applied := s.applied + [cfg]), t, RecUnlock(prev, next))
    case RecUnlock(prev, next) => Goto(s.(writer := s.writer - {t}), t, RecRetire(prev, next))
    case RecRetire(prev, next) => Goto(s, t, if prev.Some? && prev != next then Waiting(prev.value) else Done)
    case Waiting(slot) => if slot < |s.slots| && s.slots[slot].active == 0 then Goto(s, t, Drained(slot)) else s
    case Drained(slot) => Goto(CloseSlot(s, slot), t, Done)
    case _ => s
  }

  function ShutdownStep(s: State, t: Thread, pc: Pc): State {
    match pc
    case ShutStart => if s.writer == {} && s.readers == {} then Goto(s.(writer := {t}), t, ShutRead) else s
    case ShutRead =>
      var s' := s.(helper := None, shutdowns := s.shutdowns + 1,
                   disposer := if s.helper.Some? then s.disposer[s.helper.value := t] else s.disposer);
      Goto(s', t, ShutUnlock(s.helper))
    case ShutUnlock(prev) => Goto(s.(writer := s.writer - {t}), t, ShutClose(prev))
    case ShutClose(prev) => Goto(if prev.Some? then CloseSlot(s, prev.value) else s, t, Done)
    case _ => s
  }

  predicate Acquiring(pc: Pc) {
    pc.AcqStart? || pc.AcqRead? || pc.AcqNil? || pc.AcqAdd? || pc.AcqConfig? || pc.AcqUnlock? || pc.Leased?
  }

  predicate ShuttingDown(pc: Pc) {
    pc.ShutStart? || pc.ShutRead? || pc.ShutUnlock? || pc.ShutClose?
  }

  function Next(s: State, a: Action): State {
    match a
    case Call(t, entry) => if t in s.threads || !IsEntry(entry) then s else Goto(s, t, entry)
    case Step(t) =>
      if t !in s.threads then s
      else if Acquiring(s.threads[t]) then AcquireStep(s, t, s.threads[t])
      else if ShuttingDown(s.threads[t]) then ShutdownStep(s, t, s.threads[t])
      else ReconfigureStep(s, t, s.threads[t])
  }

  function Run(s: State, actions: seq<Action>): State
    decreases |actions|
  {
    if actions == [] then s else Run(Next(s, actions[0]), actions[1..])
  }

  // ---------- the invariant ----------

  predicate Reading(pc: Pc) { pc.AcqRead? || pc.AcqNil? || pc.AcqAdd? || pc.AcqConfig? || pc.AcqUnlock? }

  predicate Writing(pc: Pc) {
    pc.RecRead? || pc.RecSwap? || pc.RecConfig? || pc.RecUnlock? || pc.ShutRead? || pc.ShutUnlock?
  }

  /** The slot on which the thread is counted. */
  function CountedOn(pc: Pc): Option<SlotId> {
    match pc
    case AcqConfig(slot) => Some(slot)
    case AcqUnlock(slot, _) => Some(slot)
    case Leased(slot, _) => Some(slot)
    case _ => None
  }

  ghost function Holders(s: State, i: SlotId): set<Thread> {
    set t | t in s.threads && CountedOn(s.threads[t]) == Some(i)
  }

  /** The slot the thread has still to close. */
  function Disposes(pc: Pc): Option<SlotId> {
    match pc
    case RecConfig(_, prev, next) => if prev == next then None else prev
    case RecUnlock(prev, next) => if prev == next then None else prev
    case RecRetire(prev, next) => if prev == next then None else prev
    case Waiting(slot) => Some(slot)
    case Drained(slot) => Some(slot)
    case ShutUnlock(prev) => prev
    case ShutClose(prev) => prev
    case _ => None
  }

  /** The thread holds a lease it was given and has not returned. */
  predicate HasLease(s: State, t: Thread, i: SlotId) {
    t in s.threads && s.threads[t].Leased? && s.threads[t].slot == i
  }

  ghost predicate LockInv(s: State) {
    && (forall t :: t in s.readers <==> t in s.threads && Reading(s.threads[t]))
    && (forall t :: t in s.writer <==> t in s.threads && Writing(s.threads[t]))
    && (forall t, u :: t in s.writer && u in s.writer ==> t == u)
    && (s.writer != {} ==> s.readers == {})
  }

  /** How often consecutive configurations name different helper paths. */
  function PathChanges(cfgs: seq<Config>): nat {
    if |cfgs| < 2 then 0
    else
      var n := |cfgs| - 1;
      PathChanges(cfgs[..n]) + if cfgs[n].helperPath != cfgs[n - 1].helperPath then 1 else 0
  }

  /** The current helper, the configuration and the number of helpers started fit together. */
  ghost predicate Agree(s: State) {
    && (s.helper.Some? ==> PathOf(s, s.helper.value) == s.config.helperPath)
    && s.applied != [] && s.applied[|s.applied| - 1] == s.config
    && (s.shutdowns == 0 ==> |s.slots| == 1 + PathChanges(s.applied))
  }

  /** What is true of one slot. */
  ghost predicate SlotInv(s: State, i: SlotId)
    requires i < |s.slots|
  {
    && (s.helper == Some(i) <==> i !in s.disposer)
    && s.slots[i].closes <= 1
    && (i !in s.disposer ==> s.slots[i].closes == 0 && i !in s.retired)
    && (i in s.disposer && s.slots[i].closes == 0 ==>
         s.disposer[i] in s.threads && Disposes(s.threads[s.disposer[i]]) == Some(i))
    && (i in s.retired && s.slots[i].closes > 0 ==> s.slots[i].active == 0)
    && s.slots[i].active == |Holders(s, i)|
  }

  ghost predicate DisposerInv(s: State, t: Thread, pc: Pc) {
    Disposes(pc).Some? ==>
      var i := Disposes(pc).value;
      && i < |s.slots| && i in s.disposer && s.disposer[i] == t && s.slots[i].closes == 0
      && (i in s.retired <==> !ShuttingDown(pc))
  }

  /** What the position of one thread says about the shared state. */
  ghost predicate ThreadInv(s: State, t: Thread, pc: Pc) {
    && DisposerInv(s, t, pc)
    && (CountedOn(pc).Some? ==> CountedOn(pc).value < |s.slots|)
    && match pc
       case AcqNil => s.helper.None?
       case AcqAdd(slot) => s.helper == Some(slot)
       case AcqConfig(slot) => s.helper == Some(slot)
       case AcqUnlock(slot, cfg) => s.helper == Some(slot) && cfg == s.config
       case Leased(slot, cfg) => PathOf(s, slot) == cfg.helperPath && cfg in s.applied
       case RecRead(_) => Agree(s)
       case ShutRead => Agree(s)
       case ShutUnlock(_) => Agree(s)
       case RecSwap(_, prev) => Agree(s) && prev == s.helper
       case RecConfig(cfg, _, next) =>
         && s.helper == next && next.Some? && PathOf(s, next.value) == cfg.helperPath
         && (s.shutdowns == 0 ==> |s.slots| == 1 + PathChanges(s.applied + [cfg]))
       case RecUnlock(_, next) => Agree(s) && s.helper == next
       case Drained(slot) => slot < |s.slots| && s.slots[slot].active == 0
       case _ => true
  }

  ghost predicate SharedInv(s: State) {
    && (s.helper.Some? ==> s.helper.value < |s.slots|)
    && (forall i :: i in s.disposer || i in s.retired ==> i < |s.slots|)
    && (s.writer == {} ==> Agree(s))
    && (s.shutdowns == 0 ==> s.helper.Some?)
  }

  ghost predicate SlotsInv(s: State) {
    forall i: nat | i < |s.slots| :: SlotInv(s, i)
  }

  ghost predicate ThreadsInv(s: State) {
    forall t | t in s.threads :: ThreadInv(s, t, s.threads[t])
  }

  ghost predicate Inv(s: State) {
    LockInv(s) && SharedInv(s) && SlotsInv(s) && ThreadsInv(s)
  }

  // ---------- counting ----------

  lemma HoldersUnchanged(s: State, s': State, t: Thread, i: SlotId)
    requires t in s.threads && t in s'.threads && s'.threads == s.threads[t := s'.threads[t]]
    requires CountedOn(s.threads[t]) == Some(i) <==> CountedOn(s'.threads[t]) == Some(i)
    ensures Holders(s', i) == Holders(s, i)
  {
  }

  lemma HoldersGain(s: State, s': State, t: Thread, i: SlotId)
    requires t in s.threads && t in s'.threads && s'.threads == s.threads[t := s'.threads[t]]
    requires CountedOn(s.threads[t]) != Some(i) && CountedOn(s'.threads[t]) == Some(i)
    ensures |Holders(s', i)| == |Holders(s, i)| + 1
  {
    assert Holders(s', i) == Holders(s, i) + {t};
  }

  lemma HoldersLose(s: State, s': State, t: Thread, i: SlotId)
    requires t in s.threads && t in s'.threads && s'.threads == s.threads[t := s'.threads[t]]
    requires CountedOn(s.threads[t]) == Some(i) && CountedOn(s'.threads[t]) != Some(i)
    ensures |Holders(s', i)| == |Holders(s, i)| - 1
  {
    assert Holders(s, i) == Holders(s', i) + {t};
  }

  // ---------- preservation ----------

  /** Slots are only ever added, and keep their paths, and so are configurations. */
  ghost predicate Extends(s: State, s': State) {
    && |s.slots| <= |s'.slots| && (forall i | 0 <= i < |s.slots| :: s'.slots[i].path == s.slots[i].path)
    && forall cfg | cfg in s.applied :: cfg in s'.applied
  }

  ghost predicate SameShared(s: State, s': State) {
    && s'.helper == s.helper && s'.config == s.config && s'.applied == s.applied && s'.shutdowns == s.shutdowns
    && |s'.slots| == |s.slots|
  }

  ghost predicate SameDuty(s: State, s': State, i: SlotId) {
    && i < |s.slots| <= |s'.slots| && s'.slots[i].closes == s.slots[i].closes
    && i in s.disposer && i in s'.disposer && s'.disposer[i] == s.disposer[i]
    && (i in s.retired <==> i in s'.retired)
  }

  /** A thread is not affected by a step of another that keeps what its position refers to. */
  lemma ThreadFrame(s: State, s': State, u: Thread, pc: Pc)
    requires ThreadInv(s, u, pc) && Extends(s, s')
    requires SameShared(s, s') || (!Reading(pc) && !Writing(pc))
    requires Disposes(pc).Some? ==> SameDuty(s, s', Disposes(pc).value)
    requires pc.Drained? ==> s'.slots[pc.slot].active == 0
    ensures ThreadInv(s', u, pc)
  {
  }

  /** A step of t that leaves slots, helper and history alone and keeps t's obligations. */
  lemma LocalStep(s: State, s': State, t: Thread)
    requires Inv(s) && t in s.threads && t in s'.threads && s'.threads == s.threads[t := s'.threads[t]]
    requires s'.slots == s.slots && s'.helper == s.helper && s'.retired == s.retired && s'.disposer == s.disposer
    requires CountedOn(s'.threads[t]) == CountedOn(s.threads[t]) && Disposes(s'.threads[t]) == Disposes(s.threads[t])
    ensures SlotsInv(s')
    ensures SameShared(s, s') ==> forall u | u in s.threads && u != t :: ThreadInv(s', u, s'.threads[u])
  {
    forall i: nat | i < |s.slots|
      ensures SlotInv(s', i)
    {
      HoldersUnchanged(s, s', t, i);
      assert SlotInv(s, i);
    }
    forall u | u in s.threads && u != t && SameShared(s, s')
      ensures ThreadInv(s', u, s'.threads[u])
    {
      assert ThreadInv(s, u, s.threads[u]);
      ThreadFrame(s, s', u, s.threads[u]);
    }
  }

  /** The lock fits the new state when t's part in it is unchanged. */
  lemma SameLock(s: State, s': State, t: Thread)
    requires LockInv(s) && t in s.threads && t in s'.threads && s'.threads == s.threads[t := s'.threads[t]]
    requires s'.readers == s.readers && s'.writer == s.writer
    requires Reading(s'.threads[t]) == Reading(s.threads[t]) && Writing(s'.threads[t]) == Writing(s.threads[t])
    ensures LockInv(s')
  {
  }

  /** A step of t that changes nothing but the locks and its own position keeps all but the lock. */
  lemma MoveKeepsRest(s: State, s': State, t: Thread, pc: Pc)
    requires Inv(s) && t in s.threads && s' == Goto(s.(readers := s'.readers, writer := s'.writer), t, pc)
    requires CountedOn(pc) == CountedOn(s.threads[t]) && Disposes(pc) == Disposes(s.threads[t])
    requires ThreadInv(s, t, pc)
    ensures SlotsInv(s') && ThreadsInv(s')
    ensures (s'.writer == {} ==> Agree(s)) ==> SharedInv(s')
  {
    LocalStep(s, s', t);
    ThreadFrame(s, s', t, pc);
    assert s'.writer == {} && Agree(s) ==> Agree(s');
  }

  /** t may move to the position without taking or giving up a slot. */
  ghost predicate MayMove(s: State, t: Thread, pc: Pc) {
    && Inv(s) && t in s.threads
    && CountedOn(pc) == CountedOn(s.threads[t]) && Disposes(pc) == Disposes(s.threads[t])
    && ThreadInv(s, t, pc)
  }

  lemma Advance(s: State, t: Thread, pc: Pc)
    requires MayMove(s, t, pc)
    requires Reading(pc) == Reading(s.threads[t]) && Writing(pc) == Writing(s.threads[t])
    ensures Inv(Goto(s, t, pc))
  {
    SameLock(s, Goto(s, t, pc), t);
    MoveKeepsRest(s, Goto(s, t, pc), t, pc);
  }

  lemma ReadLockIsShared(s: State, t: Thread, pc: Pc)
    requires LockInv(s) && t in s.threads && Reading(pc) && !Writing(s.threads[t]) && s.writer == {}
    ensures LockInv(Goto(s.(readers := s.readers + {t}), t, pc))
  {
  }

  lemma LockForReading(s: State, t: Thread, pc: Pc)
    requires MayMove(s, t, pc) && Reading(pc) && !Writing(s.threads[t]) && s.writer == {}
    ensures Inv(Goto(s.(readers := s.readers + {t}), t, pc))
  {
    ReadLockIsShared(s, t, pc);
    MoveKeepsRest(s, Goto(s.(readers := s.readers + {t}), t, pc), t, pc);
  }

  lemma UnlockReader(s: State, t: Thread, pc: Pc)
    requires MayMove(s, t, pc) && Reading(s.threads[t]) && !Reading(pc) && !Writing(pc)
    ensures Inv(Goto(s.(readers := s.readers - {t}), t, pc))
  {
    assert t in s.readers;
    MoveKeepsRest(s, Goto(s.(readers := s.readers - {t}), t, pc), t, pc);
  }

  lemma LockForWriting(s: State, t: Thread, pc: Pc)
    requires MayMove(s, t, pc) && Writing(pc) && s.writer == {} && s.readers == {}
    ensures Inv(Goto(s.(writer := {t}), t, pc))
  {
    MoveKeepsRest(s, Goto(s.(writer := {t}), t, pc), t, pc);
  }

  lemma UnlockWriter(s: State, t: Thread, pc: Pc)
    requires MayMove(s, t, pc) && Writing(s.threads[t]) && !Reading(pc) && !Writing(pc) && Agree(s)
    ensures Inv(Goto(s.(writer := s.writer - {t}), t, pc))
  {
    assert t in s.writer;
    MoveKeepsRest(s, Goto(s.(writer := s.writer - {t}), t, pc), t, pc);
  }

  /** Nobody writes while t reads. */
  lemma ReaderAgrees(s: State, t: Thread)
    requires LockInv(s) && SharedInv(s) && t in s.threads && Reading(s.threads[t])
    ensures Agree(s)
  {
    assert t in s.readers;
  }

  lemma BeginKeepsInv(s: State, t: Thread)
    requires Inv(s) && t in s.threads && s.threads[t].AcqStart?
    ensures Inv(AcquireStep(s, t, AcqStart))
  {
    if s.writer == {} { LockForReading(s, t, AcqRead); }
  }

  lemma LookKeepsInv(s: State, t: Thread)
    requires Inv(s) && t in s.threads && s.threads[t].AcqRead?
    ensures Inv(AcquireStep(s, t, AcqRead))
  {
    Advance(s, t, if s.helper.None? then AcqNil else AcqAdd(s.helper.value));
  }

  lemma GrantKeepsInv(s: State, t: Thread, i: SlotId, cfg: Config)
    requires Inv(s) && t in s.threads && s.threads[t] == AcqUnlock(i, cfg)
    ensures Inv(AcquireStep(s, t, AcqUnlock(i, cfg)))
  {
    assert ThreadInv(s, t, AcqUnlock(i, cfg));
    ReaderAgrees(s, t);
    UnlockReader(s, t, Leased(i, cfg));
  }

  lemma CopyKeepsInv(s: State, t: Thread, i: SlotId)
    requires Inv(s) && t in s.threads && s.threads[t] == AcqConfig(i)
    ensures Inv(AcquireStep(s, t, AcqConfig(i)))
  {
    assert ThreadInv(s, t, AcqConfig(i));
    Advance(s, t, AcqUnlock(i, s.config));
  }

  lemma AcquireKeepsInv(s: State, t: Thread)
    requires Inv(s) && t in s.threads && Acquiring(s.threads[t])
    ensures Inv(AcquireStep(s, t, s.threads[t]))
  {
    match s.threads[t] {
      case AcqStart => BeginKeepsInv(s, t);
      case AcqRead => LookKeepsInv(s, t);
      case AcqNil => UnlockReader(s, t, Done);
      case AcqAdd(slot) => CountKeepsInv(s, t, slot);
      case AcqConfig(slot) => CopyKeepsInv(s, t, slot);
      case AcqUnlock(slot, cfg) => GrantKeepsInv(s, t, slot, cfg);
      case Leased(slot, _) => ReturnKeepsInv(s, t, slot);
    }
  }

  lemma SlotIsCurrent(s: State, i: SlotId)
    requires Inv(s) && s.helper == Some(i)
    ensures i < |s.slots| && SlotInv(s, i)
  {
  }

  /** Counting t on slot i, or off it again, leaves every other thread's position in order. */
  lemma CountingKeepsOther(s: State, i: SlotId, delta: int, u: Thread, t: Thread, pc: Pc)
    requires Inv(s) && i < |s.slots| && u in s.threads
    requires s.threads[u].Drained? && s.threads[u].slot == i ==> delta == 0
    ensures ThreadInv(Goto(AddActive(s, i, delta), t, pc), u, s.threads[u])
  {
    assert ThreadInv(s, u, s.threads[u]);
    ThreadFrame(s, Goto(AddActive(s, i, delta), t, pc), u, s.threads[u]);
  }

  /** A slot about to be closed has nobody counted on it. */
  lemma DrainedIsEmpty(s: State, u: Thread, i: SlotId)
    requires Inv(s) && i < |s.slots| && u in s.threads && s.threads[u] == Drained(i)
    ensures s.helper != Some(i) && Holders(s, i) == {}
  {
    assert ThreadInv(s, u, s.threads[u]);
    assert SlotInv(s, i);
  }

  lemma CountKeepsSlots(s: State, t: Thread, i: SlotId)
    requires Inv(s) && t in s.threads && s.threads[t] == AcqAdd(i) && i < |s.slots| && s.helper == Some(i)
    ensures SlotsInv(Goto(AddActive(s, i, 1), t, AcqConfig(i)))
  {
    var s' := Goto(AddActive(s, i, 1), t, AcqConfig(i));
    HoldersGain(s, s', t, i);
    forall k: nat | k < |s'.slots|
      ensures SlotInv(s', k)
    {
      if k != i { HoldersUnchanged(s, s', t, k); }
      assert SlotInv(s, k);
    }
  }

  lemma CountKeepsInv(s: State, t: Thread, i: SlotId)
    requires Inv(s) && t in s.threads && s.threads[t] == AcqAdd(i)
    ensures Inv(Goto(AddActive(s, i, 1), t, AcqConfig(i)))
  {
    assert ThreadInv(s, t, s.threads[t]);
    var s' := Goto(AddActive(s, i, 1), t, AcqConfig(i));
    CountKeepsSlots(s, t, i);
    SameLock(s, s', t);
    CountingKeepsShared(s, i, 1, t, AcqConfig(i));
    forall u | u in s.threads && u != t
      ensures ThreadInv(s', u, s.threads[u])
    {
      if s.threads[u] == Drained(i) { DrainedIsEmpty(s, u, i); }
      CountingKeepsOther(s, i, 1, u, t, AcqConfig(i));
    }
  }

  lemma ReturnKeepsSlots(s: State, t: Thread, i: SlotId)
    requires Inv(s) && HasLease(s, t, i) && i < |s.slots|
    ensures SlotsInv(Goto(AddActive(s, i, -1), t, Done))
  {
    var s' := Goto(AddActive(s, i, -1), t, Done);
    HoldersLose(s, s', t, i);
    assert t in Holders(s, i);
    forall k: nat | k < |s'.slots|
      ensures SlotInv(s', k)
    {
      if k != i { HoldersUnchanged(s, s', t, k); }
      assert SlotInv(s, k);
    }
  }

  lemma ReturnKeepsOther(s: State, t: Thread, i: SlotId, u: Thread)
    requires Inv(s) && HasLease(s, t, i) && i < |s.slots| && u in s.threads && u != t
    ensures ThreadInv(Goto(AddActive(s, i, -1), t, Done), u, s.threads[u])
  {
    assert t in Holders(s, i);
    if s.threads[u] == Drained(i) {
      DrainedIsEmpty(s, u, i);
      assert false;
    }
    CountingKeepsOther(s, i, -1, u, t, Done);
  }

  lemma CountingKeepsShared(s: State, i: SlotId, delta: int, t: Thread, pc: Pc)
    requires SharedInv(s)
    ensures SharedInv(Goto(AddActive(s, i, delta), t, pc))
  {
  }

  lemma ReturnKeepsThreads(s: State, t: Thread, i: SlotId)
    requires Inv(s) && HasLease(s, t, i) && i < |s.slots|
    ensures ThreadsInv(Goto(AddActive(s, i, -1), t, Done))
  {
    forall u | u in s.threads && u != t
      ensures ThreadInv(Goto(AddActive(s, i, -1), t, Done), u, s.threads[u])
    {
      ReturnKeepsOther(s, t, i, u);
    }
  }

  lemma ReturnKeepsInv(s: State, t: Thread, i: SlotId)
    requires Inv(s) && HasLease(s, t, i)
    ensures Inv(Goto(AddActive(s, i, -1), t, Done))
  {
    var s' := Goto(AddActive(s, i, -1), t, Done);
    assert ThreadInv(s, t, s.threads[t]);
    ReturnKeepsSlots(s, t, i);
    SameLock(s, s', t);
    CountingKeepsShared(s, i, -1, t, Done);
    ReturnKeepsThreads(s, t, i);
  }

  lemma StartKeepsInv(s: State, t: Thread, cfg: Config)
    requires Inv(s) && t in s.threads && s.threads[t] == RecStart(cfg)
    ensures Inv(ReconfigureStep(s, t, RecStart(cfg)))
  {
    if s.writer == {} && s.readers == {} { LockForWriting(s, t, RecRead(cfg)); }
  }

  lemma ReadKeepsInv(s: State, t: Thread, cfg: Config)
    requires Inv(s) && t in s.threads && s.threads[t] == RecRead(cfg)
    ensures Inv(ReconfigureStep(s, t, RecRead(cfg)))
  {
    assert ThreadInv(s, t, RecRead(cfg));
    if s.config == cfg && s.helper.Some? { UnlockWriter(s, t, Done); } else { Advance(s, t, RecSwap(cfg, s.helper)); }
  }

  lemma ReleaseKeepsInv(s: State, t: Thread, prev: Option<SlotId>, next: Option<SlotId>)
    requires Inv(s) && t in s.threads && s.threads[t] == RecUnlock(prev, next)
    ensures Inv(ReconfigureStep(s, t, RecUnlock(prev, next)))
  {
    assert ThreadInv(s, t, RecUnlock(prev, next));
    UnlockWriter(s, t, RecRetire(prev, next));
  }

  lemma RetireKeepsInv(s: State, t: Thread, prev: Option<SlotId>, next: Option<SlotId>)
    requires Inv(s) && t in s.threads && s.threads[t] == RecRetire(prev, next)
    ensures Inv(ReconfigureStep(s, t, RecRetire(prev, next)))
  {
    assert ThreadInv(s, t, RecRetire(prev, next));
    Advance(s, t, if prev.Some? && prev != next then Waiting(prev.value) else Done);
  }

  lemma WaitKeepsInv(s: State, t: Thread, i: SlotId)
    requires Inv(s) && t in s.threads && s.threads[t] == Waiting(i)
    ensures Inv(ReconfigureStep(s, t, Waiting(i)))
  {
    assert ThreadInv(s, t, Waiting(i));
    if s.slots[i].active == 0 { Advance(s, t, Drained(i)); }
  }

  lemma ReconfigureKeepsInv(s: State, t: Thread)
    requires Inv(s) && t in s.threads && !Acquiring(s.threads[t]) && !ShuttingDown(s.threads[t])
    ensures Inv(ReconfigureStep(s, t, s.threads[t]))
  {
    match s.threads[t] {
      case RecStart(cfg) => StartKeepsInv(s, t, cfg);
      case RecRead(cfg) => ReadKeepsInv(s, t, cfg);
      case RecSwap(cfg, _) => SwapKeepsInv(s, t, cfg);
      case RecConfig(cfg, prev, next) => ConfigKeepsInv(s, t, cfg, prev, next);
      case RecUnlock(prev, next) => ReleaseKeepsInv(s, t, prev, next);
      case RecRetire(prev, next) => RetireKeepsInv(s, t, prev, next);
      case Waiting(slot) => WaitKeepsInv(s, t, slot);
      case Drained(slot) => CloseKeepsInv(s, t, slot);
      case Done =>
    }
  }

  lemma OthersOutside(s: State, t: Thread, u: Thread)
    requires LockInv(s) && t in s.writer && u in s.threads && u != t
    ensures !Reading(s.threads[u]) && !Writing(s.threads[u])
  {
    assert u !in s.readers && u !in s.writer;
  }

  lemma ConfigKeepsOther(s: State, t: Thread, cfg: Config, pc: Pc, u: Thread)
    requires Inv(s) && t in s.threads && s.threads[t].RecConfig? && u in s.threads && u != t
    ensures ThreadInv(Goto(s.(config := cfg, applied := s.applied + [cfg]), t, pc), u, s.threads[u])
  {
    assert t in s.writer;
    OthersOutside(s, t, u);
    assert ThreadInv(s, u, s.threads[u]);
    ThreadFrame(s, Goto(s.(config := cfg, applied := s.applied + [cfg]), t, pc), u, s.threads[u]);
  }

  lemma ConfigKeepsOwn(s: State, t: Thread, cfg: Config, prev: Option<SlotId>, next: Option<SlotId>)
    requires ThreadInv(s, t, RecConfig(cfg, prev, next))
    ensures var s' := Goto(s.(config := cfg, applied := s.applied + [cfg]), t, RecUnlock(prev, next));
            Agree(s') && ThreadInv(s', t, RecUnlock(prev, next))
  {
  }

  lemma ConfigKeepsInv(s: State, t: Thread, cfg: Config, prev: Option<SlotId>, next: Option<SlotId>)
    requires Inv(s) && t in s.threads && s.threads[t] == RecConfig(cfg, prev, next)
    ensures Inv(ReconfigureStep(s, t, s.threads[t]))
  {
    var s' := Goto(s.(config := cfg, applied := s.applied + [cfg]), t, RecUnlock(prev, next));
    assert ReconfigureStep(s, t, s.threads[t]) == s';
    SameLock(s, s', t);
    assert ThreadInv(s, t, s.threads[t]);
    ConfigKeepsOwn(s, t, cfg, prev, next);
    LocalStep(s, s', t);
    forall u | u in s.threads && u != t
      ensures ThreadInv(s', u, s.threads[u])
    {
      ConfigKeepsOther(s, t, cfg, RecUnlock(prev, next), u);
    }
  }

  lemma PathChangesAppend(cfgs: seq<Config>, cfg: Config)
    requires cfgs != []
    ensures PathChanges(cfgs + [cfg]) ==
            PathChanges(cfgs) + if cfg.helperPath != cfgs[|cfgs| - 1].helperPath then 1 else 0
  {
    assert (cfgs + [cfg])[..|cfgs|] == cfgs;
  }

  /** The state after t has looked at the helper and replaced it if the path differs. */
  function Swapped(s: State, t: Thread, cfg: Config): State {
    Goto(Swap(s, t, cfg, s.helper), t, RecConfig(cfg, s.helper, Swap(s, t, cfg, s.helper).helper))
  }

  lemma NobodyOn(s: State, i: SlotId)
    requires ThreadsInv(s) && i >= |s.slots|
    ensures Holders(s, i) == {}
  {
    forall t | t in s.threads
      ensures CountedOn(s.threads[t]) != Some(i)
    {
      assert ThreadInv(s, t, s.threads[t]);
    }
  }

  lemma SwapKeepsSlot(s: State, t: Thread, cfg: Config, i: SlotId)
    requires Inv(s) && t in s.threads && s.threads[t] == RecSwap(cfg, s.helper) && i < |s.slots|
    ensures SlotInv(Swapped(s, t, cfg), i)
  {
    HoldersUnchanged(s, Swapped(s, t, cfg), t, i);
    assert SlotInv(s, i);
  }

  lemma NewSlotIsCurrent(s: State, t: Thread, cfg: Config, i: SlotId)
    requires Inv(s) && t in s.threads && s.threads[t] == RecSwap(cfg, s.helper)
    requires |s.slots| <= i < |Swapped(s, t, cfg).slots|
    ensures SlotInv(Swapped(s, t, cfg), i)
  {
    HoldersUnchanged(s, Swapped(s, t, cfg), t, i);
    NobodyOn(s, i);
  }

  lemma SwapKeepsOther(s: State, t: Thread, cfg: Config, u: Thread)
    requires Inv(s) && t in s.threads && s.threads[t] == RecSwap(cfg, s.helper) && u in s.threads && u != t
    ensures ThreadInv(Swapped(s, t, cfg), u, s.threads[u])
  {
    if s.helper.Some? { SlotIsCurrent(s, s.helper.value); }
    assert t in s.writer;
    OthersOutside(s, t, u);
    assert ThreadInv(s, u, s.threads[u]);
    ThreadFrame(s, Swapped(s, t, cfg), u, s.threads[u]);
  }

  /** The number of helpers started follows the new configuration. */
  lemma SwapCounts(s: State, t: Thread, cfg: Config)
    requires Agree(s) && SharedInv(s)
    ensures var s' := Swapped(s, t, cfg);
            && s'.helper.Some? && PathOf(s', s'.helper.value) == cfg.helperPath
            && (s'.shutdowns == 0 ==> |s'.slots| == 1 + PathChanges(s'.applied + [cfg]))
  {
    PathChangesAppend(s.applied, cfg);
  }

  lemma SwapKeepsOwn(s: State, t: Thread, cfg: Config)
    requires Inv(s) && t in s.threads && s.threads[t] == RecSwap(cfg, s.helper)
    ensures ThreadInv(Swapped(s, t, cfg), t, Swapped(s, t, cfg).threads[t])
  {
    assert ThreadInv(s, t, s.threads[t]);
    SwapCounts(s, t, cfg);
    if s.helper.Some? { SlotIsCurrent(s, s.helper.value); }
  }

  lemma SwapKeepsShared(s: State, t: Thread, cfg: Config)
    requires SharedInv(s) && t in s.writer
    ensures SharedInv(Swapped(s, t, cfg))
  {
  }

  lemma SwapKeepsInv(s: State, t: Thread, cfg: Config)
    requires Inv(s) && t in s.threads && s.threads[t].RecSwap? && s.threads[t].cfg == cfg
    ensures Inv(ReconfigureStep(s, t, s.threads[t]))
  {
    var s' := Swapped(s, t, cfg);
    assert ThreadInv(s, t, s.threads[t]);
    assert ReconfigureStep(s, t, s.threads[t]) == s';
    assert t in s.writer;
    SameLock(s, s', t);
    SwapKeepsShared(s, t, cfg);
    SwapKeepsOwn(s, t, cfg);
    forall i: nat | i < |s'.slots|
      ensures SlotInv(s', i)
    {
      if i < |s.slots| { SwapKeepsSlot(s, t, cfg, i); } else { NewSlotIsCurrent(s, t, cfg, i); }
    }
    forall u | u in s.threads && u != t
      ensures ThreadInv(s', u, s.threads[u])
    {
      SwapKeepsOther(s, t, cfg, u);
    }
  }

  /** Closing the slot that t is responsible for, which nobody else is. */
  lemma CloseKeepsSlots(s: State, t: Thread, i: SlotId)
    requires Inv(s) && t in s.threads && Disposes(s.threads[t]) == Some(i)
    requires s.threads[t].Drained? || s.threads[t].ShutClose?
    ensures SlotsInv(Goto(CloseSlot(s, i), t, Done))
  {
    var s' := Goto(CloseSlot(s, i), t, Done);
    assert ThreadInv(s, t, s.threads[t]);
    forall k: nat | k < |s'.slots|
      ensures SlotInv(s', k)
    {
      HoldersUnchanged(s, s', t, k);
      assert SlotInv(s, k);
    }
  }

  lemma CloseKeepsOther(s: State, t: Thread, i: SlotId, u: Thread)
    requires Inv(s) && t in s.threads && Disposes(s.threads[t]) == Some(i) && u in s.threads && u != t
    ensures ThreadInv(Goto(CloseSlot(s, i), t, Done), u, s.threads[u])
  {
    assert ThreadInv(s, t, s.threads[t]);
    assert ThreadInv(s, u, s.threads[u]);
    assert Disposes(s.threads[u]) != Some(i);
    ThreadFrame(s, Goto(CloseSlot(s, i), t, Done), u, s.threads[u]);
  }

  lemma CloseKeepsShared(s: State, t: Thread, i: SlotId)
    requires SharedInv(s)
    ensures SharedInv(Goto(CloseSlot(s, i), t, Done))
  {
  }

  lemma CloseKeepsThreads(s: State, t: Thread, i: SlotId)
    requires Inv(s) && t in s.threads && Disposes(s.threads[t]) == Some(i)
    ensures ThreadsInv(Goto(CloseSlot(s, i), t, Done))
  {
    forall u | u in s.threads && u != t
      ensures ThreadInv(Goto(CloseSlot(s, i), t, Done), u, s.threads[u])
    {
      CloseKeepsOther(s, t, i, u);
    }
  }

  lemma CloseKeepsInv(s: State, t: Thread, i: SlotId)
    requires Inv(s) && t in s.threads && Disposes(s.threads[t]) == Some(i)
    requires s.threads[t].Drained? || s.threads[t].ShutClose?
    ensures Inv(Goto(CloseSlot(s, i), t, Done))
  {
    var s' := Goto(CloseSlot(s, i), t, Done);
    SameLock(s, s', t);
    CloseKeepsShared(s, t, i);
    CloseKeepsSlots(s, t, i);
    CloseKeepsThreads(s, t, i);
  }

  lemma ShutStartKeepsInv(s: State, t: Thread)
    requires Inv(s) && t in s.threads && s.threads[t].ShutStart?
    ensures Inv(ShutdownStep(s, t, ShutStart))
  {
    if s.writer == {} && s.readers == {} { LockForWriting(s, t, ShutRead); }
  }

  lemma ShutUnlockKeepsInv(s: State, t: Thread, prev: Option<SlotId>)
    requires Inv(s) && t in s.threads && s.threads[t] == ShutUnlock(prev)
    ensures Inv(ShutdownStep(s, t, ShutUnlock(prev)))
  {
    assert ThreadInv(s, t, ShutUnlock(prev));
    UnlockWriter(s, t, ShutClose(prev));
  }

  lemma ShutCloseKeepsInv(s: State, t: Thread, prev: Option<SlotId>)
    requires Inv(s) && t in s.threads && s.threads[t] == ShutClose(prev)
    ensures Inv(ShutdownStep(s, t, ShutClose(prev)))
  {
    if prev.Some? { CloseKeepsInv(s, t, prev.value); } else { Advance(s, t, Done); }
  }

  lemma ShutdownKeepsInv(s: State, t: Thread)
    requires Inv(s) && t in s.threads && ShuttingDown(s.threads[t])
    ensures Inv(ShutdownStep(s, t, s.threads[t]))
  {
    match s.threads[t] {
      case ShutStart => ShutStartKeepsInv(s, t);
      case ShutRead => TakeDownKeepsInv(s, t);
      case ShutUnlock(prev) => ShutUnlockKeepsInv(s, t, prev);
      case ShutClose(prev) => ShutCloseKeepsInv(s, t, prev);
    }
  }

  /** The state after shutdown has taken the helper out. */
  function TakenDown(s: State, t: Thread): State {
    Goto(s.(helper := None, shutdowns := s.shutdowns + 1,
            disposer := if s.helper.Some? then s.disposer[s.helper.value := t] else s.disposer),
         t, ShutUnlock(s.helper))
  }

  lemma TakeDownKeepsSlot(s: State, t: Thread, i: SlotId)
    requires Inv(s) && t in s.threads && s.threads[t].ShutRead? && i < |s.slots|
    ensures SlotInv(TakenDown(s, t), i)
  {
    HoldersUnchanged(s, TakenDown(s, t), t, i);
    assert SlotInv(s, i);
  }

  lemma TakeDownKeepsOther(s: State, t: Thread, u: Thread)
    requires Inv(s) && t in s.threads && s.threads[t].ShutRead? && u in s.threads && u != t
    ensures ThreadInv(TakenDown(s, t), u, s.threads[u])
  {
    if s.helper.Some? { SlotIsCurrent(s, s.helper.value); }
    assert t in s.writer;
    OthersOutside(s, t, u);
    assert ThreadInv(s, u, s.threads[u]);
    ThreadFrame(s, TakenDown(s, t), u, s.threads[u]);
  }

  lemma TakeDownKeepsShared(s: State, t: Thread)
    requires SharedInv(s) && t in s.writer
    ensures SharedInv(TakenDown(s, t))
  {
  }

  lemma TakeDownKeepsOwn(s: State, t: Thread)
    requires Inv(s) && t in s.threads && s.threads[t].ShutRead?
    ensures ThreadInv(TakenDown(s, t), t, ShutUnlock(s.helper))
  {
    assert ThreadInv(s, t, s.threads[t]);
    if s.helper.Some? { SlotIsCurrent(s, s.helper.value); }
  }

  lemma TakeDownKeepsInv(s: State, t: Thread)
    requires Inv(s) && t in s.threads && s.threads[t].ShutRead?
    ensures Inv(ShutdownStep(s, t, ShutRead))
  {
    var s' := TakenDown(s, t);
    assert ShutdownStep(s, t, ShutRead) == s';
    SameLock(s, s', t);
    assert t in s.writer;
    TakeDownKeepsShared(s, t);
    TakeDownKeepsOwn(s, t);
    forall i: nat | i < |s'.slots|
      ensures SlotInv(s', i)
    {
      TakeDownKeepsSlot(s, t, i);
    }
    forall u | u in s.threads && u != t
      ensures ThreadInv(s', u, s.threads[u])
    {
      TakeDownKeepsOther(s, t, u);
    }
  }

  lemma CallKeepsSlots(s: State, t: Thread, entry: Pc)
    requires SlotsInv(s) && t !in s.threads && IsEntry(entry)
    ensures SlotsInv(Goto(s, t, entry))
  {
    var s' := Goto(s, t, entry);
    forall i: nat | i < |s.slots|
      ensures SlotInv(s', i)
    {
      assert Holders(s', i) == Holders(s, i);
      assert SlotInv(s, i);
    }
  }

  lemma CallKeepsThreads(s: State, t: Thread, entry: Pc)
    requires ThreadsInv(s) && SlotsInv(s) && t !in s.threads && IsEntry(entry)
    ensures ThreadsInv(Goto(s, t, entry))
  {
    var s' := Goto(s, t, entry);
    forall u | u in s'.threads
      ensures ThreadInv(s', u, s'.threads[u])
    {
      if u != t {
        assert ThreadInv(s, u, s.threads[u]);
        ThreadFrame(s, s', u, s.threads[u]);
      }
    }
  }

  lemma CallKeepsInv(s: State, t: Thread, entry: Pc)
    requires Inv(s) && t !in s.threads && IsEntry(entry)
    ensures Inv(Goto(s, t, entry))
  {
    CallKeepsSlots(s, t, entry);
    CallKeepsThreads(s, t, entry);
  }

  lemma NextKeepsInv(s: State, a: Action)
    requires Inv(s)
    ensures Inv(Next(s, a))
  {
    match a {
      case Call(t, entry) =>
        if t !in s.threads && IsEntry(entry) { CallKeepsInv(s, t, entry); }
      case Step(t) =>
        if t in s.threads {
          if Acquiring(s.threads[t]) { AcquireKeepsInv(s, t); }
          else if ShuttingDown(s.threads[t]) { ShutdownKeepsInv(s, t); }
          else { ReconfigureKeepsInv(s, t); }
        }
    }
  }

  lemma InitInv(cfg: Config)
    ensures Inv(Init(cfg))
  {
    assert Holders(Init(cfg), 0) == {};
  }

  lemma {:induction false} RunKeepsInv(s: State, actions: seq<Action>)
    requires Inv(s)
    ensures Inv(Run(s, actions))
    decreases |actions|
  {
    if actions != [] {
      NextKeepsInv(s, actions[0]);
      RunKeepsInv(Next(s, actions[0]), actions[1..]);
    }
  }

  // ---------- what every run guarantees ----------

  /** A slot that reconfigure replaced is closed only when it has no leases left, and no thread is
      about to be counted on it, so its counter never rises again; no slot is closed twice, whatever
      sync.Once would catch; and no counter goes below zero. */
  lemma ReplacedSlotsDrain(cfg: Config, actions: seq<Action>, i: SlotId)
    requires i < |Run(Init(cfg), actions).slots|
    ensures var s := Run(Init(cfg), actions);
            && s.slots[i].closes <= 1
            && s.slots[i].active >= 0
            && (i in s.retired && s.slots[i].closes > 0 ==>
                 s.slots[i].active == 0 && forall t :: !HasLease(s, t, i))
            && (i in s.retired ==> forall t :: t in s.threads ==> s.threads[t] != AcqAdd(i))
  {
    InitInv(cfg);
    RunKeepsInv(Init(cfg), actions);
    var s := Run(Init(cfg), actions);
    assert SlotInv(s, i);
    forall t | HasLease(s, t, i)
      ensures t in Holders(s, i)
    {
    }
    forall t | t in s.threads && i in s.retired
      ensures s.threads[t] != AcqAdd(i)
    {
      assert ThreadInv(s, t, s.threads[t]);
    }
  }

  /** The counter of a slot rises only when a thread that has read the slot counts itself. */
  lemma OnlyCountingRaises(s: State, a: Action, i: SlotId)
    requires i < |s.slots| && (a.Step? && a.t in s.threads ==> s.threads[a.t] != AcqAdd(i))
    ensures i < |Next(s, a).slots| && Next(s, a).slots[i].active <= s.slots[i].active
  {
    if a.Step? && a.t in s.threads {
      if Acquiring(s.threads[a.t]) {
        assert |AcquireStep(s, a.t, s.threads[a.t]).slots| == |s.slots|;
      } else if ShuttingDown(s.threads[a.t]) {
        assert |ShutdownStep(s, a.t, s.threads[a.t]).slots| == |s.slots|;
      }
    }
  }

  /** While a replaced slot has leases, its counter only falls from one step to the next. */
  lemma ReplacedSlotsGainNoLease(cfg: Config, actions: seq<Action>, a: Action, i: SlotId)
    requires i in Run(Init(cfg), actions).retired
    ensures var s := Run(Init(cfg), actions);
            i < |s.slots| && i < |Next(s, a).slots| && Next(s, a).slots[i].active <= s.slots[i].active
  {
    InitInv(cfg);
    RunKeepsInv(Init(cfg), actions);
    var s := Run(Init(cfg), actions);
    assert SlotInv(s, i);
    if a.Step? && a.t in s.threads { assert ThreadInv(s, a.t, s.threads[a.t]); }
    OnlyCountingRaises(s, a, i);
  }

  /** When no call and no goroutine is on the way to closing a slot, it has been closed exactly once, or
      it is the current one and open; leases and calls on other slots make no difference. */
  lemma QuiescentMeansClosed(cfg: Config, actions: seq<Action>, i: SlotId)
    requires i < |Run(Init(cfg), actions).slots|
    requires forall t | t in Run(Init(cfg), actions).threads :: Disposes(Run(Init(cfg), actions).threads[t]) != Some(i)
    ensures var s := Run(Init(cfg), actions);
            s.slots[i].closes == if s.helper == Some(i) then 0 else 1
  {
    InitInv(cfg);
    RunKeepsInv(Init(cfg), actions);
    assert SlotInv(Run(Init(cfg), actions), i);
  }

  /** The counter of a slot is the number of threads that have counted themselves and not yet returned
      their lease; so a return finds it above zero, and it is zero only when nobody is left. */
  lemma CountersCountLeases(cfg: Config, actions: seq<Action>, i: SlotId)
    requires i < |Run(Init(cfg), actions).slots|
    ensures var s := Run(Init(cfg), actions);
            && s.slots[i].active == |Holders(s, i)|
            && (forall t :: HasLease(s, t, i) ==> t in Holders(s, i) && s.slots[i].active > 0)
  {
    InitInv(cfg);
    RunKeepsInv(Init(cfg), actions);
    var s := Run(Init(cfg), actions);
    assert SlotInv(s, i);
    forall t | HasLease(s, t, i)
      ensures t in Holders(s, i) && |Holders(s, i)| > 0
    {
      assert t in Holders(s, i);
    }
  }

  /** A lease pairs a client with a configuration that was in force and made for that client's path. */
  lemma LeasesAreConsistent(cfg: Config, actions: seq<Action>, t: Thread, i: SlotId)
    requires HasLease(Run(Init(cfg), actions), t, i)
    ensures var s := Run(Init(cfg), actions);
            i < |s.slots| && s.slots[i].path == s.threads[t].cfg.helperPath && s.threads[t].cfg in s.applied
  {
    InitInv(cfg);
    RunKeepsInv(Init(cfg), actions);
    var s := Run(Init(cfg), actions);
    assert ThreadInv(s, t, s.threads[t]);
  }

  /** Until a shutdown, one helper has been started to begin with and one for every change of path
      between consecutive configurations, no matter how many configurations there were. */
  lemma SlotsCountPathChanges(cfg: Config, actions: seq<Action>)
    ensures var s := Run(Init(cfg), actions);
            s.shutdowns == 0 && s.writer == {} ==>
              s.applied != [] && s.applied[|s.applied| - 1] == s.config && |s.slots| == 1 + PathChanges(s.applied)
  {
    InitInv(cfg);
    RunKeepsInv(Init(cfg), actions);
  }

  /** A caller is sent away without a lease only if there is no helper. */
  lemma TurnedAwayOnlyWithoutHelper(cfg: Config, actions: seq<Action>, t: Thread)
    requires t in Run(Init(cfg), actions).threads && Run(Init(cfg), actions).threads[t] == AcqNil
    ensures Run(Init(cfg), actions).helper.None?
  {
    InitInv(cfg);
    RunKeepsInv(Init(cfg), actions);
    var s := Run(Init(cfg), actions);
    assert ThreadInv(s, t, s.threads[t]);
  }

  /** A caller that has counted itself gets, with its next two steps, the helper that is current and the
      configuration in force, whatever happened before. */
  lemma CountedCallersGetLeases(cfg: Config, actions: seq<Action>, t: Thread, i: SlotId)
    requires t in Run(Init(cfg), actions).threads && Run(Init(cfg), actions).threads[t] == AcqConfig(i)
    ensures var s := Run(Init(cfg), actions);
            var s' := Next(Next(s, Step(t)), Step(t));
            s.helper == Some(i) && s'.helper == Some(i)
            && t in s'.threads && s'.threads[t] == Leased(i, s.config) && s'.config == s.config
  {
    InitInv(cfg);
    RunKeepsInv(Init(cfg), actions);
    var s := Run(Init(cfg), actions);
    assert ThreadInv(s, t, s.threads[t]);
  }

  /** The step of reconfigure that changes the configuration leaves a helper for its path. */
  lemma ReconfigureInstalls(cfg: Config, actions: seq<Action>, t: Thread)
    requires t in Run(Init(cfg), actions).threads && Run(Init(cfg), actions).threads[t].RecConfig?
    ensures var s := Run(Init(cfg), actions);
            var s' := Next(s, Step(t));
            && s'.config == s.threads[t].cfg && s'.applied == s.applied + [s.threads[t].cfg]
            && s'.helper.Some? && s'.helper.value < |s'.slots|
            && s'.slots[s'.helper.value].path == s.threads[t].cfg.helperPath
  {
    InitInv(cfg);
    RunKeepsInv(Init(cfg), actions);
    var s := Run(Init(cfg), actions);
    assert ThreadInv(s, t, s.threads[t]);
  }

  /** The goroutine that waits for a replaced helper closes it with its next two steps once nobody is counted
      on it. */
  lemma IdleHelpersAreClosed(cfg: Config, actions: seq<Action>, t: Thread, i: SlotId)
    requires t in Run(Init(cfg), actions).threads && Run(Init(cfg), actions).threads[t] == Waiting(i)
    requires Holders(Run(Init(cfg), actions), i) == {}
    ensures var s := Run(Init(cfg), actions);
            var s' := Next(Next(s, Step(t)), Step(t));
            i < |s.slots| && i < |s'.slots| && s.slots[i].closes == 0 && s'.slots[i].closes == 1
  {
    InitInv(cfg);
    RunKeepsInv(Init(cfg), actions);
    var s := Run(Init(cfg), actions);
    assert ThreadInv(s, t, s.threads[t]);
    assert SlotInv(s, i);
    WaitsAndCloses(s, t, i);
  }

  lemma WaitsAndCloses(s: State, t: Thread, i: SlotId)
    requires t in s.threads && s.threads[t] == Waiting(i) && i < |s.slots| && s.slots[i].active == 0
    ensures var s' := Next(Next(s, Step(t)), Step(t));
            i < |s'.slots| && s'.slots[i].closes == s.slots[i].closes + 1
  {
    assert Next(s, Step(t)) == Goto(s, t, Drained(i));
  }

  /** A run that hands out a lease. */
  lemma LeasesAreReachable(cfg: Config)
    ensures var s := Run(Init(cfg), [Call(0, AcqStart), Step(0), Step(0), Step(0), Step(0), Step(0)]);
            0 in s.threads && s.threads[0] == Leased(0, cfg) && |s.slots| == 1 && s.slots[0].active == 1
  {
    var s0 := Next(Init(cfg), Call(0, AcqStart));
    var s1 := Next(s0, Step(0));
    assert s1 == Goto(s0.(readers := {0}), 0, AcqRead);
    var s2 := Next(s1, Step(0));
    assert s2 == Goto(s1, 0, AcqAdd(0));
    var s3 := Next(s2, Step(0));
    assert s3 == Goto(AddActive(s2, 0, 1), 0, AcqConfig(0));
    var s4 := Next(s3, Step(0));
    assert s4 == Goto(s3, 0, AcqUnlock(0, cfg));
    var s5 := Next(s4, Step(0));
    assert s5.threads[0] == Leased(0, cfg);
    var rest := [Step(0), Step(0), Step(0), Step(0), Step(0)];
    assert [Call(0, AcqStart), Step(0), Step(0), Step(0), Step(0), Step(0)] == [Call(0, AcqStart)] + rest;
    RunSteps(s4, 1);
    RunSteps(s3, 2);
    RunSteps(s2, 3);
    RunSteps(s1, 4);
    RunSteps(s0, 5);
    assert Repeated(5) == rest;
    assert Run(Init(cfg), [Call(0, AcqStart)] + rest) == Run(s0, rest);
  }

  function Repeated(n: nat): seq<Action> {
    if n == 0 then [] else [Step(0)] + Repeated(n - 1)
  }

  lemma RunSteps(s: State, n: nat)
    requires n > 0
    ensures Run(s, Repeated(n)) == Run(Next(s, Step(0)), Repeated(n - 1))
  {
  }
}
