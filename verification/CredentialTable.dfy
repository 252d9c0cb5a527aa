/** The process-wide scheduling state of helper/protocol.py: cooldowns, one try-lock per credential
    key, and the rotation cursor. */
module CredentialTable {
  import opened Clock

  type Key = string // the digest of a token
  type Lock = nat
  type Worker = nat

  /** `made` counts the lock objects created so far; `owner` says who holds a locked one. */
  datatype Table = Table(cooldowns: map<Key, int>, locks: map<Key, Lock>, made: nat, owner: map<Lock, Worker>)

  function CooldownEnd(t: Table, k: Key): int {
    if k in t.cooldowns then t.cooldowns[k] else 0
  }

  predicate Cooling(t: Table, k: Key, now: int) {
    CooldownEnd(t, k) > now
  }

  function WithCooldown(t: Table, k: Key, end: int): Table {
    t.(cooldowns := t.cooldowns[k := end])
  }

  /** A new lock object is created in any case and kept if the key had none. */
  function WithLock(t: Table, k: Key): (t': Table)
    ensures k in t'.locks && t'.made == t.made + 1
  {
    t.(made := t.made + 1, locks := if k in t.locks then t.locks else t.locks[k := t.made])
  }

  function Acquired(t: Table, l: Lock, w: Worker): Table {
    t.(owner := t.owner[l := w])
  }

  function Released(t: Table, l: Lock): Table {
    t.(owner := t.owner - {l})
  }

  /** How an attempt with one credential ends. An UpstreamError is a HelperError with a retryable
      flag; any other exception is a crash. */
  datatype Outcome = Success | Upstream(status: int, retryable: bool) | Helper(status: int) | Crash

  function Penalty(o: Outcome): int {
    match o
    case Upstream(status, retryable) =>
      if status == 401 || status == 403 then 300 * SECOND
      else if status == 429 then 120 * SECOND
      else if retryable then 30 * SECOND
      else 0
    case Crash => 15 * SECOND
    case _ => 0
  }

  /** The statuses that count when the failure is classified. */
  function Statuses(outcomes: seq<Outcome>): seq<int> {
    if outcomes == [] then []
    else
      var n := |outcomes| - 1;
      Statuses(outcomes[..n]) +
      match outcomes[n]
      case Upstream(status, _) => [status]
      case Helper(status) => [status]
      case _ => []
  }

  /** The attempt ended in an error that has a status. */
  predicate HasStatus(o: Outcome) { o.Upstream? || o.Helper? }

  predicate Unauthorized(o: Outcome) { HasStatus(o) && (o.status == 401 || o.status == 403) }

  predicate AllUnauthorized(statuses: seq<int>) {
    forall i | 0 <= i < |statuses| :: statuses[i] == 401 || statuses[i] == 403
  }

  function Verdict(expired: bool, statuses: seq<int>): int {
    if expired then 504 else if statuses != [] && AllUnauthorized(statuses) then 401 else 503
  }

  lemma StatusesAppend(outcomes: seq<Outcome>, o: Outcome)
    ensures Statuses(outcomes + [o]) == Statuses(outcomes) + Statuses([o])
  {
    assert (outcomes + [o])[..|outcomes|] == outcomes;
    assert [o][..0] == [];
  }

  /** Every attempt that ended in an error with a status counts, no other does, and crashes are passed over. */
  lemma {:induction false} StatusesAreReported(outcomes: seq<Outcome>)
    ensures Statuses(outcomes) != [] <==> exists i :: 0 <= i < |outcomes| && HasStatus(outcomes[i])
    ensures AllUnauthorized(Statuses(outcomes)) <==>
            forall i | 0 <= i < |outcomes| && HasStatus(outcomes[i]) :: Unauthorized(outcomes[i])
  {
    if outcomes != [] {
      var n := |outcomes| - 1;
      var init, last := outcomes[..n], outcomes[n];
      StatusesAreReported(init);
      assert outcomes == init + [last];
      StatusesAppend(init, last);
      StatusesOfOne(last);
      AllUnauthorizedAppend(Statuses(init), Statuses([last]));
      assert forall i | 0 <= i < n :: init[i] == outcomes[i];
    }
  }

  lemma StatusesOfOne(o: Outcome)
    ensures Statuses([o]) != [] <==> HasStatus(o)
    ensures AllUnauthorized(Statuses([o])) <==> (HasStatus(o) ==> Unauthorized(o))
  {
    assert Statuses([o][..0]) == [];
    if HasStatus(o) { assert Statuses([o]) == [o.status] && Statuses([o])[0] == o.status; }
  }

  lemma AllUnauthorizedAppend(a: seq<int>, b: seq<int>)
    ensures AllUnauthorized(a + b) <==> AllUnauthorized(a) && AllUnauthorized(b)
  {
    if AllUnauthorized(a + b) {
      assert forall i | 0 <= i < |a| :: a[i] == (a + b)[i];
      assert forall i | 0 <= i < |b| :: b[i] == (a + b)[|a| + i];
    }
  }

  ghost predicate Injective(t: Table) {
    && (forall k :: k in t.locks ==> t.locks[k] < t.made)
    && (forall j, k :: j in t.locks && k in t.locks && t.locks[j] == t.locks[k] ==> j == k)
  }

  ghost predicate HoldsLock(t: Table, w: Worker, l: Lock) {
    l in t.owner && t.owner[l] == w
  }

  ghost predicate NoneEarlier(t: Table, t': Table) {
    forall k :: CooldownEnd(t, k) <= CooldownEnd(t', k)
  }

  /** What the other workers may do to the table between two steps of w: locks stay where they are,
      w's locks stay w's, cooldowns never end earlier, and the cooldown of a key that w has locked
      does not change at all. */
  ghost predicate Rely(t: Table, t': Table, w: Worker) {
    && t.made <= t'.made
    && (forall k :: k in t.locks ==> k in t'.locks && t'.locks[k] == t.locks[k])
    && (forall l :: HoldsLock(t, w, l) <==> HoldsLock(t', w, l))
    && NoneEarlier(t, t')
    && (forall k :: k in t.locks && HoldsLock(t, w, t.locks[k]) ==> CooldownEnd(t', k) == CooldownEnd(t, k))
  }

  // ---------- rotation ----------

  function Rotate<T>(items: seq<T>, start: nat): seq<T>
    requires start <= |items|
  {
    items[start..] + items[..start]
  }

  /** A rotation offers every credential exactly once, in cyclic order. */
  lemma RotationOffersEach<T>(items: seq<T>, start: nat, k: nat)
    requires start < |items| && k < |items|
    ensures |Rotate(items, start)| == |items|
    ensures Rotate(items, start)[k] == items[if start + k < |items| then start + k else start + k - |items|]
    ensures multiset(Rotate(items, start)) == multiset(items)
  {
    assert items == items[..start] + items[start..];
  }

  class Registry {
    var table: Table
    var cursor: nat

    constructor ()
      ensures table == Table(map[], map[], 0, map[]) && cursor == 0
    {
      table := Table(map[], map[], 0, map[]);
      cursor := 0;
    }

    method IsCooling(k: Key, now: int) returns (r: bool)
      ensures r == Cooling(table, k, now)
    {
      r := if k in table.cooldowns then table.cooldowns[k] > now else 0 > now;
    }

    method SetCooldown(k: Key, now: int, duration: int)
      modifies this`table
      ensures table == WithCooldown(old(table), k, now + duration)
      ensures now + duration >= CooldownEnd(old(table), k) ==> NoneEarlier(old(table), table)
      ensures forall v, m :: HoldsLock(table, v, m) <==> HoldsLock(old(table), v, m)
    {
      table := table.(cooldowns := table.cooldowns[k := now + duration]);
    }

    method LockOf(k: Key) returns (l: Lock)
      modifies this`table
      ensures table == WithLock(old(table), k) && l == table.locks[k]
      ensures NoneEarlier(old(table), table)
      ensures forall v, m :: HoldsLock(table, v, m) <==> HoldsLock(old(table), v, m)
    {
      var candidate := table.made;
      table := table.(made := table.made + 1);
      if k !in table.locks {
        table := table.(locks := table.locks[k := candidate]);
      }
      l := table.locks[k];
    }

    method TryAcquire(l: Lock, w: Worker) returns (ok: bool)
      modifies this`table
      ensures ok <==> l !in old(table).owner
      ensures table == if ok then Acquired(old(table), l, w) else old(table)
      ensures NoneEarlier(old(table), table)
      ensures forall v, m :: HoldsLock(table, v, m) <==> HoldsLock(old(table), v, m) || (ok && v == w && m == l)
    {
      if l in table.owner { return false; }
      table := table.(owner := table.owner[l := w]);
      ok := true;
    }

    method Release(l: Lock)
      modifies this`table
      ensures table == Released(old(table), l)
      ensures NoneEarlier(old(table), table)
      ensures forall v, m :: HoldsLock(table, v, m) <==> HoldsLock(old(table), v, m) && m != l
    {
      table := table.(owner := table.owner - {l});
    }

    method RotateCredentials<T>(credentials: seq<T>, offset: nat) returns (ordered: seq<T>)
      requires credentials != []
      modifies this`cursor
      ensures ordered == Rotate(credentials, (old(cursor) + offset) % |credentials|)
      ensures cursor == (old(cursor) + 1) % |credentials|
    {
      var start := (cursor + offset) % |credentials|;
      cursor := (cursor + 1) % |credentials|;
      ordered := credentials[start..] + credentials[..start];
    }
  }

  lemma {:induction false} AtLeastOne(k: nat, n: nat)
    requires k >= 1
    ensures k * n >= n
  {
    if k > 1 {
      AtLeastOne(k - 1, n);
      assert k * n == (k - 1) * n + n;
    }
  }

  /** The remainder is the only number in range that differs from x by a multiple of n. */
  lemma ModUnique(x: int, q: int, r: int, n: int)
    requires n > 0 && 0 <= r < n && x == q * n + r
    ensures x % n == r
  {
    var q', r' := x / n, x % n;
    assert x == q' * n + r';
    assert (q - q') * n == r' - r;
    assert (q' - q) * n == r - r';
    if q > q' {
      AtLeastOne(q - q', n);
    } else if q' > q {
      AtLeastOne(q' - q, n);
    }
  }

  lemma ModAdd(a: int, b: int, d: int, n: int)
    requires n > 0 && a % n == b % n
    ensures (a + d) % n == (b + d) % n
  {
    var qa, qb, e := a / n, b / n, (b + d) / n;
    assert a == qa * n + a % n && b == qb * n + b % n && b + d == e * n + (b + d) % n;
    assert (qa - qb + e) * n == qa * n - qb * n + e * n;
    ModUnique(a + d, qa - qb + e, (b + d) % n, n);
  }

  /** Where rotations of n credentials start, in the order in which they get hold of the cursor: images of
      one request or of several, each with its image index as offset. */
  function Starts(cursor: nat, offsets: seq<nat>, n: nat): (starts: seq<nat>)
    requires n > 0
    ensures |starts| == |offsets|
    decreases |offsets|
  {
    if offsets == [] then []
    else [(cursor + offsets[0]) % n] + Starts((cursor + 1) % n, offsets[1..], n)
  }

  /** Whatever the order of the images, the k-th rotation starts k further on than the cursor and its own
      offset say: both the offset and the cursor count. */
  lemma {:induction false} StartOfRotation(cursor: nat, offsets: seq<nat>, n: nat, k: nat)
    requires n > 0 && k < |offsets|
    ensures Starts(cursor, offsets, n)[k] == (cursor + k + offsets[k]) % n
    decreases k
  {
    if k > 0 {
      StartOfRotation((cursor + 1) % n, offsets[1..], n, k - 1);
      ModUnique((cursor + 1) % n, 0, (cursor + 1) % n, n);
      ModAdd((cursor + 1) % n, cursor + 1, k - 1 + offsets[k], n);
    }
  }

  lemma SameRemainder(a: int, b: int, n: int)
    requires n > 0
    ensures a % n == b % n <==> (b - a) % n == 0
  {
    ModUnique(0, 0, 0, n);
    if a % n == b % n { ModAdd(b, a, -a, n); }
    if (b - a) % n == 0 { ModAdd(b - a, 0, a, n); }
  }

  /** Two rotations start with the same credential exactly when the distance in the queue for the cursor and
      the distance of their offsets add up to a multiple of the number of credentials: starts are spread, not
      distinct. For the images of a lone request, rotating in index order, that is twice their distance. */
  lemma StartsCoincideIff(cursor: nat, offsets: seq<nat>, n: nat, i: nat, j: nat)
    requires n > 0 && i < |offsets| && j < |offsets|
    ensures Starts(cursor, offsets, n)[i] == Starts(cursor, offsets, n)[j] <==>
            (j - i + offsets[j] - offsets[i]) % n == 0
    ensures offsets[i] == i && offsets[j] == j ==>
            (Starts(cursor, offsets, n)[i] == Starts(cursor, offsets, n)[j] <==> (2 * (j - i)) % n == 0)
  {
    StartOfRotation(cursor, offsets, n, i);
    StartOfRotation(cursor, offsets, n, j);
    SameRemainder(cursor + i + offsets[i], cursor + j + offsets[j], n);
    assert (cursor + j + offsets[j]) - (cursor + i + offsets[i]) == j - i + offsets[j] - offsets[i];
  }
}
