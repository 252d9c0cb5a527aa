/** Selecting credentials that live long enough (credentials.go) and running one request with at most
    one retry under a single deadline (executor.go). Times are integer nanoseconds. */
module Credentials {
  import opened Clock
  import opened Wrappers

  datatype Entry = Entry(kind: string, disabled: bool, unavailable: bool, runtimeOnly: bool,
                         priority: int, authIndex: string)

  datatype Stored = Stored(token: string, proxy: string)

  datatype Credential = Credential(authIndex: string, token: string, proxy: string)

  /** The host as one attempt sees it, and the library calls, as parameters: the entries it lists
      (None for an error), the record stored for an index (None if it cannot be fetched or parsed),
      whether a kind is Codex, trimming, and the positive `exp` claim of a token (section 4.1.4 of
      RFC 7519) in whole seconds, None if there is none to be read. */
  datatype Host = Host(list: Option<seq<Entry>>, fetch: string -> Option<Stored>, isCodex: string -> bool,
                       trim: string -> string, exp: string -> Option<int>)

  const MARGIN := 30 * SECOND

  class SystemClock {
    var now: int

    method Read() returns (t: int)
      modifies this
      ensures t == now && now >= old(now)
    {
      var later: int := *;
      now := Max(now, later);
      t := now;
    }
  }

  // ---------- the order in which credentials are offered ----------

  function Insert(e: Entry, sorted: seq<Entry>): seq<Entry> {
    if sorted == [] || e.priority >= sorted[0].priority then [e] + sorted
    else [sorted[0]] + Insert(e, sorted[1..])
  }

  /** The stable sort by descending priority. */
  function StableSort(entries: seq<Entry>): seq<Entry> {
    if entries == [] then [] else Insert(entries[0], StableSort(entries[1..]))
  }

  ghost predicate Descending(entries: seq<Entry>) {
    forall i, j | 0 <= i < j < |entries| :: entries[i].priority >= entries[j].priority
  }

  function OfPriority(entries: seq<Entry>, p: int): seq<Entry> {
    if entries == [] then []
    else WithIf(entries[0], p, OfPriority(entries[1..], p))
  }

  /** The entry before the others, if it is of the priority. */
  function WithIf(e: Entry, p: int, rest: seq<Entry>): seq<Entry> {
    if e.priority == p then [e] + rest else rest
  }

  lemma {:induction false} InsertKeepsEntries(e: Entry, sorted: seq<Entry>)
    ensures multiset(Insert(e, sorted)) == multiset(sorted) + multiset{e}
  {
    if !(sorted == [] || e.priority >= sorted[0].priority) {
      InsertKeepsEntries(e, sorted[1..]);
      assert sorted == [sorted[0]] + sorted[1..];
    }
  }

  lemma {:induction false} InsertKeepsOrder(e: Entry, sorted: seq<Entry>)
    requires Descending(sorted)
    ensures Descending(Insert(e, sorted))
    ensures Insert(e, sorted)[0] == e ||
      (sorted != [] && Insert(e, sorted)[0] == sorted[0] && sorted[0].priority > e.priority)
  {
    if !(sorted == [] || e.priority >= sorted[0].priority) {
      var tail := Insert(e, sorted[1..]);
      InsertKeepsOrder(e, sorted[1..]);
      assert sorted[0].priority >= tail[0].priority;
    }
  }

  lemma OfPriorityCons(e: Entry, rest: seq<Entry>, p: int)
    ensures OfPriority([e] + rest, p) == WithIf(e, p, OfPriority(rest, p))
  {
    assert ([e] + rest)[1..] == rest;
  }

  lemma {:induction false} InsertIsStable(e: Entry, sorted: seq<Entry>, p: int)
    ensures OfPriority(Insert(e, sorted), p) == WithIf(e, p, OfPriority(sorted, p))
  {
    if sorted == [] || e.priority >= sorted[0].priority {
      OfPriorityCons(e, sorted, p);
    } else {
      InsertIsStable(e, sorted[1..], p);
      OfPriorityCons(sorted[0], Insert(e, sorted[1..]), p);
    }
  }

  lemma {:induction false} SortKeepsEntries(entries: seq<Entry>)
    ensures multiset(StableSort(entries)) == multiset(entries)
  {
    if entries != [] {
      SortKeepsEntries(entries[1..]);
      InsertKeepsEntries(entries[0], StableSort(entries[1..]));
      assert entries == [entries[0]] + entries[1..];
    }
  }

  lemma {:induction false} SortDescends(entries: seq<Entry>)
    ensures Descending(StableSort(entries))
  {
    if entries != [] {
      SortDescends(entries[1..]);
      InsertKeepsOrder(entries[0], StableSort(entries[1..]));
    }
  }

  lemma {:induction false} SortKeepsHostOrder(entries: seq<Entry>, p: int)
    ensures OfPriority(StableSort(entries), p) == OfPriority(entries, p)
  {
    if entries != [] {
      SortKeepsHostOrder(entries[1..], p);
      InsertIsStable(entries[0], StableSort(entries[1..]), p);
    }
  }

  /** The sort yields the same entries by descending priority, and entries of one priority keep the
      host's order. */
  lemma SortIsStable(entries: seq<Entry>, p: int)
    ensures Descending(StableSort(entries))
    ensures multiset(StableSort(entries)) == multiset(entries)
    ensures OfPriority(StableSort(entries), p) == OfPriority(entries, p)
  {
    SortKeepsEntries(entries);
    SortDescends(entries);
    SortKeepsHostOrder(entries, p);
  }

  // ---------- the lifetime filter ----------

  predicate ExpiresBefore(host: Host, token: string, deadline: int) {
    match host.exp(token)
    case None => false
    case Some(seconds) => seconds * SECOND <= deadline
  }

  predicate Usable(host: Host, e: Entry) {
    !e.disabled && !e.unavailable && !e.runtimeOnly && host.isCodex(e.kind)
    && host.fetch(e.authIndex).Some? && host.trim(host.fetch(e.authIndex).value.token) != ""
  }

  /** What one entry contributes when it is looked at while `horizon` is the earliest expiry allowed. */
  function Pick(host: Host, e: Entry, horizon: int): seq<Credential> {
    if !Usable(host, e) || ExpiresBefore(host, host.fetch(e.authIndex).value.token, horizon) then []
    else
      var stored := host.fetch(e.authIndex).value;
      [Credential(e.authIndex, host.trim(stored.token), host.trim(stored.proxy))]
  }

  function Picks(host: Host, entries: seq<Entry>, times: seq<int>, minValidity: int): seq<Credential>
    requires |entries| == |times|
  {
    if entries == [] then []
    else
      var n := |entries| - 1;
      Picks(host, entries[..n], times[..n], minValidity) + Pick(host, entries[n], times[n] + minValidity + MARGIN)
  }

  lemma PicksSnoc(host: Host, entries: seq<Entry>, times: seq<int>, e: Entry, time: int, minValidity: int)
    requires |entries| == |times|
    ensures Picks(host, entries + [e], times + [time], minValidity) ==
            Picks(host, entries, times, minValidity) + Pick(host, e, time + minValidity + MARGIN)
  {
    assert (entries + [e])[..|entries|] == entries && (times + [time])[..|times|] == times;
  }

  lemma SortKeepsLength(entries: seq<Entry>)
    ensures |StableSort(entries)| == |entries|
  {
    SortKeepsEntries(entries);
    assert |multiset(StableSort(entries))| == |StableSort(entries)| && |multiset(entries)| == |entries|;
  }

  /** One entry, which is looked at at its own moment; `credentials` comes from the entries seen before. */
  method LoadOne(host: Host, ghost seen: seq<Entry>, ghost times: seq<int>, entry: Entry, credentials: seq<Credential>,
                 minValidity: int, clock: SystemClock)
    returns (credentials': seq<Credential>, ghost time: int)
    requires |seen| == |times| && credentials == Picks(host, seen, times, minValidity)
    modifies clock
    ensures old(clock.now) <= time <= clock.now
    ensures credentials' == Picks(host, seen + [entry], times + [time], minValidity)
  {
    time := clock.now;
    PicksSnoc(host, seen, times, entry, time, minValidity);
    if entry.disabled || entry.unavailable || entry.runtimeOnly || !host.isCodex(entry.kind) {
      return credentials, time;
    }
    var stored := host.fetch(entry.authIndex);
    if stored.None? || host.trim(stored.value.token) == "" {
      return credentials, time;
    }
    var now := clock.Read();
    time := now;
    PicksSnoc(host, seen, times, entry, time, minValidity);
    if ExpiresBefore(host, stored.value.token, now + minValidity + MARGIN) {
      return credentials, time;
    }
    var token, proxy := host.trim(stored.value.token), host.trim(stored.value.proxy);
    credentials' := credentials + [Credential(entry.authIndex, token, proxy)];
  }

  lemma NextPrefix(entries: seq<Entry>, i: nat)
    requires i < |entries|
    ensures entries[..i] + [entries[i]] == entries[..i + 1]
  {
  }

  /** Sorts, then looks at one entry after the other; an empty answer is the error. */
  method LoadCredentials(host: Host, entries: seq<Entry>, minValidity: int, clock: SystemClock)
    returns (credentials: seq<Credential>, ghost times: seq<int>)
    modifies clock
    ensures |times| == |entries| == |StableSort(entries)| && clock.now >= old(clock.now)
    ensures forall i | 0 <= i < |times| :: old(clock.now) <= times[i] <= clock.now
    ensures credentials == Picks(host, StableSort(entries), times, minValidity)
  {
    SortKeepsLength(entries);
    var sorted := StableSort(entries);
    credentials, times := [], [];
    ghost var seen: seq<Entry> := [];
    for i := 0 to |sorted|
      invariant |times| == |seen| == i && clock.now >= old(clock.now)
      invariant forall j | 0 <= j < i :: old(clock.now) <= times[j] <= clock.now
      invariant seen == sorted[..i]
      invariant credentials == Picks(host, seen, times, minValidity)
    {
      NextPrefix(sorted, i);
      ghost var time;
      credentials, time := LoadOne(host, seen, times, sorted[i], credentials, minValidity, clock);
      times, seen := times + [time], seen + [sorted[i]];
    }
    assert seen == sorted;
  }

  /** Token and proxy are those stored for the entry, trimmed, and if the token says when it expires it is after
      `limit`. */
  ghost predicate LivesBeyond(host: Host, c: Credential, limit: int) {
    && host.fetch(c.authIndex).Some?
    && var raw := host.fetch(c.authIndex).value.token;
       && c.token == host.trim(raw) != "" && c.proxy == host.trim(host.fetch(c.authIndex).value.proxy)
       && (host.exp(raw).Some? ==> host.exp(raw).value * SECOND > limit)
  }

  /** Strictly increasing positions below n. */
  ghost predicate Positions(at: seq<nat>, n: nat) {
    && (forall k | 0 <= k < |at| :: at[k] < n)
    && (forall k, l | 0 <= k < l < |at| :: at[k] < at[l])
  }

  /** The credentials come from distinct entries, in the order of the entries. */
  lemma {:induction false} PicksKeepOrder(host: Host, entries: seq<Entry>, times: seq<int>, minValidity: int)
    returns (at: seq<nat>)
    requires |entries| == |times|
    ensures var picks := Picks(host, entries, times, minValidity);
            && |at| == |picks| && Positions(at, |entries|)
            && forall k | 0 <= k < |picks| :: picks[k].authIndex == entries[at[k]].authIndex
  {
    if entries == [] {
      at := [];
    } else {
      var n := |entries| - 1;
      at := PicksKeepOrder(host, entries[..n], times[..n], minValidity);
      if Pick(host, entries[n], times[n] + minValidity + MARGIN) != [] {
        at := at + [n];
      }
    }
  }

  /** Every selected credential comes from a usable entry and expires, if at all, after `minValidity`
      plus the margin from the moment the selection began. */
  lemma {:induction false} PicksAreSound(host: Host, entries: seq<Entry>, times: seq<int>, minValidity: int,
                                         from: int, c: Credential)
    requires |entries| == |times| && (forall i | 0 <= i < |times| :: from <= times[i])
    requires c in Picks(host, entries, times, minValidity)
    ensures LivesBeyond(host, c, from + minValidity + MARGIN)
    ensures exists e :: e in entries && Usable(host, e) && e.authIndex == c.authIndex
  {
    var n := |entries| - 1;
    if c in Pick(host, entries[n], times[n] + minValidity + MARGIN) {
      assert entries[n] in entries;
    } else {
      PicksAreSound(host, entries[..n], times[..n], minValidity, from, c);
      var e :| e in entries[..n] && Usable(host, e) && e.authIndex == c.authIndex;
      assert e in entries;
    }
  }

  /** No usable entry is passed over unless its token says it expires too soon. */
  lemma {:induction false} PicksAreComplete(host: Host, entries: seq<Entry>, times: seq<int>, minValidity: int,
                                            until: int, e: Entry)
    requires |entries| == |times| && (forall i | 0 <= i < |times| :: times[i] <= until)
    requires e in entries && Usable(host, e)
    requires !ExpiresBefore(host, host.fetch(e.authIndex).value.token, until + minValidity + MARGIN)
    ensures exists c :: c in Picks(host, entries, times, minValidity) && c.authIndex == e.authIndex
  {
    var n := |entries| - 1;
    if e == entries[n] {
      assert Pick(host, e, times[n] + minValidity + MARGIN)[0] in Picks(host, entries, times, minValidity);
    } else {
      assert entries == entries[..n] + [entries[n]];
      PicksAreComplete(host, entries[..n], times[..n], minValidity, until, e);
      var c :| c in Picks(host, entries[..n], times[..n], minValidity) && c.authIndex == e.authIndex;
      assert c in Picks(host, entries, times, minValidity);
    }
  }
}

module Executor {
  import opened Clock
  import opened Credentials
  import Control
  import opened Wrappers

  /** The remaining time in whole seconds, a begun second counting as one; 0 when nothing remains. */
  function CeilSeconds(remaining: int): int {
    if remaining <= 0 then 0 else (remaining + SECOND - 1) / SECOND
  }

  lemma CeilSecondsIsCeiling(remaining: int)
    requires remaining > 0
    ensures remaining <= CeilSeconds(remaining) * SECOND < remaining + SECOND
    ensures CeilSeconds(remaining) >= 1
  {
  }

  method HasRefreshedCredential(previous: seq<Credential>, current: seq<Credential>) returns (refreshed: bool)
    ensures refreshed <==> exists c :: c in current && forall p :: p in previous ==> p.token != c.token
  {
    var oldTokens: set<string> := {};
    for i := 0 to |previous|
      invariant forall t :: t in oldTokens <==> exists j :: 0 <= j < i && previous[j].token == t
    {
      oldTokens := oldTokens + {previous[i].token};
    }
    for i := 0 to |current|
      invariant forall j | 0 <= j < i :: current[j].token in oldTokens
    {
      if current[i].token !in oldTokens {
        assert forall p :: p in previous ==> p.token in oldTokens;
        return true;
      }
    }
    refreshed := false;
    forall c | c in current
      ensures exists p :: p in previous && p.token == c.token
    {
      assert c.token in oldTokens;
      var j :| 0 <= j < |previous| && previous[j].token == c.token;
      assert previous[j] in previous;
    }
  }

  datatype Reply = Success(body: string) | StatusError(status: int) | OtherError

  datatype Result =
    | Done(body: string)
    | DeadlineExceeded
    | HostError
    | NoCredentials
    | Failed(reply: Reply)

  /** One request sent to the helper: when, with what, and for how many seconds. */
  datatype Sent = Sent(at: int, credentials: seq<Credential>, timeoutSeconds: int)

  /** A request that may be sent: it carries tokens, all of which outlive the deadline by more than
      the margin, and gives the helper the remaining time rounded up to a whole second. */
  ghost predicate GoodCall(host: Host, s: Sent, deadline: int) {
    && s.credentials != []
    && (forall c :: c in s.credentials ==> LivesBeyond(host, c, deadline + MARGIN))
    && s.at < deadline && deadline - s.at <= s.timeoutSeconds * SECOND < deadline - s.at + SECOND
  }

  /** Every usable entry of the host whose token does not expire before `horizon` is among `tokens`. */
  ghost predicate Covers(host: Host, tokens: set<string>, horizon: int) {
    host.list.Some? ==>
      forall e | e in host.list.value && Usable(host, e) ::
        ExpiresBefore(host, host.fetch(e.authIndex).value.token, horizon)
        || host.trim(host.fetch(e.authIndex).value.token) in tokens
  }

  lemma CoversMonotone(host: Host, some: set<string>, more: set<string>, horizon: int, later: int)
    requires Covers(host, some, horizon) && some <= more && horizon <= later
    ensures Covers(host, more, later)
  {
  }

  ghost function Tokens(credentials: seq<Credential>): set<string> {
    set i | 0 <= i < |credentials| :: credentials[i].token
  }

  lemma LoadedCover(host: Host, times: seq<int>, remaining: int, until: int, credentials: seq<Credential>)
    requires host.list.Some? && |times| == |StableSort(host.list.value)|
    requires forall i | 0 <= i < |times| :: times[i] <= until
    requires credentials == Picks(host, StableSort(host.list.value), times, remaining)
    requires forall c :: c in credentials ==>
      host.fetch(c.authIndex).Some? && c.token == host.trim(host.fetch(c.authIndex).value.token)
    ensures Covers(host, Tokens(credentials), until + remaining + MARGIN)
  {
    var sorted := StableSort(host.list.value);
    SortIsStable(host.list.value, 0);
    forall e | e in host.list.value && Usable(host, e)
      && !ExpiresBefore(host, host.fetch(e.authIndex).value.token, until + remaining + MARGIN)
      ensures host.trim(host.fetch(e.authIndex).value.token) in Tokens(credentials)
    {
      assert e in multiset(sorted);
      PicksAreComplete(host, sorted, times, remaining, until, e);
    }
  }

  /** The credentials an attempt may offer; none when the host fails. */
  method LoadForDeadline(host: Host, remaining: int, clock: SystemClock, ghost deadline: int)
    returns (credentials: seq<Credential>)
    requires deadline <= clock.now + remaining
    modifies clock
    ensures clock.now >= old(clock.now)
    ensures forall c :: c in credentials ==> LivesBeyond(host, c, deadline + MARGIN)
    ensures host.list.None? ==> credentials == []
    ensures Covers(host, Tokens(credentials), clock.now + remaining + MARGIN)
  {
    if host.list.None? { return []; }
    ghost var times;
    credentials, times := LoadCredentials(host, host.list.value, remaining, clock);
    forall c | c in credentials
      ensures LivesBeyond(host, c, deadline + MARGIN)
    {
      PicksAreSound(host, StableSort(host.list.value), times, remaining, deadline - remaining, c);
    }
    LoadedCover(host, times, remaining, clock.now, credentials);
  }

  /** What an attempt offers; a retry offers nothing unless some token is new. */
  method Select(host: Host, previous: seq<Credential>, retry: bool, remaining: int, clock: SystemClock,
                ghost deadline: int)
    returns (selected: Option<seq<Credential>>)
    requires deadline <= clock.now + remaining && (!retry ==> previous == [])
    modifies clock
    ensures clock.now >= old(clock.now)
    ensures selected.None? ==> Covers(host, Tokens(previous), clock.now + remaining + MARGIN)
    ensures selected.Some? ==>
      selected.value != [] && forall c :: c in selected.value ==> LivesBeyond(host, c, deadline + MARGIN)
    ensures selected.Some? && retry ==>
      exists c :: c in selected.value && forall p :: p in previous ==> p.token != c.token
  {
    var credentials := LoadForDeadline(host, remaining, clock, deadline);
    ghost var horizon := clock.now + remaining + MARGIN;
    if credentials == [] {
      CoversMonotone(host, Tokens(credentials), Tokens(previous), horizon, horizon);
      return None;
    }
    if retry {
      var refreshed := HasRefreshedCredential(previous, credentials);
      if !refreshed {
        CoversMonotone(host, Tokens(credentials), Tokens(previous), horizon, horizon);
        return None;
      }
    }
    selected := Some(credentials);
  }

  /** `hosts(k)` is the host at attempt k and `replies(k)` what the helper answers to it. */
  method ExecuteHelper(hosts: nat -> Host, replies: nat -> Reply, timeout: int, clock: SystemClock)
    returns (result: Result, ghost deadline: int, ghost calls: seq<Sent>, ghost judged: int)
    modifies clock
    ensures deadline >= old(clock.now) + timeout
    ensures |calls| <= 2 && forall i | 0 <= i < |calls| :: GoodCall(hosts(i), calls[i], deadline)
    // the retry happens only after a 401, and only with a token that was not offered before
    ensures |calls| == 2 ==>
      && replies(0) == StatusError(401)
      && exists c :: c in calls[1].credentials && forall p :: p in calls[0].credentials ==> p.token != c.token
    // there is no call, or no retry after a 401, only for want of time or of a new token that outlives the
    // deadline by the margin and the time the selection took; it began at `judged`
    ensures old(clock.now) <= judged <= clock.now
    ensures calls == [] && !result.DeadlineExceeded? ==>
      Covers(hosts(0), {}, deadline + MARGIN + (clock.now - judged))
    ensures |calls| == 1 && replies(0) == StatusError(401) && !result.DeadlineExceeded? ==>
      calls[0].at <= judged && Covers(hosts(1), Tokens(calls[0].credentials), deadline + MARGIN + (clock.now - judged))
    // the caller gets the answer to the last call, or the reason there is none
    ensures result.Done? ==> calls != [] && replies(|calls| - 1) == Success(result.body)
    ensures result.Failed? ==> calls != [] && result.reply == replies(|calls| - 1) && !result.reply.Success?
    ensures calls != [] ==>
      result.Done? || result.Failed? || (result.DeadlineExceeded? && replies(0) == StatusError(401))
  {
    var start := clock.Read();
    var limit := start + timeout;
    deadline, calls, judged := limit, [], start;
    var previous: seq<Credential> := [];
    for attempt := 0 to 2
      invariant |calls| == attempt && start <= judged <= clock.now
      invariant forall i | 0 <= i < |calls| :: GoodCall(hosts(i), calls[i], deadline)
      invariant attempt == 0 ==> previous == []
      invariant attempt == 1 ==> replies(0) == StatusError(401) && previous == calls[0].credentials
      invariant attempt == 1 ==> calls[0].at <= clock.now
      invariant attempt == 2 ==> false
    {
      var now := clock.Read();
      var remaining := limit - now;
      judged := now;
      if remaining <= 0 { return DeadlineExceeded, deadline, calls, judged; }
      var host := hosts(attempt);
      assert attempt == 0 ==> Tokens(previous) == {};
      var selected := Select(host, previous, attempt > 0, remaining, clock, deadline);
      if selected.None? {
        if attempt > 0 { return Failed(replies(0)), deadline, calls, judged; }
        return if host.list.None? then HostError else NoCredentials, deadline, calls, judged;
      }
      var credentials := selected.value;
      now := clock.Read();
      var seconds := CeilSeconds(limit - now);
      if seconds <= 0 { return DeadlineExceeded, deadline, calls, judged; }
      CeilSecondsIsCeiling(limit - now);
      calls := calls + [Sent(now, credentials, seconds)];
      var reply := replies(attempt);
      if reply.Success? { return Done(reply.body), deadline, calls, judged; }
      if attempt == 0 && reply == StatusError(401) {
        previous := credentials;
      } else {
        return Failed(reply), deadline, calls, judged;
      }
    }
    assert false;
  }

  /** The helper starts its own clock when the request arrives and keeps its own deadline, which the
      round-up to whole seconds can push past the Go deadline. A token that was sent still outlives it
      whenever delivery took at most 29 seconds; a wait that the helper hands out ends at most a millisecond
      after the token does. */
  lemma TokensOutliveHelperDeadline(host: Host, s: Sent, deadline: int, arrival: int, c: Credential, now: int,
                                    maximum: Option<int>)
    requires GoodCall(host, s, deadline) && c in s.credentials
    requires s.at <= arrival <= s.at + 29 * SECOND
    ensures host.fetch(c.authIndex).Some?
    ensures var raw := host.fetch(c.authIndex).value.token;
            var helperDeadline := arrival + Max(s.timeoutSeconds * SECOND, 10 * MILLISECOND);
            var wait := Control.TimeoutAt(helperDeadline, false, now, maximum);
            host.exp(raw).Some? ==>
              && helperDeadline < host.exp(raw).value * SECOND
              && (wait.Some? ==> now + wait.value < host.exp(raw).value * SECOND + MILLISECOND)
  {
    var helperDeadline := arrival + Max(s.timeoutSeconds * SECOND, 10 * MILLISECOND);
    assert LivesBeyond(host, c, deadline + MARGIN);
    assert helperDeadline < deadline + MARGIN;
    Control.TimeoutsEndInTime(helperDeadline, false, now, maximum);
  }
}
