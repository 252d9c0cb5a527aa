/** Any number of goroutines (or helper threads) write frames to one pipe. Each write is two
    separate pipe operations, header then body; a mutex spans both (helper_client.go:148-163,
    helper/main.py:41-47). */
module FrameWriters {
  import opened Framing

  type Writer = nat

  datatype Phase = Waiting | Locked | HeaderWritten | Finished | Failed

  datatype Job = Job(payload: seq<byte>, phase: Phase)

  /** `sent` and `order` are history: the payloads whose body write succeeded, and whose they were, in
      the order of those writes. A failed write leaves any prefix of its bytes and breaks the pipe;
      nothing can be written to a broken pipe. */
  datatype Pipe = Pipe(wire: seq<byte>, broken: bool, lock: set<Writer>,
                       jobs: map<Writer, Job>, sent: seq<seq<byte>>, order: seq<Writer>)

  datatype Action =
    | Submit(w: Writer, payload: seq<byte>)
    | Proceed(w: Writer)
    | WriteError(w: Writer, cut: nat)

  function Empty(): Pipe {
    Pipe([], false, {}, map[], [], [])
  }

  function SetPhase(s: Pipe, w: Writer, phase: Phase): Pipe
    requires w in s.jobs
  {
    s.(jobs := s.jobs[w := s.jobs[w].(phase := phase)])
  }

  function Fail(s: Pipe, w: Writer, chunk: seq<byte>, cut: nat): Pipe
    requires w in s.jobs
  {
    SetPhase(s.(wire := if s.broken then s.wire else s.wire + Take(chunk, cut), broken := true, lock := s.lock - {w}),
             w, Failed)
  }

  function Next(s: Pipe, a: Action): Pipe {
    match a
    case Submit(w, payload) =>
      if w in s.jobs then s else s.(jobs := s.jobs[w := Job(payload, Waiting)])
    case Proceed(w) =>
      if w !in s.jobs then s else
      var p := s.jobs[w].payload;
      (match s.jobs[w].phase
       case Waiting => if s.lock == {} then SetPhase(s.(lock := {w}), w, Locked) else s
       case Locked =>
         if s.broken then Fail(s, w, Header(|p|), 0)
         else SetPhase(s.(wire := s.wire + Header(|p|)), w, HeaderWritten)
       case HeaderWritten =>
         if s.broken then Fail(s, w, p, 0)
         else SetPhase(s.(wire := s.wire + p, lock := s.lock - {w}, sent := s.sent + [p], order := s.order + [w]),
                       w, Finished)
       case _ => s)
    case WriteError(w, cut) =>
      if w !in s.jobs then s else
      var p := s.jobs[w].payload;
      (match s.jobs[w].phase
       case Locked => if cut < 4 then Fail(s, w, Header(|p|), cut) else s
       case HeaderWritten => if cut < |p| then Fail(s, w, p, cut) else s
       case _ => s)
  }

  function Run(s: Pipe, actions: seq<Action>): Pipe
    decreases |actions|
  {
    if actions == [] then s else Run(Next(s, actions[0]), actions[1..])
  }

  predicate Holding(phase: Phase) { phase.Locked? || phase.HeaderWritten? }

  ghost predicate Mutex(s: Pipe) {
    && (forall w :: w in s.lock <==> w in s.jobs && Holding(s.jobs[w].phase))
    && (forall v, w :: v in s.lock && w in s.lock ==> v == w)
  }

  /** Bytes of a frame that has been started and not finished. */
  ghost predicate PartOf(jobs: map<Writer, Job>, rest: seq<byte>) {
    rest == [] || exists w :: w in jobs && rest < Encode(jobs[w].payload)
  }

  /** The pipe holds whole frames followed by `rest`, and the lock owner knows what `rest` is. */
  ghost predicate Tail(s: Pipe, rest: seq<byte>) {
    && s.wire == Wire(s.sent) + rest
    && PartOf(s.jobs, rest)
    && (!s.broken ==>
      && (s.lock == {} ==> rest == [])
      && forall w :: w in s.lock && w in s.jobs ==>
        rest == if s.jobs[w].phase.Locked? then [] else Header(|s.jobs[w].payload|))
  }

  ghost predicate JobsOk(s: Pipe) {
    forall w :: w in s.jobs ==> Sendable(s.jobs[w].payload)
  }

  ghost predicate Finisher(s: Pipe, w: Writer) {
    w in s.jobs && s.jobs[w].phase.Finished?
  }

  /** One payload for each finished writer, each writer once. */
  ghost predicate OrderOk(s: Pipe) {
    && |s.order| == |s.sent|
    && (forall i | 0 <= i < |s.order| :: Finisher(s, s.order[i]) && s.sent[i] == s.jobs[s.order[i]].payload)
    && (forall i, j | 0 <= i < j < |s.order| :: s.order[i] != s.order[j])
    && (forall w | Finisher(s, w) :: w in s.order)
  }

  ghost predicate Inv(s: Pipe) {
    && Mutex(s)
    && JobsOk(s)
    && AllSendable(s.sent)
    && Wire(s.sent) <= s.wire
    && Tail(s, s.wire[|Wire(s.sent)|..])
  }

  lemma Establish(s: Pipe, rest: seq<byte>)
    requires Mutex(s) && JobsOk(s)
    requires AllSendable(s.sent) && Tail(s, rest)
    ensures Inv(s)
  {
    assert s.wire[|Wire(s.sent)|..] == rest;
  }

  lemma PartOfGrows(jobs: map<Writer, Job>, jobs': map<Writer, Job>, rest: seq<byte>)
    requires PartOf(jobs, rest)
    requires forall w :: w in jobs ==> w in jobs' && jobs'[w].payload == jobs[w].payload
    ensures PartOf(jobs', rest)
  {
    if rest != [] {
      var w :| w in jobs && rest < Encode(jobs[w].payload);
      assert jobs'[w].payload == jobs[w].payload;
    }
  }

  lemma BrokenFailKeepsInv(s: Pipe, w: Writer, chunk: seq<byte>, cut: nat)
    requires Inv(s) && w in s.lock && s.broken
    ensures Inv(Fail(s, w, chunk, cut))
  {
    var rest := s.wire[|Wire(s.sent)|..];
    PartOfGrows(s.jobs, Fail(s, w, chunk, cut).jobs, rest);
    Establish(Fail(s, w, chunk, cut), rest);
  }

  lemma PrefixOfEncoding(p: seq<byte>, rest: seq<byte>, chunk: seq<byte>, cut: nat)
    requires rest + chunk <= Encode(p) && cut < |chunk|
    ensures rest + chunk[..cut] < Encode(p)
  {
    assert rest + chunk[..cut] == (rest + chunk)[..|rest| + cut];
  }

  lemma FailKeepsInv(s: Pipe, w: Writer, chunk: seq<byte>, cut: nat)
    requires Inv(s) && w in s.lock && cut < |chunk|
    requires chunk == if s.jobs[w].phase.Locked? then Header(|s.jobs[w].payload|) else s.jobs[w].payload
    ensures Inv(Fail(s, w, chunk, cut))
  {
    if s.broken {
      BrokenFailKeepsInv(s, w, chunk, cut);
    } else {
      var s' := Fail(s, w, chunk, cut);
      var rest := s.wire[|Wire(s.sent)|..];
      var rest' := rest + chunk[..cut];
      assert s'.wire == Wire(s'.sent) + rest';
      PrefixOfEncoding(s.jobs[w].payload, rest, chunk, cut);
      assert w in s'.jobs && s'.jobs[w].payload == s.jobs[w].payload;
      Establish(s', rest');
    }
  }

  lemma FinishedWire(sent: seq<seq<byte>>, p: seq<byte>)
    ensures Wire(sent) + Header(|p|) + p == Wire(sent + [p]) + []
  {
    WireAppend(sent, p);
    assert Wire(sent) + Header(|p|) + p == Wire(sent) + Encode(p);
  }

  lemma FinishKeepsInv(s: Pipe, w: Writer)
    requires Inv(s) && w in s.jobs && s.jobs[w].phase.HeaderWritten? && !s.broken
    ensures Inv(Next(s, Proceed(w)))
  {
    var p := s.jobs[w].payload;
    var s' := Next(s, Proceed(w));
    assert w in s.lock;
    assert s.wire == Wire(s.sent) + s.wire[|Wire(s.sent)|..];
    FinishedWire(s.sent, p);
    assert s'.lock == {} && s'.sent[|s.sent|] == p;
    assert PartOf(s'.jobs, []);
    Establish(s', []);
  }

  lemma StartKeepsInv(s: Pipe, w: Writer)
    requires Inv(s) && w in s.jobs && s.jobs[w].phase.Locked? && !s.broken
    ensures Inv(Next(s, Proceed(w)))
  {
    var p := s.jobs[w].payload;
    var s' := Next(s, Proceed(w));
    assert w in s.lock;
    assert Header(|p|) < Encode(s'.jobs[w].payload);
    Establish(s', Header(|p|));
  }

  lemma ProceedKeepsInv(s: Pipe, w: Writer)
    requires Inv(s) && w in s.jobs
    ensures Inv(Next(s, Proceed(w)))
  {
    var p := s.jobs[w].payload;
    var rest := s.wire[|Wire(s.sent)|..];
    match s.jobs[w].phase {
      case Waiting =>
        var s' := Next(s, Proceed(w));
        PartOfGrows(s.jobs, s'.jobs, rest);
        Establish(s', rest);
      case Locked =>
        if s.broken { FailKeepsInv(s, w, Header(|p|), 0); } else { StartKeepsInv(s, w); }
      case HeaderWritten =>
        if s.broken { FailKeepsInv(s, w, p, 0); } else { FinishKeepsInv(s, w); }
      case Finished =>
      case Failed =>
    }
  }

  lemma NextKeepsInv(s: Pipe, a: Action)
    requires Inv(s) && (a.Submit? ==> Sendable(a.payload))
    ensures Inv(Next(s, a))
  {
    match a {
      case Submit(w, payload) =>
        var s' := Next(s, a);
        PartOfGrows(s.jobs, s'.jobs, s.wire[|Wire(s.sent)|..]);
        Establish(s', s.wire[|Wire(s.sent)|..]);
      case Proceed(w) =>
        if w in s.jobs { ProceedKeepsInv(s, w); }
      case WriteError(w, cut) =>
        if w in s.jobs {
          var p := s.jobs[w].payload;
          if s.jobs[w].phase.Locked? && cut < 4 {
            FailKeepsInv(s, w, Header(|p|), cut);
          } else if s.jobs[w].phase.HeaderWritten? && cut < |p| {
            FailKeepsInv(s, w, p, cut);
          }
        }
    }
  }

  lemma {:induction false} RunKeepsInv(s: Pipe, actions: seq<Action>)
    requires Inv(s)
    requires forall i | 0 <= i < |actions| :: actions[i].Submit? ==> Sendable(actions[i].payload)
    ensures Inv(Run(s, actions))
    decreases |actions|
  {
    if actions != [] {
      NextKeepsInv(s, actions[0]);
      RunKeepsInv(Next(s, actions[0]), actions[1..]);
    }
  }

  lemma SameFinishers(s: Pipe, s': Pipe)
    requires OrderOk(s) && s'.order == s.order && s'.sent == s.sent
    requires forall w :: Finisher(s, w) <==> Finisher(s', w)
    requires forall w | w in s.jobs :: w in s'.jobs && s'.jobs[w].payload == s.jobs[w].payload
    ensures OrderOk(s')
  {
  }

  lemma FinishKeepsOrder(s: Pipe, w: Writer)
    requires OrderOk(s) && w in s.jobs && s.jobs[w].phase.HeaderWritten? && !s.broken
    ensures OrderOk(Next(s, Proceed(w)))
  {
    var s' := Next(s, Proceed(w));
    assert !Finisher(s, w);
    forall i | 0 <= i < |s'.order|
      ensures Finisher(s', s'.order[i]) && s'.sent[i] == s'.jobs[s'.order[i]].payload
    {
      assert i < |s.order| ==> Finisher(s, s.order[i]);
    }
    forall v | Finisher(s', v)
      ensures v in s'.order
    {
      assert v != w ==> Finisher(s, v);
      assert s'.order[|s.order|] == w;
    }
  }

  lemma NextKeepsOrder(s: Pipe, a: Action)
    requires OrderOk(s)
    ensures OrderOk(Next(s, a)) && s.order <= Next(s, a).order
  {
    if a.Proceed? && a.w in s.jobs && s.jobs[a.w].phase.HeaderWritten? && !s.broken {
      FinishKeepsOrder(s, a.w);
    } else {
      SameFinishers(s, Next(s, a));
    }
  }

  /** Completed writes are never reordered or forgotten. */
  lemma {:induction false} RunKeepsOrder(s: Pipe, actions: seq<Action>)
    requires OrderOk(s)
    ensures OrderOk(Run(s, actions)) && s.order <= Run(s, actions).order
    decreases |actions|
  {
    if actions != [] {
      NextKeepsOrder(s, actions[0]);
      RunKeepsOrder(Next(s, actions[0]), actions[1..]);
    }
  }

  lemma ReadsWholeFramesOnly(sent: seq<seq<byte>>, p: seq<byte>, rest: seq<byte>)
    requires AllSendable(sent) && Sendable(p) && rest < Encode(p)
    ensures ReadAll(Wire(sent) + rest).0 == sent && ReadAll(Wire(sent) + rest).1 != Rejected
  {
    var frames := sent + [p];
    var k := |Wire(sent) + rest|;
    WireAppend(sent, p);
    assert Wire(frames)[..k] == Wire(sent) + rest;
    Truncation(frames, k);
    assert frames[..|sent|] == sent && frames[..|sent| + 1] == frames;
    CutIsUnique(frames, k, ReadAll(Wire(sent) + rest).0, |sent|);
  }

  lemma InvReads(s: Pipe)
    requires Inv(s)
    ensures ReadAll(s.wire).0 == s.sent && ReadAll(s.wire).1 != Rejected
  {
    var rest := s.wire[|Wire(s.sent)|..];
    assert s.wire == Wire(s.sent) + rest;
    if rest == [] {
      RoundTrip(s.sent);
      assert s.wire == Wire(s.sent);
    } else {
      var w :| w in s.jobs && rest < Encode(s.jobs[w].payload);
      ReadsWholeFramesOnly(s.sent, s.jobs[w].payload, rest);
    }
  }

  /** Whatever the interleaving and wherever a write fails, the reader at the other end gets exactly one
      payload for each writer that succeeded, in the order in which their writes completed. */
  lemma ReaderGetsWhatWasSent(actions: seq<Action>)
    requires forall i | 0 <= i < |actions| :: actions[i].Submit? ==> Sendable(actions[i].payload)
    ensures var s := Run(Empty(), actions);
            && ReadAll(s.wire).0 == s.sent && ReadAll(s.wire).1 != Rejected
            && OrderOk(s)
  {
    Establish(Empty(), []);
    RunKeepsInv(Empty(), actions);
    RunKeepsOrder(Empty(), actions);
    InvReads(Run(Empty(), actions));
  }

  lemma {:induction false} WireMonotone(frames: seq<seq<byte>>, i: nat, j: nat)
    requires i <= j <= |frames|
    ensures |Wire(frames[..i])| <= |Wire(frames[..j])|
    decreases j
  {
    if i < j {
      assert frames[..j] == frames[..j - 1] + [frames[j - 1]];
      WireAppend(frames[..j - 1], frames[j - 1]);
      WireMonotone(frames, i, j - 1);
    }
  }

  lemma CutIsUnique(frames: seq<seq<byte>>, k: nat, got: seq<seq<byte>>, n: nat)
    requires got <= frames && |Wire(got)| <= k && (|got| < |frames| ==> k < |Wire(frames[..|got| + 1])|)
    requires n < |frames| && |Wire(frames[..n])| <= k < |Wire(frames[..n + 1])|
    ensures got == frames[..n]
  {
    assert got == frames[..|got|];
    if |got| < n {
      WireMonotone(frames, |got| + 1, n);
    } else if n < |got| {
      WireMonotone(frames, n + 1, |got|);
    }
  }
}
