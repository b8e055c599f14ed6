/**
 The outer round loop of the execution driver: `times` rounds, each of which
 builds a fresh execute request, writes it, and waits with the receive loop
 for the message that ends the round; every 30th round is followed by a
 pause.

 The run is modelled as a state machine over the trace it leaves: `Advance`
 plays one round on the trace so far, `AdvanceAll` repeats it until the rounds
 are done or one of them ends the run. The fresh message ids and the outcome
 of every write are given as oracle sequences indexed by round; the inbound
 messages are one sequence shared by all rounds, each round consuming it up
 to and including its terminal message.
 */
module Driver {
  import opened Envelope
  import opened Correlation

  /** The driver pauses once every this many rounds. */
  const PacingPeriod: nat := 30

  /** Whether the driver pauses after the round with 0-based index `i`. */
  predicate PauseAfter(i: nat) {
    (i + 1) % PacingPeriod == 0
  }

  /** The number of rounds a loop `for i := 0; i < times; i++` runs. */
  function Rounds(times: int): nat {
    if times < 0 then 0 else times
  }

  /** The pause decision of round `i`, as a stretch of pauses. */
  function PauseOf(i: nat): seq<nat> {
    if PauseAfter(i) then [i] else []
  }

  /** The pauses the driver makes after its first `n` rounds, in order. */
  function Schedule(n: nat): seq<nat> {
    if n == 0 then [] else Schedule(n - 1) + PauseOf(n - 1)
  }

  /** The pacing rule: a pause follows exactly the rounds whose 1-based
      number is a positive multiple of 30 (rounds 30, 60, 90, and never 15
      or 29). */
  lemma PacingRule(i: nat)
    ensures PauseAfter(i) <==> exists m: nat :: 0 < m && i + 1 == PacingPeriod * m
    ensures PauseAfter(29) && PauseAfter(59) && PauseAfter(89)
    ensures !PauseAfter(14) && !PauseAfter(28)
  {
    if PauseAfter(i) {
      var m: nat := (i + 1) / PacingPeriod;
      assert i + 1 == PacingPeriod * m;
    }
  }

  /** The schedule holds exactly the rounds after which the pacing rule
      fires. */
  lemma {:induction false} ScheduleMembers(n: nat)
    ensures forall p: nat :: p in Schedule(n) <==> p < n && PauseAfter(p)
  {
    if n > 0 {
      ScheduleMembers(n - 1);
      forall p: nat
        ensures p in Schedule(n) <==> p < n && PauseAfter(p)
      {
        assert p in Schedule(n) <==> p in Schedule(n - 1) || p in PauseOf(n - 1);
      }
    }
  }

  /** One more round adds a pause exactly when the pacing rule fires. */
  lemma PauseStep(i: nat)
    ensures (i + 1) / PacingPeriod == i / PacingPeriod + |PauseOf(i)|
  {
    var q, r := i / PacingPeriod, i % PacingPeriod;
    assert i == PacingPeriod * q + r;
    if r + 1 == PacingPeriod {
      assert i + 1 == PacingPeriod * (q + 1);
    } else {
      assert i + 1 == PacingPeriod * q + (r + 1) && r + 1 < PacingPeriod;
    }
  }

  /** The first `n` rounds pause once per multiple of 30 they reach. */
  lemma {:induction false} ScheduleCount(n: nat)
    ensures |Schedule(n)| == n / PacingPeriod
  {
    if n > 0 {
      ScheduleCount(n - 1);
      PauseStep(n - 1);
    }
  }

  /** The execute requests of the first `n` rounds, each built from its
      round's fresh id. */
  function Requests(ids: seq<string>, n: nat, code: string): seq<Message>
    requires n <= |ids|
  {
    if n == 0 then [] else Requests(ids, n - 1, code) + [BuildRequest(ids[n - 1], code)]
  }

  /** The request of round `k` is built from the `k`-th fresh id. */
  lemma {:induction false} RequestsAt(ids: seq<string>, n: nat, code: string, k: nat)
    requires n <= |ids| && k < n
    ensures |Requests(ids, n, code)| == n
    ensures Requests(ids, n, code)[k] == BuildRequest(ids[k], code)
  {
    if k < n - 1 {
      RequestsAt(ids, n - 1, code, k);
    } else if n > 1 {
      RequestsAt(ids, n - 1, code, 0);
    }
  }

  /** How a run stands. `round` is the 0-based index of the round in which
      it stopped. */
  datatype Ending =
    | Completed                          // every round started so far has finished
    | WriteFailed(round: nat)            // writing the round's request failed
    | Aborted(round: nat, fault: Fault)  // a message ended the whole run
    | Blocked(round: nat)                // the inbound messages ran out: the client waits forever

  /** What a run did: the requests it wrote, the reply that ended each
      finished round and the inbound position of that reply, the rounds after
      which it paused, how it stands, and how many inbound messages it read. */
  datatype Trace = Trace(
    sent: seq<Message>,
    replies: seq<Reply>,
    stops: seq<nat>,
    pauses: seq<nat>,
    ending: Ending,
    consumed: nat)

  /** The trace before the first round. */
  const Start := Trace([], [], [], [], Completed, 0)

  /** The inbound position round `k` starts reading from: right after the
      message that ended the round before it. */
  function RoundStart(stops: seq<nat>, k: nat): nat
    requires k <= |stops|
  {
    if k == 0 then 0 else stops[k - 1] + 1
  }

  /** Whether the run can play round `|t.replies|` after the trace `t`. */
  predicate CanAdvance(t: Trace, ids: seq<string>, writeOk: seq<bool>, inbound: seq<Inbound>) {
    t.ending.Completed? && |t.replies| < |ids| && |t.replies| < |writeOk| && t.consumed <= |inbound|
  }

  /** One round, played after the trace `t`: the round's index is the number
      of rounds finished so far and its reading starts where the previous
      round stopped. */
  function Advance(t: Trace, code: string, ids: seq<string>, writeOk: seq<bool>, inbound: seq<Inbound>): (r: Trace)
    requires CanAdvance(t, ids, writeOk, inbound)
    // nothing the run already did is undone
    ensures t.sent <= r.sent && t.replies <= r.replies && t.stops <= r.stops && t.pauses <= r.pauses
    // a request goes out unless its write fails, and a reply is kept exactly when the round finishes
    ensures |r.sent| == |t.sent| + (if r.ending.WriteFailed? then 0 else 1)
    ensures |r.replies| == |t.replies| + (if r.ending.Completed? then 1 else 0)
    ensures |r.stops| == |t.stops| + (if r.ending.Completed? then 1 else 0)
    ensures |r.pauses| <= |t.pauses| + 1
    ensures !r.ending.Completed? ==> r.ending.round == |t.replies|
    // reading goes on from where it stopped
    ensures t.consumed <= r.consumed <= |inbound|
    ensures !r.ending.WriteFailed? && !r.ending.Blocked? ==> t.consumed < r.consumed
  {
    var i := |t.replies|;
    if !writeOk[i] then t.(ending := WriteFailed(i))
    else
      var sent := t.sent + [BuildRequest(ids[i], code)];
      match Receive(inbound, t.consumed, ids[i])
      case Starved => t.(sent := sent, ending := Blocked(i), consumed := |inbound|)
      case Failed(at, fault) => t.(sent := sent, ending := Aborted(i, fault), consumed := at + 1)
      case Replied(at, reply) =>
        Trace(sent, t.replies + [reply], t.stops + [at], t.pauses + PauseOf(i), Completed, at + 1)
  }

  /** The rounds from `|t.replies|` on, until `times` rounds have finished or
      one of them ends the run. */
  function AdvanceAll(t: Trace, times: int, code: string, ids: seq<string>, writeOk: seq<bool>, inbound: seq<Inbound>): (r: Trace)
    requires times <= |ids| && times <= |writeOk| && t.consumed <= |inbound|
    requires |t.replies| <= Rounds(times)
    decreases Rounds(times) - |t.replies|
    ensures t.sent <= r.sent && t.replies <= r.replies && t.stops <= r.stops && t.pauses <= r.pauses
    ensures r.ending.Completed? ==> |r.replies| == Rounds(times)
    ensures t.ending.Completed? && !r.ending.Completed? ==> |r.replies| < Rounds(times)
    ensures !t.ending.Completed? ==> r == t
    ensures t.consumed <= r.consumed <= |inbound|
  {
    if !t.ending.Completed? || |t.replies| == Rounds(times) then t
    else
      var next := Advance(t, code, ids, writeOk, inbound);
      if next.ending.Completed? then AdvanceAll(next, times, code, ids, writeOk, inbound) else next
  }

  /** Each of the finished rounds ended on the first message terminal for
      its request, reading from where the round before it stopped, and kept
      that message's reply: `stops[k]` is where round `k` ended. */
  predicate Replayed(stops: seq<nat>, replies: seq<Reply>, ids: seq<string>, inbound: seq<Inbound>) {
    && |stops| == |replies| <= |ids|
    && forall k {:trigger replies[k]} | 0 <= k < |replies| ::
         RoundStart(stops, k) <= stops[k] < |inbound| &&
         Receive(inbound, RoundStart(stops, k), ids[k]) == Replied(stops[k], replies[k])
  }

  /** Round `k` after one more round is still replayed: an earlier round is
      unaffected, and the new round reads from where the last one stopped. */
  lemma ReplayedExtendsAt(stops: seq<nat>, replies: seq<Reply>, ids: seq<string>, inbound: seq<Inbound>, at: nat, reply: Reply, k: nat)
    requires Replayed(stops, replies, ids, inbound) && |replies| < |ids|
    requires RoundStart(stops, |stops|) <= at < |inbound|
    requires Receive(inbound, RoundStart(stops, |stops|), ids[|replies|]) == Replied(at, reply)
    requires k <= |replies|
    ensures RoundStart(stops + [at], k) <= (stops + [at])[k] < |inbound|
    ensures Receive(inbound, RoundStart(stops + [at], k), ids[k]) == Replied((stops + [at])[k], (replies + [reply])[k])
  {
    var stops', replies' := stops + [at], replies + [reply];
    if k < |replies| {
      assert stops'[k] == stops[k] && replies'[k] == replies[k];
      assert RoundStart(stops', k) == RoundStart(stops, k);
    } else {
      assert stops'[k] == at && replies'[k] == reply;
      assert RoundStart(stops', k) == RoundStart(stops, |stops|);
    }
  }

  /** One more round that ends on the first terminal message after the last
      one keeps the finished rounds replayed. */
  lemma ReplayedExtends(stops: seq<nat>, replies: seq<Reply>, ids: seq<string>, inbound: seq<Inbound>, at: nat, reply: Reply)
    requires Replayed(stops, replies, ids, inbound) && |replies| < |ids|
    requires RoundStart(stops, |stops|) <= |inbound|
    requires Receive(inbound, RoundStart(stops, |stops|), ids[|replies|]) == Replied(at, reply)
    ensures Replayed(stops + [at], replies + [reply], ids, inbound)
  {
    forall k | 0 <= k < |replies| + 1
      ensures RoundStart(stops + [at], k) <= (stops + [at])[k] < |inbound|
      ensures Receive(inbound, RoundStart(stops + [at], k), ids[k]) == Replied((stops + [at])[k], (replies + [reply])[k])
    {
      ReplayedExtendsAt(stops, replies, ids, inbound, at, reply, k);
    }
  }

  /** How a stopped run stopped agrees with what its last round met: a
      failed write, the first terminal message being a fault, or no terminal
      message at all. A run that has not stopped reads on from where its last
      finished round ended. */
  predicate Explained(t: Trace, ids: seq<string>, writeOk: seq<bool>, inbound: seq<Inbound>)
    requires |t.stops| == |t.replies|
  {
    var from := RoundStart(t.stops, |t.replies|);
    && (!t.ending.Completed? ==> t.ending.round == |t.replies|)
    && (t.ending.Completed? || t.ending.WriteFailed? ==> t.consumed == from)
    && (t.ending.WriteFailed? ==> t.ending.round < |writeOk| && !writeOk[t.ending.round])
    && (t.ending.Aborted? ==>
          && from < t.consumed <= |inbound| && t.ending.round < |ids|
          && Receive(inbound, from, ids[t.ending.round]) == Failed(t.consumed - 1, t.ending.fault))
    && (t.ending.Blocked? ==>
          && t.consumed == |inbound| && from <= |inbound| && t.ending.round < |ids|
          && Receive(inbound, from, ids[t.ending.round]).Starved?)
  }

  /** The shape every reachable trace has: the requests it wrote are the
      first rounds' requests in order, one per finished round plus one for a
      round cut short after its write, and every one of those writes
      succeeded; its finished rounds are replayed from the inbound messages;
      its pauses are the pacing schedule of its finished rounds; and how it
      stands is explained. */
  predicate Coherent(t: Trace, code: string, ids: seq<string>, writeOk: seq<bool>, inbound: seq<Inbound>) {
    && |t.sent| <= |ids|
    && t.sent == Requests(ids, |t.sent|, code)
    && (forall k | 0 <= k < |t.sent| :: k < |writeOk| && writeOk[k])
    && |t.sent| == |t.replies| + (if t.ending.Aborted? || t.ending.Blocked? then 1 else 0)
    && Replayed(t.stops, t.replies, ids, inbound)
    && t.pauses == Schedule(|t.replies|)
    && t.consumed <= |inbound|
    && Explained(t, ids, writeOk, inbound)
  }

  /** Every round keeps a trace coherent. */
  lemma AdvanceKeepsCoherent(t: Trace, code: string, ids: seq<string>, writeOk: seq<bool>, inbound: seq<Inbound>)
    requires CanAdvance(t, ids, writeOk, inbound) && Coherent(t, code, ids, writeOk, inbound)
    ensures Coherent(Advance(t, code, ids, writeOk, inbound), code, ids, writeOk, inbound)
  {
    var i := |t.replies|;
    if writeOk[i] {
      var r := Receive(inbound, t.consumed, ids[i]);
      if r.Replied? {
        ReplayedExtends(t.stops, t.replies, ids, inbound, r.at, r.reply);
      }
    }
  }

  /** Any number of rounds keep a trace coherent. */
  lemma {:induction false} AdvanceAllKeepsCoherent(t: Trace, times: int, code: string, ids: seq<string>, writeOk: seq<bool>, inbound: seq<Inbound>)
    requires times <= |ids| && times <= |writeOk| && t.consumed <= |inbound| && |t.replies| <= Rounds(times)
    requires Coherent(t, code, ids, writeOk, inbound)
    decreases Rounds(times) - |t.replies|
    ensures Coherent(AdvanceAll(t, times, code, ids, writeOk, inbound), code, ids, writeOk, inbound)
  {
    if t.ending.Completed? && |t.replies| < Rounds(times) {
      var next := Advance(t, code, ids, writeOk, inbound);
      AdvanceKeepsCoherent(t, code, ids, writeOk, inbound);
      if next.ending.Completed? {
        AdvanceAllKeepsCoherent(next, times, code, ids, writeOk, inbound);
      }
    }
  }

  /** What a coherent trace says about its requests, its stopped round and
      its pauses, spelled out round by round. */
  lemma CoherentFacts(t: Trace, code: string, ids: seq<string>, writeOk: seq<bool>, inbound: seq<Inbound>)
    requires Coherent(t, code, ids, writeOk, inbound)
    ensures forall k | 0 <= k < |t.sent| :: k < |ids| && t.sent[k] == BuildRequest(ids[k], code)
    ensures t.ending.WriteFailed? ==> |t.sent| == |t.replies| && t.ending.round < |writeOk| && !writeOk[t.ending.round]
    ensures t.ending.Aborted? ==>
              0 < t.consumed <= |inbound| && t.ending.round < |ids| &&
              Classify(inbound[t.consumed - 1], ids[t.ending.round]) == Abort(t.ending.fault)
    ensures forall p: nat :: p in t.pauses <==> p < |t.replies| && PauseAfter(p)
    ensures |t.pauses| == |t.replies| / PacingPeriod
  {
    ScheduleMembers(|t.replies|);
    ScheduleCount(|t.replies|);
    assert Replayed(t.stops, t.replies, ids, inbound);
    assert |t.stops| == |t.replies|;
    assert Explained(t, ids, writeOk, inbound);
    if t.ending.Aborted? {
      var r := Receive(inbound, RoundStart(t.stops, |t.replies|), ids[t.ending.round]);
      assert r == Failed(t.consumed - 1, t.ending.fault);
      assert Classify(inbound[r.at], ids[t.ending.round]) == r.Terminal();
    }
    forall k | 0 <= k < |t.sent|
      ensures t.sent[k] == BuildRequest(ids[k], code)
    {
      RequestsAt(ids, |t.sent|, code, k);
    }
  }

  /** A whole run of `times` rounds over the inbound messages. */
  function Run(times: int, code: string, ids: seq<string>, writeOk: seq<bool>, inbound: seq<Inbound>): (t: Trace)
    requires times <= |ids| && times <= |writeOk|
    // requests: one per started round, built from the fresh ids in order
    ensures |t.replies| <= |t.sent| <= Rounds(times)
    ensures forall k | 0 <= k < |t.sent| :: k < |ids| && t.sent[k] == BuildRequest(ids[k], code)
    // a run that is not cut short finishes exactly `times` rounds and sends exactly `times` requests
    ensures t.ending.Completed? <==> |t.replies| == Rounds(times)
    ensures t.ending.Completed? ==> |t.sent| == Rounds(times)
    // a run cut short stops in the round after its last finished one, for the reason it names
    ensures !t.ending.Completed? ==> t.ending.round == |t.replies|
    ensures t.ending.WriteFailed? ==> |t.sent| == |t.replies| && !writeOk[t.ending.round]
    ensures t.ending.Aborted? || t.ending.Blocked? ==> |t.sent| == |t.replies| + 1
    ensures t.ending.Blocked? ==> t.consumed == |inbound|
    // each finished round ended on the first message terminal for its request, read from
    // where the round before it stopped; an error reply among them did not cut the run short
    ensures Replayed(t.stops, t.replies, ids, inbound)
    // every request that went out was written successfully
    ensures forall k | 0 <= k < |t.sent| :: k < |writeOk| && writeOk[k]
    // a run reads on from its last finished round, or stopped for the reason its last round met
    ensures Explained(t, ids, writeOk, inbound)
    ensures t.ending.Aborted? ==> Classify(inbound[t.consumed - 1], ids[t.ending.round]) == Abort(t.ending.fault)
    // pacing
    ensures forall p: nat :: p in t.pauses <==> p < |t.replies| && PauseAfter(p)
    ensures |t.pauses| == |t.replies| / PacingPeriod
    ensures t.consumed <= |inbound|
  {
    var t := AdvanceAll(Start, times, code, ids, writeOk, inbound);
    AdvanceAllKeepsCoherent(Start, times, code, ids, writeOk, inbound);
    CoherentFacts(t, code, ids, writeOk, inbound);
    t
  }

  /** With pairwise distinct fresh ids, no two requests of a run share an id. */
  lemma DistinctRequestIds(times: int, code: string, ids: seq<string>, writeOk: seq<bool>, inbound: seq<Inbound>)
    requires times <= |ids| && times <= |writeOk|
    requires forall a, b | 0 <= a < b < |ids| :: ids[a] != ids[b]
    ensures var t := Run(times, code, ids, writeOk, inbound);
            forall a, b | 0 <= a < b < |t.sent| :: t.sent[a].header.msgId != t.sent[b].header.msgId
  {
  }

  /** An error reply never ends a run: a run that aborted did so on an
      undecodable message, or on a stream reply to its own request whose
      "text" is not a string. */
  lemma AbortOnlyOnFault(times: int, code: string, ids: seq<string>, writeOk: seq<bool>, inbound: seq<Inbound>)
    requires times <= |ids| && times <= |writeOk|
    ensures var t := Run(times, code, ids, writeOk, inbound);
            t.ending.Aborted? ==>
              var x := inbound[t.consumed - 1];
              && !(x.Parsed? && x.msg.header.msgType == ErrorType)
              && (x.ParseFail? <==> t.ending.fault == Undecodable)
              && (x.Parsed? ==> x.msg.header.msgType == StreamType && x.msg.parentHeader.msgId == ids[t.ending.round]
                                && !("text" in x.msg.content && x.msg.content["text"].JString?))
  {
  }

  /** A round whose receive loop meets a reply finishes, and the next round
      reads on from the message right after that reply; this holds for an
      error reply too, whatever request the error answers. */
  lemma RoundFinishes(t: Trace, code: string, ids: seq<string>, writeOk: seq<bool>, inbound: seq<Inbound>)
    requires CanAdvance(t, ids, writeOk, inbound) && writeOk[|t.replies|]
    requires Receive(inbound, t.consumed, ids[|t.replies|]).Replied?
    ensures var r := Receive(inbound, t.consumed, ids[|t.replies|]);
            var next := Advance(t, code, ids, writeOk, inbound);
            && next.ending.Completed? && next.replies == t.replies + [r.reply] && next.stops == t.stops + [r.at]
            && next.consumed == r.at + 1
  {
  }

  /** A round that meets a fault, or runs out of messages, ends the run right
      after its request went out. */
  lemma RoundEndsRun(t: Trace, code: string, ids: seq<string>, writeOk: seq<bool>, inbound: seq<Inbound>)
    requires CanAdvance(t, ids, writeOk, inbound) && writeOk[|t.replies|]
    requires !Receive(inbound, t.consumed, ids[|t.replies|]).Replied?
    ensures var r := Receive(inbound, t.consumed, ids[|t.replies|]);
            var next := Advance(t, code, ids, writeOk, inbound);
            && next.sent == t.sent + [BuildRequest(ids[|t.replies|], code)]
            && (r.Failed? ==> next.ending == Aborted(|t.replies|, r.fault) && next.consumed == r.at + 1)
            && (r.Starved? ==> next.ending == Blocked(|t.replies|))
  {
  }

  /** One round as the client plays it: build and write the request, wait
      with the receive loop for the round's terminal message, and pause
      after every 30th round. */
  method PlayRound(t: Trace, code: string, ids: seq<string>, writeOk: seq<bool>, inbound: seq<Inbound>) returns (r: Trace)
    requires CanAdvance(t, ids, writeOk, inbound)
    ensures r == Advance(t, code, ids, writeOk, inbound)
  {
    var i := |t.replies|;
    if !writeOk[i] {
      return t.(ending := WriteFailed(i));
    }
    var request := BuildRequest(ids[i], code);
    var result := ReceiveLoop(inbound, t.consumed, ids[i]);
    match result {
      case Starved =>
        r := t.(sent := t.sent + [request], ending := Blocked(i), consumed := |inbound|);
      case Failed(at, fault) =>
        r := t.(sent := t.sent + [request], ending := Aborted(i, fault), consumed := at + 1);
      case Replied(at, reply) =>
        var pauses := t.pauses;
        if PauseAfter(i) {
          pauses := pauses + [i];
        }
        r := Trace(t.sent + [request], t.replies + [reply], t.stops + [at], pauses, Completed, at + 1);
    }
  }

  /** The run loop written as the client writes it: `times` rounds, one
      after the other, returning early when one of them ends the run. */
  method Drive(times: int, code: string, ids: seq<string>, writeOk: seq<bool>, inbound: seq<Inbound>) returns (t: Trace)
    requires times <= |ids| && times <= |writeOk|
    ensures t == Run(times, code, ids, writeOk, inbound)
  {
    t := Start;
    var i := 0;
    while i < times
      invariant 0 <= i <= Rounds(times) && i == |t.replies| && t.ending.Completed? && t.consumed <= |inbound|
      invariant AdvanceAll(t, times, code, ids, writeOk, inbound) == Run(times, code, ids, writeOk, inbound)
    {
      t := PlayRound(t, code, ids, writeOk, inbound);
      if !t.ending.Completed? {
        return;
      }
      i := i + 1;
    }
  }
}
