/**
 The per-round receive loop of the execution driver: every inbound message
 is classified against the id of the request that is outstanding, and the
 round ends at the first message that is terminal for it.

 The transport is a given sequence of receive results. Each element stands
 for one read followed by one decode: a read error is only reported by the
 client and the data it returned is then decoded all the same, so a failed
 read shows up here as whatever that decode gave, in practice `ParseFail`.
 */
module Correlation {
  import opened Envelope

  /** The result of receiving and decoding one inbound message. */
  datatype Inbound = Parsed(msg: Message) | ParseFail

  /** A reply that ends the round but lets the run go on. */
  datatype Reply =
    | ErrorReply(reply: Message)  // a message of type "error", whatever it answers
    | Output(text: string)        // the matching stream reply, with its text

  /** A message that ends the whole run. */
  datatype Fault =
    | Undecodable    // the message could not be decoded
    | OutputNotText  // the matching stream reply has no string "text": the type assertion panics

  /** What one inbound message does to the round that waits for it. */
  datatype Dispatch = Discard | Finish(reply: Reply) | Abort(fault: Fault)

  /** The dispatch of one inbound message for the round waiting on
      `requestId`. */
  function Classify(x: Inbound, requestId: string): (r: Dispatch)
    // passed over exactly when it decodes and is neither an error nor a stream reply to the request
    ensures r.Discard? <==>
              x.Parsed? && x.msg.header.msgType != ErrorType &&
              !(x.msg.header.msgType == StreamType && x.msg.parentHeader.msgId == requestId)
    // only a message that cannot be decoded is reported as undecodable
    ensures r == Abort(Undecodable) <==> x.ParseFail?
    // an error reply hands back the error message itself
    ensures r.Finish? && r.reply.ErrorReply? ==> x.Parsed? && x.msg.header.msgType == ErrorType && r.reply.reply == x.msg
    // output comes only from a stream reply to the request, and is its "text"
    ensures r.Finish? && r.reply.Output? ==>
              && x.Parsed? && x.msg.header.msgType == StreamType && x.msg.parentHeader.msgId == requestId
              && "text" in x.msg.content && x.msg.content["text"] == JString(r.reply.text)
  {
    match x
    case ParseFail => Abort(Undecodable)
    case Parsed(m) =>
      if m.header.msgType == ErrorType then Finish(ErrorReply(m))
      else if m.header.msgType == StreamType && m.parentHeader.msgId == requestId then
        if "text" in m.content && m.content["text"].JString? then Finish(Output(m.content["text"].s))
        else Abort(OutputNotText)
      else Discard
  }

  /** An error message ends the round, and ends it the same way, whichever
      request its parent header names; it never ends the run. */
  lemma ErrorEndsRoundForAnyParent(m: Message, requestId: string, otherId: string)
    requires m.header.msgType == ErrorType
    ensures Classify(Parsed(m), requestId) == Finish(ErrorReply(m))
    ensures Classify(Parsed(m), requestId) == Classify(Parsed(m), otherId)
  {
  }

  /** A stream message ends the round if and only if its parent id is the
      outstanding request's id; when it does, its string "text" is the
      round's output, and a missing or non-string "text" ends the run. */
  lemma StreamEndsRoundIffCorrelated(m: Message, requestId: string)
    requires m.header.msgType == StreamType
    ensures !Classify(Parsed(m), requestId).Discard? <==> m.parentHeader.msgId == requestId
    ensures m.parentHeader.msgId == requestId && "text" in m.content && m.content["text"].JString?
            ==> Classify(Parsed(m), requestId) == Finish(Output(m.content["text"].s))
    ensures m.parentHeader.msgId == requestId && !("text" in m.content && m.content["text"].JString?)
            ==> Classify(Parsed(m), requestId) == Abort(OutputNotText)
  {
  }

  /** Every decoded message that is neither an error nor a stream is
      discarded, whatever it answers; only an undecodable message aborts. */
  lemma OtherTypesDiscarded(x: Inbound, requestId: string)
    requires x.Parsed? ==> x.msg.header.msgType != ErrorType && x.msg.header.msgType != StreamType
    ensures Classify(x, requestId) == Discard <==> x.Parsed?
    ensures x.ParseFail? ==> Classify(x, requestId) == Abort(Undecodable)
  {
  }

  /** With pairwise distinct request ids, a late stream reply to an earlier
      round's request never ends a later round. */
  lemma StaleReplyDiscarded(ids: seq<string>, earlier: nat, later: nat, m: Message)
    requires forall a, b | 0 <= a < b < |ids| :: ids[a] != ids[b]
    requires earlier < later < |ids|
    requires m.header.msgType == StreamType && m.parentHeader.msgId == ids[earlier]
    ensures Classify(Parsed(m), ids[later]) == Discard
  {
  }

  /** How a round's wait ended: at position `at` of the inbound sequence,
      on a reply or on a fault, or the sequence ran out first. A real
      transport would block forever in the last case. */
  datatype RoundResult = Replied(at: nat, reply: Reply) | Failed(at: nat, fault: Fault) | Starved {
    /** The terminal dispatch the round ended on. */
    function Terminal(): Dispatch
      requires !Starved?
    {
      if Replied? then Finish(reply) else Abort(fault)
    }
  }

  /** The round outcome when the round starts reading at position `from`:
      the first terminal message decides it, everything before it is
      discarded and nothing after it is looked at. */
  function Receive(s: seq<Inbound>, from: nat, requestId: string): (r: RoundResult)
    requires from <= |s|
    decreases |s| - from
    ensures !r.Starved? ==> from <= r.at < |s| && Classify(s[r.at], requestId) == r.Terminal()
    ensures !r.Starved? ==> forall j | from <= j < r.at :: Classify(s[j], requestId) == Discard
    ensures r.Starved? <==> forall j | from <= j < |s| :: Classify(s[j], requestId) == Discard
  {
    if from == |s| then Starved
    else match Classify(s[from], requestId)
      case Discard => Receive(s, from + 1, requestId)
      case Finish(reply) => Replied(from, reply)
      case Abort(fault) => Failed(from, fault)
  }

  /** Messages that do not concern the round are consumed with no effect:
      starting to read after a stretch of them gives the same outcome. */
  lemma {:induction false} DiscardedPrefixConsumed(s: seq<Inbound>, from: nat, to: nat, requestId: string)
    requires from <= to <= |s|
    requires forall j | from <= j < to :: Classify(s[j], requestId) == Discard
    decreases |s| - from
    ensures Receive(s, from, requestId) == Receive(s, to, requestId)
  {
    if from < to {
      DiscardedPrefixConsumed(s, from + 1, to, requestId);
    }
  }

  /** Nothing after the first terminal message influences the round:
      messages that arrive later can be appended without changing it. */
  lemma {:induction false} SuffixIrrelevant(s: seq<Inbound>, t: seq<Inbound>, from: nat, requestId: string)
    requires from <= |s|
    requires !Receive(s, from, requestId).Starved?
    decreases |s| - from
    ensures Receive(s + t, from, requestId) == Receive(s, from, requestId)
  {
    assert (s + t)[from] == s[from];
    if Classify(s[from], requestId).Discard? {
      SuffixIrrelevant(s, t, from + 1, requestId);
    }
  }

  /** The first-terminal description pins the round result down: any result
      that stops at a terminal message with only discards before it, or
      starves on a stretch of discards, is the one `Receive` computes. */
  lemma FirstTerminalDecides(s: seq<Inbound>, from: nat, requestId: string, r: RoundResult)
    requires from <= |s|
    requires !r.Starved? ==> from <= r.at < |s| && Classify(s[r.at], requestId) == r.Terminal()
    requires !r.Starved? ==> forall j | from <= j < r.at :: Classify(s[j], requestId) == Discard
    requires r.Starved? ==> forall j | from <= j < |s| :: Classify(s[j], requestId) == Discard
    ensures r == Receive(s, from, requestId)
  {
  }

  /** The receive loop written as the client writes it: read, decode,
      dispatch, until a terminal message arrives. */
  method ReceiveLoop(s: seq<Inbound>, from: nat, requestId: string) returns (r: RoundResult)
    requires from <= |s|
    ensures !r.Starved? ==> from <= r.at < |s| && Classify(s[r.at], requestId) == r.Terminal()
    ensures !r.Starved? ==> forall j | from <= j < r.at :: Classify(s[j], requestId) == Discard
    ensures r.Starved? ==> forall j | from <= j < |s| :: Classify(s[j], requestId) == Discard
    ensures r == Receive(s, from, requestId)
  {
    var k := from;
    while k < |s|
      invariant from <= k <= |s|
      invariant forall j | from <= j < k :: Classify(s[j], requestId) == Discard
    {
      match Classify(s[k], requestId) {
        case Discard =>
        case Finish(reply) =>
          r := Replied(k, reply);
          FirstTerminalDecides(s, from, requestId, r);
          return;
        case Abort(fault) =>
          r := Failed(k, fault);
          FirstTerminalDecides(s, from, requestId, r);
          return;
      }
      k := k + 1;
    }
    r := Starved;
    FirstTerminalDecides(s, from, requestId, r);
  }
}
