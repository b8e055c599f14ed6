/**
 Concrete runs of the driver over small inbound sequences.
 */
module Scenarios {
  import opened Envelope
  import opened Correlation
  import opened Driver

  /** A stream reply answering `parent` with the given text. */
  function StreamReply(parent: string, text: string): Message {
    Message(Header("out-" + parent, "", "", StreamType, ProtocolVersion),
            EmptyHeader.(msgId := parent), map[], map["name" := JString("stdout"), "text" := JString(text)], [], "iopub")
  }

  /** An error reply answering `parent`. */
  function ErrorMessage(parent: string): Message {
    Message(Header("err-" + parent, "", "", ErrorType, ProtocolVersion),
            EmptyHeader.(msgId := parent), map[], map["ename" := JString("NameError")], [], "iopub")
  }

  /** Two rounds: a stream reply to some other request is skipped, the
      matching one ends round 1 with its text, and round 2 goes out with its
      own id and ends on its own reply. */
  lemma WrongParentSkipped(code: string)
    ensures var t := Run(2, code, ["a", "b"], [true, true],
                         [Parsed(StreamReply("z", "noise")), Parsed(StreamReply("a", "hello")), Parsed(StreamReply("b", "again"))]);
            && t.ending == Completed
            && t.replies == [Output("hello"), Output("again")]
            && t.sent == [BuildRequest("a", code), BuildRequest("b", code)]
            && t.sent[0].header.msgId != t.sent[1].header.msgId
            && t.stops == [1, 2] && t.consumed == 3
  {
    var inbound := [Parsed(StreamReply("z", "noise")), Parsed(StreamReply("a", "hello")), Parsed(StreamReply("b", "again"))];
    assert Classify(inbound[0], "a") == Discard;
    assert Receive(inbound, 0, "a") == Replied(1, Output("hello"));
    assert Receive(inbound, 2, "b") == Replied(2, Output("again"));
  }

  /** An error reply ends round 1 without ending the run: round 2's request
      still goes out. */
  lemma ErrorReplyRunContinues(code: string)
    ensures var t := Run(2, code, ["a", "b"], [true, true],
                         [Parsed(ErrorMessage("a")), Parsed(StreamReply("b", "ok"))]);
            && t.ending == Completed
            && t.replies == [ErrorReply(ErrorMessage("a")), Output("ok")]
            && |t.sent| == 2 && t.sent[1] == BuildRequest("b", code)
  {
    var inbound := [Parsed(ErrorMessage("a")), Parsed(StreamReply("b", "ok"))];
    assert Receive(inbound, 0, "a") == Replied(0, ErrorReply(ErrorMessage("a")));
    assert Receive(inbound, 1, "b") == Replied(1, Output("ok"));
  }

  /** An undecodable message in round 1 ends the run: no second request is
      written. */
  lemma UndecodableStopsRun(code: string)
    ensures var t := Run(2, code, ["a", "b"], [true, true], [ParseFail, Parsed(StreamReply("a", "late"))]);
            t.ending == Aborted(0, Undecodable) && t.sent == [BuildRequest("a", code)] && t.replies == [] && t.consumed == 1
  {
    assert Receive([ParseFail, Parsed(StreamReply("a", "late"))], 0, "a") == Failed(0, Undecodable);
  }
}
