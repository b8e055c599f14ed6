/**
 The envelope model of the kernel messaging protocol: the header that
 identifies one message, the message itself, and the one outbound message
 the client ever builds, an `execute_request`.

 JSON payloads (content, metadata, buffers) are kept abstract as `Json`
 values; the wire encoding itself is not modelled.
 */
module Envelope {

  /** A JSON value as the decoder would hand it back. Numbers are kept as
      integers: the client never looks at a number. */
  datatype Json =
    | JNull
    | JBool(b: bool)
    | JNumber(n: int)
    | JString(s: string)
    | JArray(items: seq<Json>)
    | JObject(fields: map<string, Json>)

  /** Identifies one message instance (wire fields msg_id, username,
      session, msg_type, version). */
  datatype Header = Header(
    msgId: string,
    username: string,
    session: string,
    msgType: string,
    version: string)

  /** The zero header: what a message that starts a new exchange carries as
      its parent, and what a reply without a parent decodes to. */
  const EmptyHeader := Header("", "", "", "", "")

  /** One unit of exchange on the channel. */
  datatype Message = Message(
    header: Header,
    parentHeader: Header,
    metadata: map<string, Json>,
    content: map<string, Json>,
    buffers: seq<Json>,
    channel: string)

  const ProtocolVersion := "5.0"
  const ShellChannel := "shell"
  const ExecuteRequestType := "execute_request"
  const StreamType := "stream"
  const ErrorType := "error"

  /** The five content keys of an execute request. */
  const ExecuteKeys: set<string> := {"code", "silent", "store_history", "allow_stdin", "stop_on_error"}

  /** What makes a message an execute request as this client sends it: sent
      on the shell channel, typed `execute_request`, protocol version 5.0,
      anonymous (empty username and session), and content holding exactly the
      code string plus the four fixed execution flags. */
  predicate IsExecuteRequest(m: Message) {
    && m.channel == ShellChannel
    && m.header.msgType == ExecuteRequestType
    && m.header.version == ProtocolVersion
    && m.header.username == ""
    && m.header.session == ""
    && m.content.Keys == ExecuteKeys
    && m.content["code"].JString?
    && m.content["silent"] == JBool(false)
    && m.content["store_history"] == JBool(true)
    && m.content["allow_stdin"] == JBool(false)
    && m.content["stop_on_error"] == JBool(true)
  }

  /** The code string an execute request asks the kernel to run. */
  function RequestCode(m: Message): string
    requires IsExecuteRequest(m)
  {
    m.content["code"].s
  }

  /** An execute request that carries nothing besides what the client puts
      in it: no parent, no metadata, no buffers. */
  predicate IsFreshRequest(m: Message) {
    && IsExecuteRequest(m)
    && m.parentHeader == EmptyHeader
    && m.metadata == map[]
    && m.buffers == []
  }

  /** Builds the execute request of one round from the round's fresh message
      id and the configured code. The Go struct literal leaves the parent
      header, metadata and buffers at their zero values; here those are the
      empty header, the empty map and the empty sequence. */
  function BuildRequest(msgId: string, code: string): (m: Message)
    ensures IsFreshRequest(m)
    ensures m.header.msgId == msgId
    ensures RequestCode(m) == code
  {
    Message(
      Header(msgId, "", "", ExecuteRequestType, ProtocolVersion),
      EmptyHeader,
      map[],
      map["code" := JString(code),
          "silent" := JBool(false),
          "store_history" := JBool(true),
          "allow_stdin" := JBool(false),
          "stop_on_error" := JBool(true)],
      [],
      ShellChannel)
  }

  /** A fresh request is determined by its id and its code: reading those two
      back and building again gives the very same message. */
  lemma RequestRoundTrip(m: Message)
    requires IsFreshRequest(m)
    ensures BuildRequest(m.header.msgId, RequestCode(m)) == m
  {
    var b := BuildRequest(m.header.msgId, RequestCode(m));
    assert b.content.Keys == m.content.Keys;
    assert forall k | k in m.content :: b.content[k] == m.content[k] by {
      forall k | k in m.content
        ensures b.content[k] == m.content[k]
      {
        assert k in ExecuteKeys;
      }
    }
    assert b.content == m.content;
    assert b.header == m.header;
  }

  /** Two rounds' requests are equal exactly when they carry the same id and
      the same code; in particular distinct ids give distinct requests. */
  lemma BuildRequestInjective(id1: string, code1: string, id2: string, code2: string)
    ensures BuildRequest(id1, code1) == BuildRequest(id2, code2) <==> id1 == id2 && code1 == code2
  {
    if BuildRequest(id1, code1) == BuildRequest(id2, code2) {
      assert RequestCode(BuildRequest(id1, code1)) == code1;
      assert RequestCode(BuildRequest(id2, code2)) == code2;
    }
  }
}
