/**
 Kernel provisioning: the POST to the gateway's kernels endpoint that asks
 for a new kernel, and the reading of the new kernel's id out of the reply.

 The HTTP exchange itself is not modelled: what came back is given as an
 `HttpOutcome`, already decoded the way the client decodes it, into a map
 from field names to JSON values.
 */
module Provisioner {
  import opened Envelope

  /** The request that asks the gateway for a kernel. */
  datatype HttpRequest = HttpRequest(
    verb: string,
    url: string,
    headers: map<string, string>,
    body: string)

  /** The fixed credentials and content type every provisioning request
      carries. */
  const ProvisionHeaders: map<string, string> :=
    map["auth_username" := "fakeuser", "auth_password" := "fakepass", "Content-Type" := "application/json"]

  /** The body `{"name": "<lang>"}`. The language is pasted in as it is,
      with no escaping. */
  function RequestBody(lang: string): (b: string)
    ensures |b| == |lang| + 12
    ensures b[..10] == "{\"name\": \"" && b[|b| - 2..] == "\"}"
    ensures b[10..|b| - 2] == lang
  {
    "{\"name\": \"" + lang + "\"}"
  }

  /** The provisioning request. The verb the caller names is not used:
      the request is always a POST. */
  function KernelRequest(url: string, verb: string, lang: string): HttpRequest {
    HttpRequest("POST", url, ProvisionHeaders, RequestBody(lang))
  }

  /** The verb argument never changes the request. */
  lemma VerbIgnored(url: string, m1: string, m2: string, lang: string)
    ensures KernelRequest(url, m1, lang) == KernelRequest(url, m2, lang)
  {
  }

  /** The language can be read back off the request body, so different
      languages ask for different kernels. */
  lemma LanguageRecoverable(lang1: string, lang2: string)
    ensures RequestBody(lang1) == RequestBody(lang2) <==> lang1 == lang2
  {
    if RequestBody(lang1) == RequestBody(lang2) {
      assert RequestBody(lang1)[10..|RequestBody(lang1)| - 2] == RequestBody(lang2)[10..|RequestBody(lang2)| - 2];
    }
  }

  /** The reply body as decoding it into a string-keyed map leaves it. */
  datatype Decoded =
    | NotAnObject                         // not JSON, or JSON that is not an object: decoding fails
    | JsonNull                            // the literal null: decoding succeeds and leaves no map
    | JsonObject(fields: map<string, Json>)

  /** How the provisioning exchange went. */
  datatype HttpOutcome =
    | RequestInvalid        // the request could not be built (a malformed URL)
    | TransportFailed       // the request could not be sent or got no reply
    | Responded(body: Decoded)

  /** What provisioning hands back to its caller. The empty string stands for
      every failure; a non-string "id" makes the type assertion panic. */
  datatype KernelReply = Returned(id: string) | Panicked

  /** Whether the reply carries an "id" field at all. */
  predicate HasId(o: HttpOutcome) {
    o.Responded? && o.body.JsonObject? && "id" in o.body.fields
  }

  /** The kernel id provisioning returns for an outcome. */
  function CreateKernel(o: HttpOutcome): (r: KernelReply)
    // it panics exactly on an "id" that is not a string
    ensures r.Panicked? <==> HasId(o) && !o.body.fields["id"].JString?
    // a non-empty id is always the reply's "id" string
    ensures r.Returned? && r.id != "" ==> HasId(o) && o.body.fields["id"] == JString(r.id)
    // every failure before the id is read gives the empty id
    ensures !HasId(o) ==> r == Returned("")
  {
    match o
    case RequestInvalid => Returned("")
    case TransportFailed => Returned("")
    case Responded(body) =>
      match body
      case NotAnObject => Returned("")
      case JsonNull => Returned("")
      case JsonObject(fields) =>
        if "id" !in fields then Returned("")
        else if fields["id"].JString? then Returned(fields["id"].s)
        else Panicked
  }

  /** A reply holding a string id hands that id back, whatever else it
      holds. */
  lemma IdReturned(fields: map<string, Json>, id: string)
    ensures CreateKernel(Responded(JsonObject(fields["id" := JString(id)]))) == Returned(id)
  {
  }

  /** A reply whose "id" is not a string panics, whatever else it holds. */
  lemma NonStringIdPanics(fields: map<string, Json>, id: Json)
    requires !id.JString?
    ensures CreateKernel(Responded(JsonObject(fields["id" := id]))) == Panicked
  {
  }
}
