/**
 One client session: resolve the kernel (the one named on the command line,
 or a freshly provisioned one), open the channel to it, and drive the
 execution rounds over that channel.

 Environment lookups, the provisioning exchange, the dial and the run's
 inputs are all given as parameters.
 */
module Client {
  import opened Envelope
  import opened Correlation
  import opened Driver
  import opened Provisioner

  const DefaultBaseUrl := "http://localhost:8888"
  const DefaultWsUrl := "ws://localhost:8888"

  /** An environment setting, or the default when it is unset or empty. */
  function OrDefault(env: string, default: string): string {
    if env == "" then default else env
  }

  /** Where kernels are provisioned. */
  function KernelsUrl(base: string): string {
    base + "/api/kernels"
  }

  /** The channel endpoint of one kernel. */
  function ChannelsUrl(wsBase: string, kernelId: string): (u: string)
    ensures |u| == |wsBase| + |kernelId| + 22
    ensures u[..|wsBase|] == wsBase && u[|wsBase| + 13..|u| - 9] == kernelId
    ensures u[|wsBase|..|wsBase| + 13] == "/api/kernels/" && u[|u| - 9..] == "/channels"
  {
    wsBase + "/api/kernels/" + kernelId + "/channels"
  }

  /** The command-line options and the two environment settings. */
  datatype Config = Config(
    code: string,
    lang: string,
    times: int,
    kernelId: string,
    baseUrlEnv: string,
    wsUrlEnv: string)

  /** How a session ended. */
  datatype Outcome =
    | ProvisionFailed              // no kernel id: the client returns before connecting
    | ProvisionPanicked            // the provisioning reply had a non-string id
    | DialFailed(url: string)      // the channel could not be opened
    | Ran(kernelId: string, trace: Trace)

  /** The provisioning request a session sends when no kernel is named. */
  function ProvisionRequest(cfg: Config): (q: HttpRequest)
    ensures q.verb == "POST" && q.headers == ProvisionHeaders && q.body == RequestBody(cfg.lang)
    ensures cfg.baseUrlEnv == "" ==> q.url == "http://localhost:8888/api/kernels"
    ensures cfg.baseUrlEnv != "" ==> q.url == cfg.baseUrlEnv + "/api/kernels"
  {
    KernelRequest(KernelsUrl(OrDefault(cfg.baseUrlEnv, DefaultBaseUrl)), "POST", cfg.lang)
  }

  /** The kernel a session uses: the named one, or else whatever
      provisioning hands back. */
  function KernelOf(cfg: Config, provision: HttpOutcome): (r: KernelReply)
    // a kernel named on the command line is used as named
    ensures cfg.kernelId != "" ==> r == Returned(cfg.kernelId)
    // otherwise a usable id is the string "id" of the provisioning reply
    ensures cfg.kernelId == "" && r.Returned? && r.id != "" ==>
              HasId(provision) && provision.body.fields["id"] == JString(r.id)
    // the empty id and the panic only come from provisioning
    ensures r == Returned("") ==> cfg.kernelId == "" && (HasId(provision) ==> provision.body.fields["id"] == JString(""))
    ensures r.Panicked? <==> cfg.kernelId == "" && HasId(provision) && !provision.body.fields["id"].JString?
  {
    if cfg.kernelId != "" then Returned(cfg.kernelId) else CreateKernel(provision)
  }

  /** One session. `provision` is what the provisioning request got back;
      it is only consulted when no kernel is named. `dialOk` says whether
      the channel opened. */
  function Session(cfg: Config, provision: HttpOutcome, dialOk: bool,
                   ids: seq<string>, writeOk: seq<bool>, inbound: seq<Inbound>): (o: Outcome)
    requires cfg.times <= |ids| && cfg.times <= |writeOk|
    // rounds run exactly when a non-empty kernel id is at hand and the channel opened
    ensures o.Ran? <==> dialOk && KernelOf(cfg, provision).Returned? && KernelOf(cfg, provision).id != ""
    ensures o.Ran? ==> o.kernelId == KernelOf(cfg, provision).id && o.trace == Run(cfg.times, cfg.code, ids, writeOk, inbound)
    // a named kernel is used as named, so only a provisioned one can be missing
    ensures o.ProvisionFailed? <==> cfg.kernelId == "" && CreateKernel(provision) == Returned("")
    ensures o.ProvisionPanicked? <==> cfg.kernelId == "" && CreateKernel(provision).Panicked?
    ensures o.DialFailed? ==>
              !dialOk && KernelOf(cfg, provision).Returned? &&
              o.url == ChannelsUrl(OrDefault(cfg.wsUrlEnv, DefaultWsUrl), KernelOf(cfg, provision).id)
  {
    match KernelOf(cfg, provision)
    case Panicked => ProvisionPanicked
    case Returned(k) =>
      if k == "" then ProvisionFailed
      else if !dialOk then DialFailed(ChannelsUrl(OrDefault(cfg.wsUrlEnv, DefaultWsUrl), k))
      else Ran(k, Run(cfg.times, cfg.code, ids, writeOk, inbound))
  }

  /** A session told which kernel to use never depends on what provisioning
      would have answered. */
  lemma NamedKernelSkipsProvisioning(cfg: Config, p1: HttpOutcome, p2: HttpOutcome, dialOk: bool,
                                     ids: seq<string>, writeOk: seq<bool>, inbound: seq<Inbound>)
    requires cfg.times <= |ids| && cfg.times <= |writeOk|
    requires cfg.kernelId != ""
    ensures Session(cfg, p1, dialOk, ids, writeOk, inbound) == Session(cfg, p2, dialOk, ids, writeOk, inbound)
  {
  }

  /** A reply without an "id", or one the client cannot decode, ends the
      session before the channel is opened. */
  lemma MissingIdEndsSession(cfg: Config, provision: HttpOutcome, dialOk: bool,
                             ids: seq<string>, writeOk: seq<bool>, inbound: seq<Inbound>)
    requires cfg.times <= |ids| && cfg.times <= |writeOk|
    requires cfg.kernelId == "" && !HasId(provision)
    ensures Session(cfg, provision, dialOk, ids, writeOk, inbound) == ProvisionFailed
  {
  }
}
