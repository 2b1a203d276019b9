/** The GatewayParameters tree and its merge on values (internal/fgateway/deployer/merge.go).

    An absent pointer, map or slice is `None`; a present but empty map or slice is
    `Some(map[])` or `Some([])`, which the merge treats differently.
 */
module GatewayParams {
  import opened Options

  type StringMap = map<string, string>

  datatype CustomLabel = CustomLabel(
    name: string,
    metadataNamespace: Option<string>,
    metadataKey: string,
    keyDelimiter: Option<string>)

  /** A list element the merge never looks into. */
  type Element = string

  datatype IntOrString = IntOrString(isString: bool, intVal: int, strVal: string)

  const ZERO_PORT := IntOrString(false, 0, "")

  // ---- leaf policies ----

  /** mergePointers, overrideSlices, and mergeComparable on pointers. */
  function LastSet<T>(dst: Option<T>, src: Option<T>): Option<T>
  {
    if src.None? then dst else src
  }

  /** The protected Istio fields. */
  function FirstSet<T>(dst: Option<T>, src: Option<T>): Option<T>
  {
    if dst.None? then src else dst
  }

  /** mergeComparable */
  function LastNonZero<T(==)>(zero: T, dst: T, src: T): T
  {
    if src == zero then dst else src
  }

  /** deepMergeMaps */
  function UnionMaps(dst: Option<StringMap>, src: Option<StringMap>): Option<StringMap>
  {
    if src.None? then dst
    else if dst.None? || src.value == map[] then src
    else Some(dst.value + src.value)
  }

  /** deepMergeSlices */
  function AppendLists<T>(dst: Option<seq<T>>, src: Option<seq<T>>): Option<seq<T>>
  {
    if src.None? then dst
    else if dst.None? || |src.value| == 0 then src
    else Some(dst.value + src.value)
  }

  /** mergeCustomSidecars */
  function LastNonEmpty<T>(dst: Option<seq<T>>, src: Option<seq<T>>): Option<seq<T>>
  {
    if src.None? || |src.value| == 0 then dst else src
  }

  // ---- deepMergeDeployment ----

  datatype ProxyDeployment = ProxyDeployment(replicas: Option<int>)

  function MergeProxyDeployment(dst: Option<ProxyDeployment>, src: Option<ProxyDeployment>): Option<ProxyDeployment>
  {
    match (dst, src)
    case (_, None) => dst
    case (None, _) => src
    case (Some(d), Some(s)) => Some(ProxyDeployment(
      LastSet(d.replicas, s.replicas)))
  }

  // ---- deepMergeImage ----

  datatype Image = Image(
    registry: Option<string>,
    repository: Option<string>,
    tag: Option<string>,
    digest: Option<string>,
    pullPolicy: Option<string>)

  function MergeImage(dst: Option<Image>, src: Option<Image>): Option<Image>
  {
    match (dst, src)
    case (_, None) => dst
    case (None, _) => src
    case (Some(d), Some(s)) => Some(Image(
      LastSet(d.registry, s.registry),
      LastSet(d.repository, s.repository),
      LastSet(d.tag, s.tag),
      LastSet(d.digest, s.digest),
      LastSet(d.pullPolicy, s.pullPolicy)))
  }

  // ---- deepMergeEnvoyBootstrap ----

  datatype EnvoyBootstrap = EnvoyBootstrap(logLevel: Option<string>, componentLogLevels: Option<StringMap>)

  function MergeEnvoyBootstrap(dst: Option<EnvoyBootstrap>, src: Option<EnvoyBootstrap>): Option<EnvoyBootstrap>
  {
    match (dst, src)
    case (_, None) => dst
    case (None, _) => src
    case (Some(d), Some(s)) => Some(EnvoyBootstrap(
      LastSet(d.logLevel, s.logLevel),
      UnionMaps(d.componentLogLevels, s.componentLogLevels)))
  }

  // ---- deepMergeResourceRequirements ----

  datatype ResourceRequirements = ResourceRequirements(limits: Option<StringMap>, requests: Option<StringMap>)

  function MergeResourceRequirements(dst: Option<ResourceRequirements>, src: Option<ResourceRequirements>):
    Option<ResourceRequirements>
  {
    match (dst, src)
    case (_, None) => dst
    case (None, _) => src
    case (Some(d), Some(s)) => Some(ResourceRequirements(
      UnionMaps(d.limits, s.limits),
      UnionMaps(d.requests, s.requests)))
  }

  // ---- deepMergeSELinuxOptions ----

  datatype SELinuxOptions = SELinuxOptions(user: string, role: string, seType: string, level: string)

  function MergeSELinuxOptions(dst: Option<SELinuxOptions>, src: Option<SELinuxOptions>): Option<SELinuxOptions>
  {
    match (dst, src)
    case (_, None) => dst
    case (None, _) => src
    case (Some(d), Some(s)) => Some(SELinuxOptions(
      LastNonZero("", d.user, s.user),
      LastNonZero("", d.role, s.role),
      LastNonZero("", d.seType, s.seType),
      LastNonZero("", d.level, s.level)))
  }

  // ---- deepMergeSeccompProfile ----

  datatype SeccompProfile = SeccompProfile(profileType: string, localhostProfile: Option<string>)

  function MergeSeccompProfile(dst: Option<SeccompProfile>, src: Option<SeccompProfile>): Option<SeccompProfile>
  {
    match (dst, src)
    case (_, None) => dst
    case (None, _) => src
    case (Some(d), Some(s)) => Some(SeccompProfile(
      LastNonZero("", d.profileType, s.profileType),
      LastSet(d.localhostProfile, s.localhostProfile)))
  }

  // ---- deepMergeWindowsSecurityContextOptions ----

  /** The name is merged from the two specs, as merge.go:204 does. */
  datatype WindowsOptions = WindowsOptions(
    gmsaCredentialSpecName: Option<string>,
    gmsaCredentialSpec: Option<string>,
    runAsUserName: Option<string>,
    hostProcess: Option<bool>)

  function MergeWindowsOptions(dst: Option<WindowsOptions>, src: Option<WindowsOptions>): Option<WindowsOptions>
  {
    match (dst, src)
    case (_, None) => dst
    case (None, _) => src
    case (Some(d), Some(s)) => Some(WindowsOptions(
      LastSet(d.gmsaCredentialSpec, s.gmsaCredentialSpec),
      LastSet(d.gmsaCredentialSpec, s.gmsaCredentialSpec),
      LastSet(d.runAsUserName, s.runAsUserName),
      LastSet(d.hostProcess, s.hostProcess)))
  }

  // ---- deepMergeCapabilities ----

  datatype Capabilities = Capabilities(add: Option<seq<Element>>, drop: Option<seq<Element>>)

  function MergeCapabilities(dst: Option<Capabilities>, src: Option<Capabilities>): Option<Capabilities>
  {
    match (dst, src)
    case (_, None) => dst
    case (None, _) => src
    case (Some(d), Some(s)) => Some(Capabilities(
      AppendLists(d.add, s.add),
      AppendLists(d.drop, s.drop)))
  }

  // ---- deepMergeSecurityContext ----

  datatype SecurityContext = SecurityContext(
    capabilities: Option<Capabilities>,
    seLinuxOptions: Option<SELinuxOptions>,
    windowsOptions: Option<WindowsOptions>,
    runAsUser: Option<int>,
    runAsGroup: Option<int>,
    runAsNonRoot: Option<bool>,
    privileged: Option<bool>,
    readOnlyRootFilesystem: Option<bool>,
    allowPrivilegeEscalation: Option<bool>,
    procMount: Option<string>,
    seccompProfile: Option<SeccompProfile>)

  function MergeSecurityContext(dst: Option<SecurityContext>, src: Option<SecurityContext>): Option<SecurityContext>
  {
    match (dst, src)
    case (_, None) => dst
    case (None, _) => src
    case (Some(d), Some(s)) => Some(SecurityContext(
      MergeCapabilities(d.capabilities, s.capabilities),
      MergeSELinuxOptions(d.seLinuxOptions, s.seLinuxOptions),
      MergeWindowsOptions(d.windowsOptions, s.windowsOptions),
      LastSet(d.runAsUser, s.runAsUser),
      LastSet(d.runAsGroup, s.runAsGroup),
      LastSet(d.runAsNonRoot, s.runAsNonRoot),
      LastSet(d.privileged, s.privileged),
      LastSet(d.readOnlyRootFilesystem, s.readOnlyRootFilesystem),
      LastSet(d.allowPrivilegeEscalation, s.allowPrivilegeEscalation),
      LastSet(d.procMount, s.procMount),
      MergeSeccompProfile(d.seccompProfile, s.seccompProfile)))
  }

  // ---- deepMergeEnvoyContainer ----

  datatype EnvoyContainer = EnvoyContainer(
    bootstrap: Option<EnvoyBootstrap>,
    image: Option<Image>,
    securityContext: Option<SecurityContext>,
    resources: Option<ResourceRequirements>)

  function MergeEnvoyContainer(dst: Option<EnvoyContainer>, src: Option<EnvoyContainer>): Option<EnvoyContainer>
  {
    match (dst, src)
    case (_, None) => dst
    case (None, _) => src
    case (Some(d), Some(s)) => Some(EnvoyContainer(
      MergeEnvoyBootstrap(d.bootstrap, s.bootstrap),
      MergeImage(d.image, s.image),
      MergeSecurityContext(d.securityContext, s.securityContext),
      MergeResourceRequirements(d.resources, s.resources)))
  }

  // ---- deepMergeSdsBootstrap ----

  datatype SdsBootstrap = SdsBootstrap(logLevel: Option<string>)

  function MergeSdsBootstrap(dst: Option<SdsBootstrap>, src: Option<SdsBootstrap>): Option<SdsBootstrap>
  {
    match (dst, src)
    case (_, None) => dst
    case (None, _) => src
    case (Some(d), Some(s)) => Some(SdsBootstrap(
      LastSet(d.logLevel, s.logLevel)))
  }

  // ---- deepMergeSdsContainer ----

  datatype SdsContainer = SdsContainer(
    image: Option<Image>,
    securityContext: Option<SecurityContext>,
    resources: Option<ResourceRequirements>,
    bootstrap: Option<SdsBootstrap>)

  function MergeSdsContainer(dst: Option<SdsContainer>, src: Option<SdsContainer>): Option<SdsContainer>
  {
    match (dst, src)
    case (_, None) => dst
    case (None, _) => src
    case (Some(d), Some(s)) => Some(SdsContainer(
      MergeImage(d.image, s.image),
      MergeSecurityContext(d.securityContext, s.securityContext),
      MergeResourceRequirements(d.resources, s.resources),
      MergeSdsBootstrap(d.bootstrap, s.bootstrap)))
  }

  // ---- deepMergePodSecurityContext ----

  datatype PodSecurityContext = PodSecurityContext(
    seLinuxOptions: Option<SELinuxOptions>,
    windowsOptions: Option<WindowsOptions>,
    runAsUser: Option<int>,
    runAsGroup: Option<int>,
    runAsNonRoot: Option<bool>,
    supplementalGroups: Option<seq<Element>>,
    fsGroup: Option<int>,
    sysctls: Option<seq<Element>>,
    fsGroupChangePolicy: Option<string>,
    seccompProfile: Option<SeccompProfile>)

  const NO_POD_SECURITY_CONTEXT := PodSecurityContext(None, None, None, None, None, None, None, None, None, None)

  function MergePodSecurityContext(dst: Option<PodSecurityContext>, src: Option<PodSecurityContext>):
    Option<PodSecurityContext>
  {
    match (dst, src)
    case (_, None) => dst
    case (None, _) => src
    case (Some(d), Some(s)) => Some(PodSecurityContext(
      MergeSELinuxOptions(d.seLinuxOptions, s.seLinuxOptions),
      MergeWindowsOptions(d.windowsOptions, s.windowsOptions),
      LastSet(d.runAsUser, s.runAsUser),
      LastSet(d.runAsGroup, s.runAsGroup),
      LastSet(d.runAsNonRoot, s.runAsNonRoot),
      AppendLists(d.supplementalGroups, s.supplementalGroups),
      LastSet(d.fsGroup, s.fsGroup),
      AppendLists(d.sysctls, s.sysctls),
      LastSet(d.fsGroupChangePolicy, s.fsGroupChangePolicy),
      MergeSeccompProfile(d.seccompProfile, s.seccompProfile)))
  }

  // ---- deepMergeNodeSelector ----

  datatype NodeSelector = NodeSelector(nodeSelectorTerms: Option<seq<Element>>)

  function MergeNodeSelector(dst: Option<NodeSelector>, src: Option<NodeSelector>): Option<NodeSelector>
  {
    match (dst, src)
    case (_, None) => dst
    case (None, _) => src
    case (Some(d), Some(s)) => Some(NodeSelector(
      AppendLists(d.nodeSelectorTerms, s.nodeSelectorTerms)))
  }

  // ---- deepMergeNodeAffinity ----

  /** `required` and `preferred` are the two ...DuringSchedulingIgnoredDuringExecution fields. */
  datatype NodeAffinity = NodeAffinity(required: Option<NodeSelector>, preferred: Option<seq<Element>>)

  function MergeNodeAffinity(dst: Option<NodeAffinity>, src: Option<NodeAffinity>): Option<NodeAffinity>
  {
    match (dst, src)
    case (_, None) => dst
    case (None, _) => src
    case (Some(d), Some(s)) => Some(NodeAffinity(
      MergeNodeSelector(d.required, s.required),
      AppendLists(d.preferred, s.preferred)))
  }

  // ---- deepMergePodAffinity ----

  datatype PodAffinity = PodAffinity(required: Option<seq<Element>>, preferred: Option<seq<Element>>)

  function MergePodAffinity(dst: Option<PodAffinity>, src: Option<PodAffinity>): Option<PodAffinity>
  {
    match (dst, src)
    case (_, None) => dst
    case (None, _) => src
    case (Some(d), Some(s)) => Some(PodAffinity(
      AppendLists(d.required, s.required),
      AppendLists(d.preferred, s.preferred)))
  }

  // ---- deepMergePodAntiAffinity ----

  datatype PodAntiAffinity = PodAntiAffinity(required: Option<seq<Element>>, preferred: Option<seq<Element>>)

  function MergePodAntiAffinity(dst: Option<PodAntiAffinity>, src: Option<PodAntiAffinity>): Option<PodAntiAffinity>
  {
    match (dst, src)
    case (_, None) => dst
    case (None, _) => src
    case (Some(d), Some(s)) => Some(PodAntiAffinity(
      AppendLists(d.required, s.required),
      AppendLists(d.preferred, s.preferred)))
  }

  // ---- deepMergeAffinity ----

  datatype Affinity = Affinity(
    nodeAffinity: Option<NodeAffinity>,
    podAffinity: Option<PodAffinity>,
    podAntiAffinity: Option<PodAntiAffinity>)

  function MergeAffinity(dst: Option<Affinity>, src: Option<Affinity>): Option<Affinity>
  {
    match (dst, src)
    case (_, None) => dst
    case (None, _) => src
    case (Some(d), Some(s)) => Some(Affinity(
      MergeNodeAffinity(d.nodeAffinity, s.nodeAffinity),
      MergePodAffinity(d.podAffinity, s.podAffinity),
      MergePodAntiAffinity(d.podAntiAffinity, s.podAntiAffinity)))
  }

  // ---- deepMergeExecAction ----

  datatype ExecAction = ExecAction(command: Option<seq<Element>>)

  function MergeExecAction(dst: Option<ExecAction>, src: Option<ExecAction>): Option<ExecAction>
  {
    match (dst, src)
    case (_, None) => dst
    case (None, _) => src
    case (Some(d), Some(s)) => Some(ExecAction(
      LastSet(d.command, s.command)))
  }

  // ---- deepMergeHTTPGetAction ----

  datatype HTTPGetAction = HTTPGetAction(
    path: string,
    port: IntOrString,
    host: string,
    scheme: string,
    httpHeaders: Option<seq<Element>>)

  function MergeHTTPGetAction(dst: Option<HTTPGetAction>, src: Option<HTTPGetAction>): Option<HTTPGetAction>
  {
    match (dst, src)
    case (_, None) => dst
    case (None, _) => src
    case (Some(d), Some(s)) => Some(HTTPGetAction(
      LastNonZero("", d.path, s.path),
      LastNonZero(ZERO_PORT, d.port, s.port),
      LastNonZero("", d.host, s.host),
      LastNonZero("", d.scheme, s.scheme),
      AppendLists(d.httpHeaders, s.httpHeaders)))
  }

  // ---- deepMergeTCPSocketAction ----

  datatype TCPSocketAction = TCPSocketAction(port: IntOrString, host: string)

  function MergeTCPSocketAction(dst: Option<TCPSocketAction>, src: Option<TCPSocketAction>): Option<TCPSocketAction>
  {
    match (dst, src)
    case (_, None) => dst
    case (None, _) => src
    case (Some(d), Some(s)) => Some(TCPSocketAction(
      LastNonZero(ZERO_PORT, d.port, s.port),
      LastNonZero("", d.host, s.host)))
  }

  // ---- deepMergeGRPCAction ----

  datatype GRPCAction = GRPCAction(port: int, service: Option<string>)

  function MergeGRPCAction(dst: Option<GRPCAction>, src: Option<GRPCAction>): Option<GRPCAction>
  {
    match (dst, src)
    case (_, None) => dst
    case (None, _) => src
    case (Some(d), Some(s)) => Some(GRPCAction(
      LastNonZero(0, d.port, s.port),
      LastSet(d.service, s.service)))
  }

  // ---- deepMergeProbe ----

  /** The four pointers of the embedded ProbeHandler are fields of the probe here. */
  datatype Probe = Probe(
    exec: Option<ExecAction>,
    httpGet: Option<HTTPGetAction>,
    tcpSocket: Option<TCPSocketAction>,
    grpc: Option<GRPCAction>,
    initialDelaySeconds: int,
    timeoutSeconds: int,
    periodSeconds: int,
    successThreshold: int,
    failureThreshold: int,
    terminationGracePeriodSeconds: Option<int>)

  function MergeProbe(dst: Option<Probe>, src: Option<Probe>): Option<Probe>
  {
    match (dst, src)
    case (_, None) => dst
    case (None, _) => src
    case (Some(d), Some(s)) => Some(Probe(
      MergeExecAction(d.exec, s.exec),
      MergeHTTPGetAction(d.httpGet, s.httpGet),
      MergeTCPSocketAction(d.tcpSocket, s.tcpSocket),
      MergeGRPCAction(d.grpc, s.grpc),
      LastNonZero(0, d.initialDelaySeconds, s.initialDelaySeconds),
      LastNonZero(0, d.timeoutSeconds, s.timeoutSeconds),
      LastNonZero(0, d.periodSeconds, s.periodSeconds),
      LastNonZero(0, d.successThreshold, s.successThreshold),
      LastNonZero(0, d.failureThreshold, s.failureThreshold),
      LastSet(d.terminationGracePeriodSeconds, s.terminationGracePeriodSeconds)))
  }

  // ---- deepMergeGracefulShutdown ----

  datatype GracefulShutdownSpec = GracefulShutdownSpec(enabled: Option<bool>, sleepTimeSeconds: Option<int>)

  function MergeGracefulShutdownSpec(dst: Option<GracefulShutdownSpec>, src: Option<GracefulShutdownSpec>):
    Option<GracefulShutdownSpec>
  {
    match (dst, src)
    case (_, None) => dst
    case (None, _) => src
    case (Some(d), Some(s)) => Some(GracefulShutdownSpec(
      LastSet(d.enabled, s.enabled),
      LastSet(d.sleepTimeSeconds, s.sleepTimeSeconds)))
  }

  // ---- deepMergePodTemplate ----

  datatype Pod = Pod(
    extraLabels: Option<StringMap>,
    extraAnnotations: Option<StringMap>,
    securityContext: Option<PodSecurityContext>,
    imagePullSecrets: Option<seq<Element>>,
    nodeSelector: Option<StringMap>,
    affinity: Option<Affinity>,
    tolerations: Option<seq<Element>>,
    gracefulShutdown: Option<GracefulShutdownSpec>,
    terminationGracePeriodSeconds: Option<int>,
    readinessProbe: Option<Probe>,
    livenessProbe: Option<Probe>)

  const NO_POD := Pod(None, None, None, None, None, None, None, None, None, None, None)

  function MergePod(dst: Option<Pod>, src: Option<Pod>): Option<Pod>
  {
    match (dst, src)
    case (_, None) => dst
    case (None, _) => src
    case (Some(d), Some(s)) => Some(Pod(
      UnionMaps(d.extraLabels, s.extraLabels),
      UnionMaps(d.extraAnnotations, s.extraAnnotations),
      MergePodSecurityContext(d.securityContext, s.securityContext),
      AppendLists(d.imagePullSecrets, s.imagePullSecrets),
      UnionMaps(d.nodeSelector, s.nodeSelector),
      MergeAffinity(d.affinity, s.affinity),
      AppendLists(d.tolerations, s.tolerations),
      MergeGracefulShutdownSpec(d.gracefulShutdown, s.gracefulShutdown),
      LastSet(d.terminationGracePeriodSeconds, s.terminationGracePeriodSeconds),
      MergeProbe(d.readinessProbe, s.readinessProbe),
      MergeProbe(d.livenessProbe, s.livenessProbe)))
  }

  // ---- deepMergeService ----

  datatype Service = Service(
    serviceType: Option<string>,
    clusterIP: Option<string>,
    extraLabels: Option<StringMap>,
    extraAnnotations: Option<StringMap>)

  function MergeService(dst: Option<Service>, src: Option<Service>): Option<Service>
  {
    match (dst, src)
    case (_, None) => dst
    case (None, _) => src
    case (Some(d), Some(s)) => Some(Service(
      LastSet(d.serviceType, s.serviceType),
      LastSet(d.clusterIP, s.clusterIP),
      UnionMaps(d.extraLabels, s.extraLabels),
      UnionMaps(d.extraAnnotations, s.extraAnnotations)))
  }

  // ---- deepMergeServiceAccount ----

  datatype ServiceAccount = ServiceAccount(extraLabels: Option<StringMap>, extraAnnotations: Option<StringMap>)

  function MergeServiceAccount(dst: Option<ServiceAccount>, src: Option<ServiceAccount>): Option<ServiceAccount>
  {
    match (dst, src)
    case (_, None) => dst
    case (None, _) => src
    case (Some(d), Some(s)) => Some(ServiceAccount(
      UnionMaps(d.extraLabels, s.extraLabels),
      UnionMaps(d.extraAnnotations, s.extraAnnotations)))
  }

  // ---- deepMergeIstioContainer ----

  datatype IstioContainer = IstioContainer(
    image: Option<Image>,
    securityContext: Option<SecurityContext>,
    resources: Option<ResourceRequirements>,
    logLevel: Option<string>,
    istioDiscoveryAddress: Option<string>,
    istioMetaMeshId: Option<string>,
    istioMetaClusterId: Option<string>)

  function MergeIstioContainer(dst: Option<IstioContainer>, src: Option<IstioContainer>): Option<IstioContainer>
  {
    match (dst, src)
    case (_, None) => dst
    case (None, _) => src
    case (Some(d), Some(s)) => Some(IstioContainer(
      MergeImage(d.image, s.image),
      MergeSecurityContext(d.securityContext, s.securityContext),
      MergeResourceRequirements(d.resources, s.resources),
      LastSet(d.logLevel, s.logLevel),
      FirstSet(d.istioDiscoveryAddress, s.istioDiscoveryAddress),
      FirstSet(d.istioMetaMeshId, s.istioMetaMeshId),
      FirstSet(d.istioMetaClusterId, s.istioMetaClusterId)))
  }

  // ---- deepMergeIstioIntegration ----

  datatype IstioIntegration = IstioIntegration(
    istioProxyContainer: Option<IstioContainer>,
    customSidecars: Option<seq<Element>>)

  function MergeIstioIntegration(dst: Option<IstioIntegration>, src: Option<IstioIntegration>):
    Option<IstioIntegration>
  {
    match (dst, src)
    case (_, None) => dst
    case (None, _) => src
    case (Some(d), Some(s)) => Some(IstioIntegration(
      MergeIstioContainer(d.istioProxyContainer, s.istioProxyContainer),
      LastNonEmpty(d.customSidecars, s.customSidecars)))
  }

  // ---- deepMergeStatsConfig ----

  datatype StatsConfig = StatsConfig(
    enabled: Option<bool>,
    routePrefixRewrite: Option<string>,
    enableStatsRoute: Option<bool>,
    statsRoutePrefixRewrite: Option<string>)

  function MergeStatsConfig(dst: Option<StatsConfig>, src: Option<StatsConfig>): Option<StatsConfig>
  {
    match (dst, src)
    case (_, None) => dst
    case (None, _) => src
    case (Some(d), Some(s)) => Some(StatsConfig(
      LastSet(d.enabled, s.enabled),
      LastSet(d.routePrefixRewrite, s.routePrefixRewrite),
      LastSet(d.enableStatsRoute, s.enableStatsRoute),
      LastSet(d.statsRoutePrefixRewrite, s.statsRoutePrefixRewrite)))
  }

  // ---- deepMergeAIExtensionStats ----

  datatype AiExtensionStats = AiExtensionStats(customLabels: Option<seq<Option<CustomLabel>>>)

  function MergeAiExtensionStats(dst: Option<AiExtensionStats>, src: Option<AiExtensionStats>):
    Option<AiExtensionStats>
  {
    match (dst, src)
    case (_, None) => dst
    case (None, _) => src
    case (Some(d), Some(s)) => Some(AiExtensionStats(
      AppendLists(d.customLabels, s.customLabels)))
  }

  // ---- deepMergeAIExtension ----

  datatype AiExtension = AiExtension(
    enabled: Option<bool>,
    image: Option<Image>,
    securityContext: Option<SecurityContext>,
    resources: Option<ResourceRequirements>,
    env: Option<seq<Element>>,
    ports: Option<seq<Element>>,
    stats: Option<AiExtensionStats>)

  function MergeAiExtension(dst: Option<AiExtension>, src: Option<AiExtension>): Option<AiExtension>
  {
    match (dst, src)
    case (_, None) => dst
    case (None, _) => src
    case (Some(d), Some(s)) => Some(AiExtension(
      LastSet(d.enabled, s.enabled),
      MergeImage(d.image, s.image),
      MergeSecurityContext(d.securityContext, s.securityContext),
      MergeResourceRequirements(d.resources, s.resources),
      AppendLists(d.env, s.env),
      AppendLists(d.ports, s.ports),
      MergeAiExtensionStats(d.stats, s.stats)))
  }

  // ---- deepMergeGatewayParameters ----

  datatype KubernetesProxyConfig = KubernetesProxyConfig(
    deployment: Option<ProxyDeployment>,
    envoyContainer: Option<EnvoyContainer>,
    sdsContainer: Option<SdsContainer>,
    podTemplate: Option<Pod>,
    service: Option<Service>,
    serviceAccount: Option<ServiceAccount>,
    istio: Option<IstioIntegration>,
    stats: Option<StatsConfig>,
    aiExtension: Option<AiExtension>,
    floatingUserId: Option<bool>)

  const NO_KUBERNETES_PROXY_CONFIG := KubernetesProxyConfig(None, None, None, None, None, None, None, None, None, None)

  function MergeKubernetesProxyConfig(dst: Option<KubernetesProxyConfig>, src: Option<KubernetesProxyConfig>):
    Option<KubernetesProxyConfig>
  {
    match (dst, src)
    case (_, None) => dst
    case (None, _) => src
    case (Some(d), Some(s)) => Some(KubernetesProxyConfig(
      MergeProxyDeployment(d.deployment, s.deployment),
      MergeEnvoyContainer(d.envoyContainer, s.envoyContainer),
      MergeSdsContainer(d.sdsContainer, s.sdsContainer),
      MergePod(d.podTemplate, s.podTemplate),
      MergeService(d.service, s.service),
      MergeServiceAccount(d.serviceAccount, s.serviceAccount),
      MergeIstioIntegration(d.istio, s.istio),
      MergeStatsConfig(d.stats, s.stats),
      MergeAiExtension(d.aiExtension, s.aiExtension),
      LastSet(d.floatingUserId, s.floatingUserId)))
  }
}
