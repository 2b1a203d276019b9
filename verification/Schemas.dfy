/** The static schema of the tree: for every struct of GatewayParams the fields in
    declaration order, each with its merge policy, and what a policy does to two leaves. */
module Schemas {
  import opened Options
  import opened GatewayParams

  /** The value of a field that is not a struct pointer: a pointer to a scalar, a plain
      scalar, a map, a list, or the list of nullable custom labels. */
  datatype Leaf =
    | Text(text: Option<string>)
    | Number(number: Option<int>)
    | Flag(flag: Option<bool>)
    | PlainText(plain: string)
    | PlainNumber(count: int)
    | PlainPort(port: IntOrString)
    | Labels(labels: Option<StringMap>)
    | Items(items: Option<seq<Element>>)
    | CustomLabels(custom: Option<seq<Option<CustomLabel>>>)

  /** Which of two leaves wins, or how they are joined. */
  datatype Policy = LastWins | FirstWins | Union | Append | LastNonEmptyWins

  /** How a field is merged: a leaf by its policy, applied to the field `ahead` places
      further on; a struct pointer by the merge of the struct. */
  datatype Kind =
    | LeafKind(policy: Policy, zero: Leaf, ahead: nat)
    | NodeKind(node: Type)

  /** Nil, or the zero value of a plain scalar. */
  predicate IsZero(x: Leaf)
  {
    match x
    case Text(v) => v.None?
    case Number(v) => v.None?
    case Flag(v) => v.None?
    case PlainText(v) => v == ""
    case PlainNumber(v) => v == 0
    case PlainPort(v) => v == ZERO_PORT
    case Labels(v) => v.None?
    case Items(v) => v.None?
    case CustomLabels(v) => v.None?
  }

  predicate SameSort(x: Leaf, y: Leaf)
  {
    match x
    case Text(_) => y.Text?
    case Number(_) => y.Number?
    case Flag(_) => y.Flag?
    case PlainText(_) => y.PlainText?
    case PlainNumber(_) => y.PlainNumber?
    case PlainPort(_) => y.PlainPort?
    case Labels(_) => y.Labels?
    case Items(_) => y.Items?
    case CustomLabels(_) => y.CustomLabels?
  }

  function Combine(policy: Policy, dst: Leaf, src: Leaf): Leaf
  {
    match policy
    case LastWins => if IsZero(src) then dst else src
    case FirstWins => if IsZero(dst) then src else dst
    case Union => if dst.Labels? && src.Labels? then Labels(UnionMaps(dst.labels, src.labels)) else dst
    case Append =>
      if dst.Items? && src.Items? then Items(AppendLists(dst.items, src.items))
      else if dst.CustomLabels? && src.CustomLabels? then CustomLabels(AppendLists(dst.custom, src.custom))
      else dst
    case LastNonEmptyWins =>
      if dst.Items? && src.Items? then Items(LastNonEmpty(dst.items, src.items)) else dst
  }

  /** The policies for maps and lists are given to maps and lists only. */
  predicate Fits(policy: Policy, x: Leaf)
  {
    match policy
    case Union => x.Labels?
    case Append => x.Items? || x.CustomLabels?
    case LastNonEmptyWins => x.Items?
    case _ => !x.Labels? && !x.CustomLabels?
  }

  // ---- the policy of every field ----

  const TEXT := LeafKind(LastWins, Text(None), 0)                 // mergePointers on a string
  const NUMBER := LeafKind(LastWins, Number(None), 0)             // mergePointers on a number
  const FLAG := LeafKind(LastWins, Flag(None), 0)                 // mergePointers on a boolean
  const PROTECTED := LeafKind(FirstWins, Text(None), 0)           // kept once the default has set it
  const PLAIN_TEXT := LeafKind(LastWins, PlainText(""), 0)        // mergeComparable
  const PLAIN_NUMBER := LeafKind(LastWins, PlainNumber(0), 0)     // mergeComparable
  const PORT := LeafKind(LastWins, PlainPort(ZERO_PORT), 0)       // mergeIntOrString
  const LABELS := LeafKind(Union, Labels(None), 0)                // deepMergeMaps
  const ITEMS := LeafKind(Append, Items(None), 0)                 // deepMergeSlices
  const CUSTOM_LABELS := LeafKind(Append, CustomLabels(None), 0)  // deepMergeSlices on pointers
  const COMMAND := LeafKind(LastWins, Items(None), 0)             // overrideSlices
  const SIDECARS := LeafKind(LastNonEmptyWins, Items(None), 0)    // mergeCustomSidecars
  const SPEC_NAME := LeafKind(LastWins, Text(None), 1)            // mergePointers on the field after it

  /** The structs. */
  datatype Type =
    | ProxyDeploymentType | ImageType | EnvoyBootstrapType | ResourceRequirementsType | SELinuxOptionsType
    | SeccompProfileType | WindowsOptionsType | CapabilitiesType | SecurityContextType | EnvoyContainerType
    | SdsBootstrapType | SdsContainerType | PodSecurityContextType | NodeSelectorType | NodeAffinityType
    | PodAffinityType | PodAntiAffinityType | AffinityType | ExecActionType | HTTPGetActionType
    | TCPSocketActionType | GRPCActionType | ProbeType | GracefulShutdownSpecType | PodType | ServiceType
    | ServiceAccountType | IstioContainerType | IstioIntegrationType | StatsConfigType | AiExtensionStatsType
    | AiExtensionType | KubernetesProxyConfigType

  /** The number of fields of a struct. */
  function Width(t: Type): nat
  {
    match t
    case ProxyDeploymentType => 1
    case ImageType => 5
    case EnvoyBootstrapType => 2
    case ResourceRequirementsType => 2
    case SELinuxOptionsType => 4
    case SeccompProfileType => 2
    case WindowsOptionsType => 4
    case CapabilitiesType => 2
    case SecurityContextType => 11
    case EnvoyContainerType => 4
    case SdsBootstrapType => 1
    case SdsContainerType => 4
    case PodSecurityContextType => 10
    case NodeSelectorType => 1
    case NodeAffinityType => 2
    case PodAffinityType => 2
    case PodAntiAffinityType => 2
    case AffinityType => 3
    case ExecActionType => 1
    case HTTPGetActionType => 5
    case TCPSocketActionType => 2
    case GRPCActionType => 2
    case ProbeType => 10
    case GracefulShutdownSpecType => 2
    case PodType => 11
    case ServiceType => 4
    case ServiceAccountType => 2
    case IstioContainerType => 7
    case IstioIntegrationType => 2
    case StatsConfigType => 4
    case AiExtensionStatsType => 1
    case AiExtensionType => 7
    case KubernetesProxyConfigType => 10
  }

  /** How deep structs nest below a struct. */
  function Depth(t: Type): nat
  {
    match t
    case SecurityContextType => 1
    case EnvoyContainerType => 2
    case SdsContainerType => 2
    case PodSecurityContextType => 1
    case NodeAffinityType => 1
    case AffinityType => 2
    case ProbeType => 1
    case PodType => 3
    case IstioContainerType => 2
    case IstioIntegrationType => 3
    case AiExtensionType => 2
    case KubernetesProxyConfigType => 4
    case _ => 0
  }

  /** The fields, in declaration order. */
  function FieldKind(t: Type, i: nat): Kind
  {
    match t
    case ProxyDeploymentType => ProxyDeploymentKind(i)
    case ImageType => ImageKind(i)
    case EnvoyBootstrapType => EnvoyBootstrapKind(i)
    case ResourceRequirementsType => ResourceRequirementsKind(i)
    case SELinuxOptionsType => SELinuxOptionsKind(i)
    case SeccompProfileType => SeccompProfileKind(i)
    case WindowsOptionsType => WindowsOptionsKind(i)
    case CapabilitiesType => CapabilitiesKind(i)
    case SecurityContextType => SecurityContextKind(i)
    case EnvoyContainerType => EnvoyContainerKind(i)
    case SdsBootstrapType => SdsBootstrapKind(i)
    case SdsContainerType => SdsContainerKind(i)
    case PodSecurityContextType => PodSecurityContextKind(i)
    case NodeSelectorType => NodeSelectorKind(i)
    case NodeAffinityType => NodeAffinityKind(i)
    case PodAffinityType => PodAffinityKind(i)
    case PodAntiAffinityType => PodAntiAffinityKind(i)
    case AffinityType => AffinityKind(i)
    case ExecActionType => ExecActionKind(i)
    case HTTPGetActionType => HTTPGetActionKind(i)
    case TCPSocketActionType => TCPSocketActionKind(i)
    case GRPCActionType => GRPCActionKind(i)
    case ProbeType => ProbeKind(i)
    case GracefulShutdownSpecType => GracefulShutdownSpecKind(i)
    case PodType => PodKind(i)
    case ServiceType => ServiceKind(i)
    case ServiceAccountType => ServiceAccountKind(i)
    case IstioContainerType => IstioContainerKind(i)
    case IstioIntegrationType => IstioIntegrationKind(i)
    case StatsConfigType => StatsConfigKind(i)
    case AiExtensionStatsType => AiExtensionStatsKind(i)
    case AiExtensionType => AiExtensionKind(i)
    case KubernetesProxyConfigType => KubernetesProxyConfigKind(i)
  }

  function ProxyDeploymentKind(i: nat): Kind
  {
    NUMBER  // replicas
  }

  function ImageKind(i: nat): Kind
  {
    match i
    case 0 => TEXT  // registry
    case 1 => TEXT  // repository
    case 2 => TEXT  // tag
    case 3 => TEXT  // digest
    case _ => TEXT  // pullPolicy
  }

  function EnvoyBootstrapKind(i: nat): Kind
  {
    match i
    case 0 => TEXT  // logLevel
    case _ => LABELS  // componentLogLevels
  }

  function ResourceRequirementsKind(i: nat): Kind
  {
    match i
    case 0 => LABELS  // limits
    case _ => LABELS  // requests
  }

  function SELinuxOptionsKind(i: nat): Kind
  {
    match i
    case 0 => PLAIN_TEXT  // user
    case 1 => PLAIN_TEXT  // role
    case 2 => PLAIN_TEXT  // seType
    case _ => PLAIN_TEXT  // level
  }

  function SeccompProfileKind(i: nat): Kind
  {
    match i
    case 0 => PLAIN_TEXT  // profileType
    case _ => TEXT  // localhostProfile
  }

  function WindowsOptionsKind(i: nat): Kind
  {
    match i
    case 0 => SPEC_NAME  // gmsaCredentialSpecName
    case 1 => TEXT  // gmsaCredentialSpec
    case 2 => TEXT  // runAsUserName
    case _ => FLAG  // hostProcess
  }

  function CapabilitiesKind(i: nat): Kind
  {
    match i
    case 0 => ITEMS  // add
    case _ => ITEMS  // drop
  }

  function SecurityContextKind(i: nat): Kind
  {
    match i
    case 0 => NodeKind(CapabilitiesType)  // capabilities
    case 1 => NodeKind(SELinuxOptionsType)  // seLinuxOptions
    case 2 => NodeKind(WindowsOptionsType)  // windowsOptions
    case 3 => NUMBER  // runAsUser
    case 4 => NUMBER  // runAsGroup
    case 5 => FLAG  // runAsNonRoot
    case 6 => FLAG  // privileged
    case 7 => FLAG  // readOnlyRootFilesystem
    case 8 => FLAG  // allowPrivilegeEscalation
    case 9 => TEXT  // procMount
    case _ => NodeKind(SeccompProfileType)  // seccompProfile
  }

  function EnvoyContainerKind(i: nat): Kind
  {
    match i
    case 0 => NodeKind(EnvoyBootstrapType)  // bootstrap
    case 1 => NodeKind(ImageType)  // image
    case 2 => NodeKind(SecurityContextType)  // securityContext
    case _ => NodeKind(ResourceRequirementsType)  // resources
  }

  function SdsBootstrapKind(i: nat): Kind
  {
    TEXT  // logLevel
  }

  function SdsContainerKind(i: nat): Kind
  {
    match i
    case 0 => NodeKind(ImageType)  // image
    case 1 => NodeKind(SecurityContextType)  // securityContext
    case 2 => NodeKind(ResourceRequirementsType)  // resources
    case _ => NodeKind(SdsBootstrapType)  // bootstrap
  }

  function PodSecurityContextKind(i: nat): Kind
  {
    match i
    case 0 => NodeKind(SELinuxOptionsType)  // seLinuxOptions
    case 1 => NodeKind(WindowsOptionsType)  // windowsOptions
    case 2 => NUMBER  // runAsUser
    case 3 => NUMBER  // runAsGroup
    case 4 => FLAG  // runAsNonRoot
    case 5 => ITEMS  // supplementalGroups
    case 6 => NUMBER  // fsGroup
    case 7 => ITEMS  // sysctls
    case 8 => TEXT  // fsGroupChangePolicy
    case _ => NodeKind(SeccompProfileType)  // seccompProfile
  }

  function NodeSelectorKind(i: nat): Kind
  {
    ITEMS  // nodeSelectorTerms
  }

  function NodeAffinityKind(i: nat): Kind
  {
    match i
    case 0 => NodeKind(NodeSelectorType)  // required
    case _ => ITEMS  // preferred
  }

  function PodAffinityKind(i: nat): Kind
  {
    match i
    case 0 => ITEMS  // required
    case _ => ITEMS  // preferred
  }

  function PodAntiAffinityKind(i: nat): Kind
  {
    match i
    case 0 => ITEMS  // required
    case _ => ITEMS  // preferred
  }

  function AffinityKind(i: nat): Kind
  {
    match i
    case 0 => NodeKind(NodeAffinityType)  // nodeAffinity
    case 1 => NodeKind(PodAffinityType)  // podAffinity
    case _ => NodeKind(PodAntiAffinityType)  // podAntiAffinity
  }

  function ExecActionKind(i: nat): Kind
  {
    COMMAND  // command
  }

  function HTTPGetActionKind(i: nat): Kind
  {
    match i
    case 0 => PLAIN_TEXT  // path
    case 1 => PORT  // port
    case 2 => PLAIN_TEXT  // host
    case 3 => PLAIN_TEXT  // scheme
    case _ => ITEMS  // httpHeaders
  }

  function TCPSocketActionKind(i: nat): Kind
  {
    match i
    case 0 => PORT  // port
    case _ => PLAIN_TEXT  // host
  }

  function GRPCActionKind(i: nat): Kind
  {
    match i
    case 0 => PLAIN_NUMBER  // port
    case _ => TEXT  // service
  }

  function ProbeKind(i: nat): Kind
  {
    match i
    case 0 => NodeKind(ExecActionType)  // exec
    case 1 => NodeKind(HTTPGetActionType)  // httpGet
    case 2 => NodeKind(TCPSocketActionType)  // tcpSocket
    case 3 => NodeKind(GRPCActionType)  // grpc
    case 4 => PLAIN_NUMBER  // initialDelaySeconds
    case 5 => PLAIN_NUMBER  // timeoutSeconds
    case 6 => PLAIN_NUMBER  // periodSeconds
    case 7 => PLAIN_NUMBER  // successThreshold
    case 8 => PLAIN_NUMBER  // failureThreshold
    case _ => NUMBER  // terminationGracePeriodSeconds
  }

  function GracefulShutdownSpecKind(i: nat): Kind
  {
    match i
    case 0 => FLAG  // enabled
    case _ => NUMBER  // sleepTimeSeconds
  }

  function PodKind(i: nat): Kind
  {
    match i
    case 0 => LABELS  // extraLabels
    case 1 => LABELS  // extraAnnotations
    case 2 => NodeKind(PodSecurityContextType)  // securityContext
    case 3 => ITEMS  // imagePullSecrets
    case 4 => LABELS  // nodeSelector
    case 5 => NodeKind(AffinityType)  // affinity
    case 6 => ITEMS  // tolerations
    case 7 => NodeKind(GracefulShutdownSpecType)  // gracefulShutdown
    case 8 => NUMBER  // terminationGracePeriodSeconds
    case 9 => NodeKind(ProbeType)  // readinessProbe
    case _ => NodeKind(ProbeType)  // livenessProbe
  }

  function ServiceKind(i: nat): Kind
  {
    match i
    case 0 => TEXT  // serviceType
    case 1 => TEXT  // clusterIP
    case 2 => LABELS  // extraLabels
    case _ => LABELS  // extraAnnotations
  }

  function ServiceAccountKind(i: nat): Kind
  {
    match i
    case 0 => LABELS  // extraLabels
    case _ => LABELS  // extraAnnotations
  }

  function IstioContainerKind(i: nat): Kind
  {
    match i
    case 0 => NodeKind(ImageType)  // image
    case 1 => NodeKind(SecurityContextType)  // securityContext
    case 2 => NodeKind(ResourceRequirementsType)  // resources
    case 3 => TEXT  // logLevel
    case 4 => PROTECTED  // istioDiscoveryAddress
    case 5 => PROTECTED  // istioMetaMeshId
    case _ => PROTECTED  // istioMetaClusterId
  }

  function IstioIntegrationKind(i: nat): Kind
  {
    match i
    case 0 => NodeKind(IstioContainerType)  // istioProxyContainer
    case _ => SIDECARS  // customSidecars
  }

  function StatsConfigKind(i: nat): Kind
  {
    match i
    case 0 => FLAG  // enabled
    case 1 => TEXT  // routePrefixRewrite
    case 2 => FLAG  // enableStatsRoute
    case _ => TEXT  // statsRoutePrefixRewrite
  }

  function AiExtensionStatsKind(i: nat): Kind
  {
    CUSTOM_LABELS  // customLabels
  }

  function AiExtensionKind(i: nat): Kind
  {
    match i
    case 0 => FLAG  // enabled
    case 1 => NodeKind(ImageType)  // image
    case 2 => NodeKind(SecurityContextType)  // securityContext
    case 3 => NodeKind(ResourceRequirementsType)  // resources
    case 4 => ITEMS  // env
    case 5 => ITEMS  // ports
    case _ => NodeKind(AiExtensionStatsType)  // stats
  }

  function KubernetesProxyConfigKind(i: nat): Kind
  {
    match i
    case 0 => NodeKind(ProxyDeploymentType)  // deployment
    case 1 => NodeKind(EnvoyContainerType)  // envoyContainer
    case 2 => NodeKind(SdsContainerType)  // sdsContainer
    case 3 => NodeKind(PodType)  // podTemplate
    case 4 => NodeKind(ServiceType)  // service
    case 5 => NodeKind(ServiceAccountType)  // serviceAccount
    case 6 => NodeKind(IstioIntegrationType)  // istio
    case 7 => NodeKind(StatsConfigType)  // stats
    case 8 => NodeKind(AiExtensionType)  // aiExtension
    case _ => FLAG  // floatingUserId
  }
}
