/** The structs of GatewayParams as generic trees.  For every struct: its encoding is of the
    type the schema gives it, encoding the merge is merging the encodings as the schema
    prescribes, and the encoding loses nothing.

    The results are the ones about the whole configuration, KubernetesProxyConfigMerges and
    KubernetesProxyConfigInjective; the lemmas about the other structs are steps to them. */
module Encoding {
  import opened Options
  import opened GatewayParams
  import opened Schemas
  import opened Values

  // ---- ProxyDeployment ----

  function ProxyDeploymentField(x: ProxyDeployment, i: nat): Value
  {
    LeafValue(Number(x.replicas))
  }

  function EncodeProxyDeployment(o: Option<ProxyDeployment>): Value
  {
    match o
    case None => Nil
    case Some(x) => Node(seq(1, i requires 0 <= i < 1 => ProxyDeploymentField(x, i)))
  }

  lemma ProxyDeploymentTyped(a: Option<ProxyDeployment>)
    ensures Typed(ProxyDeploymentType, EncodeProxyDeployment(a))
  {}

  lemma ProxyDeploymentMerges(a: Option<ProxyDeployment>, b: Option<ProxyDeployment>)
    ensures EncodeProxyDeployment(MergeProxyDeployment(a, b)) ==
      MergeValues(ProxyDeploymentType, EncodeProxyDeployment(a), EncodeProxyDeployment(b))
  {}

  lemma ProxyDeploymentInjective(a: Option<ProxyDeployment>, b: Option<ProxyDeployment>)
    requires EncodeProxyDeployment(a) == EncodeProxyDeployment(b)
    ensures a == b
  {
    if a.Some? && b.Some? {
      var v, w := EncodeProxyDeployment(a).fields, EncodeProxyDeployment(b).fields;
      assert v[0] == w[0];
    }
  }

  // ---- Image ----

  function ImageField(x: Image, i: nat): Value
  {
    match i
    case 0 => LeafValue(Text(x.registry))
    case 1 => LeafValue(Text(x.repository))
    case 2 => LeafValue(Text(x.tag))
    case 3 => LeafValue(Text(x.digest))
    case _ => LeafValue(Text(x.pullPolicy))
  }

  function EncodeImage(o: Option<Image>): Value
  {
    match o
    case None => Nil
    case Some(x) => Node(seq(5, i requires 0 <= i < 5 => ImageField(x, i)))
  }

  lemma ImageTyped(a: Option<Image>)
    ensures Typed(ImageType, EncodeImage(a))
  {}

  lemma ImageMerges(a: Option<Image>, b: Option<Image>)
    ensures EncodeImage(MergeImage(a, b)) == MergeValues(ImageType, EncodeImage(a), EncodeImage(b))
  {}

  lemma ImageInjective(a: Option<Image>, b: Option<Image>)
    requires EncodeImage(a) == EncodeImage(b)
    ensures a == b
  {
    if a.Some? && b.Some? {
      var v, w := EncodeImage(a).fields, EncodeImage(b).fields;
      assert v[0] == w[0] && v[1] == w[1] && v[2] == w[2] && v[3] == w[3] && v[4] == w[4];
    }
  }

  // ---- EnvoyBootstrap ----

  function EnvoyBootstrapField(x: EnvoyBootstrap, i: nat): Value
  {
    match i
    case 0 => LeafValue(Text(x.logLevel))
    case _ => LeafValue(Labels(x.componentLogLevels))
  }

  function EncodeEnvoyBootstrap(o: Option<EnvoyBootstrap>): Value
  {
    match o
    case None => Nil
    case Some(x) => Node(seq(2, i requires 0 <= i < 2 => EnvoyBootstrapField(x, i)))
  }

  lemma EnvoyBootstrapTyped(a: Option<EnvoyBootstrap>)
    ensures Typed(EnvoyBootstrapType, EncodeEnvoyBootstrap(a))
  {}

  lemma EnvoyBootstrapMerges(a: Option<EnvoyBootstrap>, b: Option<EnvoyBootstrap>)
    ensures EncodeEnvoyBootstrap(MergeEnvoyBootstrap(a, b)) ==
      MergeValues(EnvoyBootstrapType, EncodeEnvoyBootstrap(a), EncodeEnvoyBootstrap(b))
  {}

  lemma EnvoyBootstrapInjective(a: Option<EnvoyBootstrap>, b: Option<EnvoyBootstrap>)
    requires EncodeEnvoyBootstrap(a) == EncodeEnvoyBootstrap(b)
    ensures a == b
  {
    if a.Some? && b.Some? {
      var v, w := EncodeEnvoyBootstrap(a).fields, EncodeEnvoyBootstrap(b).fields;
      assert v[0] == w[0] && v[1] == w[1];
    }
  }

  // ---- ResourceRequirements ----

  function ResourceRequirementsField(x: ResourceRequirements, i: nat): Value
  {
    match i
    case 0 => LeafValue(Labels(x.limits))
    case _ => LeafValue(Labels(x.requests))
  }

  function EncodeResourceRequirements(o: Option<ResourceRequirements>): Value
  {
    match o
    case None => Nil
    case Some(x) => Node(seq(2, i requires 0 <= i < 2 => ResourceRequirementsField(x, i)))
  }

  lemma ResourceRequirementsTyped(a: Option<ResourceRequirements>)
    ensures Typed(ResourceRequirementsType, EncodeResourceRequirements(a))
  {}

  lemma ResourceRequirementsMerges(a: Option<ResourceRequirements>, b: Option<ResourceRequirements>)
    ensures EncodeResourceRequirements(MergeResourceRequirements(a, b)) ==
      MergeValues(ResourceRequirementsType, EncodeResourceRequirements(a), EncodeResourceRequirements(b))
  {}

  lemma ResourceRequirementsInjective(a: Option<ResourceRequirements>, b: Option<ResourceRequirements>)
    requires EncodeResourceRequirements(a) == EncodeResourceRequirements(b)
    ensures a == b
  {
    if a.Some? && b.Some? {
      var v, w := EncodeResourceRequirements(a).fields, EncodeResourceRequirements(b).fields;
      assert v[0] == w[0] && v[1] == w[1];
    }
  }

  // ---- SELinuxOptions ----

  function SELinuxOptionsField(x: SELinuxOptions, i: nat): Value
  {
    match i
    case 0 => LeafValue(PlainText(x.user))
    case 1 => LeafValue(PlainText(x.role))
    case 2 => LeafValue(PlainText(x.seType))
    case _ => LeafValue(PlainText(x.level))
  }

  function EncodeSELinuxOptions(o: Option<SELinuxOptions>): Value
  {
    match o
    case None => Nil
    case Some(x) => Node(seq(4, i requires 0 <= i < 4 => SELinuxOptionsField(x, i)))
  }

  lemma SELinuxOptionsTyped(a: Option<SELinuxOptions>)
    ensures Typed(SELinuxOptionsType, EncodeSELinuxOptions(a))
  {}

  lemma SELinuxOptionsMerges(a: Option<SELinuxOptions>, b: Option<SELinuxOptions>)
    ensures EncodeSELinuxOptions(MergeSELinuxOptions(a, b)) ==
      MergeValues(SELinuxOptionsType, EncodeSELinuxOptions(a), EncodeSELinuxOptions(b))
  {}

  lemma SELinuxOptionsInjective(a: Option<SELinuxOptions>, b: Option<SELinuxOptions>)
    requires EncodeSELinuxOptions(a) == EncodeSELinuxOptions(b)
    ensures a == b
  {
    if a.Some? && b.Some? {
      var v, w := EncodeSELinuxOptions(a).fields, EncodeSELinuxOptions(b).fields;
      assert v[0] == w[0] && v[1] == w[1] && v[2] == w[2] && v[3] == w[3];
    }
  }

  // ---- SeccompProfile ----

  function SeccompProfileField(x: SeccompProfile, i: nat): Value
  {
    match i
    case 0 => LeafValue(PlainText(x.profileType))
    case _ => LeafValue(Text(x.localhostProfile))
  }

  function EncodeSeccompProfile(o: Option<SeccompProfile>): Value
  {
    match o
    case None => Nil
    case Some(x) => Node(seq(2, i requires 0 <= i < 2 => SeccompProfileField(x, i)))
  }

  lemma SeccompProfileTyped(a: Option<SeccompProfile>)
    ensures Typed(SeccompProfileType, EncodeSeccompProfile(a))
  {}

  lemma SeccompProfileMerges(a: Option<SeccompProfile>, b: Option<SeccompProfile>)
    ensures EncodeSeccompProfile(MergeSeccompProfile(a, b)) ==
      MergeValues(SeccompProfileType, EncodeSeccompProfile(a), EncodeSeccompProfile(b))
  {}

  lemma SeccompProfileInjective(a: Option<SeccompProfile>, b: Option<SeccompProfile>)
    requires EncodeSeccompProfile(a) == EncodeSeccompProfile(b)
    ensures a == b
  {
    if a.Some? && b.Some? {
      var v, w := EncodeSeccompProfile(a).fields, EncodeSeccompProfile(b).fields;
      assert v[0] == w[0] && v[1] == w[1];
    }
  }

  // ---- WindowsOptions ----

  function WindowsOptionsField(x: WindowsOptions, i: nat): Value
  {
    match i
    case 0 => LeafValue(Text(x.gmsaCredentialSpecName))
    case 1 => LeafValue(Text(x.gmsaCredentialSpec))
    case 2 => LeafValue(Text(x.runAsUserName))
    case _ => LeafValue(Flag(x.hostProcess))
  }

  function EncodeWindowsOptions(o: Option<WindowsOptions>): Value
  {
    match o
    case None => Nil
    case Some(x) => Node(seq(4, i requires 0 <= i < 4 => WindowsOptionsField(x, i)))
  }

  lemma WindowsOptionsTyped(a: Option<WindowsOptions>)
    ensures Typed(WindowsOptionsType, EncodeWindowsOptions(a))
  {}

  lemma WindowsOptionsMerges(a: Option<WindowsOptions>, b: Option<WindowsOptions>)
    ensures EncodeWindowsOptions(MergeWindowsOptions(a, b)) ==
      MergeValues(WindowsOptionsType, EncodeWindowsOptions(a), EncodeWindowsOptions(b))
  {}

  lemma WindowsOptionsInjective(a: Option<WindowsOptions>, b: Option<WindowsOptions>)
    requires EncodeWindowsOptions(a) == EncodeWindowsOptions(b)
    ensures a == b
  {
    if a.Some? && b.Some? {
      var v, w := EncodeWindowsOptions(a).fields, EncodeWindowsOptions(b).fields;
      assert v[0] == w[0] && v[1] == w[1] && v[2] == w[2] && v[3] == w[3];
    }
  }

  // ---- Capabilities ----

  function CapabilitiesField(x: Capabilities, i: nat): Value
  {
    match i
    case 0 => LeafValue(Items(x.add))
    case _ => LeafValue(Items(x.drop))
  }

  function EncodeCapabilities(o: Option<Capabilities>): Value
  {
    match o
    case None => Nil
    case Some(x) => Node(seq(2, i requires 0 <= i < 2 => CapabilitiesField(x, i)))
  }

  lemma CapabilitiesTyped(a: Option<Capabilities>)
    ensures Typed(CapabilitiesType, EncodeCapabilities(a))
  {}

  lemma CapabilitiesMerges(a: Option<Capabilities>, b: Option<Capabilities>)
    ensures EncodeCapabilities(MergeCapabilities(a, b)) ==
      MergeValues(CapabilitiesType, EncodeCapabilities(a), EncodeCapabilities(b))
  {}

  lemma CapabilitiesInjective(a: Option<Capabilities>, b: Option<Capabilities>)
    requires EncodeCapabilities(a) == EncodeCapabilities(b)
    ensures a == b
  {
    if a.Some? && b.Some? {
      var v, w := EncodeCapabilities(a).fields, EncodeCapabilities(b).fields;
      assert v[0] == w[0] && v[1] == w[1];
    }
  }

  // ---- SecurityContext ----

  function SecurityContextField(x: SecurityContext, i: nat): Value
  {
    match i
    case 0 => EncodeCapabilities(x.capabilities)
    case 1 => EncodeSELinuxOptions(x.seLinuxOptions)
    case 2 => EncodeWindowsOptions(x.windowsOptions)
    case 3 => LeafValue(Number(x.runAsUser))
    case 4 => LeafValue(Number(x.runAsGroup))
    case 5 => LeafValue(Flag(x.runAsNonRoot))
    case 6 => LeafValue(Flag(x.privileged))
    case 7 => LeafValue(Flag(x.readOnlyRootFilesystem))
    case 8 => LeafValue(Flag(x.allowPrivilegeEscalation))
    case 9 => LeafValue(Text(x.procMount))
    case _ => EncodeSeccompProfile(x.seccompProfile)
  }

  function EncodeSecurityContext(o: Option<SecurityContext>): Value
  {
    match o
    case None => Nil
    case Some(x) => Node(seq(11, i requires 0 <= i < 11 => SecurityContextField(x, i)))
  }

  lemma SecurityContextTyped(a: Option<SecurityContext>)
    ensures Typed(SecurityContextType, EncodeSecurityContext(a))
  {
    hide EncodeCapabilities, EncodeSELinuxOptions, EncodeWindowsOptions, EncodeSeccompProfile;
    if a.Some? {
      CapabilitiesTyped(a.value.capabilities);
      SELinuxOptionsTyped(a.value.seLinuxOptions);
      WindowsOptionsTyped(a.value.windowsOptions);
      SeccompProfileTyped(a.value.seccompProfile);
    }
  }

  lemma SecurityContextMerges(a: Option<SecurityContext>, b: Option<SecurityContext>)
    ensures EncodeSecurityContext(MergeSecurityContext(a, b)) ==
      MergeValues(SecurityContextType, EncodeSecurityContext(a), EncodeSecurityContext(b))
  {
    hide MergeValues, EncodeCapabilities, MergeCapabilities, EncodeSELinuxOptions, MergeSELinuxOptions,
         EncodeWindowsOptions, MergeWindowsOptions, EncodeSeccompProfile, MergeSeccompProfile, Combine, LastSet,
         FirstSet, LastNonZero, UnionMaps, AppendLists, LastNonEmpty;
    LeafRules();
    if a.Some? && b.Some? {
      CapabilitiesMerges(a.value.capabilities, b.value.capabilities);
      SELinuxOptionsMerges(a.value.seLinuxOptions, b.value.seLinuxOptions);
      WindowsOptionsMerges(a.value.windowsOptions, b.value.windowsOptions);
      SeccompProfileMerges(a.value.seccompProfile, b.value.seccompProfile);
    }
    RowsMerge(SecurityContextType, EncodeSecurityContext(a), EncodeSecurityContext(b),
              EncodeSecurityContext(MergeSecurityContext(a, b)));
  }

  lemma SecurityContextInjective(a: Option<SecurityContext>, b: Option<SecurityContext>)
    requires EncodeSecurityContext(a) == EncodeSecurityContext(b)
    ensures a == b
  {
    hide EncodeCapabilities, EncodeSELinuxOptions, EncodeWindowsOptions, EncodeSeccompProfile;
    if a.Some? && b.Some? {
      var v, w := EncodeSecurityContext(a).fields, EncodeSecurityContext(b).fields;
      assert v[0] == w[0] && v[1] == w[1] && v[2] == w[2] && v[3] == w[3] && v[4] == w[4] && v[5] == w[5] &&
             v[6] == w[6] && v[7] == w[7] && v[8] == w[8] && v[9] == w[9] && v[10] == w[10];
      CapabilitiesInjective(a.value.capabilities, b.value.capabilities);
      SELinuxOptionsInjective(a.value.seLinuxOptions, b.value.seLinuxOptions);
      WindowsOptionsInjective(a.value.windowsOptions, b.value.windowsOptions);
      SeccompProfileInjective(a.value.seccompProfile, b.value.seccompProfile);
    }
  }

  // ---- EnvoyContainer ----

  function EnvoyContainerField(x: EnvoyContainer, i: nat): Value
  {
    match i
    case 0 => EncodeEnvoyBootstrap(x.bootstrap)
    case 1 => EncodeImage(x.image)
    case 2 => EncodeSecurityContext(x.securityContext)
    case _ => EncodeResourceRequirements(x.resources)
  }

  function EncodeEnvoyContainer(o: Option<EnvoyContainer>): Value
  {
    match o
    case None => Nil
    case Some(x) => Node(seq(4, i requires 0 <= i < 4 => EnvoyContainerField(x, i)))
  }

  lemma EnvoyContainerTyped(a: Option<EnvoyContainer>)
    ensures Typed(EnvoyContainerType, EncodeEnvoyContainer(a))
  {
    hide EncodeEnvoyBootstrap, EncodeImage, EncodeSecurityContext, EncodeResourceRequirements;
    if a.Some? {
      EnvoyBootstrapTyped(a.value.bootstrap);
      ImageTyped(a.value.image);
      SecurityContextTyped(a.value.securityContext);
      ResourceRequirementsTyped(a.value.resources);
    }
  }

  lemma EnvoyContainerMerges(a: Option<EnvoyContainer>, b: Option<EnvoyContainer>)
    ensures EncodeEnvoyContainer(MergeEnvoyContainer(a, b)) ==
      MergeValues(EnvoyContainerType, EncodeEnvoyContainer(a), EncodeEnvoyContainer(b))
  {
    hide MergeValues, EncodeEnvoyBootstrap, MergeEnvoyBootstrap, EncodeImage, MergeImage, EncodeSecurityContext,
         MergeSecurityContext, EncodeResourceRequirements, MergeResourceRequirements;
    if a.Some? && b.Some? {
      EnvoyBootstrapMerges(a.value.bootstrap, b.value.bootstrap);
      ImageMerges(a.value.image, b.value.image);
      SecurityContextMerges(a.value.securityContext, b.value.securityContext);
      ResourceRequirementsMerges(a.value.resources, b.value.resources);
    }
    RowsMerge(EnvoyContainerType, EncodeEnvoyContainer(a), EncodeEnvoyContainer(b),
              EncodeEnvoyContainer(MergeEnvoyContainer(a, b)));
  }

  lemma EnvoyContainerInjective(a: Option<EnvoyContainer>, b: Option<EnvoyContainer>)
    requires EncodeEnvoyContainer(a) == EncodeEnvoyContainer(b)
    ensures a == b
  {
    hide EncodeEnvoyBootstrap, EncodeImage, EncodeSecurityContext, EncodeResourceRequirements;
    if a.Some? && b.Some? {
      var v, w := EncodeEnvoyContainer(a).fields, EncodeEnvoyContainer(b).fields;
      assert v[0] == w[0] && v[1] == w[1] && v[2] == w[2] && v[3] == w[3];
      EnvoyBootstrapInjective(a.value.bootstrap, b.value.bootstrap);
      ImageInjective(a.value.image, b.value.image);
      SecurityContextInjective(a.value.securityContext, b.value.securityContext);
      ResourceRequirementsInjective(a.value.resources, b.value.resources);
    }
  }

  // ---- SdsBootstrap ----

  function SdsBootstrapField(x: SdsBootstrap, i: nat): Value
  {
    LeafValue(Text(x.logLevel))
  }

  function EncodeSdsBootstrap(o: Option<SdsBootstrap>): Value
  {
    match o
    case None => Nil
    case Some(x) => Node(seq(1, i requires 0 <= i < 1 => SdsBootstrapField(x, i)))
  }

  lemma SdsBootstrapTyped(a: Option<SdsBootstrap>)
    ensures Typed(SdsBootstrapType, EncodeSdsBootstrap(a))
  {}

  lemma SdsBootstrapMerges(a: Option<SdsBootstrap>, b: Option<SdsBootstrap>)
    ensures EncodeSdsBootstrap(MergeSdsBootstrap(a, b)) ==
      MergeValues(SdsBootstrapType, EncodeSdsBootstrap(a), EncodeSdsBootstrap(b))
  {}

  lemma SdsBootstrapInjective(a: Option<SdsBootstrap>, b: Option<SdsBootstrap>)
    requires EncodeSdsBootstrap(a) == EncodeSdsBootstrap(b)
    ensures a == b
  {
    if a.Some? && b.Some? {
      var v, w := EncodeSdsBootstrap(a).fields, EncodeSdsBootstrap(b).fields;
      assert v[0] == w[0];
    }
  }

  // ---- SdsContainer ----

  function SdsContainerField(x: SdsContainer, i: nat): Value
  {
    match i
    case 0 => EncodeImage(x.image)
    case 1 => EncodeSecurityContext(x.securityContext)
    case 2 => EncodeResourceRequirements(x.resources)
    case _ => EncodeSdsBootstrap(x.bootstrap)
  }

  function EncodeSdsContainer(o: Option<SdsContainer>): Value
  {
    match o
    case None => Nil
    case Some(x) => Node(seq(4, i requires 0 <= i < 4 => SdsContainerField(x, i)))
  }

  lemma SdsContainerTyped(a: Option<SdsContainer>)
    ensures Typed(SdsContainerType, EncodeSdsContainer(a))
  {
    hide EncodeImage, EncodeSecurityContext, EncodeResourceRequirements, EncodeSdsBootstrap;
    if a.Some? {
      ImageTyped(a.value.image);
      SecurityContextTyped(a.value.securityContext);
      ResourceRequirementsTyped(a.value.resources);
      SdsBootstrapTyped(a.value.bootstrap);
    }
  }

  lemma SdsContainerMerges(a: Option<SdsContainer>, b: Option<SdsContainer>)
    ensures EncodeSdsContainer(MergeSdsContainer(a, b)) ==
      MergeValues(SdsContainerType, EncodeSdsContainer(a), EncodeSdsContainer(b))
  {
    hide MergeValues, EncodeImage, MergeImage, EncodeSecurityContext, MergeSecurityContext,
         EncodeResourceRequirements, MergeResourceRequirements, EncodeSdsBootstrap, MergeSdsBootstrap;
    if a.Some? && b.Some? {
      ImageMerges(a.value.image, b.value.image);
      SecurityContextMerges(a.value.securityContext, b.value.securityContext);
      ResourceRequirementsMerges(a.value.resources, b.value.resources);
      SdsBootstrapMerges(a.value.bootstrap, b.value.bootstrap);
    }
    RowsMerge(SdsContainerType, EncodeSdsContainer(a), EncodeSdsContainer(b),
              EncodeSdsContainer(MergeSdsContainer(a, b)));
  }

  lemma SdsContainerInjective(a: Option<SdsContainer>, b: Option<SdsContainer>)
    requires EncodeSdsContainer(a) == EncodeSdsContainer(b)
    ensures a == b
  {
    hide EncodeImage, EncodeSecurityContext, EncodeResourceRequirements, EncodeSdsBootstrap;
    if a.Some? && b.Some? {
      var v, w := EncodeSdsContainer(a).fields, EncodeSdsContainer(b).fields;
      assert v[0] == w[0] && v[1] == w[1] && v[2] == w[2] && v[3] == w[3];
      ImageInjective(a.value.image, b.value.image);
      SecurityContextInjective(a.value.securityContext, b.value.securityContext);
      ResourceRequirementsInjective(a.value.resources, b.value.resources);
      SdsBootstrapInjective(a.value.bootstrap, b.value.bootstrap);
    }
  }

  // ---- PodSecurityContext ----

  function PodSecurityContextField(x: PodSecurityContext, i: nat): Value
  {
    match i
    case 0 => EncodeSELinuxOptions(x.seLinuxOptions)
    case 1 => EncodeWindowsOptions(x.windowsOptions)
    case 2 => LeafValue(Number(x.runAsUser))
    case 3 => LeafValue(Number(x.runAsGroup))
    case 4 => LeafValue(Flag(x.runAsNonRoot))
    case 5 => LeafValue(Items(x.supplementalGroups))
    case 6 => LeafValue(Number(x.fsGroup))
    case 7 => LeafValue(Items(x.sysctls))
    case 8 => LeafValue(Text(x.fsGroupChangePolicy))
    case _ => EncodeSeccompProfile(x.seccompProfile)
  }

  function EncodePodSecurityContext(o: Option<PodSecurityContext>): Value
  {
    match o
    case None => Nil
    case Some(x) => Node(seq(10, i requires 0 <= i < 10 => PodSecurityContextField(x, i)))
  }

  lemma PodSecurityContextTyped(a: Option<PodSecurityContext>)
    ensures Typed(PodSecurityContextType, EncodePodSecurityContext(a))
  {
    hide EncodeSELinuxOptions, EncodeWindowsOptions, EncodeSeccompProfile;
    if a.Some? {
      SELinuxOptionsTyped(a.value.seLinuxOptions);
      WindowsOptionsTyped(a.value.windowsOptions);
      SeccompProfileTyped(a.value.seccompProfile);
    }
  }

  lemma PodSecurityContextMerges(a: Option<PodSecurityContext>, b: Option<PodSecurityContext>)
    ensures EncodePodSecurityContext(MergePodSecurityContext(a, b)) ==
      MergeValues(PodSecurityContextType, EncodePodSecurityContext(a), EncodePodSecurityContext(b))
  {
    hide MergeValues, EncodeSELinuxOptions, MergeSELinuxOptions, EncodeWindowsOptions, MergeWindowsOptions,
         EncodeSeccompProfile, MergeSeccompProfile, Combine, LastSet, FirstSet, LastNonZero, UnionMaps, AppendLists,
         LastNonEmpty;
    LeafRules();
    if a.Some? && b.Some? {
      SELinuxOptionsMerges(a.value.seLinuxOptions, b.value.seLinuxOptions);
      WindowsOptionsMerges(a.value.windowsOptions, b.value.windowsOptions);
      SeccompProfileMerges(a.value.seccompProfile, b.value.seccompProfile);
    }
    RowsMerge(PodSecurityContextType, EncodePodSecurityContext(a), EncodePodSecurityContext(b),
              EncodePodSecurityContext(MergePodSecurityContext(a, b)));
  }

  lemma PodSecurityContextInjective(a: Option<PodSecurityContext>, b: Option<PodSecurityContext>)
    requires EncodePodSecurityContext(a) == EncodePodSecurityContext(b)
    ensures a == b
  {
    hide EncodeSELinuxOptions, EncodeWindowsOptions, EncodeSeccompProfile;
    if a.Some? && b.Some? {
      var v, w := EncodePodSecurityContext(a).fields, EncodePodSecurityContext(b).fields;
      assert v[0] == w[0] && v[1] == w[1] && v[2] == w[2] && v[3] == w[3] && v[4] == w[4] && v[5] == w[5] &&
             v[6] == w[6] && v[7] == w[7] && v[8] == w[8] && v[9] == w[9];
      SELinuxOptionsInjective(a.value.seLinuxOptions, b.value.seLinuxOptions);
      WindowsOptionsInjective(a.value.windowsOptions, b.value.windowsOptions);
      SeccompProfileInjective(a.value.seccompProfile, b.value.seccompProfile);
    }
  }

  // ---- NodeSelector ----

  function NodeSelectorField(x: NodeSelector, i: nat): Value
  {
    LeafValue(Items(x.nodeSelectorTerms))
  }

  function EncodeNodeSelector(o: Option<NodeSelector>): Value
  {
    match o
    case None => Nil
    case Some(x) => Node(seq(1, i requires 0 <= i < 1 => NodeSelectorField(x, i)))
  }

  lemma NodeSelectorTyped(a: Option<NodeSelector>)
    ensures Typed(NodeSelectorType, EncodeNodeSelector(a))
  {}

  lemma NodeSelectorMerges(a: Option<NodeSelector>, b: Option<NodeSelector>)
    ensures EncodeNodeSelector(MergeNodeSelector(a, b)) ==
      MergeValues(NodeSelectorType, EncodeNodeSelector(a), EncodeNodeSelector(b))
  {}

  lemma NodeSelectorInjective(a: Option<NodeSelector>, b: Option<NodeSelector>)
    requires EncodeNodeSelector(a) == EncodeNodeSelector(b)
    ensures a == b
  {
    if a.Some? && b.Some? {
      var v, w := EncodeNodeSelector(a).fields, EncodeNodeSelector(b).fields;
      assert v[0] == w[0];
    }
  }

  // ---- NodeAffinity ----

  function NodeAffinityField(x: NodeAffinity, i: nat): Value
  {
    match i
    case 0 => EncodeNodeSelector(x.required)
    case _ => LeafValue(Items(x.preferred))
  }

  function EncodeNodeAffinity(o: Option<NodeAffinity>): Value
  {
    match o
    case None => Nil
    case Some(x) => Node(seq(2, i requires 0 <= i < 2 => NodeAffinityField(x, i)))
  }

  lemma NodeAffinityTyped(a: Option<NodeAffinity>)
    ensures Typed(NodeAffinityType, EncodeNodeAffinity(a))
  {
    hide EncodeNodeSelector;
    if a.Some? {
      NodeSelectorTyped(a.value.required);
    }
  }

  lemma NodeAffinityMerges(a: Option<NodeAffinity>, b: Option<NodeAffinity>)
    ensures EncodeNodeAffinity(MergeNodeAffinity(a, b)) ==
      MergeValues(NodeAffinityType, EncodeNodeAffinity(a), EncodeNodeAffinity(b))
  {
    hide MergeValues, EncodeNodeSelector, MergeNodeSelector;
    if a.Some? && b.Some? {
      NodeSelectorMerges(a.value.required, b.value.required);
    }
    RowsMerge(NodeAffinityType, EncodeNodeAffinity(a), EncodeNodeAffinity(b),
              EncodeNodeAffinity(MergeNodeAffinity(a, b)));
  }

  lemma NodeAffinityInjective(a: Option<NodeAffinity>, b: Option<NodeAffinity>)
    requires EncodeNodeAffinity(a) == EncodeNodeAffinity(b)
    ensures a == b
  {
    hide EncodeNodeSelector;
    if a.Some? && b.Some? {
      var v, w := EncodeNodeAffinity(a).fields, EncodeNodeAffinity(b).fields;
      assert v[0] == w[0] && v[1] == w[1];
      NodeSelectorInjective(a.value.required, b.value.required);
    }
  }

  // ---- PodAffinity ----

  function PodAffinityField(x: PodAffinity, i: nat): Value
  {
    match i
    case 0 => LeafValue(Items(x.required))
    case _ => LeafValue(Items(x.preferred))
  }

  function EncodePodAffinity(o: Option<PodAffinity>): Value
  {
    match o
    case None => Nil
    case Some(x) => Node(seq(2, i requires 0 <= i < 2 => PodAffinityField(x, i)))
  }

  lemma PodAffinityTyped(a: Option<PodAffinity>)
    ensures Typed(PodAffinityType, EncodePodAffinity(a))
  {}

  lemma PodAffinityMerges(a: Option<PodAffinity>, b: Option<PodAffinity>)
    ensures EncodePodAffinity(MergePodAffinity(a, b)) ==
      MergeValues(PodAffinityType, EncodePodAffinity(a), EncodePodAffinity(b))
  {}

  lemma PodAffinityInjective(a: Option<PodAffinity>, b: Option<PodAffinity>)
    requires EncodePodAffinity(a) == EncodePodAffinity(b)
    ensures a == b
  {
    if a.Some? && b.Some? {
      var v, w := EncodePodAffinity(a).fields, EncodePodAffinity(b).fields;
      assert v[0] == w[0] && v[1] == w[1];
    }
  }

  // ---- PodAntiAffinity ----

  function PodAntiAffinityField(x: PodAntiAffinity, i: nat): Value
  {
    match i
    case 0 => LeafValue(Items(x.required))
    case _ => LeafValue(Items(x.preferred))
  }

  function EncodePodAntiAffinity(o: Option<PodAntiAffinity>): Value
  {
    match o
    case None => Nil
    case Some(x) => Node(seq(2, i requires 0 <= i < 2 => PodAntiAffinityField(x, i)))
  }

  lemma PodAntiAffinityTyped(a: Option<PodAntiAffinity>)
    ensures Typed(PodAntiAffinityType, EncodePodAntiAffinity(a))
  {}

  lemma PodAntiAffinityMerges(a: Option<PodAntiAffinity>, b: Option<PodAntiAffinity>)
    ensures EncodePodAntiAffinity(MergePodAntiAffinity(a, b)) ==
      MergeValues(PodAntiAffinityType, EncodePodAntiAffinity(a), EncodePodAntiAffinity(b))
  {}

  lemma PodAntiAffinityInjective(a: Option<PodAntiAffinity>, b: Option<PodAntiAffinity>)
    requires EncodePodAntiAffinity(a) == EncodePodAntiAffinity(b)
    ensures a == b
  {
    if a.Some? && b.Some? {
      var v, w := EncodePodAntiAffinity(a).fields, EncodePodAntiAffinity(b).fields;
      assert v[0] == w[0] && v[1] == w[1];
    }
  }

  // ---- Affinity ----

  function AffinityField(x: Affinity, i: nat): Value
  {
    match i
    case 0 => EncodeNodeAffinity(x.nodeAffinity)
    case 1 => EncodePodAffinity(x.podAffinity)
    case _ => EncodePodAntiAffinity(x.podAntiAffinity)
  }

  function EncodeAffinity(o: Option<Affinity>): Value
  {
    match o
    case None => Nil
    case Some(x) => Node(seq(3, i requires 0 <= i < 3 => AffinityField(x, i)))
  }

  lemma AffinityTyped(a: Option<Affinity>)
    ensures Typed(AffinityType, EncodeAffinity(a))
  {
    hide EncodeNodeAffinity, EncodePodAffinity, EncodePodAntiAffinity;
    if a.Some? {
      NodeAffinityTyped(a.value.nodeAffinity);
      PodAffinityTyped(a.value.podAffinity);
      PodAntiAffinityTyped(a.value.podAntiAffinity);
    }
  }

  lemma AffinityMerges(a: Option<Affinity>, b: Option<Affinity>)
    ensures EncodeAffinity(MergeAffinity(a, b)) == MergeValues(AffinityType, EncodeAffinity(a), EncodeAffinity(b))
  {
    hide MergeValues, EncodeNodeAffinity, MergeNodeAffinity, EncodePodAffinity, MergePodAffinity,
         EncodePodAntiAffinity, MergePodAntiAffinity;
    if a.Some? && b.Some? {
      NodeAffinityMerges(a.value.nodeAffinity, b.value.nodeAffinity);
      PodAffinityMerges(a.value.podAffinity, b.value.podAffinity);
      PodAntiAffinityMerges(a.value.podAntiAffinity, b.value.podAntiAffinity);
    }
    RowsMerge(AffinityType, EncodeAffinity(a), EncodeAffinity(b), EncodeAffinity(MergeAffinity(a, b)));
  }

  lemma AffinityInjective(a: Option<Affinity>, b: Option<Affinity>)
    requires EncodeAffinity(a) == EncodeAffinity(b)
    ensures a == b
  {
    hide EncodeNodeAffinity, EncodePodAffinity, EncodePodAntiAffinity;
    if a.Some? && b.Some? {
      var v, w := EncodeAffinity(a).fields, EncodeAffinity(b).fields;
      assert v[0] == w[0] && v[1] == w[1] && v[2] == w[2];
      NodeAffinityInjective(a.value.nodeAffinity, b.value.nodeAffinity);
      PodAffinityInjective(a.value.podAffinity, b.value.podAffinity);
      PodAntiAffinityInjective(a.value.podAntiAffinity, b.value.podAntiAffinity);
    }
  }

  // ---- ExecAction ----

  function ExecActionField(x: ExecAction, i: nat): Value
  {
    LeafValue(Items(x.command))
  }

  function EncodeExecAction(o: Option<ExecAction>): Value
  {
    match o
    case None => Nil
    case Some(x) => Node(seq(1, i requires 0 <= i < 1 => ExecActionField(x, i)))
  }

  lemma ExecActionTyped(a: Option<ExecAction>)
    ensures Typed(ExecActionType, EncodeExecAction(a))
  {}

  lemma ExecActionMerges(a: Option<ExecAction>, b: Option<ExecAction>)
    ensures EncodeExecAction(MergeExecAction(a, b)) ==
      MergeValues(ExecActionType, EncodeExecAction(a), EncodeExecAction(b))
  {}

  lemma ExecActionInjective(a: Option<ExecAction>, b: Option<ExecAction>)
    requires EncodeExecAction(a) == EncodeExecAction(b)
    ensures a == b
  {
    if a.Some? && b.Some? {
      var v, w := EncodeExecAction(a).fields, EncodeExecAction(b).fields;
      assert v[0] == w[0];
    }
  }

  // ---- HTTPGetAction ----

  function HTTPGetActionField(x: HTTPGetAction, i: nat): Value
  {
    match i
    case 0 => LeafValue(PlainText(x.path))
    case 1 => LeafValue(PlainPort(x.port))
    case 2 => LeafValue(PlainText(x.host))
    case 3 => LeafValue(PlainText(x.scheme))
    case _ => LeafValue(Items(x.httpHeaders))
  }

  function EncodeHTTPGetAction(o: Option<HTTPGetAction>): Value
  {
    match o
    case None => Nil
    case Some(x) => Node(seq(5, i requires 0 <= i < 5 => HTTPGetActionField(x, i)))
  }

  lemma HTTPGetActionTyped(a: Option<HTTPGetAction>)
    ensures Typed(HTTPGetActionType, EncodeHTTPGetAction(a))
  {}

  lemma HTTPGetActionMerges(a: Option<HTTPGetAction>, b: Option<HTTPGetAction>)
    ensures EncodeHTTPGetAction(MergeHTTPGetAction(a, b)) ==
      MergeValues(HTTPGetActionType, EncodeHTTPGetAction(a), EncodeHTTPGetAction(b))
  {}

  lemma HTTPGetActionInjective(a: Option<HTTPGetAction>, b: Option<HTTPGetAction>)
    requires EncodeHTTPGetAction(a) == EncodeHTTPGetAction(b)
    ensures a == b
  {
    if a.Some? && b.Some? {
      var v, w := EncodeHTTPGetAction(a).fields, EncodeHTTPGetAction(b).fields;
      assert v[0] == w[0] && v[1] == w[1] && v[2] == w[2] && v[3] == w[3] && v[4] == w[4];
    }
  }

  // ---- TCPSocketAction ----

  function TCPSocketActionField(x: TCPSocketAction, i: nat): Value
  {
    match i
    case 0 => LeafValue(PlainPort(x.port))
    case _ => LeafValue(PlainText(x.host))
  }

  function EncodeTCPSocketAction(o: Option<TCPSocketAction>): Value
  {
    match o
    case None => Nil
    case Some(x) => Node(seq(2, i requires 0 <= i < 2 => TCPSocketActionField(x, i)))
  }

  lemma TCPSocketActionTyped(a: Option<TCPSocketAction>)
    ensures Typed(TCPSocketActionType, EncodeTCPSocketAction(a))
  {}

  lemma TCPSocketActionMerges(a: Option<TCPSocketAction>, b: Option<TCPSocketAction>)
    ensures EncodeTCPSocketAction(MergeTCPSocketAction(a, b)) ==
      MergeValues(TCPSocketActionType, EncodeTCPSocketAction(a), EncodeTCPSocketAction(b))
  {}

  lemma TCPSocketActionInjective(a: Option<TCPSocketAction>, b: Option<TCPSocketAction>)
    requires EncodeTCPSocketAction(a) == EncodeTCPSocketAction(b)
    ensures a == b
  {
    if a.Some? && b.Some? {
      var v, w := EncodeTCPSocketAction(a).fields, EncodeTCPSocketAction(b).fields;
      assert v[0] == w[0] && v[1] == w[1];
    }
  }

  // ---- GRPCAction ----

  function GRPCActionField(x: GRPCAction, i: nat): Value
  {
    match i
    case 0 => LeafValue(PlainNumber(x.port))
    case _ => LeafValue(Text(x.service))
  }

  function EncodeGRPCAction(o: Option<GRPCAction>): Value
  {
    match o
    case None => Nil
    case Some(x) => Node(seq(2, i requires 0 <= i < 2 => GRPCActionField(x, i)))
  }

  lemma GRPCActionTyped(a: Option<GRPCAction>)
    ensures Typed(GRPCActionType, EncodeGRPCAction(a))
  {}

  lemma GRPCActionMerges(a: Option<GRPCAction>, b: Option<GRPCAction>)
    ensures EncodeGRPCAction(MergeGRPCAction(a, b)) ==
      MergeValues(GRPCActionType, EncodeGRPCAction(a), EncodeGRPCAction(b))
  {}

  lemma GRPCActionInjective(a: Option<GRPCAction>, b: Option<GRPCAction>)
    requires EncodeGRPCAction(a) == EncodeGRPCAction(b)
    ensures a == b
  {
    if a.Some? && b.Some? {
      var v, w := EncodeGRPCAction(a).fields, EncodeGRPCAction(b).fields;
      assert v[0] == w[0] && v[1] == w[1];
    }
  }

  // ---- Probe ----

  function ProbeField(x: Probe, i: nat): Value
  {
    match i
    case 0 => EncodeExecAction(x.exec)
    case 1 => EncodeHTTPGetAction(x.httpGet)
    case 2 => EncodeTCPSocketAction(x.tcpSocket)
    case 3 => EncodeGRPCAction(x.grpc)
    case 4 => LeafValue(PlainNumber(x.initialDelaySeconds))
    case 5 => LeafValue(PlainNumber(x.timeoutSeconds))
    case 6 => LeafValue(PlainNumber(x.periodSeconds))
    case 7 => LeafValue(PlainNumber(x.successThreshold))
    case 8 => LeafValue(PlainNumber(x.failureThreshold))
    case _ => LeafValue(Number(x.terminationGracePeriodSeconds))
  }

  function EncodeProbe(o: Option<Probe>): Value
  {
    match o
    case None => Nil
    case Some(x) => Node(seq(10, i requires 0 <= i < 10 => ProbeField(x, i)))
  }

  lemma ProbeTyped(a: Option<Probe>)
    ensures Typed(ProbeType, EncodeProbe(a))
  {
    hide EncodeExecAction, EncodeHTTPGetAction, EncodeTCPSocketAction, EncodeGRPCAction;
    if a.Some? {
      ExecActionTyped(a.value.exec);
      HTTPGetActionTyped(a.value.httpGet);
      TCPSocketActionTyped(a.value.tcpSocket);
      GRPCActionTyped(a.value.grpc);
    }
  }

  lemma ProbeMerges(a: Option<Probe>, b: Option<Probe>)
    ensures EncodeProbe(MergeProbe(a, b)) == MergeValues(ProbeType, EncodeProbe(a), EncodeProbe(b))
  {
    hide MergeValues, EncodeExecAction, MergeExecAction, EncodeHTTPGetAction, MergeHTTPGetAction,
         EncodeTCPSocketAction, MergeTCPSocketAction, EncodeGRPCAction, MergeGRPCAction, Combine, LastSet, FirstSet,
         LastNonZero, UnionMaps, AppendLists, LastNonEmpty;
    LeafRules();
    if a.Some? && b.Some? {
      ExecActionMerges(a.value.exec, b.value.exec);
      HTTPGetActionMerges(a.value.httpGet, b.value.httpGet);
      TCPSocketActionMerges(a.value.tcpSocket, b.value.tcpSocket);
      GRPCActionMerges(a.value.grpc, b.value.grpc);
    }
    RowsMerge(ProbeType, EncodeProbe(a), EncodeProbe(b), EncodeProbe(MergeProbe(a, b)));
  }

  lemma ProbeInjective(a: Option<Probe>, b: Option<Probe>)
    requires EncodeProbe(a) == EncodeProbe(b)
    ensures a == b
  {
    hide EncodeExecAction, EncodeHTTPGetAction, EncodeTCPSocketAction, EncodeGRPCAction;
    if a.Some? && b.Some? {
      var v, w := EncodeProbe(a).fields, EncodeProbe(b).fields;
      assert v[0] == w[0] && v[1] == w[1] && v[2] == w[2] && v[3] == w[3] && v[4] == w[4] && v[5] == w[5] &&
             v[6] == w[6] && v[7] == w[7] && v[8] == w[8] && v[9] == w[9];
      ExecActionInjective(a.value.exec, b.value.exec);
      HTTPGetActionInjective(a.value.httpGet, b.value.httpGet);
      TCPSocketActionInjective(a.value.tcpSocket, b.value.tcpSocket);
      GRPCActionInjective(a.value.grpc, b.value.grpc);
    }
  }

  // ---- GracefulShutdownSpec ----

  function GracefulShutdownSpecField(x: GracefulShutdownSpec, i: nat): Value
  {
    match i
    case 0 => LeafValue(Flag(x.enabled))
    case _ => LeafValue(Number(x.sleepTimeSeconds))
  }

  function EncodeGracefulShutdownSpec(o: Option<GracefulShutdownSpec>): Value
  {
    match o
    case None => Nil
    case Some(x) => Node(seq(2, i requires 0 <= i < 2 => GracefulShutdownSpecField(x, i)))
  }

  lemma GracefulShutdownSpecTyped(a: Option<GracefulShutdownSpec>)
    ensures Typed(GracefulShutdownSpecType, EncodeGracefulShutdownSpec(a))
  {}

  lemma GracefulShutdownSpecMerges(a: Option<GracefulShutdownSpec>, b: Option<GracefulShutdownSpec>)
    ensures EncodeGracefulShutdownSpec(MergeGracefulShutdownSpec(a, b)) ==
      MergeValues(GracefulShutdownSpecType, EncodeGracefulShutdownSpec(a), EncodeGracefulShutdownSpec(b))
  {}

  lemma GracefulShutdownSpecInjective(a: Option<GracefulShutdownSpec>, b: Option<GracefulShutdownSpec>)
    requires EncodeGracefulShutdownSpec(a) == EncodeGracefulShutdownSpec(b)
    ensures a == b
  {
    if a.Some? && b.Some? {
      var v, w := EncodeGracefulShutdownSpec(a).fields, EncodeGracefulShutdownSpec(b).fields;
      assert v[0] == w[0] && v[1] == w[1];
    }
  }

  // ---- Pod ----

  function PodField(x: Pod, i: nat): Value
  {
    match i
    case 0 => LeafValue(Labels(x.extraLabels))
    case 1 => LeafValue(Labels(x.extraAnnotations))
    case 2 => EncodePodSecurityContext(x.securityContext)
    case 3 => LeafValue(Items(x.imagePullSecrets))
    case 4 => LeafValue(Labels(x.nodeSelector))
    case 5 => EncodeAffinity(x.affinity)
    case 6 => LeafValue(Items(x.tolerations))
    case 7 => EncodeGracefulShutdownSpec(x.gracefulShutdown)
    case 8 => LeafValue(Number(x.terminationGracePeriodSeconds))
    case 9 => EncodeProbe(x.readinessProbe)
    case _ => EncodeProbe(x.livenessProbe)
  }

  function EncodePod(o: Option<Pod>): Value
  {
    match o
    case None => Nil
    case Some(x) => Node(seq(11, i requires 0 <= i < 11 => PodField(x, i)))
  }

  lemma PodTyped(a: Option<Pod>)
    ensures Typed(PodType, EncodePod(a))
  {
    hide EncodePodSecurityContext, EncodeAffinity, EncodeGracefulShutdownSpec, EncodeProbe;
    if a.Some? {
      PodSecurityContextTyped(a.value.securityContext);
      AffinityTyped(a.value.affinity);
      GracefulShutdownSpecTyped(a.value.gracefulShutdown);
      ProbeTyped(a.value.readinessProbe);
      ProbeTyped(a.value.livenessProbe);
    }
  }

  lemma PodMerges(a: Option<Pod>, b: Option<Pod>)
    ensures EncodePod(MergePod(a, b)) == MergeValues(PodType, EncodePod(a), EncodePod(b))
  {
    hide MergeValues, EncodePodSecurityContext, MergePodSecurityContext, EncodeAffinity, MergeAffinity,
         EncodeGracefulShutdownSpec, MergeGracefulShutdownSpec, EncodeProbe, MergeProbe, Combine, LastSet, FirstSet,
         LastNonZero, UnionMaps, AppendLists, LastNonEmpty;
    LeafRules();
    if a.Some? && b.Some? {
      PodSecurityContextMerges(a.value.securityContext, b.value.securityContext);
      AffinityMerges(a.value.affinity, b.value.affinity);
      GracefulShutdownSpecMerges(a.value.gracefulShutdown, b.value.gracefulShutdown);
      ProbeMerges(a.value.readinessProbe, b.value.readinessProbe);
      ProbeMerges(a.value.livenessProbe, b.value.livenessProbe);
    }
    RowsMerge(PodType, EncodePod(a), EncodePod(b), EncodePod(MergePod(a, b)));
  }

  lemma PodInjective(a: Option<Pod>, b: Option<Pod>)
    requires EncodePod(a) == EncodePod(b)
    ensures a == b
  {
    hide EncodePodSecurityContext, EncodeAffinity, EncodeGracefulShutdownSpec, EncodeProbe;
    if a.Some? && b.Some? {
      var v, w := EncodePod(a).fields, EncodePod(b).fields;
      assert v[0] == w[0] && v[1] == w[1] && v[2] == w[2] && v[3] == w[3] && v[4] == w[4] && v[5] == w[5] &&
             v[6] == w[6] && v[7] == w[7] && v[8] == w[8] && v[9] == w[9] && v[10] == w[10];
      PodSecurityContextInjective(a.value.securityContext, b.value.securityContext);
      AffinityInjective(a.value.affinity, b.value.affinity);
      GracefulShutdownSpecInjective(a.value.gracefulShutdown, b.value.gracefulShutdown);
      ProbeInjective(a.value.readinessProbe, b.value.readinessProbe);
      ProbeInjective(a.value.livenessProbe, b.value.livenessProbe);
    }
  }

  // ---- Service ----

  function ServiceField(x: Service, i: nat): Value
  {
    match i
    case 0 => LeafValue(Text(x.serviceType))
    case 1 => LeafValue(Text(x.clusterIP))
    case 2 => LeafValue(Labels(x.extraLabels))
    case _ => LeafValue(Labels(x.extraAnnotations))
  }

  function EncodeService(o: Option<Service>): Value
  {
    match o
    case None => Nil
    case Some(x) => Node(seq(4, i requires 0 <= i < 4 => ServiceField(x, i)))
  }

  lemma ServiceTyped(a: Option<Service>)
    ensures Typed(ServiceType, EncodeService(a))
  {}

  lemma ServiceMerges(a: Option<Service>, b: Option<Service>)
    ensures EncodeService(MergeService(a, b)) == MergeValues(ServiceType, EncodeService(a), EncodeService(b))
  {}

  lemma ServiceInjective(a: Option<Service>, b: Option<Service>)
    requires EncodeService(a) == EncodeService(b)
    ensures a == b
  {
    if a.Some? && b.Some? {
      var v, w := EncodeService(a).fields, EncodeService(b).fields;
      assert v[0] == w[0] && v[1] == w[1] && v[2] == w[2] && v[3] == w[3];
    }
  }

  // ---- ServiceAccount ----

  function ServiceAccountField(x: ServiceAccount, i: nat): Value
  {
    match i
    case 0 => LeafValue(Labels(x.extraLabels))
    case _ => LeafValue(Labels(x.extraAnnotations))
  }

  function EncodeServiceAccount(o: Option<ServiceAccount>): Value
  {
    match o
    case None => Nil
    case Some(x) => Node(seq(2, i requires 0 <= i < 2 => ServiceAccountField(x, i)))
  }

  lemma ServiceAccountTyped(a: Option<ServiceAccount>)
    ensures Typed(ServiceAccountType, EncodeServiceAccount(a))
  {}

  lemma ServiceAccountMerges(a: Option<ServiceAccount>, b: Option<ServiceAccount>)
    ensures EncodeServiceAccount(MergeServiceAccount(a, b)) ==
      MergeValues(ServiceAccountType, EncodeServiceAccount(a), EncodeServiceAccount(b))
  {}

  lemma ServiceAccountInjective(a: Option<ServiceAccount>, b: Option<ServiceAccount>)
    requires EncodeServiceAccount(a) == EncodeServiceAccount(b)
    ensures a == b
  {
    if a.Some? && b.Some? {
      var v, w := EncodeServiceAccount(a).fields, EncodeServiceAccount(b).fields;
      assert v[0] == w[0] && v[1] == w[1];
    }
  }

  // ---- IstioContainer ----

  function IstioContainerField(x: IstioContainer, i: nat): Value
  {
    match i
    case 0 => EncodeImage(x.image)
    case 1 => EncodeSecurityContext(x.securityContext)
    case 2 => EncodeResourceRequirements(x.resources)
    case 3 => LeafValue(Text(x.logLevel))
    case 4 => LeafValue(Text(x.istioDiscoveryAddress))
    case 5 => LeafValue(Text(x.istioMetaMeshId))
    case _ => LeafValue(Text(x.istioMetaClusterId))
  }

  function EncodeIstioContainer(o: Option<IstioContainer>): Value
  {
    match o
    case None => Nil
    case Some(x) => Node(seq(7, i requires 0 <= i < 7 => IstioContainerField(x, i)))
  }

  lemma IstioContainerTyped(a: Option<IstioContainer>)
    ensures Typed(IstioContainerType, EncodeIstioContainer(a))
  {
    hide EncodeImage, EncodeSecurityContext, EncodeResourceRequirements;
    if a.Some? {
      ImageTyped(a.value.image);
      SecurityContextTyped(a.value.securityContext);
      ResourceRequirementsTyped(a.value.resources);
    }
  }

  lemma IstioContainerMerges(a: Option<IstioContainer>, b: Option<IstioContainer>)
    ensures EncodeIstioContainer(MergeIstioContainer(a, b)) ==
      MergeValues(IstioContainerType, EncodeIstioContainer(a), EncodeIstioContainer(b))
  {
    hide MergeValues, EncodeImage, MergeImage, EncodeSecurityContext, MergeSecurityContext,
         EncodeResourceRequirements, MergeResourceRequirements, Combine, LastSet, FirstSet, LastNonZero, UnionMaps,
         AppendLists, LastNonEmpty;
    LeafRules();
    if a.Some? && b.Some? {
      ImageMerges(a.value.image, b.value.image);
      SecurityContextMerges(a.value.securityContext, b.value.securityContext);
      ResourceRequirementsMerges(a.value.resources, b.value.resources);
    }
    RowsMerge(IstioContainerType, EncodeIstioContainer(a), EncodeIstioContainer(b),
              EncodeIstioContainer(MergeIstioContainer(a, b)));
  }

  lemma IstioContainerInjective(a: Option<IstioContainer>, b: Option<IstioContainer>)
    requires EncodeIstioContainer(a) == EncodeIstioContainer(b)
    ensures a == b
  {
    hide EncodeImage, EncodeSecurityContext, EncodeResourceRequirements;
    if a.Some? && b.Some? {
      var v, w := EncodeIstioContainer(a).fields, EncodeIstioContainer(b).fields;
      assert v[0] == w[0] && v[1] == w[1] && v[2] == w[2] && v[3] == w[3] && v[4] == w[4] && v[5] == w[5] &&
             v[6] == w[6];
      ImageInjective(a.value.image, b.value.image);
      SecurityContextInjective(a.value.securityContext, b.value.securityContext);
      ResourceRequirementsInjective(a.value.resources, b.value.resources);
    }
  }

  // ---- IstioIntegration ----

  function IstioIntegrationField(x: IstioIntegration, i: nat): Value
  {
    match i
    case 0 => EncodeIstioContainer(x.istioProxyContainer)
    case _ => LeafValue(Items(x.customSidecars))
  }

  function EncodeIstioIntegration(o: Option<IstioIntegration>): Value
  {
    match o
    case None => Nil
    case Some(x) => Node(seq(2, i requires 0 <= i < 2 => IstioIntegrationField(x, i)))
  }

  lemma IstioIntegrationTyped(a: Option<IstioIntegration>)
    ensures Typed(IstioIntegrationType, EncodeIstioIntegration(a))
  {
    hide EncodeIstioContainer;
    if a.Some? {
      IstioContainerTyped(a.value.istioProxyContainer);
    }
  }

  lemma IstioIntegrationMerges(a: Option<IstioIntegration>, b: Option<IstioIntegration>)
    ensures EncodeIstioIntegration(MergeIstioIntegration(a, b)) ==
      MergeValues(IstioIntegrationType, EncodeIstioIntegration(a), EncodeIstioIntegration(b))
  {
    hide MergeValues, EncodeIstioContainer, MergeIstioContainer;
    if a.Some? && b.Some? {
      IstioContainerMerges(a.value.istioProxyContainer, b.value.istioProxyContainer);
    }
    RowsMerge(IstioIntegrationType, EncodeIstioIntegration(a), EncodeIstioIntegration(b),
              EncodeIstioIntegration(MergeIstioIntegration(a, b)));
  }

  lemma IstioIntegrationInjective(a: Option<IstioIntegration>, b: Option<IstioIntegration>)
    requires EncodeIstioIntegration(a) == EncodeIstioIntegration(b)
    ensures a == b
  {
    hide EncodeIstioContainer;
    if a.Some? && b.Some? {
      var v, w := EncodeIstioIntegration(a).fields, EncodeIstioIntegration(b).fields;
      assert v[0] == w[0] && v[1] == w[1];
      IstioContainerInjective(a.value.istioProxyContainer, b.value.istioProxyContainer);
    }
  }

  // ---- StatsConfig ----

  function StatsConfigField(x: StatsConfig, i: nat): Value
  {
    match i
    case 0 => LeafValue(Flag(x.enabled))
    case 1 => LeafValue(Text(x.routePrefixRewrite))
    case 2 => LeafValue(Flag(x.enableStatsRoute))
    case _ => LeafValue(Text(x.statsRoutePrefixRewrite))
  }

  function EncodeStatsConfig(o: Option<StatsConfig>): Value
  {
    match o
    case None => Nil
    case Some(x) => Node(seq(4, i requires 0 <= i < 4 => StatsConfigField(x, i)))
  }

  lemma StatsConfigTyped(a: Option<StatsConfig>)
    ensures Typed(StatsConfigType, EncodeStatsConfig(a))
  {}

  lemma StatsConfigMerges(a: Option<StatsConfig>, b: Option<StatsConfig>)
    ensures EncodeStatsConfig(MergeStatsConfig(a, b)) ==
      MergeValues(StatsConfigType, EncodeStatsConfig(a), EncodeStatsConfig(b))
  {}

  lemma StatsConfigInjective(a: Option<StatsConfig>, b: Option<StatsConfig>)
    requires EncodeStatsConfig(a) == EncodeStatsConfig(b)
    ensures a == b
  {
    if a.Some? && b.Some? {
      var v, w := EncodeStatsConfig(a).fields, EncodeStatsConfig(b).fields;
      assert v[0] == w[0] && v[1] == w[1] && v[2] == w[2] && v[3] == w[3];
    }
  }

  // ---- AiExtensionStats ----

  function AiExtensionStatsField(x: AiExtensionStats, i: nat): Value
  {
    LeafValue(CustomLabels(x.customLabels))
  }

  function EncodeAiExtensionStats(o: Option<AiExtensionStats>): Value
  {
    match o
    case None => Nil
    case Some(x) => Node(seq(1, i requires 0 <= i < 1 => AiExtensionStatsField(x, i)))
  }

  lemma AiExtensionStatsTyped(a: Option<AiExtensionStats>)
    ensures Typed(AiExtensionStatsType, EncodeAiExtensionStats(a))
  {}

  lemma AiExtensionStatsMerges(a: Option<AiExtensionStats>, b: Option<AiExtensionStats>)
    ensures EncodeAiExtensionStats(MergeAiExtensionStats(a, b)) ==
      MergeValues(AiExtensionStatsType, EncodeAiExtensionStats(a), EncodeAiExtensionStats(b))
  {}

  lemma AiExtensionStatsInjective(a: Option<AiExtensionStats>, b: Option<AiExtensionStats>)
    requires EncodeAiExtensionStats(a) == EncodeAiExtensionStats(b)
    ensures a == b
  {
    if a.Some? && b.Some? {
      var v, w := EncodeAiExtensionStats(a).fields, EncodeAiExtensionStats(b).fields;
      assert v[0] == w[0];
    }
  }

  // ---- AiExtension ----

  function AiExtensionField(x: AiExtension, i: nat): Value
  {
    match i
    case 0 => LeafValue(Flag(x.enabled))
    case 1 => EncodeImage(x.image)
    case 2 => EncodeSecurityContext(x.securityContext)
    case 3 => EncodeResourceRequirements(x.resources)
    case 4 => LeafValue(Items(x.env))
    case 5 => LeafValue(Items(x.ports))
    case _ => EncodeAiExtensionStats(x.stats)
  }

  function EncodeAiExtension(o: Option<AiExtension>): Value
  {
    match o
    case None => Nil
    case Some(x) => Node(seq(7, i requires 0 <= i < 7 => AiExtensionField(x, i)))
  }

  lemma AiExtensionTyped(a: Option<AiExtension>)
    ensures Typed(AiExtensionType, EncodeAiExtension(a))
  {
    hide EncodeImage, EncodeSecurityContext, EncodeResourceRequirements, EncodeAiExtensionStats;
    if a.Some? {
      ImageTyped(a.value.image);
      SecurityContextTyped(a.value.securityContext);
      ResourceRequirementsTyped(a.value.resources);
      AiExtensionStatsTyped(a.value.stats);
    }
  }

  lemma AiExtensionMerges(a: Option<AiExtension>, b: Option<AiExtension>)
    ensures EncodeAiExtension(MergeAiExtension(a, b)) ==
      MergeValues(AiExtensionType, EncodeAiExtension(a), EncodeAiExtension(b))
  {
    hide MergeValues, EncodeImage, MergeImage, EncodeSecurityContext, MergeSecurityContext,
         EncodeResourceRequirements, MergeResourceRequirements, EncodeAiExtensionStats, MergeAiExtensionStats,
         Combine, LastSet, FirstSet, LastNonZero, UnionMaps, AppendLists, LastNonEmpty;
    LeafRules();
    if a.Some? && b.Some? {
      ImageMerges(a.value.image, b.value.image);
      SecurityContextMerges(a.value.securityContext, b.value.securityContext);
      ResourceRequirementsMerges(a.value.resources, b.value.resources);
      AiExtensionStatsMerges(a.value.stats, b.value.stats);
    }
    RowsMerge(AiExtensionType, EncodeAiExtension(a), EncodeAiExtension(b),
              EncodeAiExtension(MergeAiExtension(a, b)));
  }

  lemma AiExtensionInjective(a: Option<AiExtension>, b: Option<AiExtension>)
    requires EncodeAiExtension(a) == EncodeAiExtension(b)
    ensures a == b
  {
    hide EncodeImage, EncodeSecurityContext, EncodeResourceRequirements, EncodeAiExtensionStats;
    if a.Some? && b.Some? {
      var v, w := EncodeAiExtension(a).fields, EncodeAiExtension(b).fields;
      assert v[0] == w[0] && v[1] == w[1] && v[2] == w[2] && v[3] == w[3] && v[4] == w[4] && v[5] == w[5] &&
             v[6] == w[6];
      ImageInjective(a.value.image, b.value.image);
      SecurityContextInjective(a.value.securityContext, b.value.securityContext);
      ResourceRequirementsInjective(a.value.resources, b.value.resources);
      AiExtensionStatsInjective(a.value.stats, b.value.stats);
    }
  }

  // ---- KubernetesProxyConfig ----

  function KubernetesProxyConfigField(x: KubernetesProxyConfig, i: nat): Value
  {
    match i
    case 0 => EncodeProxyDeployment(x.deployment)
    case 1 => EncodeEnvoyContainer(x.envoyContainer)
    case 2 => EncodeSdsContainer(x.sdsContainer)
    case 3 => EncodePod(x.podTemplate)
    case 4 => EncodeService(x.service)
    case 5 => EncodeServiceAccount(x.serviceAccount)
    case 6 => EncodeIstioIntegration(x.istio)
    case 7 => EncodeStatsConfig(x.stats)
    case 8 => EncodeAiExtension(x.aiExtension)
    case _ => LeafValue(Flag(x.floatingUserId))
  }

  function EncodeKubernetesProxyConfig(o: Option<KubernetesProxyConfig>): Value
  {
    match o
    case None => Nil
    case Some(x) => Node(seq(10, i requires 0 <= i < 10 => KubernetesProxyConfigField(x, i)))
  }

  lemma KubernetesProxyConfigTyped(a: Option<KubernetesProxyConfig>)
    ensures Typed(KubernetesProxyConfigType, EncodeKubernetesProxyConfig(a))
  {
    hide EncodeProxyDeployment, EncodeEnvoyContainer, EncodeSdsContainer, EncodePod, EncodeService,
         EncodeServiceAccount, EncodeIstioIntegration, EncodeStatsConfig, EncodeAiExtension;
    if a.Some? {
      ProxyDeploymentTyped(a.value.deployment);
      EnvoyContainerTyped(a.value.envoyContainer);
      SdsContainerTyped(a.value.sdsContainer);
      PodTyped(a.value.podTemplate);
      ServiceTyped(a.value.service);
      ServiceAccountTyped(a.value.serviceAccount);
      IstioIntegrationTyped(a.value.istio);
      StatsConfigTyped(a.value.stats);
      AiExtensionTyped(a.value.aiExtension);
    }
  }

  lemma KubernetesProxyConfigMerges(a: Option<KubernetesProxyConfig>, b: Option<KubernetesProxyConfig>)
    ensures EncodeKubernetesProxyConfig(MergeKubernetesProxyConfig(a, b)) ==
      MergeValues(KubernetesProxyConfigType, EncodeKubernetesProxyConfig(a), EncodeKubernetesProxyConfig(b))
  {
    hide MergeValues, EncodeProxyDeployment, MergeProxyDeployment, EncodeEnvoyContainer, MergeEnvoyContainer,
         EncodeSdsContainer, MergeSdsContainer, EncodePod, MergePod, EncodeService, MergeService,
         EncodeServiceAccount, MergeServiceAccount, EncodeIstioIntegration, MergeIstioIntegration,
         EncodeStatsConfig, MergeStatsConfig, EncodeAiExtension, MergeAiExtension, Combine, LastSet, FirstSet,
         LastNonZero, UnionMaps, AppendLists, LastNonEmpty;
    LeafRules();
    if a.Some? && b.Some? {
      ProxyDeploymentMerges(a.value.deployment, b.value.deployment);
      EnvoyContainerMerges(a.value.envoyContainer, b.value.envoyContainer);
      SdsContainerMerges(a.value.sdsContainer, b.value.sdsContainer);
      PodMerges(a.value.podTemplate, b.value.podTemplate);
      ServiceMerges(a.value.service, b.value.service);
      ServiceAccountMerges(a.value.serviceAccount, b.value.serviceAccount);
      IstioIntegrationMerges(a.value.istio, b.value.istio);
      StatsConfigMerges(a.value.stats, b.value.stats);
      AiExtensionMerges(a.value.aiExtension, b.value.aiExtension);
    }
    RowsMerge(KubernetesProxyConfigType, EncodeKubernetesProxyConfig(a), EncodeKubernetesProxyConfig(b),
              EncodeKubernetesProxyConfig(MergeKubernetesProxyConfig(a, b)));
  }

  lemma KubernetesProxyConfigInjective(a: Option<KubernetesProxyConfig>, b: Option<KubernetesProxyConfig>)
    requires EncodeKubernetesProxyConfig(a) == EncodeKubernetesProxyConfig(b)
    ensures a == b
  {
    hide EncodeProxyDeployment, EncodeEnvoyContainer, EncodeSdsContainer, EncodePod, EncodeService,
         EncodeServiceAccount, EncodeIstioIntegration, EncodeStatsConfig, EncodeAiExtension;
    if a.Some? && b.Some? {
      var v, w := EncodeKubernetesProxyConfig(a).fields, EncodeKubernetesProxyConfig(b).fields;
      assert v[0] == w[0] && v[1] == w[1] && v[2] == w[2] && v[3] == w[3] && v[4] == w[4] && v[5] == w[5] &&
             v[6] == w[6] && v[7] == w[7] && v[8] == w[8] && v[9] == w[9];
      ProxyDeploymentInjective(a.value.deployment, b.value.deployment);
      EnvoyContainerInjective(a.value.envoyContainer, b.value.envoyContainer);
      SdsContainerInjective(a.value.sdsContainer, b.value.sdsContainer);
      PodInjective(a.value.podTemplate, b.value.podTemplate);
      ServiceInjective(a.value.service, b.value.service);
      ServiceAccountInjective(a.value.serviceAccount, b.value.serviceAccount);
      IstioIntegrationInjective(a.value.istio, b.value.istio);
      StatsConfigInjective(a.value.stats, b.value.stats);
      AiExtensionInjective(a.value.aiExtension, b.value.aiExtension);
    }
  }
}
