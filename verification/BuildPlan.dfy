/** The plan builder: turns a validated cluster spec into a chain of provisioning steps. */
module BuildPlan {
  import opened Common
  import opened Plan
  import Kubeconfig
  import RunPlan
  import SortTies
  import TopologicalSort

  datatype Cni = KindnetDefault | Flannel | Calico | Cilium
  datatype IngressController = CiliumIngress | Nginx | Traefik

  datatype CiliumOptions = CiliumOptions(
    apiGateway: bool, hubble: bool, ingress: bool, mesh: bool, clusterId: nat, clusterName: string)

  /** The parts of a cluster spec the builder reads; `kindYaml` is the rendered kind config. */
  datatype ClusterSpec = ClusterSpec(
    name: string, cni: Cni, ingress: Option<IngressController>, podCidr: string,
    cilium: Option<CiliumOptions>, kindYaml: string)

  datatype CreatePlan = CreatePlan(steps: seq<ProvisionStep>, dataDir: string, kubeconfigPath: string)

  const DEFAULT_CILIUM_OPTIONS := CiliumOptions(false, false, true, false, 0, "")
  const FLANNEL_DEFAULT_NETWORK := "10.244.0.0/16"

  /** A step, named by its position in the one order all plans follow. */
  type StepName = n: nat | n < 21

  const WRITE_KIND_CONFIG: StepName := 0
  const CREATE_KIND: StepName := 1
  const MERGE_KUBECONFIG: StepName := 2
  const FLANNEL_DOWNLOAD: StepName := 3
  const FLANNEL_PATCH: StepName := 4
  const FLANNEL_APPLY: StepName := 5
  const CALICO_OPERATOR_DOWNLOAD: StepName := 6
  const CALICO_OPERATOR_APPLY: StepName := 7
  const CALICO_OPERATOR_WAIT_CRDS: StepName := 8
  const CALICO_CR_WRITE: StepName := 9
  const CALICO_CR_APPLY: StepName := 10
  const GATEWAY_CRDS_DOWNLOAD: StepName := 11
  const GATEWAY_CRDS_APPLY: StepName := 12
  const INSTALL_CILIUM: StepName := 13
  const HUBBLE_ENABLE: StepName := 14
  const CLUSTERMESH_ENABLE: StepName := 15
  const INGRESS_NGINX_DOWNLOAD: StepName := 16
  const INGRESS_NGINX_APPLY: StepName := 17
  const TRAEFIK_REPO_ADD: StepName := 18
  const TRAEFIK_INSTALL: StepName := 19
  const FINAL_VERIFY: StepName := 20

  function EarlyIds(): (ids: seq<StepId>)
    ensures |ids| == 11
  {
    ["write-kind-config", "kind-create", "merge-kubeconfig",
     "cni-flannel-download", "cni-flannel-patch", "cni-flannel-apply",
     "cni-calico-operator-download", "cni-calico-operator-apply", "cni-calico-operator-wait-crds",
     "cni-calico-cr-write", "cni-calico-cr-apply"]
  }

  function LateIds(): (ids: seq<StepId>)
    ensures |ids| == 10
  {
    ["cilium-gateway-crds-download", "cilium-gateway-crds-apply", "cni-cilium-install",
     "cilium-hubble-enable", "cilium-clustermesh-enable",
     "ingress-nginx-download", "ingress-nginx-apply", "traefik-repo-add", "traefik-install",
     "final-verify"]
  }

  function AllIds(): (ids: seq<StepId>)
    ensures |ids| == 21
  {
    EarlyIds() + LateIds()
  }

  lemma EarlyIdsDistinct()
    ensures NoDup(EarlyIds())
  {
    var ids := EarlyIds();
    assert ids[0][0] == 'w' && ids[4][0] == 'c' && ids[5][0] == 'c' && ids[4][12] == 'p' && ids[5][12] == 'a';
    assert ids[9][14] == 'w' && ids[10][14] == 'a';
  }

  lemma LateIdsDistinct()
    ensures NoDup(LateIds())
  {
    var ids := LateIds();
    assert ids[1][7] == 'g' && ids[4][7] == 'c';
  }

  lemma IdsApart(i: nat, j: nat)
    requires i < 11 && j < 10
    ensures EarlyIds()[i] != LateIds()[j]
  {
    var a, b := EarlyIds(), LateIds();
    assert a[2][0] == 'm' && b[7][0] == 't';
    assert a[3][1] == 'n' && b[3][1] == 'i' && a[6][1] == 'n' && b[0][1] == 'i';
    assert a[7][1] == 'n' && b[1][1] == 'i' && b[4][1] == 'i';
    assert a[9][0] == 'c' && a[10][0] == 'c' && b[6][0] == 'i';
  }

  lemma IdsDistinct()
    ensures NoDup(AllIds())
  {
    EarlyIdsDistinct();
    LateIdsDistinct();
    forall i, j | 0 <= i < j < 21 ensures AllIds()[i] != AllIds()[j] {
      if i < 11 <= j { IdsApart(i, j - 11); }
    }
  }

  /** A step while the plan is being built: it refers to other steps by name. */
  datatype Draft = Draft(name: StepName, action: Action, dependsOn: seq<StepName>, verify: VerifySpec) {
    function Finish(): ProvisionStep {
      ProvisionStep(AllIds()[name], action, NameIds(dependsOn), verify)
    }
  }

  function NameIds(names: seq<StepName>): (ids: seq<StepId>)
    ensures |ids| == |names|
    ensures forall i :: 0 <= i < |names| ==> ids[i] == AllIds()[names[i]]
  {
    seq(|names|, i requires 0 <= i < |names| => AllIds()[names[i]])
  }

  function Finish(drafts: seq<Draft>): (steps: seq<ProvisionStep>)
    ensures |steps| == |drafts|
    ensures forall i :: 0 <= i < |drafts| ==> steps[i] == drafts[i].Finish()
  {
    seq(|drafts|, i requires 0 <= i < |drafts| => drafts[i].Finish())
  }

  /** The file an action writes, if any. */
  function Produces(action: Action): Option<PlanPath> {
    match action
    case Download(_, dest) => Some(dest)
    case WriteFile(path, _) => Some(path)
    case PatchFlannel(_, patched, _) => Some(patched)
    case _ => None
  }

  /** The plan file an action reads, if any. */
  function Consumes(action: Action): Option<PlanPath> {
    match action
    case Command(KindCreate(configPath, _)) => Some(configPath)
    case Command(KubectlApply(_, manifestPath, _)) => Some(manifestPath)
    case PatchFlannel(source, _, _) => Some(source)
    case _ => None
  }

  function Context(name: string): string { "kind-" + name }

  /** Cilium with no explicit options resolves to the defaults. */
  function EffectiveCilium(spec: ClusterSpec): Option<CiliumOptions> {
    if spec.cni.Cilium? && spec.cilium.None? then Some(DEFAULT_CILIUM_OPTIONS) else spec.cilium
  }

  /** Everything a build is given. */
  datatype Inputs = Inputs(spec: ClusterSpec, dataDir: string, kubeconfigPath: string, ciliumVersion: Option<string>)
  {
    function File(file: PlanFile): PlanPath {
      PlanPath(dataDir, file, spec.name)
    }
  }

  /** The install passes exactly the helm values the options ask for. */
  ghost predicate SetsMatch(sets: seq<HelmSet>, options: CiliumOptions) {
    NoDup(sets) && forall s :: s in sets <==>
      match s
      case KubeProxyReplacement => true
      case IngressControllerEnabled => options.ingress
      case GatewayApiEnabled => options.apiGateway
      case MeshNodePort => options.mesh
      case MeshClusterName(name) => options.mesh && name == options.clusterName
      case MeshClusterId(id) => options.mesh && id == options.clusterId
  }

  ghost predicate AppliesThen(step: Draft, context: string, serverSide: bool, verify: VerifySpec) {
    && step.action.Command? && step.action.command.KubectlApply?
    && step.action.command.context == context && step.action.command.serverSide == serverSide
    && step.verify == verify
  }

  ghost predicate Fetches(step: Draft, manifest: Manifest, dest: PlanPath) {
    step.action == Download(manifest, dest) && step.verify.NoVerify?
  }

  /** What the step of each name has to do; the files it reads and writes are governed by `Follows`. */
  ghost predicate DoesItsJob(in_: Inputs, step: Draft) {
    var spec, context, action := in_.spec, Context(in_.spec.name), step.action;
    match step.name
    case 0 => action == WriteFile(in_.File(KindConfig), KindYaml(spec.kindYaml))
    case 1 => action.Command? && action.command.KindCreate? && action.command.wait
    case 2 => action == ExportAndMergeKubeconfig(spec.name, in_.kubeconfigPath)
    case 3 => Fetches(step, FlannelManifest, in_.File(FlannelYaml))
    case 4 => action == PatchFlannel(in_.File(FlannelYaml), in_.File(FlannelPatchedYaml), spec.podCidr)
    case 5 => AppliesThen(step, context, false, VerifyCommand(WaitNodesReady(context)))
    case 6 => Fetches(step, TigeraOperator, in_.File(OperatorYaml))
    case 7 => AppliesThen(step, context, false, NoVerify)
    case 8 => action == WaitForInstallationCrd(context, 300)
    case 9 => action == WriteFile(in_.File(CalicoCrYaml), CalicoInstallation(spec.podCidr))
    case 10 => AppliesThen(step, context, false, VerifyCommand(WaitNodesReady(context)))
    case 11 => Fetches(step, GatewayApiCrds, in_.File(GatewayCrdsYaml))
    case 12 => AppliesThen(step, context, true, NoVerify)
    case 13 => InstallsCilium(in_, step)
    case 14 => action == Command(CiliumHubbleEnable(context, true, true))
    case 15 => action == Command(CiliumClustermeshEnable(context))
    case 16 => Fetches(step, IngressNginxDeploy, in_.File(NginxYaml))
    case 17 => AppliesThen(step, context, false, VerifyCommand(WaitIngressNginxAvailable(context)))
    case 18 => action == Command(HelmRepoAddTraefik)
    case 19 => action == Command(HelmInstallTraefik(context))
    case _ => action == Command(if spec.cni.Cilium? then CiliumStatus(context, true) else WaitNodesReady(context))
  }

  ghost predicate InstallsCilium(in_: Inputs, step: Draft) {
    var context := Context(in_.spec.name);
    && step.action.Command? && step.action.command.CiliumInstall?
    && step.action.command.context == context && step.action.command.version == in_.ciliumVersion && step.action.command.wait
    && EffectiveCilium(in_.spec).Some? && SetsMatch(step.action.command.sets, EffectiveCilium(in_.spec).value)
    && step.verify == VerifyCommand(CiliumStatus(context, true))
  }

  /** A step depends on exactly the step before it and reads nothing but the file that step wrote. */
  ghost predicate Follows(last: Option<Draft>, step: Draft) {
    match last
    case None => step.dependsOn == [] && Consumes(step.action).None?
    case Some(before) =>
      && step.dependsOn == [before.name]
      && before.name < step.name
      && (Consumes(step.action).Some? ==> Produces(before.action) == Consumes(step.action))
  }

  function Last(drafts: seq<Draft>, i: nat): Option<Draft>
    requires i <= |drafts|
  {
    if i == 0 then None else Some(drafts[i - 1])
  }

  ghost predicate Linked(drafts: seq<Draft>) {
    forall i :: 0 <= i < |drafts| ==> Follows(Last(drafts, i), drafts[i])
  }

  ghost predicate AllDoTheirJobs(in_: Inputs, drafts: seq<Draft>) {
    forall i :: 0 <= i < |drafts| ==> DoesItsJob(in_, drafts[i])
  }

  /** A chain of steps, each doing what its name says. */
  ghost predicate Built(in_: Inputs, drafts: seq<Draft>) {
    Linked(drafts) && AllDoTheirJobs(in_, drafts)
  }

  ghost predicate Named(drafts: seq<Draft>, names: seq<StepName>) {
    |drafts| == |names| && forall i :: 0 <= i < |drafts| ==> drafts[i].name == names[i]
  }

  lemma AppendKeepsLinked(drafts: seq<Draft>, step: Draft)
    requires Linked(drafts) && Follows(Last(drafts, |drafts|), step)
    ensures Linked(drafts + [step])
  {
    var all := drafts + [step];
    forall i | 0 <= i < |all| ensures Follows(Last(all, i), all[i]) {
      LastOfAppend(drafts, step, i);
      if i < |drafts| { assert Follows(Last(drafts, i), drafts[i]); }
    }
  }

  lemma LastOfAppend(drafts: seq<Draft>, step: Draft, i: nat)
    requires i <= |drafts|
    ensures Last(drafts + [step], i) == Last(drafts, i)
    ensures (drafts + [step])[i] == if i < |drafts| then drafts[i] else step
  {
  }

  lemma AppendKeepsBuilt(in_: Inputs, drafts: seq<Draft>, step: Draft)
    requires Built(in_, drafts) && Follows(Last(drafts, |drafts|), step) && DoesItsJob(in_, step)
    ensures Built(in_, drafts + [step])
  {
    AppendKeepsLinked(drafts, step);
    assert forall i :: 0 <= i < |drafts| ==> (drafts + [step])[i] == drafts[i];
  }

  /** The growing list of steps. It is always a chain of the steps in `names`, ending in `last`. */
  class StepList {
    const inputs: Inputs
    var steps: seq<Draft>
    ghost var names: seq<StepName>
    ghost var last: Option<Draft>

    ghost predicate Valid()
      reads this
    {
      Built(inputs, steps) && Named(steps, names) && last == Last(steps, |steps|)
    }

    constructor (inputs: Inputs)
      ensures Valid() && names == [] && last == None && this.inputs == inputs
    {
      this.inputs := inputs;
      steps, names, last := [], [], None;
    }

    /** Append any step and return its name. */
    method Step(name: StepName, dependsOn: seq<StepName>, action: Action, verify: VerifySpec) returns (id: StepName)
      modifies this`steps
      ensures id == name && steps == old(steps) + [Draft(name, action, dependsOn, verify)]
    {
      id := name;
      steps := steps + [Draft(name, action, dependsOn, verify)];
    }

    /** Append a step that does its job and follows the last one: the list stays a chain. */
    method Link(name: StepName, dependsOn: seq<StepName>, action: Action, verify: VerifySpec) returns (id: StepName)
      requires Valid()
      requires Follows(last, Draft(name, action, dependsOn, verify)) && DoesItsJob(inputs, Draft(name, action, dependsOn, verify))
      modifies this
      ensures Valid() && id == name && names == old(names) + [name] && last == Some(Draft(name, action, dependsOn, verify))
    {
      AppendKeepsBuilt(inputs, steps, Draft(name, action, dependsOn, verify));
      id := Step(name, dependsOn, action, verify);
      names, last := names + [name], Some(Draft(name, action, dependsOn, verify));
    }
  }

  function CniSteps(spec: ClusterSpec): seq<StepName> {
    match spec.cni
    case KindnetDefault => []
    case Flannel =>
      if spec.podCidr != FLANNEL_DEFAULT_NETWORK then [FLANNEL_DOWNLOAD, FLANNEL_PATCH, FLANNEL_APPLY]
      else [FLANNEL_DOWNLOAD, FLANNEL_APPLY]
    case Calico => [CALICO_OPERATOR_DOWNLOAD, CALICO_OPERATOR_APPLY, CALICO_OPERATOR_WAIT_CRDS, CALICO_CR_WRITE, CALICO_CR_APPLY]
    case Cilium =>
      var options := EffectiveCilium(spec).value;
      GatewayNames(options) + [INSTALL_CILIUM] + HubbleNames(options) + MeshNames(options)
  }

  function GatewayNames(options: CiliumOptions): seq<StepName> {
    if options.apiGateway then [GATEWAY_CRDS_DOWNLOAD, GATEWAY_CRDS_APPLY] else []
  }

  function HubbleNames(options: CiliumOptions): seq<StepName> { if options.hubble then [HUBBLE_ENABLE] else [] }

  function MeshNames(options: CiliumOptions): seq<StepName> { if options.mesh then [CLUSTERMESH_ENABLE] else [] }

  function IngressSteps(spec: ClusterSpec): seq<StepName> {
    match spec.ingress
    case None => []
    case Some(CiliumIngress) => []
    case Some(Nginx) => [INGRESS_NGINX_DOWNLOAD, INGRESS_NGINX_APPLY]
    case Some(Traefik) => [TRAEFIK_REPO_ADD, TRAEFIK_INSTALL]
  }

  /** Which steps a spec calls for: the three base steps, the CNI, the ingress controller, and the final check. */
  function StepsFor(spec: ClusterSpec): seq<StepName> {
    [WRITE_KIND_CONFIG, CREATE_KIND, MERGE_KUBECONFIG] + CniSteps(spec) + IngressSteps(spec) + [FINAL_VERIFY]
  }

  /** The Cilium options a plan follows; none given means ingress and nothing else. */
  ghost predicate Chosen(spec: ClusterSpec, options: CiliumOptions) {
    if spec.cilium.Some? then options == spec.cilium.value
    else !options.apiGateway && !options.hubble && options.ingress && !options.mesh
  }

  /** Which steps a spec calls for, step by step; every plan has the others. */
  ghost predicate CalledFor(spec: ClusterSpec, options: CiliumOptions, name: StepName) {
    match name
    case 3 => spec.cni.Flannel?
    case 4 => spec.cni.Flannel? && spec.podCidr != "10.244.0.0/16"
    case 5 => spec.cni.Flannel?
    case 6 => spec.cni.Calico?
    case 7 => spec.cni.Calico?
    case 8 => spec.cni.Calico?
    case 9 => spec.cni.Calico?
    case 10 => spec.cni.Calico?
    case 11 => spec.cni.Cilium? && options.apiGateway
    case 12 => spec.cni.Cilium? && options.apiGateway
    case 13 => spec.cni.Cilium?
    case 14 => spec.cni.Cilium? && options.hubble
    case 15 => spec.cni.Cilium? && options.mesh
    case 16 => spec.ingress == Some(Nginx)
    case 17 => spec.ingress == Some(Nginx)
    case 18 => spec.ingress == Some(Traefik)
    case 19 => spec.ingress == Some(Traefik)
    case _ => true
  }

  /** A plan has a step exactly when its spec calls for it. */
  lemma StepsAreCalledFor(spec: ClusterSpec, options: CiliumOptions, name: StepName)
    requires Chosen(spec, options)
    ensures name in StepsFor(spec) <==> CalledFor(spec, options, name)
  {
    CniCalledFor(spec, options, name);
    assert name in StepsFor(spec) <==>
      name in [WRITE_KIND_CONFIG, CREATE_KIND, MERGE_KUBECONFIG] || name in CniSteps(spec) || name in IngressSteps(spec) || name == FINAL_VERIFY;
  }

  lemma CniCalledFor(spec: ClusterSpec, options: CiliumOptions, name: StepName)
    requires Chosen(spec, options)
    ensures name in CniSteps(spec) <==> 3 <= name <= 15 && CalledFor(spec, options, name)
  {
    if spec.cni.Cilium? {
      var o := EffectiveCilium(spec).value;
      assert name in CniSteps(spec) <==>
        name in GatewayNames(o) || name == INSTALL_CILIUM || name in HubbleNames(o) || name in MeshNames(o);
    }
  }

  /** A section of the builder hands on a chain whose last step is `previous`, below the given rank. */
  ghost predicate EndsWith(list: StepList, previous: StepName, rank: nat)
    reads list
  {
    list.Valid() && list.last.Some? && previous == list.last.value.name && previous < rank
  }

  method BuildBase(list: StepList) returns (previous: StepName)
    requires list.Valid() && list.names == [] && list.last == None
    modifies list
    ensures EndsWith(list, previous, 3)
    ensures list.names == [WRITE_KIND_CONFIG, CREATE_KIND, MERGE_KUBECONFIG]
  {
    var in_, spec := list.inputs, list.inputs.spec;
    var kindConfigPath := in_.File(KindConfig);
    previous := list.Link(WRITE_KIND_CONFIG, [], WriteFile(kindConfigPath, KindYaml(spec.kindYaml)), NoVerify);
    previous := list.Link(CREATE_KIND, [previous], Command(KindCreate(kindConfigPath, true)), NoVerify);
    previous := list.Link(MERGE_KUBECONFIG, [previous],
                          ExportAndMergeKubeconfig(spec.name, in_.kubeconfigPath), NoVerify);
  }

  method BuildFlannel(list: StepList, previous0: StepName) returns (previous: StepName)
    requires list.inputs.spec.cni.Flannel? && EndsWith(list, previous0, 3)
    modifies list
    ensures EndsWith(list, previous, 16)
    ensures list.names == old(list.names) + CniSteps(list.inputs.spec)
  {
    var context := Context(list.inputs.spec.name);
    var applyPath;
    previous, applyPath := BuildFlannelManifest(list, previous0);
    previous := list.Link(FLANNEL_APPLY, [previous],
                          Command(KubectlApply(context, applyPath, false)), VerifyCommand(WaitNodesReady(context)));
  }

  /** The manifest as downloaded, or patched when the pod network is not flannel's own. */
  method BuildFlannelManifest(list: StepList, previous0: StepName) returns (previous: StepName, applyPath: PlanPath)
    requires list.inputs.spec.cni.Flannel? && EndsWith(list, previous0, 3)
    modifies list
    ensures EndsWith(list, previous, 5) && Produces(list.last.value.action) == Some(applyPath)
    ensures list.names == old(list.names)
      + if list.inputs.spec.podCidr != FLANNEL_DEFAULT_NETWORK then [FLANNEL_DOWNLOAD, FLANNEL_PATCH] else [FLANNEL_DOWNLOAD]
  {
    var in_, spec := list.inputs, list.inputs.spec;
    var yaml := in_.File(FlannelYaml);
    var download;
    download := list.Link(FLANNEL_DOWNLOAD, [previous0], Download(FlannelManifest, yaml), NoVerify);
    previous := download;
    applyPath := yaml;
    if spec.podCidr != FLANNEL_DEFAULT_NETWORK {
      applyPath := in_.File(FlannelPatchedYaml);
      previous := list.Link(FLANNEL_PATCH, [download], PatchFlannel(yaml, applyPath, spec.podCidr), NoVerify);
    }
  }

  method BuildCalico(list: StepList, previous0: StepName) returns (previous: StepName)
    requires list.inputs.spec.cni.Calico? && EndsWith(list, previous0, 6)
    modifies list
    ensures EndsWith(list, previous, 16)
    ensures list.names == old(list.names) + CniSteps(list.inputs.spec)
  {
    previous := BuildCalicoOperator(list, previous0);
    previous := BuildCalicoResource(list, previous);
  }

  method BuildCalicoResource(list: StepList, previous0: StepName) returns (previous: StepName)
    requires EndsWith(list, previous0, 9)
    modifies list
    ensures EndsWith(list, previous, 16)
    ensures list.names == old(list.names) + [CALICO_CR_WRITE, CALICO_CR_APPLY]
  {
    var in_, spec := list.inputs, list.inputs.spec;
    var crPath := in_.File(CalicoCrYaml);
    previous := list.Link(CALICO_CR_WRITE, [previous0], WriteFile(crPath, CalicoInstallation(spec.podCidr)), NoVerify);
    previous := list.Link(CALICO_CR_APPLY, [previous],
                          Command(KubectlApply(Context(spec.name), crPath, false)),
                          VerifyCommand(WaitNodesReady(Context(spec.name))));
  }

  /** The operator registers its CRDs at startup, so the plan waits for them before the custom resource. */
  method BuildCalicoOperator(list: StepList, previous0: StepName) returns (previous: StepName)
    requires EndsWith(list, previous0, 6)
    modifies list
    ensures EndsWith(list, previous, 9)
    ensures list.names == old(list.names) + [CALICO_OPERATOR_DOWNLOAD, CALICO_OPERATOR_APPLY, CALICO_OPERATOR_WAIT_CRDS]
  {
    var in_, spec := list.inputs, list.inputs.spec;
    var operatorYaml := in_.File(OperatorYaml);
    previous := list.Link(CALICO_OPERATOR_DOWNLOAD, [previous0], Download(TigeraOperator, operatorYaml), NoVerify);
    previous := list.Link(CALICO_OPERATOR_APPLY, [previous],
                          Command(KubectlApply(Context(spec.name), operatorYaml, false)), NoVerify);
    previous := list.Link(CALICO_OPERATOR_WAIT_CRDS, [previous],
                          WaitForInstallationCrd(Context(spec.name), 300), NoVerify);
  }

  /** The helm values of the one Cilium install, in the order they are passed. */
  method CiliumSets(options: CiliumOptions) returns (sets: seq<HelmSet>)
    ensures SetsMatch(sets, options) && sets != [] && sets[0] == KubeProxyReplacement
  {
    sets := [KubeProxyReplacement];
    if options.mesh {
      sets := sets + [MeshClusterName(options.clusterName), MeshClusterId(options.clusterId), MeshNodePort];
    }
    if options.ingress {
      sets := sets + [IngressControllerEnabled];
    }
    if options.apiGateway {
      sets := sets + [GatewayApiEnabled];
    }
  }

  method BuildCilium(list: StepList, previous0: StepName) returns (previous: StepName)
    requires list.inputs.spec.cni.Cilium? && EndsWith(list, previous0, 11)
    modifies list
    ensures EndsWith(list, previous, 16)
    ensures list.names == old(list.names) + CniSteps(list.inputs.spec)
  {
    var options := EffectiveCilium(list.inputs.spec).value;
    previous := BuildCiliumInstall(list, previous0, options);
    previous := BuildCiliumExtras(list, previous, options);
    CiliumNames(old(list.names), GatewayNames(options), HubbleNames(options), MeshNames(options));
  }

  lemma CiliumNames(before: seq<StepName>, gateway: seq<StepName>, hubble: seq<StepName>, mesh: seq<StepName>)
    ensures before + gateway + [INSTALL_CILIUM] + hubble + mesh == before + (gateway + [INSTALL_CILIUM] + hubble + mesh)
  {
  }

  method BuildCiliumExtras(list: StepList, previous0: StepName, options: CiliumOptions) returns (previous: StepName)
    requires EndsWith(list, previous0, 14)
    modifies list
    ensures EndsWith(list, previous, 16)
    ensures list.names == old(list.names) + HubbleNames(options) + MeshNames(options)
  {
    var context := Context(list.inputs.spec.name);
    previous := previous0;
    if options.hubble {
      previous := list.Link(HUBBLE_ENABLE, [previous],
                            Command(CiliumHubbleEnable(context, options.hubble, options.hubble)), NoVerify);
    }
    if options.mesh {
      previous := list.Link(CLUSTERMESH_ENABLE, [previous], Command(CiliumClustermeshEnable(context)), NoVerify);
    }
  }

  method BuildCiliumInstall(list: StepList, previous0: StepName, options: CiliumOptions) returns (previous: StepName)
    requires EffectiveCilium(list.inputs.spec) == Some(options) && EndsWith(list, previous0, 11)
    modifies list
    ensures EndsWith(list, previous, 14)
    ensures list.names == old(list.names) + GatewayNames(options) + [INSTALL_CILIUM]
  {
    var in_, context := list.inputs, Context(list.inputs.spec.name);
    var sets := CiliumSets(options);
    var installDep := previous0;
    if options.apiGateway {
      installDep := BuildGatewayCrds(list, previous0);
    }
    previous := list.Link(INSTALL_CILIUM, [installDep],
                          Command(CiliumInstall(context, in_.ciliumVersion, sets, true)),
                          VerifyCommand(CiliumStatus(context, true)));
  }

  /** The operator caches CRD discovery at startup, so the Gateway API CRDs come before the install. */
  method BuildGatewayCrds(list: StepList, previous0: StepName) returns (previous: StepName)
    requires EndsWith(list, previous0, 11)
    modifies list
    ensures EndsWith(list, previous, 13)
    ensures list.names == old(list.names) + [GATEWAY_CRDS_DOWNLOAD, GATEWAY_CRDS_APPLY]
  {
    var crdsPath := list.inputs.File(GatewayCrdsYaml);
    var download := list.Link(GATEWAY_CRDS_DOWNLOAD, [previous0], Download(GatewayApiCrds, crdsPath), NoVerify);
    previous := list.Link(GATEWAY_CRDS_APPLY, [download],
                          Command(KubectlApply(Context(list.inputs.spec.name), crdsPath, true)), NoVerify);
  }

  method BuildIngress(list: StepList, previous0: StepName) returns (previous: StepName)
    requires EndsWith(list, previous0, 16)
    modifies list
    ensures EndsWith(list, previous, 20)
    ensures list.names == old(list.names) + IngressSteps(list.inputs.spec)
  {
    var in_, spec := list.inputs, list.inputs.spec;
    var context := Context(spec.name);
    previous := previous0;
    match spec.ingress {
      case None =>
      case Some(CiliumIngress) =>
      case Some(Nginx) =>
        var deployYaml := in_.File(NginxYaml);
        previous := list.Link(INGRESS_NGINX_DOWNLOAD, [previous], Download(IngressNginxDeploy, deployYaml), NoVerify);
        previous := list.Link(INGRESS_NGINX_APPLY, [previous],
                          Command(KubectlApply(context, deployYaml, false)), VerifyCommand(WaitIngressNginxAvailable(context)));
      case Some(Traefik) =>
        previous := list.Link(TRAEFIK_REPO_ADD, [previous],
                          Command(HelmRepoAddTraefik), NoVerify);
        previous := list.Link(TRAEFIK_INSTALL, [previous],
                          Command(HelmInstallTraefik(context)), NoVerify);
    }
  }

  /** Build the plan for a spec; `invalid` is what validation has to say about it. */
  method Build(in_: Inputs, invalid: Option<string>) returns (r: Result<CreatePlan, string>, ghost drafts: seq<Draft>)
    ensures invalid.Some? ==> r == Failure(invalid.value)
    ensures invalid.None? ==> r == Success(CreatePlan(Finish(drafts), in_.dataDir, in_.kubeconfigPath))
    ensures invalid.None? ==> Built(in_, drafts) && Named(drafts, StepsFor(in_.spec))
  {
    drafts := [];
    if invalid.Some? {
      return Failure(invalid.value), drafts;
    }
    var list := new StepList(in_);
    BuildAll(list);
    drafts := list.steps;
    return Success(CreatePlan(Finish(list.steps), in_.dataDir, in_.kubeconfigPath)), drafts;
  }

  method BuildAll(list: StepList)
    requires list.Valid() && list.names == [] && list.last == None
    modifies list
    ensures list.Valid() && list.names == StepsFor(list.inputs.spec)
  {
    var previous := BuildBase(list);
    previous := BuildCni(list, previous);
    previous := BuildIngress(list, previous);
    BuildFinal(list, previous);
  }

  method BuildCni(list: StepList, previous0: StepName) returns (previous: StepName)
    requires EndsWith(list, previous0, 3)
    modifies list
    ensures EndsWith(list, previous, 16)
    ensures list.names == old(list.names) + CniSteps(list.inputs.spec)
  {
    match list.inputs.spec.cni {
      case KindnetDefault => previous := previous0;
      case Flannel => previous := BuildFlannel(list, previous0);
      case Calico => previous := BuildCalico(list, previous0);
      case Cilium => previous := BuildCilium(list, previous0);
    }
  }

  /** The final readiness gate. */
  method BuildFinal(list: StepList, previous0: StepName)
    requires EndsWith(list, previous0, 20)
    modifies list
    ensures list.Valid() && list.names == old(list.names) + [FINAL_VERIFY]
  {
    var context := Context(list.inputs.spec.name);
    var finalVerify := if list.inputs.spec.cni.Cilium? then CiliumStatus(context, true) else WaitNodesReady(context);
    var _ := list.Link(FINAL_VERIFY, [previous0], Command(finalVerify), NoVerify);
  }

  // ---- what every built plan satisfies ----

  /** Each step depends on exactly the step before it. */
  ghost predicate Chained(steps: seq<ProvisionStep>) {
    forall i :: 0 <= i < |steps| ==> ChainedAt(steps, i)
  }

  ghost predicate ChainedAt(steps: seq<ProvisionStep>, i: nat)
    requires i < |steps|
  {
    steps[i].dependsOn == if i == 0 then [] else [steps[i - 1].id]
  }

  /** Names rise from step to step. */
  ghost predicate Rising(drafts: seq<Draft>) {
    forall i :: 0 <= i < |drafts| - 1 ==> drafts[i].name < drafts[i + 1].name
  }

  lemma LinkedRises(drafts: seq<Draft>)
    requires Linked(drafts)
    ensures Rising(drafts)
  {
    forall i | 0 <= i < |drafts| - 1 ensures drafts[i].name < drafts[i + 1].name {
      assert Follows(Last(drafts, i + 1), drafts[i + 1]);
    }
  }

  lemma {:induction false} RanksIncrease(drafts: seq<Draft>, i: nat, j: nat)
    requires Rising(drafts) && i < j < |drafts|
    ensures drafts[i].name < drafts[j].name
  {
    var k := j - 1;
    assert drafts[k].name < drafts[k + 1].name;
    if i < k { RanksIncrease(drafts, i, k); }
  }

  /** Every built plan has distinct ids, and each step depends on exactly the step before it. */
  lemma LinkedIsChain(drafts: seq<Draft>)
    requires Linked(drafts)
    ensures DistinctIds(Finish(drafts)) && Chained(Finish(drafts)) && Known(Finish(drafts))
  {
    LinkedHasDistinctIds(drafts);
    forall i | 0 <= i < |drafts| ensures ChainedAt(Finish(drafts), i) { LinkedAt(drafts, i); }
    ChainedIsKnown(Finish(drafts));
  }

  lemma LinkedHasDistinctIds(drafts: seq<Draft>)
    requires Linked(drafts)
    ensures DistinctIds(Finish(drafts))
  {
    var steps := Finish(drafts);
    IdsDistinct();
    LinkedRises(drafts);
    forall i, j | 0 <= i < j < |steps| ensures Ids(steps)[i] != Ids(steps)[j] {
      RanksIncrease(drafts, i, j);
      assert AllIds()[drafts[i].name] != AllIds()[drafts[j].name];
    }
  }

  lemma LinkedAt(drafts: seq<Draft>, i: nat)
    requires Linked(drafts) && i < |drafts|
    ensures ChainedAt(Finish(drafts), i)
  {
    assert Follows(Last(drafts, i), drafts[i]);
    assert Finish(drafts)[i].dependsOn == NameIds(drafts[i].dependsOn);
  }

  lemma ChainedIsKnown(steps: seq<ProvisionStep>)
    requires Chained(steps)
    ensures Known(steps)
  {
    forall i, d | 0 <= i < |steps| && d in steps[i].dependsOn ensures d in Ids(steps) {
      assert ChainedAt(steps, i);
      assert Ids(steps)[i - 1] == d;
    }
  }

  /** In every built plan the Gateway CRDs precede the Cilium install and CNI steps precede ingress steps. */
  lemma StepsComeInRankOrder(drafts: seq<Draft>, i: nat, j: nat)
    requires Linked(drafts) && i < |drafts| && j < |drafts|
    ensures drafts[i].name == GATEWAY_CRDS_APPLY && drafts[j].name == INSTALL_CILIUM ==> i < j
    ensures 3 <= drafts[i].name <= 15 && 16 <= drafts[j].name <= 19 ==> i < j
    ensures drafts[i].name == FINAL_VERIFY ==> i == |drafts| - 1
  {
    LinkedRises(drafts);
    OrderedByRank(drafts, i, j);
    OrderedByRank(drafts, i, |drafts| - 1);
  }

  lemma OrderedByRank(drafts: seq<Draft>, i: nat, j: nat)
    requires Rising(drafts) && i < |drafts| && j < |drafts|
    ensures drafts[i].name < drafts[j].name <==> i < j
  {
    if i < j { RanksIncrease(drafts, i, j); }
    if j < i { RanksIncrease(drafts, j, i); }
  }

  lemma {:induction false} ChainedBefore(steps: seq<ProvisionStep>, order: seq<StepId>, i: nat) returns (p: nat)
    requires Chained(steps) && IsTopologicalOrder(steps, order) && |order| == |steps| && i < |steps|
    requires forall k :: 0 <= k < |steps| ==> steps[k].id in order
    ensures i <= p < |order| && order[p] == steps[i].id
  {
    p :| 0 <= p < |order| && order[p] == steps[i].id;
    if i > 0 {
      var q := ChainedBefore(steps, order, i - 1);
      assert Needs(steps, order[p], order[q]) by { assert ChainedAt(steps, i); }
    }
  }

  lemma {:induction false} ChainedAfter(steps: seq<ProvisionStep>, order: seq<StepId>, i: nat) returns (p: nat)
    requires Chained(steps) && IsTopologicalOrder(steps, order) && |order| == |steps| && i < |steps|
    requires forall k :: 0 <= k < |steps| ==> steps[k].id in order
    ensures p <= i && order[p] == steps[i].id
    decreases |steps| - i
  {
    p :| 0 <= p < |order| && order[p] == steps[i].id;
    if i < |steps| - 1 {
      var q := ChainedAfter(steps, order, i + 1);
      assert Needs(steps, order[q], order[p]) by { assert ChainedAt(steps, i + 1); }
    }
  }

  lemma ChainNeeds(steps: seq<ProvisionStep>, i: nat, j: nat)
    requires DistinctIds(steps) && Chained(steps) && i < |steps| && j < |steps|
    requires Needs(steps, steps[i].id, steps[j].id)
    ensures i == j + 1
  {
    var k :| 0 <= k < |steps| && steps[k].id == steps[i].id && steps[j].id in steps[k].dependsOn;
    assert Ids(steps)[k] == Ids(steps)[i];
    assert ChainedAt(steps, k);
    assert Ids(steps)[if k == 0 then 0 else k - 1] == Ids(steps)[j];
  }

  /** A chain has exactly one topological order: the order in which it was built. */
  lemma ChainHasOneOrder(steps: seq<ProvisionStep>, order: seq<StepId>)
    requires DistinctIds(steps) && Chained(steps)
    ensures IsTopologicalOrder(steps, order) <==> order == Ids(steps)
  {
    forall i, j | 0 <= i < |steps| && 0 <= j < |steps| && Needs(steps, Ids(steps)[i], Ids(steps)[j]) ensures j < i {
      ChainNeeds(steps, i, j);
    }
    if IsTopologicalOrder(steps, order) {
      RunPlan.OrderIsComplete(steps, order);
      RunPlan.OrderHasNoDup(steps, order);
      forall i | 0 <= i < |steps| ensures order[i] == Ids(steps)[i] {
        assert Ids(steps)[i] in Ids(steps);
        forall k | 0 <= k < |steps| ensures steps[k].id in order { assert Ids(steps)[k] in Ids(steps); }
        var p := ChainedBefore(steps, order, i);
        var q := ChainedAfter(steps, order, i);
      }
    }
  }

  lemma ChainSorts(steps: seq<ProvisionStep>)
    requires DistinctIds(steps) && Chained(steps)
    ensures SortTies.Sortable(steps) && TopologicalSort.LoopEnds(steps)
    ensures TopologicalSort.PassesTest(steps) && TopologicalSort.KahnOrder(steps) == Ids(steps)
  {
    ChainHasOneOrder(steps, Ids(steps));
    ChainedIsKnown(steps);
    TopologicalSort.OrderExcludesCycles(steps, Ids(steps));
    TopologicalSort.DistinctRootsOnce(steps);
    TopologicalSort.RootsOnceEnds(steps);
    TopologicalSort.KahnOrders(steps);
    ChainHasOneOrder(steps, TopologicalSort.KahnOrder(steps));
  }

  /** Built plans are the ones whose sorting keeps the promise of insertion order for ties. */
  lemma ChainKeepsInsertionOrder(steps: seq<ProvisionStep>)
    requires DistinctIds(steps) && Chained(steps)
    ensures SortTies.OneOrder(steps) && SortTies.KeepsInsertionOrder(steps, TopologicalSort.KahnOrder(steps))
  {
    ChainSorts(steps);
    forall a, b | IsTopologicalOrder(steps, a) && IsTopologicalOrder(steps, b) ensures a == b {
      ChainHasOneOrder(steps, a);
      ChainHasOneOrder(steps, b);
    }
    SortTies.InsertionOrderForTies(steps);
  }

  /** Build a plan and sort it: the sorter always succeeds and returns the build order unchanged. */
  method BuildAndSort(in_: Inputs) returns (plan: CreatePlan, order: seq<StepId>, ghost drafts: seq<Draft>)
    ensures plan.steps == Finish(drafts) && Built(in_, drafts) && Named(drafts, StepsFor(in_.spec))
    ensures order == Ids(plan.steps) == TopologicalSort.KahnOrder(plan.steps)
  {
    var built;
    built, drafts := Build(in_, None);
    plan := built.value;
    LinkedIsChain(drafts);
    ChainSorts(plan.steps);
    var sorted := TopologicalSort.Sort(plan.steps);
    order := sorted.value;
  }

  /** A file a step reads was written by the step before it, and nobody reads another. */
  lemma FilesAreWrittenBeforeUse(in_: Inputs, drafts: seq<Draft>, i: nat, path: PlanPath)
    requires Built(in_, drafts) && i < |drafts|
    requires var a := drafts[i].action;
      || (a.PatchFlannel? && a.source == path)
      || (a.Command? && a.command.KindCreate? && a.command.configPath == path)
      || (a.Command? && a.command.KubectlApply? && a.command.manifestPath == path)
    ensures i > 0 && var before := drafts[i - 1].action;
      || (before.Download? && before.dest == path)
      || (before.WriteFile? && before.path == path)
      || (before.PatchFlannel? && before.patched == path)
  {
    assert Follows(Last(drafts, i), drafts[i]);
  }

  /** The built plan's Cilium install is the step whose failure is diagnosed, and it is the only one. */
  lemma CiliumInstallIsDiagnosed(in_: Inputs, drafts: seq<Draft>, i: nat)
    requires Built(in_, drafts) && i < |drafts|
    ensures RunPlan.InstallsCilium(Finish(drafts)[i]) <==> drafts[i].name == INSTALL_CILIUM
  {
    IdsDistinct();
    assert AllIds()[INSTALL_CILIUM] == "cni-cilium-install";
    assert AllIds()[drafts[i].name] == Finish(drafts)[i].id;
    assert DoesItsJob(in_, drafts[i]);
    if drafts[i].name != INSTALL_CILIUM { DifferentNames(drafts[i].name, INSTALL_CILIUM); }
  }

  /** The helm values of a built plan's Cilium install, in terms of the spec; without options it is ingress alone. */
  lemma CiliumValuesFollowTheSpec(in_: Inputs, drafts: seq<Draft>, i: nat)
    requires Built(in_, drafts) && i < |drafts| && drafts[i].name == INSTALL_CILIUM && in_.spec.cni.Cilium?
    ensures drafts[i].action.Command? && drafts[i].action.command.CiliumInstall?
    ensures var sets, options := drafts[i].action.command.sets, in_.spec.cilium;
      && NoDup(sets) && KubeProxyReplacement in sets
      && (IngressControllerEnabled in sets <==> options.None? || options.value.ingress)
      && (GatewayApiEnabled in sets <==> options.Some? && options.value.apiGateway)
      && (MeshNodePort in sets <==> options.Some? && options.value.mesh)
      && (forall name :: MeshClusterName(name) in sets <==> options.Some? && options.value.mesh && name == options.value.clusterName)
      && (forall id :: MeshClusterId(id) in sets <==> options.Some? && options.value.mesh && id == options.value.clusterId)
  {
    assert InstallsCilium(in_, drafts[i]) by { assert DoesItsJob(in_, drafts[i]); }
  }

  /** The context a plan talks to is the one the kubeconfig store keeps for the cluster. */
  lemma ContextIsTheStores(name: string)
    ensures Context(name) == Kubeconfig.KindName(name) == "kind-" + name
  {
  }

  lemma DifferentNames(a: StepName, b: StepName)
    requires a != b
    ensures AllIds()[a] != AllIds()[b]
  {
    IdsDistinct();
    if a < b { assert AllIds()[a] != AllIds()[b]; } else { assert AllIds()[b] != AllIds()[a]; }
  }
}
