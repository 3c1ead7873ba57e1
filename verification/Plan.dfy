/** The create plan: provisioning steps, their actions and the dependency graph they span. */
module Plan {
  import opened Common

  type StepId = string

  /** A file under the plan's working directory; its name is derived from the file kind and the cluster name. */
  datatype PlanFile = KindConfig | FlannelYaml | FlannelPatchedYaml | OperatorYaml | CalicoCrYaml | GatewayCrdsYaml | NginxYaml
  datatype PlanPath = PlanPath(dataDir: string, file: PlanFile, cluster: string)

  /** Text the plan writes itself: the rendered kind config, or the Calico resource with the pod CIDR baked in. */
  datatype FileContent = KindYaml(text: string) | CalicoInstallation(podCidr: string)

  /** A `--set` value of the Cilium install. */
  datatype HelmSet =
    | KubeProxyReplacement | IngressControllerEnabled | GatewayApiEnabled | MeshNodePort
    | MeshClusterName(name: string) | MeshClusterId(id: nat)

  datatype KindCommand =
    | KindCreate(configPath: PlanPath, wait: bool)
    | KubectlApply(context: string, manifestPath: PlanPath, serverSide: bool)
    | WaitNodesReady(context: string)
    | WaitIngressNginxAvailable(context: string)
    | CiliumInstall(context: string, version: Option<string>, sets: seq<HelmSet>, wait: bool)
    | CiliumStatus(context: string, wait: bool)
    | CiliumHubbleEnable(context: string, ui: bool, relay: bool)
    | CiliumClustermeshEnable(context: string)
    | HelmRepoAddTraefik
    | HelmInstallTraefik(context: string)

  /** A manifest the plan downloads: every one is pinned to a release and to the digest of its content. */
  datatype Manifest = FlannelManifest | TigeraOperator | GatewayApiCrds | IngressNginxDeploy

  datatype Action =
    | Command(command: KindCommand)
    | Download(manifest: Manifest, dest: PlanPath)
    | WriteFile(path: PlanPath, content: FileContent)
    | ExportAndMergeKubeconfig(clusterName: string, storePath: string)
    | PatchFlannel(source: PlanPath, patched: PlanPath, podCidr: string)
    | WaitForInstallationCrd(context: string, timeoutSeconds: nat)

  datatype VerifySpec = NoVerify | VerifyCommand(check: KindCommand)

  datatype ProvisionStep = ProvisionStep(id: StepId, action: Action, dependsOn: seq<StepId>, verify: VerifySpec)

  function Ids(steps: seq<ProvisionStep>): (ids: seq<StepId>)
    ensures |ids| == |steps|
    ensures forall i :: 0 <= i < |steps| ==> ids[i] == steps[i].id
  {
    seq(|steps|, i requires 0 <= i < |steps| => steps[i].id)
  }

  ghost predicate DistinctIds(steps: seq<ProvisionStep>) {
    NoDup(Ids(steps))
  }

  /** Every dependency names a step of the plan. */
  ghost predicate Known(steps: seq<ProvisionStep>) {
    forall i, d :: 0 <= i < |steps| && d in steps[i].dependsOn ==> d in Ids(steps)
  }

  /** Step `a` lists step `b` among its dependencies. */
  ghost predicate Needs(steps: seq<ProvisionStep>, a: StepId, b: StepId) {
    exists i :: 0 <= i < |steps| && steps[i].id == a && b in steps[i].dependsOn
  }

  ghost predicate DependencyPath(steps: seq<ProvisionStep>, path: seq<StepId>) {
    forall i :: 0 <= i < |path| - 1 ==> Needs(steps, path[i], path[i + 1])
  }

  ghost predicate IsCycle(steps: seq<ProvisionStep>, c: seq<StepId>) {
    |c| >= 2 && c[0] == c[|c| - 1] && DependencyPath(steps, c)
  }

  ghost predicate Acyclic(steps: seq<ProvisionStep>) {
    forall c :: !IsCycle(steps, c)
  }

  /** `order` lists every step exactly once, each one after everything it needs. */
  ghost predicate IsTopologicalOrder(steps: seq<ProvisionStep>, order: seq<StepId>) {
    && multiset(order) == multiset(Ids(steps))
    && forall i, j :: 0 <= i < |order| && 0 <= j < |order| && Needs(steps, order[i], order[j]) ==> j < i
  }
}
