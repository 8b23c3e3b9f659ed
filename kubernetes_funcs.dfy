/**
 * The CLI's Kubernetes helpers: the nginx Deployment the create command
 * submits, and the choice between in-cluster and kubeconfig connections.
 * The client-go calls the choice makes (reading the in-cluster config,
 * building a config from a kubeconfig path, creating a clientset) are passed
 * in as their results, so only the branching is modelled.
 */
module KubernetesFuncs {
  import opened Wrappers
  import opened Objects

  /** The Deployment `create` submits: one nginx replica labelled with its own name. */
  function DeploymentSpecBuilder(deploymentName: string, namespace: string): (d: Deployment)
    ensures d.meta == NewMeta(deploymentName, namespace)
    ensures d.spec.replicas == 1
    ensures d.spec.matchLabels == d.spec.template.labels == map["app" := deploymentName]
    ensures d.spec.template.spec.containers == [Container("nginx", "nginx:latest", [ContainerPort(80)], [])]
    ensures d.spec.template.spec.volumes == []
  {
    Deployment(
      NewMeta(deploymentName, namespace),
      DeploymentSpec(
        1,
        map["app" := deploymentName],
        PodTemplate(
          map["app" := deploymentName],
          PodSpec([Container("nginx", "nginx:latest", [ContainerPort(80)], [])], []))))
  }

  /** The three results: a clientset and its config, or an error and neither. */
  datatype Connection<C, K> = Connection(clientset: Option<K>, config: Option<C>, err: Option<string>)

  const NoKubeconfig := "no kubeconfig provided"

  function Failed<C, K>(e: string): Connection<C, K> {
    Connection(None, None, Some(e))
  }

  /**
   * `inClusterConfig` is what reading the in-cluster config returns;
   * `buildConfigFromFlags` and `newForConfig` stand for the client-go
   * functions of the same names.
   */
  function ChooseKubeConnectionType<C, K>(
    inCluster: bool,
    kubeconfig: string,
    inClusterConfig: Result<C, string>,
    buildConfigFromFlags: string -> Result<C, string>,
    newForConfig: C -> Result<K, string>): (r: Connection<C, K>)
    ensures r.err.None? <==> r.clientset.Some? && r.config.Some?
    ensures r.err.Some? ==> r.clientset.None? && r.config.None?
    ensures !inCluster && kubeconfig == "" ==> r == Failed(NoKubeconfig)
    ensures r.config.Some? && inCluster ==> inClusterConfig == Success(r.config.value)
    ensures r.config.Some? && !inCluster ==> kubeconfig != "" && buildConfigFromFlags(kubeconfig) == Success(r.config.value)
    ensures r.config.Some? ==> newForConfig(r.config.value) == Success(r.clientset.value)
  {
    var config :=
      if inCluster then inClusterConfig
      else if kubeconfig != "" then buildConfigFromFlags(kubeconfig)
      else Failure(NoKubeconfig);
    match config
    case Failure(e) => Failed(e)
    case Success(c) =>
      match newForConfig(c)
      case Failure(e) => Failed(e)
      case Success(clientset) => Connection(Some(clientset), Some(c), None)
  }

  /** In cluster, the kubeconfig path is never looked at. */
  lemma InClusterIgnoresKubeconfig<C, K>(
    kubeconfig1: string,
    kubeconfig2: string,
    inClusterConfig: Result<C, string>,
    buildConfigFromFlags: string -> Result<C, string>,
    newForConfig: C -> Result<K, string>)
    ensures ChooseKubeConnectionType(true, kubeconfig1, inClusterConfig, buildConfigFromFlags, newForConfig)
         == ChooseKubeConnectionType(true, kubeconfig2, inClusterConfig, buildConfigFromFlags, newForConfig)
  {
  }

  /** Out of cluster, the in-cluster config is never looked at. */
  lemma OutOfClusterIgnoresInClusterConfig<C, K>(
    kubeconfig: string,
    inClusterConfig1: Result<C, string>,
    inClusterConfig2: Result<C, string>,
    buildConfigFromFlags: string -> Result<C, string>,
    newForConfig: C -> Result<K, string>)
    ensures ChooseKubeConnectionType(false, kubeconfig, inClusterConfig1, buildConfigFromFlags, newForConfig)
         == ChooseKubeConnectionType(false, kubeconfig, inClusterConfig2, buildConfigFromFlags, newForConfig)
  {
  }

  /** Every step's error is passed on as it is. */
  lemma ErrorsPassThrough<C, K>(
    inCluster: bool,
    kubeconfig: string,
    inClusterConfig: Result<C, string>,
    buildConfigFromFlags: string -> Result<C, string>,
    newForConfig: C -> Result<K, string>)
    requires inCluster || kubeconfig != ""
    ensures var chosen := if inCluster then inClusterConfig else buildConfigFromFlags(kubeconfig);
      var r := ChooseKubeConnectionType(inCluster, kubeconfig, inClusterConfig, buildConfigFromFlags, newForConfig);
      && (chosen.Failure? ==> r == Failed(chosen.error))
      && (chosen.Success? && newForConfig(chosen.value).Failure? ==> r == Failed(newForConfig(chosen.value).error))
  {
  }
}
