/**
 * The Kubernetes object shapes the operator reads and writes, restricted to
 * the fields the core sets or compares (FrontendPage, ConfigMap, Service,
 * Deployment), and Go's int32 conversion.
 */
module Objects {
  import opened Wrappers

  const Int32Modulus: int := 0x1_0000_0000

  predicate InInt32(x: int) {
    -0x8000_0000 <= x <= 0x7fff_ffff
  }

  /** Go's `int32(x)`: keeps the low 32 bits and reads them in two's complement. */
  function ToInt32(x: int): (r: int)
    ensures InInt32(r)
    ensures (x - r) % Int32Modulus == 0
    ensures InInt32(x) ==> r == x
  {
    var low := x % Int32Modulus;
    if low > 0x7fff_ffff then low - Int32Modulus else low
  }

  /** The controller reference that SetControllerReference stamps on a child. */
  datatype OwnerRef = OwnerRef(kind: string, name: string)

  datatype ObjectMeta = ObjectMeta(
    name: string,
    namespace: string,
    resourceVersion: string,
    owner: Option<OwnerRef>)

  /** Metadata of a freshly built object: only name and namespace are set. */
  function NewMeta(name: string, namespace: string): ObjectMeta {
    ObjectMeta(name, namespace, "", None)
  }

  // FrontendPage (the custom resource)

  datatype FrontendPageSpec = FrontendPageSpec(content: string, image: string, replicas: int, port: int)

  datatype Condition = Condition(conditionType: string, status: string, reason: string)

  datatype FrontendPage = FrontendPage(meta: ObjectMeta, spec: FrontendPageSpec, conditions: seq<Condition>)

  // ConfigMap

  datatype ConfigMap = ConfigMap(meta: ObjectMeta, data: map<string, string>)

  // Service

  datatype ServicePort = ServicePort(name: string, port: int, targetPort: int)

  datatype ServiceSpec = ServiceSpec(selector: map<string, string>, ports: seq<ServicePort>)

  datatype Service = Service(meta: ObjectMeta, spec: ServiceSpec)

  // Deployment

  datatype ContainerPort = ContainerPort(containerPort: int)

  datatype VolumeMount = VolumeMount(name: string, mountPath: string)

  datatype Container = Container(
    name: string,
    image: string,
    ports: seq<ContainerPort>,
    volumeMounts: seq<VolumeMount>)

  /** A pod volume; `configMap` names the ConfigMap that backs it, if any. */
  datatype Volume = Volume(name: string, configMap: Option<string>)

  datatype PodSpec = PodSpec(containers: seq<Container>, volumes: seq<Volume>)

  datatype PodTemplate = PodTemplate(labels: map<string, string>, spec: PodSpec)

  /** `replicas` is the value behind the `*int32` pointer, taken to be non-nil. */
  datatype DeploymentSpec = DeploymentSpec(
    replicas: int,
    matchLabels: map<string, string>,
    template: PodTemplate)

  datatype Deployment = Deployment(meta: ObjectMeta, spec: DeploymentSpec)
}
