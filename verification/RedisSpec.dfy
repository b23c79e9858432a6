/** The specification part of a RedisSentinel object, as far as the controller reads it. */
module RedisSpec {
  import opened Basics

  /** A quantity of cpu or memory; only its order matters. */
  type Quantity = int

  type ResourceList = map<string, Quantity>

  datatype Resources = Resources(requests: ResourceList, limits: ResourceList) {
    /** Nothing asked for: the encoded size is zero. */
    predicate Empty() {
      requests == map[] && limits == map[]
    }
  }

  /** A resource that is not listed reads as zero. */
  function Amount(list: ResourceList, name: string): Quantity {
    if name in list then list[name] else 0
  }

  datatype Exporter = Exporter(enabled: bool, image: string, pullPolicy: string)

  datatype SentinelSettings = SentinelSettings(
    replicas: int, image: string, resources: Resources, command: seq<string>, customConfig: seq<string>)

  datatype Spec = Spec(
    size: int,
    image: string,
    password: string,
    resources: Resources,
    command: seq<string>,
    config: Option<map<string, string>>,
    disablePersistence: bool,
    exporter: Exporter,
    shutdownConfigMap: string,
    sentinel: SentinelSettings)
}
