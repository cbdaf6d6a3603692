/** The build step that chooses which JobRunr CDI producers Quarkus registers,
    from the set of capabilities the application's Quarkus extensions provide. */
module BeanSelection {
  import opened Wrappers

  /** The capability names of the Quarkus extensions the selection looks for. */
  const Agroal := "io.quarkus.agroal"
  const MongoDbClient := "io.quarkus.mongodb-client"
  const ElasticsearchClient := "io.quarkus.elasticsearch-rest-high-level-client"
  const JsonB := "io.quarkus.jsonb"
  const Jackson := "io.quarkus.jackson"

  /** The capabilities present in the build; `isPresent(name)` is membership. */
  type Capabilities = set<string>

  /** The bean classes the build step may register. */
  datatype BeanClass =
    | JobRunrProducer
    | JobRunrStarter
    | SqlStorageProviderProducer
    | MongoDbStorageProviderProducer
    | ElasticSearchStorageProviderProducer
    | InMemoryStorageProviderProducer
    | JsonBJsonMapperProducer
    | JacksonJsonMapperProducer

  /** `Class.getName()`: nested producer classes are named with a `$`. */
  function ClassName(c: BeanClass): (name: string) {
    match c
    case JobRunrProducer => "org.jobrunr.quarkus.autoconfigure.JobRunrProducer"
    case JobRunrStarter => "org.jobrunr.quarkus.autoconfigure.JobRunrStarter"
    case SqlStorageProviderProducer =>
      "org.jobrunr.quarkus.autoconfigure.storage.JobRunrSqlStorageProviderProducer"
    case MongoDbStorageProviderProducer =>
      "org.jobrunr.quarkus.autoconfigure.storage.JobRunrMongoDBStorageProviderProducer"
    case ElasticSearchStorageProviderProducer =>
      "org.jobrunr.quarkus.autoconfigure.storage.JobRunrElasticSearchStorageProviderProducer"
    case InMemoryStorageProviderProducer =>
      "org.jobrunr.quarkus.autoconfigure.storage.JobRunrInMemoryStorageProviderProducer"
    case JsonBJsonMapperProducer =>
      "org.jobrunr.quarkus.autoconfigure.JobRunrProducer$JobRunrJsonBJsonMapperProducer"
    case JacksonJsonMapperProducer =>
      "org.jobrunr.quarkus.autoconfigure.JobRunrProducer$JobRunrJacksonJsonMapperProducer"
  }

  /** The names of a set of classes, as `map(Class::getName).collect(toSet())` gives them. */
  function ClassNames(classes: set<BeanClass>): (names: set<string>)
    ensures forall c | c in classes :: ClassName(c) in names
    ensures forall n | n in names :: exists c | c in classes :: ClassName(c) == n
  {
    set c | c in classes :: ClassName(c)
  }

  predicate IsStorageProducer(c: BeanClass) {
    c.SqlStorageProviderProducer? || c.MongoDbStorageProviderProducer?
    || c.ElasticSearchStorageProviderProducer? || c.InMemoryStorageProviderProducer?
  }

  predicate IsJsonMapperProducer(c: BeanClass) {
    c.JsonBJsonMapperProducer? || c.JacksonJsonMapperProducer?
  }

  const NoJsonMapperMessage := "Either JSON-B or Jackson should be added via a Quarkus extension"

  /** What `AdditionalBeanBuildItem.builder()...build()` carries: the bean class
      names and whether they are marked unremovable. */
  datatype AdditionalBeanBuildItem = AdditionalBeanBuildItem(beanClasses: set<string>, unremovable: bool)

  /** The storage producer, chosen by a fixed priority: an SQL datasource
      (Agroal), then MongoDB, then Elasticsearch, and in-memory when none is present. */
  function StorageProviderClass(capabilities: Capabilities): (r: BeanClass)
    ensures IsStorageProducer(r)
    ensures r == SqlStorageProviderProducer <==> Agroal in capabilities
    ensures r == MongoDbStorageProviderProducer <==>
      Agroal !in capabilities && MongoDbClient in capabilities
    ensures r == ElasticSearchStorageProviderProducer <==>
      Agroal !in capabilities && MongoDbClient !in capabilities && ElasticsearchClient in capabilities
    ensures r == InMemoryStorageProviderProducer <==>
      Agroal !in capabilities && MongoDbClient !in capabilities && ElasticsearchClient !in capabilities
  {
    if Agroal in capabilities then SqlStorageProviderProducer
    else if MongoDbClient in capabilities then MongoDbStorageProviderProducer
    else if ElasticsearchClient in capabilities then ElasticSearchStorageProviderProducer
    else InMemoryStorageProviderProducer
  }

  /** The JSON mapper producer: JSON-B wins over Jackson; with neither the build fails. */
  function JsonMapperClass(capabilities: Capabilities): (r: Result<BeanClass, Exception>)
    ensures r.Success? ==> IsJsonMapperProducer(r.value)
    ensures r == Success(JsonBJsonMapperProducer) <==> JsonB in capabilities
    ensures r == Success(JacksonJsonMapperProducer) <==>
      JsonB !in capabilities && Jackson in capabilities
    ensures r.Failure? <==> JsonB !in capabilities && Jackson !in capabilities
    ensures r.Failure? ==> r.error == IllegalStateException(NoJsonMapperMessage)
  {
    if JsonB in capabilities then Success(JsonBJsonMapperProducer)
    else if Jackson in capabilities then Success(JacksonJsonMapperProducer)
    else Failure(IllegalStateException(NoJsonMapperMessage))
  }

  /** A priority list read front to back: the class paired with the first
      capability present, if any. */
  function FirstPresent(priority: seq<(string, BeanClass)>, capabilities: Capabilities): (r: Option<BeanClass>)
    ensures r.None? <==> forall k | 0 <= k < |priority| :: priority[k].0 !in capabilities
    ensures r.Some? ==> exists k | 0 <= k < |priority| ::
      && priority[k].0 in capabilities
      && r.value == priority[k].1
      && forall j | 0 <= j < k :: priority[j].0 !in capabilities
  {
    if |priority| == 0 then None
    else if priority[0].0 in capabilities then
      Some(priority[0].1)
    else
      var r := FirstPresent(priority[1..], capabilities);
      if r.Some? then
        var k :| 0 <= k < |priority[1..]| && priority[1..][k].0 in capabilities
          && r.value == priority[1..][k].1
          && forall j | 0 <= j < k :: priority[1..][j].0 !in capabilities;
        assert forall j | 0 <= j < k + 1 :: priority[j].0 !in capabilities by {
          forall j | 0 <= j < k + 1 ensures priority[j].0 !in capabilities {
            if j > 0 { assert priority[j] == priority[1..][j - 1]; }
          }
        }
        r
      else
        assert forall k | 1 <= k < |priority| :: priority[k] == priority[1..][k - 1];
        r
  }

  const StoragePriority: seq<(string, BeanClass)> := [
    (Agroal, SqlStorageProviderProducer),
    (MongoDbClient, MongoDbStorageProviderProducer),
    (ElasticsearchClient, ElasticSearchStorageProviderProducer)
  ]

  const JsonMapperPriority: seq<(string, BeanClass)> := [
    (JsonB, JsonBJsonMapperProducer),
    (Jackson, JacksonJsonMapperProducer)
  ]

  /** The if-chain of `storageProviderClass` is the storage priority list with
      the in-memory producer as fallback. */
  lemma StorageFollowsPriorityList(capabilities: Capabilities)
    ensures StorageProviderClass(capabilities) ==
      match FirstPresent(StoragePriority, capabilities)
      case Some(c) => c
      case None => InMemoryStorageProviderProducer
  {
    var r := FirstPresent(StoragePriority, capabilities);
    if r.Some? {
      var k :| 0 <= k < |StoragePriority| && StoragePriority[k].0 in capabilities
        && r.value == StoragePriority[k].1
        && forall j | 0 <= j < k :: StoragePriority[j].0 !in capabilities;
      if k == 1 { assert StoragePriority[0].0 !in capabilities; }
      if k == 2 {
        assert StoragePriority[0].0 !in capabilities;
        assert StoragePriority[1].0 !in capabilities;
      }
    } else {
      assert StoragePriority[0].0 !in capabilities;
      assert StoragePriority[1].0 !in capabilities;
      assert StoragePriority[2].0 !in capabilities;
    }
  }

  /** The if-chain of `jsonMapperClass` is the JSON priority list, failing
      when it is exhausted. */
  lemma JsonMapperFollowsPriorityList(capabilities: Capabilities)
    ensures JsonMapperClass(capabilities) ==
      match FirstPresent(JsonMapperPriority, capabilities)
      case Some(c) => Success(c)
      case None => Failure(IllegalStateException(NoJsonMapperMessage))
  {
  }

  /** Only the five capabilities above influence the selection: any other
      capability can be added or removed without changing it. */
  lemma SelectionIgnoresOtherCapabilities(capabilities: Capabilities, other: Capabilities)
    requires forall c | c in other :: c !in {Agroal, MongoDbClient, ElasticsearchClient, JsonB, Jackson}
    ensures StorageProviderClass(capabilities + other) == StorageProviderClass(capabilities)
    ensures JsonMapperClass(capabilities + other) == JsonMapperClass(capabilities)
  {
  }

  /** The `produce` build step: the producer, the starter, the selected storage
      producer and the selected JSON mapper producer, all unremovable; it throws
      when no JSON mapper is available. */
  method Produce(capabilities: Capabilities) returns (r: Result<AdditionalBeanBuildItem, Exception>)
    ensures r.Failure? <==> JsonB !in capabilities && Jackson !in capabilities
    ensures r.Failure? ==> r.error == IllegalStateException(NoJsonMapperMessage)
    ensures r.Success? ==> r.value.unremovable
    ensures r.Success? ==> r.value.beanClasses == ClassNames({
      JobRunrProducer, JobRunrStarter,
      StorageProviderClass(capabilities), JsonMapperClass(capabilities).value
    })
  {
    var beanClasses: set<BeanClass> := {};
    beanClasses := beanClasses + {JobRunrProducer};
    beanClasses := beanClasses + {JobRunrStarter};
    var storage := StorageProviderClass(capabilities);
    beanClasses := beanClasses + {storage};
    var json := JsonMapperClass(capabilities);
    if json.Failure? {
      return Failure(json.error);
    }
    beanClasses := beanClasses + {json.value};
    assert beanClasses == {JobRunrProducer, JobRunrStarter, storage, json.value};
    r := Success(AdditionalBeanBuildItem(ClassNames(beanClasses), true));
  }
}
