# JobRunr Quarkus extension processor: a verified model

A Dafny model of the build-time processor of JobRunr's Quarkus extension
(`JobRunrExtensionProcessor`). The processor has two pieces of decision logic,
and the model covers both:

- **Bean selection** (`bean_selection.dfy`, module `BeanSelection`). The
  `produce` build step reads the set of Quarkus capabilities. It registers the
  JobRunr producer and starter, one storage-provider producer and one JSON-mapper
  producer, all marked unremovable. Storage is chosen by a fixed priority: Agroal
  (SQL), then the MongoDB client, then the Elasticsearch client, and the
  in-memory store when none of them is present. The JSON mapper is JSON-B, else
  Jackson. With neither, the step throws `IllegalStateException`. Capabilities
  are a `set<string>` and bean classes are an enumeration, mapped to their Java
  class names (nested producers carry a `$`).
- **Recurring-job scan** (`recurring_jobs.dfy`, module `RecurringJobs`). The
  build step walks the `@Recurring` annotations of the Jandex index in index
  order. It passes over annotations whose target is not a method. For each
  method target it looks up, in this order:
  1. the optional id (null when absent);
  2. the `JobDetails` (declaring class, no static field, method name, no
     arguments), refusing methods that take parameters;
  3. the cron expression;
  4. the zone (the `zoneId` attribute if there is one, else the system default).

  It then records one `JobRunrRecorder.schedule` call. The first exception ends
  the walk. Calls already recorded stay recorded and no later call is made. The
  recorder is a class whose `calls` sequence grows. The scan is a method with a
  loop, proved against the function `Scan`, and the properties of the scan are
  lemmas about `Scan`.

`wrappers.dfy` holds `Option` (Java's nullable values), `Result` (calls that
may throw) and the one `Exception` type both build steps throw.

The external library calls are fields of an `Environment` value, and the model
states everything in terms of them:
- `CronExpression.create` and `ZoneId.of` become total functions returning
  `None` where the library throws;
- `ZoneId.systemDefault()` becomes a given zone.

The code derives no ids, rejects no duplicate ids, does not sort and does not
register all-or-nothing. It passes a null id through, schedules duplicates,
keeps index order, and leaves earlier calls recorded when a later annotation
throws. `DuplicateIdsAreBothScheduled` and `ScanStopsAtFirstFailure` state this
behaviour.

## Model

| member | source | states |
|---|---|---|
| `BeanSelection.StorageProviderClass` | framework-support/jobrunr-quarkus-extension/deployment/src/main/java/org/jobrunr/quarkus/extension/deployment/JobRunrExtensionProcessor.java:134-144 | the result is a storage producer. It is the SQL producer iff Agroal is present, whatever else is. It is MongoDB iff Agroal is absent and the MongoDB client present, and Elasticsearch iff only the Elasticsearch client of the three is present. It is in-memory iff none of the three is present. |
| `BeanSelection.JsonMapperClass` | framework-support/jobrunr-quarkus-extension/deployment/src/main/java/org/jobrunr/quarkus/extension/deployment/JobRunrExtensionProcessor.java:125-132 | JSON-B iff the jsonb capability is present, even with Jackson present. Jackson iff jsonb is absent and jackson present. It throws `IllegalStateException` with the source's message iff neither is present. |
| `BeanSelection.FirstPresent` | framework-support/jobrunr-quarkus-extension/deployment/src/main/java/org/jobrunr/quarkus/extension/deployment/JobRunrExtensionProcessor.java:125-144 | the reference rule both if-chains follow: it returns nothing iff no listed capability is present. Otherwise it returns the class of a present capability that no earlier one in the list precedes. |
| `BeanSelection.StorageFollowsPriorityList` | framework-support/jobrunr-quarkus-extension/deployment/src/main/java/org/jobrunr/quarkus/extension/deployment/JobRunrExtensionProcessor.java:134-144 | storage selection equals the priority list Agroal, MongoDB, Elasticsearch, with in-memory as fallback. |
| `BeanSelection.JsonMapperFollowsPriorityList` | framework-support/jobrunr-quarkus-extension/deployment/src/main/java/org/jobrunr/quarkus/extension/deployment/JobRunrExtensionProcessor.java:125-132 | JSON selection equals the priority list JSON-B, Jackson, and fails when the list is exhausted. |
| `BeanSelection.SelectionIgnoresOtherCapabilities` | framework-support/jobrunr-quarkus-extension/deployment/src/main/java/org/jobrunr/quarkus/extension/deployment/JobRunrExtensionProcessor.java:125-144 | adding capabilities other than the five looked at changes neither selection. |
| `BeanSelection.ClassNames` | framework-support/jobrunr-quarkus-extension/deployment/src/main/java/org/jobrunr/quarkus/extension/deployment/JobRunrExtensionProcessor.java:59 | the name set holds the name of every given class and nothing that is not one. |
| `BeanSelection.Produce` | framework-support/jobrunr-quarkus-extension/deployment/src/main/java/org/jobrunr/quarkus/extension/deployment/JobRunrExtensionProcessor.java:43-61 | it fails iff neither JSON capability is present, with the JSON selection's exception. Otherwise it registers, unremovable, exactly the names of the producer, the starter, the selected storage producer and the selected JSON producer. |
| `RecurringJobs.GetId` | framework-support/jobrunr-quarkus-extension/deployment/src/main/java/org/jobrunr/quarkus/extension/deployment/JobRunrExtensionProcessor.java:94-99 | the id is the annotation's `id` value when present and null when absent; no id is derived. |
| `RecurringJobs.GetJobDetails` | framework-support/jobrunr-quarkus-extension/deployment/src/main/java/org/jobrunr/quarkus/extension/deployment/JobRunrExtensionProcessor.java:101-112 | it throws `IllegalStateException` iff the method has parameters. Otherwise the job details hold the declaring class name, a null static field, the method name and an empty parameter list. |
| `RecurringJobs.GetCronExpression` | framework-support/jobrunr-quarkus-extension/deployment/src/main/java/org/jobrunr/quarkus/extension/deployment/JobRunrExtensionProcessor.java:121-123 | it fails iff `CronExpression.create` rejects the `cron` text; otherwise it gives that parse. |
| `RecurringJobs.GetZoneId` | framework-support/jobrunr-quarkus-extension/deployment/src/main/java/org/jobrunr/quarkus/extension/deployment/JobRunrExtensionProcessor.java:114-119 | with no `zoneId` attribute it is the system default and never fails. With one, it is `ZoneId.of` of that text and fails iff `ZoneId.of` does. |
| `RecurringJobs.ScheduleCallFor` | framework-support/jobrunr-quarkus-extension/deployment/src/main/java/org/jobrunr/quarkus/extension/deployment/JobRunrExtensionProcessor.java:81-89 | the steps run as id, details, cron, zone. A parameterised method fails on the parameter check whatever its cron and zone. A bad cron wins over a bad zone. It succeeds iff no step fails, with the call's id, job details, cron and zone as the four lookups give them. |
| `RecurringJobs.MethodTargeted` | framework-support/jobrunr-quarkus-extension/deployment/src/main/java/org/jobrunr/quarkus/extension/deployment/JobRunrExtensionProcessor.java:78-80 | every kept annotation is method-targeted and from the index, and every method-targeted one is kept; it is never longer than the index (multiplicity and order are the next two lemmas). |
| `RecurringJobs.MethodTargetedCounts` | framework-support/jobrunr-quarkus-extension/deployment/src/main/java/org/jobrunr/quarkus/extension/deployment/JobRunrExtensionProcessor.java:78-80 | every method-targeted annotation is kept exactly as many times as the index holds it, and no other annotation is kept. |
| `RecurringJobs.MethodTargetedAppend` | framework-support/jobrunr-quarkus-extension/deployment/src/main/java/org/jobrunr/quarkus/extension/deployment/JobRunrExtensionProcessor.java:78-80 | filtering the concatenation of two index parts is the concatenation of their filterings, so index order is kept. |
| `RecurringJobs.ScanIgnoresNonMethodTargets` | framework-support/jobrunr-quarkus-extension/deployment/src/main/java/org/jobrunr/quarkus/extension/deployment/JobRunrExtensionProcessor.java:78-80 | non-method targets are skipped without error: the scan gives the same calls and the same exception as a scan of the method targets alone. |
| `RecurringJobs.ScanAppend` | framework-support/jobrunr-quarkus-extension/deployment/src/main/java/org/jobrunr/quarkus/extension/deployment/JobRunrExtensionProcessor.java:78-91 | the scan of a concatenation is the scan of the first part. When the first part did not throw, the second part's calls follow in order. |
| `RecurringJobs.ScanThrowsIffSomeTargetFails` | framework-support/jobrunr-quarkus-extension/deployment/src/main/java/org/jobrunr/quarkus/extension/deployment/JobRunrExtensionProcessor.java:78-91 | the scan throws iff some method-targeted annotation fails one of its lookups. |
| `RecurringJobs.ScanRecordsEveryMethodTarget` | framework-support/jobrunr-quarkus-extension/deployment/src/main/java/org/jobrunr/quarkus/extension/deployment/JobRunrExtensionProcessor.java:78-91 | when no lookup fails, there is exactly one call per method-targeted annotation, in index order. |
| `RecurringJobs.ScanStopsAtFirstFailure` | framework-support/jobrunr-quarkus-extension/deployment/src/main/java/org/jobrunr/quarkus/extension/deployment/JobRunrExtensionProcessor.java:78-91 | a failure on the k-th annotation throws that annotation's exception. The calls of the earlier annotations stay recorded, with no rollback, and later ones get none. |
| `RecurringJobs.ScanCallsComeFromMethodTargets` | framework-support/jobrunr-quarkus-extension/deployment/src/main/java/org/jobrunr/quarkus/extension/deployment/JobRunrExtensionProcessor.java:78-91 | every recorded call, failure or not, is the call of some method-targeted annotation. There are never more calls than such annotations. |
| `RecurringJobs.DuplicateIdsAreBothScheduled` | framework-support/jobrunr-quarkus-extension/deployment/src/main/java/org/jobrunr/quarkus/extension/deployment/JobRunrExtensionProcessor.java:78-99 | two method annotations with the same id are both scheduled under that id; nothing is deduplicated. |
| `RecurringJobs.JobRunrRecorder.Schedule` | framework-support/jobrunr-quarkus-extension/deployment/src/main/java/org/jobrunr/quarkus/extension/deployment/JobRunrExtensionProcessor.java:89 | a schedule call appends exactly its arguments to the recorded calls. |
| `RecurringJobs.FindRecurringJobAnnotationsAndScheduleThem` | framework-support/jobrunr-quarkus-extension/deployment/src/main/java/org/jobrunr/quarkus/extension/deployment/JobRunrExtensionProcessor.java:65-92 | the recorder's calls grow by exactly the calls of `Scan`, in order, and the method throws exactly `Scan`'s exception. |

## Left out

- `feature()` (the constant feature name `"jobrunr"`): it has no behaviour to state.
- The console diagnostics (`System.out.println`): output only.
- `registerNonDefaultConstructor` and `registerSubstitution`: these are bookkeeping for the recorder's native-image serialization. They do not affect which calls are recorded.
- The bean container argument of `recorder.schedule` and the runtime replay of the recorded calls: both belong to Quarkus and JobRunr at run time. The model keeps only the sequence of recorded calls.
- The internals of `CronExpression.create`, `ZoneId.of` and `ZoneId.systemDefault`: these are library calls. They are parameters of the model, and their exceptions are not told apart beyond "cron rejected" and "zone rejected".
- `ZoneId.systemDefault()` is assumed not to throw. In Java it throws `DateTimeException` when the host's default zone id is invalid. It runs at build time, inside the recording build step (`JobRunrExtensionProcessor.java` line 84), so the recorded zone is the build host's default; the model takes that zone as the `systemDefault` field of `Environment`.
- The Jandex index query itself (`getAnnotations` for the `@Recurring` name): the model takes its result, the annotation instances in enumeration order, as input.
- The unused `CombinedIndexBuildItem` argument of `produce`.
- `BeanSelection.Produce`: the build item's set of bean class names is stated as the names of the four selected classes. That the four names are distinct, and so that exactly four beans are registered, is not stated: it rests on the eight class-name literals being pairwise distinct, which the model does not prove.
