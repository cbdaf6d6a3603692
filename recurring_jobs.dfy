/** The build step that finds every `@Recurring` annotation in the Jandex index
    and records one `JobRunrRecorder.schedule` call per annotated method. */
module RecurringJobs {
  import opened Wrappers

  const RecurringAnnotationName := "org.jobrunr.quarkus.annotations.Recurring"
  const ParametersNotAllowedMessage :=
    "Methods annotated with " + RecurringAnnotationName + " can not have parameters."

  /** Jandex's `AnnotationTarget.Kind`. */
  datatype TargetKind = Class | Field | Method | MethodParameter | Type

  /** One `@Recurring` annotation instance from the index. The last three fields
      describe the target through `target().asMethod()` and are read only when
      the target kind is `Method`. */
  datatype Annotation = Annotation(
    targetKind: TargetKind,
    id: Option<string>,          // value("id"), absent when null
    cron: string,                // value("cron"), a required attribute
    zoneId: Option<string>,      // value("zoneId"), absent when null
    declaringClass: string,      // declaringClass().name().toString()
    methodName: string,          // name()
    parameters: seq<string>      // parameters(), one type name per parameter
  )

  /** A job argument; the jobs built here never carry any. */
  datatype JobParameter = JobParameter(className: string, value: string)

  /** JobRunr's `JobDetails`: the class, an optional static field, the method and its arguments. */
  datatype JobDetails = JobDetails(
    className: string,
    staticFieldName: Option<string>,
    methodName: string,
    jobParameters: seq<JobParameter>
  )

  /** A parsed cron expression, remembering the text it was created from. */
  datatype CronExpression = CronExpression(expression: string)

  /** A resolved time zone. */
  datatype ZoneId = ZoneId(id: string)

  /** The library calls the scan depends on but that are not modelled:
      `CronExpression.create`, `ZoneId.of` (each `None` where the call throws)
      and the host's `ZoneId.systemDefault()`. */
  datatype Environment = Environment(
    createCron: string -> Option<CronExpression>,
    zoneOf: string -> Option<ZoneId>,
    systemDefault: ZoneId
  )

  /** The arguments of one `recorder.schedule(container, id, jobDetails, cron, zoneId)` call. */
  datatype ScheduleCall = ScheduleCall(
    id: Option<string>,
    jobDetails: JobDetails,
    cron: CronExpression,
    zoneId: ZoneId
  )

  /** `getId`: the `id` attribute, or null when the annotation has none. */
  function GetId(a: Annotation): (r: Option<string>)
    ensures r.None? <==> a.id.None?
    ensures r.Some? ==> r.value == a.id.value
  {
    if a.id.Some? then Some(a.id.value) else None
  }

  /** `getJobDetails`: a method with parameters is refused; otherwise the job
      calls the method by class and name, with no static field and no arguments. */
  function GetJobDetails(a: Annotation): (r: Result<JobDetails, Exception>)
    ensures r.Failure? <==> |a.parameters| != 0
    ensures r.Failure? ==> r.error == IllegalStateException(ParametersNotAllowedMessage)
    ensures r.Success? ==>
      && r.value.className == a.declaringClass
      && r.value.staticFieldName.None?
      && r.value.methodName == a.methodName
      && r.value.jobParameters == []
  {
    if |a.parameters| != 0 then Failure(IllegalStateException(ParametersNotAllowedMessage))
    else Success(JobDetails(a.declaringClass, None, a.methodName, []))
  }

  /** `getCronExpression`: the `cron` attribute handed to `CronExpression.create`. */
  function GetCronExpression(a: Annotation, env: Environment): (r: Result<CronExpression, Exception>)
    ensures r.Failure? <==> env.createCron(a.cron).None?
    ensures r.Failure? ==> r.error == InvalidCronExpression(a.cron)
    ensures r.Success? ==> r.value == env.createCron(a.cron).value
  {
    match env.createCron(a.cron)
    case Some(c) => Success(c)
    case None => Failure(InvalidCronExpression(a.cron))
  }

  /** `getZoneId`: `ZoneId.of` of the `zoneId` attribute when there is one, and
      the system default zone otherwise (which never fails). */
  function GetZoneId(a: Annotation, env: Environment): (r: Result<ZoneId, Exception>)
    ensures a.zoneId.None? ==> r == Success(env.systemDefault)
    ensures a.zoneId.Some? ==> (r.Failure? <==> env.zoneOf(a.zoneId.value).None?)
    ensures a.zoneId.Some? && r.Success? ==> r.value == env.zoneOf(a.zoneId.value).value
    ensures r.Failure? ==> a.zoneId.Some? && r.error == InvalidZoneId(a.zoneId.value)
  {
    match a.zoneId
    case None => Success(env.systemDefault)
    case Some(z) =>
      match env.zoneOf(z)
      case Some(zone) => Success(zone)
      case None => Failure(InvalidZoneId(z))
  }

  /** The four lookups of one method-targeted annotation, in the source's order
      (id, job details, cron, zone): the first one that throws decides the
      exception; when none throws they give the arguments of the schedule call. */
  function ScheduleCallFor(a: Annotation, env: Environment): (r: Result<ScheduleCall, Exception>)
    ensures |a.parameters| != 0 ==>
      r == Failure(IllegalStateException(ParametersNotAllowedMessage))
    ensures |a.parameters| == 0 && env.createCron(a.cron).None? ==>
      r == Failure(InvalidCronExpression(a.cron))
    ensures (|a.parameters| == 0 && env.createCron(a.cron).Some? && a.zoneId.Some?
             && env.zoneOf(a.zoneId.value).None?) ==>
      r == Failure(InvalidZoneId(a.zoneId.value))
    ensures r.Success? <==>
      && |a.parameters| == 0
      && env.createCron(a.cron).Some?
      && (a.zoneId.Some? ==> env.zoneOf(a.zoneId.value).Some?)
    ensures r.Success? ==> r.value == ScheduleCall(
      a.id,
      JobDetails(a.declaringClass, None, a.methodName, []),
      env.createCron(a.cron).value,
      if a.zoneId.Some? then env.zoneOf(a.zoneId.value).value else env.systemDefault)
  {
    var id := GetId(a);
    match GetJobDetails(a)
    case Failure(e) => Failure(e)
    case Success(details) =>
      match GetCronExpression(a, env)
      case Failure(e) => Failure(e)
      case Success(cron) =>
        match GetZoneId(a, env)
        case Failure(e) => Failure(e)
        case Success(zone) => Success(ScheduleCall(id, details, cron, zone))
  }

  /** What the whole scan does: the schedule calls it records, in order, and the
      exception it ends with, if any. */
  datatype ScanOutcome = ScanOutcome(calls: seq<ScheduleCall>, thrown: Option<Exception>)

  /** The scan as a function of the annotations: a non-method target is passed
      over; a method target either adds its call in front of the rest or throws,
      which ends the scan with the calls made so far. */
  function Scan(annotations: seq<Annotation>, env: Environment): (outcome: ScanOutcome)
  {
    if |annotations| == 0 then ScanOutcome([], None)
    else if annotations[0].targetKind != Method then Scan(annotations[1..], env)
    else match ScheduleCallFor(annotations[0], env)
      case Failure(e) => ScanOutcome([], Some(e))
      case Success(call) =>
        var rest := Scan(annotations[1..], env);
        ScanOutcome([call] + rest.calls, rest.thrown)
  }

  /** The annotations the scan acts on: those whose target is a method, in index order. */
  function MethodTargeted(annotations: seq<Annotation>): (r: seq<Annotation>)
    ensures |r| <= |annotations|
    ensures forall a | a in r :: a in annotations && a.targetKind == Method
    ensures forall a | a in annotations && a.targetKind == Method :: a in r
  {
    if |annotations| == 0 then []
    else if annotations[0].targetKind != Method then MethodTargeted(annotations[1..])
    else [annotations[0]] + MethodTargeted(annotations[1..])
  }

  /** Filtering keeps every method-targeted annotation as often as the index
      holds it, and no other annotation. */
  lemma {:induction false} MethodTargetedCounts(annotations: seq<Annotation>)
    ensures forall a :: multiset(MethodTargeted(annotations))[a] ==
                        (if a.targetKind == Method then multiset(annotations)[a] else 0)
  {
    if |annotations| > 0 {
      MethodTargetedCounts(annotations[1..]);
      assert annotations == [annotations[0]] + annotations[1..];
    }
  }

  /** Filtering keeps index order: it distributes over concatenation. */
  lemma {:induction false} MethodTargetedAppend(xs: seq<Annotation>, ys: seq<Annotation>)
    ensures MethodTargeted(xs + ys) == MethodTargeted(xs) + MethodTargeted(ys)
  {
    if |xs| == 0 {
      assert xs + ys == ys;
    } else {
      assert (xs + ys)[0] == xs[0] && (xs + ys)[1..] == xs[1..] + ys;
      MethodTargetedAppend(xs[1..], ys);
    }
  }

  /** Non-method targets are skipped: the scan behaves as if they were not there. */
  lemma {:induction false} ScanIgnoresNonMethodTargets(annotations: seq<Annotation>, env: Environment)
    ensures Scan(annotations, env) == Scan(MethodTargeted(annotations), env)
  {
    if |annotations| > 0 {
      ScanIgnoresNonMethodTargets(annotations[1..], env);
      if annotations[0].targetKind == Method {
        var m := MethodTargeted(annotations);
        assert m[0] == annotations[0] && m[1..] == MethodTargeted(annotations[1..]);
      }
    }
  }

  /** Scanning a concatenation: the second part is scanned only when the first
      did not throw, and its calls come after the first part's. */
  lemma {:induction false} ScanAppend(xs: seq<Annotation>, ys: seq<Annotation>, env: Environment)
    ensures Scan(xs + ys, env) ==
      var first := Scan(xs, env);
      if first.thrown.Some? then first
      else ScanOutcome(first.calls + Scan(ys, env).calls, Scan(ys, env).thrown)
  {
    if |xs| == 0 {
      assert xs + ys == ys;
    } else {
      assert (xs + ys)[0] == xs[0];
      assert (xs + ys)[1..] == xs[1..] + ys;
      ScanAppend(xs[1..], ys, env);
    }
  }

  /** Every method-targeted annotation passes its four lookups. */
  predicate AllSchedulable(annotations: seq<Annotation>, env: Environment) {
    forall a | a in annotations && a.targetKind == Method :: ScheduleCallFor(a, env).Success?
  }

  /** The scan throws exactly when some method-targeted annotation fails its lookups. */
  lemma {:induction false} ScanThrowsIffSomeTargetFails(annotations: seq<Annotation>, env: Environment)
    ensures Scan(annotations, env).thrown.None? <==> AllSchedulable(annotations, env)
  {
    if |annotations| > 0 {
      var rest := annotations[1..];
      ScanThrowsIffSomeTargetFails(rest, env);
      assert annotations == [annotations[0]] + rest;
      assert AllSchedulable(annotations, env) <==>
        (annotations[0].targetKind == Method ==> ScheduleCallFor(annotations[0], env).Success?)
        && AllSchedulable(rest, env);
    }
  }

  /** When nothing fails, the scan records one call per method-targeted
      annotation, in index order: the j-th call is the j-th such annotation's. */
  lemma {:induction false} ScanRecordsEveryMethodTarget(annotations: seq<Annotation>, env: Environment)
    requires AllSchedulable(annotations, env)
    ensures Scan(annotations, env).thrown.None?
    ensures |Scan(annotations, env).calls| == |MethodTargeted(annotations)|
    ensures forall j | 0 <= j < |MethodTargeted(annotations)| ::
      ScheduleCallFor(MethodTargeted(annotations)[j], env) == Success(Scan(annotations, env).calls[j])
  {
    if |annotations| > 0 {
      var rest := annotations[1..];
      assert forall a | a in rest :: a in annotations;
      ScanRecordsEveryMethodTarget(rest, env);
      if annotations[0].targetKind == Method {
        var methods, calls := MethodTargeted(annotations), Scan(annotations, env).calls;
        var call := ScheduleCallFor(annotations[0], env).value;
        assert methods == [annotations[0]] + MethodTargeted(rest);
        assert calls == [call] + Scan(rest, env).calls;
        forall j | 0 <= j < |methods|
          ensures ScheduleCallFor(methods[j], env) == Success(calls[j])
        {
          if j > 0 {
            assert methods[j] == MethodTargeted(rest)[j - 1];
            assert calls[j] == Scan(rest, env).calls[j - 1];
          }
        }
      }
    }
  }

  /** A failure on the k-th annotation keeps the calls recorded for the
      annotations before it, and no call is recorded for any annotation after it. */
  lemma ScanStopsAtFirstFailure(annotations: seq<Annotation>, env: Environment, k: nat)
    requires k < |annotations|
    requires annotations[k].targetKind == Method
    requires ScheduleCallFor(annotations[k], env).Failure?
    requires forall j | 0 <= j < k && annotations[j].targetKind == Method ::
      ScheduleCallFor(annotations[j], env).Success?
    ensures Scan(annotations[..k], env).thrown.None?
    ensures Scan(annotations, env) ==
      ScanOutcome(Scan(annotations[..k], env).calls, Some(ScheduleCallFor(annotations[k], env).error))
  {
    var before, after := annotations[..k], annotations[k..];
    assert annotations == before + after;
    forall a | a in before && a.targetKind == Method ensures ScheduleCallFor(a, env).Success? {
      var j :| 0 <= j < k && before[j] == a;
    }
    ScanThrowsIffSomeTargetFails(before, env);
    ScanAppend(before, after, env);
    assert after[0] == annotations[k];
  }

  /** Whether or not the scan throws, every recorded call is the call of some
      method-targeted annotation, and there are at most as many as those. */
  lemma {:induction false} ScanCallsComeFromMethodTargets(annotations: seq<Annotation>, env: Environment)
    ensures |Scan(annotations, env).calls| <= |MethodTargeted(annotations)|
    ensures forall c | c in Scan(annotations, env).calls ::
      exists a | a in annotations :: a.targetKind == Method && ScheduleCallFor(a, env) == Success(c)
  {
    if |annotations| > 0 {
      var rest := annotations[1..];
      ScanCallsComeFromMethodTargets(rest, env);
      assert forall a | a in rest :: a in annotations;
    }
  }

  /** Nothing is deduplicated: two annotations with the same id both get scheduled. */
  lemma DuplicateIdsAreBothScheduled(a: Annotation, b: Annotation, env: Environment)
    requires a.targetKind == Method && b.targetKind == Method
    requires ScheduleCallFor(a, env).Success? && ScheduleCallFor(b, env).Success?
    requires a.id == b.id
    ensures |Scan([a, b], env).calls| == 2
    ensures Scan([a, b], env).calls[0].id == Scan([a, b], env).calls[1].id == a.id
  {
    assert [a, b][1..] == [b];
    assert [b][1..] == [];
    assert Scan([b], env) == ScanOutcome([ScheduleCallFor(b, env).value], None);
  }

  /** The runtime recorder: `schedule` calls are recorded, not run, at build time. */
  class JobRunrRecorder {
    var calls: seq<ScheduleCall>

    constructor ()
      ensures calls == []
    {
      calls := [];
    }

    method Schedule(id: Option<string>, jobDetails: JobDetails, cron: CronExpression, zoneId: ZoneId)
      modifies this
      ensures calls == old(calls) + [ScheduleCall(id, jobDetails, cron, zoneId)]
    {
      calls := calls + [ScheduleCall(id, jobDetails, cron, zoneId)];
    }
  }

  /** `findRecurringJobAnnotationsAndScheduleThem`: walks the `@Recurring`
      annotations in index order and records a schedule call for each
      method-targeted one; the first exception ends the walk and is returned,
      with the calls already recorded left in place. */
  method FindRecurringJobAnnotationsAndScheduleThem(
    annotations: seq<Annotation>, env: Environment, recorder: JobRunrRecorder)
    returns (thrown: Option<Exception>)
    modifies recorder
    ensures recorder.calls == old(recorder.calls) + Scan(annotations, env).calls
    ensures thrown == Scan(annotations, env).thrown
  {
    ghost var recorded: seq<ScheduleCall> := [];
    var i := 0;
    while i < |annotations|
      invariant 0 <= i <= |annotations|
      invariant recorder.calls == old(recorder.calls) + recorded
      invariant Scan(annotations, env) ==
        ScanOutcome(recorded + Scan(annotations[i..], env).calls, Scan(annotations[i..], env).thrown)
    {
      var annotation := annotations[i];
      assert annotations[i..][0] == annotation && annotations[i..][1..] == annotations[i + 1..];
      if annotation.targetKind == Method {
        var id := GetId(annotation);
        var jobDetails := GetJobDetails(annotation);
        if jobDetails.Failure? {
          return Some(jobDetails.error);
        }
        var cron := GetCronExpression(annotation, env);
        if cron.Failure? {
          return Some(cron.error);
        }
        var zoneId := GetZoneId(annotation, env);
        if zoneId.Failure? {
          return Some(zoneId.error);
        }
        recorder.Schedule(id, jobDetails.value, cron.value, zoneId.value);
        recorded := recorded + [ScheduleCall(id, jobDetails.value, cron.value, zoneId.value)];
      }
      i := i + 1;
    }
    assert annotations[i..] == [];
    thrown := None;
  }
}
