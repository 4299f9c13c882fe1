/**
 * What `extractRequiredData` promises about the record it builds: when it throws, where each
 * field comes from, which defaults apply, and that actions of other classes never matter.
 * The facts are stated on the fields of `BuildRecord`; `RecordObject` puts each field under the
 * key of the same name (`queueClass` under `_class`, `buildDataClass` under `_class_buildData`,
 * `wfapiDescribe` under `wfapi_describe`).
 */
module NormalizerFacts {
  import opened Wrappers
  import opened JsValue
  import opened Schemas
  import opened Normalizer

  /** `field` is what `source || fallback` evaluates to. */
  predicate DefaultsTo(field: Value, source: Value, fallback: Value)
  {
    (Truthy(source) ==> field == source) && (!Truthy(source) ==> field == fallback)
  }

  /** `data.actions` holds no action of class `tag` (or is not an array). */
  ghost predicate NoActionOf(data: Value, tag: string)
  {
    var actions := Get(data, "actions");
    actions.Arr? ==> forall j | 0 <= j < |actions.elems| :: !Matches(actions.elems[j], tag)
  }

  /** Position `i` of `data.actions` holds the first action of class `tag`. */
  ghost predicate FirstActionAt(data: Value, tag: string, i: nat)
  {
    var actions := Get(data, "actions");
    actions.Arr? && i < |actions.elems| && ClearBefore(actions.elems, tag, i) && Matches(actions.elems[i], tag)
  }

  // ---------------------------------------------------------------------------------------------
  // When the normalizer throws.

  /** When `data.actions?.find(...)` throws: `actions` is neither nullish nor an array, or the callback reaches a nullish action. */
  ghost predicate LookupThrows(data: Value, tag: string)
  {
    var actions := Get(data, "actions");
    && !IsNullish(actions)
    && (!actions.Arr? || exists i | 0 <= i < |actions.elems| :: ClearBefore(actions.elems, tag, i) && IsNullish(actions.elems[i]))
  }

  /** The normalizer throws exactly when `data` or `wfapi` is nullish or one of the two lookups throws. */
  lemma ExtractFailsExactly(data: Value, wfapi: Value)
    ensures ExtractRequiredData(data, wfapi).Err? <==>
              IsNullish(data) || IsNullish(wfapi) || LookupThrows(data, QueueActionClass) || LookupThrows(data, BuildDataClass)
  {
    var actions := Get(data, "actions");
    if actions.Arr? {
      FindFirstThrows(actions.elems, QueueActionClass);
      FindFirstThrows(actions.elems, BuildDataClass);
    }
  }

  /** A lookup that finds nothing, in a record that was built, yields `undefined`. */
  lemma NothingFound(data: Value, wfapi: Value, tag: string)
    requires Normalize(data, wfapi).Ok? && NoActionOf(data, tag)
    requires tag == QueueActionClass || tag == BuildDataClass
    ensures FindAction(data, tag) == Ok(Undefined)
  {
    var actions := Get(data, "actions");
    if actions.Arr? && !FindFirst(actions.elems, tag).value.Undefined? {
      FindFirstFound(actions.elems, tag);
    }
  }

  // ---------------------------------------------------------------------------------------------
  // The queue metrics.

  /** Each queue metric is that field of the first `TimeInQueueAction` when it is truthy, and 0 otherwise. */
  lemma QueueMetricsFromFirstAction(data: Value, wfapi: Value, i: nat)
    requires Normalize(data, wfapi).Ok? && FirstActionAt(data, QueueActionClass, i)
    ensures var record := Normalize(data, wfapi).value;
            var action := Get(data, "actions").elems[i];
            && DefaultsTo(record.blockedDurationMillis, Get(action, "blockedDurationMillis"), Num(0.0))
            && DefaultsTo(record.blockedTimeMillis, Get(action, "blockedTimeMillis"), Num(0.0))
            && DefaultsTo(record.buildableDurationMillis, Get(action, "buildableDurationMillis"), Num(0.0))
            && DefaultsTo(record.buildableTimeMillis, Get(action, "buildableTimeMillis"), Num(0.0))
            && DefaultsTo(record.buildingDurationMillis, Get(action, "buildingDurationMillis"), Num(0.0))
            && DefaultsTo(record.executingTimeMillis, Get(action, "executingTimeMillis"), Num(0.0))
            && DefaultsTo(record.executorUtilization, Get(action, "executorUtilization"), Num(0.0))
            && DefaultsTo(record.subTaskCount, Get(action, "subTaskCount"), Num(0.0))
            && DefaultsTo(record.waitingDurationMillis, Get(action, "waitingDurationMillis"), Num(0.0))
            && DefaultsTo(record.waitingTimeMillis, Get(action, "waitingTimeMillis"), Num(0.0))
  {
    FindFirstMatch(Get(data, "actions").elems, QueueActionClass, i);
  }

  /** Without a `TimeInQueueAction`, or without `actions`, every queue metric is 0. */
  lemma QueueMetricsDefault(data: Value, wfapi: Value)
    requires Normalize(data, wfapi).Ok? && NoActionOf(data, QueueActionClass)
    ensures var record := Normalize(data, wfapi).value;
            && record.blockedDurationMillis == Num(0.0)
            && record.blockedTimeMillis == Num(0.0)
            && record.buildableDurationMillis == Num(0.0)
            && record.buildableTimeMillis == Num(0.0)
            && record.buildingDurationMillis == Num(0.0)
            && record.executingTimeMillis == Num(0.0)
            && record.executorUtilization == Num(0.0)
            && record.subTaskCount == Num(0.0)
            && record.waitingDurationMillis == Num(0.0)
            && record.waitingTimeMillis == Num(0.0)
  {
    NothingFound(data, wfapi, QueueActionClass);
  }

  // ---------------------------------------------------------------------------------------------
  // The Git build data.

  /** The four Git fields come from the first `BuildData` action when truthy, and default to `{}`, `{}`, `[]` and `""`. */
  lemma BuildDataFromFirstAction(data: Value, wfapi: Value, i: nat)
    requires Normalize(data, wfapi).Ok? && FirstActionAt(data, BuildDataClass, i)
    ensures var record := Normalize(data, wfapi).value;
            var action := Get(data, "actions").elems[i];
            && DefaultsTo(record.buildsByBranchName, Get(action, "buildsByBranchName"), EmptyObject)
            && DefaultsTo(record.lastBuiltRevision, Get(action, "lastBuiltRevision"), EmptyObject)
            && DefaultsTo(record.remoteUrls, Get(action, "remoteUrls"), EmptyArray)
            && DefaultsTo(record.scmName, Get(action, "scmName"), Str(""))
  {
    FindFirstMatch(Get(data, "actions").elems, BuildDataClass, i);
  }

  /** Without a `BuildData` action the four Git fields take their defaults. */
  lemma BuildDataDefaults(data: Value, wfapi: Value)
    requires Normalize(data, wfapi).Ok? && NoActionOf(data, BuildDataClass)
    ensures var record := Normalize(data, wfapi).value;
            && record.buildsByBranchName == EmptyObject && record.lastBuiltRevision == EmptyObject
            && record.remoteUrls == EmptyArray && record.scmName == Str("")
  {
    NothingFound(data, wfapi, BuildDataClass);
  }

  /** `data` with `other` inserted into its `actions` array at position `p`. */
  function InsertAction(data: Value, p: nat, other: Value): (r: Value)
    requires Get(data, "actions").Arr? && p <= |Get(data, "actions").elems|
    ensures Get(r, "actions").Arr? && |Get(r, "actions").elems| == |Get(data, "actions").elems| + 1
    ensures Get(r, "actions").elems[p] == other
  {
    var actions := Get(data, "actions").elems;
    Obj(data.keys, data.props["actions" := Arr(actions[..p] + [other] + actions[p..])])
  }

  /** The record reads `data` only through keys other than `actions`. */
  lemma AssembleReadsOtherKeys(data: Value, copy: Value, queue: Value, buildData: Value, wfapi: Value)
    requires forall k | k != "actions" :: Get(copy, k) == Get(data, k)
    ensures Assemble(copy, queue, buildData, wfapi) == Assemble(data, queue, buildData, wfapi)
  {
  }

  /** `Normalize` reads `data` only through its two lookups and its other keys. */
  lemma NormalizeReadsLookups(data: Value, copy: Value, wfapi: Value)
    requires !IsNullish(data) && !IsNullish(copy)
    requires FindAction(copy, QueueActionClass) == FindAction(data, QueueActionClass)
    requires FindAction(copy, BuildDataClass) == FindAction(data, BuildDataClass)
    requires forall k | k != "actions" :: Get(copy, k) == Get(data, k)
    ensures Normalize(copy, wfapi) == Normalize(data, wfapi)
  {
    var queue := FindAction(data, QueueActionClass);
    var buildData := FindAction(data, BuildDataClass);
    if queue.Ok? && buildData.Ok? {
      AssembleReadsOtherKeys(data, copy, queue.value, buildData.value, wfapi);
    }
  }

  /** Inserting an action that is neither nullish nor of class `tag` leaves that lookup unchanged. */
  lemma FindActionSkipsOther(data: Value, tag: string, p: nat, other: Value)
    requires Get(data, "actions").Arr? && p <= |Get(data, "actions").elems|
    requires !IsNullish(other) && !Matches(other, tag)
    ensures FindAction(InsertAction(data, p, other), tag) == FindAction(data, tag)
  {
    FindFirstSkipsOther(Get(data, "actions").elems, tag, p, other);
  }

  /** Inserting an action changes no key but `actions`. */
  lemma InsertKeepsOtherKeys(data: Value, p: nat, other: Value)
    requires Get(data, "actions").Arr? && p <= |Get(data, "actions").elems|
    ensures forall k | k != "actions" :: Get(InsertAction(data, p, other), k) == Get(data, k)
  {
  }

  /** An action of any other class, inserted anywhere, never changes the outcome. */
  lemma OtherActionsIgnored(data: Value, wfapi: Value, p: nat, other: Value)
    requires Get(data, "actions").Arr? && p <= |Get(data, "actions").elems|
    requires !IsNullish(other) && !Matches(other, QueueActionClass) && !Matches(other, BuildDataClass)
    ensures Normalize(InsertAction(data, p, other), wfapi) == Normalize(data, wfapi)
  {
    FindActionSkipsOther(data, QueueActionClass, p, other);
    FindActionSkipsOther(data, BuildDataClass, p, other);
    InsertKeepsOtherKeys(data, p, other);
    NormalizeReadsLookups(data, InsertAction(data, p, other), wfapi);
  }

  // ---------------------------------------------------------------------------------------------
  // The other fields.

  // The next four lemmas read the record literal field by field and need no proof steps: they
  // are the defaults and verbatim copies of server.js stated for the reader.

  /** The class tags are constants, whatever the input. */
  lemma ConstantTags(data: Value, wfapi: Value)
    requires Normalize(data, wfapi).Ok?
    ensures Normalize(data, wfapi).value.queueClass == Str(QueueActionClass)
    ensures Normalize(data, wfapi).value.buildDataClass == Str(BuildDataClass)
  {
  }

  /** The identity and lifecycle fields are copied from `data` with no default. */
  lemma CopiedVerbatim(data: Value, wfapi: Value)
    requires Normalize(data, wfapi).Ok?
    ensures var record := Normalize(data, wfapi).value;
            && record.building == Get(data, "building")
            && record.description == Get(data, "description")
            && record.displayName == Get(data, "displayName")
            && record.duration == Get(data, "duration")
            && record.estimatedDuration == Get(data, "estimatedDuration")
            && record.fullDisplayName == Get(data, "fullDisplayName")
            && record.id == Get(data, "id")
            && record.keepLog == Get(data, "keepLog")
            && record.number == Get(data, "number")
            && record.queueId == Get(data, "queueId")
            && record.result == Get(data, "result")
            && record.timestamp == Get(data, "timestamp")
            && record.url == Get(data, "url")
  {
  }

  /** `artifacts`, `changeSets` and `culprits` default to `[]`, and `executor` to `{}`. */
  lemma CollectionsDefault(data: Value, wfapi: Value)
    requires Normalize(data, wfapi).Ok?
    ensures var record := Normalize(data, wfapi).value;
            && DefaultsTo(record.artifacts, Get(data, "artifacts"), EmptyArray)
            && DefaultsTo(record.changeSets, Get(data, "changeSets"), EmptyArray)
            && DefaultsTo(record.culprits, Get(data, "culprits"), EmptyArray)
            && DefaultsTo(record.executor, Get(data, "executor"), EmptyObject)
  {
  }

  /** `wfapi_describe` copies eight fields of `wfapi` and defaults `stages` to `[]`. */
  lemma RunDescribed(data: Value, wfapi: Value)
    requires Normalize(data, wfapi).Ok?
    ensures Normalize(data, wfapi).value.wfapiDescribe == RunObject(Describe(wfapi))
    ensures var run := Describe(wfapi);
            && run.id == Get(wfapi, "id") && run.name == Get(wfapi, "name") && run.status == Get(wfapi, "status")
            && run.startTimeMillis == Get(wfapi, "startTimeMillis") && run.endTimeMillis == Get(wfapi, "endTimeMillis")
            && run.durationMillis == Get(wfapi, "durationMillis")
            && run.queueDurationMillis == Get(wfapi, "queueDurationMillis")
            && run.pauseDurationMillis == Get(wfapi, "pauseDurationMillis")
            && DefaultsTo(run.stages, Get(wfapi, "stages"), EmptyArray)
  {
  }

  // ---------------------------------------------------------------------------------------------
  // The output is a proper object, so validating it means what `Joi.Accepts` says.

  /** The fields the normalizer takes from the two actions are well-formed values. */
  ghost predicate ActionFieldsWellFormed(r: BuildRecord)
  {
    && WellFormed(r.queueClass) && WellFormed(r.blockedDurationMillis) && WellFormed(r.blockedTimeMillis) && WellFormed(r.buildableDurationMillis)
    && WellFormed(r.buildableTimeMillis) && WellFormed(r.buildingDurationMillis) && WellFormed(r.executingTimeMillis) && WellFormed(r.executorUtilization)
    && WellFormed(r.subTaskCount) && WellFormed(r.waitingDurationMillis) && WellFormed(r.waitingTimeMillis) && WellFormed(r.buildDataClass)
    && WellFormed(r.buildsByBranchName) && WellFormed(r.lastBuiltRevision) && WellFormed(r.remoteUrls) && WellFormed(r.scmName)
  }

  /** The fields the normalizer takes from `data` and `wfapi` are well-formed values. */
  ghost predicate SourceFieldsWellFormed(r: BuildRecord)
  {
    && WellFormed(r.artifacts) && WellFormed(r.building) && WellFormed(r.description) && WellFormed(r.displayName)
    && WellFormed(r.duration) && WellFormed(r.estimatedDuration) && WellFormed(r.executor) && WellFormed(r.fullDisplayName)
    && WellFormed(r.id) && WellFormed(r.keepLog) && WellFormed(r.number) && WellFormed(r.queueId)
    && WellFormed(r.result) && WellFormed(r.timestamp) && WellFormed(r.url) && WellFormed(r.changeSets)
    && WellFormed(r.culprits) && WellFormed(r.wfapiDescribe)
  }

  /** Every field of the record is a well-formed value. */
  ghost predicate FieldsWellFormed(r: BuildRecord)
  {
    ActionFieldsWellFormed(r) && SourceFieldsWellFormed(r)
  }

  lemma RecordKeysListed(r: BuildRecord)
    ensures forall k :: k in RecordObject(r).keys <==> k in RecordObject(r).props
  {
  }

  lemma RecordPropsWellFormed(r: BuildRecord)
    requires FieldsWellFormed(r)
    ensures forall k | k in RecordObject(r).props :: WellFormed(RecordObject(r).props[k])
  {
  }

  /** A record of well-formed fields is laid out as a well-formed object. */
  lemma RecordObjectWellFormed(r: BuildRecord)
    requires FieldsWellFormed(r)
    ensures WellFormed(RecordObject(r))
  {
    RecordKeysListed(r);
    RecordPropsWellFormed(r);
    var o := RecordObject(r);
    assert forall k :: k in o.keys <==> k in o.props;
    assert forall k | k in o.props :: WellFormed(o.props[k]);
  }

  /** Every field of the run description is a well-formed value. */
  ghost predicate RunFieldsWellFormed(r: RunRecord)
  {
    && WellFormed(r.id) && WellFormed(r.name) && WellFormed(r.status) && WellFormed(r.startTimeMillis)
    && WellFormed(r.endTimeMillis) && WellFormed(r.durationMillis) && WellFormed(r.queueDurationMillis) && WellFormed(r.pauseDurationMillis)
    && WellFormed(r.stages)
  }

  lemma RunKeysListed(r: RunRecord)
    ensures forall k :: k in RunObject(r).keys <==> k in RunObject(r).props
  {
  }

  lemma RunPropsWellFormed(r: RunRecord)
    requires RunFieldsWellFormed(r)
    ensures forall k | k in RunObject(r).props :: WellFormed(RunObject(r).props[k])
  {
  }

  /** A run description of well-formed fields is laid out as a well-formed object. */
  lemma RunObjectWellFormed(r: RunRecord)
    requires RunFieldsWellFormed(r)
    ensures WellFormed(RunObject(r))
  {
    RunKeysListed(r);
    RunPropsWellFormed(r);
    var o := RunObject(r);
    assert forall k :: k in o.keys <==> k in o.props;
    assert forall k | k in o.props :: WellFormed(o.props[k]);
  }

  /** A property of a well-formed value is well formed. */
  lemma GetWellFormed(v: Value, key: string)
    requires WellFormed(v)
    ensures WellFormed(Get(v, key))
  {
  }

  /** `v.key || fallback` of well-formed values is well formed. */
  lemma OrWellFormed(v: Value, key: string, fallback: Value)
    requires WellFormed(v) && WellFormed(fallback)
    ensures WellFormed(Or(Get(v, key), fallback))
  {
  }

  /** A queue metric of a well-formed action is well formed. */
  lemma MetricWellFormed(action: Value, key: string)
    requires WellFormed(action)
    ensures WellFormed(Metric(action, key))
  {
  }

  /** The action a lookup finds in a well-formed `data` is well formed. */
  lemma FoundWellFormed(data: Value, tag: string)
    requires WellFormed(data) && FindAction(data, tag).Ok?
    ensures WellFormed(FindAction(data, tag).value)
  {
    var actions := Get(data, "actions");
    GetWellFormed(data, "actions");
    if actions.Arr? && !FindFirst(actions.elems, tag).value.Undefined? {
      FindFirstFound(actions.elems, tag);
    }
  }

  /** The run description of a well-formed `wfapi` is a well-formed object. */
  lemma DescribeWellFormed(wfapi: Value)
    requires WellFormed(wfapi)
    ensures WellFormed(RunObject(Describe(wfapi)))
  {
    GetWellFormed(wfapi, "id");
    GetWellFormed(wfapi, "name");
    GetWellFormed(wfapi, "status");
    GetWellFormed(wfapi, "startTimeMillis");
    GetWellFormed(wfapi, "endTimeMillis");
    GetWellFormed(wfapi, "durationMillis");
    GetWellFormed(wfapi, "queueDurationMillis");
    GetWellFormed(wfapi, "pauseDurationMillis");
    OrWellFormed(wfapi, "stages", EmptyArray);
    RunObjectWellFormed(Describe(wfapi));
  }

  lemma ActionFieldsAssembled(data: Value, queue: Value, buildData: Value, wfapi: Value)
    requires WellFormed(queue) && WellFormed(buildData)
    ensures ActionFieldsWellFormed(Assemble(data, queue, buildData, wfapi))
  {
    var r := Assemble(data, queue, buildData, wfapi);
    assert WellFormed(r.blockedDurationMillis) by { MetricWellFormed(queue, "blockedDurationMillis"); }
    assert WellFormed(r.blockedTimeMillis) by { MetricWellFormed(queue, "blockedTimeMillis"); }
    assert WellFormed(r.buildableDurationMillis) by { MetricWellFormed(queue, "buildableDurationMillis"); }
    assert WellFormed(r.buildableTimeMillis) by { MetricWellFormed(queue, "buildableTimeMillis"); }
    assert WellFormed(r.buildingDurationMillis) by { MetricWellFormed(queue, "buildingDurationMillis"); }
    assert WellFormed(r.executingTimeMillis) by { MetricWellFormed(queue, "executingTimeMillis"); }
    assert WellFormed(r.executorUtilization) by { MetricWellFormed(queue, "executorUtilization"); }
    assert WellFormed(r.subTaskCount) by { MetricWellFormed(queue, "subTaskCount"); }
    assert WellFormed(r.waitingDurationMillis) by { MetricWellFormed(queue, "waitingDurationMillis"); }
    assert WellFormed(r.waitingTimeMillis) by { MetricWellFormed(queue, "waitingTimeMillis"); }
    assert WellFormed(r.buildsByBranchName) by { OrWellFormed(buildData, "buildsByBranchName", EmptyObject); }
    assert WellFormed(r.lastBuiltRevision) by { OrWellFormed(buildData, "lastBuiltRevision", EmptyObject); }
    assert WellFormed(r.remoteUrls) by { OrWellFormed(buildData, "remoteUrls", EmptyArray); }
    assert WellFormed(r.scmName) by { OrWellFormed(buildData, "scmName", Str("")); }
  }

  lemma SourceFieldsAssembled(data: Value, queue: Value, buildData: Value, wfapi: Value)
    requires WellFormed(data) && WellFormed(wfapi)
    ensures SourceFieldsWellFormed(Assemble(data, queue, buildData, wfapi))
  {
    var r := Assemble(data, queue, buildData, wfapi);
    assert WellFormed(r.artifacts) by { OrWellFormed(data, "artifacts", EmptyArray); }
    assert WellFormed(r.building) by { GetWellFormed(data, "building"); }
    assert WellFormed(r.description) by { GetWellFormed(data, "description"); }
    assert WellFormed(r.displayName) by { GetWellFormed(data, "displayName"); }
    assert WellFormed(r.duration) by { GetWellFormed(data, "duration"); }
    assert WellFormed(r.estimatedDuration) by { GetWellFormed(data, "estimatedDuration"); }
    assert WellFormed(r.executor) by { OrWellFormed(data, "executor", EmptyObject); }
    assert WellFormed(r.fullDisplayName) by { GetWellFormed(data, "fullDisplayName"); }
    assert WellFormed(r.id) by { GetWellFormed(data, "id"); }
    assert WellFormed(r.keepLog) by { GetWellFormed(data, "keepLog"); }
    assert WellFormed(r.number) by { GetWellFormed(data, "number"); }
    assert WellFormed(r.queueId) by { GetWellFormed(data, "queueId"); }
    assert WellFormed(r.result) by { GetWellFormed(data, "result"); }
    assert WellFormed(r.timestamp) by { GetWellFormed(data, "timestamp"); }
    assert WellFormed(r.url) by { GetWellFormed(data, "url"); }
    assert WellFormed(r.changeSets) by { OrWellFormed(data, "changeSets", EmptyArray); }
    assert WellFormed(r.culprits) by { OrWellFormed(data, "culprits", EmptyArray); }
    assert WellFormed(r.wfapiDescribe) by { DescribeWellFormed(wfapi); }
  }

  /** Assembling well-formed inputs gives well-formed fields. */
  lemma AssembleWellFormed(data: Value, queue: Value, buildData: Value, wfapi: Value)
    requires WellFormed(data) && WellFormed(queue) && WellFormed(buildData) && WellFormed(wfapi)
    ensures FieldsWellFormed(Assemble(data, queue, buildData, wfapi))
  {
    ActionFieldsAssembled(data, queue, buildData, wfapi);
    SourceFieldsAssembled(data, queue, buildData, wfapi);
  }

  /** Parsed JSON in, a well-formed object out. */
  lemma OutputWellFormed(data: Value, wfapi: Value)
    requires WellFormed(data) && WellFormed(wfapi) && ExtractRequiredData(data, wfapi).Ok?
    ensures WellFormed(ExtractRequiredData(data, wfapi).value)
  {
    FoundWellFormed(data, QueueActionClass);
    FoundWellFormed(data, BuildDataClass);
    AssembleWellFormed(data, FindAction(data, QueueActionClass).value, FindAction(data, BuildDataClass).value, wfapi);
    RecordObjectWellFormed(Normalize(data, wfapi).value);
  }

  // ---------------------------------------------------------------------------------------------
  // Where the object keeps the fields the schema checks most closely.

  lemma StoredLastBuiltRevision(r: BuildRecord)
    ensures Get(RecordObject(r), "lastBuiltRevision") == r.lastBuiltRevision
  {
  }

  lemma StoredExecutor(r: BuildRecord)
    ensures Get(RecordObject(r), "executor") == r.executor
  {
  }

  lemma StoredExecutorUtilization(r: BuildRecord)
    ensures Get(RecordObject(r), "executorUtilization") == r.executorUtilization
  {
  }

  lemma StoredRun(r: BuildRecord)
    ensures Get(RecordObject(r), "wfapi_describe") == r.wfapiDescribe
  {
  }

  lemma StoredStages(r: RunRecord)
    ensures Get(RunObject(r), "stages") == r.stages
  {
  }

  // Where the object keeps every other field, for any field values.

  lemma StoredClass(r: BuildRecord)
    ensures Get(RecordObject(r), "_class") == r.queueClass
  {
  }

  lemma StoredBlocked(r: BuildRecord)
    ensures var v := RecordObject(r);
            && Get(v, "blockedDurationMillis") == r.blockedDurationMillis && Get(v, "blockedTimeMillis") == r.blockedTimeMillis
  {
  }

  lemma StoredBuildable(r: BuildRecord)
    ensures var v := RecordObject(r);
            && Get(v, "buildableDurationMillis") == r.buildableDurationMillis && Get(v, "buildableTimeMillis") == r.buildableTimeMillis
  {
  }

  lemma StoredBusy(r: BuildRecord)
    ensures var v := RecordObject(r);
            && Get(v, "buildingDurationMillis") == r.buildingDurationMillis && Get(v, "executingTimeMillis") == r.executingTimeMillis
  {
  }

  lemma StoredExecuting(r: BuildRecord)
    ensures var v := RecordObject(r);
            && Get(v, "executorUtilization") == r.executorUtilization && Get(v, "subTaskCount") == r.subTaskCount
  {
  }

  lemma StoredWaiting(r: BuildRecord)
    ensures var v := RecordObject(r);
            && Get(v, "waitingDurationMillis") == r.waitingDurationMillis && Get(v, "waitingTimeMillis") == r.waitingTimeMillis
            && Get(v, "_class_buildData") == r.buildDataClass
  {
  }

  lemma StoredRevisionFields(r: BuildRecord)
    ensures var v := RecordObject(r);
            && Get(v, "buildsByBranchName") == r.buildsByBranchName && Get(v, "lastBuiltRevision") == r.lastBuiltRevision
  {
  }

  lemma StoredRemoteFields(r: BuildRecord)
    ensures var v := RecordObject(r);
            && Get(v, "remoteUrls") == r.remoteUrls && Get(v, "scmName") == r.scmName
  {
  }

  lemma StoredBuildFields(r: BuildRecord)
    ensures var v := RecordObject(r);
            && Get(v, "artifacts") == r.artifacts && Get(v, "building") == r.building
            && Get(v, "displayName") == r.displayName && Get(v, "duration") == r.duration
  {
  }

  lemma StoredJobFields(r: BuildRecord)
    ensures var v := RecordObject(r);
            && Get(v, "estimatedDuration") == r.estimatedDuration && Get(v, "executor") == r.executor
            && Get(v, "fullDisplayName") == r.fullDisplayName && Get(v, "id") == r.id
  {
  }

  lemma StoredOutcomeFields(r: BuildRecord)
    ensures var v := RecordObject(r);
            && Get(v, "keepLog") == r.keepLog && Get(v, "number") == r.number && Get(v, "queueId") == r.queueId
            && Get(v, "result") == r.result && Get(v, "timestamp") == r.timestamp && Get(v, "url") == r.url
            && Get(v, "changeSets") == r.changeSets && Get(v, "culprits") == r.culprits
            && Get(v, "wfapi_describe") == r.wfapiDescribe
  {
  }

  lemma StoredRunFields(r: RunRecord)
    ensures var v := RunObject(r);
            && Get(v, "id") == r.id && Get(v, "name") == r.name && Get(v, "status") == r.status
            && Get(v, "startTimeMillis") == r.startTimeMillis && Get(v, "endTimeMillis") == r.endTimeMillis
            && Get(v, "durationMillis") == r.durationMillis && Get(v, "queueDurationMillis") == r.queueDurationMillis
            && Get(v, "pauseDurationMillis") == r.pauseDurationMillis && Get(v, "stages") == r.stages
  {
  }
}
