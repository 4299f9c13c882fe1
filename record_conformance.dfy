/**
 * The other direction of the record facts: a value passes `dataSchema` exactly when it is an
 * object with no undeclared key whose every field meets the condition its key's schema sets. A
 * sample record of a successful pipeline build shows that the conditions can all be met, so
 * validation lets real records through.
 */
module RecordConformance {
  import opened Wrappers
  import opened JsValue
  import opened Joi
  import opened Schemas
  import opened SchemaFacts
  import opened Normalizer
  import opened NormalizerFacts

  /** The `TimeInQueueAction` part of a record: its class tag and its ten metrics. */
  predicate QueueFieldsHold(v: Value)
  {
    && Get(v, "_class") == Str(QueueActionClass)
    && NonNegativeInteger(Get(v, "blockedDurationMillis")) && NonNegativeInteger(Get(v, "blockedTimeMillis"))
    && NonNegativeInteger(Get(v, "buildableDurationMillis")) && NonNegativeInteger(Get(v, "buildableTimeMillis"))
    && NonNegativeInteger(Get(v, "buildingDurationMillis")) && NonNegativeInteger(Get(v, "executingTimeMillis"))
    && Get(v, "executorUtilization").Num? && 0.0 <= Get(v, "executorUtilization").n <= 1.0
    && NonNegativeInteger(Get(v, "subTaskCount"))
    && NonNegativeInteger(Get(v, "waitingDurationMillis")) && NonNegativeInteger(Get(v, "waitingTimeMillis"))
  }

  /** An array of non-empty strings that are all URIs, without holes. */
  predicate UriList(x: Value, isUri: string -> bool)
  {
    x.Arr? && forall i | 0 <= i < |x.elems| :: NonEmptyText(x.elems[i]) && isUri(x.elems[i].s)
  }

  /** The `BuildData` part of a record. */
  predicate GitFieldsHold(v: Value, isUri: string -> bool)
  {
    && Get(v, "_class_buildData") == Str(BuildDataClass)
    && ConformingBranchMap(Get(v, "buildsByBranchName"))
    && ConformingRevision(Get(v, "lastBuiltRevision"))
    && UriList(Get(v, "remoteUrls"), isUri)
    && (Get(v, "scmName").Undefined? || Get(v, "scmName").Str?)
  }

  /** The build's own fields from `artifacts` to `id`; `description` may hold anything. */
  predicate BuildFieldsHold(v: Value)
  {
    && (Get(v, "artifacts").Undefined? || ObjectList(Get(v, "artifacts")))
    && Get(v, "building").Bool?
    && NonEmptyText(Get(v, "displayName"))
    && NonNegativeInteger(Get(v, "duration")) && NonNegativeInteger(Get(v, "estimatedDuration"))
    && ConformingExecutor(Get(v, "executor"))
    && NonEmptyText(Get(v, "fullDisplayName")) && NonEmptyText(Get(v, "id"))
  }

  /** The build's own fields from `keepLog` to `culprits`. */
  predicate OutcomeFieldsHold(v: Value, isUri: string -> bool)
  {
    && Get(v, "keepLog").Bool?
    && IntegerValue(Get(v, "number")) && IntegerValue(Get(v, "queueId"))
    && (Get(v, "result").Undefined? || Get(v, "result") in BuildResults)
    && IntegerValue(Get(v, "timestamp"))
    && NonEmptyText(Get(v, "url")) && isUri(Get(v, "url").s)
    && (Get(v, "changeSets").Undefined? || ObjectList(Get(v, "changeSets")))
    && (Get(v, "culprits").Undefined? || ObjectList(Get(v, "culprits")))
  }

  /** A build record as `dataSchema` describes it. */
  predicate ConformingRecord(v: Value, isUri: string -> bool)
  {
    && v.Obj?
    && (forall k | k in v.props :: k in SchemaKeys)
    && QueueFieldsHold(v) && GitFieldsHold(v, isUri) && BuildFieldsHold(v) && OutcomeFieldsHold(v, isUri)
    && ConformingRun(Get(v, "wfapi_describe"))
  }

  // Each group is proved for any key list laid out as the record schema's, so that the proofs do
  // not unfold the whole schema.

  lemma QueueChildrenConform(children: seq<Child>, v: Value, isUri: string -> bool)
    requires |children| >= 11
    requires children[0] == Child("_class", Tag(QueueActionClass))
    requires children[1] == Child("blockedDurationMillis", Count())
    requires children[2] == Child("blockedTimeMillis", Count())
    requires children[3] == Child("buildableDurationMillis", Count())
    requires children[4] == Child("buildableTimeMillis", Count())
    requires children[5] == Child("buildingDurationMillis", Count())
    requires children[6] == Child("executingTimeMillis", Count())
    requires children[7] == Child("executorUtilization", Required(Max(Min(NumberSchema(), 0.0), 1.0)))
    requires children[8] == Child("subTaskCount", Count())
    requires children[9] == Child("waitingDurationMillis", Count())
    requires children[10] == Child("waitingTimeMillis", Count())
    ensures ChildrenConformIn(children, 0, 11, v, isUri) <==> QueueFieldsHold(v)
  {
    TagAccepts(Get(v, "_class"), QueueActionClass, isUri);
    CountAccepts(Get(v, "blockedDurationMillis"), isUri);
    CountAccepts(Get(v, "blockedTimeMillis"), isUri);
    CountAccepts(Get(v, "buildableDurationMillis"), isUri);
    CountAccepts(Get(v, "buildableTimeMillis"), isUri);
    CountAccepts(Get(v, "buildingDurationMillis"), isUri);
    CountAccepts(Get(v, "executingTimeMillis"), isUri);
    UtilizationAccepts(Get(v, "executorUtilization"), isUri);
    CountAccepts(Get(v, "subTaskCount"), isUri);
    CountAccepts(Get(v, "waitingDurationMillis"), isUri);
    CountAccepts(Get(v, "waitingTimeMillis"), isUri);
    if QueueFieldsHold(v) {
      forall i | 0 <= i < 11 ensures Accepts(children[i].schema, Get(v, children[i].key), isUri) {
        if i == 0 {} else if i == 1 {} else if i == 2 {} else if i == 3 {} else if i == 4 {} else if i == 5 {}
        else if i == 6 {} else if i == 7 {} else if i == 8 {} else if i == 9 {} else { assert i == 10; }
      }
    }
  }

  lemma BuildDataChildrenConform(children: seq<Child>, v: Value, isUri: string -> bool)
    requires |children| >= 13
    requires children[11] == Child("_class_buildData", Tag(BuildDataClass))
    requires children[12] == Child("buildsByBranchName", Required(Pattern(ObjectSchema(), BranchBuildSchema())))
    ensures ChildrenConformIn(children, 11, 13, v, isUri) <==>
            Get(v, "_class_buildData") == Str(BuildDataClass) && ConformingBranchMap(Get(v, "buildsByBranchName"))
  {
    TagAccepts(Get(v, "_class_buildData"), BuildDataClass, isUri);
    BranchMapAccepts(Get(v, "buildsByBranchName"), isUri);
    if Get(v, "_class_buildData") == Str(BuildDataClass) && ConformingBranchMap(Get(v, "buildsByBranchName")) {
      forall i | 11 <= i < 13 ensures Accepts(children[i].schema, Get(v, children[i].key), isUri) {
        if i == 11 {} else { assert i == 12; }
      }
    }
  }

  lemma SourceChildrenConform(children: seq<Child>, v: Value, isUri: string -> bool)
    requires |children| >= 16
    requires children[13] == Child("lastBuiltRevision", LastBuiltRevisionSchema())
    requires children[14] == Child("remoteUrls", Required(Items(ArraySchema(), Uri(StringSchema()))))
    requires children[15] == Child("scmName", Allow(StringSchema(), [Str("")]))
    ensures ChildrenConformIn(children, 13, 16, v, isUri) <==>
            && ConformingRevision(Get(v, "lastBuiltRevision"))
            && UriList(Get(v, "remoteUrls"), isUri)
            && (Get(v, "scmName").Undefined? || Get(v, "scmName").Str?)
  {
    RevisionAccepts(Get(v, "lastBuiltRevision"), isUri);
    UriListAccepts(Get(v, "remoteUrls"), isUri);
    OptionalTextAccepts(Get(v, "scmName"), isUri);
    if && ConformingRevision(Get(v, "lastBuiltRevision")) && UriList(Get(v, "remoteUrls"), isUri)
       && (Get(v, "scmName").Undefined? || Get(v, "scmName").Str?) {
      forall i | 13 <= i < 16 ensures Accepts(children[i].schema, Get(v, children[i].key), isUri) {
        if i == 13 {} else if i == 14 {} else { assert i == 15; }
      }
    }
  }

  lemma GitChildrenConform(children: seq<Child>, v: Value, isUri: string -> bool)
    requires |children| >= 16
    requires children[11] == Child("_class_buildData", Tag(BuildDataClass))
    requires children[12] == Child("buildsByBranchName", Required(Pattern(ObjectSchema(), BranchBuildSchema())))
    requires children[13] == Child("lastBuiltRevision", LastBuiltRevisionSchema())
    requires children[14] == Child("remoteUrls", Required(Items(ArraySchema(), Uri(StringSchema()))))
    requires children[15] == Child("scmName", Allow(StringSchema(), [Str("")]))
    ensures ChildrenConformIn(children, 11, 16, v, isUri) <==> GitFieldsHold(v, isUri)
  {
    ChildrenConformSplit(children, 11, 13, 16, v, isUri);
    BuildDataChildrenConform(children, v, isUri);
    SourceChildrenConform(children, v, isUri);
  }

  lemma BuildChildrenConform(children: seq<Child>, v: Value, isUri: string -> bool)
    requires |children| >= 25
    requires children[16] == Child("artifacts", Items(ArraySchema(), OpenObject()))
    requires children[17] == Child("building", Required(BooleanSchema()))
    requires children[18] == Child("description", Allow(AnySchema(), [Null]))
    requires children[19] == Child("displayName", Required(StringSchema()))
    requires children[20] == Child("duration", Count())
    requires children[21] == Child("estimatedDuration", Count())
    requires children[22] == Child("executor", ExecutorSchema())
    requires children[23] == Child("fullDisplayName", Required(StringSchema()))
    requires children[24] == Child("id", Required(StringSchema()))
    ensures ChildrenConformIn(children, 16, 25, v, isUri) <==> BuildFieldsHold(v)
  {
    ObjectListAccepts(Get(v, "artifacts"), isUri);
    FlagAccepts(Get(v, "building"), isUri);
    TextAccepts(Get(v, "displayName"), isUri);
    CountAccepts(Get(v, "duration"), isUri);
    CountAccepts(Get(v, "estimatedDuration"), isUri);
    ExecutorAccepts(Get(v, "executor"), isUri);
    TextAccepts(Get(v, "fullDisplayName"), isUri);
    TextAccepts(Get(v, "id"), isUri);
    if BuildFieldsHold(v) {
      forall i | 16 <= i < 25 ensures Accepts(children[i].schema, Get(v, children[i].key), isUri) {
        if i == 16 {} else if i == 17 {} else if i == 18 {} else if i == 19 {} else if i == 20 {}
        else if i == 21 {} else if i == 22 {} else if i == 23 {} else { assert i == 24; }
      }
    }
  }

  lemma OutcomeChildrenConform(children: seq<Child>, v: Value, isUri: string -> bool)
    requires |children| >= 33
    requires children[25] == Child("keepLog", Required(BooleanSchema()))
    requires children[26] == Child("number", Instant())
    requires children[27] == Child("queueId", Instant())
    requires children[28] == Child("result", BuildResultSchema())
    requires children[29] == Child("timestamp", Instant())
    requires children[30] == Child("url", Required(Uri(StringSchema())))
    requires children[31] == Child("changeSets", Items(ArraySchema(), OpenObject()))
    requires children[32] == Child("culprits", Items(ArraySchema(), OpenObject()))
    ensures ChildrenConformIn(children, 25, 33, v, isUri) <==> OutcomeFieldsHold(v, isUri)
  {
    FlagAccepts(Get(v, "keepLog"), isUri);
    InstantAccepts(Get(v, "number"), isUri);
    InstantAccepts(Get(v, "queueId"), isUri);
    BuildResultAccepts(Get(v, "result"), isUri);
    InstantAccepts(Get(v, "timestamp"), isUri);
    UriAccepts(Get(v, "url"), isUri);
    ObjectListAccepts(Get(v, "changeSets"), isUri);
    ObjectListAccepts(Get(v, "culprits"), isUri);
    if OutcomeFieldsHold(v, isUri) {
      forall i | 25 <= i < 33 ensures Accepts(children[i].schema, Get(v, children[i].key), isUri) {
        if i == 25 {} else if i == 26 {} else if i == 27 {} else if i == 28 {} else if i == 29 {}
        else if i == 30 {} else if i == 31 {} else { assert i == 32; }
      }
    }
  }

  lemma RunChildConforms(children: seq<Child>, v: Value, isUri: string -> bool)
    requires |children| == 34
    requires children[33] == Child("wfapi_describe", WfapiSchema())
    ensures ChildrenConformIn(children, 33, 34, v, isUri) <==> ConformingRun(Get(v, "wfapi_describe"))
  {
    RunAccepts(Get(v, "wfapi_describe"), isUri);
    if ConformingRun(Get(v, "wfapi_describe")) {
      forall i | 33 <= i < 34 ensures Accepts(children[i].schema, Get(v, children[i].key), isUri) {
        assert i == 33;
      }
    }
  }

  /** The children of the record schema split into the five groups above. */
  lemma RecordChildrenConform(v: Value, isUri: string -> bool)
    ensures ChildrenConform(DataSchema().kind.children, v, isUri)
            <==> QueueFieldsHold(v) && GitFieldsHold(v, isUri) && BuildFieldsHold(v) && OutcomeFieldsHold(v, isUri)
                 && ConformingRun(Get(v, "wfapi_describe"))
  {
    var children := DataSchema().kind.children;
    assert |children| == 34 by {
      SchemaKeyTable();
    }
    RecordFields0To3();
    RecordFields4To7();
    RecordFields8To11();
    RecordFields12To16();
    RecordFields17To22();
    RecordFields23To28();
    RecordFields29To33();
    ChildrenConformSplit(children, 0, 11, 34, v, isUri);
    ChildrenConformSplit(children, 11, 16, 34, v, isUri);
    ChildrenConformSplit(children, 16, 25, 34, v, isUri);
    ChildrenConformSplit(children, 25, 33, 34, v, isUri);
    QueueChildrenConform(children, v, isUri);
    GitChildrenConform(children, v, isUri);
    BuildChildrenConform(children, v, isUri);
    OutcomeChildrenConform(children, v, isUri);
    RunChildConforms(children, v, isUri);
  }

  /**
   * `dataSchema` accepts no value (it is not `.required()`; the normalizer always builds an
   * object) or exactly the conforming records.
   */
  lemma RecordAccepts(v: Value, isUri: string -> bool)
    ensures Accepts(DataSchema(), v, isUri) <==> v.Undefined? || ConformingRecord(v, isUri)
  {
    if v.Obj? {
      RecordSchemaShape();
      ClosedObjectAccepts(DataSchema(), v, isUri);
      SchemaKeyTable();
      RecordChildrenConform(v, isUri);
    }
  }

  // ---------------------------------------------------------------------------------------------
  // A record that passes.

  const SampleUrl := "https://ci.example.org/job/app/1/"
  const SampleRemote := "https://git.example.org/app.git"

  /** Forty hexadecimal digits. */
  function SampleSha1(): string
  {
    seq(40, _ => 'a')
  }

  /** One finished stage of the sample run. */
  const SampleStage: Value := Obj(
    ["_links", "id", "name", "status", "startTimeMillis", "durationMillis", "pauseDurationMillis"],
    map["_links" := EmptyObject, "id" := Str("6"), "name" := Str("Build"),
        "status" := Str("SUCCESS"), "startTimeMillis" := Num(1700000001000.0),
        "durationMillis" := Num(50000.0), "pauseDurationMillis" := Num(0.0)])

  /** The revision the sample build checked out. */
  const SampleRevision: Value := Obj(["SHA1", "branch"], map["SHA1" := Str(SampleSha1()), "branch" := EmptyArray])

  const SampleExecutor: Value := Obj(["_class"], map["_class" := Str(ExecutorClass)])

  /** The description of a successful one-stage pipeline run. */
  function SampleRun(): RunRecord
  {
    RunRecord(
      Str("1"), Str("#1"), Str("SUCCESS"), Num(1700000000000.0), Num(1700000060000.0),
      Num(60000.0), Num(5.0), Num(0.0), Arr([SampleStage]))
  }

  /** The record of a successful build of one Git branch on a one-off executor. */
  function SampleRecord(): BuildRecord
  {
    BuildRecord(
      Str(QueueActionClass), Num(0.0), Num(0.0), Num(5.0), Num(5.0),
      Num(60000.0), Num(60000.0), Num(0.5), Num(0.0), Num(0.0), Num(0.0),
      Str(BuildDataClass), EmptyObject,
      SampleRevision,
      Arr([Str(SampleRemote)]),
      Str(""), EmptyArray, Bool(false), Null, Str("#1"), Num(60000.0), Num(60000.0),
      SampleExecutor,
      Str("app #1"), Str("1"), Bool(false), Num(1.0), Num(7.0), Str("SUCCESS"),
      Num(1700000000000.0), Str(SampleUrl), EmptyArray, EmptyArray,
      RunObject(SampleRun()))
  }

  /** The record object holds no key but the declared ones, and the run object none but its nine. */
  lemma StoredKeysDeclared(r: BuildRecord, run: RunRecord)
    ensures forall k | k in RecordObject(r).props :: k in SchemaKeys
    ensures forall k | k in RunObject(run).props :: k in WfapiKeys
  {
    NormalizerFacts.RecordKeysListed(r);
    NormalizerFacts.RunKeysListed(run);
    assert RecordKeys == SchemaKeys;
    assert RunKeys == WfapiKeys;
  }

  // The sample, group by group.

  lemma SampleStageFields()
    ensures StageFieldsHold(SampleStage)
  {
    assert Get(SampleStage, "id") == Str("6") && Get(SampleStage, "name") == Str("Build");
  }

  lemma SampleStageKeys()
    ensures forall k | k in SampleStage.props :: k in StageKeys
  {
  }

  lemma SampleStageConforms()
    ensures ConformingStage(SampleStage)
  {
    SampleStageKeys();
    SampleStageFields();
  }

  lemma SampleRunConforms()
    ensures ConformingRun(RunObject(SampleRun()))
  {
    StoredRunFields(SampleRun());
    StoredKeysDeclared(SampleRecord(), SampleRun());
    SampleStageConforms();
    assert RunFieldsHold(RunObject(SampleRun()));
  }

  lemma SampleQueueFields()
    ensures QueueFieldsHold(RecordObject(SampleRecord()))
  {
    StoredClass(SampleRecord());
    StoredBlocked(SampleRecord());
    StoredBuildable(SampleRecord());
    StoredBusy(SampleRecord());
    StoredExecuting(SampleRecord());
    StoredWaiting(SampleRecord());
  }

  lemma SampleRevisionConforms()
    ensures ConformingRevision(SampleRevision)
  {
    Utf16LengthOfBmp(SampleSha1());
  }

  /** The Git fields of the stored object hold when the record's own Git fields do. */
  lemma GitFieldsStored(r: BuildRecord, isUri: string -> bool)
    requires r.buildDataClass == Str(BuildDataClass) && ConformingBranchMap(r.buildsByBranchName)
    requires ConformingRevision(r.lastBuiltRevision) && UriList(r.remoteUrls, isUri)
    requires r.scmName.Undefined? || r.scmName.Str?
    ensures GitFieldsHold(RecordObject(r), isUri)
  {
    StoredWaiting(r);
    StoredRevisionFields(r);
    StoredRemoteFields(r);
  }

  lemma SampleGitFields(isUri: string -> bool)
    requires isUri(SampleRemote)
    ensures GitFieldsHold(RecordObject(SampleRecord()), isUri)
  {
    SampleRevisionConforms();
    assert UriList(Arr([Str(SampleRemote)]), isUri);
    GitFieldsStored(SampleRecord(), isUri);
  }

  lemma SampleBuildFields()
    ensures BuildFieldsHold(RecordObject(SampleRecord()))
  {
    StoredBuildFields(SampleRecord());
    StoredJobFields(SampleRecord());
  }

  lemma SampleOutcomeFields(isUri: string -> bool)
    requires isUri(SampleUrl)
    ensures OutcomeFieldsHold(RecordObject(SampleRecord()), isUri)
    ensures ConformingRun(Get(RecordObject(SampleRecord()), "wfapi_describe"))
  {
    StoredOutcomeFields(SampleRecord());
    SampleRunConforms();
  }

  lemma SampleRecordConforms(isUri: string -> bool)
    requires isUri(SampleUrl) && isUri(SampleRemote)
    ensures ConformingRecord(RecordObject(SampleRecord()), isUri)
  {
    StoredKeysDeclared(SampleRecord(), SampleRun());
    SampleQueueFields();
    SampleGitFields(isUri);
    SampleBuildFields();
    SampleOutcomeFields(isUri);
  }

  lemma SampleRunWellFormed()
    ensures WellFormed(RunObject(SampleRun()))
  {
    assert WellFormed(SampleStage);
    assert RunFieldsWellFormed(SampleRun());
    RunObjectWellFormed(SampleRun());
  }

  lemma SampleActionFieldsWellFormed()
    ensures ActionFieldsWellFormed(SampleRecord())
  {
    assert WellFormed(SampleRevision);
  }

  lemma SampleSourceFieldsWellFormed()
    ensures SourceFieldsWellFormed(SampleRecord())
  {
    assert WellFormed(SampleExecutor);
    SampleRunWellFormed();
  }

  lemma SampleRecordWellFormed()
    ensures WellFormed(RecordObject(SampleRecord()))
  {
    SampleActionFieldsWellFormed();
    SampleSourceFieldsWellFormed();
    RecordObjectWellFormed(SampleRecord());
  }

  /**
   * Validation lets a real record through: `dataSchema` accepts the sample record and reports no
   * violation for it, given a URI grammar that takes its two URLs.
   */
  lemma SampleRecordAccepted(isUri: string -> bool)
    requires isUri(SampleUrl) && isUri(SampleRemote)
    ensures Accepts(DataSchema(), RecordObject(SampleRecord()), isUri)
    ensures Validate(DataSchema(), RecordObject(SampleRecord()), [], isUri) == []
  {
    SampleRecordConforms(isUri);
    RecordAccepts(RecordObject(SampleRecord()), isUri);
    SampleRecordWellFormed();
    ValidateAccepts(DataSchema(), RecordObject(SampleRecord()), [], isUri);
  }

  // ---------------------------------------------------------------------------------------------
  // The JSON the sample record is normalized from.

  /** An action of a class the normalizer does not look for. */
  const SampleCauseAction: Value := Obj(["_class"], map["_class" := Str("hudson.model.CauseAction")])

  /** The queue metrics; the zero ones are absent and fall back to `|| 0`. */
  const SampleQueueAction: Value := Obj(
    ["_class", "buildableDurationMillis", "buildableTimeMillis", "buildingDurationMillis",
     "executingTimeMillis", "executorUtilization"],
    map["_class" := Str(QueueActionClass), "buildableDurationMillis" := Num(5.0),
        "buildableTimeMillis" := Num(5.0), "buildingDurationMillis" := Num(60000.0),
        "executingTimeMillis" := Num(60000.0), "executorUtilization" := Num(0.5)])

  /** The Git data; `buildsByBranchName` and `scmName` are absent and fall back to `{}` and `""`. */
  const SampleBuildDataAction: Value := Obj(
    ["_class", "lastBuiltRevision", "remoteUrls"],
    map["_class" := Str(BuildDataClass), "lastBuiltRevision" := SampleRevision,
        "remoteUrls" := Arr([Str(SampleRemote)])])

  /** The actions the sample build reports, in order. */
  const SampleActions: seq<Value> := [SampleCauseAction, SampleQueueAction, SampleBuildDataAction]

  /** The parsed `build_data` of the sample build: its actions and the fields copied as they are. */
  const SampleData: Value := Obj(
    ["actions", "building", "description", "displayName", "duration", "estimatedDuration",
     "executor", "fullDisplayName", "id", "keepLog", "number", "queueId", "result", "timestamp", "url"],
    map["actions" := Arr(SampleActions),
        "building" := Bool(false), "description" := Null, "displayName" := Str("#1"),
        "duration" := Num(60000.0), "estimatedDuration" := Num(60000.0), "executor" := SampleExecutor,
        "fullDisplayName" := Str("app #1"), "id" := Str("1"), "keepLog" := Bool(false),
        "number" := Num(1.0), "queueId" := Num(7.0), "result" := Str("SUCCESS"),
        "timestamp" := Num(1700000000000.0), "url" := Str(SampleUrl)])

  /** The parsed `stage_data` of the sample build. */
  const SampleWfapi: Value := Obj(
    ["id", "name", "status", "startTimeMillis", "endTimeMillis", "durationMillis",
     "queueDurationMillis", "pauseDurationMillis", "stages"],
    map["id" := Str("1"), "name" := Str("#1"), "status" := Str("SUCCESS"),
        "startTimeMillis" := Num(1700000000000.0), "endTimeMillis" := Num(1700000060000.0),
        "durationMillis" := Num(60000.0), "queueDurationMillis" := Num(5.0),
        "pauseDurationMillis" := Num(0.0), "stages" := Arr([SampleStage])])

  lemma SampleActionsRead()
    ensures Get(SampleData, "actions") == Arr(SampleActions)
  {
  }

  /** The queue search skips the cause action and stops at the queue action. */
  lemma SampleQueueSearch()
    ensures FindFirst(SampleActions, QueueActionClass) == Ok(SampleQueueAction)
  {
    assert Get(SampleCauseAction, "_class") != Str(QueueActionClass);
    assert FindFirst(SampleActions, QueueActionClass) == FindFirst(SampleActions[1..], QueueActionClass);
    assert SampleActions[1..][0] == SampleQueueAction;
  }

  /** The Git search skips the cause and queue actions and stops at the BuildData action. */
  lemma SampleBuildDataSearch()
    ensures FindFirst(SampleActions, BuildDataClass) == Ok(SampleBuildDataAction)
  {
    assert Get(SampleCauseAction, "_class") != Str(BuildDataClass);
    assert FindFirst(SampleActions, BuildDataClass) == FindFirst(SampleActions[1..], BuildDataClass);
    assert Get(SampleQueueAction, "_class") != Str(BuildDataClass);
    assert FindFirst(SampleActions[1..], BuildDataClass) == FindFirst(SampleActions[2..], BuildDataClass);
    assert SampleActions[2..][0] == SampleBuildDataAction;
  }

  lemma SampleQueueFound()
    ensures FindAction(SampleData, QueueActionClass) == Ok(SampleQueueAction)
  {
    SampleActionsRead();
    SampleQueueSearch();
  }

  lemma SampleBuildDataFound()
    ensures FindAction(SampleData, BuildDataClass) == Ok(SampleBuildDataAction)
  {
    SampleActionsRead();
    SampleBuildDataSearch();
  }

  lemma SampleMetrics()
    ensures var q := SampleQueueAction;
            && Metric(q, "blockedDurationMillis") == Num(0.0) && Metric(q, "blockedTimeMillis") == Num(0.0)
            && Metric(q, "buildableDurationMillis") == Num(5.0) && Metric(q, "buildableTimeMillis") == Num(5.0)
            && Metric(q, "buildingDurationMillis") == Num(60000.0) && Metric(q, "executingTimeMillis") == Num(60000.0)
            && Metric(q, "executorUtilization") == Num(0.5) && Metric(q, "subTaskCount") == Num(0.0)
            && Metric(q, "waitingDurationMillis") == Num(0.0) && Metric(q, "waitingTimeMillis") == Num(0.0)
  {
  }

  lemma SampleGitData()
    ensures var b := SampleBuildDataAction;
            && Or(Get(b, "buildsByBranchName"), EmptyObject) == EmptyObject
            && Or(Get(b, "lastBuiltRevision"), EmptyObject) == SampleRevision
            && Or(Get(b, "remoteUrls"), EmptyArray) == Arr([Str(SampleRemote)])
            && Or(Get(b, "scmName"), Str("")) == Str("")
  {
  }

  lemma SampleAbsentLists()
    ensures var d := SampleData;
            && Or(Get(d, "artifacts"), EmptyArray) == EmptyArray
            && Or(Get(d, "changeSets"), EmptyArray) == EmptyArray
            && Or(Get(d, "culprits"), EmptyArray) == EmptyArray
  {
  }

  lemma SampleBuildCopied()
    ensures var d := SampleData;
            && Get(d, "building") == Bool(false) && Get(d, "description") == Null
            && Get(d, "displayName") == Str("#1") && Get(d, "duration") == Num(60000.0)
  {
  }

  lemma SampleExecutorCopied()
    ensures var d := SampleData;
            && Get(d, "estimatedDuration") == Num(60000.0)
            && Or(Get(d, "executor"), EmptyObject) == SampleExecutor
            && Get(d, "fullDisplayName") == Str("app #1") && Get(d, "id") == Str("1")
  {
  }

  lemma SampleJobCopied()
    ensures var d := SampleData;
            && Get(d, "keepLog") == Bool(false) && Get(d, "number") == Num(1.0)
            && Get(d, "queueId") == Num(7.0) && Get(d, "result") == Str("SUCCESS")
            && Get(d, "timestamp") == Num(1700000000000.0) && Get(d, "url") == Str(SampleUrl)
  {
  }

  lemma SampleDescribed()
    ensures Describe(SampleWfapi) == SampleRun()
  {
  }

  lemma SampleAssembled()
    ensures Assemble(SampleData, SampleQueueAction, SampleBuildDataAction, SampleWfapi) == SampleRecord()
  {
    SampleMetrics();
    SampleGitData();
    SampleAbsentLists();
    SampleBuildCopied();
    SampleExecutorCopied();
    SampleJobCopied();
    SampleDescribed();
  }

  /** Once both searches succeed on non-nullish input, the record is the literal over what they found. */
  lemma NormalizedFromFound(data: Value, wfapi: Value, queue: Value, buildData: Value)
    requires !IsNullish(data) && !IsNullish(wfapi)
    requires FindAction(data, QueueActionClass) == Ok(queue) && FindAction(data, BuildDataClass) == Ok(buildData)
    ensures Normalize(data, wfapi) == Ok(Assemble(data, queue, buildData, wfapi))
  {
  }

  /** The normalizer turns the sample JSON into the sample record. */
  lemma SampleNormalized()
    ensures Normalize(SampleData, SampleWfapi) == Ok(SampleRecord())
  {
    SampleQueueFound();
    SampleBuildDataFound();
    NormalizedFromFound(SampleData, SampleWfapi, SampleQueueAction, SampleBuildDataAction);
    SampleAssembled();
  }
}
