/**
 * The normalizer's output held against the record schema: the object always carries exactly the
 * declared keys, and the defaults the normalizer falls back on are values `dataSchema` refuses,
 * so a build without Git data, without an executor, with an over-full executor or with a failed
 * stage never reaches the index.
 */
module RecordValidation {
  import opened JsValue
  import opened Joi
  import opened Schemas
  import opened SchemaFacts
  import opened Normalizer
  import opened NormalizerFacts

  /** The object's keys, in order, are the keys the record schema declares. */
  lemma OutputKeysDeclared(data: Value, wfapi: Value)
    requires ExtractRequiredData(data, wfapi).Ok?
    ensures ExtractRequiredData(data, wfapi).value.keys == DeclaredKeys(DataSchema().kind.children)
  {
    SchemaKeyTable();
  }

  /** No `BuildData` action (or one without a truthy `lastBuiltRevision`): the record lacks `SHA1` and `branch`. */
  ghost predicate NoRevision(data: Value)
  {
    || NoActionOf(data, BuildDataClass)
    || exists i: nat | FirstActionAt(data, BuildDataClass, i) :: !Truthy(Get(Get(data, "actions").elems[i], "lastBuiltRevision"))
  }

  lemma RevisionlessRejected(data: Value, wfapi: Value, isUri: string -> bool)
    requires ExtractRequiredData(data, wfapi).Ok? && NoRevision(data)
    ensures var output := ExtractRequiredData(data, wfapi).value;
            && Violation([Key("lastBuiltRevision"), Key("SHA1")], AnyRequired) in Validate(DataSchema(), output, [], isUri)
            && Violation([Key("lastBuiltRevision"), Key("branch")], AnyRequired) in Validate(DataSchema(), output, [], isUri)
  {
    var record := Normalize(data, wfapi).value;
    assert record.lastBuiltRevision == EmptyObject by {
      if NoActionOf(data, BuildDataClass) {
        BuildDataDefaults(data, wfapi);
      } else {
        var i: nat :| FirstActionAt(data, BuildDataClass, i) && !Truthy(Get(Get(data, "actions").elems[i], "lastBuiltRevision"));
        BuildDataFromFirstAction(data, wfapi, i);
      }
    }
    StoredLastBuiltRevision(record);
    EmptyRevisionReported(RecordObject(record), isUri);
  }

  /** A build whose `executor` is missing or falsy is stored with `executor: {}`, which lacks `_class`. */
  lemma ExecutorlessRejected(data: Value, wfapi: Value, isUri: string -> bool)
    requires ExtractRequiredData(data, wfapi).Ok? && !Truthy(Get(data, "executor"))
    ensures Violation([Key("executor"), Key("_class")], AnyRequired) in Validate(DataSchema(), ExtractRequiredData(data, wfapi).value, [], isUri)
  {
    var record := Normalize(data, wfapi).value;
    CollectionsDefault(data, wfapi);
    StoredExecutor(record);
    EmptyExecutorReported(RecordObject(record), isUri);
  }

  /** An executor utilization above 1 in the first `TimeInQueueAction` is refused. */
  lemma OverUtilizationRejected(data: Value, wfapi: Value, i: nat, isUri: string -> bool)
    requires ExtractRequiredData(data, wfapi).Ok? && FirstActionAt(data, QueueActionClass, i)
    requires var utilization := Get(Get(data, "actions").elems[i], "executorUtilization");
             utilization.Num? && utilization.n > 1.0
    ensures Violation([Key("executorUtilization")], NumberMax) in Validate(DataSchema(), ExtractRequiredData(data, wfapi).value, [], isUri)
  {
    var record := Normalize(data, wfapi).value;
    var utilization := Get(Get(data, "actions").elems[i], "executorUtilization");
    assert record.executorUtilization == utilization by {
      QueueMetricsFromFirstAction(data, wfapi, i);
    }
    OverUtilizationStoredRejected(record, isUri);
  }

  lemma OverUtilizationStoredRejected(record: BuildRecord, isUri: string -> bool)
    requires record.executorUtilization.Num? && record.executorUtilization.n > 1.0
    ensures Violation([Key("executorUtilization")], NumberMax) in Validate(DataSchema(), RecordObject(record), [], isUri)
  {
    StoredExecutorUtilization(record);
    UtilizationAboveOneReported(RecordObject(record), isUri);
  }

  /** A pipeline stage whose status is `FAILURE` is outside the stage vocabulary and is refused. */
  lemma FailedStageRejected(data: Value, wfapi: Value, i: nat, isUri: string -> bool)
    requires ExtractRequiredData(data, wfapi).Ok?
    requires var stages := Get(wfapi, "stages");
             stages.Arr? && i < |stages.elems| && stages.elems[i].Obj? && Get(stages.elems[i], "status") == Str("FAILURE")
    ensures Violation([Key("wfapi_describe"), Key("stages"), Index(i), Key("status")], AnyOnly)
              in Validate(DataSchema(), ExtractRequiredData(data, wfapi).value, [], isUri)
  {
    var record := Normalize(data, wfapi).value;
    RunDescribed(data, wfapi);
    StoredRun(record);
    StoredStages(Describe(wfapi));
    FailureStageReported(RecordObject(record), i, isUri);
  }

  /** A build whose record passes validation had a `BuildData` action with a truthy `lastBuiltRevision`, and a truthy `executor`. */
  lemma ValidatedBuildHadGitAndExecutor(data: Value, wfapi: Value, isUri: string -> bool)
    requires ExtractRequiredData(data, wfapi).Ok?
    requires Validate(DataSchema(), ExtractRequiredData(data, wfapi).value, [], isUri) == []
    ensures !NoRevision(data) && Truthy(Get(data, "executor"))
  {
    if NoRevision(data) {
      RevisionlessRejected(data, wfapi, isUri);
    }
    if !Truthy(Get(data, "executor")) {
      ExecutorlessRejected(data, wfapi, isUri);
    }
  }
}
