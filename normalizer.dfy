/**
 * `extractRequiredData(data, wfapi)`: the reshaping of a Jenkins build description and its
 * pipeline description into the fixed-shape record that is validated and indexed. It looks up the
 * first action of a given class in `data.actions`, applies JavaScript `||` defaults and copies the
 * remaining fields as they are. Reading a property of `null` or `undefined`, or calling `find` on
 * a value that is not an array, throws a `TypeError`, so the result is a `Result`.
 */
module Normalizer {
  import opened Wrappers
  import opened JsValue
  import opened Schemas

  /** An action that `action => action._class === tag` selects (the callback throws on a nullish action). */
  predicate Matches(action: Value, tag: string)
  {
    !IsNullish(action) && Get(action, "_class") == Str(tag)
  }

  /** The callback reached position `i` of `actions`: every earlier action was read and rejected. */
  ghost predicate ClearBefore(actions: seq<Value>, tag: string, i: nat)
    requires i <= |actions|
  {
    forall j | 0 <= j < i :: !IsNullish(actions[j]) && !Matches(actions[j], tag)
  }

  /** `actions.find(action => action._class === tag)` on an array: the first match, or `undefined`. */
  function FindFirst(actions: seq<Value>, tag: string): Result<Value, Exception>
  {
    if actions == [] then Ok(Undefined)
    else if IsNullish(actions[0]) then Err(TypeError)
    else if Get(actions[0], "_class") == Str(tag) then Ok(actions[0])
    else FindFirst(actions[1..], tag)
  }

  /** `data.actions?.find(action => action._class === tag)` for a `data` that is not nullish. */
  function FindAction(data: Value, tag: string): Result<Value, Exception>
  {
    var actions := Get(data, "actions");
    if IsNullish(actions) then Ok(Undefined)
    else if !actions.Arr? then Err(TypeError)
    else FindFirst(actions.elems, tag)
  }

  /** `action?.key || 0` */
  function Metric(action: Value, key: string): Value
  {
    Or(Get(action, key), Num(0.0))
  }

  /** The keys of the record, in the order the object literal lists them. */
  const RecordKeys: seq<string> := [
    "_class", "blockedDurationMillis", "blockedTimeMillis", "buildableDurationMillis",
    "buildableTimeMillis", "buildingDurationMillis", "executingTimeMillis", "executorUtilization",
    "subTaskCount", "waitingDurationMillis", "waitingTimeMillis", "_class_buildData",
    "buildsByBranchName", "lastBuiltRevision", "remoteUrls", "scmName", "artifacts", "building",
    "description", "displayName", "duration", "estimatedDuration", "executor", "fullDisplayName",
    "id", "keepLog", "number", "queueId", "result", "timestamp", "url", "changeSets", "culprits",
    "wfapi_describe"]

  /** The keys of `wfapi_describe`, in order. */
  const RunKeys: seq<string> := [
    "id", "name", "status", "startTimeMillis", "endTimeMillis", "durationMillis",
    "queueDurationMillis", "pauseDurationMillis", "stages"]

  /** The values of the `wfapi_describe` object, one field per key. */
  datatype RunRecord = RunRecord(
    id: Value, name: Value, status: Value,
    startTimeMillis: Value, endTimeMillis: Value, durationMillis: Value,
    queueDurationMillis: Value, pauseDurationMillis: Value, stages: Value)

  /**
   * The values of the normalized record, one field per key (`_class` is `queueClass`,
   * `_class_buildData` is `buildDataClass` and `wfapi_describe` is `wfapiDescribe`).
   */
  datatype BuildRecord = BuildRecord(
    queueClass: Value, blockedDurationMillis: Value, blockedTimeMillis: Value,
    buildableDurationMillis: Value, buildableTimeMillis: Value, buildingDurationMillis: Value,
    executingTimeMillis: Value, executorUtilization: Value, subTaskCount: Value,
    waitingDurationMillis: Value, waitingTimeMillis: Value, buildDataClass: Value,
    buildsByBranchName: Value, lastBuiltRevision: Value, remoteUrls: Value,
    scmName: Value, artifacts: Value, building: Value,
    description: Value, displayName: Value, duration: Value,
    estimatedDuration: Value, executor: Value, fullDisplayName: Value,
    id: Value, keepLog: Value, number: Value,
    queueId: Value, result: Value, timestamp: Value,
    url: Value, changeSets: Value, culprits: Value,
    wfapiDescribe: Value)

  /** The `wfapi_describe` object as JavaScript builds it: its keys in literal order. */
  function RunObject(r: RunRecord): Value
  {
    Obj(RunKeys, map[
      "id" := r.id,
      "name" := r.name,
      "status" := r.status,
      "startTimeMillis" := r.startTimeMillis,
      "endTimeMillis" := r.endTimeMillis,
      "durationMillis" := r.durationMillis,
      "queueDurationMillis" := r.queueDurationMillis,
      "pauseDurationMillis" := r.pauseDurationMillis,
      "stages" := r.stages])
  }

  /** The record as the JavaScript object the literal builds, with its keys in literal order. */
  function RecordObject(r: BuildRecord): Value
  {
    Obj(RecordKeys, map[
      "_class" := r.queueClass,
      "blockedDurationMillis" := r.blockedDurationMillis,
      "blockedTimeMillis" := r.blockedTimeMillis,
      "buildableDurationMillis" := r.buildableDurationMillis,
      "buildableTimeMillis" := r.buildableTimeMillis,
      "buildingDurationMillis" := r.buildingDurationMillis,
      "executingTimeMillis" := r.executingTimeMillis,
      "executorUtilization" := r.executorUtilization,
      "subTaskCount" := r.subTaskCount,
      "waitingDurationMillis" := r.waitingDurationMillis,
      "waitingTimeMillis" := r.waitingTimeMillis,
      "_class_buildData" := r.buildDataClass,
      "buildsByBranchName" := r.buildsByBranchName,
      "lastBuiltRevision" := r.lastBuiltRevision,
      "remoteUrls" := r.remoteUrls,
      "scmName" := r.scmName,
      "artifacts" := r.artifacts,
      "building" := r.building,
      "description" := r.description,
      "displayName" := r.displayName,
      "duration" := r.duration,
      "estimatedDuration" := r.estimatedDuration,
      "executor" := r.executor,
      "fullDisplayName" := r.fullDisplayName,
      "id" := r.id,
      "keepLog" := r.keepLog,
      "number" := r.number,
      "queueId" := r.queueId,
      "result" := r.result,
      "timestamp" := r.timestamp,
      "url" := r.url,
      "changeSets" := r.changeSets,
      "culprits" := r.culprits,
      "wfapi_describe" := r.wfapiDescribe])
  }

  /** The `wfapi_describe` literal. */
  function Describe(wfapi: Value): RunRecord
  {
    RunRecord(
      Get(wfapi, "id"), Get(wfapi, "name"), Get(wfapi, "status"), Get(wfapi, "startTimeMillis"),
      Get(wfapi, "endTimeMillis"), Get(wfapi, "durationMillis"), Get(wfapi, "queueDurationMillis"),
      Get(wfapi, "pauseDurationMillis"), Or(Get(wfapi, "stages"), EmptyArray))
  }

  /** The record literal, given `data`, the two actions found in it (or `undefined`) and `wfapi`. */
  function Assemble(data: Value, queue: Value, buildData: Value, wfapi: Value): BuildRecord
  {
    BuildRecord(
      Str(QueueActionClass),
      Metric(queue, "blockedDurationMillis"), Metric(queue, "blockedTimeMillis"),
      Metric(queue, "buildableDurationMillis"), Metric(queue, "buildableTimeMillis"),
      Metric(queue, "buildingDurationMillis"), Metric(queue, "executingTimeMillis"),
      Metric(queue, "executorUtilization"), Metric(queue, "subTaskCount"),
      Metric(queue, "waitingDurationMillis"), Metric(queue, "waitingTimeMillis"),
      Str(BuildDataClass),
      Or(Get(buildData, "buildsByBranchName"), EmptyObject),
      Or(Get(buildData, "lastBuiltRevision"), EmptyObject),
      Or(Get(buildData, "remoteUrls"), EmptyArray),
      Or(Get(buildData, "scmName"), Str("")),
      Or(Get(data, "artifacts"), EmptyArray),
      Get(data, "building"), Get(data, "description"), Get(data, "displayName"),
      Get(data, "duration"), Get(data, "estimatedDuration"),
      Or(Get(data, "executor"), EmptyObject),
      Get(data, "fullDisplayName"), Get(data, "id"), Get(data, "keepLog"), Get(data, "number"),
      Get(data, "queueId"), Get(data, "result"), Get(data, "timestamp"), Get(data, "url"),
      Or(Get(data, "changeSets"), EmptyArray),
      Or(Get(data, "culprits"), EmptyArray),
      RunObject(Describe(wfapi)))
  }

  /**
   * The record `extractRequiredData(data, wfapi)` builds. Every lookup of an action runs the
   * same search, so the record needs one search per class; the first exception ends the evaluation
   * of the literal, and every exception it can raise is a `TypeError`.
   */
  function Normalize(data: Value, wfapi: Value): Result<BuildRecord, Exception>
  {
    if IsNullish(data) then Err(TypeError)
    else
      var queue := FindAction(data, QueueActionClass);
      var buildData := FindAction(data, BuildDataClass);
      if queue.Err? || buildData.Err? || IsNullish(wfapi) then Err(TypeError)
      else Ok(Assemble(data, queue.value, buildData.value, wfapi))
  }

  /** `extractRequiredData(data, wfapi)`: the record as an object, or the exception it throws. */
  function ExtractRequiredData(data: Value, wfapi: Value): (r: Result<Value, Exception>)
    ensures r.Ok? <==> Normalize(data, wfapi).Ok?
    ensures r.Ok? ==> r.value.Obj? && r.value.keys == RecordKeys
    ensures r.Err? ==> r.error == TypeError
  {
    match Normalize(data, wfapi)
    case Ok(record) => Ok(RecordObject(record))
    case Err(e) => Err(e)
  }

  // ---------------------------------------------------------------------------------------------
  // The search for the first action of a class.

  /** The search returns the first action of the class when the callback reaches it. */
  lemma {:induction false} FindFirstMatch(actions: seq<Value>, tag: string, i: nat)
    requires i < |actions| && ClearBefore(actions, tag, i) && Matches(actions[i], tag)
    ensures FindFirst(actions, tag) == Ok(actions[i])
  {
    if i > 0 {
      assert !IsNullish(actions[0]) && !Matches(actions[0], tag);
      assert ClearBefore(actions[1..], tag, i - 1) by {
        forall j | 0 <= j < i - 1 ensures !IsNullish(actions[1..][j]) && !Matches(actions[1..][j], tag) {
          assert actions[1..][j] == actions[j + 1];
        }
      }
      FindFirstMatch(actions[1..], tag, i - 1);
    }
  }

  /** The search returns `undefined` when no action has the class and none is nullish. */
  lemma {:induction false} FindFirstNone(actions: seq<Value>, tag: string)
    requires ClearBefore(actions, tag, |actions|)
    ensures FindFirst(actions, tag) == Ok(Undefined)
  {
    if actions != [] {
      assert !IsNullish(actions[0]) && !Matches(actions[0], tag);
      assert ClearBefore(actions[1..], tag, |actions| - 1) by {
        forall j | 0 <= j < |actions| - 1 ensures !IsNullish(actions[1..][j]) && !Matches(actions[1..][j], tag) {
          assert actions[1..][j] == actions[j + 1];
        }
      }
      FindFirstNone(actions[1..], tag);
    }
  }

  /** The search throws exactly when the callback reaches a nullish action. */
  lemma {:induction false} FindFirstThrows(actions: seq<Value>, tag: string)
    ensures FindFirst(actions, tag).Err? <==>
              exists i | 0 <= i < |actions| :: ClearBefore(actions, tag, i) && IsNullish(actions[i])
  {
    if actions == [] {
    } else if IsNullish(actions[0]) {
      assert ClearBefore(actions, tag, 0);
    } else if Matches(actions[0], tag) {
      forall i | 0 < i <= |actions| ensures !ClearBefore(actions, tag, i) {
        assert Matches(actions[0], tag);
      }
    } else {
      var rest := actions[1..];
      FindFirstThrows(rest, tag);
      if FindFirst(rest, tag).Err? {
        var i :| 0 <= i < |rest| && ClearBefore(rest, tag, i) && IsNullish(rest[i]);
        assert ClearBefore(actions, tag, i + 1) by {
          forall j | 0 <= j < i + 1 ensures !IsNullish(actions[j]) && !Matches(actions[j], tag) {
            if j > 0 {
              assert actions[j] == rest[j - 1];
            }
          }
        }
        assert actions[i + 1] == rest[i];
      } else {
        forall i | 0 <= i < |actions| && ClearBefore(actions, tag, i) ensures !IsNullish(actions[i]) {
          if i > 0 {
            assert ClearBefore(rest, tag, i - 1) by {
              forall j | 0 <= j < i - 1 ensures !IsNullish(rest[j]) && !Matches(rest[j], tag) {
                assert rest[j] == actions[j + 1];
              }
            }
            assert rest[i - 1] == actions[i];
          }
        }
      }
    }
  }

  /** What the search returns, when it is not `undefined`, is an action of the class taken from the list. */
  lemma {:induction false} FindFirstFound(actions: seq<Value>, tag: string)
    requires FindFirst(actions, tag).Ok? && !FindFirst(actions, tag).value.Undefined?
    ensures Matches(FindFirst(actions, tag).value, tag)
    ensures FindFirst(actions, tag).value in actions
  {
    if !Matches(actions[0], tag) {
      FindFirstFound(actions[1..], tag);
    }
  }

  /** Inserting an action of another class anywhere in the list does not change what the search returns. */
  lemma {:induction false} FindFirstSkipsOther(actions: seq<Value>, tag: string, p: nat, other: Value)
    requires p <= |actions| && !IsNullish(other) && !Matches(other, tag)
    ensures FindFirst(actions[..p] + [other] + actions[p..], tag) == FindFirst(actions, tag)
  {
    var extended := actions[..p] + [other] + actions[p..];
    if p == 0 {
      assert extended[1..] == actions;
    } else {
      assert extended[0] == actions[0];
      assert extended[1..] == actions[1..][..p - 1] + [other] + actions[1..][p - 1..];
      FindFirstSkipsOther(actions[1..], tag, p - 1, other);
    }
  }
}
