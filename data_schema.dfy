/**
 * The schema every normalized build record must satisfy (`dataSchema`), with the schema of one
 * pipeline stage (`stageSchema`), written with the Joi builders in the order of their declaration,
 * and what conforming to it means for each field.
 */
module Schemas {
  import opened Wrappers
  import opened JsValue
  import opened Joi

  const QueueActionClass := "jenkins.metrics.impl.TimeInQueueAction"
  const BuildDataClass := "hudson.plugins.git.util.BuildData"
  const BuildClass := "hudson.plugins.git.util.Build"
  const ExecutorClass := "hudson.model.OneOffExecutor"

  /** `Joi.number().integer().min(0).required()` */
  function Count(): Schema { Required(Min(Integer(NumberSchema()), 0.0)) }

  /** `Joi.number().integer().required()` */
  function Instant(): Schema { Required(Integer(NumberSchema())) }

  /** `Joi.string().valid(tag).required()`: a constant class tag. */
  function Tag(tag: string): Schema { Required(Valid(StringSchema(), [Str(tag)])) }

  /** `Joi.object().unknown(true)`: any object. */
  function OpenObject(): Schema { Unknown(ObjectSchema()) }

  const StageStatuses: seq<Value> := [Str("IN_PROGRESS"), Str("SUCCESS"), Str("FAILED"), Str("ABORTED"), Str("UNSTABLE")]
  const RunStatuses: seq<Value> := [Str("IN_PROGRESS"), Str("SUCCESS"), Str("FAILURE"), Str("ABORTED"), Str("UNSTABLE")]
  const BuildResults: seq<Value> := [Str("SUCCESS"), Str("FAILURE"), Str("ABORTED"), Str("UNSTABLE"), Null]

  function StageStatusSchema(): Schema { Required(Valid(StringSchema(), StageStatuses)) }
  function RunStatusSchema(): Schema { Required(Valid(StringSchema(), RunStatuses)) }
  function BuildResultSchema(): Schema { Allow(Valid(StringSchema(), BuildResults), [Null]) }

  /** `stageSchema`: one entry of `wfapi_describe.stages`. */
  function StageSchema(): Schema
  {
    ObjectKeys([
      Child("_links", Required(OpenObject())),
      Child("id", Required(StringSchema())),
      Child("name", Required(StringSchema())),
      Child("execNode", Allow(StringSchema(), [Str("")])),
      Child("status", StageStatusSchema()),
      Child("error", Allow(ObjectSchema(), [Str("")])),
      Child("startTimeMillis", Instant()),
      Child("durationMillis", Count()),
      Child("pauseDurationMillis", Count())
    ])
  }

  /** One value of `buildsByBranchName`. */
  function BranchBuildSchema(): Schema
  {
    ObjectKeys([
      Child("_class", Tag(BuildClass)),
      Child("buildNumber", Instant()),
      Child("buildResult", Allow(AnySchema(), [Null])),
      Child("marked", Required(OpenObject())),
      Child("revision", Required(OpenObject()))
    ])
  }

  function LastBuiltRevisionSchema(): Schema
  {
    Required(ObjectKeys([
      Child("SHA1", Required(Length(StringSchema(), 40))),
      Child("branch", Required(Items(ArraySchema(), OpenObject())))
    ]))
  }

  function ExecutorSchema(): Schema
  {
    Required(ObjectKeys([Child("_class", Tag(ExecutorClass))]))
  }

  function WfapiSchema(): Schema
  {
    Required(ObjectKeys([
      Child("id", Required(StringSchema())),
      Child("name", Required(StringSchema())),
      Child("status", RunStatusSchema()),
      Child("startTimeMillis", Instant()),
      Child("endTimeMillis", Instant()),
      Child("durationMillis", Instant()),
      Child("queueDurationMillis", Instant()),
      Child("pauseDurationMillis", Instant()),
      Child("stages", Required(Items(ArraySchema(), StageSchema())))
    ]))
  }

  /** `dataSchema` */
  function DataSchema(): Schema
  {
    ObjectKeys([
      Child("_class", Tag(QueueActionClass)),
      Child("blockedDurationMillis", Count()),
      Child("blockedTimeMillis", Count()),
      Child("buildableDurationMillis", Count()),
      Child("buildableTimeMillis", Count()),
      Child("buildingDurationMillis", Count()),
      Child("executingTimeMillis", Count()),
      Child("executorUtilization", Required(Max(Min(NumberSchema(), 0.0), 1.0))),
      Child("subTaskCount", Count()),
      Child("waitingDurationMillis", Count()),
      Child("waitingTimeMillis", Count()),
      Child("_class_buildData", Tag(BuildDataClass)),
      Child("buildsByBranchName", Required(Pattern(ObjectSchema(), BranchBuildSchema()))),
      Child("lastBuiltRevision", LastBuiltRevisionSchema()),
      Child("remoteUrls", Required(Items(ArraySchema(), Uri(StringSchema())))),
      Child("scmName", Allow(StringSchema(), [Str("")])),
      Child("artifacts", Items(ArraySchema(), OpenObject())),
      Child("building", Required(BooleanSchema())),
      Child("description", Allow(AnySchema(), [Null])),
      Child("displayName", Required(StringSchema())),
      Child("duration", Count()),
      Child("estimatedDuration", Count()),
      Child("executor", ExecutorSchema()),
      Child("fullDisplayName", Required(StringSchema())),
      Child("id", Required(StringSchema())),
      Child("keepLog", Required(BooleanSchema())),
      Child("number", Instant()),
      Child("queueId", Instant()),
      Child("result", BuildResultSchema()),
      Child("timestamp", Instant()),
      Child("url", Required(Uri(StringSchema()))),
      Child("changeSets", Items(ArraySchema(), OpenObject())),
      Child("culprits", Items(ArraySchema(), OpenObject())),
      Child("wfapi_describe", WfapiSchema())
    ])
  }
}
