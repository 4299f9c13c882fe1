/**
 * What conforming to the build-record schema means, field by field, and which violations the
 * validator reports for the records the schema rejects.
 */
module SchemaFacts {
  import opened Wrappers
  import opened JsValue
  import opened Joi
  import opened Schemas

  // ---------------------------------------------------------------------------------------------
  // What the leaf schemas accept.

  predicate IntegerValue(v: Value)
  {
    v.Num? && v.n.Floor as real == v.n
  }

  predicate NonNegativeInteger(v: Value)
  {
    IntegerValue(v) && v.n >= 0.0
  }

  /** `Joi.number().integer().min(0).required()` accepts exactly the non-negative integers. */
  lemma CountAccepts(x: Value, isUri: string -> bool)
    ensures Accepts(Count(), x, isUri) <==> NonNegativeInteger(x)
  {
    var rules := Count().kind.numberRules;
    assert rules == [IntegerRule, MinRule(0.0)];
    if x.Num? {
      assert (forall i | 0 <= i < |rules| :: NumberRuleHolds(rules[i], x.n))
             <==> NumberRuleHolds(rules[0], x.n) && NumberRuleHolds(rules[1], x.n);
    }
  }

  /** `Joi.number().integer().required()` accepts every integer, of either sign. */
  lemma InstantAccepts(x: Value, isUri: string -> bool)
    ensures Accepts(Instant(), x, isUri) <==> IntegerValue(x)
  {
    var rules := Instant().kind.numberRules;
    assert rules == [IntegerRule];
    if x.Num? {
      assert (forall i | 0 <= i < |rules| :: NumberRuleHolds(rules[i], x.n)) <==> NumberRuleHolds(rules[0], x.n);
    }
  }

  /** The schema of `executorUtilization` accepts exactly the numbers of the closed interval [0, 1]. */
  lemma UtilizationAccepts(x: Value, isUri: string -> bool)
    ensures Accepts(Required(Max(Min(NumberSchema(), 0.0), 1.0)), x, isUri) <==> x.Num? && 0.0 <= x.n <= 1.0
  {
    var rules := Required(Max(Min(NumberSchema(), 0.0), 1.0)).kind.numberRules;
    assert rules == [MinRule(0.0), MaxRule(1.0)];
    if x.Num? {
      assert (forall i | 0 <= i < |rules| :: NumberRuleHolds(rules[i], x.n))
             <==> NumberRuleHolds(rules[0], x.n) && NumberRuleHolds(rules[1], x.n);
    }
  }

  /** A stage status is one of IN_PROGRESS, SUCCESS, FAILED, ABORTED or UNSTABLE, and nothing else. */
  lemma StageStatusAccepts(x: Value, isUri: string -> bool)
    ensures Accepts(StageStatusSchema(), x, isUri) <==> x in StageStatuses
  {
  }

  /** The status of the whole run is one of IN_PROGRESS, SUCCESS, FAILURE, ABORTED or UNSTABLE. */
  lemma RunStatusAccepts(x: Value, isUri: string -> bool)
    ensures Accepts(RunStatusSchema(), x, isUri) <==> x in RunStatuses
  {
  }

  /** `result` may be absent, `null`, or one of SUCCESS, FAILURE, ABORTED and UNSTABLE. */
  lemma BuildResultAccepts(x: Value, isUri: string -> bool)
    ensures Accepts(BuildResultSchema(), x, isUri) <==> x.Undefined? || x in BuildResults
  {
  }

  /** A stage may report FAILED but not FAILURE; the run may report FAILURE but not FAILED. */
  lemma StatusVocabulariesDiffer(isUri: string -> bool)
    ensures Accepts(StageStatusSchema(), Str("FAILED"), isUri) && !Accepts(StageStatusSchema(), Str("FAILURE"), isUri)
    ensures Accepts(RunStatusSchema(), Str("FAILURE"), isUri) && !Accepts(RunStatusSchema(), Str("FAILED"), isUri)
  {
    StageStatusAccepts(Str("FAILED"), isUri);
    StageStatusAccepts(Str("FAILURE"), isUri);
    RunStatusAccepts(Str("FAILURE"), isUri);
    RunStatusAccepts(Str("FAILED"), isUri);
  }

  /** A class tag accepts that one string and nothing else. */
  lemma TagAccepts(x: Value, tag: string, isUri: string -> bool)
    ensures Accepts(Tag(tag), x, isUri) <==> x == Str(tag)
  {
  }

  /** `Joi.string().required()` accepts every non-empty string. */
  lemma TextAccepts(x: Value, isUri: string -> bool)
    ensures Accepts(Required(StringSchema()), x, isUri) <==> x.Str? && x.s != ""
  {
  }

  /** `Joi.string().allow('')` accepts any string, the empty one included, or no value. */
  lemma OptionalTextAccepts(x: Value, isUri: string -> bool)
    ensures Accepts(Allow(StringSchema(), [Str("")]), x, isUri) <==> x.Undefined? || x.Str?
  {
  }

  /** `Joi.boolean().required()` accepts the two booleans. */
  lemma FlagAccepts(x: Value, isUri: string -> bool)
    ensures Accepts(Required(BooleanSchema()), x, isUri) <==> x.Bool?
  {
  }

  /** `Joi.string().length(40).required()` accepts the strings whose JavaScript `length` is 40. */
  lemma Sha1Accepts(x: Value, isUri: string -> bool)
    ensures Accepts(Required(Length(StringSchema(), 40)), x, isUri) <==> x.Str? && Utf16Length(x.s) == 40
  {
    var rules := Required(Length(StringSchema(), 40)).kind.stringRules;
    assert rules == [LengthRule(40)];
    if x.Str? && x.s != "" {
      assert (forall i | 0 <= i < |rules| :: StringRuleHolds(rules[i], x.s, isUri)) <==> StringRuleHolds(rules[0], x.s, isUri);
    }
  }

  /** `Joi.string().uri().required()` accepts the non-empty strings that are URIs. */
  lemma UriAccepts(x: Value, isUri: string -> bool)
    ensures Accepts(Required(Uri(StringSchema())), x, isUri) <==> x.Str? && x.s != "" && isUri(x.s)
  {
    var rules := Required(Uri(StringSchema())).kind.stringRules;
    assert rules == [UriRule];
    if x.Str? && x.s != "" {
      assert (forall i | 0 <= i < |rules| :: StringRuleHolds(rules[i], x.s, isUri)) <==> StringRuleHolds(rules[0], x.s, isUri);
    }
  }

  /** `Joi.array().items(Joi.string().uri()).required()` accepts the arrays whose items are all URIs (and no holes). */
  lemma UriListAccepts(x: Value, isUri: string -> bool)
    ensures Accepts(Required(Items(ArraySchema(), Uri(StringSchema()))), x, isUri)
            <==> x.Arr? && forall i | 0 <= i < |x.elems| :: x.elems[i].Str? && x.elems[i].s != "" && isUri(x.elems[i].s)
  {
    if x.Arr? {
      forall i | 0 <= i < |x.elems|
        ensures !x.elems[i].Undefined? && Accepts(Uri(StringSchema()), x.elems[i], isUri)
                <==> x.elems[i].Str? && x.elems[i].s != "" && isUri(x.elems[i].s)
      {
        UriAccepts(x.elems[i], isUri);
      }
    }
  }

  /** A required array of items of `item` accepts the arrays without holes whose items `item` accepts. */
  lemma ListAccepts(x: Value, item: Schema, isUri: string -> bool)
    ensures Accepts(Required(Items(ArraySchema(), item)), x, isUri)
            <==> x.Arr? && forall i | 0 <= i < |x.elems| :: !x.elems[i].Undefined? && Accepts(item, x.elems[i], isUri)
  {
  }

  /** `Joi.object().unknown(true).required()` accepts every object, whatever its keys. */
  lemma OpenObjectAccepts(x: Value, isUri: string -> bool)
    ensures Accepts(Required(OpenObject()), x, isUri) <==> x.Obj?
  {
  }

  /** `Joi.object().allow('')`: absent, the empty string, or any object (`Joi.object()` without keys takes any key). */
  lemma ErrorFieldAccepts(x: Value, isUri: string -> bool)
    ensures Accepts(Allow(ObjectSchema(), [Str("")]), x, isUri) <==> x.Undefined? || x == Str("") || x.Obj?
  {
  }

  /** An array of objects, without holes. */
  predicate ObjectList(x: Value)
  {
    x.Arr? && forall i | 0 <= i < |x.elems| :: x.elems[i].Obj?
  }

  /** `Joi.array().items(Joi.object().unknown(true))`, required or not: an array of objects and no holes. */
  lemma ObjectListAccepts(x: Value, isUri: string -> bool)
    ensures Accepts(Items(ArraySchema(), OpenObject()), x, isUri) <==> x.Undefined? || ObjectList(x)
    ensures Accepts(Required(Items(ArraySchema(), OpenObject())), x, isUri) <==> ObjectList(x)
  {
    if x.Arr? {
      forall i | 0 <= i < |x.elems|
        ensures !x.elems[i].Undefined? && Accepts(OpenObject(), x.elems[i], isUri) <==> x.elems[i].Obj?
      {
        OpenObjectAccepts(x.elems[i], isUri);
      }
    }
  }

  predicate NonEmptyText(x: Value)
  {
    x.Str? && x.s != ""
  }

  // ---------------------------------------------------------------------------------------------
  // What the nested objects accept, stated as plain conditions on their fields.

  const StageKeys: seq<string> := [
    "_links", "id", "name", "execNode", "status", "error", "startTimeMillis", "durationMillis", "pauseDurationMillis"]

  lemma StageKeyTable()
    ensures DeclaredKeys(StageSchema().kind.children) == StageKeys
  {
  }

  /** What `stageSchema` asks of the values under its nine keys. */
  predicate StageFieldsHold(x: Value)
  {
    && Get(x, "_links").Obj?
    && NonEmptyText(Get(x, "id")) && NonEmptyText(Get(x, "name"))
    && (Get(x, "execNode").Undefined? || Get(x, "execNode").Str?)
    && Get(x, "status") in StageStatuses
    && (Get(x, "error").Undefined? || Get(x, "error") == Str("") || Get(x, "error").Obj?)
    && IntegerValue(Get(x, "startTimeMillis"))
    && NonNegativeInteger(Get(x, "durationMillis")) && NonNegativeInteger(Get(x, "pauseDurationMillis"))
  }

  /** One pipeline stage as `stageSchema` describes it: an object with no key but the nine declared ones. */
  predicate ConformingStage(x: Value)
  {
    x.Obj? && (forall k | k in x.props :: k in StageKeys) && StageFieldsHold(x)
  }

  lemma StageChildrenConform(x: Value, isUri: string -> bool)
    ensures ChildrenConform(StageSchema().kind.children, x, isUri) <==> StageFieldsHold(x)
  {
    var children := StageSchema().kind.children;
    StageFields();
    OpenObjectAccepts(Get(x, "_links"), isUri);
    TextAccepts(Get(x, "id"), isUri);
    TextAccepts(Get(x, "name"), isUri);
    OptionalTextAccepts(Get(x, "execNode"), isUri);
    StageStatusAccepts(Get(x, "status"), isUri);
    ErrorFieldAccepts(Get(x, "error"), isUri);
    InstantAccepts(Get(x, "startTimeMillis"), isUri);
    CountAccepts(Get(x, "durationMillis"), isUri);
    CountAccepts(Get(x, "pauseDurationMillis"), isUri);
    if StageFieldsHold(x) {
      forall i | 0 <= i < |children| ensures Accepts(children[i].schema, Get(x, children[i].key), isUri) {
        if i == 0 {} else if i == 1 {} else if i == 2 {} else if i == 3 {} else if i == 4 {}
        else if i == 5 {} else if i == 6 {} else if i == 7 {} else { assert i == 8; }
      }
    }
  }

  /** `stageSchema` (which is not `.required()`) accepts no value or exactly the conforming stages. */
  lemma StageAccepts(x: Value, isUri: string -> bool)
    ensures Accepts(StageSchema(), x, isUri) <==> x.Undefined? || ConformingStage(x)
  {
    if x.Obj? {
      ClosedObjectAccepts(StageSchema(), x, isUri);
      StageKeyTable();
      StageChildrenConform(x, isUri);
    }
  }

  /** The `stages` list: an array of conforming stages, without holes. */
  lemma StageListAccepts(x: Value, isUri: string -> bool)
    ensures Accepts(Required(Items(ArraySchema(), StageSchema())), x, isUri)
            <==> x.Arr? && forall i | 0 <= i < |x.elems| :: ConformingStage(x.elems[i])
  {
    if x.Arr? {
      forall i | 0 <= i < |x.elems|
        ensures !x.elems[i].Undefined? && Accepts(StageSchema(), x.elems[i], isUri) <==> ConformingStage(x.elems[i])
      {
        StageAccepts(x.elems[i], isUri);
      }
    }
  }

  const WfapiKeys: seq<string> := [
    "id", "name", "status", "startTimeMillis", "endTimeMillis", "durationMillis",
    "queueDurationMillis", "pauseDurationMillis", "stages"]

  lemma WfapiKeyTable()
    ensures DeclaredKeys(WfapiSchema().kind.children) == WfapiKeys
  {
  }

  /** What the schema of `wfapi_describe` asks of the values under its nine keys. */
  predicate RunFieldsHold(x: Value)
  {
    && NonEmptyText(Get(x, "id")) && NonEmptyText(Get(x, "name"))
    && Get(x, "status") in RunStatuses
    && IntegerValue(Get(x, "startTimeMillis")) && IntegerValue(Get(x, "endTimeMillis"))
    && IntegerValue(Get(x, "durationMillis")) && IntegerValue(Get(x, "queueDurationMillis"))
    && IntegerValue(Get(x, "pauseDurationMillis"))
    && Get(x, "stages").Arr?
    && forall i | 0 <= i < |Get(x, "stages").elems| :: ConformingStage(Get(x, "stages").elems[i])
  }

  /** A run description as the schema of `wfapi_describe` describes it. */
  predicate ConformingRun(x: Value)
  {
    x.Obj? && (forall k | k in x.props :: k in WfapiKeys) && RunFieldsHold(x)
  }

  lemma RunChildrenConform(x: Value, isUri: string -> bool)
    ensures ChildrenConform(WfapiSchema().kind.children, x, isUri) <==> RunFieldsHold(x)
  {
    var children := WfapiSchema().kind.children;
    RunFields();
    TextAccepts(Get(x, "id"), isUri);
    TextAccepts(Get(x, "name"), isUri);
    RunStatusAccepts(Get(x, "status"), isUri);
    InstantAccepts(Get(x, "startTimeMillis"), isUri);
    InstantAccepts(Get(x, "endTimeMillis"), isUri);
    InstantAccepts(Get(x, "durationMillis"), isUri);
    InstantAccepts(Get(x, "queueDurationMillis"), isUri);
    InstantAccepts(Get(x, "pauseDurationMillis"), isUri);
    StageListAccepts(Get(x, "stages"), isUri);
    if RunFieldsHold(x) {
      forall i | 0 <= i < |children| ensures Accepts(children[i].schema, Get(x, children[i].key), isUri) {
        if i == 0 {} else if i == 1 {} else if i == 2 {} else if i == 3 {} else if i == 4 {}
        else if i == 5 {} else if i == 6 {} else if i == 7 {} else { assert i == 8; }
      }
    }
  }

  /** The schema of `wfapi_describe` (required) accepts exactly the conforming run descriptions. */
  lemma RunAccepts(x: Value, isUri: string -> bool)
    ensures Accepts(WfapiSchema(), x, isUri) <==> ConformingRun(x)
  {
    if x.Obj? {
      ClosedObjectAccepts(WfapiSchema(), x, isUri);
      WfapiKeyTable();
      RunChildrenConform(x, isUri);
    }
  }

  /** `lastBuiltRevision` as its schema describes it: a SHA1 of 40 UTF-16 code units and a list of branch objects. */
  predicate ConformingRevision(x: Value)
  {
    && x.Obj?
    && (forall k | k in x.props :: k in ["SHA1", "branch"])
    && Get(x, "SHA1").Str? && Utf16Length(Get(x, "SHA1").s) == 40
    && ObjectList(Get(x, "branch"))
  }

  /** The schema of `lastBuiltRevision` (required) accepts exactly the conforming revisions. */
  lemma RevisionAccepts(x: Value, isUri: string -> bool)
    ensures Accepts(LastBuiltRevisionSchema(), x, isUri) <==> ConformingRevision(x)
  {
    if x.Obj? {
      var children := LastBuiltRevisionSchema().kind.children;
      ClosedObjectAccepts(LastBuiltRevisionSchema(), x, isUri);
      assert DeclaredKeys(children) == ["SHA1", "branch"];
      RevisionFields();
      Sha1Accepts(Get(x, "SHA1"), isUri);
      ObjectListAccepts(Get(x, "branch"), isUri);
      if ConformingRevision(x) {
        forall i | 0 <= i < |children| ensures Accepts(children[i].schema, Get(x, children[i].key), isUri) {
          if i == 0 {} else { assert i == 1; }
        }
      }
    }
  }

  /** `executor` as its schema describes it: an object whose only key is the one-off executor's class. */
  predicate ConformingExecutor(x: Value)
  {
    && x.Obj?
    && (forall k | k in x.props :: k == "_class")
    && Get(x, "_class") == Str(ExecutorClass)
  }

  /** The schema of `executor` (required) accepts exactly the conforming executors. */
  lemma ExecutorAccepts(x: Value, isUri: string -> bool)
    ensures Accepts(ExecutorSchema(), x, isUri) <==> ConformingExecutor(x)
  {
    if x.Obj? {
      var children := ExecutorSchema().kind.children;
      ClosedObjectAccepts(ExecutorSchema(), x, isUri);
      assert DeclaredKeys(children) == ["_class"];
      ExecutorFields();
      TagAccepts(Get(x, "_class"), ExecutorClass, isUri);
      if ConformingExecutor(x) {
        forall i | 0 <= i < |children| ensures Accepts(children[i].schema, Get(x, children[i].key), isUri) {
          assert i == 0;
        }
      }
    }
  }

  const BranchBuildKeys: seq<string> := ["_class", "buildNumber", "buildResult", "marked", "revision"]

  lemma BranchBuildKeyTable()
    ensures DeclaredKeys(BranchBuildSchema().kind.children) == BranchBuildKeys
  {
  }

  /** What the schema of a branch entry asks of its keys; `buildResult` may hold anything. */
  predicate BranchBuildFieldsHold(x: Value)
  {
    && Get(x, "_class") == Str(BuildClass)
    && IntegerValue(Get(x, "buildNumber"))
    && Get(x, "marked").Obj? && Get(x, "revision").Obj?
  }

  /** One value of `buildsByBranchName`: a Git `Build` object with no key but the five declared ones. */
  predicate ConformingBranchBuild(x: Value)
  {
    x.Obj? && (forall k | k in x.props :: k in BranchBuildKeys) && BranchBuildFieldsHold(x)
  }

  lemma BranchBuildChildrenConform(x: Value, isUri: string -> bool)
    ensures ChildrenConform(BranchBuildSchema().kind.children, x, isUri) <==> BranchBuildFieldsHold(x)
  {
    var children := BranchBuildSchema().kind.children;
    BranchBuildFields();
    TagAccepts(Get(x, "_class"), BuildClass, isUri);
    InstantAccepts(Get(x, "buildNumber"), isUri);
    OpenObjectAccepts(Get(x, "marked"), isUri);
    OpenObjectAccepts(Get(x, "revision"), isUri);
    if BranchBuildFieldsHold(x) {
      forall i | 0 <= i < |children| ensures Accepts(children[i].schema, Get(x, children[i].key), isUri) {
        if i == 0 {} else if i == 1 {} else if i == 2 {} else if i == 3 {} else { assert i == 4; }
      }
    }
  }

  /** The schema of a branch entry (not `.required()`) accepts no value or exactly the conforming branch builds. */
  lemma BranchBuildAccepts(x: Value, isUri: string -> bool)
    ensures Accepts(BranchBuildSchema(), x, isUri) <==> x.Undefined? || ConformingBranchBuild(x)
  {
    if x.Obj? {
      ClosedObjectAccepts(BranchBuildSchema(), x, isUri);
      BranchBuildKeyTable();
      BranchBuildChildrenConform(x, isUri);
    }
  }

  /**
   * `buildsByBranchName` as its schema describes it: an object whose every key is a non-empty
   * string (what the key pattern `Joi.string()` matches) and whose every value is a branch build.
   */
  predicate ConformingBranchMap(x: Value)
  {
    && x.Obj?
    && forall k | k in x.props :: k != "" && (x.props[k].Undefined? || ConformingBranchBuild(x.props[k]))
  }

  /** The schema of `buildsByBranchName` accepts exactly the conforming branch maps. */
  lemma BranchMapAccepts(x: Value, isUri: string -> bool)
    ensures Accepts(Required(Pattern(ObjectSchema(), BranchBuildSchema())), x, isUri) <==> ConformingBranchMap(x)
  {
    if x.Obj? {
      forall k | k in x.props
        ensures ExtraKeyAccepted(false, Some(BranchBuildSchema()), false, k, x.props[k], isUri)
                <==> k != "" && (x.props[k].Undefined? || ConformingBranchBuild(x.props[k]))
      {
        BranchBuildAccepts(x.props[k], isUri);
      }
    }
  }

  // ---------------------------------------------------------------------------------------------
  // The key table of the record.

  /** The keys of a normalized record, in the order the schema declares them. */
  const SchemaKeys: seq<string> := [
    "_class", "blockedDurationMillis", "blockedTimeMillis", "buildableDurationMillis",
    "buildableTimeMillis", "buildingDurationMillis", "executingTimeMillis", "executorUtilization",
    "subTaskCount", "waitingDurationMillis", "waitingTimeMillis", "_class_buildData",
    "buildsByBranchName", "lastBuiltRevision", "remoteUrls", "scmName", "artifacts", "building",
    "description", "displayName", "duration", "estimatedDuration", "executor", "fullDisplayName",
    "id", "keepLog", "number", "queueId", "result", "timestamp", "url", "changeSets", "culprits",
    "wfapi_describe"]

  /** The declared keys a record may leave out. */
  const OptionalKeys: seq<string> := ["scmName", "artifacts", "description", "result", "changeSets", "culprits"]

  /** The schema declares exactly `SchemaKeys`, in this order. */
  lemma SchemaKeyTable()
    ensures DeclaredKeys(DataSchema().kind.children) == SchemaKeys
  {
  }

  /** The positions of `OptionalKeys` among the declared keys. */
  const OptionalPositions: set<nat> := {15, 16, 18, 28, 31, 32}

  lemma OptionalPositionsNamed()
    ensures forall i | i in OptionalPositions :: i < |SchemaKeys| && SchemaKeys[i] in OptionalKeys
    ensures forall k | k in OptionalKeys :: exists i | i in OptionalPositions :: i < |SchemaKeys| && SchemaKeys[i] == k
  {
    assert SchemaKeys[15] == "scmName" && SchemaKeys[16] == "artifacts" && SchemaKeys[18] == "description";
    assert SchemaKeys[28] == "result" && SchemaKeys[31] == "changeSets" && SchemaKeys[32] == "culprits";
  }

  /** The schema requires every declared key but the six at `OptionalPositions`. */
  lemma RequiredKeyTable()
    ensures forall i | 0 <= i < |DataSchema().kind.children| ::
              DataSchema().kind.children[i].schema.required <==> i !in OptionalPositions
  {
  }

  /** A record may leave out exactly the optional keys: an absent value passes a key's schema iff it is optional. */
  lemma OptionalKeysMayBeAbsent(isUri: string -> bool)
    ensures forall i | 0 <= i < |DataSchema().kind.children| ::
              Accepts(DataSchema().kind.children[i].schema, Undefined, isUri) <==> i in OptionalPositions
  {
    RequiredKeyTable();
  }

  // ---------------------------------------------------------------------------------------------
  // Where each key sits in the schemas.

  /** Declared keys 0 to 3 of the record schema. */
  lemma RecordFields0To3()
    ensures DataSchema().kind.children[0] == Child("_class", Tag(QueueActionClass))
    ensures DataSchema().kind.children[1] == Child("blockedDurationMillis", Count())
    ensures DataSchema().kind.children[2] == Child("blockedTimeMillis", Count())
    ensures DataSchema().kind.children[3] == Child("buildableDurationMillis", Count())
  {
  }

  /** Declared keys 4 to 7 of the record schema. */
  lemma RecordFields4To7()
    ensures DataSchema().kind.children[4] == Child("buildableTimeMillis", Count())
    ensures DataSchema().kind.children[5] == Child("buildingDurationMillis", Count())
    ensures DataSchema().kind.children[6] == Child("executingTimeMillis", Count())
    ensures DataSchema().kind.children[7] == Child("executorUtilization", Required(Max(Min(NumberSchema(), 0.0), 1.0)))
  {
  }

  /** Declared keys 8 to 11 of the record schema. */
  lemma RecordFields8To11()
    ensures DataSchema().kind.children[8] == Child("subTaskCount", Count())
    ensures DataSchema().kind.children[9] == Child("waitingDurationMillis", Count())
    ensures DataSchema().kind.children[10] == Child("waitingTimeMillis", Count())
    ensures DataSchema().kind.children[11] == Child("_class_buildData", Tag(BuildDataClass))
  {
  }

  /** Declared keys 12 to 16 of the record schema. */
  lemma RecordFields12To16()
    ensures DataSchema().kind.children[12] == Child("buildsByBranchName", Required(Pattern(ObjectSchema(), BranchBuildSchema())))
    ensures DataSchema().kind.children[13] == Child("lastBuiltRevision", LastBuiltRevisionSchema())
    ensures DataSchema().kind.children[14] == Child("remoteUrls", Required(Items(ArraySchema(), Uri(StringSchema()))))
    ensures DataSchema().kind.children[15] == Child("scmName", Allow(StringSchema(), [Str("")]))
    ensures DataSchema().kind.children[16] == Child("artifacts", Items(ArraySchema(), OpenObject()))
  {
  }

  /** Declared keys 17 to 22 of the record schema. */
  lemma RecordFields17To22()
    ensures DataSchema().kind.children[17] == Child("building", Required(BooleanSchema()))
    ensures DataSchema().kind.children[18] == Child("description", Allow(AnySchema(), [Null]))
    ensures DataSchema().kind.children[19] == Child("displayName", Required(StringSchema()))
    ensures DataSchema().kind.children[20] == Child("duration", Count())
    ensures DataSchema().kind.children[21] == Child("estimatedDuration", Count())
    ensures DataSchema().kind.children[22] == Child("executor", ExecutorSchema())
  {
  }

  /** Declared keys 23 to 28 of the record schema. */
  lemma RecordFields23To28()
    ensures DataSchema().kind.children[23] == Child("fullDisplayName", Required(StringSchema()))
    ensures DataSchema().kind.children[24] == Child("id", Required(StringSchema()))
    ensures DataSchema().kind.children[25] == Child("keepLog", Required(BooleanSchema()))
    ensures DataSchema().kind.children[26] == Child("number", Instant())
    ensures DataSchema().kind.children[27] == Child("queueId", Instant())
    ensures DataSchema().kind.children[28] == Child("result", BuildResultSchema())
  {
  }

  /** Declared keys 29 to 33 of the record schema. */
  lemma RecordFields29To33()
    ensures DataSchema().kind.children[29] == Child("timestamp", Instant())
    ensures DataSchema().kind.children[30] == Child("url", Required(Uri(StringSchema())))
    ensures DataSchema().kind.children[31] == Child("changeSets", Items(ArraySchema(), OpenObject()))
    ensures DataSchema().kind.children[32] == Child("culprits", Items(ArraySchema(), OpenObject()))
    ensures DataSchema().kind.children[33] == Child("wfapi_describe", WfapiSchema())
  {
  }

  /** The declared keys of a stage. */
  lemma StageFields()
    ensures StageSchema().kind.children[0] == Child("_links", Required(OpenObject()))
    ensures StageSchema().kind.children[1] == Child("id", Required(StringSchema()))
    ensures StageSchema().kind.children[2] == Child("name", Required(StringSchema()))
    ensures StageSchema().kind.children[3] == Child("execNode", Allow(StringSchema(), [Str("")]))
    ensures StageSchema().kind.children[4] == Child("status", StageStatusSchema())
    ensures StageSchema().kind.children[5] == Child("error", Allow(ObjectSchema(), [Str("")]))
    ensures StageSchema().kind.children[6] == Child("startTimeMillis", Instant())
    ensures StageSchema().kind.children[7] == Child("durationMillis", Count())
    ensures StageSchema().kind.children[8] == Child("pauseDurationMillis", Count())
  {
  }

  /** The declared keys of `wfapi_describe`. */
  lemma RunFields()
    ensures WfapiSchema().kind.children[0] == Child("id", Required(StringSchema()))
    ensures WfapiSchema().kind.children[1] == Child("name", Required(StringSchema()))
    ensures WfapiSchema().kind.children[2] == Child("status", RunStatusSchema())
    ensures WfapiSchema().kind.children[3] == Child("startTimeMillis", Instant())
    ensures WfapiSchema().kind.children[4] == Child("endTimeMillis", Instant())
    ensures WfapiSchema().kind.children[5] == Child("durationMillis", Instant())
    ensures WfapiSchema().kind.children[6] == Child("queueDurationMillis", Instant())
    ensures WfapiSchema().kind.children[7] == Child("pauseDurationMillis", Instant())
    ensures WfapiSchema().kind.children[8] == Child("stages", Required(Items(ArraySchema(), StageSchema())))
  {
  }

  /** The declared keys of `lastBuiltRevision`. */
  lemma RevisionFields()
    ensures LastBuiltRevisionSchema().kind.children[0] == Child("SHA1", Required(Length(StringSchema(), 40)))
    ensures LastBuiltRevisionSchema().kind.children[1] == Child("branch", Required(Items(ArraySchema(), OpenObject())))
  {
  }

  /** The declared keys of one value of `buildsByBranchName`. */
  lemma BranchBuildFields()
    ensures BranchBuildSchema().kind.children[0] == Child("_class", Tag(BuildClass))
    ensures BranchBuildSchema().kind.children[1] == Child("buildNumber", Instant())
    ensures BranchBuildSchema().kind.children[2] == Child("buildResult", Allow(AnySchema(), [Null]))
    ensures BranchBuildSchema().kind.children[3] == Child("marked", Required(OpenObject()))
    ensures BranchBuildSchema().kind.children[4] == Child("revision", Required(OpenObject()))
  {
  }

  /** The declared key of `executor`. */
  lemma ExecutorFields()
    ensures ExecutorSchema().kind.children[0] == Child("_class", Tag(ExecutorClass))
  {
  }

  // ---------------------------------------------------------------------------------------------
  // What a record that passes validation holds.

  /** A valid record carries the two constant class tags. */
  lemma AcceptedClassTags(v: Value, isUri: string -> bool)
    requires Accepts(DataSchema(), v, isUri) && !v.Undefined?
    ensures v.Obj?
    ensures Get(v, "_class") == Str(QueueActionClass)
    ensures Get(v, "_class_buildData") == Str(BuildDataClass)
  {
    RecordFields0To3();
    RecordFields8To11();
    AcceptedChild(DataSchema(), v, isUri, 0);
    TagAccepts(Get(v, "_class"), QueueActionClass, isUri);
    AcceptedChild(DataSchema(), v, isUri, 11);
    TagAccepts(Get(v, "_class_buildData"), BuildDataClass, isUri);
  }

  /** The first five queue counters of a valid record are non-negative integers. */
  lemma AcceptedBlockedCounts(v: Value, isUri: string -> bool)
    requires Accepts(DataSchema(), v, isUri) && !v.Undefined?
    ensures NonNegativeInteger(Get(v, "blockedDurationMillis")) && NonNegativeInteger(Get(v, "blockedTimeMillis"))
    ensures NonNegativeInteger(Get(v, "buildableDurationMillis")) && NonNegativeInteger(Get(v, "buildableTimeMillis"))
    ensures NonNegativeInteger(Get(v, "buildingDurationMillis"))
  {
    RecordFields0To3();
    RecordFields4To7();
    AcceptedChild(DataSchema(), v, isUri, 1);
    CountAccepts(Get(v, "blockedDurationMillis"), isUri);
    AcceptedChild(DataSchema(), v, isUri, 2);
    CountAccepts(Get(v, "blockedTimeMillis"), isUri);
    AcceptedChild(DataSchema(), v, isUri, 3);
    CountAccepts(Get(v, "buildableDurationMillis"), isUri);
    AcceptedChild(DataSchema(), v, isUri, 4);
    CountAccepts(Get(v, "buildableTimeMillis"), isUri);
    AcceptedChild(DataSchema(), v, isUri, 5);
    CountAccepts(Get(v, "buildingDurationMillis"), isUri);
  }

  /** The remaining four queue counters of a valid record are non-negative integers. */
  lemma AcceptedWaitingCounts(v: Value, isUri: string -> bool)
    requires Accepts(DataSchema(), v, isUri) && !v.Undefined?
    ensures NonNegativeInteger(Get(v, "executingTimeMillis")) && NonNegativeInteger(Get(v, "subTaskCount"))
    ensures NonNegativeInteger(Get(v, "waitingDurationMillis")) && NonNegativeInteger(Get(v, "waitingTimeMillis"))
  {
    RecordFields4To7();
    RecordFields8To11();
    AcceptedChild(DataSchema(), v, isUri, 6);
    CountAccepts(Get(v, "executingTimeMillis"), isUri);
    AcceptedChild(DataSchema(), v, isUri, 8);
    CountAccepts(Get(v, "subTaskCount"), isUri);
    AcceptedChild(DataSchema(), v, isUri, 9);
    CountAccepts(Get(v, "waitingDurationMillis"), isUri);
    AcceptedChild(DataSchema(), v, isUri, 10);
    CountAccepts(Get(v, "waitingTimeMillis"), isUri);
  }

  /** The executor utilization of a valid record is a number in [0, 1]. */
  lemma AcceptedUtilization(v: Value, isUri: string -> bool)
    requires Accepts(DataSchema(), v, isUri) && !v.Undefined?
    ensures Get(v, "executorUtilization").Num? && 0.0 <= Get(v, "executorUtilization").n <= 1.0
  {
    RecordFields4To7();
    AcceptedChild(DataSchema(), v, isUri, 7);
    UtilizationAccepts(Get(v, "executorUtilization"), isUri);
  }

  /** The last built revision of a valid record has a SHA1 of 40 UTF-16 code units and a list of branch objects. */
  lemma AcceptedRevision(v: Value, isUri: string -> bool)
    requires Accepts(DataSchema(), v, isUri) && !v.Undefined?
    ensures var revision := Get(v, "lastBuiltRevision");
            && revision.Obj?
            && Get(revision, "SHA1").Str? && Utf16Length(Get(revision, "SHA1").s) == 40
            && ObjectList(Get(revision, "branch"))
  {
    RecordFields12To16();
    AcceptedChild(DataSchema(), v, isUri, 13);
    AcceptedRevisionFields(Get(v, "lastBuiltRevision"), isUri);
  }

  /** What a valid `lastBuiltRevision` holds: it is not optional, so `undefined` is not valid here. */
  lemma AcceptedRevisionFields(revision: Value, isUri: string -> bool)
    requires Accepts(LastBuiltRevisionSchema(), revision, isUri)
    ensures revision.Obj?
    ensures Get(revision, "SHA1").Str? && Utf16Length(Get(revision, "SHA1").s) == 40
    ensures ObjectList(Get(revision, "branch"))
  {
    RevisionFields();
    AcceptedChild(LastBuiltRevisionSchema(), revision, isUri, 0);
    Sha1Accepts(Get(revision, "SHA1"), isUri);
    AcceptedChild(LastBuiltRevisionSchema(), revision, isUri, 1);
    ObjectListAccepts(Get(revision, "branch"), isUri);
  }

  /** The branch map, remote URLs and SCM name of a valid record. */
  lemma AcceptedRemotes(v: Value, isUri: string -> bool)
    requires Accepts(DataSchema(), v, isUri) && !v.Undefined?
    ensures ConformingBranchMap(Get(v, "buildsByBranchName"))
    ensures var urls := Get(v, "remoteUrls");
            && urls.Arr?
            && forall i | 0 <= i < |urls.elems| :: NonEmptyText(urls.elems[i]) && isUri(urls.elems[i].s)
    ensures Get(v, "scmName").Undefined? || Get(v, "scmName").Str?
  {
    RecordFields12To16();
    AcceptedChild(DataSchema(), v, isUri, 12);
    BranchMapAccepts(Get(v, "buildsByBranchName"), isUri);
    AcceptedChild(DataSchema(), v, isUri, 14);
    UriListAccepts(Get(v, "remoteUrls"), isUri);
    AcceptedChild(DataSchema(), v, isUri, 15);
    OptionalTextAccepts(Get(v, "scmName"), isUri);
  }

  /** The flags of a valid record are booleans, and its names and id are non-empty strings. */
  lemma AcceptedNames(v: Value, isUri: string -> bool)
    requires Accepts(DataSchema(), v, isUri) && !v.Undefined?
    ensures Get(v, "building").Bool? && Get(v, "keepLog").Bool?
    ensures NonEmptyText(Get(v, "displayName")) && NonEmptyText(Get(v, "fullDisplayName")) && NonEmptyText(Get(v, "id"))
  {
    RecordFields17To22();
    RecordFields23To28();
    AcceptedChild(DataSchema(), v, isUri, 17);
    FlagAccepts(Get(v, "building"), isUri);
    AcceptedChild(DataSchema(), v, isUri, 19);
    TextAccepts(Get(v, "displayName"), isUri);
    AcceptedChild(DataSchema(), v, isUri, 23);
    TextAccepts(Get(v, "fullDisplayName"), isUri);
    AcceptedChild(DataSchema(), v, isUri, 24);
    TextAccepts(Get(v, "id"), isUri);
    AcceptedChild(DataSchema(), v, isUri, 25);
    FlagAccepts(Get(v, "keepLog"), isUri);
  }

  /** The durations of a valid record are non-negative integers; its number, queue id and timestamp are integers. */
  lemma AcceptedCounters(v: Value, isUri: string -> bool)
    requires Accepts(DataSchema(), v, isUri) && !v.Undefined?
    ensures NonNegativeInteger(Get(v, "duration")) && NonNegativeInteger(Get(v, "estimatedDuration"))
    ensures IntegerValue(Get(v, "number")) && IntegerValue(Get(v, "queueId")) && IntegerValue(Get(v, "timestamp"))
  {
    RecordFields17To22();
    RecordFields23To28();
    RecordFields29To33();
    AcceptedChild(DataSchema(), v, isUri, 20);
    CountAccepts(Get(v, "duration"), isUri);
    AcceptedChild(DataSchema(), v, isUri, 21);
    CountAccepts(Get(v, "estimatedDuration"), isUri);
    AcceptedChild(DataSchema(), v, isUri, 26);
    InstantAccepts(Get(v, "number"), isUri);
    AcceptedChild(DataSchema(), v, isUri, 27);
    InstantAccepts(Get(v, "queueId"), isUri);
    AcceptedChild(DataSchema(), v, isUri, 29);
    InstantAccepts(Get(v, "timestamp"), isUri);
  }

  /** The result of a valid record is absent, null or one of the four outcomes, and its URL is a non-empty URI string. */
  lemma AcceptedOutcome(v: Value, isUri: string -> bool)
    requires Accepts(DataSchema(), v, isUri) && !v.Undefined?
    ensures Get(v, "result").Undefined? || Get(v, "result") in BuildResults
    ensures NonEmptyText(Get(v, "url")) && isUri(Get(v, "url").s)
  {
    RecordFields23To28();
    RecordFields29To33();
    AcceptedChild(DataSchema(), v, isUri, 28);
    BuildResultAccepts(Get(v, "result"), isUri);
    AcceptedChild(DataSchema(), v, isUri, 30);
    UriAccepts(Get(v, "url"), isUri);
  }

  /** The executor of a valid record is a one-off executor. */
  lemma AcceptedExecutor(v: Value, isUri: string -> bool)
    requires Accepts(DataSchema(), v, isUri) && !v.Undefined?
    ensures Get(v, "executor").Obj?
    ensures Get(Get(v, "executor"), "_class") == Str(ExecutorClass)
  {
    RecordFields17To22();
    AcceptedChild(DataSchema(), v, isUri, 22);
    AcceptedExecutorFields(Get(v, "executor"), isUri);
  }

  lemma AcceptedExecutorFields(executor: Value, isUri: string -> bool)
    requires Accepts(ExecutorSchema(), executor, isUri)
    ensures executor.Obj?
    ensures Get(executor, "_class") == Str(ExecutorClass)
  {
    ExecutorFields();
    AcceptedChild(ExecutorSchema(), executor, isUri, 0);
    TagAccepts(Get(executor, "_class"), ExecutorClass, isUri);
  }

  /** The run description of a valid record: its status vocabulary and valid stages. */
  lemma AcceptedRun(v: Value, isUri: string -> bool)
    requires Accepts(DataSchema(), v, isUri) && !v.Undefined?
    ensures var run := Get(v, "wfapi_describe");
            && run.Obj?
            && Get(run, "status") in RunStatuses
            && Get(run, "stages").Arr?
            && forall i | 0 <= i < |Get(run, "stages").elems| :: ConformingStage(Get(run, "stages").elems[i])
  {
    RecordFields29To33();
    AcceptedChild(DataSchema(), v, isUri, 33);
    AcceptedRunFields(Get(v, "wfapi_describe"), isUri);
  }

  /** What a valid `wfapi_describe` object holds. */
  lemma AcceptedRunFields(run: Value, isUri: string -> bool)
    requires Accepts(WfapiSchema(), run, isUri)
    ensures run.Obj?
    ensures Get(run, "status") in RunStatuses
    ensures Get(run, "stages").Arr?
    ensures forall i | 0 <= i < |Get(run, "stages").elems| :: ConformingStage(Get(run, "stages").elems[i])
  {
    RunFields();
    AcceptedChild(WfapiSchema(), run, isUri, 2);
    RunStatusAccepts(Get(run, "status"), isUri);
    AcceptedChild(WfapiSchema(), run, isUri, 8);
    StageListAccepts(Get(run, "stages"), isUri);
  }

  /** The timings of a valid `wfapi_describe` object are integers of either sign. */
  lemma AcceptedRunTimings(run: Value, isUri: string -> bool)
    requires Accepts(WfapiSchema(), run, isUri)
    ensures IntegerValue(Get(run, "startTimeMillis")) && IntegerValue(Get(run, "endTimeMillis"))
    ensures IntegerValue(Get(run, "durationMillis")) && IntegerValue(Get(run, "queueDurationMillis"))
    ensures IntegerValue(Get(run, "pauseDurationMillis"))
  {
    RunFields();
    AcceptedChild(WfapiSchema(), run, isUri, 3);
    InstantAccepts(Get(run, "startTimeMillis"), isUri);
    AcceptedChild(WfapiSchema(), run, isUri, 4);
    InstantAccepts(Get(run, "endTimeMillis"), isUri);
    AcceptedChild(WfapiSchema(), run, isUri, 5);
    InstantAccepts(Get(run, "durationMillis"), isUri);
    AcceptedChild(WfapiSchema(), run, isUri, 6);
    InstantAccepts(Get(run, "queueDurationMillis"), isUri);
    AcceptedChild(WfapiSchema(), run, isUri, 7);
    InstantAccepts(Get(run, "pauseDurationMillis"), isUri);
  }

  /**
   * A valid stage has only declared keys, links, a non-empty id and name, an optional execution
   * node, a stage status, an optional error (an object or `''`), an integer start and
   * non-negative integer durations.
   */
  lemma AcceptedStage(stage: Value, isUri: string -> bool)
    requires Accepts(StageSchema(), stage, isUri) && !stage.Undefined?
    ensures stage.Obj? && forall k | k in stage.props :: k in StageKeys
    ensures Get(stage, "_links").Obj?
    ensures NonEmptyText(Get(stage, "id")) && NonEmptyText(Get(stage, "name"))
    ensures Get(stage, "execNode").Undefined? || Get(stage, "execNode").Str?
    ensures Get(stage, "status") in StageStatuses
    ensures Get(stage, "error").Undefined? || Get(stage, "error") == Str("") || Get(stage, "error").Obj?
    ensures IntegerValue(Get(stage, "startTimeMillis"))
    ensures NonNegativeInteger(Get(stage, "durationMillis")) && NonNegativeInteger(Get(stage, "pauseDurationMillis"))
  {
    StageFields();
    StageKeyTable();
    AcceptedChild(StageSchema(), stage, isUri, 0);
    OpenObjectAccepts(Get(stage, "_links"), isUri);
    AcceptedChild(StageSchema(), stage, isUri, 1);
    TextAccepts(Get(stage, "id"), isUri);
    AcceptedChild(StageSchema(), stage, isUri, 2);
    TextAccepts(Get(stage, "name"), isUri);
    AcceptedChild(StageSchema(), stage, isUri, 3);
    OptionalTextAccepts(Get(stage, "execNode"), isUri);
    AcceptedChild(StageSchema(), stage, isUri, 5);
    ErrorFieldAccepts(Get(stage, "error"), isUri);
    AcceptedChild(StageSchema(), stage, isUri, 4);
    StageStatusAccepts(Get(stage, "status"), isUri);
    AcceptedChild(StageSchema(), stage, isUri, 6);
    InstantAccepts(Get(stage, "startTimeMillis"), isUri);
    AcceptedChild(StageSchema(), stage, isUri, 7);
    CountAccepts(Get(stage, "durationMillis"), isUri);
    AcceptedChild(StageSchema(), stage, isUri, 8);
    CountAccepts(Get(stage, "pauseDurationMillis"), isUri);
  }

  // ---------------------------------------------------------------------------------------------
  // What an invalid record is reported for (`abortEarly: false` collects every one of these).

  /** The record schema is a closed object schema with declared keys and no allow list. */
  lemma RecordSchemaShape()
    ensures DataSchema().kind.ObjectKind? && DataSchema().kind.keyed
    ensures DataSchema().kind.pattern.None? && !DataSchema().kind.unknownAllowed
    ensures DataSchema().allowed == [] && !DataSchema().only && !DataSchema().required
  {
  }

  /** A missing key that is not optional is reported as `any.required` under that key. */
  lemma MissingKeyReported(v: Value, i: nat, isUri: string -> bool)
    requires v.Obj? && i < |SchemaKeys| && i !in OptionalPositions && SchemaKeys[i] !in v.props
    ensures Violation([Key(SchemaKeys[i])], AnyRequired) in Validate(DataSchema(), v, [], isUri)
  {
    RecordSchemaShape();
    SchemaKeyTable();
    RequiredKeyTable();
    assert DeclaredKeys(DataSchema().kind.children)[i] == DataSchema().kind.children[i].key;
    var root: Path := [];
    assert root + [Key(SchemaKeys[i])] == [Key(SchemaKeys[i])];
    MissingRequiredReported(DataSchema(), v, root, isUri, i);
  }

  /** A key the record schema does not declare is reported as `object.unknown`. */
  lemma UnknownRecordKeyReported(v: Value, k: string, isUri: string -> bool)
    requires v.Obj? && k in v.keys && k !in SchemaKeys
    ensures Violation([Key(k)], ObjectUnknown) in Validate(DataSchema(), v, [], isUri)
  {
    RecordSchemaShape();
    SchemaKeyTable();
    var root: Path := [];
    assert root + [Key(k)] == [Key(k)];
    UnknownKeyReported(DataSchema(), v, root, isUri, k);
  }

  /** An executor utilization above one is reported as `number.max`. */
  lemma UtilizationAboveOneReported(v: Value, isUri: string -> bool)
    requires v.Obj? && Get(v, "executorUtilization").Num? && Get(v, "executorUtilization").n > 1.0
    ensures Violation([Key("executorUtilization")], NumberMax) in Validate(DataSchema(), v, [], isUri)
  {
    RecordSchemaShape();
    RecordFields4To7();
    var root: Path := [];
    var path := [Key("executorUtilization")];
    assert root + path == path;
    UtilizationMaxReported(Get(v, "executorUtilization").n, path, isUri);
    ChildViolationReported(DataSchema(), v, root, isUri, 7, Violation(path, NumberMax));
  }

  lemma UtilizationMaxReported(n: real, path: Path, isUri: string -> bool)
    requires n > 1.0
    ensures Violation(path, NumberMax) in Validate(Required(Max(Min(NumberSchema(), 0.0), 1.0)), Num(n), path, isUri)
  {
    var rules := [MinRule(0.0), MaxRule(1.0)];
    assert Max(Min(NumberSchema(), 0.0), 1.0).kind.numberRules == rules;
    assert rules[1..][1..] == [];
    assert NumberRuleViolations(rules[1..], n, path) == [Violation(path, NumberMax)];
  }

  /** An empty `lastBuiltRevision` object is reported for its missing `SHA1` and `branch`. */
  lemma EmptyRevisionReported(v: Value, isUri: string -> bool)
    requires v.Obj? && Get(v, "lastBuiltRevision") == EmptyObject
    ensures Violation([Key("lastBuiltRevision"), Key("SHA1")], AnyRequired) in Validate(DataSchema(), v, [], isUri)
    ensures Violation([Key("lastBuiltRevision"), Key("branch")], AnyRequired) in Validate(DataSchema(), v, [], isUri)
  {
    RecordSchemaShape();
    RecordFields12To16();
    RevisionFields();
    var root: Path := [];
    var path := [Key("lastBuiltRevision")];
    assert root + path == path;
    assert path + [Key("SHA1")] == [Key("lastBuiltRevision"), Key("SHA1")];
    assert path + [Key("branch")] == [Key("lastBuiltRevision"), Key("branch")];
    MissingRequiredReported(LastBuiltRevisionSchema(), EmptyObject, path, isUri, 0);
    MissingRequiredReported(LastBuiltRevisionSchema(), EmptyObject, path, isUri, 1);
    ChildViolationReported(DataSchema(), v, root, isUri, 13, Violation(path + [Key("SHA1")], AnyRequired));
    ChildViolationReported(DataSchema(), v, root, isUri, 13, Violation(path + [Key("branch")], AnyRequired));
  }

  /** An empty `executor` object is reported for its missing `_class`. */
  lemma EmptyExecutorReported(v: Value, isUri: string -> bool)
    requires v.Obj? && Get(v, "executor") == EmptyObject
    ensures Violation([Key("executor"), Key("_class")], AnyRequired) in Validate(DataSchema(), v, [], isUri)
  {
    RecordSchemaShape();
    RecordFields17To22();
    ExecutorFields();
    var root: Path := [];
    var path := [Key("executor")];
    assert root + path == path;
    assert path + [Key("_class")] == [Key("executor"), Key("_class")];
    MissingRequiredReported(ExecutorSchema(), EmptyObject, path, isUri, 0);
    ChildViolationReported(DataSchema(), v, root, isUri, 22, Violation(path + [Key("_class")], AnyRequired));
  }

  /**
   * A stage whose status is `FAILURE`, which the run vocabulary has but the stage vocabulary spells
   * `FAILED`, is reported as `any.only` at its path.
   */
  lemma FailureStageReported(v: Value, i: nat, isUri: string -> bool)
    requires v.Obj?
    requires var run := Get(v, "wfapi_describe");
             && run.Obj? && Get(run, "stages").Arr? && i < |Get(run, "stages").elems|
             && Get(run, "stages").elems[i].Obj?
             && Get(Get(run, "stages").elems[i], "status") == Str("FAILURE")
    ensures Violation([Key("wfapi_describe"), Key("stages"), Index(i), Key("status")], AnyOnly)
              in Validate(DataSchema(), v, [], isUri)
  {
    var root: Path := [];
    var path := [Key("wfapi_describe")];
    assert root + path == path;
    assert path + [Key("stages"), Index(i), Key("status")] == [Key("wfapi_describe"), Key("stages"), Index(i), Key("status")];
    var e := Violation(path + [Key("stages"), Index(i), Key("status")], AnyOnly);
    FailureRunStageReported(Get(v, "wfapi_describe"), path, i, isUri);
    RecordSchemaShape();
    RecordFields29To33();
    ChildViolationReported(DataSchema(), v, root, isUri, 33, e);
  }

  /** The same, one level down: inside the run description at `path`. */
  lemma FailureRunStageReported(run: Value, path: Path, i: nat, isUri: string -> bool)
    requires run.Obj? && Get(run, "stages").Arr? && i < |Get(run, "stages").elems|
    requires Get(run, "stages").elems[i].Obj?
    requires Get(Get(run, "stages").elems[i], "status") == Str("FAILURE")
    ensures Violation(path + [Key("stages"), Index(i), Key("status")], AnyOnly) in Validate(WfapiSchema(), run, path, isUri)
  {
    var stages := Get(run, "stages");
    var stagePath := path + [Key("stages")] + [Index(i)];
    assert stagePath + [Key("status")] == path + [Key("stages"), Index(i), Key("status")];
    var e := Violation(stagePath + [Key("status")], AnyOnly);
    FailureStatusReported(stages.elems[i], stagePath, isUri);
    ItemViolationReported(Required(Items(ArraySchema(), StageSchema())), stages, path + [Key("stages")], isUri, i, e);
    RunFields();
    ChildViolationReported(WfapiSchema(), run, path, isUri, 8, e);
  }

  /** The same, for the stage itself at `path`. */
  lemma FailureStatusReported(stage: Value, path: Path, isUri: string -> bool)
    requires stage.Obj? && Get(stage, "status") == Str("FAILURE")
    ensures Violation(path + [Key("status")], AnyOnly) in Validate(StageSchema(), stage, path, isUri)
  {
    StageFields();
    var e := Violation(path + [Key("status")], AnyOnly);
    assert Str("FAILURE") !in StageStatuses;
    assert e in Validate(StageStatusSchema(), Str("FAILURE"), path + [Key("status")], isUri);
    ChildViolationReported(StageSchema(), stage, path, isUri, 4, e);
  }
}
