/**
 * What the `/webhook` handler promises: the freshness window and its edges, what the checksum
 * comparison accepts, that the first failing stage ends the request, and that whatever reaches
 * the index has passed the record schema.
 */
module ServerFacts {
  import opened Wrappers
  import opened JsValue
  import opened JsParseInt
  import opened Joi
  import opened Schemas
  import opened Normalizer
  import opened NormalizerFacts
  import opened Server
  import opened RecordConformance

  // ---------------------------------------------------------------------------------------------
  // Authorization.

  /** Authorization succeeds exactly when the header decrypts to an integer at most ten minutes from now, on either side. */
  lemma AuthorizedIffFresh(request: Request, env: Env)
    ensures Authorization(request, env).success <==>
              var header := Header(request, TimestampHeader);
              && header.Some? && header.value != ""
              && Decrypt(env, header.value).Some?
              && var received := ParseInt(Decrypt(env, header.value).value);
                 received.Some? && env.now - FreshnessWindowMs <= received.value <= env.now + FreshnessWindowMs
  {
  }

  /** A missing or empty header, or a ciphertext the decipher rejects, yields the bare `false`, and only those do. */
  lemma RefusedWithoutMessage(request: Request, env: Env)
    ensures Authorization(request, env) == Check(false, None) <==>
              var header := Header(request, TimestampHeader);
              header.None? || header.value == "" || Decrypt(env, header.value).None?
  {
  }

  /** The header decrypts to a plaintext that `parseInt` reads as the time `offset` ms away from now. */
  ghost predicate SentTimestamp(request: Request, env: Env, offset: int)
  {
    var header := Header(request, TimestampHeader);
    && header.Some? && header.value != ""
    && Decrypt(env, header.value).Some?
    && ParseInt(Decrypt(env, header.value).value) == Some(env.now + offset)
  }

  /** A timestamp `offset` ms away from now passes exactly when `|offset| <= 600000`; otherwise it is denied with a message. */
  lemma FreshnessBoundary(request: Request, env: Env, offset: int)
    requires SentTimestamp(request, env, offset)
    ensures Authorization(request, env).success <==> -FreshnessWindowMs <= offset <= FreshnessWindowMs
    ensures !Authorization(request, env).success ==> Authorization(request, env).message == Some(AuthorizationDenied)
  {
  }

  /** A client that encrypts `String(Date.now())` taken `offset` ms away from the server's clock sends such a timestamp. */
  lemma NumeralSent(request: Request, env: Env, offset: int)
    requires var header := Header(request, TimestampHeader);
             header.Some? && header.value != "" && Decrypt(env, header.value) == Some(Decimal(env.now + offset))
    ensures SentTimestamp(request, env, offset)
  {
    ParseIntDecimal(env.now + offset);
  }

  /** The bound is inclusive: exactly ten minutes early or late passes, one millisecond more does not. */
  lemma WindowEdges(request: Request, env: Env, offset: int)
    requires SentTimestamp(request, env, offset)
    ensures offset == FreshnessWindowMs || offset == -FreshnessWindowMs ==> Authorization(request, env).success
    ensures offset == FreshnessWindowMs + 1 || offset == -FreshnessWindowMs - 1 ==>
              Authorization(request, env) == Check(false, Some(AuthorizationDenied))
  {
    FreshnessBoundary(request, env, offset);
  }

  /** A plaintext with no digits parses to `NaN`, which is never within the window. */
  lemma GarbledTimestampDenied(request: Request, env: Env, plaintext: string)
    requires var header := Header(request, TimestampHeader);
             header.Some? && header.value != "" && Decrypt(env, header.value) == Some(plaintext)
    requires forall i | 0 <= i < |plaintext| :: !IsDigit(plaintext[i])
    ensures Authorization(request, env) == Check(false, Some(AuthorizationDenied))
  {
    ParseIntWithoutDigits(plaintext);
  }

  // ---------------------------------------------------------------------------------------------
  // Data integrity.

  /** `request` with header `name` set to `value`. */
  function WithHeader(request: Request, name: string, value: string): (r: Request)
    ensures Header(r, name) == Some(value)
    ensures forall other | other != name :: Header(r, other) == Header(request, other)
    ensures r.body == request.body
  {
    request.(headers := request.headers[name := value])
  }

  /** Over a body of two strings the check does not throw, and passes exactly when both digests match. */
  lemma ChecksumPassesIffBothMatch(request: Request, sha256Hex: string -> string)
    requires Get(request.body, "build_data").Str? && Get(request.body, "stage_data").Str?
    ensures var result := VerifyChecksum(request, sha256Hex);
            && result.Ok?
            && (result.value.success <==>
                  && Header(request, BuildChecksumHeader) == Some(sha256Hex(Get(request.body, "build_data").s))
                  && Header(request, StageChecksumHeader) == Some(sha256Hex(Get(request.body, "stage_data").s)))
            && (!result.value.success ==> result.value.message == Some(ChecksumMismatch))
  {
  }

  /** A request that carries the freshly computed digests of its two fields always passes. */
  lemma FreshDigestsPass(request: Request, sha256Hex: string -> string)
    requires Get(request.body, "build_data").Str? && Get(request.body, "stage_data").Str?
    ensures var signed := WithHeader(WithHeader(request, BuildChecksumHeader, sha256Hex(Get(request.body, "build_data").s)),
                                     StageChecksumHeader, sha256Hex(Get(request.body, "stage_data").s));
            VerifyChecksum(signed, sha256Hex) == Ok(Check(true, None))
  {
  }

  /** Changing either digest of a passing request, and nothing else, makes it fail. */
  lemma ChangedDigestFails(request: Request, sha256Hex: string -> string, name: string, value: string)
    requires VerifyChecksum(request, sha256Hex) == Ok(Check(true, None))
    requires name == BuildChecksumHeader || name == StageChecksumHeader
    requires Header(request, name) != Some(value)
    ensures VerifyChecksum(WithHeader(request, name, value), sha256Hex) == Ok(Check(false, Some(ChecksumMismatch)))
  {
  }

  // ---------------------------------------------------------------------------------------------
  // The handler.

  /** Some stages ran, in order; a record is indexed, and 200 sent, exactly when all of them ran. */
  lemma OnlyCompleteRunsIndex(request: Request, env: Env)
    ensures var handling := Handle(request, env);
            && 1 <= handling.stagesRun <= |Stages|
            && (handling.indexed.Some? <==> handling.stagesRun == |Stages|)
            && (handling.reply.Sent? && handling.reply.status == 200 <==> handling.indexed.Some?)
            && (handling.indexed.None? ==> handling.reply.Unhandled? || handling.reply.status == 400)
  {
    if Authorization(request, env).success && VerifyChecksum(request, env.sha256Hex) == Ok(Check(true, None)) {
      IngestionOrderly(request, env);
    }
    assert Orderly(Handle(request, env));
  }

  /** The shape `OnlyCompleteRunsIndex` states of one handling. */
  ghost predicate Orderly(handling: Handling)
  {
    && 1 <= handling.stagesRun <= |Stages|
    && (handling.indexed.Some? <==> handling.stagesRun == |Stages|)
    && (handling.reply.Sent? && handling.reply.status == 200 <==> handling.indexed.Some?)
    && (handling.indexed.None? ==> handling.reply.Unhandled? || handling.reply.status == 400)
  }

  lemma IngestionOrderly(request: Request, env: Env)
    requires Get(request.body, "build_data").Str? && Get(request.body, "stage_data").Str?
    ensures Orderly(Ingestion(request, env))
  {
  }

  /** A failed authorization replies 400 with its message (an empty body for the bare `false`), and nothing else runs. */
  lemma AuthorizationFailureStops(request: Request, env: Env)
    requires !Authorization(request, env).success
    ensures Handle(request, env) == Handling(Sent(400, MessageBody(Authorization(request, env).message)), 1, None)
  {
  }

  /** After authorization, a checksum mismatch replies 400 and a body field that is not a string escapes as a TypeError. */
  lemma ChecksumFailureStops(request: Request, env: Env)
    requires Authorization(request, env).success
    requires VerifyChecksum(request, env.sha256Hex) != Ok(Check(true, None))
    ensures Handle(request, env) ==
              if VerifyChecksum(request, env.sha256Hex).Err? then Handling(Unhandled(TypeError), 2, None)
              else Handling(Sent(400, Text(ChecksumMismatch)), 2, None)
  {
  }

  /** A record that fails validation is answered with every violation, not just the first, and is not indexed. */
  lemma ValidationReportsEveryViolation(request: Request, env: Env)
    requires Authorization(request, env).success && VerifyChecksum(request, env.sha256Hex) == Ok(Check(true, None))
    requires NormalizeBody(request, env).Ok?
    requires Validate(DataSchema(), NormalizeBody(request, env).value, [], env.isUri) != []
    ensures Handle(request, env) ==
              Handling(Sent(400, Errors(Validate(DataSchema(), NormalizeBody(request, env).value, [], env.isUri))), 4, None)
  {
  }

  /** Every `JSON.parse` result is a proper JSON value. */
  ghost predicate ParsesWellFormed(parseJson: string -> Option<Value>)
  {
    forall text | parseJson(text).Some? :: WellFormed(parseJson(text).value)
  }

  /** What reaches the index is the normalizer's output for the two parsed body fields. */
  lemma IndexedRecordNormalized(request: Request, env: Env)
    requires Handle(request, env).indexed.Some?
    ensures Get(request.body, "build_data").Str? && Get(request.body, "stage_data").Str?
    ensures var data := env.parseJson(Get(request.body, "build_data").s);
            var wfapi := env.parseJson(Get(request.body, "stage_data").s);
            && data.Some? && wfapi.Some?
            && Handle(request, env).indexed == Some(ExtractRequiredData(data.value, wfapi.value).value)
  {
  }

  /** What reaches the index has passed the schema: validation reported no violation. */
  lemma IndexedRecordPassed(request: Request, env: Env)
    requires Handle(request, env).indexed.Some?
    ensures Validate(DataSchema(), Handle(request, env).indexed.value, [], env.isUri) == []
  {
  }

  /** For JSON input, what reaches the index is a proper JSON object. */
  lemma IndexedRecordWellFormed(request: Request, env: Env)
    requires Handle(request, env).indexed.Some? && ParsesWellFormed(env.parseJson)
    ensures WellFormed(Handle(request, env).indexed.value)
  {
    IndexedRecordNormalized(request, env);
    var data := env.parseJson(Get(request.body, "build_data").s).value;
    var wfapi := env.parseJson(Get(request.body, "stage_data").s).value;
    OutputWellFormed(data, wfapi);
  }

  /** For JSON input, what reaches the index conforms to every rule of `dataSchema`. */
  lemma IndexedRecordConforms(request: Request, env: Env)
    requires Handle(request, env).indexed.Some? && ParsesWellFormed(env.parseJson)
    ensures Accepts(DataSchema(), Handle(request, env).indexed.value, env.isUri)
  {
    var record := Handle(request, env).indexed.value;
    IndexedRecordWellFormed(request, env);
    IndexedRecordPassed(request, env);
    ValidateAccepts(DataSchema(), record, [], env.isUri);
  }

  /** After authorization and the checksum, a record that passes validation is indexed and answered 200. */
  lemma ValidRecordIndexed(request: Request, env: Env)
    requires Authorization(request, env).success && VerifyChecksum(request, env.sha256Hex) == Ok(Check(true, None))
    requires NormalizeBody(request, env).Ok? && ValidateData(NormalizeBody(request, env).value, env.isUri).Valid?
    ensures Handle(request, env) == Handling(Sent(200, Text(WebhookReceived)), |Stages|, Some(NormalizeBody(request, env).value))
  {
  }

  /** A proper JSON object that conforms to the record schema passes validation. */
  lemma ConformingRecordValid(v: Value, isUri: string -> bool)
    requires WellFormed(v) && ConformingRecord(v, isUri)
    ensures ValidateData(v, isUri) == Valid(v)
  {
    RecordAccepts(v, isUri);
  }

  /** For JSON input, the normalized body is a proper JSON object. */
  lemma NormalizedBodyWellFormed(request: Request, env: Env)
    requires Get(request.body, "build_data").Str? && Get(request.body, "stage_data").Str?
    requires NormalizeBody(request, env).Ok? && ParsesWellFormed(env.parseJson)
    ensures WellFormed(NormalizeBody(request, env).value)
  {
    var data := env.parseJson(Get(request.body, "build_data").s).value;
    var wfapi := env.parseJson(Get(request.body, "stage_data").s).value;
    OutputWellFormed(data, wfapi);
  }

  /** After authorization and the checksum, a JSON build whose record conforms to the schema is indexed and answered 200. */
  lemma ConformingRecordIndexed(request: Request, env: Env)
    requires Authorization(request, env).success && VerifyChecksum(request, env.sha256Hex) == Ok(Check(true, None))
    requires NormalizeBody(request, env).Ok? && ParsesWellFormed(env.parseJson)
    requires ConformingRecord(NormalizeBody(request, env).value, env.isUri)
    ensures Handle(request, env) == Handling(Sent(200, Text(WebhookReceived)), |Stages|, Some(NormalizeBody(request, env).value))
  {
    NormalizedBodyWellFormed(request, env);
    ConformingRecordValid(NormalizeBody(request, env).value, env.isUri);
    ValidRecordIndexed(request, env);
  }

  /** Two body fields that parse to the sample JSON normalize into the sample record. */
  lemma SampleBodyNormalized(request: Request, env: Env)
    requires Get(request.body, "build_data").Str? && Get(request.body, "stage_data").Str?
    requires env.parseJson(Get(request.body, "build_data").s) == Some(SampleData)
    requires env.parseJson(Get(request.body, "stage_data").s) == Some(SampleWfapi)
    ensures NormalizeBody(request, env) == Ok(RecordObject(SampleRecord()))
  {
    SampleNormalized();
  }

  /**
   * The sample build, end to end: once authorized and checksummed, a request whose two fields
   * parse to the sample JSON is normalized into the sample record, indexed and answered 200.
   */
  lemma SampleRecordIndexed(request: Request, env: Env)
    requires Authorization(request, env).success && VerifyChecksum(request, env.sha256Hex) == Ok(Check(true, None))
    requires env.parseJson(Get(request.body, "build_data").s) == Some(SampleData)
    requires env.parseJson(Get(request.body, "stage_data").s) == Some(SampleWfapi)
    requires env.isUri(SampleUrl) && env.isUri(SampleRemote)
    ensures Handle(request, env) == Handling(Sent(200, Text(WebhookReceived)), |Stages|, Some(RecordObject(SampleRecord())))
  {
    SampleBodyNormalized(request, env);
    SampleRecordWellFormed();
    SampleRecordConforms(env.isUri);
    ConformingRecordValid(RecordObject(SampleRecord()), env.isUri);
    ValidRecordIndexed(request, env);
  }
}
