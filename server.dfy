/**
 * The `/webhook` handler of `server.js` and the checks it runs: the freshness check on the
 * encrypted timestamp, the checksum comparison, the normalizer, strict validation against
 * `dataSchema`, and the hand-off of the record to the index.
 */
module Server {
  import opened Wrappers
  import opened JsValue
  import opened JsParseInt
  import opened Joi
  import opened Schemas
  import opened Normalizer

  /** The part of an HTTP request the handler reads: header fields by name and the body `express.json()` parsed. */
  datatype Request = Request(headers: map<string, string>, body: Value)

  /** `req.header(name)`: the field's value, or `undefined`. */
  function Header(request: Request, name: string): Option<string>
  {
    if name in request.headers then Some(request.headers[name]) else None
  }

  /**
   * What the handler depends on besides the request: `Date.now()`; the two steps of the
   * AES-256-CBC decipher keyed with `SECRET_KEY` and `IV` (`update` from base64 and `final`,
   * each giving text or throwing); SHA-256 as a hex digest; `JSON.parse` (a value, or a throw);
   * and Joi's URI grammar.
   */
  datatype Env = Env(
    now: int,
    decipherUpdate: string -> Option<string>,
    decipherFinal: string -> Option<string>,
    sha256Hex: string -> string,
    parseJson: string -> Option<Value>,
    isUri: string -> bool)

  const TimestampHeader := "X-Encrypted-Timestamp"
  const BuildChecksumHeader := "X-Checksum-Build"
  const StageChecksumHeader := "X-Checksum-Stage"

  /** Ten minutes, in milliseconds. */
  const FreshnessWindowMs: int := 600000

  const AuthorizationDenied := "Authorization denied"
  const ChecksumMismatch := "Checksum mismatch. Possible data corruption."
  const WebhookReceived := "Webhook Received!"

  /**
   * What the two checks return, read the way the handler reads it: `{ success: true }`,
   * `{ success: false, message }`, or the bare `false`, whose `success` and `message` are both
   * `undefined` (`Check(false, None)`).
   */
  datatype Check = Check(success: bool, message: Option<string>)

  function Abs(x: int): nat
  {
    if x < 0 then -x else x
  }

  // ---------------------------------------------------------------------------------------------
  // Authorization.

  /** `decipher.update(ciphertext, 'base64', 'utf8') + decipher.final('utf8')`, or `None` when either step throws. */
  function Decrypt(env: Env, ciphertext: string): Option<string>
  {
    match env.decipherUpdate(ciphertext)
    case None => None
    case Some(head) =>
      match env.decipherFinal(ciphertext)
      case None => None
      case Some(tail) => Some(head + tail)
  }

  /** The result of `verifyAuthorization(req)`. */
  function Authorization(request: Request, env: Env): Check
  {
    var header := Header(request, TimestampHeader);
    if header.None? || header.value == "" then Check(false, None)
    else
      match Decrypt(env, header.value)
      case None => Check(false, None)
      case Some(plaintext) =>
        var received := ParseInt(plaintext);
        // `NaN` fails the comparison
        if received.Some? && Abs(env.now - received.value) <= FreshnessWindowMs then Check(true, None)
        else Check(false, Some(AuthorizationDenied))
  }

  /** `verifyAuthorization(req)`, step by step. */
  method VerifyAuthorization(request: Request, env: Env) returns (result: Check)
    ensures result == Authorization(request, env)
  {
    var encryptedTimestamp := Header(request, TimestampHeader);
    if encryptedTimestamp.None? || encryptedTimestamp.value == "" {
      return Check(false, None);
    }
    var update := env.decipherUpdate(encryptedTimestamp.value);
    if update.None? {
      return Check(false, None);
    }
    var decrypted := update.value;
    var final := env.decipherFinal(encryptedTimestamp.value);
    if final.None? {
      return Check(false, None);
    }
    decrypted := decrypted + final.value;
    var receivedTimestamp := ParseInt(decrypted);
    var currentTimestamp := env.now;
    if receivedTimestamp.Some? && Abs(currentTimestamp - receivedTimestamp.value) <= FreshnessWindowMs {
      result := Check(true, None);
    } else {
      result := Check(false, Some(AuthorizationDenied));
    }
  }

  // ---------------------------------------------------------------------------------------------
  // Data integrity.

  /**
   * `verifyChecksum(req)`. Hashing a body field that is not a string throws a TypeError, which
   * escapes the handler.
   */
  function VerifyChecksum(request: Request, sha256Hex: string -> string): (r: Result<Check, Exception>)
    ensures r.Err? <==> !Get(request.body, "build_data").Str? || !Get(request.body, "stage_data").Str?
    ensures r.Err? ==> r.error == TypeError
  {
    var buildData := Get(request.body, "build_data");
    var stageData := Get(request.body, "stage_data");
    if !buildData.Str? || !stageData.Str? then Err(TypeError)
    else if Header(request, BuildChecksumHeader) == Some(sha256Hex(buildData.s))
         && Header(request, StageChecksumHeader) == Some(sha256Hex(stageData.s))
    then Ok(Check(true, None))
    else Ok(Check(false, Some(ChecksumMismatch)))
  }

  // ---------------------------------------------------------------------------------------------
  // Normalization and validation.

  /**
   * `extractRequiredData(JSON.parse(req.body.build_data), JSON.parse(req.body.stage_data))`, for
   * a body whose two fields are strings; the parses run left to right.
   */
  function NormalizeBody(request: Request, env: Env): Result<Value, Exception>
    requires Get(request.body, "build_data").Str? && Get(request.body, "stage_data").Str?
  {
    match env.parseJson(Get(request.body, "build_data").s)
    case None => Err(SyntaxError)
    case Some(data) =>
      match env.parseJson(Get(request.body, "stage_data").s)
      case None => Err(SyntaxError)
      case Some(wfapi) => ExtractRequiredData(data, wfapi)
  }

  /** What `validateData` returns; each error is a violation, its path and its kind. */
  datatype Validation = Valid(value: Value) | Invalid(errors: seq<Violation>)

  /**
   * `validateData(data)`: `dataSchema.validate` with unknown keys refused and every violation
   * collected. A value that is a proper JSON object passes exactly when it conforms to the schema.
   */
  function ValidateData(data: Value, isUri: string -> bool): (r: Validation)
    ensures r.Valid? ==> r.value == data
    ensures r.Invalid? ==> r.errors != [] && r.errors == Validate(DataSchema(), data, [], isUri)
    ensures WellFormed(data) ==> (r.Valid? <==> Accepts(DataSchema(), data, isUri))
  {
    var errors := Validate(DataSchema(), data, [], isUri);
    assert WellFormed(data) ==> (errors == [] <==> Accepts(DataSchema(), data, isUri)) by {
      if WellFormed(data) {
        ValidateAccepts(DataSchema(), data, [], isUri);
      }
    }
    if errors == [] then Valid(data) else Invalid(errors)
  }

  // ---------------------------------------------------------------------------------------------
  // The handler.

  /** A response body: `send(undefined)`, `send(text)`, or `json({ error })`. */
  datatype Body = Empty | Text(text: string) | Errors(details: seq<Violation>)

  /** What the client gets: a response, or none, because the async handler rejected with an exception. */
  datatype Reply = Sent(status: int, body: Body) | Unhandled(error: Exception)

  /** The handler's stages, in the order it runs them. */
  datatype Stage = AuthorizationStage | IntegrityStage | NormalizationStage | ValidationStage | IndexingStage

  const Stages: seq<Stage> := [AuthorizationStage, IntegrityStage, NormalizationStage, ValidationStage, IndexingStage]

  /** `res.send(message)`. */
  function MessageBody(message: Option<string>): Body
  {
    if message.Some? then Text(message.value) else Empty
  }

  /** What handling a request produces: the reply, how many of `Stages` ran, and what was indexed. */
  datatype Handling = Handling(reply: Reply, stagesRun: nat, indexed: Option<Value>)

  /**
   * What the handler does once both checks pass: parse the two body fields, normalize, validate,
   * and hand the record to the index.
   */
  function Ingestion(request: Request, env: Env): (r: Handling)
    requires Get(request.body, "build_data").Str? && Get(request.body, "stage_data").Str?
    ensures 3 <= r.stagesRun <= |Stages|
    ensures r.indexed.Some? <==> r.reply == Sent(200, Text(WebhookReceived))
    ensures r.indexed.Some? ==> NormalizeBody(request, env) == Ok(r.indexed.value)
  {
    var record := NormalizeBody(request, env);
    if record.Err? then Handling(Unhandled(record.error), 3, None)
    else
      var validation := ValidateData(record.value, env.isUri);
      if validation.Invalid? then Handling(Sent(400, Errors(validation.errors)), 4, None)
      else Handling(Sent(200, Text(WebhookReceived)), 5, Some(record.value))
  }

  /** What `app.post('/webhook', ...)` does with a request: the first stage that fails ends it. */
  function Handle(request: Request, env: Env): Handling
  {
    var auth := Authorization(request, env);
    if !auth.success then Handling(Sent(400, MessageBody(auth.message)), 1, None)
    else
      var checksum := VerifyChecksum(request, env.sha256Hex);
      if checksum.Err? then Handling(Unhandled(checksum.error), 2, None)
      else if !checksum.value.success then Handling(Sent(400, MessageBody(checksum.value.message)), 2, None)
      else Ingestion(request, env)
  }

  /**
   * The `/webhook` handler: the reply, the stages that ran (a prefix of `Stages`) and the record
   * handed to the index. `indexResult` is how `esClient.index` settles; the handler catches a
   * failure, so it does not reach the reply.
   */
  method Webhook(request: Request, env: Env, indexResult: Result<(), Exception>) returns (reply: Reply, ran: seq<Stage>, indexed: Option<Value>)
    ensures |ran| <= |Stages| && ran == Stages[..|ran|]
    ensures Handling(reply, |ran|, indexed) == Handle(request, env)
  {
    var authResult := VerifyAuthorization(request, env);
    if !authResult.success {
      return Sent(400, MessageBody(authResult.message)), Stages[..1], None;
    }
    var checksumResult := VerifyChecksum(request, env.sha256Hex);
    if checksumResult.Err? {
      return Unhandled(checksumResult.error), Stages[..2], None;
    }
    if !checksumResult.value.success {
      return Sent(400, MessageBody(checksumResult.value.message)), Stages[..2], None;
    }
    reply, ran, indexed := Ingest(request, env, indexResult);
  }

  /** The handler's statements after the checksum check. */
  method Ingest(request: Request, env: Env, indexResult: Result<(), Exception>) returns (reply: Reply, ran: seq<Stage>, indexed: Option<Value>)
    requires Get(request.body, "build_data").Str? && Get(request.body, "stage_data").Str?
    ensures |ran| <= |Stages| && ran == Stages[..|ran|]
    ensures Handling(reply, |ran|, indexed) == Ingestion(request, env)
  {
    ran := Stages[..3];
    indexed := None;
    var buildData := env.parseJson(Get(request.body, "build_data").s);
    if buildData.None? {
      reply := Unhandled(SyntaxError);
      return;
    }
    var stageData := env.parseJson(Get(request.body, "stage_data").s);
    if stageData.None? {
      reply := Unhandled(SyntaxError);
      return;
    }
    var filteredData := ExtractRequiredData(buildData.value, stageData.value);
    if filteredData.Err? {
      reply := Unhandled(filteredData.error);
      return;
    }
    ran := Stages[..4];
    var validationResult := ValidateData(filteredData.value, env.isUri);
    if validationResult.Invalid? {
      reply := Sent(400, Errors(validationResult.errors));
      return;
    }
    ran := Stages;
    indexed := Some(filteredData.value);
    reply := Sent(200, Text(WebhookReceived));
  }
}
