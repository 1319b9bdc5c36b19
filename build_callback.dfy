/**
 * The build-progress webhook handler: it admits or refuses a callback,
 * builds the partial update record for the `build_runs` row named by
 * `build_id`, and maps the store's reply to an HTTP response.
 */
module BuildCallback {
  import opened Wrappers
  import opened Js

  /** What `req.json()` delivered: a parse failure, or a parsed value (possibly `null` or a non-object).
      JSON parsing never yields `Parsed(Undefined)`; that case is kept only because destructuring treats it as `null`. */
  datatype ParseResult = Malformed | Parsed(value: Value)

  /** The seven fields the handler destructures from the body. */
  datatype Callback = Callback(
    buildId: Value,
    step: Value,
    stepIndex: Value,
    status: Value,
    runId: Value,
    apkUrl: Value,
    aabUrl: Value)

  /** An HTTP response as a status code and a text body. */
  datatype Response = Response(code: nat, text: string)

  const MissingBuildId := Response(400, "Missing build_id")
  const InternalError := Response(500, "Internal server error")
  const Acknowledged := Response(200, "ok")

  /** How the awaited store update came back: no error, an error object with a message, or a thrown exception. */
  datatype StoreReply = Updated | Rejected(message: string) | Faulted

  /** `.from('build_runs').update(updates).eq('id', id)` */
  datatype UpdateRequest = UpdateRequest(id: Value, updates: map<string, Value>)

  /** The response, and the store update the handler issued, if any. */
  datatype Outcome = Outcome(response: Response, request: Option<UpdateRequest>)

  /** The columns the handler may write. */
  const Columns: set<string> := {"step", "step_index", "run_id", "status", "apk_url", "aab_url", "finished_at"}

  /** The value bound to `body`: a body that fails to parse is replaced by an empty object. */
  function Body(p: ParseResult): (body: Value)
    ensures p.Malformed? ==> Destructure(body) == Some(Callback(Undefined, Undefined, Undefined, Undefined, Undefined, Undefined, Undefined))
    ensures p.Parsed? ==> body == p.value
  {
    if p.Malformed? then Obj(map[]) else p.value
  }

  /** The destructuring of `body`; None is the TypeError thrown for `null` and `undefined`. */
  function Destructure(body: Value): (r: Option<Callback>)
    ensures r.None? <==> body == Null || body == Undefined
    ensures r.Some? && !body.Obj? ==> r.value == Callback(Undefined, Undefined, Undefined, Undefined, Undefined, Undefined, Undefined)
    ensures r.Some? && body.Obj? ==> (r.value.buildId == Undefined <==> "build_id" !in body.props || body.props["build_id"] == Undefined)
  {
    if body.Null? || body.Undefined? then None
    else Some(Callback(
      Property(body, "build_id"),
      Property(body, "step"),
      Property(body, "step_index"),
      Property(body, "status"),
      Property(body, "run_id"),
      Property(body, "apk_url"),
      Property(body, "aab_url")))
  }

  /** The two terminal statuses, recognised by strict equality. */
  predicate IsTerminal(status: Value) {
    status == Str("success") || status == Str("failed")
  }

  /** What callback `c` writes into `column` when the clock reads `now`; None leaves the column out. */
  function ColumnWrite(c: Callback, now: string, column: string): Option<Value> {
    if column == "step" then Some(c.step)
    else if column == "step_index" then Some(c.stepIndex)
    else if column == "run_id" then Some(c.runId)
    else if column == "status" then (if Truthy(c.status) then Some(c.status) else None)
    else if column == "apk_url" then (if Truthy(c.apkUrl) then Some(c.apkUrl) else None)
    else if column == "aab_url" then (if Truthy(c.aabUrl) then Some(c.aabUrl) else None)
    else if column == "finished_at" then (if IsTerminal(c.status) then Some(Str(now)) else None)
    else None
  }

  /** The partial update record, column by column. */
  function BuildUpdate(c: Callback, now: string): (u: map<string, Value>)
    ensures {"step", "step_index", "run_id"} <= u.Keys <= Columns
    ensures "finished_at" in u ==> "status" in u && u["finished_at"] == Str(now)
  {
    map column | column in Columns && ColumnWrite(c, now, column).Some? :: ColumnWrite(c, now, column).value
  }

  /** `u` holds exactly what `BuildUpdate` writes into the columns in `done`, and nothing else. */
  ghost predicate AgreesOn(u: map<string, Value>, c: Callback, now: string, done: set<string>) {
    && u.Keys <= done
    && (forall column :: column in done ==> (column in u <==> ColumnWrite(c, now, column).Some?))
    && (forall column :: column in u ==> u[column] == ColumnWrite(c, now, column).value)
  }

  /** A record that agrees with the column-wise definition on every column is the update record. */
  lemma AgreementOnColumnsIsUpdate(u: map<string, Value>, c: Callback, now: string)
    requires AgreesOn(u, c, now, Columns)
    ensures u == BuildUpdate(c, now)
  {
  }

  /** Settling one more column as `BuildUpdate` does keeps the agreement. */
  lemma AgreementExtends(u: map<string, Value>, c: Callback, now: string, done: set<string>, column: string)
    requires AgreesOn(u, c, now, done) && column !in done
    ensures AgreesOn(if ColumnWrite(c, now, column).Some? then u[column := ColumnWrite(c, now, column).value] else u, c, now, done + {column})
  {
  }

  /** The update record built as the handler builds it: three fields, then conditional extensions. */
  method AssembleUpdate(c: Callback, now: string) returns (updates: map<string, Value>)
    ensures updates == BuildUpdate(c, now)
  {
    updates := map["step" := c.step, "step_index" := c.stepIndex, "run_id" := c.runId];
    assert AgreesOn(updates, c, now, {"step", "step_index", "run_id"});
    AgreementExtends(updates, c, now, {"step", "step_index", "run_id"}, "status");
    if Truthy(c.status) {
      updates := updates["status" := c.status];
    }
    AgreementExtends(updates, c, now, {"step", "step_index", "run_id", "status"}, "apk_url");
    if Truthy(c.apkUrl) {
      updates := updates["apk_url" := c.apkUrl];
    }
    AgreementExtends(updates, c, now, {"step", "step_index", "run_id", "status", "apk_url"}, "aab_url");
    if Truthy(c.aabUrl) {
      updates := updates["aab_url" := c.aabUrl];
    }
    AgreementExtends(updates, c, now, {"step", "step_index", "run_id", "status", "apk_url", "aab_url"}, "finished_at");
    if c.status == Str("success") || c.status == Str("failed") {
      updates := updates["finished_at" := Str(now)];
    }
    AgreementOnColumnsIsUpdate(updates, c, now);
  }

  /** Admission: either the callback to act on, or the response that ends the request before any store access. */
  datatype Admission = Refused(response: Response) | Admitted(callback: Callback)

  function Admit(p: ParseResult): (a: Admission)
    ensures a.Admitted? ==> Truthy(a.callback.buildId)
    ensures a == Refused(InternalError) <==> p == Parsed(Null) || p == Parsed(Undefined)
    ensures a == Refused(MissingBuildId) <==> Destructure(Body(p)).Some? && !Truthy(Destructure(Body(p)).value.buildId)
    ensures a.Admitted? <==> Destructure(Body(p)).Some? && Truthy(Destructure(Body(p)).value.buildId)
    ensures a.Admitted? ==> a.callback == Destructure(Body(p)).value
  {
    match Destructure(Body(p))
    case None => Refused(InternalError)
    case Some(c) => if !Truthy(c.buildId) then Refused(MissingBuildId) else Admitted(c)
  }

  /** The response to the store's reply. */
  function Respond(reply: StoreReply): (r: Response)
    ensures r.code == 200 <==> reply.Updated?
    ensures r.code == 500 <==> !reply.Updated?
    ensures reply.Rejected? ==> r.text == reply.message
    ensures reply.Updated? ==> r == Acknowledged
    ensures reply.Faulted? ==> r == InternalError
  {
    match reply
    case Updated => Acknowledged
    case Rejected(message) => Response(500, message)
    case Faulted => InternalError
  }

  /** One invocation of the handler. `reply` is what the store answers if an update is issued. */
  function Handle(p: ParseResult, now: string, reply: StoreReply): (o: Outcome)
    ensures o.request.Some? ==> Truthy(o.request.value.id) && o.response == Respond(reply)
    ensures o.request.Some? ==> o.request.value.updates.Keys <= Columns && "build_id" !in o.request.value.updates
    ensures o.request.None? ==> o.response == MissingBuildId || o.response == InternalError
  {
    match Admit(p)
    case Refused(response) => Outcome(response, None)
    case Admitted(c) => Outcome(Respond(reply), Some(UpdateRequest(c.buildId, BuildUpdate(c, now))))
  }

  // ---------------------------------------------------------------------------
  // Admission

  /** A missing or falsy `build_id` gets 400 and no store update, whatever the store would have said. */
  lemma MissingBuildIdRejected(props: map<string, Value>, now: string, reply: StoreReply)
    requires "build_id" !in props || !Truthy(props["build_id"])
    ensures Handle(Parsed(Obj(props)), now, reply) == Outcome(MissingBuildId, None)
  {
  }

  /** An object body with a truthy `build_id` is admitted: exactly one update, keyed by that `build_id`,
      carrying the update record of the destructured body. */
  lemma AcceptedWhenTruthy(props: map<string, Value>, now: string, reply: StoreReply)
    requires "build_id" in props && Truthy(props["build_id"])
    ensures Handle(Parsed(Obj(props)), now, reply).request
         == Some(UpdateRequest(props["build_id"], BuildUpdate(Destructure(Obj(props)).value, now)))
  {
  }

  /** A body that parses to a primitive or an array has no `build_id` and gets 400 too. */
  lemma NonObjectBodyRejected(v: Value, now: string, reply: StoreReply)
    requires !v.Obj? && !v.Null? && !v.Undefined?
    ensures Handle(Parsed(v), now, reply) == Outcome(MissingBuildId, None)
  {
  }

  /** A body that fails to parse is handled as an empty object, and so gets 400. */
  lemma MalformedBodyAsEmptyObject(now: string, reply: StoreReply)
    ensures Handle(Malformed, now, reply) == Handle(Parsed(Obj(map[])), now, reply)
    ensures Handle(Malformed, now, reply) == Outcome(MissingBuildId, None)
  {
  }

  /** A body that parses to `null` throws at the destructuring and gets the generic 500. */
  lemma NullBodyFaults(now: string, reply: StoreReply)
    ensures Handle(Parsed(Null), now, reply) == Outcome(InternalError, None)
  {
  }

  /** Validation happens before the store is touched: whether an update is issued, and which, does not
      depend on the store, and a refused request's response does not either. */
  lemma ValidationPrecedesStore(p: ParseResult, now: string, reply1: StoreReply, reply2: StoreReply)
    ensures Handle(p, now, reply1).request == Handle(p, now, reply2).request
    ensures Handle(p, now, reply1).request.None? ==> Handle(p, now, reply1).response == Handle(p, now, reply2).response
  {
  }

  /** An admitted request issues exactly one update, keyed by its `build_id`, and its response is decided by the store alone. */
  lemma AdmittedRequestResponse(p: ParseResult, now: string, reply: StoreReply)
    requires Admit(p).Admitted?
    ensures Handle(p, now, reply).request == Some(UpdateRequest(Admit(p).callback.buildId, BuildUpdate(Admit(p).callback, now)))
    ensures reply == Updated ==> Handle(p, now, reply).response == Response(200, "ok")
    ensures reply.Rejected? ==> Handle(p, now, reply).response == Response(500, reply.message)
    ensures reply == Faulted ==> Handle(p, now, reply).response == Response(500, "Internal server error")
  {
  }

  // ---------------------------------------------------------------------------
  // The update record

  /** `step`, `step_index` and `run_id` are always written, unchanged, even when falsy or undefined. */
  lemma PassThroughColumnsAlwaysWritten(c: Callback, now: string)
    ensures "step" in BuildUpdate(c, now) && BuildUpdate(c, now)["step"] == c.step
    ensures "step_index" in BuildUpdate(c, now) && BuildUpdate(c, now)["step_index"] == c.stepIndex
    ensures "run_id" in BuildUpdate(c, now) && BuildUpdate(c, now)["run_id"] == c.runId
  {
  }

  /** `status`, `apk_url` and `aab_url` are written exactly when truthy, and then as given; a falsy value is omitted. */
  lemma ConditionalColumnsWrittenIffTruthy(c: Callback, now: string)
    ensures "status" in BuildUpdate(c, now) <==> Truthy(c.status)
    ensures "apk_url" in BuildUpdate(c, now) <==> Truthy(c.apkUrl)
    ensures "aab_url" in BuildUpdate(c, now) <==> Truthy(c.aabUrl)
    ensures "status" in BuildUpdate(c, now) ==> BuildUpdate(c, now)["status"] == c.status
    ensures "apk_url" in BuildUpdate(c, now) ==> BuildUpdate(c, now)["apk_url"] == c.apkUrl
    ensures "aab_url" in BuildUpdate(c, now) ==> BuildUpdate(c, now)["aab_url"] == c.aabUrl
  {
  }

  /** `finished_at` is written exactly when `status` is the string "success" or "failed", and then holds the clock reading. */
  lemma FinishedAtIffTerminal(c: Callback, now: string)
    ensures "finished_at" in BuildUpdate(c, now) <==> c.status == Str("success") || c.status == Str("failed")
    ensures "finished_at" in BuildUpdate(c, now) ==> BuildUpdate(c, now)["finished_at"] == Str(now)
  {
  }

  /** Strict equality: a differently cased or other terminal-looking status sets no `finished_at`, though it is still written. */
  lemma NearTerminalStatusSetsNoFinishedAt(now: string)
    ensures "finished_at" !in BuildUpdate(Callback(Str("b1"), Undefined, Undefined, Str("Success"), Undefined, Undefined, Undefined), now)
    ensures "status" in BuildUpdate(Callback(Str("b1"), Undefined, Undefined, Str("Success"), Undefined, Undefined, Undefined), now)
    ensures "finished_at" !in BuildUpdate(Callback(Str("b1"), Undefined, Undefined, Str("done"), Undefined, Undefined, Undefined), now)
  {
  }

  /** A terminal status is itself written along with `finished_at`. */
  lemma TerminalStatusWritten(c: Callback, now: string)
    requires IsTerminal(c.status)
    ensures "status" in BuildUpdate(c, now) && "finished_at" in BuildUpdate(c, now)
  {
  }

  /** The update writes only the seven known columns, at least the three pass-through ones, and never `build_id` or `id`. */
  lemma UpdateColumnsBounded(c: Callback, now: string)
    ensures BuildUpdate(c, now).Keys <= Columns
    ensures {"step", "step_index", "run_id"} <= BuildUpdate(c, now).Keys
    ensures "build_id" !in BuildUpdate(c, now) && "id" !in BuildUpdate(c, now)
  {
  }

  /** A successful build with an APK URL. */
  lemma SuccessScenario(now: string)
    ensures Handle(Parsed(Obj(map["build_id" := Str("b1"), "status" := Str("success"), "apk_url" := Str("http://x/app.apk")])), now, Updated)
         == Outcome(Acknowledged, Some(UpdateRequest(Str("b1"), map[
              "step" := Undefined, "step_index" := Undefined, "run_id" := Undefined,
              "status" := Str("success"), "apk_url" := Str("http://x/app.apk"), "finished_at" := Str(now)])))
  {
    var c := Callback(Str("b1"), Undefined, Undefined, Str("success"), Undefined, Str("http://x/app.apk"), Undefined);
    var expected := map[
      "step" := Undefined, "step_index" := Undefined, "run_id" := Undefined,
      "status" := Str("success"), "apk_url" := Str("http://x/app.apk"), "finished_at" := Str(now)];
    FinishedAtIffTerminal(c, now);
    ConditionalColumnsWrittenIffTruthy(c, now);
    UpdateColumnsBounded(c, now);
    assert BuildUpdate(c, now).Keys == expected.Keys;
    assert BuildUpdate(c, now) == expected;
    var body := Obj(map["build_id" := Str("b1"), "status" := Str("success"), "apk_url" := Str("http://x/app.apk")]);
    assert Property(body, "step") == Undefined;
    assert Destructure(body) == Some(c);
    assert Admit(Parsed(body)) == Admitted(c);
  }
}
