# Build-callback webhook, modelled in Dafny

A CI pipeline reports build progress to a webhook endpoint. The endpoint parses the JSON body and destructures seven fields: `build_id`, `step`, `step_index`, `status`, `run_id`, `apk_url` and `aab_url`. It refuses a callback whose `build_id` is missing or falsy. Otherwise it builds a partial update record for the `build_runs` row whose `id` is `build_id`, issues that update once, and answers with the store's verdict.

The project has four modules:

- `Js` (`js.dfy`): the JavaScript values the handler meets. `Undefined` stands for an absent property. `Truthy` is JavaScript's ToBoolean, used by `!build_id` and `if (status)`.
- `BuildCallback` (`build_callback.dfy`): the handler itself.
  - `ParseResult` is the outcome of `req.json()`.
  - `Destructure` is the `const { … } = body` step. It fails, as JavaScript does, on `null` and `undefined`.
  - `Admit` is the validation.
  - `BuildUpdate` is the update record, defined column by column.
  - `AssembleUpdate` builds the same record step by step, in the order the handler does, and is proved equal to `BuildUpdate`.
  - `Respond` maps the store's reply to a response.
  - `Handle` is one whole invocation. It returns the response and the store update it issued, if any.
- `BuildRuns` (`build_runs.dfy`): the table as a map from `id` to rows.
  - `ApplyUpdate` gives `.update(updates).eq('id', build_id)` a meaning.
  - `Serve` runs one request against the table.
  - Lemmas state how repeated callbacks combine.
- `Wrappers` (`wrappers.dfy`): `Option`.

Three things come in as parameters:

- the clock reading `now`, an opaque string standing for `new Date().toISOString()`;
- the parse outcome;
- the store's reply: `Updated`, `Rejected(message)` for an error object, or `Faulted` for an exception thrown by the awaited call.

Two consequences of the code are easy to miss:

- Only a parse failure is replaced by `{}`. A body that parses to `null` is not: destructuring it throws, so it gets `500 "Internal server error"` (`NullBodyFaults`).
- A missing row is not an error. The response depends only on whether the store returns an error. `Serve` with `Updated` and an unknown `id` changes nothing and answers `200 "ok"`.

## Model

| member | source | states |
|---|---|---|
| `Js.FalsyValues` | prompt_apk_builder/supabase/functions/build-callback/index.ts:35-37 | the values `!x` / `if (x)` treat as false are exactly undefined, null, false, 0 and "" |
| `BuildCallback.Body` | prompt_apk_builder/supabase/functions/build-callback/index.ts:8 | a body that fails to parse becomes a value that destructures to seven undefined fields; a parsed value is passed on unchanged |
| `BuildCallback.Destructure` | prompt_apk_builder/supabase/functions/build-callback/index.ts:9-17 | destructuring fails exactly on null/undefined; a primitive or array body yields seven undefined fields; `build_id` is undefined exactly when the object lacks it |
| `BuildCallback.Admit` | prompt_apk_builder/supabase/functions/build-callback/index.ts:8-22 | a request is admitted exactly when its body destructures and its `build_id` is truthy, and then the admitted callback is the destructured body; the generic 500 is chosen exactly for a null/undefined body; 400 exactly for a destructurable body with falsy `build_id` |
| `BuildCallback.BuildUpdate` | prompt_apk_builder/supabase/functions/build-callback/index.ts:29-42 | the update record always holds `step`, `step_index` and `run_id`, holds no column outside the seven, and holds `finished_at` only together with `status`, with the clock reading as its value |
| `BuildCallback.AssembleUpdate` | prompt_apk_builder/supabase/functions/build-callback/index.ts:29-42 | building the record by the handler's sequence of assignments yields exactly the column-wise update record `BuildUpdate` |
| `BuildCallback.Respond` | prompt_apk_builder/supabase/functions/build-callback/index.ts:49-57 | 200 "ok" exactly when the store reports no error, 500 otherwise; a store error's message becomes the response text; a thrown exception gives 500 "Internal server error" |
| `BuildCallback.Handle` | prompt_apk_builder/supabase/functions/build-callback/index.ts:6-59 | an issued update carries a truthy key, writes only the seven columns and never `build_id`, and its response is the store's verdict; without an update the response is 400 or the generic 500 |
| `BuildCallback.MissingBuildIdRejected` | prompt_apk_builder/supabase/functions/build-callback/index.ts:20-22 | an object body whose `build_id` is absent or falsy gets 400 "Missing build_id" and no update, for every store reply |
| `BuildCallback.AcceptedWhenTruthy` | prompt_apk_builder/supabase/functions/build-callback/index.ts:20-47 | an object body with a truthy `build_id` issues exactly one update, keyed by that `build_id`, carrying the update record of the destructured body, for every store reply |
| `BuildCallback.NonObjectBodyRejected` | prompt_apk_builder/supabase/functions/build-callback/index.ts:9-22 | a body that parses to a number, string, boolean or array gets 400 and no update |
| `BuildCallback.MalformedBodyAsEmptyObject` | prompt_apk_builder/supabase/functions/build-callback/index.ts:8-22 | an unparseable body is handled exactly as `{}` and so gets 400 and no update |
| `BuildCallback.NullBodyFaults` | prompt_apk_builder/supabase/functions/build-callback/index.ts:9-57 | a body that parses to `null` throws at the destructuring and gets 500 "Internal server error" with no update |
| `BuildCallback.ValidationPrecedesStore` | prompt_apk_builder/supabase/functions/build-callback/index.ts:20-47 | whether and which update is issued does not depend on the store, and neither does the response of a refused request |
| `BuildCallback.AdmittedRequestResponse` | prompt_apk_builder/supabase/functions/build-callback/index.ts:44-57 | an admitted request issues exactly one update keyed by its `build_id`; the response is 200 "ok", 500 with the store message, or the generic 500, by the store reply alone |
| `BuildCallback.PassThroughColumnsAlwaysWritten` | prompt_apk_builder/supabase/functions/build-callback/index.ts:29-33 | `step`, `step_index`, `run_id` are always in the update with the input values, even falsy or undefined ones |
| `BuildCallback.ConditionalColumnsWrittenIffTruthy` | prompt_apk_builder/supabase/functions/build-callback/index.ts:35-37 | `status`, `apk_url`, `aab_url` are in the update if and only if the input is truthy, and then equal it |
| `BuildCallback.FinishedAtIffTerminal` | prompt_apk_builder/supabase/functions/build-callback/index.ts:39-42 | `finished_at` is in the update if and only if `status` is strictly the string "success" or "failed", and then holds the clock reading |
| `BuildCallback.NearTerminalStatusSetsNoFinishedAt` | prompt_apk_builder/supabase/functions/build-callback/index.ts:40-42 | "Success" and "done" set no `finished_at`, though "Success" is still written as the status |
| `BuildCallback.TerminalStatusWritten` | prompt_apk_builder/supabase/functions/build-callback/index.ts:35-42 | a terminal status is written together with `finished_at` |
| `BuildCallback.UpdateColumnsBounded` | prompt_apk_builder/supabase/functions/build-callback/index.ts:29-47 | the update's keys lie between {step, step_index, run_id} and the seven columns, and never include `build_id` or `id` |
| `BuildCallback.SuccessScenario` | prompt_apk_builder/supabase/functions/build-callback/index.ts:8-54 | `{"build_id":"b1","status":"success","apk_url":…}` with a successful store gives 200 "ok" and the six-key update on row "b1" |
| `BuildRuns.ApplyUpdate` | prompt_apk_builder/supabase/functions/build-callback/index.ts:44-47 | the update creates and deletes no row, leaves every other row unchanged, sets the given columns of the matching row and keeps its other columns |
| `BuildRuns.Serve` | prompt_apk_builder/supabase/functions/build-callback/index.ts:44-54 | one request answers the handler's response and creates or deletes no row; the table changes only for an admitted request the store accepts, and then by applying that request's update to its `build_id` row |
| `BuildRuns.ApplyUpdateIdempotent` | prompt_apk_builder/supabase/functions/build-callback/index.ts:44-47 | applying one update twice equals applying it once |
| `BuildRuns.RefusedRequestLeavesTable` | prompt_apk_builder/supabase/functions/build-callback/index.ts:20-22 | a refused request answers its refusal and leaves the table untouched for every store reply |
| `BuildRuns.ReplayIsIdempotent` | prompt_apk_builder/supabase/functions/build-callback/index.ts:29-54 | replaying an admitted request at the same clock reading answers 200 "ok" again and leaves the table as one application did |
| `BuildRuns.LaterReplayMovesFinishedAt` | prompt_apk_builder/supabase/functions/build-callback/index.ts:40-47 | replaying a terminal callback at a later clock reading moves `finished_at` to that reading, so the replay is not idempotent |
| `BuildRuns.OmittedColumnPreserved` | prompt_apk_builder/supabase/functions/build-callback/index.ts:35-47 | a falsy `apk_url` is left out of the update, so the stored `apk_url` is kept rather than cleared |

## Left out

- HTTP transport, `Deno.serve`, and the `Request` and `Response` objects. A request is its parse outcome; a response is a (code, text) pair.
- JSON parsing itself (line 8). Only its outcome is modelled. `Js.Num` holds a finite value, so a number literal that overflows to ±Infinity is not represented.
- Client construction from the environment (lines 24-27) is assumed to succeed. A missing variable would make it throw, which would give the same generic 500 as `Faulted`.
- `new Date().toISOString()` (line 41): the clock reading is an opaque string; its format is not modelled.
- The `console.error` logging (lines 50 and 56).
- Racing callbacks for the same `build_id`: the store orders them, not this code.
- How the store client serialises members whose value is `undefined` is not modelled. `ApplyUpdate` writes such a member as the value `Undefined`. This is not a claim that the column is cleared or kept.
- `.eq('id', build_id)` compares `id` with `build_id` as values. How the client encodes a non-string `build_id` into the filter is not modelled.
- BuildRuns.Serve: a `Rejected` or `Faulted` store reply leaves the table unchanged. This assumes the single update statement is atomic and that a throwing call reached no row.
- A store error object without a string `message` is not modelled.
