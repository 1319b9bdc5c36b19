/**
 * The `build_runs` table as the handler sees it: rows keyed by `id`, each a
 * record of columns. The handler performs one blind partial update per
 * admitted callback; this module gives that update a meaning and states how
 * repeated callbacks combine.
 */
module BuildRuns {
  import opened Wrappers
  import opened Js
  import opened BuildCallback

  type Row = map<string, Value>
  type Table = map<Value, Row>

  /** `UPDATE build_runs SET updates WHERE id = id`: overwrites the given columns of the matching row; creates no row. */
  function ApplyUpdate(table: Table, id: Value, updates: Row): (t: Table)
    ensures t.Keys == table.Keys
    ensures forall other :: other in table && other != id ==> t[other] == table[other]
    ensures id in table ==> t[id].Keys == table[id].Keys + updates.Keys
    ensures id in table ==> forall column :: column in updates ==> t[id][column] == updates[column]
    ensures id in table ==> forall column :: column in table[id] && column !in updates ==> t[id][column] == table[id][column]
  {
    if id in table then table[id := table[id] + updates] else table
  }

  /** One request served against the table: the response, and the table afterwards. A store that
      rejects the update or faults leaves the table as it was. */
  function Serve(table: Table, p: ParseResult, now: string, reply: StoreReply): (r: (Response, Table))
    ensures r.0 == Handle(p, now, reply).response
    ensures r.1.Keys == table.Keys
    ensures Admit(p).Refused? || !reply.Updated? ==> r.1 == table
    ensures Admit(p).Admitted? && reply.Updated? ==>
      r.1 == ApplyUpdate(table, Admit(p).callback.buildId, BuildUpdate(Admit(p).callback, now))
  {
    var o := Handle(p, now, reply);
    if o.request.Some? && reply.Updated? then
      (o.response, ApplyUpdate(table, o.request.value.id, o.request.value.updates))
    else
      (o.response, table)
  }

  /** Applying the same update twice is applying it once. */
  lemma ApplyUpdateIdempotent(table: Table, id: Value, updates: Row)
    ensures ApplyUpdate(ApplyUpdate(table, id, updates), id, updates) == ApplyUpdate(table, id, updates)
  {
    if id in table {
      var once := table[id] + updates;
      assert once + updates == once by {
        assert (once + updates).Keys == once.Keys;
      }
    }
  }

  /** A refused request leaves the table untouched, whatever the store would have answered. */
  lemma RefusedRequestLeavesTable(table: Table, p: ParseResult, now: string, reply: StoreReply)
    requires Admit(p).Refused?
    ensures Serve(table, p, now, reply) == (Admit(p).response, table)
  {
  }

  /** Replaying an identical admitted request at the same clock reading answers 200 "ok" again and
      leaves the table as one application did. */
  lemma ReplayIsIdempotent(table: Table, p: ParseResult, now: string)
    requires Admit(p).Admitted?
    ensures Serve(Serve(table, p, now, Updated).1, p, now, Updated) == Serve(table, p, now, Updated)
    ensures Serve(table, p, now, Updated).0 == Response(200, "ok")
  {
    var c := Admit(p).callback;
    ApplyUpdateIdempotent(table, c.buildId, BuildUpdate(c, now));
  }

  /** Replaying a terminal callback later is not idempotent: `finished_at` moves to the later clock reading. */
  lemma LaterReplayMovesFinishedAt(table: Table, p: ParseResult, now1: string, now2: string)
    requires Admit(p).Admitted? && Admit(p).callback.buildId in table
    requires IsTerminal(Admit(p).callback.status)
    ensures Serve(Serve(table, p, now1, Updated).1, p, now2, Updated).1[Admit(p).callback.buildId]["finished_at"] == Str(now2)
    ensures now1 != now2 ==> Serve(Serve(table, p, now1, Updated).1, p, now2, Updated) != Serve(table, p, now1, Updated)
  {
  }

  /** A callback whose `apk_url` is falsy leaves the stored `apk_url` as it was: omission never clears. */
  lemma OmittedColumnPreserved(table: Table, p: ParseResult, now: string)
    requires Admit(p).Admitted? && Admit(p).callback.buildId in table
    requires !Truthy(Admit(p).callback.apkUrl) && "apk_url" in table[Admit(p).callback.buildId]
    ensures Serve(table, p, now, Updated).1[Admit(p).callback.buildId]["apk_url"] == table[Admit(p).callback.buildId]["apk_url"]
  {
  }
}
