/** The three tables app.js keeps per instance and how the client's lifecycle events change
    them, one event at a time: `clients` (app.js:11), `qrCodes` (app.js:12) and the MySQL
    `sessions` table (instance ID to status). */
module Lifecycle {
  import opened Wrappers
  import opened Types

  datatype State = State(
    clients: map<InstanceId, Handle>,
    qrCodes: map<InstanceId, string>,
    sessions: map<InstanceId, string>)

  /** One event for one instance. A `written` flag says whether the database write the handler
      issues succeeded; a failed write is only logged. `encoded` is what `qrcode.toDataURL`
      produced, None when it reported an error. `InitSettled` is the tail of `createClient`:
      `client.initialize()` has resolved (`initThrew` false) or thrown (true). `InfoSet` is not
      an app.js handler but the library filling in `client.info` on the client object with
      identity `serial`, which it does as that client becomes ready. */
  datatype Event =
    | QrReceived(id: InstanceId, encoded: Option<string>)
    | ClientReady(id: InstanceId)
    | ClientAuthenticated(id: InstanceId, written: bool)
    | AuthFailed(id: InstanceId)
    | ClientDisconnected(id: InstanceId, written: bool)
    | InitSettled(id: InstanceId, client: Handle, initThrew: bool)
    | InfoSet(id: InstanceId, serial: nat)

  /** `qr`: a successfully encoded QR overwrites the instance's pending one; an encoding
      failure changes nothing; no other entry and no other table changes. */
  function OnQr(s: State, id: InstanceId, encoded: Option<string>): (r: State)
    ensures r.clients == s.clients && r.sessions == s.sessions
    ensures r.qrCodes - {id} == s.qrCodes - {id}
    ensures encoded.Some? ==> id in r.qrCodes && r.qrCodes[id] == encoded.value
    ensures encoded.None? ==> r == s
  {
    match encoded
    case None => s
    case Some(url) => s.(qrCodes := s.qrCodes[id := url])
  }

  /** `ready`: the instance's pending QR is gone afterwards and nothing else changes; without a
      pending QR the event is a no-op. */
  function OnReady(s: State, id: InstanceId): (r: State)
    ensures id !in r.qrCodes
    ensures r.qrCodes - {id} == s.qrCodes - {id}
    ensures r.clients == s.clients && r.sessions == s.sessions
    ensures id !in s.qrCodes ==> r == s
  {
    assert id !in s.qrCodes ==> s.qrCodes - {id} == s.qrCodes;
    s.(qrCodes := s.qrCodes - {id})
  }

  /** `authenticated`: an upsert of the instance's row to "Authenticated" (inserted when absent,
      overwritten otherwise); other rows, `clients` and `qrCodes` are untouched. */
  function OnAuthenticated(s: State, id: InstanceId, written: bool): (r: State)
    ensures r.clients == s.clients && r.qrCodes == s.qrCodes
    ensures r.sessions - {id} == s.sessions - {id}
    ensures written ==> id in r.sessions && r.sessions[id] == StatusAuthenticated
    ensures !written ==> r == s
  {
    if written then s.(sessions := s.sessions[id := StatusAuthenticated]) else s
  }

  /** `disconnected`: an SQL UPDATE to "Inactive", so it changes an existing row and never
      creates one; the handle stays in `clients`, so the instance stays queryable. */
  function OnDisconnected(s: State, id: InstanceId, written: bool): (r: State)
    ensures r.clients == s.clients && r.qrCodes == s.qrCodes
    ensures r.sessions.Keys == s.sessions.Keys
    ensures r.sessions - {id} == s.sessions - {id}
    ensures written && id in s.sessions ==> r.sessions[id] == StatusInactive
    ensures !written || id !in s.sessions ==> r == s
  {
    if written && id in s.sessions then s.(sessions := s.sessions[id := StatusInactive]) else s
  }

  /** The end of `createClient`: the handle is stored whether or not `initialize` threw,
      replacing any handle already stored under the same ID. */
  function OnInitSettled(s: State, id: InstanceId, client: Handle, initThrew: bool): (r: State)
    ensures id in r.clients && r.clients[id] == client
    ensures r.clients - {id} == s.clients - {id}
    ensures r.qrCodes == s.qrCodes && r.sessions == s.sessions
  {
    s.(clients := s.clients[id := client])
  }

  /** `client.info` being filled in: the client object stored under `id` is the same object
      the library updates, so when it has identity `serial` it becomes ready in place; any other
      stored handle, and a client not (or no longer) stored, leaves the tables unchanged. */
  function OnInfoSet(s: State, id: InstanceId, serial: nat): (r: State)
    ensures r.qrCodes == s.qrCodes && r.sessions == s.sessions
    ensures r.clients.Keys == s.clients.Keys
    ensures r.clients - {id} == s.clients - {id}
    ensures id in s.clients && s.clients[id].serial == serial ==> r.clients[id] == s.clients[id].(ready := true)
    ensures !(id in s.clients && s.clients[id].serial == serial) ==> r == s
  {
    if id in s.clients && s.clients[id].serial == serial
    then s.(clients := s.clients[id := s.clients[id].(ready := true)])
    else s
  }

  /** The rows an event may insert into the `sessions` table. */
  function RowsCreatedBy(e: Event): set<InstanceId>
  {
    if e.ClientAuthenticated? && e.written then {e.id} else {}
  }

  /** One event. No event removes a handle, only a written `authenticated` creates a row, and
      every row keeps one of the two known statuses; `auth_failure` changes nothing. */
  function Step(s: State, e: Event): (r: State)
    ensures s.clients.Keys <= r.clients.Keys
    ensures r.sessions.Keys <= s.sessions.Keys + RowsCreatedBy(e)
    ensures StatusesKnown(s.sessions) ==> StatusesKnown(r.sessions)
    ensures e.AuthFailed? ==> r == s
  {
    match e
    case QrReceived(id, encoded) => OnQr(s, id, encoded)
    case ClientReady(id) => OnReady(s, id)
    case ClientAuthenticated(id, written) => OnAuthenticated(s, id, written)
    case AuthFailed(_) => s
    case ClientDisconnected(id, written) => OnDisconnected(s, id, written)
    case InitSettled(id, client, initThrew) => OnInitSettled(s, id, client, initThrew)
    case InfoSet(id, serial) => OnInfoSet(s, id, serial)
  }

  /** The events in order, the last one applied last. */
  function Run(s: State, events: seq<Event>): State
    decreases |events|
  {
    if events == [] then s else Step(Run(s, events[..|events| - 1]), events[|events| - 1])
  }

  /** The IDs whose rows some written `authenticated` event in `events` may insert. */
  function RowsCreated(events: seq<Event>): set<InstanceId>
  {
    set e | e in events && e.ClientAuthenticated? && e.written :: e.id
  }

  /** Whether `e` stores a QR for `id`. */
  predicate StoresQr(e: Event, id: InstanceId)
  {
    e.QrReceived? && e.id == id && e.encoded.Some?
  }

  /** Whether `e` stores a handle for `id`. */
  predicate Registers(e: Event, id: InstanceId)
  {
    e.InitSettled? && e.id == id
  }

  /** A stored handle is never dropped: a disconnected instance stays in `clients`. */
  lemma {:induction false} RunKeepsHandles(s: State, events: seq<Event>)
    ensures s.clients.Keys <= Run(s, events).clients.Keys
  {
    if events != [] {
      RunKeepsHandles(s, events[..|events| - 1]);
    }
  }

  /** Rows are only ever created by a written `authenticated`; `disconnected` never creates one. */
  lemma {:induction false} RowsOnlyFromAuthenticated(s: State, events: seq<Event>)
    ensures Run(s, events).sessions.Keys <= s.sessions.Keys + RowsCreated(events)
  {
    if events != [] {
      var init, last := events[..|events| - 1], events[|events| - 1];
      RowsOnlyFromAuthenticated(s, init);
      assert RowsCreated(init) <= RowsCreated(events) by {
        forall e | e in init ensures e in events { }
      }
      assert last in events;
    }
  }

  /** The table only ever holds "Authenticated" or "Inactive" when it started that way. */
  lemma {:induction false} RunKeepsStatusesKnown(s: State, events: seq<Event>)
    requires StatusesKnown(s.sessions)
    ensures StatusesKnown(Run(s, events).sessions)
  {
    if events != [] {
      RunKeepsStatusesKnown(s, events[..|events| - 1]);
    }
  }

  /** Once an instance has no pending QR (after `ready`, say), it gets none back until another
      QR is encoded for it: no other event re-creates the entry. */
  lemma {:induction false} QrStaysCleared(s: State, id: InstanceId, events: seq<Event>)
    requires id !in s.qrCodes
    requires forall e :: e in events ==> !StoresQr(e, id)
    ensures id !in Run(s, events).qrCodes
  {
    if events != [] {
      var init, last := events[..|events| - 1], events[|events| - 1];
      forall e | e in init ensures !StoresQr(e, id) {
        assert e in events;
      }
      QrStaysCleared(s, id, init);
      assert last in events;
    }
  }

  /** Only the end of `createClient` puts a handle into `clients`: while no initialization for
      `id` has settled, `clients` holds for `id` the same client object as before (whose `info`
      the library may have filled in meanwhile). */
  lemma {:induction false} RegistrationOnlyBySettling(s: State, id: InstanceId, events: seq<Event>)
    requires forall e :: e in events ==> !Registers(e, id)
    ensures (id in Run(s, events).clients) == (id in s.clients)
    ensures id in s.clients ==> Run(s, events).clients[id].serial == s.clients[id].serial
  {
    if events != [] {
      var init, last := events[..|events| - 1], events[|events| - 1];
      forall e | e in init ensures !Registers(e, id) {
        assert e in events;
      }
      RegistrationOnlyBySettling(s, id, init);
      assert last in events;
      var p := Run(s, init);
      match last
      case InitSettled(other, client, initThrew) =>
        assert other != id;
        assert (id in Step(p, last).clients) == (id in (p.clients - {other}));
      case _ =>
    }
  }

  /** How the client created for one stored row settled: its handle and whether
      `initialize` threw. */
  datatype Init = Init(client: Handle, threw: bool)

  /** The startup replay (app.js:35-38) as events: one settled initialization per stored row,
      in row order. */
  function ReplayEvents(rows: seq<InstanceId>, inits: seq<Init>): (events: seq<Event>)
    requires |rows| == |inits|
    ensures |events| == |rows|
    decreases |rows|
  {
    if rows == [] then []
    else
      var n := |rows| - 1;
      ReplayEvents(rows[..n], inits[..n]) + [InitSettled(rows[n], inits[n].client, inits[n].threw)]
  }

  /** The i-th replay event settles the client created for the i-th stored row. */
  lemma {:induction false} ReplayEventsSettleRows(rows: seq<InstanceId>, inits: seq<Init>, i: nat)
    requires |rows| == |inits| && i < |rows|
    ensures ReplayEvents(rows, inits)[i] == InitSettled(rows[i], inits[i].client, inits[i].threw)
  {
    var n := |rows| - 1;
    if i < n {
      ReplayEventsSettleRows(rows[..n], inits[..n], i);
    }
  }

  /** Replaying one more row applies that row's settled initialization after the others. */
  lemma ReplayLastRow(s: State, rows: seq<InstanceId>, inits: seq<Init>)
    requires |rows| == |inits| && rows != []
    ensures Run(s, ReplayEvents(rows, inits)) ==
      OnInitSettled(Run(s, ReplayEvents(rows[..|rows| - 1], inits[..|rows| - 1])),
                    rows[|rows| - 1], inits[|rows| - 1].client, inits[|rows| - 1].threw)
  {
  }

  /** Replay registers every stored ID, whatever each initialization did: one instance's
      failure does not stop the others; `qrCodes` and the table are untouched. */
  lemma {:induction false} ReplayRegistersEveryRow(s: State, rows: seq<InstanceId>, inits: seq<Init>)
    requires |rows| == |inits|
    ensures Run(s, ReplayEvents(rows, inits)).clients.Keys == s.clients.Keys + (set x | x in rows)
    ensures Run(s, ReplayEvents(rows, inits)).qrCodes == s.qrCodes
    ensures Run(s, ReplayEvents(rows, inits)).sessions == s.sessions
  {
    if rows != [] {
      var n := |rows| - 1;
      ReplayLastRow(s, rows, inits);
      ReplayRegistersEveryRow(s, rows[..n], inits[..n]);
      assert (set x | x in rows) == (set x | x in rows[..n]) + {rows[n]} by {
        assert rows == rows[..n] + [rows[n]];
      }
    }
  }

  /** Replay leaves the handle of every instance without a stored row as it was. */
  lemma {:induction false} ReplayKeepsOtherHandles(s: State, rows: seq<InstanceId>, inits: seq<Init>, id: InstanceId)
    requires |rows| == |inits|
    requires id in s.clients && id !in rows
    ensures id in Run(s, ReplayEvents(rows, inits)).clients
    ensures Run(s, ReplayEvents(rows, inits)).clients[id] == s.clients[id]
  {
    if rows != [] {
      var n := |rows| - 1;
      ReplayLastRow(s, rows, inits);
      assert id !in rows[..n];
      ReplayKeepsOtherHandles(s, rows[..n], inits[..n], id);
    }
  }

  /** After replay each stored ID holds the handle created for its last row. */
  lemma {:induction false} ReplayLastRowWins(s: State, rows: seq<InstanceId>, inits: seq<Init>, i: nat)
    requires |rows| == |inits| && i < |rows|
    requires forall j :: i < j < |rows| ==> rows[j] != rows[i]
    ensures rows[i] in Run(s, ReplayEvents(rows, inits)).clients
    ensures Run(s, ReplayEvents(rows, inits)).clients[rows[i]] == inits[i].client
  {
    var n := |rows| - 1;
    ReplayLastRow(s, rows, inits);
    if i < n {
      assert rows[n] != rows[i];
      assert rows[..n][i] == rows[i];
      assert forall j :: i < j < n ==> rows[..n][j] != rows[..n][i];
      ReplayLastRowWins(s, rows[..n], inits[..n], i);
    }
  }
}
