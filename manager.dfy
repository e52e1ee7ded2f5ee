/** The module-level state of app.js and the code that updates it in place: the lifecycle
    handlers `createClient` attaches (app.js:48-84), the registration at the end of
    `createClient` (app.js:87-94) and the startup replay (app.js:29-40). Each handler runs to
    completion before the next event is handled. */
module Manager {
  import opened Wrappers
  import opened Types
  import opened Lifecycle
  import Routes

  class SessionManager {
    /** `clients` (app.js:11): instance ID to client handle. */
    var clients: map<InstanceId, Handle>
    /** `qrCodes` (app.js:12): instance ID to QR data URL. */
    var qrCodes: map<InstanceId, string>
    /** The MySQL `sessions` table: instance ID to status. */
    var sessions: map<InstanceId, string>

    /** The three tables as one value. */
    function Snapshot(): State
      reads this
    {
      State(clients, qrCodes, sessions)
    }

    /** Process start: both dictionaries empty, the table as the database holds it. */
    constructor (table: map<InstanceId, string>)
      ensures Snapshot() == State(map[], map[], table)
    {
      clients, qrCodes, sessions := map[], map[], table;
    }

    /** The `qr` handler; `encoded` is what `qrcode.toDataURL` produced (None on error). */
    method OnQr(id: InstanceId, encoded: Option<string>)
      modifies this
      ensures Snapshot() == Step(old(Snapshot()), QrReceived(id, encoded))
    {
      match encoded {
        case None =>
        case Some(url) => qrCodes := qrCodes[id := url];
      }
    }

    /** The `ready` handler. */
    method OnReady(id: InstanceId)
      modifies this
      ensures Snapshot() == Step(old(Snapshot()), ClientReady(id))
    {
      qrCodes := qrCodes - {id};
    }

    /** The `authenticated` handler; `written` says whether the upsert succeeded. */
    method OnAuthenticated(id: InstanceId, written: bool)
      modifies this
      ensures Snapshot() == Step(old(Snapshot()), ClientAuthenticated(id, written))
    {
      if written {
        sessions := sessions[id := StatusAuthenticated];
      }
    }

    /** The `auth_failure` handler only logs. */
    method OnAuthFailure(id: InstanceId)
      ensures Snapshot() == Step(Snapshot(), AuthFailed(id))
    {
    }

    /** The `disconnected` handler; `written` says whether the UPDATE succeeded. */
    method OnDisconnected(id: InstanceId, written: bool)
      modifies this
      ensures Snapshot() == Step(old(Snapshot()), ClientDisconnected(id, written))
    {
      if written && id in sessions {
        sessions := sessions[id := StatusInactive];
      }
    }

    /** The library filling in `client.info` on the client object with identity `serial`. */
    method OnInfoSet(id: InstanceId, serial: nat)
      modifies this
      ensures Snapshot() == Step(old(Snapshot()), InfoSet(id, serial))
    {
      if id in clients && clients[id].serial == serial {
        clients := clients[id := clients[id].(ready := true)];
      }
    }

    /** `GET /add-device/:instanceId` and the synchronous start of `createClient`: it decides
        on the current `clients` and, when accepted, constructs the client. Nothing is
        registered yet, so nothing changes. `serial` stands for the new object's identity. */
    method AddDevice(id: InstanceId, serial: nat) returns (r: Routes.Reply<InstanceId>, started: Option<Handle>)
      ensures r == Routes.AddDevice(clients, id)
      ensures started.Some? <==> id !in clients
      ensures started.Some? ==> started.value == NewClient(id, serial)
    {
      r := Routes.AddDevice(clients, id);
      if r.Ok? {
        started := Some(NewClient(id, serial));
      } else {
        started := None;
      }
    }

    /** The end of `createClient`, once `initialize` has resolved or thrown: the handle is
        stored either way. */
    method FinishCreate(id: InstanceId, client: Handle, initThrew: bool)
      modifies this
      ensures Snapshot() == Step(old(Snapshot()), InitSettled(id, client, initThrew))
    {
      clients := clients[id := client];
    }

    /** `loadSessionsAndInitializeClients`: `rows` is what `SELECT instanceId FROM sessions`
        returned, so when it succeeds it lists exactly the IDs of the table. When the query
        fails nothing happens; otherwise each stored ID's client is registered in row order,
        `inits[i]` being how the initialization for `rows[i]` settled, and every instance with
        a stored row ends with a handle. */
    method ReplaySessions(rows: Outcome<seq<InstanceId>>, inits: seq<Init>)
      requires rows.Done? ==> (set x | x in rows.value) == sessions.Keys
      requires rows.Done? ==> |inits| == |rows.value|
      modifies this
      ensures rows.Threw? ==> Snapshot() == old(Snapshot())
      ensures rows.Done? ==> Snapshot() == Run(old(Snapshot()), ReplayEvents(rows.value, inits))
      ensures rows.Done? ==> old(sessions).Keys <= clients.Keys
      ensures sessions == old(sessions) && qrCodes == old(qrCodes)
    {
      if rows.Threw? {
        return;
      }
      var ids := rows.value;
      for i := 0 to |ids|
        invariant Snapshot() == Run(old(Snapshot()), ReplayEvents(ids[..i], inits[..i]))
      {
        ReplayLastRow(old(Snapshot()), ids[..i + 1], inits[..i + 1]);
        assert ids[..i + 1][..i] == ids[..i];
        assert inits[..i + 1][..i] == inits[..i];
        FinishCreate(ids[i], inits[i].client, inits[i].threw);
      }
      assert ids[..|ids|] == ids;
      assert inits[..|ids|] == inits;
      ReplayRegistersEveryRow(old(Snapshot()), ids, inits);
    }
  }
}
