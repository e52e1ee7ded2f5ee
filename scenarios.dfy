/** Whole sequences of events and requests, as the system's users see them. */
module Scenarios {
  import opened Wrappers
  import opened Types
  import opened Lifecycle
  import Routes

  /** The duplicate check of `/add-device` and the registration are not one atomic step:
      `clients` is only written once `initialize` settles, so while the first creation for an
      ID is still initializing (no `InitSettled` for it yet), a second request for the same ID
      is accepted too. */
  lemma {:induction false} SecondAddDeviceAcceptedDuringInit(s: State, id: InstanceId, meanwhile: seq<Event>)
    requires id !in s.clients
    requires forall e :: e in meanwhile ==> !Registers(e, id)
    ensures Routes.AddDevice(Run(s, meanwhile).clients, id) == Routes.Ok(id)
  {
    RegistrationOnlyBySettling(s, id, meanwhile);
  }

  /** When both creations settle, the handle that settled last is the one kept. */
  lemma LastSettledHandleKept(s: State, id: InstanceId, first: Handle, second: Handle, t1: bool, t2: bool)
    ensures Run(s, [InitSettled(id, first, t1), InitSettled(id, second, t2)]).clients[id] == second
  {
  }

  /** `authenticated` does not clear the pending QR: between `authenticated` and `ready`,
      `/get-qr` still serves the old code, while the row already says "Authenticated". */
  lemma QrSurvivesAuthentication(s: State, id: InstanceId, url: string)
    requires url != ""
    ensures var r := Run(s, [QrReceived(id, Some(url)), ClientAuthenticated(id, true)]);
      Routes.GetQr(r.qrCodes, id) == Routes.Ok(url) &&
      id in r.sessions && r.sessions[id] == StatusAuthenticated
  {
  }

  /** A full login (`qr`, `authenticated`, `ready`) and a later disconnect: the QR is gone
      after `ready` and stays gone, the row says "Authenticated" after login and "Inactive"
      after the disconnect, and a registered instance stays registered and reachable. */
  lemma LoginThenDisconnect(s: State, id: InstanceId, url: string)
    ensures var r := Run(s, [QrReceived(id, Some(url)), ClientAuthenticated(id, true), ClientReady(id)]);
      && Routes.GetQr(r.qrCodes, id) == Routes.NotAvailable
      && id in r.sessions && r.sessions[id] == StatusAuthenticated
      && r.clients == s.clients
    ensures var r := Run(s, [QrReceived(id, Some(url)), ClientAuthenticated(id, true), ClientReady(id),
                             ClientDisconnected(id, true)]);
      && Routes.GetQr(r.qrCodes, id) == Routes.NotAvailable
      && id in r.sessions && r.sessions[id] == StatusInactive
      && r.clients == s.clients
      && (id in s.clients ==> Routes.Guard(r.clients, id) != Routes.Missing)
  {
    var e1, e2 := QrReceived(id, Some(url)), ClientAuthenticated(id, true);
    var e3, e4 := ClientReady(id), ClientDisconnected(id, true);
    assert [e1, e2, e3][..2] == [e1, e2];
    assert [e1, e2, e3, e4][..3] == [e1, e2, e3];
    assert [e1, e2][..1] == [e1];
    assert [e1][..0] == [];
    assert Run(s, []) == s;
    var r1 := Run(s, [e1]);
    assert r1 == OnQr(s, id, Some(url));
    var r2 := Run(s, [e1, e2]);
    assert r2 == OnAuthenticated(r1, id, true);
    var r3 := Run(s, [e1, e2, e3]);
    assert r3 == OnReady(r2, id);
    assert Run(s, [e1, e2, e3, e4]) == OnDisconnected(r3, id, true);
  }

  /** A registered client whose `info` the library has filled in serves its chats. */
  lemma ReadyClientServesChats(s: State, id: InstanceId, serial: nat, chats: seq<Chat>)
    ensures var r := Run(s, [InitSettled(id, NewClient(id, serial), false), InfoSet(id, serial)]);
      && Routes.Guard(r.clients, id).Usable?
      && Routes.ChatBackup(r.clients, id, Done(chats)) == Routes.Ok(chats)
  {
    var e1, e2 := InitSettled(id, NewClient(id, serial), false), InfoSet(id, serial);
    assert [e1, e2][..1] == [e1];
    assert Run(s, []) == s;
  }

  /** A disconnect for an instance whose row was never written changes nothing. */
  lemma DisconnectWithoutRowIsNoOp(s: State, id: InstanceId, written: bool)
    requires id !in s.sessions
    ensures Run(s, [ClientDisconnected(id, written)]) == s
  {
  }

  /** Startup replay with stored IDs "A" and "B": both are registered even though "A"'s
      initialization threw. */
  lemma ReplayIsolatesFailures(s: State, a: Handle, b: Handle)
    ensures var r := Run(s, ReplayEvents(["A", "B"], [Init(a, true), Init(b, false)]));
      && "A" in r.clients && r.clients["A"] == a
      && "B" in r.clients && r.clients["B"] == b
  {
  }

  /** `/send-message` to an unknown instance is InstanceNotFound whatever the other inputs,
      and a bare number and the suffixed number reach the same address. */
  lemma SendMessageScenarios(clients: map<InstanceId, Handle>, id: InstanceId, refId: Option<string>,
                             send: Outcome<string>)
    ensures id !in clients ==> Routes.SendMessage(clients, id, Some("555"), refId, send) == Routes.InstanceNotFound
    ensures Routes.NormaliseNumber("555") == Routes.NormaliseNumber("555@c.us") == "555@c.us"
  {
  }
}
