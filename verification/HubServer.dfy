/**
 The relay's hub as it runs: maps updated and deleted from in place, with a
 loop wherever a handler walks over them. Every method is one critical
 section and is proved to have the effect that module Hub gives it.
 */
module HubServer {
  import opened Wrappers
  import opened Frames
  import opened Hub

  class Server {
    var devices: map<Dev, Device>
    var sidOwner: map<Sid, Dev>
    var attachments: map<Sid, map<Cid, bool>>
    var clients: map<Cid, set<Sid>>

    ghost function View(): State
      reads this
    {
      State(devices, sidOwner, attachments, clients)
    }

    constructor ()
      ensures View() == EMPTY
    {
      devices, sidOwner, attachments, clients := map[], map[], map[], map[];
    }

    method RegisterSid(sid: Sid, dev: Dev) returns (ok: bool)
      modifies this`sidOwner
      ensures ok <==> MayRegister(old(View()), sid, dev)
      ensures sidOwner == if ok then old(sidOwner)[sid := dev] else old(sidOwner)
    {
      if sid in sidOwner && sidOwner[sid] != dev {
        return false;
      }
      sidOwner := sidOwner[sid := dev];
      return true;
    }

    method ForgetSid(sid: Sid)
      modifies this`sidOwner, this`attachments, this`clients
      ensures View() == Forget(old(View()), {sid})
    {
      sidOwner := sidOwner - {sid};
      attachments := attachments - {sid};
      ghost var all := clients;
      var todo := clients.Keys;
      while todo != {}
        invariant todo <= all.Keys == clients.Keys
        invariant forall c :: c in all ==> clients[c] == if c in todo then all[c] else all[c] - {sid}
        modifies this`clients
        decreases todo
      {
        var c :| c in todo;
        clients := clients[c := clients[c] - {sid}];
        todo := todo - {c};
      }
      assert clients == Forget(old(View()), {sid}).clients;
    }

    method ForgetAll(sids: set<Sid>)
      modifies this`sidOwner, this`attachments, this`clients
      ensures View() == Forget(old(View()), sids)
    {
      ghost var s := View();
      var todo := sids;
      ForgetNothing(s);
      assert sids - todo == {};
      while todo != {}
        invariant todo <= sids
        invariant View() == Forget(s, sids - todo)
        decreases todo
      {
        var sid :| sid in todo;
        ForgetTwice(s, sids - todo, {sid});
        ghost var gone := sids - todo;
        ForgetSid(sid);
        todo := todo - {sid};
        assert sids - todo == gone + {sid};
      }
      assert sids - todo == sids;
    }

    method Connect(dev: Dev, conn: Conn) returns (replaced: Option<Conn>)
      modifies this`devices
      ensures View() == Hub.Connect(old(View()), dev, conn)
      ensures replaced == if dev in old(devices) then old(devices)[dev].conn else None
    {
      if dev !in devices {
        devices := devices[dev := Device(None, false, map[])];
      }
      replaced := devices[dev].conn;
      devices := devices[dev := devices[dev].(conn := Some(conn), online := true)];
    }

    method Disconnect(dev: Dev, conn: Conn)
      modifies this`devices, this`attachments
      ensures View() == Hub.Disconnect(old(View()), dev, conn)
    {
      if dev in devices && devices[dev].conn == Some(conn) {
        devices := devices[dev := devices[dev].(conn := None, online := false)];
        MarkDevice(dev);
        assert attachments == Hub.Disconnect(old(View()), dev, conn).attachments;
      }
    }

    /** The next snapshot must reach every client of the device's sessions again. */
    method MarkDevice(dev: Dev)
      modifies this`attachments
      ensures attachments.Keys == old(attachments).Keys
      ensures forall sid :: sid in attachments ==>
        attachments[sid] == if OwnerOf(sid) == dev then AllPending(old(attachments)[sid]) else old(attachments)[sid]
    {
      ghost var all := attachments;
      var todo := attachments.Keys;
      while todo != {}
        invariant todo <= all.Keys == attachments.Keys
        invariant forall sid :: sid in all ==>
          attachments[sid] == if sid in todo || OwnerOf(sid) != dev then all[sid] else AllPending(all[sid])
        decreases todo
      {
        var sid :| sid in todo;
        if OwnerOf(sid) == dev {
          var m := MarkPending(attachments[sid]);
          attachments := attachments[sid := m];
        }
        todo := todo - {sid};
      }
    }

    function OwnerOf(sid: Sid): Dev
      reads this`sidOwner
    {
      if sid in sidOwner then sidOwner[sid] else ""
    }

    /** The sessions of a hello, as far as the device may have them. */
    method RegisterAll(dev: Dev, list: seq<(Sid, string)>, ghost s: State) returns (now: map<Sid, string>)
      requires s == View()
      modifies this`sidOwner
      ensures now == Accepted(s, dev, list) && View() == Registered(s, now, dev)
    {
      now := map[];
      assert Registered(s, now, dev) == s;
      for i := 0 to |list|
        invariant now == Accepted(s, dev, list[..i]) && View() == Registered(s, now, dev)
      {
        var (sid, info) := list[i];
        OneAccepted(s, dev, list, i, now);
        var ok := RegisterSid(sid, dev);
        if ok {
          now := now[sid := info];
        }
      }
      assert list[..|list|] == list;
    }

    method Hello(dev: Dev, conn: Conn, list: seq<(Sid, string)>)
      modifies this
      ensures View() == Hub.Hello(old(View()), dev, conn, list)
    {
      if !(dev in devices && devices[dev].conn == Some(conn)) {
        return;
      }
      var now := RegisterAll(dev, list, View());
      ForgetAll(devices[dev].sessions.Keys - now.Keys);
      devices := devices[dev := devices[dev].(sessions := now)];
    }

    method Upsert(dev: Dev, sid: Sid, info: string) returns (ok: bool)
      modifies this`devices, this`sidOwner
      ensures View() == Hub.Upsert(old(View()), dev, sid, info)
      ensures ok <==> dev in old(devices) && MayRegister(old(View()), sid, dev)
    {
      if dev !in devices {
        return false;
      }
      ok := RegisterSid(sid, dev);
      if ok {
        devices := devices[dev := devices[dev].(sessions := devices[dev].sessions[sid := info])];
      }
    }

    method Close(dev: Dev, sid: Sid)
      modifies this
      ensures View() == Hub.Close(old(View()), dev, sid)
    {
      if dev in devices {
        devices := devices[dev := devices[dev].(sessions := devices[dev].sessions - {sid})];
      }
      if OwnerOf(sid) == dev {
        ForgetSid(sid);
      }
    }

    method Revoke(dev: Dev) returns (closed: Option<Conn>)
      modifies this
      ensures View() == Hub.Revoke(old(View()), dev)
      ensures closed == if dev in old(devices) then old(devices)[dev].conn else None
    {
      closed := None;
      if dev in devices {
        closed := devices[dev].conn;
        ForgetAll(devices[dev].sessions.Keys);
        devices := devices - {dev};
      }
    }

    method ClientConnect(cid: Cid)
      modifies this`clients
      ensures View() == Hub.ClientConnect(old(View()), cid)
    {
      clients := clients[cid := {}];
    }

    /** Take cid out of one session's attachments. */
    method DropAttachment(sid: Sid, cid: Cid)
      modifies this`attachments
      ensures attachments == Drop(old(attachments), sid, cid)
    {
      if sid in attachments {
        attachments := attachments[sid := attachments[sid] - {cid}];
        if attachments[sid] == map[] {
          attachments := attachments - {sid};
        }
      }
    }

    method ClientDisconnect(cid: Cid)
      modifies this`clients, this`attachments
      ensures View() == Hub.ClientDisconnect(old(View()), cid)
    {
      if cid !in clients {
        return;
      }
      var attached := clients[cid];
      clients := clients - {cid};
      ghost var all := attachments;
      var todo := attached;
      assert DropSome(all, {}, cid) == all && attached - todo == {};
      while todo != {}
        invariant todo <= attached
        invariant attachments == DropSome(all, attached - todo, cid)
        modifies this`attachments
        decreases todo
      {
        var sid :| sid in todo;
        DropOneMore(all, attached - todo, sid, cid);
        ghost var dropped := attached - todo;
        DropAttachment(sid, cid);
        todo := todo - {sid};
        assert attached - todo == dropped + {sid};
      }
      assert attached - todo == attached;
      assert attachments == Hub.ClientDisconnect(old(View()), cid).attachments;
    }

    method Attach(cid: Cid, dev: Dev, sid: Sid) returns (ok: bool)
      modifies this`attachments, this`clients
      ensures View() == Hub.Attach(old(View()), cid, dev, sid)
      ensures ok <==> Owner(old(View()), sid) == dev && dev != "" && cid in old(clients)
    {
      if OwnerOf(sid) != dev || dev == "" || cid !in clients {
        return false;
      }
      if sid !in attachments {
        attachments := attachments[sid := map[]];
      }
      attachments := attachments[sid := attachments[sid][cid := true]];
      clients := clients[cid := clients[cid] + {sid}];
      return true;
    }

    method Detach(cid: Cid, sid: Sid)
      modifies this`attachments, this`clients
      ensures View() == Hub.Detach(old(View()), cid, sid)
    {
      if cid in clients {
        clients := clients[cid := clients[cid] - {sid}];
        DropAttachment(sid, cid);
      }
    }

    /** The two lookups that only read: which connection a message or frame goes to. */
    method AgentFor(dev: Dev, sid: Sid) returns (conn: Option<Conn>, d: Dev)
      ensures (conn, d) == Hub.AgentFor(View(), dev, sid)
    {
      d := dev;
      if d == "" && sid != 0 {
        d := OwnerOf(sid);
      }
      conn := if d in devices then devices[d].conn else None;
    }

    method RouteClientFrame(cid: Cid, f: Frame) returns (conn: Option<Conn>)
      ensures conn == RouteClient(View(), cid, f)
    {
      if f.typ != INPUT && f.typ != RESIZE && f.typ != ACK {
        return None;
      }
      conn := None;
      if cid in clients && f.sid in clients[cid] {
        var owner := OwnerOf(f.sid);
        if owner in devices {
          conn := devices[owner].conn;
        }
      }
    }

    method RouteAgentFrame(dev: Dev, f: Frame) returns (targets: set<Cid>)
      modifies this`attachments
      ensures targets == Targets(old(View()), dev, f)
      ensures View() == RouteAgent(old(View()), dev, f)
    {
      targets := {};
      if !(f.sid in sidOwner && sidOwner[f.sid] == dev && f.sid in attachments) {
        return;
      }
      var atts := attachments[f.sid];
      ghost var all := atts;
      var todo := atts.Keys;
      while todo != {}
        invariant todo <= all.Keys == atts.Keys
        invariant targets == set c | c in all && c !in todo && c in clients && Gets(all[c], f)
        invariant forall c :: c in all ==>
          atts[c] == if c !in todo && c in clients && f.typ == SNAPSHOT && !f.More() then false else all[c]
        decreases todo
      {
        var c :| c in todo;
        todo := todo - {c};
        if c !in clients {
          continue;
        }
        var pending := atts[c];
        if f.typ == SNAPSHOT {
          if !pending {
            continue;
          }
          if !f.More() {
            atts := atts[c := false];
          }
        } else if f.typ == OUTPUT {
          if pending {
            continue;
          }
        }
        targets := targets + {c};
      }
      attachments := attachments[f.sid := atts];
      assert f.typ == SNAPSHOT && !f.More() ==> atts == map c | c in all :: all[c] && c !in clients;
      assert !(f.typ == SNAPSHOT && !f.More()) ==> atts == all;
    }
  }

  method MarkPending(m: map<Cid, bool>) returns (r: map<Cid, bool>)
    ensures r == AllPending(m)
  {
    r := m;
    var todo := m.Keys;
    while todo != {}
      invariant todo <= m.Keys == r.Keys
      invariant forall c :: c in m ==> r[c] == if c in todo then m[c] else true
      decreases todo
    {
      var c :| c in todo;
      r := r[c := true];
      todo := todo - {c};
    }
  }

  /** The device owns all of these. */
  function Registered(s: State, now: map<Sid, string>, dev: Dev): State {
    s.(sidOwner := s.sidOwner + map sid | sid in now :: dev)
  }

  /** The next session of a hello is accepted or not, whatever was registered before it. */
  lemma OneAccepted(s: State, dev: Dev, list: seq<(Sid, string)>, i: nat, now: map<Sid, string>)
    requires i < |list| && now == Accepted(s, dev, list[..i])
    ensures var (sid, info) := list[i];
      && (MayRegister(Registered(s, now, dev), sid, dev) <==> MayRegister(s, sid, dev))
      && Accepted(s, dev, list[..i + 1]) == (if MayRegister(s, sid, dev) then now[sid := info] else now)
      && Registered(s, now[sid := info], dev).sidOwner == Registered(s, now, dev).sidOwner[sid := dev]
  {
    var (sid, info) := list[i];
    assert list[..i + 1][..i] == list[..i];
    AcceptedMay(s, dev, list[..i]);
    OneRegistered(s, dev, sid, info, now);
  }

  lemma OneRegistered(s: State, dev: Dev, sid: Sid, info: string, now: map<Sid, string>)
    requires sid in now ==> MayRegister(s, sid, dev)
    ensures MayRegister(Registered(s, now, dev), sid, dev) <==> MayRegister(s, sid, dev)
    ensures Registered(s, now[sid := info], dev).sidOwner == Registered(s, now, dev).sidOwner[sid := dev]
  {
  }

  lemma ForgetTwice(s: State, a: set<Sid>, b: set<Sid>)
    ensures Forget(Forget(s, a), b) == Forget(s, a + b)
  {
    var l, r := Forget(Forget(s, a), b), Forget(s, a + b);
    assert l.sidOwner == r.sidOwner && l.attachments == r.attachments;
    assert forall c :: c in s.clients ==> s.clients[c] - a - b == s.clients[c] - (a + b);
    assert l.clients == r.clients;
  }

  lemma ForgetNothing(s: State)
    ensures Forget(s, {}) == s
  {
    var l := Forget(s, {});
    assert forall c :: c in s.clients ==> s.clients[c] - {} == s.clients[c];
    assert l.sidOwner == s.sidOwner && l.attachments == s.attachments && l.clients == s.clients;
  }

  /** Drop, for a whole set of sessions. */
  function DropSome(m: map<Sid, map<Cid, bool>>, sids: set<Sid>, cid: Cid): map<Sid, map<Cid, bool>> {
    map sid | sid in m && (sid in sids ==> m[sid] - {cid} != map[]) ::
      if sid in sids then m[sid] - {cid} else m[sid]
  }

  lemma DropOneMore(m: map<Sid, map<Cid, bool>>, sids: set<Sid>, sid: Sid, cid: Cid)
    requires sid !in sids
    ensures Drop(DropSome(m, sids, cid), sid, cid) == DropSome(m, sids + {sid}, cid)
  {
  }
}
