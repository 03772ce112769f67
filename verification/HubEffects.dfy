/**
 What each of the relay's handlers does, in terms of what can be observed: who
 has which session, which connection is current, who is attached where and
 still pending. Each holds in every state that keeps the hub's invariant, for
 every device d, session x and client c.
 */
module HubEffects {
  import opened Wrappers
  import opened Frames
  import opened Hub

  /** Another device has the session. */
  ghost predicate Elsewhere(s: State, dev: Dev, sid: Sid) {
    exists o :: o != dev && HasSession(s, o, sid)
  }

  predicate Pending(s: State, c: Cid, x: Sid) {
    Listed(s, c, x) && s.attachments[x][c]
  }

  predicate SameDevice(s: State, t: State, d: Dev) {
    (d in s.devices <==> d in t.devices) && (d in s.devices ==> t.devices[d] == s.devices[d])
  }

  /** The device's connection is as it was; its sessions may differ. */
  predicate SameConn(s: State, t: State, d: Dev) {
    && (d in s.devices <==> d in t.devices)
    && (d in s.devices ==> t.devices[d].conn == s.devices[d].conn && t.devices[d].online == s.devices[d].online)
  }

  predicate SameAttachment(s: State, t: State, c: Cid, x: Sid) {
    && (Holds(t, c, x) <==> Holds(s, c, x)) && (Listed(t, c, x) <==> Listed(s, c, x))
    && (Pending(t, c, x) <==> Pending(s, c, x)) && (c in t.clients <==> c in s.clients)
  }

  predicate Detached(t: State, c: Cid, x: Sid) {
    !Holds(t, c, x) && !Listed(t, c, x)
  }

  /** In a consistent hub a device may take a session that no other device has. */
  lemma MayIfNowhereElse(s: State, dev: Dev, sid: Sid)
    requires OwnersOk(s)
    ensures MayRegister(s, sid, dev) <==> !Elsewhere(s, dev, sid)
  {
    if sid in s.sidOwner {
      assert Owns(s, s.sidOwner[sid], sid) <==> HasSession(s, s.sidOwner[sid], sid);
    }
    if o :| o != dev && HasSession(s, o, sid) {
      assert Owns(s, o, sid) <==> HasSession(s, o, sid);
    }
  }

  // ---- agent connections ----------------------------------------------------------------------

  ghost predicate AfterConnect(s: State, t: State, dev: Dev, conn: Conn, d: Dev, x: Sid, c: Cid) {
    && dev in t.devices && t.devices[dev].conn == Some(conn) && t.devices[dev].online
    && (d != dev ==> SameDevice(s, t, d))
    && (HasSession(t, d, x) <==> HasSession(s, d, x))
    && (HasSession(s, d, x) ==> t.devices[d].sessions[x] == s.devices[d].sessions[x])
    && SameAttachment(s, t, c, x)
  }

  /** The newest connection is current, with the sessions the device had. */
  lemma ConnectDoes(s: State, dev: Dev, conn: Conn)
    ensures forall d, x, c :: AfterConnect(s, Connect(s, dev, conn), dev, conn, d, x, c)
  {
  }

  ghost predicate AfterDisconnect(s: State, t: State, dev: Dev, d: Dev, x: Sid, c: Cid) {
    && dev in s.devices && dev in t.devices && t.devices[dev].conn == None && !t.devices[dev].online
    && (d != dev ==> SameDevice(s, t, d)) && t.devices[dev].sessions == s.devices[dev].sessions
    && (Holds(t, c, x) <==> Holds(s, c, x)) && (Listed(t, c, x) <==> Listed(s, c, x))
    && (Pending(t, c, x) <==> Pending(s, c, x) || (Listed(s, c, x) && HasSession(s, dev, x)))
  }

  /** The current connection's end makes every client of the device's sessions wait for a snapshot again; any other's does nothing. */
  lemma DisconnectDoes(s: State, dev: Dev, conn: Conn)
    requires Inv(s)
    ensures if dev in s.devices && s.devices[dev].conn == Some(conn)
            then forall d, x, c :: AfterDisconnect(s, Disconnect(s, dev, conn), dev, d, x, c)
            else Disconnect(s, dev, conn) == s
  {
    var t := Disconnect(s, dev, conn);
    if dev in s.devices && s.devices[dev].conn == Some(conn) {
      forall d, x, c ensures AfterDisconnect(s, t, dev, d, x, c) {
        assert Owns(s, dev, x) <==> HasSession(s, dev, x);
        if Listed(s, c, x) {
          assert x in s.sidOwner;
        }
      }
    }
  }

  // ---- sessions -------------------------------------------------------------------------------

  /** Entry i is the last one of the list for this session. */
  predicate LastEntry(list: seq<(Sid, string)>, i: nat, sid: Sid) {
    i < |list| && list[i].0 == sid && forall j :: i < j < |list| ==> list[j].0 != sid
  }

  lemma {:induction false} AcceptedIs(s: State, dev: Dev, list: seq<(Sid, string)>, x: Sid)
    ensures x in Accepted(s, dev, list) <==> MayRegister(s, x, dev) && exists i: nat :: LastEntry(list, i, x)
    ensures forall i: nat :: LastEntry(list, i, x) && MayRegister(s, x, dev) ==> Accepted(s, dev, list)[x] == list[i].1
  {
    if list != [] {
      var n := |list| - 1;
      var less := list[..n];
      AcceptedIs(s, dev, less, x);
      if list[n].0 == x {
        assert LastEntry(list, n, x);
      } else {
        forall i: nat ensures LastEntry(list, i, x) <==> LastEntry(less, i, x) {
          if LastEntry(list, i, x) {
            assert forall j :: i < j < n ==> less[j] == list[j];
          }
        }
      }
    }
  }

  ghost predicate AfterHello(s: State, t: State, dev: Dev, list: seq<(Sid, string)>, d: Dev, x: Sid, c: Cid) {
    && SameConn(s, t, d) && (d != dev ==> SameDevice(s, t, d))
    && (HasSession(t, dev, x) <==> !Elsewhere(s, dev, x) && exists i: nat :: LastEntry(list, i, x))
    && (forall i: nat :: LastEntry(list, i, x) && HasSession(t, dev, x) ==> t.devices[dev].sessions[x] == list[i].1)
    && (if HasSession(s, dev, x) && !HasSession(t, dev, x) then Detached(t, c, x) else SameAttachment(s, t, c, x))
  }

  /**
   After a hello the device has exactly the announced sessions that no other
   device has, each as its last entry says. Clients of the sessions it no longer
   has are detached, everybody else stays.
   */
  lemma HelloDoes(s: State, dev: Dev, conn: Conn, list: seq<(Sid, string)>)
    requires Inv(s)
    ensures if dev in s.devices && s.devices[dev].conn == Some(conn)
            then forall d, x, c :: AfterHello(s, Hello(s, dev, conn, list), dev, list, d, x, c)
            else Hello(s, dev, conn, list) == s
  {
    var t := Hello(s, dev, conn, list);
    if dev in s.devices && s.devices[dev].conn == Some(conn) {
      forall d, x, c ensures AfterHello(s, t, dev, list, d, x, c) {
        AcceptedIs(s, dev, list, x);
        MayIfNowhereElse(s, dev, x);
      }
    }
  }

  ghost predicate AfterUpsert(s: State, t: State, dev: Dev, sid: Sid, info: string, d: Dev, x: Sid, c: Cid) {
    && SameConn(s, t, d) && SameAttachment(s, t, c, x)
    && (HasSession(t, d, x) <==> HasSession(s, d, x) || (d == dev && x == sid))
    && (HasSession(t, d, x) ==>
      t.devices[d].sessions[x] == if d == dev && x == sid then info else s.devices[d].sessions[x])
  }

  /** The device has the session, as announced, if nobody else has; otherwise nothing happens. */
  lemma UpsertDoes(s: State, dev: Dev, sid: Sid, info: string)
    requires Inv(s)
    ensures if dev in s.devices && !Elsewhere(s, dev, sid)
            then forall d, x, c :: AfterUpsert(s, Upsert(s, dev, sid, info), dev, sid, info, d, x, c)
            else Upsert(s, dev, sid, info) == s
  {
    MayIfNowhereElse(s, dev, sid);
  }

  ghost predicate AfterClose(s: State, t: State, dev: Dev, sid: Sid, d: Dev, x: Sid, c: Cid) {
    && SameConn(s, t, d)
    && (HasSession(t, d, x) <==> HasSession(s, d, x) && !(d == dev && x == sid))
    && (HasSession(t, d, x) ==> t.devices[d].sessions[x] == s.devices[d].sessions[x])
    && (if HasSession(s, dev, sid) && x == sid then Detached(t, c, x) else SameAttachment(s, t, c, x))
  }

  /** The device no longer has the session; if it had it, nobody is attached to it any more. */
  lemma CloseDoes(s: State, dev: Dev, sid: Sid)
    requires Inv(s)
    ensures forall d, x, c :: AfterClose(s, Close(s, dev, sid), dev, sid, d, x, c)
  {
    var t := Close(s, dev, sid);
    assert Owns(s, dev, sid) <==> HasSession(s, dev, sid);
    if HasSession(s, dev, sid) {
      forall d, x, c ensures AfterClose(s, t, dev, sid, d, x, c) {
      }
    } else {
      if Owner(s, sid) == dev {
        NothingToForget(s, dev, sid);
      }
      if dev in s.devices {
        assert s.devices[dev].sessions - {sid} == s.devices[dev].sessions;
        assert t.devices == s.devices;
      }
      assert t == s;
    }
  }

  /** A session the device does not have and that has no other owner is nowhere. */
  lemma NothingToForget(s: State, dev: Dev, sid: Sid)
    requires Inv(s) && !HasSession(s, dev, sid) && Owner(s, sid) == dev
    ensures Forget(s, {sid}) == s
  {
    assert Owns(s, dev, sid) <==> HasSession(s, dev, sid);
    assert s.sidOwner - {sid} == s.sidOwner && s.attachments - {sid} == s.attachments;
    forall c | c in s.clients ensures s.clients[c] - {sid} == s.clients[c] {
      assert Listed(s, c, sid) <==> Holds(s, c, sid);
    }
  }

  ghost predicate AfterRevoke(s: State, t: State, dev: Dev, d: Dev, x: Sid, c: Cid) {
    && dev !in t.devices && (d != dev ==> SameDevice(s, t, d))
    && (if HasSession(s, dev, x) then Detached(t, c, x) && x !in t.sidOwner else SameAttachment(s, t, c, x))
  }

  /** The device is gone, its sessions are nobody's, and all others stay. */
  lemma RevokeDoes(s: State, dev: Dev)
    requires Inv(s)
    ensures forall d, x, c :: AfterRevoke(s, Revoke(s, dev), dev, d, x, c)
  {
  }

  // ---- clients --------------------------------------------------------------------------------

  predicate SameDevices(s: State, t: State) {
    t.devices == s.devices && t.sidOwner == s.sidOwner
  }

  ghost predicate AfterClient(s: State, t: State, cid: Cid, live: bool, x: Sid, c: Cid) {
    && SameDevices(s, t) && (cid in t.clients <==> live) && Detached(t, cid, x)
    && (c != cid ==> SameAttachment(s, t, c, x))
  }

  /** A client comes with nothing attached, and leaves nothing behind. */
  lemma ClientsDo(s: State, cid: Cid)
    requires Inv(s)
    ensures cid !in s.clients ==> forall x, c :: AfterClient(s, ClientConnect(s, cid), cid, true, x, c)
    ensures cid in s.clients ==> forall x, c :: AfterClient(s, ClientDisconnect(s, cid), cid, false, x, c)
  {
    if cid !in s.clients {
      forall x, c ensures AfterClient(s, ClientConnect(s, cid), cid, true, x, c) {
        assert Listed(s, cid, x) <==> Holds(s, cid, x);
      }
    } else {
      var t := ClientDisconnect(s, cid);
      forall x, c ensures AfterClient(s, t, cid, false, x, c) {
        assert Listed(s, cid, x) <==> Holds(s, cid, x);
        if c != cid && Listed(s, c, x) {
          assert c in s.attachments[x] - {cid};
        }
      }
    }
  }

  ghost predicate AfterAttach(s: State, t: State, cid: Cid, sid: Sid, x: Sid, c: Cid) {
    && SameDevices(s, t) && Holds(t, cid, sid) && Pending(t, cid, sid)
    && (c != cid || x != sid ==> SameAttachment(s, t, c, x))
  }

  /** Attached and pending, if the device has the session; otherwise nothing happens. */
  lemma AttachDoes(s: State, cid: Cid, dev: Dev, sid: Sid)
    requires Inv(s)
    ensures if HasSession(s, dev, sid) && cid in s.clients
            then forall x, c :: AfterAttach(s, Attach(s, cid, dev, sid), cid, sid, x, c)
            else Attach(s, cid, dev, sid) == s
  {
    assert Owns(s, dev, sid) <==> HasSession(s, dev, sid);
  }

  ghost predicate AfterDetach(s: State, t: State, cid: Cid, sid: Sid, x: Sid, c: Cid) {
    && SameDevices(s, t) && Detached(t, cid, sid)
    && (c != cid || x != sid ==> SameAttachment(s, t, c, x))
  }

  lemma DetachDoes(s: State, cid: Cid, sid: Sid)
    requires Inv(s)
    ensures forall x, c :: AfterDetach(s, Detach(s, cid, sid), cid, sid, x, c)
  {
    var t := Detach(s, cid, sid);
    forall x, c ensures AfterDetach(s, t, cid, sid, x, c) {
      assert Listed(s, cid, sid) <==> Holds(s, cid, sid);
      if cid in s.clients && c != cid && x == sid && Listed(s, c, x) {
        assert c in s.attachments[sid] - {cid};
      }
    }
  }

  // ---- frames ---------------------------------------------------------------------------------

  ghost predicate AfterFrame(s: State, t: State, dev: Dev, f: Frame, x: Sid, c: Cid) {
    && SameDevices(s, t) && (Holds(t, c, x) <==> Holds(s, c, x)) && (Listed(t, c, x) <==> Listed(s, c, x))
    && (Pending(t, c, x) <==>
      Pending(s, c, x) && !(x == f.sid && HasSession(s, dev, x) && f.typ == SNAPSHOT && !f.More()))
  }

  /** Only the last chunk of a snapshot, from the device that has the session, completes its clients. */
  lemma FrameDoes(s: State, dev: Dev, f: Frame)
    requires Inv(s)
    ensures forall x, c :: AfterFrame(s, RouteAgent(s, dev, f), dev, f, x, c)
  {
    var t := RouteAgent(s, dev, f);
    forall x, c ensures AfterFrame(s, t, dev, f, x, c) {
      assert Owns(s, dev, x) <==> HasSession(s, dev, x);
      assert Listed(s, c, x) <==> Holds(s, c, x);
    }
  }
}
