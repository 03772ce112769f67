/**
 The relay's routing state: devices and their sessions, who owns a session
 id, which clients are attached to it. One function per handler, each the
 effect of one critical section; the class in HubServer implements them.
 */
module Hub {
  import opened Wrappers
  import opened Bytes
  import opened Frames

  type Dev = string
  type Sid = nat
  type Cid = string
  type Conn = nat

  /** The relay's view of a paired device; conn is its current agent connection. */
  datatype Device = Device(conn: Option<Conn>, online: bool, sessions: map<Sid, string>)

  datatype State = State(
    devices: map<Dev, Device>,
    sidOwner: map<Sid, Dev>,
    attachments: map<Sid, map<Cid, bool>>, // true while the client's snapshot is pending
    clients: map<Cid, set<Sid>>)           // live clients and what each is attached to

  const EMPTY := State(map[], map[], map[], map[])

  /** Go reads "" for a missing owner. */
  function Owner(s: State, sid: Sid): Dev {
    if sid in s.sidOwner then s.sidOwner[sid] else ""
  }

  predicate MayRegister(s: State, sid: Sid, dev: Dev) {
    sid in s.sidOwner ==> s.sidOwner[sid] == dev
  }

  /** forgetSIDLocked, for a whole set of session ids. */
  function Forget(s: State, sids: set<Sid>): State {
    s.(sidOwner := s.sidOwner - sids,
       attachments := s.attachments - sids,
       clients := map c | c in s.clients :: s.clients[c] - sids)
  }

  function Connect(s: State, dev: Dev, conn: Conn): State {
    var d := if dev in s.devices then s.devices[dev] else Device(None, false, map[]);
    s.(devices := s.devices[dev := d.(conn := Some(conn), online := true)])
  }

  /** A connection that was replaced leaves the state alone when it ends. */
  function Disconnect(s: State, dev: Dev, conn: Conn): State {
    if dev in s.devices && s.devices[dev].conn == Some(conn) then
      s.(devices := s.devices[dev := s.devices[dev].(conn := None, online := false)],
         attachments := map sid | sid in s.attachments ::
           if Owner(s, sid) == dev then AllPending(s.attachments[sid]) else s.attachments[sid])
    else s
  }

  function AllPending(m: map<Cid, bool>): map<Cid, bool> {
    map c | c in m :: true
  }

  /** The sessions of a hello that this device may have, the last entry of a sid winning. */
  function Accepted(s: State, dev: Dev, list: seq<(Sid, string)>): map<Sid, string> {
    if list == [] then map[]
    else
      var (sid, info) := list[|list| - 1];
      var rest := Accepted(s, dev, list[..|list| - 1]);
      if MayRegister(s, sid, dev) then rest[sid := info] else rest
  }

  function Hello(s: State, dev: Dev, conn: Conn, list: seq<(Sid, string)>): State {
    if dev in s.devices && s.devices[dev].conn == Some(conn) then
      var now := Accepted(s, dev, list);
      var s1 := s.(sidOwner := s.sidOwner + map sid | sid in now :: dev);
      var s2 := Forget(s1, s.devices[dev].sessions.Keys - now.Keys);
      s2.(devices := s2.devices[dev := s2.devices[dev].(sessions := now)])
    else s
  }

  function Upsert(s: State, dev: Dev, sid: Sid, info: string): State {
    if dev in s.devices && MayRegister(s, sid, dev) then
      var d := s.devices[dev];
      s.(sidOwner := s.sidOwner[sid := dev], devices := s.devices[dev := d.(sessions := d.sessions[sid := info])])
    else s
  }

  function Close(s: State, dev: Dev, sid: Sid): State {
    var s1 := if dev in s.devices
              then s.(devices := s.devices[dev := s.devices[dev].(sessions := s.devices[dev].sessions - {sid})])
              else s;
    if Owner(s, sid) == dev then Forget(s1, {sid}) else s1
  }

  function Revoke(s: State, dev: Dev): State {
    if dev in s.devices then
      var s1 := Forget(s, s.devices[dev].sessions.Keys);
      s1.(devices := s1.devices - {dev})
    else s
  }

  function ClientConnect(s: State, cid: Cid): State {
    s.(clients := s.clients[cid := {}])
  }

  /** Take cid out of one session's attachments, and the entry with it when it was the last. */
  function Drop(m: map<Sid, map<Cid, bool>>, sid: Sid, cid: Cid): map<Sid, map<Cid, bool>> {
    if sid !in m then m
    else if m[sid] - {cid} == map[] then m - {sid}
    else m[sid := m[sid] - {cid}]
  }

  function ClientDisconnect(s: State, cid: Cid): State {
    if cid in s.clients then
      s.(clients := s.clients - {cid},
         attachments := map sid | sid in s.attachments && (sid in s.clients[cid] ==> s.attachments[sid] - {cid} != map[]) ::
           if sid in s.clients[cid] then s.attachments[sid] - {cid} else s.attachments[sid])
    else s
  }

  /** agentFor: the connection of the named device, or of the session's owner. */
  function AgentFor(s: State, dev: Dev, sid: Sid): (r: (Option<Conn>, Dev)) {
    var d := if dev == "" && sid != 0 then Owner(s, sid) else dev;
    (if d in s.devices then s.devices[d].conn else None, d)
  }

  /** Second half of session.attach, after agentFor found device dev online. */
  function Attach(s: State, cid: Cid, dev: Dev, sid: Sid): State {
    if Owner(s, sid) != dev || dev == "" || cid !in s.clients then s
    else
      var m := if sid in s.attachments then s.attachments[sid] else map[];
      s.(attachments := s.attachments[sid := m[cid := true]],
         clients := s.clients[cid := s.clients[cid] + {sid}])
  }

  function Detach(s: State, cid: Cid, sid: Sid): State {
    if cid in s.clients then
      s.(clients := s.clients[cid := s.clients[cid] - {sid}], attachments := Drop(s.attachments, sid, cid))
    else s
  }

  // ---- frames ---------------------------------------------------------------------

  predicate Gets(pending: bool, f: Frame) {
    if f.typ == SNAPSHOT then pending else if f.typ == OUTPUT then !pending else true
  }

  /** The clients a data frame of device dev is sent to. */
  function Targets(s: State, dev: Dev, f: Frame): set<Cid> {
    if f.sid in s.sidOwner && s.sidOwner[f.sid] == dev && f.sid in s.attachments then
      set c | c in s.attachments[f.sid] && c in s.clients && Gets(s.attachments[f.sid][c], f)
    else {}
  }

  /** The last chunk of a snapshot completes the clients that got it. */
  function RouteAgent(s: State, dev: Dev, f: Frame): State {
    if f.sid in s.sidOwner && s.sidOwner[f.sid] == dev && f.sid in s.attachments && f.typ == SNAPSHOT && !f.More() then
      var m := s.attachments[f.sid];
      s.(attachments := s.attachments[f.sid := map c | c in m :: m[c] && c !in s.clients])
    else s
  }

  /** Where an Input, Resize or Ack frame of a client goes. */
  function RouteClient(s: State, cid: Cid, f: Frame): Option<Conn> {
    if f.typ != INPUT && f.typ != RESIZE && f.typ != ACK then None
    else if cid in s.clients && f.sid in s.clients[cid] && Owner(s, f.sid) in s.devices
    then s.devices[Owner(s, f.sid)].conn
    else None
  }

  // ---- runs -----------------------------------------------------------------------

  datatype Event =
    | EConnect(dev: Dev, conn: Conn)
    | EDisconnect(dev: Dev, conn: Conn)
    | EHello(dev: Dev, conn: Conn, list: seq<(Sid, string)>)
    | EUpsert(dev: Dev, sid: Sid, info: string)
    | EClose(dev: Dev, sid: Sid)
    | ERevoke(dev: Dev)
    | EClientConnect(cid: Cid)
    | EClientDisconnect(cid: Cid)
    | EAttach(cid: Cid, dev: Dev, sid: Sid)
    | EDetach(cid: Cid, sid: Sid)
    | EAgentFrame(dev: Dev, f: Frame)

  /** Device ids are never empty, client ids are random and never reused while live. */
  predicate Possible(s: State, e: Event) {
    match e
    case EConnect(dev, _) => dev != ""
    case EClientConnect(cid) => cid !in s.clients
    case _ => true
  }

  function Step(s: State, e: Event): State {
    if !Possible(s, e) then s else
      match e
      case EConnect(dev, conn) => Connect(s, dev, conn)
      case EDisconnect(dev, conn) => Disconnect(s, dev, conn)
      case EHello(dev, conn, list) => Hello(s, dev, conn, list)
      case EUpsert(dev, sid, info) => Upsert(s, dev, sid, info)
      case EClose(dev, sid) => Close(s, dev, sid)
      case ERevoke(dev) => Revoke(s, dev)
      case EClientConnect(cid) => ClientConnect(s, cid)
      case EClientDisconnect(cid) => ClientDisconnect(s, cid)
      case EAttach(cid, dev, sid) => Attach(s, cid, dev, sid)
      case EDetach(cid, sid) => Detach(s, cid, sid)
      case EAgentFrame(dev, f) => RouteAgent(s, dev, f)
  }

  function Run(es: seq<Event>): State {
    if es == [] then EMPTY else Step(Run(es[..|es| - 1]), es[|es| - 1])
  }

  // ---- the representation invariant -------------------------------------------------

  predicate Owns(s: State, dev: Dev, sid: Sid) { sid in s.sidOwner && s.sidOwner[sid] == dev }
  predicate HasSession(s: State, dev: Dev, sid: Sid) { dev in s.devices && sid in s.devices[dev].sessions }
  predicate Listed(s: State, cid: Cid, sid: Sid) { sid in s.attachments && cid in s.attachments[sid] }
  predicate Holds(s: State, cid: Cid, sid: Sid) { cid in s.clients && sid in s.clients[cid] }

  ghost predicate OwnersOk(s: State) {
    && "" !in s.devices
    && forall dev, sid :: Owns(s, dev, sid) <==> HasSession(s, dev, sid)
  }

  ghost predicate AttachmentsOk(s: State) {
    && (forall cid, sid :: Listed(s, cid, sid) <==> Holds(s, cid, sid))
    && (forall sid :: sid in s.attachments ==> sid in s.sidOwner && s.attachments[sid] != map[])
  }

  ghost predicate OnlineOk(s: State) {
    forall dev :: dev in s.devices ==> (s.devices[dev].online <==> s.devices[dev].conn.Some?)
  }

  ghost predicate Inv(s: State) {
    OwnersOk(s) && AttachmentsOk(s) && OnlineOk(s)
  }

  lemma ForgetKeepsAttachments(s: State, sids: set<Sid>)
    requires AttachmentsOk(s)
    ensures AttachmentsOk(Forget(s, sids))
  {
    var t := Forget(s, sids);
    forall cid, sid ensures Listed(t, cid, sid) <==> Holds(t, cid, sid) {
      assert Listed(s, cid, sid) <==> Holds(s, cid, sid);
    }
  }

  lemma ConnectKeeps(s: State, dev: Dev, conn: Conn)
    requires Inv(s) && dev != ""
    ensures Inv(Connect(s, dev, conn))
  {
    var t := Connect(s, dev, conn);
    forall d, sid ensures Owns(t, d, sid) <==> HasSession(t, d, sid) {
      assert Owns(s, d, sid) <==> HasSession(s, d, sid);
    }
    forall cid, sid ensures Listed(t, cid, sid) <==> Holds(t, cid, sid) {
      assert Listed(s, cid, sid) <==> Holds(s, cid, sid);
    }
  }

  lemma DisconnectKeeps(s: State, dev: Dev, conn: Conn)
    requires Inv(s)
    ensures Inv(Disconnect(s, dev, conn))
  {
    var t := Disconnect(s, dev, conn);
    forall d, sid ensures Owns(t, d, sid) <==> HasSession(t, d, sid) {
      assert Owns(s, d, sid) <==> HasSession(s, d, sid);
    }
    forall cid, sid ensures Listed(t, cid, sid) <==> Holds(t, cid, sid) {
      assert Listed(s, cid, sid) <==> Holds(s, cid, sid);
    }
    forall sid | sid in t.attachments ensures t.attachments[sid] != map[] {
      var c :| c in s.attachments[sid];
      assert c in t.attachments[sid];
    }
  }

  lemma {:induction false} AcceptedMay(s: State, dev: Dev, list: seq<(Sid, string)>)
    ensures forall sid :: sid in Accepted(s, dev, list) ==> MayRegister(s, sid, dev)
  {
    if list != [] {
      AcceptedMay(s, dev, list[..|list| - 1]);
    }
  }

  lemma HelloOwners(s: State, dev: Dev, conn: Conn, list: seq<(Sid, string)>)
    requires OwnersOk(s)
    ensures OwnersOk(Hello(s, dev, conn, list))
  {
    var t := Hello(s, dev, conn, list);
    AcceptedMay(s, dev, list);
    forall d, sid ensures Owns(t, d, sid) <==> HasSession(t, d, sid) {
      assert Owns(s, d, sid) <==> HasSession(s, d, sid);
      assert Owns(s, dev, sid) <==> HasSession(s, dev, sid);
    }
  }

  lemma HelloKeeps(s: State, dev: Dev, conn: Conn, list: seq<(Sid, string)>)
    requires Inv(s)
    ensures Inv(Hello(s, dev, conn, list))
  {
    HelloOwners(s, dev, conn, list);
    if dev in s.devices && s.devices[dev].conn == Some(conn) {
      var now := Accepted(s, dev, list);
      var s1 := s.(sidOwner := s.sidOwner + map sid | sid in now :: dev);
      forall cid, sid ensures Listed(s1, cid, sid) <==> Holds(s1, cid, sid) {
        assert Listed(s, cid, sid) <==> Holds(s, cid, sid);
      }
      var gone := s.devices[dev].sessions.Keys - now.Keys;
      ForgetKeepsAttachments(s1, gone);
      var s2, t := Forget(s1, gone), Hello(s, dev, conn, list);
      forall cid, sid ensures Listed(t, cid, sid) <==> Holds(t, cid, sid) {
        assert Listed(s2, cid, sid) <==> Holds(s2, cid, sid);
      }
    }
  }

  lemma UpsertKeeps(s: State, dev: Dev, sid: Sid, info: string)
    requires Inv(s)
    ensures Inv(Upsert(s, dev, sid, info))
  {
    var t := Upsert(s, dev, sid, info);
    forall d, x ensures Owns(t, d, x) <==> HasSession(t, d, x) {
      assert Owns(s, d, x) <==> HasSession(s, d, x);
    }
    forall cid, x ensures Listed(t, cid, x) <==> Holds(t, cid, x) {
      assert Listed(s, cid, x) <==> Holds(s, cid, x);
    }
  }

  lemma CloseOwners(s: State, dev: Dev, sid: Sid)
    requires OwnersOk(s)
    ensures OwnersOk(Close(s, dev, sid))
  {
    var t := Close(s, dev, sid);
    assert Owns(s, dev, sid) <==> HasSession(s, dev, sid);
    forall d, x ensures Owns(t, d, x) <==> HasSession(t, d, x) {
      assert Owns(s, d, x) <==> HasSession(s, d, x);
      if x != sid {
        assert Owns(t, d, x) == Owns(s, d, x) && HasSession(t, d, x) == HasSession(s, d, x);
      } else if Owner(s, sid) == dev {
        assert !Owns(t, d, sid);
      } else {
        assert !HasSession(s, dev, sid);
        assert Owns(t, d, sid) == Owns(s, d, sid) && HasSession(t, d, sid) == HasSession(s, d, sid);
      }
    }
  }

  lemma CloseKeeps(s: State, dev: Dev, sid: Sid)
    requires Inv(s)
    ensures Inv(Close(s, dev, sid))
  {
    CloseOwners(s, dev, sid);
    var t := Close(s, dev, sid);
    ForgetKeepsAttachments(s, {sid});
    var u := if Owner(s, sid) == dev then Forget(s, {sid}) else s;
    forall cid, x ensures Listed(t, cid, x) <==> Holds(t, cid, x) {
      assert Listed(u, cid, x) <==> Holds(u, cid, x);
    }
  }

  lemma RevokeKeeps(s: State, dev: Dev)
    requires Inv(s)
    ensures Inv(Revoke(s, dev))
  {
    var t := Revoke(s, dev);
    forall d, x ensures Owns(t, d, x) <==> HasSession(t, d, x) {
      assert Owns(s, d, x) <==> HasSession(s, d, x);
      assert Owns(s, dev, x) <==> HasSession(s, dev, x);
    }
    if dev in s.devices {
      var u := Forget(s, s.devices[dev].sessions.Keys);
      ForgetKeepsAttachments(s, s.devices[dev].sessions.Keys);
      forall cid, x ensures Listed(t, cid, x) <==> Holds(t, cid, x) {
        assert Listed(u, cid, x) <==> Holds(u, cid, x);
      }
    }
  }

  /** Handlers of clients leave devices and owners alone. */
  lemma SameOwners(s: State, t: State)
    requires OwnersOk(s) && OnlineOk(s) && t.devices == s.devices && t.sidOwner == s.sidOwner
    ensures OwnersOk(t) && OnlineOk(t)
  {
    forall d, x ensures Owns(t, d, x) <==> HasSession(t, d, x) {
      assert Owns(s, d, x) <==> HasSession(s, d, x);
    }
  }

  lemma ClientConnectKeeps(s: State, cid: Cid)
    requires Inv(s) && cid !in s.clients
    ensures Inv(ClientConnect(s, cid))
  {
    var t := ClientConnect(s, cid);
    SameOwners(s, t);
    forall c, x ensures Listed(t, c, x) <==> Holds(t, c, x) {
      assert Listed(s, c, x) <==> Holds(s, c, x);
    }
  }

  lemma ClientDisconnectKeeps(s: State, cid: Cid)
    requires Inv(s)
    ensures Inv(ClientDisconnect(s, cid))
  {
    var t := ClientDisconnect(s, cid);
    SameOwners(s, t);
    if cid in s.clients {
      forall c, x ensures Listed(t, c, x) <==> Holds(t, c, x) {
        assert Listed(s, c, x) <==> Holds(s, c, x);
        assert Listed(s, cid, x) <==> Holds(s, cid, x);
        if Listed(s, c, x) && c != cid {
          assert c in s.attachments[x] - {cid};
        }
      }
    }
  }

  lemma AttachKeeps(s: State, cid: Cid, dev: Dev, sid: Sid)
    requires Inv(s)
    ensures Inv(Attach(s, cid, dev, sid))
  {
    var t := Attach(s, cid, dev, sid);
    SameOwners(s, t);
    forall c, x ensures Listed(t, c, x) <==> Holds(t, c, x) {
      assert Listed(s, c, x) <==> Holds(s, c, x);
    }
    forall x | x in t.attachments ensures x in t.sidOwner && t.attachments[x] != map[] {
      if x == sid && t != s {
        assert cid in t.attachments[x] || t.attachments == s.attachments;
      }
    }
  }

  lemma DetachKeeps(s: State, cid: Cid, sid: Sid)
    requires Inv(s)
    ensures Inv(Detach(s, cid, sid))
  {
    var t := Detach(s, cid, sid);
    SameOwners(s, t);
    forall c, x ensures Listed(t, c, x) <==> Holds(t, c, x) {
      assert Listed(s, c, x) <==> Holds(s, c, x);
      if cid in s.clients && x == sid && c != cid && Listed(s, c, x) {
        assert c in s.attachments[sid] - {cid};
      }
    }
  }

  lemma RouteAgentKeeps(s: State, dev: Dev, f: Frame)
    requires Inv(s)
    ensures Inv(RouteAgent(s, dev, f))
  {
    var t := RouteAgent(s, dev, f);
    SameOwners(s, t);
    forall c, x ensures Listed(t, c, x) <==> Holds(t, c, x) {
      assert Listed(s, c, x) <==> Holds(s, c, x);
    }
    forall x | x in t.attachments ensures t.attachments[x] != map[] {
      var c :| c in s.attachments[x];
      assert c in t.attachments[x];
    }
  }

  lemma StepKeeps(s: State)
    requires Inv(s)
    ensures forall e :: Inv(Step(s, e))
  {
    forall e ensures Inv(Step(s, e)) {
      if Possible(s, e) {
        match e
        case EConnect(dev, conn) => ConnectKeeps(s, dev, conn);
        case EDisconnect(dev, conn) => DisconnectKeeps(s, dev, conn);
        case EHello(dev, conn, list) => HelloKeeps(s, dev, conn, list);
        case EUpsert(dev, sid, info) => UpsertKeeps(s, dev, sid, info);
        case EClose(dev, sid) => CloseKeeps(s, dev, sid);
        case ERevoke(dev) => RevokeKeeps(s, dev);
        case EClientConnect(cid) => ClientConnectKeeps(s, cid);
        case EClientDisconnect(cid) => ClientDisconnectKeeps(s, cid);
        case EAttach(cid, dev, sid) => AttachKeeps(s, cid, dev, sid);
        case EDetach(cid, sid) => DetachKeeps(s, cid, sid);
        case EAgentFrame(dev, f) => RouteAgentKeeps(s, dev, f);
      }
    }
  }

  lemma {:induction false} EveryRunKeeps(es: seq<Event>)
    ensures Inv(Run(es))
  {
    if es == [] {
      assert forall d, x :: Owns(EMPTY, d, x) <==> HasSession(EMPTY, d, x);
      assert forall c, x :: Listed(EMPTY, c, x) <==> Holds(EMPTY, c, x);
    } else {
      EveryRunKeeps(es[..|es| - 1]);
      StepKeeps(Run(es[..|es| - 1]));
    }
  }

  // ---- isolation --------------------------------------------------------------------

  /**
   In every reachable state: a session id is owned if and only if a device has
   it, namely its owner and no other; whatever is attached is owned, by
   somebody who has it; and no attachment map is empty.
   */
  lemma OneOwner(es: seq<Event>, sid: Sid, d1: Dev, d2: Dev, cid: Cid)
    ensures var s := Run(es);
      && (sid in s.sidOwner <==> exists d :: HasSession(s, d, sid))
      && (sid in s.sidOwner && s.sidOwner[sid] == d1 <==> HasSession(s, d1, sid))
      && (HasSession(s, d1, sid) && HasSession(s, d2, sid) ==> d1 == d2)
      && (Holds(s, cid, sid) <==> Listed(s, cid, sid))
      && (sid in s.attachments ==> s.attachments[sid] != map[] && exists d :: HasSession(s, d, sid))
  {
    EveryRunKeeps(es);
    var s := Run(es);
    assert Owns(s, d1, sid) <==> HasSession(s, d1, sid);
    assert Owns(s, d2, sid) <==> HasSession(s, d2, sid);
    assert Listed(s, cid, sid) <==> Holds(s, cid, sid);
    if sid in s.sidOwner {
      assert Owns(s, s.sidOwner[sid], sid) <==> HasSession(s, s.sidOwner[sid], sid);
    }
    if d :| HasSession(s, d, sid) {
      assert Owns(s, d, sid) <==> HasSession(s, d, sid);
    }
  }

  /**
   Which connection a control message goes to: the current one of the named
   device or, if none is named, of the device that has the session.
   */
  lemma MessagesReachTheOwner(es: seq<Event>, dev: Dev, sid: Sid, conn: Conn)
    ensures var s := Run(es);
      AgentFor(s, dev, sid).0 == Some(conn) <==>
        exists d :: d in s.devices && s.devices[d].conn == Some(conn) && s.devices[d].online &&
          (if dev == "" then sid != 0 && HasSession(s, d, sid) else d == dev)
  {
    EveryRunKeeps(es);
    var s := Run(es);
    var o := AgentFor(s, dev, sid).1;
    assert Owns(s, o, sid) <==> HasSession(s, o, sid);
    if d :| d in s.devices && s.devices[d].conn == Some(conn) && s.devices[d].online &&
            (if dev == "" then sid != 0 && HasSession(s, d, sid) else d == dev) {
      assert Owns(s, d, sid) <==> HasSession(s, d, sid);
    }
    if AgentFor(s, dev, sid).0 == Some(conn) {
      assert o in s.devices && s.devices[o].conn == Some(conn) && s.devices[o].online;
    }
  }

  /**
   An attach is forwarded to the connection looked up before the lock was
   taken again. Whatever happened in between, if it is accepted then the
   device of that connection has the session; and it is still the device's
   current connection unless that connection ended.
   */
  lemma AttachReachesTheOwner(es: seq<Event>, later: seq<Event>, cid: Cid, dev: Dev, sid: Sid, conn: Conn, d: Dev)
    requires AgentFor(Run(es), dev, sid) == (Some(conn), d)
    ensures var t := Run(es + later);
      (Owner(t, sid) == d && d != "" && cid in t.clients ==>
        && HasSession(t, d, sid)
        && Listed(Attach(t, cid, d, sid), cid, sid) && Attach(t, cid, d, sid).attachments[sid][cid]
        && ((forall e :: e in later ==> !Ends(e, d, conn)) ==> t.devices[d].conn == Some(conn) && t.devices[d].online))
  {
    EveryRunKeeps(es);
    EveryRunKeeps(es + later);
    var t := Run(es + later);
    assert Owns(t, d, sid) <==> HasSession(t, d, sid);
    if forall e :: e in later ==> !Ends(e, d, conn) {
      StaysCurrent(es, d, conn, later);
    }
  }

  lemma {:induction false} StaysCurrent(es: seq<Event>, dev: Dev, conn: Conn, later: seq<Event>)
    requires dev in Run(es).devices && Run(es).devices[dev].online && Run(es).devices[dev].conn == Some(conn)
    requires forall e :: e in later ==> !Ends(e, dev, conn)
    ensures var s := Run(es + later); dev in s.devices && s.devices[dev].online && s.devices[dev].conn == Some(conn)
    decreases |later|
  {
    if later == [] {
      assert es + later == es;
    } else {
      var less := later[..|later| - 1];
      var all := es + later;
      assert all[..|all| - 1] == es + less;
      StaysCurrent(es, dev, conn, less);
      assert later[|later| - 1] in later;
      OthersLeaveConn(Run(es + less), later[|later| - 1], dev, conn);
    }
  }

  /**
   In every reachable state a device's frame goes exactly to the live clients
   attached to that session of that device, Output never to a pending one and
   Snapshot only to pending ones.
   */
  lemma AgentFramesIsolated(es: seq<Event>, dev: Dev, f: Frame, cid: Cid)
    ensures var s := Run(es);
      cid in Targets(s, dev, f) <==>
        && HasSession(s, dev, f.sid) && Holds(s, cid, f.sid)
        && f.sid in s.attachments && cid in s.attachments[f.sid]
        && (f.typ == SNAPSHOT ==> s.attachments[f.sid][cid])
        && (f.typ == OUTPUT ==> !s.attachments[f.sid][cid])
  {
    EveryRunKeeps(es);
    var s := Run(es);
    assert Owns(s, dev, f.sid) <==> HasSession(s, dev, f.sid);
    assert Listed(s, cid, f.sid) <==> Holds(s, cid, f.sid);
  }

  /**
   A client's frame goes exactly to the current connection of the device that
   has the session, and only if the client is attached to it.
   */
  lemma ClientFramesIsolated(es: seq<Event>, cid: Cid, f: Frame, conn: Conn)
    ensures var s := Run(es);
      RouteClient(s, cid, f) == Some(conn) <==>
        && f.typ in {INPUT, RESIZE, ACK} && Holds(s, cid, f.sid)
        && exists dev :: HasSession(s, dev, f.sid) && s.devices[dev].conn == Some(conn)
  {
    EveryRunKeeps(es);
    var s := Run(es);
    assert Listed(s, cid, f.sid) <==> Holds(s, cid, f.sid);
    var o := Owner(s, f.sid);
    if Holds(s, cid, f.sid) {
      assert Owns(s, o, f.sid) <==> HasSession(s, o, f.sid);
      forall dev | HasSession(s, dev, f.sid) ensures dev == o {
        assert Owns(s, dev, f.sid) <==> HasSession(s, dev, f.sid);
      }
    }
  }

  /** Nothing but a newer connection, its own end or a revocation ends a connection. */
  predicate Ends(e: Event, dev: Dev, conn: Conn) {
    match e
    case EConnect(d, _) => d == dev
    case EDisconnect(d, c) => d == dev && c == conn
    case ERevoke(d) => d == dev
    case _ => false
  }

  /** In particular a replaced connection that unregisters late takes nothing offline. */
  lemma StaysOnline(es: seq<Event>, dev: Dev, conn: Conn, later: seq<Event>)
    requires dev != "" && forall e :: e in later ==> !Ends(e, dev, conn)
    ensures var s := Run(es + [EConnect(dev, conn)] + later);
      dev in s.devices && s.devices[dev].online && s.devices[dev].conn == Some(conn)
  {
    var all := es + [EConnect(dev, conn)];
    assert all[..|all| - 1] == es;
    StaysCurrent(all, dev, conn, later);
  }

  lemma OthersLeaveConn(s: State, e: Event, dev: Dev, conn: Conn)
    requires dev in s.devices && s.devices[dev].online && s.devices[dev].conn == Some(conn)
    requires !Ends(e, dev, conn)
    ensures var t := Step(s, e);
      dev in t.devices && t.devices[dev].online && t.devices[dev].conn == Some(conn)
  {
  }

  // ---- a whole snapshot ----------------------------------------------------------------

  function RouteAll(s: State, dev: Dev, fs: seq<Frame>): State {
    if fs == [] then s else RouteAgent(RouteAll(s, dev, fs[..|fs| - 1]), dev, fs[|fs| - 1])
  }

  lemma {:induction false} MoreChangesNothing(s: State, dev: Dev, fs: seq<Frame>)
    requires forall f :: f in fs ==> f.typ == SNAPSHOT && f.More()
    ensures RouteAll(s, dev, fs) == s
  {
    if fs != [] {
      MoreChangesNothing(s, dev, fs[..|fs| - 1]);
      assert fs[|fs| - 1] in fs;
    }
  }

  /**
   A pending client gets every chunk of a replay of any length and is complete
   after the last one and not before.
   */
  lemma SnapshotCompletes(es: seq<Event>, dev: Dev, cid: Cid, sid: Sid, endSeq: nat, data: seq<Byte>, flags: Byte, i: nat)
    requires var s := Run(es);
      HasSession(s, dev, sid) && Listed(s, cid, sid) && s.attachments[sid][cid]
    requires !Bit0(flags) && i < |Chunks(SNAPSHOT, sid, endSeq, data, flags)|
    ensures var fs := Chunks(SNAPSHOT, sid, endSeq, data, flags);
      var before, after := RouteAll(Run(es), dev, fs[..i]), RouteAll(Run(es), dev, fs[..i + 1]);
      && cid in Targets(before, dev, fs[i])
      && Listed(after, cid, sid)
      && (after.attachments[sid][cid] <==> i + 1 < |fs|)
  {
    EveryRunKeeps(es);
    ChunksMarkTheEnd(SNAPSHOT, sid, endSeq, data, flags);
    ChunksCarryPayload(SNAPSHOT, sid, endSeq, data, flags);
    ChunksArrive(Run(es), dev, cid, sid, Chunks(SNAPSHOT, sid, endSeq, data, flags), i);
  }

  lemma ChunksArrive(s: State, dev: Dev, cid: Cid, sid: Sid, fs: seq<Frame>, i: nat)
    requires Inv(s) && HasSession(s, dev, sid) && Listed(s, cid, sid) && s.attachments[sid][cid] && i < |fs|
    requires forall j :: 0 <= j < |fs| ==> fs[j].typ == SNAPSHOT && fs[j].sid == sid
    requires forall j :: 0 <= j < |fs| ==> (fs[j].More() <==> j + 1 < |fs|)
    ensures cid in Targets(RouteAll(s, dev, fs[..i]), dev, fs[i])
    ensures var after := RouteAll(s, dev, fs[..i + 1]);
      Listed(after, cid, sid) && (after.attachments[sid][cid] <==> i + 1 < |fs|)
  {
    forall f | f in fs[..i] ensures f.typ == SNAPSHOT && f.More() {
    }
    MoreChangesNothing(s, dev, fs[..i]);
    assert fs[..i + 1][..i] == fs[..i];
    ChunkArrives(s, dev, cid, sid, fs[i]);
  }

  /** One chunk reaches the pending client, which is complete after it if and only if it is the last. */
  lemma ChunkArrives(s: State, dev: Dev, cid: Cid, sid: Sid, f: Frame)
    requires Inv(s) && HasSession(s, dev, sid) && Listed(s, cid, sid) && s.attachments[sid][cid]
    requires f.typ == SNAPSHOT && f.sid == sid
    ensures cid in Targets(s, dev, f)
    ensures var t := RouteAgent(s, dev, f); Listed(t, cid, sid) && (t.attachments[sid][cid] <==> f.More())
  {
    assert Owns(s, dev, sid) <==> HasSession(s, dev, sid);
    assert Listed(s, cid, sid) <==> Holds(s, cid, sid);
  }
}
