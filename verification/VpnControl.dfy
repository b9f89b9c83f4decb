/** VPN connection control.  Informer callbacks on the traffic manager's config maps update the
    wanted connection and queue closures; one consumer runs the closures in order against the sudo
    daemon, which holds at most one connection.

    A closure refers to its handler and reads the handler's uid when it runs, not when it is
    queued.  Commands to the sudo daemon are assumed to be delivered. */
module VpnControl {
  import opened Common

  /** Where a config map lives. */
  datatype Place = Place(kubeconfig: string, namespace: string)

  /** The uid of the config map at each place, as the cluster reports it. */
  type Uids = Place -> string

  datatype Conn = Conn(uid: string, place: Place)
  datatype ConnectInfo = ConnectInfo(uid: string, place: Place)
  datatype Handler = Handler(uid: string, place: Place)

  datatype Closure =
    | ConnectTo(backup: ConnectInfo, h: nat)
    | DisconnectFrom(h: nat)

  const NO_INFO := ConnectInfo("", Place("", ""))

  // ---------------------------------------------------------------- the sudo daemon

  function UidOf(d: Option<Conn>): string {
    if d.Some? then d.value.uid else ""
  }

  /** A connect is refused, or already satisfied, while a connection is open. */
  function Connect(d: Option<Conn>, p: Place, uids: Uids): Option<Conn> {
    if UidOf(d) != "" then d else Some(Conn(uids(p), p))
  }

  predicate DisConnectOk(d: Option<Conn>, p: Place, uids: Uids) {
    d.None? || d.value.uid == uids(p)
  }

  function DisConnect(d: Option<Conn>, p: Place, uids: Uids): Option<Conn> {
    if DisConnectOk(d, p, uids) then None else d
  }

  // ---------------------------------------------------------------- closures: the states they visit

  function NotifyConnect(d: Option<Conn>, uid: string, p: Place, uids: Uids): seq<Option<Conn>> {
    if UidOf(d) == "" then [Connect(d, p, uids)]
    else if UidOf(d) == uid then []
    else
      var d1 := DisConnect(d, d.value.place, uids);
      if DisConnectOk(d, d.value.place, uids) then [d1, Connect(d1, p, uids)] else [d1]
  }

  function NotifyDisConnect(d: Option<Conn>, uid: string, p: Place, uids: Uids): seq<Option<Conn>> {
    if UidOf(d) == "" || UidOf(d) != uid then [] else [DisConnect(d, p, uids)]
  }

  function Last(d: Option<Conn>, trace: seq<Option<Conn>>): Option<Conn> {
    if trace == [] then d else trace[|trace| - 1]
  }

  /** The daemon states after each command that a closure sends. */
  function Trace(f: Closure, hs: map<nat, Handler>, d: Option<Conn>, uids: Uids): seq<Option<Conn>>
    requires f.h in hs
  {
    var h := hs[f.h];
    match f
    case ConnectTo(backup, _) =>
      var released := if backup.uid != "" && backup.uid != h.uid
                      then [DisConnect(d, backup.place, uids)] else [];
      released + NotifyConnect(Last(d, released), h.uid, h.place, uids)
    case DisconnectFrom(_) =>
      NotifyDisConnect(d, h.uid, h.place, uids)
  }

  function After(f: Closure, hs: map<nat, Handler>, d: Option<Conn>, uids: Uids): Option<Conn>
    requires f.h in hs
  {
    Last(d, Trace(f, hs, d, uids))
  }

  ghost predicate Known(q: seq<Closure>, hs: map<nat, Handler>) {
    forall i :: 0 <= i < |q| ==> q[i].h in hs
  }

  /** Run a whole queue in order. */
  ghost function Drain(d: Option<Conn>, q: seq<Closure>, hs: map<nat, Handler>, uids: Uids): Option<Conn>
    requires Known(q, hs)
  {
    if q == [] then d else After(q[|q| - 1], hs, Drain(d, q[..|q| - 1], hs, uids), uids)
  }

  // ---------------------------------------------------------------- informer events

  datatype World = World(handlers: map<nat, Handler>, info: ConnectInfo,
                         queue: seq<Closure>, connected: Option<Conn>)

  /** Config map events carry whether this machine is in the connect list (before and) after. */
  datatype Event =
    | Added(h: nat, uid: string, on: bool)
    | Updated(h: nat, was: bool, on: bool)
    | Deleted(h: nat, was: bool)
    | RunOne

  function WantConnection(w: World, h: nat): World
    requires h in w.handlers
  {
    w.(info := ConnectInfo(w.handlers[h].uid, w.handlers[h].place),
       queue := w.queue + [ConnectTo(w.info, h)])
  }

  function DropConnection(w: World, h: nat): World {
    w.(info := NO_INFO, queue := w.queue + [DisconnectFrom(h)])
  }

  predicate Enabled(w: World, e: Event) {
    if e.RunOne? then w.queue != [] && w.queue[0].h in w.handlers else e.h in w.handlers
  }

  function Handle(w: World, e: Event, uids: Uids): World
    requires Enabled(w, e)
  {
    match e
    case Added(h, uid, on) =>
      var w1 := w.(handlers := w.handlers[h := w.handlers[h].(uid := uid)]);
      if on then WantConnection(w1, h) else w1
    case Updated(h, was, on) =>
      if on then WantConnection(w, h)
      else if was && w.info.uid == w.handlers[h].uid then DropConnection(w, h)
      else w
    case Deleted(h, was) =>
      if was && w.info.uid == w.handlers[h].uid then DropConnection(w, h) else w
    case RunOne =>
      w.(queue := w.queue[1..], connected := After(w.queue[0], w.handlers, w.connected, uids))
  }

  /** The daemon process and the controller process, as they run. */
  class VpnController {
    var handlers: map<nat, Handler>
    var connectInfo: ConnectInfo
    var funcChan: seq<Closure>
    var connected: Option<Conn>

    constructor (handlers: map<nat, Handler>)
      ensures State() == World(handlers, NO_INFO, [], None)
    {
      this.handlers, connectInfo, funcChan, connected := handlers, NO_INFO, [], None;
    }

    function State(): World reads this {
      World(handlers, connectInfo, funcChan, connected)
    }

    method KeepConnected(h: nat)
      requires h in handlers
      modifies this
      ensures State() == WantConnection(old(State()), h)
    {
      var backup := connectInfo;
      connectInfo := ConnectInfo(handlers[h].uid, handlers[h].place);
      funcChan := funcChan + [ConnectTo(backup, h)];
    }

    method OnAdd(h: nat, uid: string, on: bool, ghost uids: Uids)
      requires h in handlers
      modifies this
      ensures State() == Handle(old(State()), Added(h, uid, on), uids)
    {
      handlers := handlers[h := handlers[h].(uid := uid)];
      if on {
        KeepConnected(h);
      }
    }

    method OnUpdate(h: nat, was: bool, on: bool, ghost uids: Uids)
      requires h in handlers
      modifies this
      ensures State() == Handle(old(State()), Updated(h, was, on), uids)
    {
      if on {
        KeepConnected(h);
      } else if was {
        if connectInfo.uid == handlers[h].uid {
          connectInfo := NO_INFO;
          funcChan := funcChan + [DisconnectFrom(h)];
        }
      }
    }

    method OnDelete(h: nat, was: bool, ghost uids: Uids)
      requires h in handlers
      modifies this
      ensures State() == Handle(old(State()), Deleted(h, was), uids)
    {
      if was && connectInfo.uid == handlers[h].uid {
        connectInfo := NO_INFO;
        funcChan := funcChan + [DisconnectFrom(h)];
      }
    }

    method SendConnect(p: Place, uids: Uids)
      modifies this`connected
      ensures connected == Connect(old(connected), p, uids)
    {
      if connected.None? || connected.value.uid == "" {
        connected := Some(Conn(uids(p), p));
      }
    }

    method SendDisConnect(p: Place, uids: Uids) returns (ok: bool)
      modifies this`connected
      ensures connected == DisConnect(old(connected), p, uids)
      ensures ok == DisConnectOk(old(connected), p, uids)
    {
      if connected.None? {
        return true;
      }
      if connected.value.uid != uids(p) {
        return false;
      }
      connected := None;
      return true;
    }

    method NotifySudoDaemonToConnect(uid: string, p: Place, uids: Uids)
      modifies this`connected
      ensures connected == Last(old(connected), NotifyConnect(old(connected), uid, p, uids))
    {
      if connected.Some? && connected.value.uid != "" {
        if connected.value.uid == uid {
          return;
        }
        var ok := SendDisConnect(connected.value.place, uids);
        if !ok {
          return;
        }
      }
      SendConnect(p, uids);
    }

    method NotifySudoDaemonToDisConnect(uid: string, p: Place, uids: Uids)
      modifies this`connected
      ensures connected == Last(old(connected), NotifyDisConnect(old(connected), uid, p, uids))
    {
      if connected.None? || connected.value.uid == "" || connected.value.uid != uid {
        return;
      }
      var _ := SendDisConnect(p, uids);
    }

    /** One turn of the consumer. */
    method RunNext(uids: Uids)
      requires funcChan != [] && funcChan[0].h in handlers
      modifies this
      ensures State() == Handle(old(State()), RunOne, uids)
    {
      var f := funcChan[0];
      funcChan := funcChan[1..];
      var h := handlers[f.h];
      match f
      case ConnectTo(backup, _) =>
        if backup.uid != "" && backup.uid != h.uid {
          var _ := SendDisConnect(backup.place, uids);
        }
        NotifySudoDaemonToConnect(h.uid, h.place, uids);
      case DisconnectFrom(_) =>
        NotifySudoDaemonToDisConnect(h.uid, h.place, uids);
    }
  }

  // ---------------------------------------------------------------- one closure, any uids

  /** The connection when a connect closure turns to its own cluster: the one wanted before has been
      released, if the daemon agreed. */
  function Released(d: Option<Conn>, backup: ConnectInfo, uid: string, uids: Uids): Option<Conn> {
    if backup.uid != "" && backup.uid != uid then DisConnect(d, backup.place, uids) else d
  }

  /** A connect closure reaches its handler's cluster if and only if the daemon is there already, or the
      handler's uid is current and so is the connection in its way, if there is one. */
  lemma ConnectExactly(backup: ConnectInfo, h: nat, hs: map<nat, Handler>, d: Option<Conn>, uids: Uids)
    requires h in hs && hs[h].uid != ""
    ensures var held := Released(d, backup, hs[h].uid, uids);
            UidOf(After(ConnectTo(backup, h), hs, d, uids)) == hs[h].uid <==>
            || UidOf(held) == hs[h].uid
            || (hs[h].uid == uids(hs[h].place) && (UidOf(held) == "" || held.value.uid == uids(held.value.place)))
  {
  }

  /** A connection that is there already is kept as it is, without any command. */
  lemma HeldIsKept(backup: ConnectInfo, h: nat, hs: map<nat, Handler>, d: Option<Conn>, uids: Uids)
    requires h in hs && hs[h].uid != "" && UidOf(d) == hs[h].uid && (backup.uid == "" || backup.uid == hs[h].uid)
    ensures Trace(ConnectTo(backup, h), hs, d, uids) == []
  {
  }

  /** A disconnect closure ends the connection if and only if it is its handler's and that is current;
      otherwise it leaves it alone. */
  lemma DisconnectExactly(h: nat, hs: map<nat, Handler>, d: Option<Conn>, uids: Uids)
    requires h in hs
    ensures After(DisconnectFrom(h), hs, d, uids) ==
            if d.Some? && d.value.uid != "" && d.value.uid == hs[h].uid && d.value.uid == uids(hs[h].place) then None
            else d
  {
  }

  /** Hence, in any state and with any uids, a connection asked for is reached when the queue has run out
      if and only if, with `held` the connection then in its way, it is held already, or both its own uid
      and that of the one in its way are current. */
  lemma AskedIsReachedExactly(w: World, h: nat, uids: Uids)
    requires Known(w.queue, w.handlers) && h in w.handlers && w.handlers[h].uid != ""
    ensures var w', me := WantConnection(w, h), w.handlers[h];
            var held := Released(Outcome(w, uids), w.info, me.uid, uids);
            Known(w'.queue, w'.handlers) &&
            (UidOf(Outcome(w', uids)) == w'.info.uid <==>
             || UidOf(held) == me.uid
             || (me.uid == uids(me.place) && (UidOf(held) == "" || held.value.uid == uids(held.value.place))))
  {
    var f := ConnectTo(w.info, h);
    assert Known(w.queue + [f], w.handlers);
    DrainPush(w.connected, w.queue, f, w.handlers, uids);
    ConnectExactly(w.info, h, w.handlers, Outcome(w, uids), uids);
  }

  /** A connection to a config map that no longer exists anywhere. */
  ghost predicate Stuck(d: Option<Conn>, uids: Uids) {
    d.Some? && d.value.uid != "" && forall p :: uids(p) != d.value.uid
  }

  /** No closure moves it: the daemon refuses every disconnect and every connect. */
  lemma AfterStuck(f: Closure, hs: map<nat, Handler>, d: Option<Conn>, uids: Uids)
    requires f.h in hs && Stuck(d, uids)
    ensures After(f, hs, d, uids) == d
  {
  }

  lemma {:induction false} DrainStuck(d: Option<Conn>, q: seq<Closure>, hs: map<nat, Handler>, uids: Uids)
    requires Known(q, hs) && Stuck(d, uids)
    ensures Drain(d, q, hs, uids) == d
  {
    if q != [] {
      DrainStuck(d, q[..|q| - 1], hs, uids);
      AfterStuck(q[|q| - 1], hs, d, uids);
    }
  }

  /** Runs in which the cluster's uids may change from event to event. */
  ghost predicate IsChangingRun(ws: seq<World>, es: seq<Event>, us: seq<Uids>) {
    && |ws| == |es| + 1 && |us| == |es|
    && forall i :: 0 <= i < |es| ==> Enabled(ws[i], es[i]) && ws[i + 1] == Handle(ws[i], es[i], us[i])
  }

  /** Whatever happens, and whatever is asked for, the daemon stays connected to a config map that is gone,
      unless its uid comes back. */
  lemma {:induction false} StuckForever(ws: seq<World>, es: seq<Event>, us: seq<Uids>, i: nat)
    requires IsChangingRun(ws, es, us) && i <= |es|
    requires forall j :: 0 <= j < |es| ==> Stuck(ws[0].connected, us[j])
    ensures ws[i].connected == ws[0].connected
  {
    if i > 0 {
      StuckForever(ws, es, us, i - 1);
      if es[i - 1].RunOne? {
        AfterStuck(ws[i - 1].queue[0], ws[i - 1].handlers, ws[i - 1].connected, us[i - 1]);
      }
    }
  }

  /** So it never reaches a connection that is asked for after the change. */
  lemma StuckNeverConverges(ws: seq<World>, es: seq<Event>, us: seq<Uids>, uids: Uids)
    requires IsChangingRun(ws, es, us) && (forall j :: 0 <= j < |es| ==> Stuck(ws[0].connected, us[j]))
    requires Stuck(ws[0].connected, uids) && Known(ws[|es|].queue, ws[|es|].handlers)
    ensures UidOf(Outcome(ws[|es|], uids)) == ws[|es|].info.uid <==> ws[|es|].info.uid == UidOf(ws[0].connected)
    ensures (exists p :: ws[|es|].info.uid == uids(p)) ==> UidOf(Outcome(ws[|es|], uids)) != ws[|es|].info.uid
  {
    StuckForever(ws, es, us, |es|);
    DrainStuck(ws[|es|].connected, ws[|es|].queue, ws[|es|].handlers, uids);
  }

  // ---------------------------------------------------------------- fixed uids

  /** The cluster's uids do not change and are never empty: a handler has the uid of its place once
      it has seen an addition. */
  ghost predicate Faithful(w: World, uids: Uids) {
    && (forall p :: uids(p) != "")
    && (forall h :: h in w.handlers ==> w.handlers[h].uid in {"", uids(w.handlers[h].place)})
    && (forall i :: 0 <= i < |w.queue| ==> w.queue[i].h in w.handlers && w.handlers[w.queue[i].h].uid != "")
  }

  /** An open connection has the uid of its place. */
  ghost predicate GoodConn(d: Option<Conn>, uids: Uids) {
    d.Some? ==> d.value.uid == uids(d.value.place)
  }

  /** An addition reports the uid of the handler's place; an informer reports updates and deletions
      only of what it has added. */
  ghost predicate EventOk(w: World, e: Event, uids: Uids) {
    && Enabled(w, e)
    && (e.Added? ==> e.uid == uids(w.handlers[e.h].place))
    && (e.Updated? || e.Deleted? ==> w.handlers[e.h].uid != "")
  }

  ghost predicate Asks(e: Event) {
    (e.Added? || e.Updated?) && e.on
  }

  lemma AfterConnect(f: Closure, hs: map<nat, Handler>, d: Option<Conn>, uids: Uids)
    requires f.h in hs && hs[f.h].uid == uids(hs[f.h].place) && GoodConn(d, uids)
    requires forall p :: uids(p) != ""
    ensures GoodConn(After(f, hs, d, uids), uids)
    ensures f.ConnectTo? ==> UidOf(After(f, hs, d, uids)) == hs[f.h].uid
    ensures f.DisconnectFrom? ==>
              UidOf(After(f, hs, d, uids)) == if UidOf(d) == hs[f.h].uid then "" else UidOf(d)
  {
  }

  lemma {:induction false} DrainGood(d: Option<Conn>, q: seq<Closure>, w: World, uids: Uids)
    requires Faithful(w.(queue := q), uids) && GoodConn(d, uids)
    ensures GoodConn(Drain(d, q, w.handlers, uids), uids)
  {
    if q != [] {
      DrainGood(d, q[..|q| - 1], w, uids);
      var f := q[|q| - 1];
      assert w.handlers[f.h].uid in {"", uids(w.handlers[f.h].place)};
      AfterConnect(f, w.handlers, Drain(d, q[..|q| - 1], w.handlers, uids), uids);
    }
  }

  /** What the daemon will be connected to when every queued closure has run. */
  ghost function Outcome(w: World, uids: Uids): Option<Conn>
    requires Known(w.queue, w.handlers)
  {
    Drain(w.connected, w.queue, w.handlers, uids)
  }

  lemma DrainPush(d: Option<Conn>, q: seq<Closure>, f: Closure, hs: map<nat, Handler>, uids: Uids)
    requires Known(q + [f], hs)
    ensures Known(q, hs) && f.h in hs
    ensures Drain(d, q + [f], hs, uids) == After(f, hs, Drain(d, q, hs, uids), uids)
  {
    assert (q + [f])[|q|] == f && (q + [f])[..|q|] == q;
    forall i | 0 <= i < |q| ensures q[i].h in hs {
      assert (q + [f])[i] == q[i];
    }
  }

  lemma {:induction false} DrainFirst(d: Option<Conn>, q: seq<Closure>, hs: map<nat, Handler>, uids: Uids)
    requires q != [] && Known(q, hs)
    ensures Drain(d, q, hs, uids) == Drain(After(q[0], hs, d, uids), q[1..], hs, uids)
    decreases |q|
  {
    if |q| > 1 {
      DrainFirst(d, q[..|q| - 1], hs, uids);
      assert q[..|q| - 1][1..] == q[1..][..|q[1..]| - 1];
    } else {
      assert q[..0] == [];
    }
  }

  /** Handlers whose uid was already known to the queue do not change under a repeated addition. */
  lemma {:induction false} DrainSameHandlers(d: Option<Conn>, q: seq<Closure>, hs: map<nat, Handler>,
                                             hs': map<nat, Handler>, uids: Uids)
    requires Known(q, hs) && Known(q, hs')
    requires forall i :: 0 <= i < |q| ==> hs[q[i].h] == hs'[q[i].h]
    ensures Drain(d, q, hs, uids) == Drain(d, q, hs', uids)
  {
    if q != [] {
      DrainSameHandlers(d, q[..|q| - 1], hs, hs', uids);
    }
  }

  // ---------------------------------------------------------------- one event

  lemma WantStep(w: World, h: nat, uids: Uids)
    requires Faithful(w, uids) && GoodConn(w.connected, uids) && h in w.handlers && w.handlers[h].uid != ""
    ensures var w' := WantConnection(w, h);
            Faithful(w', uids) && UidOf(Outcome(w', uids)) == w'.info.uid
  {
    var f := ConnectTo(w.info, h);
    var w' := WantConnection(w, h);
    assert w'.handlers[h].uid in {"", uids(w'.handlers[h].place)};
    DrainPush(w.connected, w.queue, f, w.handlers, uids);
    DrainGood(w.connected, w.queue, w, uids);
    AfterConnect(f, w.handlers, Outcome(w, uids), uids);
  }

  lemma DropStep(w: World, h: nat, uids: Uids)
    requires Faithful(w, uids) && GoodConn(w.connected, uids) && h in w.handlers && w.handlers[h].uid != ""
    ensures var w' := DropConnection(w, h);
            Faithful(w', uids) &&
            UidOf(Outcome(w', uids)) ==
            if UidOf(Outcome(w, uids)) == w.handlers[h].uid then "" else UidOf(Outcome(w, uids))
  {
    var f := DisconnectFrom(h);
    assert w.handlers[h].uid in {"", uids(w.handlers[h].place)};
    DrainPush(w.connected, w.queue, f, w.handlers, uids);
    DrainGood(w.connected, w.queue, w, uids);
    AfterConnect(f, w.handlers, Outcome(w, uids), uids);
  }

  lemma FaithfulTail(w: World, d: Option<Conn>, uids: Uids)
    requires Faithful(w, uids) && w.queue != []
    ensures Faithful(w.(queue := w.queue[1..], connected := d), uids)
  {
  }

  lemma AfterGood(f: Closure, w: World, uids: Uids)
    requires Faithful(w, uids) && GoodConn(w.connected, uids) && f in w.queue
    ensures f.h in w.handlers && GoodConn(After(f, w.handlers, w.connected, uids), uids)
  {
    var i :| 0 <= i < |w.queue| && w.queue[i] == f;
    assert w.handlers[f.h].uid in {"", uids(w.handlers[f.h].place)};
    AfterConnect(f, w.handlers, w.connected, uids);
  }

  lemma RunStep(w: World, uids: Uids)
    requires Faithful(w, uids) && GoodConn(w.connected, uids) && w.queue != []
    ensures var w' := Handle(w, RunOne, uids);
            Faithful(w', uids) && GoodConn(w'.connected, uids) && Outcome(w', uids) == Outcome(w, uids)
  {
    AfterGood(w.queue[0], w, uids);
    FaithfulTail(w, After(w.queue[0], w.handlers, w.connected, uids), uids);
    DrainFirst(w.connected, w.queue, w.handlers, uids);
  }

  /** The event drops the wanted connection. */
  ghost predicate Drops(w: World, e: Event) {
    && ((e.Updated? && !e.on) || e.Deleted?) && e.was
    && e.h in w.handlers && w.info.uid == w.handlers[e.h].uid
  }

  /** `asked` and `dropped` say whether a connection has been asked for, and the wanted one dropped, since
      the daemon was bound for `d0` and the wanted connection had uid `u0`. */
  ghost predicate Account(w: World, uids: Uids, d0: string, u0: string, asked: bool, dropped: bool) {
    && Faithful(w, uids) && GoodConn(w.connected, uids)
    && var out := UidOf(Outcome(w, uids));
       && (asked ==> out == w.info.uid)
       && (!asked && !dropped ==> w.info.uid == u0 && out == d0)
       && (!asked && dropped ==> w.info.uid == "" && u0 != "" && out == if d0 == u0 then "" else d0)
  }

  lemma WantAccount(w: World, h: nat, uids: Uids, d0: string, u0: string, dropped: bool)
    requires Faithful(w, uids) && GoodConn(w.connected, uids) && h in w.handlers && w.handlers[h].uid != ""
    ensures Account(WantConnection(w, h), uids, d0, u0, true, dropped)
  {
    WantStep(w, h, uids);
  }

  lemma DropAccount(w: World, h: nat, uids: Uids, d0: string, u0: string, asked: bool, dropped: bool)
    requires Account(w, uids, d0, u0, asked, dropped) && h in w.handlers && w.handlers[h].uid != ""
    requires w.info.uid == w.handlers[h].uid
    ensures Account(DropConnection(w, h), uids, d0, u0, asked, true)
  {
    DropStep(w, h, uids);
  }

  lemma LearnAccount(w: World, h: nat, uids: Uids, d0: string, u0: string, asked: bool, dropped: bool)
    requires Account(w, uids, d0, u0, asked, dropped) && h in w.handlers
    ensures var learned := w.handlers[h].(uid := uids(w.handlers[h].place));
            Account(w.(handlers := w.handlers[h := learned]), uids, d0, u0, asked, dropped)
  {
    var hs := w.handlers[h := w.handlers[h].(uid := uids(w.handlers[h].place))];
    forall i | 0 <= i < |w.queue| ensures w.queue[i].h in w.handlers && hs[w.queue[i].h] == w.handlers[w.queue[i].h] {
      assert w.handlers[w.queue[i].h].uid in {"", uids(w.handlers[w.queue[i].h].place)};
    }
    DrainSameHandlers(w.connected, w.queue, w.handlers, hs, uids);
  }

  lemma HandleAccount(w: World, e: Event, uids: Uids, d0: string, u0: string, asked: bool, dropped: bool)
    requires Account(w, uids, d0, u0, asked, dropped) && EventOk(w, e, uids)
    ensures Account(Handle(w, e, uids), uids, d0, u0, asked || Asks(e), dropped || Drops(w, e))
  {
    match e
    case Added(h, uid, on) =>
      LearnAccount(w, h, uids, d0, u0, asked, dropped);
      if on {
        WantAccount(w.(handlers := w.handlers[h := w.handlers[h].(uid := uid)]), h, uids, d0, u0, dropped);
      }
    case Updated(h, was, on) =>
      if on {
        WantAccount(w, h, uids, d0, u0, dropped);
      } else if Drops(w, e) {
        DropAccount(w, h, uids, d0, u0, asked, dropped);
      }
    case Deleted(h, was) =>
      if Drops(w, e) {
        DropAccount(w, h, uids, d0, u0, asked, dropped);
      }
    case RunOne =>
      RunStep(w, uids);
  }

  // ---------------------------------------------------------------- whole runs

  ghost predicate IsRun(ws: seq<World>, es: seq<Event>, uids: Uids) {
    && |ws| == |es| + 1
    && forall i :: 0 <= i < |es| ==> EventOk(ws[i], es[i], uids) && ws[i + 1] == Handle(ws[i], es[i], uids)
  }

  ghost predicate Asked(es: seq<Event>) {
    exists i :: 0 <= i < |es| && Asks(es[i])
  }

  ghost predicate Dropped(ws: seq<World>, es: seq<Event>)
    requires |ws| == |es| + 1
  {
    exists i :: 0 <= i < |es| && Drops(ws[i], es[i])
  }

  lemma SplitLastEvent(ws: seq<World>, es: seq<Event>)
    requires |ws| == |es| + 1 && es != []
    ensures var n := |es| - 1;
            && (Asked(es) <==> Asked(es[..n]) || Asks(es[n]))
            && (Dropped(ws, es) <==> Dropped(ws[..n + 1], es[..n]) || Drops(ws[n], es[n]))
  {
    var n := |es| - 1;
    assert forall i :: 0 <= i < n ==> es[..n][i] == es[i] && ws[..n + 1][i] == ws[i];
    if i :| 0 <= i < |es| && Asks(es[i]) {
      assert i == n || Asks(es[..n][i]);
    }
    if i :| 0 <= i < |es| && Drops(ws[i], es[i]) {
      assert i == n || Drops(ws[..n + 1][i], es[..n][i]);
    }
  }

  lemma PrefixRun(ws: seq<World>, es: seq<Event>, uids: Uids)
    requires IsRun(ws, es, uids) && es != []
    ensures var n := |es| - 1;
            IsRun(ws[..n + 1], es[..n], uids) && EventOk(ws[n], es[n], uids) && ws[n + 1] == Handle(ws[n], es[n], uids)
  {
  }

  lemma {:induction false} RunAccount(ws: seq<World>, es: seq<Event>, uids: Uids)
    requires IsRun(ws, es, uids) && Faithful(ws[0], uids) && GoodConn(ws[0].connected, uids)
    ensures Account(ws[|es|], uids, UidOf(Outcome(ws[0], uids)), ws[0].info.uid, Asked(es), Dropped(ws, es))
  {
    if es != [] {
      var n, d0, u0 := |es| - 1, UidOf(Outcome(ws[0], uids)), ws[0].info.uid;
      PrefixRun(ws, es, uids);
      RunAccount(ws[..n + 1], es[..n], uids);
      HandleAccount(ws[n], es[n], uids, d0, u0, Asked(es[..n]), Dropped(ws[..n + 1], es[..n]));
      SplitLastEvent(ws, es);
    }
  }

  lemma StuckInfo(w: World, e: Event, uids: Uids, uid: string)
    requires Faithful(w, uids) && EventOk(w, e, uids) && uid != "" && forall p :: uids(p) != uid
    ensures Faithful(Handle(w, e, uids), uids)
    ensures Handle(w, e, uids).info.uid == uid <==> w.info.uid == uid && !Asks(e)
  {
    if !e.RunOne? {
      assert w.handlers[e.h].uid in {"", uids(w.handlers[e.h].place)};
    }
  }

  lemma {:induction false} StuckAccount(ws: seq<World>, es: seq<Event>, uids: Uids, uid: string)
    requires IsRun(ws, es, uids) && Faithful(ws[0], uids) && uid != "" && forall p :: uids(p) != uid
    ensures Faithful(ws[|es|], uids)
    ensures ws[|es|].info.uid == uid <==> ws[0].info.uid == uid && !Asked(es)
  {
    if es != [] {
      var n := |es| - 1;
      PrefixRun(ws, es, uids);
      StuckAccount(ws[..n + 1], es[..n], uids, uid);
      StuckInfo(ws[n], es[n], uids, uid);
      SplitLastEvent(ws, es);
    }
  }

  /** Exactly when running out the queue leaves the daemon connected to the wanted cluster, for every run
      of events from any state of controller and daemon, once handlers know the current uids.  From a
      connection that is current: the two agreed at the start, or a connection was asked for since, or
      nothing was connected and the wanted connection was dropped.  From one that is stuck: it was wanted
      at the start and nothing was asked for since. */
  lemma ConvergesExactly(ws: seq<World>, es: seq<Event>, uids: Uids)
    requires IsRun(ws, es, uids) && Faithful(ws[0], uids)
    requires GoodConn(ws[0].connected, uids) || Stuck(ws[0].connected, uids)
    ensures Known(ws[|es|].queue, ws[|es|].handlers)
    ensures UidOf(Outcome(ws[|es|], uids)) == ws[|es|].info.uid <==>
            if Stuck(ws[0].connected, uids) then UidOf(ws[0].connected) == ws[0].info.uid && !Asked(es)
            else
              || UidOf(Outcome(ws[0], uids)) == ws[0].info.uid
              || Asked(es)
              || (UidOf(Outcome(ws[0], uids)) == "" && Dropped(ws, es))
  {
    if Stuck(ws[0].connected, uids) {
      StuckAccount(ws, es, uids, UidOf(ws[0].connected));
      var us := seq(|es|, i requires 0 <= i < |es| => uids);
      assert IsChangingRun(ws, es, us);
      StuckNeverConverges(ws, es, us, uids);
    } else {
      RunAccount(ws, es, uids);
    }
  }

  /** A wish names the place whose uid it has. */
  ghost predicate WishOk(info: ConnectInfo, uids: Uids) {
    info.uid != "" ==> info.uid == uids(info.place)
  }

  ghost predicate WishesOk(w: World, uids: Uids) {
    && WishOk(w.info, uids)
    && forall i :: 0 <= i < |w.queue| && w.queue[i].ConnectTo? ==> WishOk(w.queue[i].backup, uids)
  }

  lemma WishesStep(w: World, e: Event, uids: Uids)
    requires WishesOk(w, uids) && Faithful(w, uids) && EventOk(w, e, uids)
    ensures WishesOk(Handle(w, e, uids), uids) && Faithful(Handle(w, e, uids), uids)
    ensures Asks(e) ==>
              Handle(w, e, uids).info == ConnectInfo(Handle(w, e, uids).handlers[e.h].uid, w.handlers[e.h].place)
    ensures Drops(w, e) ==> Handle(w, e, uids).info.uid == ""
    ensures !Asks(e) && !Drops(w, e) ==> Handle(w, e, uids).info == w.info
  {
    if !e.RunOne? {
      assert w.handlers[e.h].uid in {"", uids(w.handlers[e.h].place)};
    }
  }

  /** In every run, the wish and every wish kept in the queue, from which a later closure is to release the
      daemon, name the place whose uid they have. */
  lemma {:induction false} WishesNamePlaces(ws: seq<World>, es: seq<Event>, uids: Uids, i: nat)
    requires IsRun(ws, es, uids) && Faithful(ws[0], uids) && WishesOk(ws[0], uids) && i <= |es|
    ensures WishesOk(ws[i], uids) && Faithful(ws[i], uids)
  {
    if i > 0 {
      WishesNamePlaces(ws, es, uids, i - 1);
      WishesStep(ws[i - 1], es[i - 1], uids);
    }
  }

  /** A controller that is restarted while the daemon stays connected does not converge by itself. */
  lemma RestartKeepsOldConnection(uids: Uids, p: Place)
    requires uids(p) == "u1" && forall q :: uids(q) != ""
    ensures var w := World(map[0 := Handler("", p)], NO_INFO, [], Some(Conn("u1", p)));
            IsRun([w], [], uids) && Faithful(w, uids) && GoodConn(w.connected, uids) &&
            UidOf(Outcome(w, uids)) != w.info.uid
  {
  }

  /** In particular every run of a freshly started controller converges. */
  lemma FreshRunConverges(ws: seq<World>, es: seq<Event>, uids: Uids)
    requires IsRun(ws, es, uids) && Faithful(ws[0], uids)
    requires ws[0].queue == [] && ws[0].info == NO_INFO && ws[0].connected == None
    ensures Known(ws[|es|].queue, ws[|es|].handlers)
    ensures UidOf(Outcome(ws[|es|], uids)) == ws[|es|].info.uid
  {
    ConvergesExactly(ws, es, uids);
  }

  /** A step of the daemon that does not go straight from one cluster to another. */
  ghost predicate Hop(d: Option<Conn>, d': Option<Conn>) {
    UidOf(d) == "" || UidOf(d') == "" || d == d'
  }

  /** While a closure runs, the daemon changes clusters only by being disconnected in between. */
  lemma ThroughDisconnected(f: Closure, hs: map<nat, Handler>, d: Option<Conn>, uids: Uids, i: nat)
    requires f.h in hs && i < |Trace(f, hs, d, uids)|
    ensures Hop(if i == 0 then d else Trace(f, hs, d, uids)[i - 1], Trace(f, hs, d, uids)[i])
  {
  }

  /** Fixed uids are needed.  A config map deleted and created anew while its disconnect is still
      queued leaves the daemon connected although nothing is wanted: the closure compares the
      daemon's uid with the handler's new one. */
  lemma RecreatedMapStrandsConnection(before: Uids, after: Uids)
    requires before(Place("k", "n")) == "u1" && after(Place("k", "n")) == "u2"
    ensures var w0 := World(map[0 := Handler("", Place("k", "n"))], NO_INFO, [], None);
            var w1 := Handle(w0, Added(0, "u1", true), before);
            var w2 := Handle(w1, RunOne, before);
            var w3 := Handle(w2, Deleted(0, true), before);
            var w4 := Handle(w3, Added(0, "u2", false), after);
            var w5 := Handle(w4, RunOne, after);
            w5.queue == [] && w5.info.uid == "" && UidOf(w5.connected) == "u1"
  {
  }
}
