/** Secret watchers that turn stored metas into an event stream, and the shared FIFO queue
    that listeners consume.

    Watchers run concurrently.  A watcher holds its own lock while it pushes the events of
    one change, but pushes of different watchers, and pops, interleave one event at a time.

    A watcher whose first listing meets a secret it cannot decode is discarded, after it has pushed
    the events of the secrets before; the next request builds a new one for the same namespace and
    kubeconfig, and listeners cannot tell the two apart. */
module SecretWatcher {
  import opened Common
  import opened DevMeta

  datatype WatcherId = WatcherId(ns: string, kubeConfig: string)
  datatype Pack = Pack(watcher: WatcherId, app: string, event: Event)

  /** `metas`: the stored dev tables.  `pending`: the events of `app` still to be pushed by
      the call that holds the watcher's lock; empty when the lock is free.  `born`: how many
      events had been pushed when this watcher replaced the one before it. */
  datatype Watcher = Watcher(metas: map<string, Table>, app: string, pending: seq<Event>, born: nat)

  /** A watcher that was discarded and what it had stored. */
  datatype Discarded = Discarded(watcher: WatcherId, metas: map<string, Table>)

  /** `pushed` and `popped` record the history of the queue, `discards` that of the watchers. */
  datatype System = System(watchers: map<WatcherId, Watcher>, queue: seq<Pack>,
                           pushed: seq<Pack>, popped: seq<Pack>, discards: seq<Discarded>)

  function Stored(w: Watcher, app: string): Table {
    TableOf(w.metas, app)
  }

  function TableOf(metas: map<string, Table>, app: string): Table {
    if app in metas then metas[app] else map[]
  }

  /** The events of one watcher and application in a history of packs. */
  ghost function LogOf(packs: seq<Pack>, w: WatcherId, app: string): seq<Event> {
    if packs == [] then []
    else
      var p := packs[|packs| - 1];
      var rest := LogOf(packs[..|packs| - 1], w, app);
      if p.watcher == w && p.app == app then rest + [p.event] else rest
  }

  lemma LogOfPush(packs: seq<Pack>, p: Pack, w: WatcherId, app: string)
    ensures LogOf(packs + [p], w, app) ==
            if p.watcher == w && p.app == app then LogOf(packs, w, app) + [p.event] else LogOf(packs, w, app)
  {
    assert (packs + [p])[..|packs|] == packs;
  }

  // ---------------------------------------------------------------- steps

  ghost predicate Init(s: System) {
    && s.queue == [] && s.pushed == [] && s.popped == [] && s.discards == []
    && forall w :: w in s.watchers ==> s.watchers[w] == Watcher(map[], "", [], 0)
  }

  /** A watcher has new tables and the events of one application to push. */
  ghost function Took(s: System, w: WatcherId, app: string, metas: map<string, Table>, es: seq<Event>): System
    requires w in s.watchers
  {
    s.(watchers := s.watchers[w := s.watchers[w].(metas := metas, app := app, pending := es)])
  }

  /** A secret arrived or changed: store its table and take the diff. */
  ghost predicate Join(s: System, s': System, w: WatcherId, app: string, table: Table) {
    && w in s.watchers && s.watchers[w].pending == []
    && exists es :: ExactDiff(Stored(s.watchers[w], app), table, es)
         && s' == Took(s, w, app, s.watchers[w].metas[app := table], es)
  }

  /** A secret left: forget its table and end everything it held. */
  ghost predicate Left(s: System, s': System, w: WatcherId, app: string) {
    && w in s.watchers && s.watchers[w].pending == []
    && exists es :: ExactDiff(Stored(s.watchers[w], app), map[], es)
         && s' == Took(s, w, app, s.watchers[w].metas - {app}, es)
  }

  /** Some other code asks a stored meta about a workload; as a side effect that adds an empty
      inner map for the workload's type.  No lock protects this. */
  ghost predicate Query(s: System, s': System, w: WatcherId, app: string, devType: string) {
    && w in s.watchers && app in s.watchers[w].metas && devType !in s.watchers[w].metas[app]
    && var m := s.watchers[w].metas;
       s' == s.(watchers := s.watchers[w := s.watchers[w].(metas := m[app := m[app][devType := map[]]])])
  }

  ghost predicate Push(s: System, s': System, w: WatcherId) {
    && w in s.watchers && s.watchers[w].pending != []
    && var p := Pack(w, s.watchers[w].app, s.watchers[w].pending[0]);
       s' == s.(queue := s.queue + [p], pushed := s.pushed + [p],
                watchers := s.watchers[w := s.watchers[w].(pending := s.watchers[w].pending[1..])])
  }

  /** A watcher is discarded and a new one takes its place. */
  ghost predicate Discard(s: System, s': System, w: WatcherId) {
    && w in s.watchers && s.watchers[w].pending == []
    && s' == s.(watchers := s.watchers[w := Watcher(map[], "", [], |s.pushed|)],
                discards := s.discards + [Discarded(w, s.watchers[w].metas)])
  }

  ghost predicate Pop(s: System, s': System) {
    && s.queue != []
    && s' == s.(queue := s.queue[1..], popped := s.popped + [s.queue[0]])
  }

  ghost predicate Next(s: System, s': System) {
    || (exists w, app, table :: Join(s, s', w, app, table))
    || (exists w, app :: Left(s, s', w, app))
    || (exists w, app, devType :: Query(s, s', w, app, devType))
    || (exists w :: Push(s, s', w))
    || (exists w :: Discard(s, s', w))
    || Pop(s, s')
  }

  ghost predicate IsRun(run: seq<System>) {
    && run != [] && Init(run[0])
    && forall i :: 0 < i < |run| ==> Next(run[i - 1], run[i])
  }

  // ---------------------------------------------------------------- the outcome of a story

  /** Who holds the workload after a story about it, if the story is legal. */
  ghost function Outcome(o: Option<string>, es: seq<Event>): Option<Option<string>>
    decreases |es|
  {
    if es == [] then Some(o)
    else if es[0].kind.DevSta? then (if o.None? then Outcome(Some(es[0].id), es[1..]) else None)
    else if o == Some(es[0].id) then Outcome(None, es[1..])
    else None
  }

  lemma {:induction false} LegalOutcome(o: Option<string>, es: seq<Event>, o': Option<string>)
    ensures LegalRun(o, es, o') <==> Outcome(o, es) == Some(o')
    decreases |es|
  {
    if es != [] {
      LegalOutcome(if es[0].kind.DevSta? then Some(es[0].id) else None, es[1..], o');
    }
  }

  lemma {:induction false} OutcomeConcat(o: Option<string>, a: seq<Event>, b: seq<Event>)
    ensures Outcome(o, a + b) == if Outcome(o, a).None? then None else Outcome(Outcome(o, a).value, b)
    decreases |a|
  {
    if a == [] {
      assert a + b == b;
    } else {
      assert (a + b)[1..] == a[1..] + b;
      OutcomeConcat(if a[0].kind.DevSta? then Some(a[0].id) else None, a[1..], b);
    }
  }

  /** A story that begins with nobody cannot go on from somebody. */
  lemma HeldCannotGoOn(holder: string, es: seq<Event>)
    requires Outcome(None, es).Some?
    ensures Outcome(Some(holder), es) == if es == [] then Some(Some(holder)) else None
  {
  }

  // ---------------------------------------------------------------- the invariant

  /** What this watcher's predecessors said about an application, and what it has said itself or is
      about to. */
  ghost function Earlier(s: System, w: WatcherId, app: string): seq<Event>
    requires w in s.watchers && s.watchers[w].born <= |s.pushed|
  {
    LogOf(s.pushed[..s.watchers[w].born], w, app)
  }

  ghost function Own(s: System, w: WatcherId, app: string): seq<Event>
    requires w in s.watchers && s.watchers[w].born <= |s.pushed|
  {
    LogOf(s.pushed[s.watchers[w].born..], w, app) + if app == s.watchers[w].app then s.watchers[w].pending else []
  }

  /** Everything said about one application of a namespace and kubeconfig. */
  ghost function Story(s: System, w: WatcherId, app: string): seq<Event>
    requires w in s.watchers
  {
    LogOf(s.pushed, w, app) + if app == s.watchers[w].app then s.watchers[w].pending else []
  }

  /** Nobody held the workload when a watcher was discarded. */
  ghost predicate CleanAt(discards: seq<Discarded>, w: WatcherId, app: string, k: Key) {
    forall i :: 0 <= i < |discards| && discards[i].watcher == w ==> Owner(TableOf(discards[i].metas, app), k).None?
  }

  ghost predicate Tells(story: seq<Event>, table: Table) {
    forall k :: LegalRun(None, EventsOf(story, k), Owner(table, k))
  }

  /** The predecessors' story is legal and leaves the workload free exactly when no discard met it held. */
  ghost predicate Closed(s: System, w: WatcherId, app: string, k: Key)
    requires w in s.watchers && s.watchers[w].born <= |s.pushed|
  {
    Outcome(None, EventsOf(Earlier(s, w, app), k)) == Some(None) <==> CleanAt(s.discards, w, app, k)
  }

  ghost predicate Ages(s: System) {
    forall w :: w in s.watchers ==> s.watchers[w].born <= |s.pushed|
  }

  ghost predicate Good(s: System, w: WatcherId, app: string)
    requires Ages(s) && w in s.watchers
  {
    Tells(Own(s, w, app), Stored(s.watchers[w], app)) && forall k :: Closed(s, w, app, k)
  }

  ghost predicate Inv(s: System) {
    && s.pushed == s.popped + s.queue && Ages(s)
    && forall w, app :: w in s.watchers ==> Good(s, w, app)
  }

  lemma TellsMore(story: seq<Event>, from: Table, es: seq<Event>, to: Table)
    requires Tells(story, from) && ExactDiff(from, to, es)
    ensures Tells(story + es, to)
  {
    DiffLegal(from, to, es);
    forall k ensures LegalRun(None, EventsOf(story + es, k), Owner(to, k)) {
      EventsOfConcat(story, es, k);
      LegalRunConcat(None, EventsOf(story, k), Owner(from, k), EventsOf(es, k), Owner(to, k));
    }
  }

  lemma InitInv(s: System)
    requires Init(s)
    ensures Inv(s)
  {
    forall w, app | w in s.watchers ensures Good(s, w, app) {
      assert Own(s, w, app) == [] && Earlier(s, w, app) == [];
    }
  }

  /** A step that only lets the watchers' stories and tables grow together keeps the invariant. */
  ghost predicate Same(s: System, s': System, v: WatcherId, a: string)
    requires v in s.watchers && v in s'.watchers
    requires s.watchers[v].born <= |s.pushed| && s'.watchers[v].born <= |s'.pushed|
  {
    Earlier(s', v, a) == Earlier(s, v, a) && s'.discards == s.discards
  }

  lemma SameClosed(s: System, s': System, v: WatcherId, a: string)
    requires v in s.watchers && v in s'.watchers
    requires s.watchers[v].born <= |s.pushed| && s'.watchers[v].born <= |s'.pushed|
    requires Same(s, s', v, a) && forall k :: Closed(s, v, a, k)
    ensures forall k :: Closed(s', v, a, k)
  {
    forall k ensures Closed(s', v, a, k) {
      assert Closed(s, v, a, k);
    }
  }

  /** A stored table is replaced and the difference becomes pending. */
  lemma ReplaceInv(s: System, s': System, w: WatcherId, app: string, metas: map<string, Table>, es: seq<Event>)
    requires Inv(s) && w in s.watchers && s.watchers[w].pending == []
    requires s' == Took(s, w, app, metas, es)
    requires ExactDiff(Stored(s.watchers[w], app), Stored(s'.watchers[w], app), es)
    requires forall a :: a != app ==> Stored(s'.watchers[w], a) == Stored(s.watchers[w], a)
    ensures Inv(s')
  {
    forall v, a | v in s'.watchers ensures Good(s', v, a) {
      assert Good(s, v, a);
      SameClosed(s, s', v, a);
      if v == w {
        assert Own(s, w, a) == LogOf(s.pushed[s.watchers[w].born..], w, a);
        if a == app {
          TellsMore(Own(s, w, app), Stored(s.watchers[w], app), es, Stored(s'.watchers[w], app));
        }
      }
    }
  }

  lemma TakeDropPush(ps: seq<Pack>, p: Pack, born: nat)
    requires born <= |ps|
    ensures (ps + [p])[..born] == ps[..born] && (ps + [p])[born..] == ps[born..] + [p]
  {
  }

  lemma PushStories(s: System, s': System, w: WatcherId, v: WatcherId, a: string)
    requires Push(s, s', w) && v in s.watchers && s.watchers[v].born <= |s.pushed|
    ensures v in s'.watchers && s'.watchers[v].born <= |s'.pushed| && Same(s, s', v, a)
    ensures Own(s', v, a) == Own(s, v, a)
  {
    var p, born := Pack(w, s.watchers[w].app, s.watchers[w].pending[0]), s.watchers[v].born;
    TakeDropPush(s.pushed, p, born);
    LogOfPush(s.pushed[born..], p, v, a);
    if v == w && a == s.watchers[w].app {
      assert s.watchers[w].pending == [p.event] + s.watchers[w].pending[1..];
    }
  }

  lemma PushInv(s: System, s': System, w: WatcherId)
    requires Inv(s) && Push(s, s', w)
    ensures Inv(s')
  {
    assert s'.pushed == s'.popped + s'.queue;
    forall v, a | v in s'.watchers ensures Good(s', v, a) {
      assert Good(s, v, a);
      PushStories(s, s', w, v, a);
      SameClosed(s, s', v, a);
    }
  }

  lemma QueryInv(s: System, s': System, w: WatcherId, app: string, devType: string)
    requires Inv(s) && Query(s, s', w, app, devType)
    ensures Inv(s')
  {
    forall v, a | v in s'.watchers ensures Good(s', v, a) {
      assert Good(s, v, a);
      SameClosed(s, s', v, a);
      assert Own(s', v, a) == Own(s, v, a);
      forall k ensures Owner(Stored(s'.watchers[v], a), k) == Owner(Stored(s.watchers[v], a), k) {
      }
    }
  }

  lemma PopInv(s: System, s': System)
    requires Inv(s) && Pop(s, s')
    ensures Inv(s')
  {
    forall v, a | v in s'.watchers ensures Good(s', v, a) {
      assert Good(s, v, a);
      SameClosed(s, s', v, a);
      assert Own(s', v, a) == Own(s, v, a);
    }
  }

  lemma StorySplits(s: System, w: WatcherId, app: string, k: Key)
    requires w in s.watchers && s.watchers[w].born <= |s.pushed|
    ensures EventsOf(Story(s, w, app), k) == EventsOf(Earlier(s, w, app), k) + EventsOf(Own(s, w, app), k)
  {
    var born := s.watchers[w].born;
    assert s.pushed == s.pushed[..born] + s.pushed[born..];
    LogOfConcat(s.pushed[..born], s.pushed[born..], w, app);
    assert Story(s, w, app) == Earlier(s, w, app) + Own(s, w, app);
    EventsOfConcat(Earlier(s, w, app), Own(s, w, app), k);
  }

  /** What the whole story of a workload comes to. */
  lemma StoryOutcome(s: System, w: WatcherId, app: string, k: Key)
    requires Inv(s) && w in s.watchers
    ensures var out, owner := Outcome(None, EventsOf(Story(s, w, app), k)), Owner(Stored(s.watchers[w], app), k);
            && (CleanAt(s.discards, w, app, k) ==> out == Some(owner))
            && (!CleanAt(s.discards, w, app, k) ==> out != Some(owner) && out != Some(None))
  {
    var earlier, own := EventsOf(Earlier(s, w, app), k), EventsOf(Own(s, w, app), k);
    var owner := Owner(Stored(s.watchers[w], app), k);
    assert Good(s, w, app) && Closed(s, w, app, k);
    LegalOutcome(None, own, owner);
    StorySplits(s, w, app, k);
    OutcomeConcat(None, earlier, own);
    if Outcome(None, earlier).Some? && Outcome(None, earlier).value.Some? {
      HeldCannotGoOn(Outcome(None, earlier).value.value, own);
    }
  }

  lemma CleanMore(discards: seq<Discarded>, d: Discarded, w: WatcherId, app: string, k: Key)
    ensures CleanAt(discards + [d], w, app, k) <==>
            CleanAt(discards, w, app, k) && (d.watcher == w ==> Owner(TableOf(d.metas, app), k).None?)
  {
    var all := discards + [d];
    assert all[|discards|] == d && forall i :: 0 <= i < |discards| ==> all[i] == discards[i];
  }

  lemma DiscardInv(s: System, s': System, w: WatcherId)
    requires Inv(s) && Discard(s, s', w)
    ensures Inv(s')
  {
    forall v, a | v in s'.watchers ensures Good(s', v, a) {
      assert Good(s, v, a);
      if v == w {
        assert s.pushed[|s.pushed|..] == [] && s.pushed[..|s.pushed|] == s.pushed;
        assert Own(s', w, a) == [] && Earlier(s', w, a) == LogOf(s.pushed, w, a) == Story(s, w, a);
      } else {
        assert Own(s', v, a) == Own(s, v, a) && Earlier(s', v, a) == Earlier(s, v, a);
      }
      forall k ensures Closed(s', v, a, k) {
        assert Closed(s, v, a, k);
        CleanMore(s.discards, Discarded(w, s.watchers[w].metas), v, a, k);
        if v == w {
          StoryOutcome(s, w, a, k);
        }
      }
    }
  }

  lemma NextInv(s: System, s': System)
    requires Inv(s) && Next(s, s')
    ensures Inv(s')
  {
    if w, app, table :| Join(s, s', w, app, table) {
      var es :| ExactDiff(Stored(s.watchers[w], app), table, es)
        && s' == Took(s, w, app, s.watchers[w].metas[app := table], es);
      ReplaceInv(s, s', w, app, s.watchers[w].metas[app := table], es);
    } else if w, app :| Left(s, s', w, app) {
      var es :| ExactDiff(Stored(s.watchers[w], app), map[], es)
        && s' == Took(s, w, app, s.watchers[w].metas - {app}, es);
      ReplaceInv(s, s', w, app, s.watchers[w].metas - {app}, es);
    } else if w, app, devType :| Query(s, s', w, app, devType) {
      QueryInv(s, s', w, app, devType);
    } else if w :| Push(s, s', w) {
      PushInv(s, s', w);
    } else if w :| Discard(s, s', w) {
      DiscardInv(s, s', w);
    } else {
      PopInv(s, s');
    }
  }

  lemma {:induction false} RunInv(run: seq<System>, i: nat)
    requires IsRun(run) && i < |run|
    ensures Inv(run[i])
  {
    if i == 0 {
      InitInv(run[0]);
    } else {
      RunInv(run, i - 1);
      NextInv(run[i - 1], run[i]);
    }
  }

  // ---------------------------------------------------------------- what every run guarantees

  /** In every run of any number of watchers, some of them discarded and replaced: what was popped,
      followed by what is queued, is what was pushed; and whenever a watcher's lock is free, the events
      it has pushed itself for one of its applications, replayed from nothing, give exactly the table it
      now stores. */
  lemma EveryRunReplays(run: seq<System>, i: nat, w: WatcherId, app: string)
    requires IsRun(run) && i < |run| && w in run[i].watchers
    ensures run[i].popped + run[i].queue == run[i].pushed && run[i].watchers[w].born <= |run[i].pushed|
    ensures run[i].watchers[w].pending == [] ==>
              Replay(map[], LogOf(run[i].pushed[run[i].watchers[w].born..], w, app)) ==
              Flat(Stored(run[i].watchers[w], app))
  {
    RunInv(run, i);
    var s := run[i];
    assert Good(s, w, app);
    if s.watchers[w].pending == [] {
      assert Own(s, w, app) == LogOf(s.pushed[s.watchers[w].born..], w, app);
      assert Flat(map[]) == map[];
      LegalReplay(map[], Own(s, w, app), Stored(s.watchers[w], app));
    }
  }

  /** Nobody held anything of the application when a watcher of this namespace and kubeconfig was
      discarded. */
  ghost predicate DiscardedEmpty(s: System, w: WatcherId, app: string) {
    forall k :: CleanAt(s.discards, w, app, k)
  }

  /** For every run: all that was said about an application of a namespace and kubeconfig, by the present
      watcher and by those before it, is a legal story of every workload that ends with the table now
      stored, if and only if every discarded watcher held nothing of it when it was discarded. */
  lemma StoryLegalExactly(run: seq<System>, i: nat, w: WatcherId, app: string)
    requires IsRun(run) && i < |run| && w in run[i].watchers
    ensures Tells(Story(run[i], w, app), Stored(run[i].watchers[w], app)) <==> DiscardedEmpty(run[i], w, app)
  {
    RunInv(run, i);
    var s := run[i];
    forall k ensures LegalRun(None, EventsOf(Story(s, w, app), k), Owner(Stored(s.watchers[w], app), k)) <==>
                     CleanAt(s.discards, w, app, k)
    {
      StoryOutcome(s, w, app, k);
      LegalOutcome(None, EventsOf(Story(s, w, app), k), Owner(Stored(s.watchers[w], app), k));
    }
  }

  /** In that case the whole log, replayed from nothing, gives the stored table. */
  lemma WholeLogReplays(run: seq<System>, i: nat, w: WatcherId, app: string)
    requires IsRun(run) && i < |run| && w in run[i].watchers && run[i].watchers[w].pending == []
    requires DiscardedEmpty(run[i], w, app)
    ensures Replay(map[], LogOf(run[i].pushed, w, app)) == Flat(Stored(run[i].watchers[w], app))
  {
    StoryLegalExactly(run, i, w, app);
    var s := run[i];
    assert Story(s, w, app) == LogOf(s.pushed, w, app);
    assert Flat(map[]) == map[];
    LegalReplay(map[], LogOf(s.pushed, w, app), Stored(s.watchers[w], app));
  }

  lemma {:induction false} LegalPrefix(o: Option<string>, a: seq<Event>, b: seq<Event>, o': Option<string>)
    requires LegalRun(o, a + b, o')
    ensures exists mid :: LegalRun(o, a, mid)
    decreases |a|
  {
    if a == [] {
      assert LegalRun(o, a, o);
    } else {
      var next := if a[0].kind.DevSta? then Some(a[0].id) else None;
      assert (a + b)[1..] == a[1..] + b;
      LegalPrefix(next, a[1..], b, o');
      var mid :| LegalRun(next, a[1..], mid);
      assert LegalRun(o, a, mid);
    }
  }

  lemma {:induction false} LogOfConcat(a: seq<Pack>, b: seq<Pack>, w: WatcherId, app: string)
    ensures LogOf(a + b, w, app) == LogOf(a, w, app) + LogOf(b, w, app)
  {
    if b == [] {
      assert a + b == a;
    } else {
      assert (a + b)[..|a + b| - 1] == a + b[..|b| - 1];
      LogOfConcat(a, b[..|b| - 1], w, app);
    }
  }

  /** As long as no discard met the workload held, at every moment of every run a listener has seen a
      sensible story of it: never a start of a workload somebody holds, never an end by anyone but its
      holder. */
  lemma ListenersSeeLegalStories(run: seq<System>, i: nat, w: WatcherId, app: string, k: Key)
    requires IsRun(run) && i < |run| && w in run[i].watchers && CleanAt(run[i].discards, w, app, k)
    ensures exists o :: LegalRun(None, EventsOf(LogOf(run[i].popped, w, app), k), o)
  {
    RunInv(run, i);
    var s := run[i];
    var later := LogOf(s.queue, w, app) + if app == s.watchers[w].app then s.watchers[w].pending else [];
    LogOfConcat(s.popped, s.queue, w, app);
    assert Story(s, w, app) == LogOf(s.popped, w, app) + later;
    EventsOfConcat(LogOf(s.popped, w, app), later, k);
    StoryOutcome(s, w, app, k);
    LegalOutcome(None, EventsOf(Story(s, w, app), k), Owner(Stored(s.watchers[w], app), k));
    LegalPrefix(None, EventsOf(LogOf(s.popped, w, app), k), EventsOf(later, k),
                Owner(Stored(s.watchers[w], app), k));
  }

  // ---------------------------------------------------------------- a discarded watcher

  const HELD: Table := map["D" := map["web" := "ia"]]
  const STARTED := Event(DevSta, "D", "web", "ia")

  lemma HeldDiff()
    ensures ExactDiff(map[], HELD, [STARTED])
  {
    forall k ensures EventsOf([STARTED], k) == Expected(None, Owner(HELD, k), k) {
      SingleEvent(STARTED, k);
    }
  }

  /** Two requests for one namespace: each lists a secret whose application somebody develops; after the
      first, a secret that cannot be decoded makes the watcher go. */
  function TwoRequests(w: WatcherId): seq<System> {
    var p, full := Pack(w, "shop", STARTED), map["shop" := HELD];
    var gone := [Discarded(w, full)];
    [System(map[w := Watcher(map[], "", [], 0)], [], [], [], []),
     System(map[w := Watcher(full, "shop", [STARTED], 0)], [], [], [], []),
     System(map[w := Watcher(full, "shop", [], 0)], [p], [p], [], []),
     System(map[w := Watcher(map[], "", [], 1)], [p], [p], [], gone),
     System(map[w := Watcher(full, "shop", [STARTED], 1)], [p], [p], [], gone),
     System(map[w := Watcher(full, "shop", [], 1)], [p, p], [p, p], [], gone)]
  }

  lemma TwoRequestsRun(w: WatcherId)
    ensures IsRun(TwoRequests(w))
  {
    var run := TwoRequests(w);
    HeldJoins(run[0], run[1], w);
    PushesOne(run[1], run[2], w);
    assert Discard(run[2], run[3], w);
    HeldJoins(run[3], run[4], w);
    PushesOne(run[4], run[5], w);
  }

  lemma PushesOne(s: System, s': System, w: WatcherId)
    requires w in s.watchers && s.watchers[w].app == "shop" && s.watchers[w].pending == [STARTED]
    requires var p := Pack(w, "shop", STARTED);
             s' == System(s.watchers[w := s.watchers[w].(pending := [])], s.queue + [p], s.pushed + [p], s.popped,
                          s.discards)
    ensures Push(s, s', w)
  {
    assert [STARTED][1..] == [];
  }

  lemma HeldJoins(s: System, s': System, w: WatcherId)
    requires w in s.watchers && s.watchers[w].metas == map[] && s.watchers[w].pending == []
    requires s' == s.(watchers := s.watchers[w := Watcher(map["shop" := HELD], "shop", [STARTED], s.watchers[w].born)])
    ensures Join(s, s', w, "shop", HELD)
  {
    HeldDiff();
    assert ExactDiff(Stored(s.watchers[w], "shop"), HELD, [STARTED]);
    assert s' == Took(s, w, "shop", s.watchers[w].metas["shop" := HELD], [STARTED]);
  }

  /** Listeners are told twice that the same developer starts the same workload. */
  lemma DiscardedWatcherTellsTwice(w: WatcherId)
    ensures IsRun(TwoRequests(w)) && !DiscardedEmpty(TwoRequests(w)[5], w, "shop")
    ensures LogOf(TwoRequests(w)[5].pushed, w, "shop") == [STARTED, STARTED]
    ensures forall o :: !LegalRun(None, [STARTED, STARTED], o)
  {
    TwoRequestsRun(w);
    var s, p := TwoRequests(w)[5], Pack(w, "shop", STARTED);
    LogOfPush([], p, w, "shop");
    LogOfPush([p], p, w, "shop");
    assert [] + [p] == [p] && [p] + [p] == [p, p];
    assert s.discards[0].watcher == w && Owner(HELD, Key("D", "web")) == Some("ia");
    assert !CleanAt(s.discards, w, "shop", Key("D", "web"));
  }

  // ---------------------------------------------------------------- the watcher as it runs

  function Packs(w: WatcherId, app: string, es: seq<Event>): (ps: seq<Pack>)
    ensures |ps| == |es|
  {
    seq(|es|, i requires 0 <= i < |es| => Pack(w, app, es[i]))
  }

  class EventQueue {
    var events: seq<Pack>
    ghost var pushed: seq<Pack>
    ghost var popped: seq<Pack>

    ghost predicate Valid() reads this {
      pushed == popped + events
    }

    constructor ()
      ensures Valid() && pushed == []
    {
      events, pushed, popped := [], [], [];
    }

    method EventPush(p: Pack)
      requires Valid()
      modifies this
      ensures Valid() && pushed == old(pushed) + [p] && popped == old(popped)
    {
      events := events + [p];
      pushed := pushed + [p];
    }

    /** On an empty queue the one consumer waits: nothing happens until there is an event. */
    method EventPop() returns (r: Option<Pack>)
      requires Valid()
      modifies this
      ensures Valid() && pushed == old(pushed)
      ensures r.None? <==> old(events) == []
      ensures popped == if r.Some? then old(popped) + [r.value] else old(popped)
    {
      if events == [] {
        return None;
      }
      r := Some(events[0]);
      events := events[1..];
      popped := popped + [r.value];
    }
  }

  /** A log that is legal for every workload and leads from one table to another. */
  ghost predicate Leads(from: Table, es: seq<Event>, to: Table) {
    forall k :: LegalRun(Owner(from, k), EventsOf(es, k), Owner(to, k))
  }

  /** What watcher `w` pushed since, and nobody else did, tells for every application how its table changed:
      it is legal, and replayed on the old table it gives the new one. */
  ghost predicate Told(was: seq<Pack>, now: seq<Pack>, w: WatcherId, from: map<string, Table>, to: map<string, Table>) {
    && was <= now && (forall i :: |was| <= i < |now| ==> now[i].watcher == w)
    && forall app :: ToldOf(now[|was|..], w, app, TableOf(from, app), TableOf(to, app))
  }

  ghost predicate ToldOf(packs: seq<Pack>, w: WatcherId, app: string, from: Table, to: Table) {
    Leads(from, LogOf(packs, w, app), to) && Replay(Flat(from), LogOf(packs, w, app)) == Flat(to)
  }

  lemma LeadsReplays(packs: seq<Pack>, w: WatcherId, app: string, from: Table, to: Table)
    requires Leads(from, LogOf(packs, w, app), to)
    ensures ToldOf(packs, w, app, from, to)
  {
    LegalReplay(from, LogOf(packs, w, app), to);
  }

  lemma ToldNothing(pushed: seq<Pack>, w: WatcherId, tables: map<string, Table>)
    ensures Told(pushed, pushed, w, tables, tables)
  {
    assert pushed[|pushed|..] == [];
    forall app ensures ToldOf([], w, app, TableOf(tables, app), TableOf(tables, app)) {
      LeadsReplays([], w, app, TableOf(tables, app), TableOf(tables, app));
    }
  }

  lemma PacksSnoc(w: WatcherId, app: string, es: seq<Event>, e: Event)
    ensures Packs(w, app, es + [e]) == Packs(w, app, es) + [Pack(w, app, e)]
  {
  }

  lemma {:induction false} LogOfPacks(packs: seq<Pack>, w: WatcherId, app: string, es: seq<Event>, a: string)
    ensures LogOf(packs + Packs(w, app, es), w, a) == LogOf(packs, w, a) + if a == app then es else []
    decreases |es|
  {
    if es == [] {
      assert packs + Packs(w, app, es) == packs;
    } else {
      LogOfPacks(packs, w, app, es[..|es| - 1], a);
      LogOfPacksStep(packs, w, app, es[..|es| - 1], es[|es| - 1], a);
      assert es == es[..|es| - 1] + [es[|es| - 1]];
    }
  }

  lemma LogOfPacksStep(packs: seq<Pack>, w: WatcherId, app: string, es: seq<Event>, e: Event, a: string)
    requires LogOf(packs + Packs(w, app, es), w, a) == LogOf(packs, w, a) + if a == app then es else []
    ensures LogOf(packs + Packs(w, app, es + [e]), w, a) == LogOf(packs, w, a) + if a == app then es + [e] else []
  {
    PacksSnoc(w, app, es, e);
    assert packs + (Packs(w, app, es) + [Pack(w, app, e)]) == packs + Packs(w, app, es) + [Pack(w, app, e)];
    LogOfPush(packs + Packs(w, app, es), Pack(w, app, e), w, a);
  }

  lemma LeadsMore(from: Table, log: seq<Event>, mid: Table, es: seq<Event>, to: Table)
    requires Leads(from, log, mid) && ExactDiff(mid, to, es)
    ensures Leads(from, log + es, to)
  {
    DiffLegal(mid, to, es);
    forall k ensures LegalRun(Owner(from, k), EventsOf(log + es, k), Owner(to, k)) {
      EventsOfConcat(log, es, k);
      LegalRunConcat(Owner(from, k), EventsOf(log, k), Owner(mid, k), EventsOf(es, k), Owner(to, k));
    }
  }

  lemma ToldOfMore(packs: seq<Pack>, w: WatcherId, a: string, from: Table, mid: Table, app: string, to: Table,
                   es: seq<Event>)
    requires ToldOf(packs, w, a, from, mid) && if a == app then ExactDiff(mid, to, es) else to == mid
    ensures ToldOf(packs + Packs(w, app, es), w, a, from, to)
  {
    LogOfPacks(packs, w, app, es, a);
    if a == app {
      LeadsMore(from, LogOf(packs, w, a), mid, es, to);
    } else {
      assert LogOf(packs, w, a) + [] == LogOf(packs, w, a);
    }
    LeadsReplays(packs + Packs(w, app, es), w, a, from, to);
  }

  lemma ToldMore(was: seq<Pack>, now: seq<Pack>, w: WatcherId, from: map<string, Table>, mid: map<string, Table>,
                 app: string, table: Table, es: seq<Event>)
    requires Told(was, now, w, from, mid) && ExactDiff(TableOf(mid, app), table, es)
    ensures Told(was, now + Packs(w, app, es), w, from, mid[app := table])
  {
    var more, to := now + Packs(w, app, es), mid[app := table];
    assert more[|was|..] == now[|was|..] + Packs(w, app, es);
    forall a ensures ToldOf(more[|was|..], w, a, TableOf(from, a), TableOf(to, a)) {
      assert ToldOf(now[|was|..], w, a, TableOf(from, a), TableOf(mid, a));
      ToldOfMore(now[|was|..], w, a, TableOf(from, a), TableOf(mid, a), app, TableOf(to, a), es);
    }
  }

  datatype Decoded = Undecodable | Meta(app: string, table: HeapTable)

  /** The place of the first secret that cannot be decoded. */
  ghost function FirstBad(list: seq<Decoded>): (i: nat)
    ensures i <= |list| && (forall j :: 0 <= j < i ==> list[j].Meta?) && (i < |list| ==> list[i].Undecodable?)
  {
    if list == [] || list[0].Undecodable? then 0 else 1 + FirstBad(list[1..])
  }

  lemma FirstBadIs(list: seq<Decoded>, i: nat)
    requires i <= |list| && (forall j :: 0 <= j < i ==> list[j].Meta?) && (i < |list| ==> list[i].Undecodable?)
    ensures FirstBad(list) == i
  {
  }

  ghost function JoinAll(metas: map<string, HeapTable>, list: seq<Decoded>): map<string, HeapTable>
    requires forall i :: 0 <= i < |list| ==> list[i].Meta?
  {
    if list == [] then metas
    else JoinAll(metas, list[..|list| - 1])[list[|list| - 1].app := list[|list| - 1].table]
  }

  class ApplicationSecretWatcher {
    const id: WatcherId
    const queue: EventQueue
    var applicationMetas: map<string, HeapTable>

    constructor (id: WatcherId, queue: EventQueue)
      ensures this.id == id && this.queue == queue && applicationMetas == map[]
    {
      this.id, this.queue := id, queue;
      applicationMetas := map[];
    }

    function Before(app: string): HeapTable
      reads this
    {
      if app in applicationMetas then applicationMetas[app] else map[]
    }

    /** Push the events of one change, in order. */
    method PushAll(app: string, es: seq<Event>)
      requires queue.Valid()
      modifies queue
      ensures queue.Valid() && queue.popped == old(queue.popped)
      ensures queue.pushed == old(queue.pushed) + Packs(id, app, es)
    {
      var i := 0;
      while i < |es|
        invariant i <= |es| && queue.Valid() && queue.popped == old(queue.popped)
        invariant queue.pushed == old(queue.pushed) + Packs(id, app, es)[..i]
      {
        queue.EventPush(Pack(id, app, es[i]));
        assert Packs(id, app, es)[..i + 1] == Packs(id, app, es)[..i] + [Pack(id, app, es[i])];
        i := i + 1;
      }
    }

    method Remember(app: string, table: HeapTable)
      modifies this
      ensures applicationMetas == old(applicationMetas)[app := table]
      ensures Tables() == old(Tables())[app := View(table)]
    {
      applicationMetas := applicationMetas[app := table];
    }

    /** A secret that cannot be decoded changes nothing. */
    method JoinSecret(secret: Decoded) returns (ok: bool, ghost es: seq<Event>)
      requires queue.Valid()
      modifies this, queue
      ensures queue.Valid() && queue.popped == old(queue.popped)
      ensures ok <==> secret.Meta?
      ensures !ok ==> applicationMetas == old(applicationMetas) && queue.pushed == old(queue.pushed)
      ensures ok ==> applicationMetas == old(applicationMetas)[secret.app := secret.table]
      ensures ok ==> ExactDiff(old(View(Before(secret.app))), View(secret.table), es)
      ensures Tables() == if ok then old(Tables())[secret.app := View(secret.table)] else old(Tables())
      ensures ok ==> queue.pushed == old(queue.pushed) + Packs(id, secret.app, es)
    {
      es := [];
      if secret.Undecodable? {
        return false, [];
      }
      var before := Before(secret.app);
      Remember(secret.app, secret.table);
      var events := Events(before, secret.table);
      PushAll(secret.app, events);
      return true, events;
    }

    /** The tables now stored. */
    ghost function Tables(): map<string, Table>
      reads this, set a, d | a in applicationMetas && d in applicationMetas[a] :: applicationMetas[a][d]
    {
      map a | a in applicationMetas :: View(applicationMetas[a])
    }

    /** Joining one secret goes on telling how the tables changed. */
    method JoinNext(secret: Decoded, ghost was: seq<Pack>, ghost from: map<string, Table>) returns (ok: bool)
      requires queue.Valid() && Told(was, queue.pushed, id, from, Tables())
      modifies this, queue
      ensures queue.Valid() && queue.popped == old(queue.popped)
      ensures ok <==> secret.Meta?
      ensures applicationMetas ==
              if ok then old(applicationMetas)[secret.app := secret.table] else old(applicationMetas)
      ensures Told(was, queue.pushed, id, from, Tables())
    {
      ghost var tables, pushed, es := Tables(), queue.pushed, [];
      assert secret.Meta? ==> TableOf(tables, secret.app) == View(Before(secret.app));
      ok, es := JoinSecret(secret);
      if ok {
        ToldMore(was, pushed, id, from, tables, secret.app, View(secret.table), es);
      }
    }

    /** The first listing: every secret is joined, up to the first that cannot be decoded.  Whether or not
        there is one, what was pushed tells exactly how the stored tables changed. */
    method Prepare(list: seq<Decoded>) returns (ok: bool)
      requires queue.Valid()
      modifies this, queue
      ensures queue.Valid() && queue.popped == old(queue.popped)
      ensures ok <==> FirstBad(list) == |list|
      ensures applicationMetas == JoinAll(old(applicationMetas), list[..FirstBad(list)])
      ensures Told(old(queue.pushed), queue.pushed, id, old(Tables()), Tables())
    {
      ghost var was, from := queue.pushed, Tables();
      ToldNothing(was, id, from);
      for i := 0 to |list|
        invariant queue.Valid() && queue.popped == old(queue.popped)
        invariant forall j :: 0 <= j < i ==> list[j].Meta?
        invariant applicationMetas == JoinAll(old(applicationMetas), list[..i])
        invariant Told(was, queue.pushed, id, from, Tables())
      {
        assert list[..i + 1][..i] == list[..i];
        ok := JoinNext(list[i], was, from);
        if !ok {
          FirstBadIs(list, i);
          return false;
        }
      }
      FirstBadIs(list, |list|);
      assert list[..|list|] == list;
      return true;
    }

    method LeftApp(app: string) returns (ghost es: seq<Event>)
      requires queue.Valid()
      modifies this, queue
      ensures queue.Valid() && queue.popped == old(queue.popped)
      ensures applicationMetas == old(applicationMetas) - {app}
      ensures ExactDiff(old(View(Before(app))), map[], es)
      ensures queue.pushed == old(queue.pushed) + Packs(id, app, es)
    {
      var before := Before(app);
      applicationMetas := applicationMetas - {app};
      var events := Events(before, map[]);
      PushAll(app, events);
      es := events;
    }
  }
}
