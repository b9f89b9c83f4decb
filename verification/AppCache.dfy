/** The cached application names of each kubeconfig, namespace and resource name, kept up to date by
    informer event handlers.  Handlers of additions and updates run at most once in five seconds;
    handlers of deletions always run.

    A kubeconfig of a cluster administrator has one searcher that sees every namespace; any other has
    one searcher per namespace it is used for.  Every searcher has its own handler, with its own store,
    for every kind it watches.  All handlers write into one cache, whose entries they tell apart by
    kubeconfig, namespace and the resource's name without its group and version. */
module AppCache {
  import opened Common
  import opened OwnerLookup

  const THROTTLE := 5

  datatype Slot = Slot(kube: string, ns: string, resource: string)
  type Cache = map<Slot, set<string>>

  function Cached(c: Cache, s: Slot): set<string> {
    if s in c then c[s] else {}
  }

  /** The names recomputed from the objects of a store. */
  function AppsIn(objs: set<Object>, ns: string): set<string> {
    set o | o in objs && o.ns == ns :: AppName(o)
  }

  ghost predicate Inhabited(objs: set<Object>, ns: string) {
    ns != "" && exists o :: o in objs && o.ns == ns
  }

  ghost function SetOf(list: seq<Object>): set<Object> {
    set o | o in list
  }

  // ---------------------------------------------------------------- the handlers' loops

  /** The application names of a list by namespace. */
  ghost predicate Grouped(objs: set<Object>, g: map<string, set<string>>) {
    && (forall ns :: ns in g <==> Inhabited(objs, ns))
    && (forall ns :: ns in g ==> g[ns] == AppsIn(objs, ns))
  }

  function AddName(g: map<string, set<string>>, o: Object): map<string, set<string>> {
    if o.ns == "" then g
    else g[o.ns := (if o.ns in g then g[o.ns] else {}) + {AppName(o)}]
  }

  lemma AppsInMore(objs: set<Object>, o: Object, ns: string)
    ensures AppsIn(objs + {o}, ns) == AppsIn(objs, ns) + if ns == o.ns then {AppName(o)} else {}
  {
  }

  lemma InhabitedMore(objs: set<Object>, o: Object, ns: string)
    ensures Inhabited(objs + {o}, ns) <==> Inhabited(objs, ns) || (ns == o.ns && ns != "")
  {
    assert o in objs + {o};
  }

  lemma NobodyHome(objs: set<Object>, ns: string)
    requires ns != "" && !Inhabited(objs, ns)
    ensures AppsIn(objs, ns) == {}
  {
  }

  lemma GroupedMore(objs: set<Object>, g: map<string, set<string>>, o: Object)
    requires Grouped(objs, g)
    ensures Grouped(objs + {o}, AddName(g, o))
  {
    var g' := AddName(g, o);
    forall ns
      ensures ns in g' <==> Inhabited(objs + {o}, ns)
      ensures ns in g' ==> g'[ns] == AppsIn(objs + {o}, ns)
    {
      InhabitedMore(objs, o, ns);
      AppsInMore(objs, o, ns);
      if ns == o.ns && ns !in g && ns != "" {
        NobodyHome(objs, ns);
      }
    }
  }

  method GroupByNamespace(list: seq<Object>) returns (g: map<string, set<string>>)
    ensures Grouped(SetOf(list), g)
  {
    g := map[];
    ghost var seen: set<Object> := {};
    for i := 0 to |list|
      invariant seen == SetOf(list[..i]) && Grouped(seen, g)
    {
      assert list[..i + 1] == list[..i] + [list[i]];
      GroupedMore(seen, g, list[i]);
      g := AddName(g, list[i]);
      seen := seen + {list[i]};
    }
    assert list[..|list|] == list;
  }

  /** The cache after a handler refreshed the inhabited namespaces of its store. */
  ghost predicate Refreshed(c: Cache, h: Source, objs: set<Object>, c': Cache) {
    forall s :: Get(c', s) ==
      if s.kube == h.kube && s.resource == h.gvr.resource && Inhabited(objs, s.ns)
      then Some(AppsIn(objs, s.ns)) else Get(c, s)
  }

  /** What a handler believes of a slot: nothing of other kubeconfigs, and objects outside namespaces
      are not counted. */
  ghost function Believes(h: Source, objs: set<Object>, s: Slot): set<string> {
    if s.kube == h.kube && s.ns != "" then AppsIn(objs, s.ns) else {}
  }

  /** The cache after a handler recomputed every existing entry of its resource name, whosever it is. */
  ghost predicate Recomputed(c: Cache, h: Source, objs: set<Object>, c': Cache) {
    forall s :: Get(c', s) ==
      if s.resource == h.gvr.resource && s in c then Some(Believes(h, objs, s)) else Get(c, s)
  }

  datatype Gvr = Gvr(group: string, version: string, resource: string)

  /** What a handler watches: a kind, seen with a kubeconfig, in one namespace or, if that is empty, in
      all of them. */
  datatype Source = Source(kube: string, scope: string, gvr: Gvr) {
    predicate Sees(ns: string) {
      scope == "" || ns == scope
    }
  }

  class Handler {
    const source: Source
    var nextTime: int

    constructor (source: Source, now: int)
      ensures this.source == source && nextTime == now
    {
      this.source, nextTime := source, now;
    }

    /** `list` is the informer store in some order. */
    method HandleAddOrUpdate(list: seq<Object>, c: Cache) returns (c': Cache)
      ensures Refreshed(c, source, SetOf(list), c')
    {
      var left := GroupByNamespace(list);
      ghost var g := left;
      c' := c;
      for i := 0 to |list|
        invariant forall ns :: ns in left <==> ns in g && forall j :: 0 <= j < i ==> list[j].ns != ns
        invariant forall ns :: ns in left ==> left[ns] == g[ns]
        invariant forall s :: Get(c', s) == (if Mine(s) && s.ns in g && s.ns !in left
                                             then Some(g[s.ns]) else Get(c, s))
      {
        var ns := list[i].ns;
        if ns != "" && ns in left {
          c' := c'[Slot(source.kube, ns, source.gvr.resource) := left[ns]];
          left := left - {ns};
        }
      }
      forall ns | ns in g ensures ns !in left {
        assert Inhabited(SetOf(list), ns);
      }
    }

    ghost predicate Mine(s: Slot) {
      s.kube == source.kube && s.resource == source.gvr.resource
    }

    /** Additions and updates: at most one refresh in five seconds. */
    method OnAddOrUpdate(list: seq<Object>, now: int, c: Cache) returns (c': Cache)
      modifies this
      ensures if old(nextTime) > now then c' == c && nextTime == old(nextTime)
              else Refreshed(c, source, SetOf(list), c') && nextTime == now + 5
    {
      if nextTime > now {
        return c;
      }
      c' := HandleAddOrUpdate(list, c);
      nextTime := now + THROTTLE;
    }

    method OnDelete(list: seq<Object>, c: Cache) returns (c': Cache)
      ensures Recomputed(c, source, SetOf(list), c')
    {
      var g := GroupByNamespace(list);
      ghost var objs := SetOf(list);
      c' := c;
      var todo := c.Keys;
      while todo != {}
        invariant todo <= c.Keys
        invariant forall s :: Get(c', s) == (if s.resource == source.gvr.resource && s in c && s !in todo
                                             then Some(Believes(source, objs, s)) else Get(c, s))
        decreases todo
      {
        var s :| s in todo;
        if s.resource == source.gvr.resource {
          if s.ns !in g && s.ns != "" {
            NobodyHome(objs, s.ns);
          }
          c' := c'[s := if s.kube == source.kube && s.ns in g then g[s.ns] else {}];
        }
        todo := todo - {s};
      }
    }
  }

  // ---------------------------------------------------------------- runs of informer events

  datatype Id = Id(ns: string, name: string)

  type Store = map<Id, Object>

  /** Any number of handlers share one cache; each has its own store and throttle. */
  datatype World = World(sources: map<nat, Source>, stores: map<nat, Store>, next: map<nat, int>, cache: Cache)

  function Objects(w: World, h: nat): set<Object> {
    if h in w.stores then w.stores[h].Values else {}
  }

  datatype Event =
    | Stored(h: nat, o: Object, now: int)
    | Deleted(h: nat, id: Id)

  predicate Open(w: World, e: Event) {
    e.Stored? ==> e.h !in w.next || w.next[e.h] <= e.now
  }

  /** The store changes, then its handler runs. */
  ghost predicate Step(w: World, e: Event, w': World) {
    && e.h in w.sources && e.h in w.stores && w'.sources == w.sources
    && var source := w.sources[e.h];
       match e
       case Stored(h, o, now) =>
         var stores := w.stores[h := w.stores[h][Id(o.ns, o.name) := o]];
         && source.Sees(o.ns) && w'.stores == stores
         && (if Open(w, e)
             then Refreshed(w.cache, source, stores[h].Values, w'.cache) && w'.next == w.next[h := now + THROTTLE]
             else w'.cache == w.cache && w'.next == w.next)
       case Deleted(h, id) =>
         var stores := w.stores[h := w.stores[h] - {id}];
         && w'.stores == stores && w'.next == w.next
         && Recomputed(w.cache, source, stores[h].Values, w'.cache)
  }

  ghost predicate IsRun(ws: seq<World>, es: seq<Event>) {
    && |ws| == |es| + 1
    && ws[0].cache == map[] && (forall h :: h in ws[0].stores ==> ws[0].stores[h] == map[])
    && forall i :: 0 <= i < |es| ==> Step(ws[i], es[i], ws[i + 1])
  }

  ghost predicate AllOpen(ws: seq<World>, es: seq<Event>)
    requires |ws| == |es| + 1
  {
    forall j :: 0 <= j < |es| ==> Open(ws[j], es[j])
  }

  /** Stores are keyed by namespace and name. */
  ghost predicate Keyed(w: World) {
    forall h, id :: h in w.stores && id in w.stores[h] ==> w.stores[h][id].ns == id.ns
  }

  // ---------------------------------------------------------------- what the cache should say

  /** Handler `h` has objects that belong to a slot. */
  ghost predicate Lives(w: World, h: nat, s: Slot) {
    && h in w.sources && s.kube == w.sources[h].kube && s.resource == w.sources[h].gvr.resource
    && Inhabited(Objects(w, h), s.ns)
  }

  /** The names a handler has for a slot. */
  ghost function Names(w: World, h: nat, s: Slot): set<string> {
    if Lives(w, h, s) then AppsIn(Objects(w, h), s.ns) else {}
  }

  /** The cached names of a slot are those of all handlers together. */
  ghost predicate Exact(w: World, s: Slot) {
    forall a :: a in Cached(w.cache, s) <==> exists h :: a in Names(w, h, s)
  }

  ghost predicate ExactFor(w: World, r: string) {
    forall s: Slot :: s.resource == r ==> Exact(w, s)
  }

  lemma NamesAre(w: World, h: nat, s: Slot)
    requires h in w.sources && s.resource == w.sources[h].gvr.resource
    ensures Names(w, h, s) == Believes(w.sources[h], Objects(w, h), s)
    ensures Names(w, h, s) == {} <==> !Lives(w, h, s)
  {
    if Lives(w, h, s) {
      var o :| o in Objects(w, h) && o.ns == s.ns;
      assert AppName(o) in AppsIn(Objects(w, h), s.ns);
    } else if s.ns != "" && s.kube == w.sources[h].kube {
      NobodyHome(Objects(w, h), s.ns);
    }
  }

  /** Who decides about a slot at an event. */
  ghost predicate Writes(w: World, e: Event, w': World, s: Slot)
    requires e.h in w.sources
  {
    && s.resource == w.sources[e.h].gvr.resource
    && if e.Stored? then Open(w, e) && Lives(w', e.h, s) else s in w.cache
  }

  lemma WrittenIs(w: World, e: Event, w': World, s: Slot)
    requires Step(w, e, w')
    ensures Get(w'.cache, s) == if Writes(w, e, w', s) then Some(Names(w', e.h, s)) else Get(w.cache, s)
  {
    if s.resource == w.sources[e.h].gvr.resource {
      NamesAre(w', e.h, s);
    }
  }

  lemma StillInhabited(m: Store, o: Object, ns: string)
    requires forall id :: id in m ==> m[id].ns == id.ns
    requires Inhabited(m.Values, ns)
    ensures Inhabited(m[Id(o.ns, o.name) := o].Values, ns)
  {
    var x :| x in m.Values && x.ns == ns;
    var id :| id in m && m[id] == x;
    var m' := m[Id(o.ns, o.name) := o];
    assert m'[id] in m'.Values && m'[id].ns == ns;
  }

  /** Storing an object changes the names of its own namespace only. */
  lemma OtherNamespaces(m: Store, o: Object, ns: string)
    requires (forall id :: id in m ==> m[id].ns == id.ns) && ns != o.ns
    ensures var m' := m[Id(o.ns, o.name) := o];
            Inhabited(m'.Values, ns) == Inhabited(m.Values, ns) && AppsIn(m'.Values, ns) == AppsIn(m.Values, ns)
  {
    var m' := m[Id(o.ns, o.name) := o];
    forall x: Object | x.ns == ns ensures x in m'.Values <==> x in m.Values {
      if x in m.Values {
        var id :| id in m && m[id] == x;
        assert m'[id] == x;
      }
    }
  }

  lemma LivesStep(w: World, e: Event, w': World, h: nat, s: Slot)
    requires Step(w, e, w') && Keyed(w)
    ensures h != e.h ==> Names(w', h, s) == Names(w, h, s) && Lives(w', h, s) == Lives(w, h, s)
    ensures e.Stored? && Lives(w, h, s) ==> Lives(w', h, s)
    ensures e.Stored? && s.ns != e.o.ns ==> Names(w', h, s) == Names(w, h, s)
    ensures e.Deleted? && Lives(w', h, s) ==> Lives(w, h, s)
  {
    if h == e.h && e.Stored? {
      if Lives(w, h, s) {
        StillInhabited(w.stores[h], e.o, s.ns);
      }
      if s.ns != e.o.ns {
        OtherNamespaces(w.stores[h], e.o, s.ns);
      }
    }
  }

  lemma KeyedStep(w: World, e: Event, w': World)
    requires Step(w, e, w') && Keyed(w)
    ensures Keyed(w')
  {
  }

  // ---------------------------------------------------------------- any clock

  /** A slot in which nobody lives has no names cached. */
  ghost predicate EmptyIsEmpty(w: World) {
    forall s: Slot :: (forall h :: !Lives(w, h, s)) ==> Cached(w.cache, s) == {}
  }

  lemma StepKeepsEmpty(w: World, e: Event, w': World)
    requires Step(w, e, w') && Keyed(w) && EmptyIsEmpty(w)
    ensures Keyed(w') && EmptyIsEmpty(w')
  {
    KeyedStep(w, e, w');
    forall s | forall h :: !Lives(w', h, s) ensures Cached(w'.cache, s) == {} {
      WrittenIs(w, e, w', s);
      if !Writes(w, e, w', s) && s in w.cache {
        forall h ensures !Lives(w, h, s) {
          LivesStep(w, e, w', h, s);
        }
        assert Cached(w.cache, s) == {};
      }
    }
  }

  /** In every run of any handlers with any clock, namespaces in which nobody has objects have no
      names cached. */
  lemma {:induction false} RunKeepsEmpty(ws: seq<World>, es: seq<Event>, i: nat)
    requires IsRun(ws, es) && i <= |es|
    ensures Keyed(ws[i]) && EmptyIsEmpty(ws[i])
  {
    if i > 0 {
      RunKeepsEmpty(ws, es, i - 1);
      StepKeepsEmpty(ws[i - 1], es[i - 1], ws[i]);
    }
  }

  /** After a deletion the cache is exact for its resource name if and only if every name that any
      handler has for the resource, the deleting handler has too, and the slots it lives in have
      entries. */
  lemma DeleteIsExactExactly(w: World, e: Event, w': World)
    requires Step(w, e, w') && e.Deleted?
    ensures ExactFor(w', w.sources[e.h].gvr.resource) <==>
            forall h, s: Slot :: s.resource == w.sources[e.h].gvr.resource && Lives(w', h, s) ==>
              s in w.cache && Names(w', h, s) <= Names(w', e.h, s)
  {
    var r := w.sources[e.h].gvr.resource;
    if ExactFor(w', r) {
      forall h, s: Slot | s.resource == r && Lives(w', h, s)
        ensures s in w.cache && Names(w', h, s) <= Names(w', e.h, s)
      {
        WrittenIs(w, e, w', s);
        NamesAre(w', h, s);
        assert Exact(w', s);
        var a :| a in Names(w', h, s);
        assert a in Cached(w'.cache, s);
      }
    }
    if forall h, s: Slot :: s.resource == r && Lives(w', h, s) ==>
         s in w.cache && Names(w', h, s) <= Names(w', e.h, s) {
      forall s: Slot | s.resource == r ensures Exact(w', s) {
        WrittenIs(w, e, w', s);
        forall h, a | a in Names(w', h, s) ensures a in Cached(w'.cache, s) {
          assert Lives(w', h, s);
        }
      }
    }
  }

  /** After a handler of an addition or update that is not throttled, a slot it lives in is exact if
      and only if it has every name that any handler has there. */
  lemma RefreshIsExactExactly(w: World, e: Event, w': World, s: Slot)
    requires Step(w, e, w') && e.Stored? && Open(w, e) && Lives(w', e.h, s)
    ensures Exact(w', s) <==> forall h :: Names(w', h, s) <= Names(w', e.h, s)
  {
    WrittenIs(w, e, w', s);
    assert Cached(w'.cache, s) == Names(w', e.h, s);
  }

  /** No other handler writes under the same resource name. */
  ghost predicate Alone(sources: map<nat, Source>, h: nat) {
    h in sources && forall g :: g in sources && sources[g].gvr.resource == sources[h].gvr.resource ==> g == h
  }

  lemma {:induction false} SourcesStay(ws: seq<World>, es: seq<Event>, i: nat)
    requires IsRun(ws, es) && i <= |es|
    ensures ws[i].sources == ws[0].sources
  {
    if i > 0 {
      SourcesStay(ws, es, i - 1);
    }
  }

  /** With any clock, whatever was skipped before, a handler of an addition or update that is not
      throttled, and alone with its resource name, makes the cache exact for that name, namespaces
      that became empty included. */
  lemma OpenHandlerIsExact(ws: seq<World>, es: seq<Event>, i: nat)
    requires IsRun(ws, es) && i < |es| && es[i].Stored? && Open(ws[i], es[i])
    requires Alone(ws[i].sources, es[i].h)
    ensures ExactFor(ws[i + 1], ws[i].sources[es[i].h].gvr.resource)
  {
    var w, e, w' := ws[i], es[i], ws[i + 1];
    RunKeepsEmpty(ws, es, i + 1);
    forall s: Slot | s.resource == w.sources[e.h].gvr.resource ensures Exact(w', s) {
      assert forall h :: h != e.h ==> !Lives(w', h, s);
      if Lives(w', e.h, s) {
        RefreshIsExactExactly(w, e, w', s);
      }
    }
  }

  // ---------------------------------------------------------------- the throttle open throughout

  /** Who wrote a slot last. */
  type Writers = map<Slot, nat>

  /** Every entry says what its last writer has now, and every slot somebody lives in has an entry. */
  ghost predicate Written(w: World, last: Writers) {
    && last.Keys == w.cache.Keys
    && (forall s :: s in last ==> w.cache[s] == Names(w, last[s], s))
    && (forall h, s :: Lives(w, h, s) ==> s in w.cache)
  }

  ghost function NewWriters(w: World, e: Event, w': World, last: Writers): Writers
    requires e.h in w.sources
  {
    map s | s in w'.cache :: if Writes(w, e, w', s) then e.h else if s in last then last[s] else 0
  }

  lemma OpenStepWritten(w: World, e: Event, w': World, last: Writers)
    requires Step(w, e, w') && Keyed(w) && Open(w, e) && Written(w, last)
    ensures Written(w', NewWriters(w, e, w', last))
  {
    var last' := NewWriters(w, e, w', last);
    forall s | s in last' ensures w'.cache[s] == Names(w', last'[s], s) {
      WrittenIs(w, e, w', s);
      if !Writes(w, e, w', s) {
        NotWritten(w, e, w', last[s], s);
      }
    }
    forall h, s | Lives(w', h, s) ensures s in w'.cache {
      WrittenIs(w, e, w', s);
      LivesStep(w, e, w', h, s);
      if h == e.h && e.Stored? {
        assert Writes(w, e, w', s);
      }
    }
  }

  /** A slot that an open handler does not write keeps its names, whoever has them. */
  lemma NotWritten(w: World, e: Event, w': World, h: nat, s: Slot)
    requires Step(w, e, w') && Keyed(w) && Open(w, e) && s in w.cache && !Writes(w, e, w', s)
    ensures Names(w', h, s) == Names(w, h, s)
  {
    LivesStep(w, e, w', h, s);
  }

  /** The last writers of the slots after a run. */
  ghost function LastWriters(ws: seq<World>, es: seq<Event>, i: nat): Writers
    requires IsRun(ws, es) && i <= |es|
  {
    if i == 0 then map[] else NewWriters(ws[i - 1], es[i - 1], ws[i], LastWriters(ws, es, i - 1))
  }

  /** With the throttle open, in every run of any handlers, every cached entry is what its last writer
      would recompute now. */
  lemma {:induction false} OpenRunWritten(ws: seq<World>, es: seq<Event>, i: nat)
    requires IsRun(ws, es) && AllOpen(ws, es) && i <= |es|
    ensures Written(ws[i], LastWriters(ws, es, i))
  {
    if i == 0 {
      assert forall h :: Objects(ws[0], h) == {};
    } else {
      OpenRunWritten(ws, es, i - 1);
      RunKeepsEmpty(ws, es, i - 1);
      OpenStepWritten(ws[i - 1], es[i - 1], ws[i], LastWriters(ws, es, i - 1));
    }
  }

  /** So in every such run a slot is exact if and only if it has no entry, or its last writer has every
      name that any handler has for it. */
  lemma OpenRunIsExactExactly(ws: seq<World>, es: seq<Event>, i: nat, s: Slot)
    requires IsRun(ws, es) && AllOpen(ws, es) && i <= |es|
    ensures var last := LastWriters(ws, es, i);
            Exact(ws[i], s) <==> s !in last || forall h :: Names(ws[i], h, s) <= Names(ws[i], last[s], s)
  {
    OpenRunWritten(ws, es, i);
    var w, last := ws[i], LastWriters(ws, es, i);
    if s in last {
      assert Cached(w.cache, s) == Names(w, last[s], s);
    } else {
      assert forall h :: !Lives(w, h, s);
    }
  }

  /** With the throttle open, the handler that is alone with its resource name keeps the cache exact
      for that name after every event of every run. */
  lemma OpenRunIsExact(ws: seq<World>, es: seq<Event>, i: nat, h: nat)
    requires IsRun(ws, es) && AllOpen(ws, es) && i <= |es| && Alone(ws[0].sources, h)
    ensures ExactFor(ws[i], ws[0].sources[h].gvr.resource)
  {
    SourcesStay(ws, es, i);
    forall s: Slot | s.resource == ws[0].sources[h].gvr.resource ensures Exact(ws[i], s) {
      OpenRunIsExactExactly(ws, es, i, s);
      OpenRunWritten(ws, es, i);
      AloneIsWriter(ws, es, i, h, s);
    }
  }

  lemma {:induction false} AloneIsWriter(ws: seq<World>, es: seq<Event>, i: nat, h: nat, s: Slot)
    requires IsRun(ws, es) && i <= |es| && Alone(ws[0].sources, h) && AllOpen(ws, es)
    requires s.resource == ws[0].sources[h].gvr.resource
    ensures s in LastWriters(ws, es, i) ==> LastWriters(ws, es, i)[s] == h
  {
    if i > 0 {
      AloneIsWriter(ws, es, i - 1, h, s);
      SourcesStay(ws, es, i - 1);
      OpenRunWritten(ws, es, i - 1);
      WrittenIs(ws[i - 1], es[i - 1], ws[i], s);
    }
  }

  /** A handler that sees all namespaces gets an object in one, then, throttled, one in another; then the
      first is deleted. */
  function MissedEvents(): seq<Event> {
    [Stored(0, Named("a"), 0), Stored(0, Named("b"), 1), Deleted(0, Id("a", "web"))]
  }

  function MissedWorlds(gvr: Gvr): seq<World> {
    var sources, slot := map[0 := Source("admin", "", gvr)], Slot("admin", "a", gvr.resource);
    var a, b := map[Id("a", "web") := Named("a")], map[Id("b", "web") := Named("b")];
    [World(sources, map[0 := map[]], map[], map[]),
     World(sources, map[0 := a], map[0 := THROTTLE], map[slot := {"shop"}]),
     World(sources, map[0 := a[Id("b", "web") := Named("b")]], map[0 := THROTTLE], map[slot := {"shop"}]),
     World(sources, map[0 := b], map[0 := THROTTLE], map[slot := {}])]
  }

  lemma MissedIsRun(gvr: Gvr)
    ensures IsRun(MissedWorlds(gvr), MissedEvents())
  {
    var ws, es, me := MissedWorlds(gvr), MissedEvents(), Source("admin", "", gvr);
    OneObject(Id("a", "web"), Named("a"));
    OneObject(Id("b", "web"), Named("b"));
    NamedRefresh(map[], me, "a", ws[1].cache);
    assert Step(ws[0], es[0], ws[1]);
    assert ws[2].stores[0] - {Id("a", "web")} == ws[3].stores[0];
    NamedInhabits("b", "a");
    assert Recomputed(ws[2].cache, me, {Named("b")}, ws[3].cache);
    assert Step(ws[2], es[2], ws[3]);
  }

  /** Even alone, a handler that was throttled when a namespace got its first object leaves that
      namespace out when it recomputes at a deletion. */
  lemma ThrottledNamespaceIsMissed(gvr: Gvr)
    ensures var ws := MissedWorlds(gvr);
            && IsRun(ws, MissedEvents()) && Alone(ws[0].sources, 0)
            && Cached(ws[3].cache, Slot("admin", "b", gvr.resource)) == {}
            && AppsIn(Objects(ws[3], 0), "b") == {"shop"}
  {
    MissedIsRun(gvr);
    OneObject(Id("b", "web"), Named("b"));
    NamedInhabits("b", "b");
  }

  lemma NamedRefresh(c: Cache, h: Source, home: string, c': Cache)
    requires home != "" && c' == c[Slot(h.kube, home, h.gvr.resource) := {"shop"}]
    ensures Refreshed(c, h, {Named(home)}, c')
  {
    forall s: Slot ensures Get(c', s) ==
      (if s.kube == h.kube && s.resource == h.gvr.resource && Inhabited({Named(home)}, s.ns)
       then Some(AppsIn({Named(home)}, s.ns)) else Get(c, s))
    {
      NamedInhabits(home, s.ns);
    }
  }

  function Named(ns: string): Object {
    Object(ns, "web", map[APP_NAME := "shop"], false, [], map[])
  }

  lemma NamedInhabits(home: string, ns: string)
    requires home != ""
    ensures Inhabited({Named(home)}, ns) <==> ns == home
    ensures AppsIn({Named(home)}, ns) == if ns == home then {"shop"} else {}
  {
    assert Named(home) in {Named(home)};
    assert AppName(Named(home)) == "shop";
  }

  lemma OneObject(k: Id, o: Object)
    ensures map[k := o].Values == {o} && (map[k := o] - {k}).Values == {}
  {
    assert map[k := o][k] == o;
  }

  // ---------------------------------------------------------------- handlers that share a name

  /** Stores of one kind seen with one kubeconfig agree where both see, and no two kinds of a resource
      name both have objects in a slot. */
  ghost predicate Consistent(w: World) {
    && (forall h, ns :: h in w.sources && Inhabited(Objects(w, h), ns) ==> w.sources[h].Sees(ns))
    && (forall g, h, s :: Lives(w, g, s) && h in w.sources && h in w.stores ==>
          && (w.sources[h].kube == s.kube && w.sources[h].gvr == w.sources[g].gvr && w.sources[h].Sees(s.ns) ==>
                Names(w, h, s) == Names(w, g, s))
          && (w.sources[h].gvr != w.sources[g].gvr ==> !Lives(w, h, s)))
  }

  /** After a deletion, and as long as stores are consistent and entries complete, the cache is exact for
      the resource name if and only if all its objects are of the deleting handler's kind and
      kubeconfig and in the namespaces it sees.  A cluster administrator's handler sees all. */
  lemma DeleteNeedsScope(w: World, e: Event, w': World)
    requires Step(w, e, w') && e.Deleted? && Consistent(w')
    requires forall h, s :: Lives(w', h, s) ==> s in w.cache
    ensures var me := w.sources[e.h];
            ExactFor(w', me.gvr.resource) <==>
            forall h, s: Slot :: s.resource == me.gvr.resource && Lives(w', h, s) ==>
              s.kube == me.kube && me.Sees(s.ns) && w.sources[h].gvr == me.gvr
  {
    DeleteIsExactExactly(w, e, w');
    var me := w.sources[e.h];
    forall h, s: Slot | s.resource == me.gvr.resource && Lives(w', h, s)
      ensures Names(w', h, s) <= Names(w', e.h, s) <==>
              s.kube == me.kube && me.Sees(s.ns) && w.sources[h].gvr == me.gvr
    {
      NamesAre(w', h, s);
      NamesAre(w', e.h, s);
    }
  }

  // ---------------------------------------------------------------- when every run is exact

  function Home(h: Source): string {
    if h.scope == "" then "default" else h.scope
  }

  function Sample(h: Source): Object {
    Named(Home(h))
  }

  function SlotOf(h: Source): Slot {
    Slot(h.kube, Home(h), h.gvr.resource)
  }

  /** One handler stores an object; another of the same resource name stores one and deletes it. */
  function Emptying(g: nat, h: nat, sources: map<nat, Source>): seq<Event>
    requires g in sources && h in sources
  {
    var o := Sample(sources[h]);
    [Stored(g, Sample(sources[g]), 0), Stored(h, o, 0), Deleted(h, Id(o.ns, o.name))]
  }

  function EmptyingWorlds(g: nat, h: nat, sources: map<nat, Source>): seq<World>
    requires g in sources && h in sources
  {
    var a, b := Sample(sources[g]), Sample(sources[h]);
    var blank := map k | k in sources :: map[];
    var one := blank[g := map[Id(a.ns, a.name) := a]];
    var two := one[h := map[Id(b.ns, b.name) := b]];
    var first := map[SlotOf(sources[g]) := {"shop"}];
    var second := first[SlotOf(sources[h]) := {"shop"}];
    [World(sources, blank, map[], map[]),
     World(sources, one, map[g := THROTTLE], first),
     World(sources, two, map[g := THROTTLE, h := THROTTLE], second),
     World(sources, one, map[g := THROTTLE, h := THROTTLE], map s | s in second :: {})]
  }

  lemma EmptyingSteps(g: nat, h: nat, sources: map<nat, Source>)
    requires g in sources && h in sources && g != h && sources[g].gvr.resource == sources[h].gvr.resource
    ensures var ws, es := EmptyingWorlds(g, h, sources), Emptying(g, h, sources);
            Step(ws[0], es[0], ws[1]) && Step(ws[1], es[1], ws[2])
  {
    var ws, es := EmptyingWorlds(g, h, sources), Emptying(g, h, sources);
    var a, b := Sample(sources[g]), Sample(sources[h]);
    OneObject(Id(a.ns, a.name), a);
    OneObject(Id(b.ns, b.name), b);
    NamedRefresh(ws[0].cache, sources[g], a.ns, ws[1].cache);
    NamedRefresh(ws[1].cache, sources[h], b.ns, ws[2].cache);
  }

  lemma EmptyingIsRun(g: nat, h: nat, sources: map<nat, Source>)
    requires g in sources && h in sources && g != h && sources[g].gvr.resource == sources[h].gvr.resource
    ensures IsRun(EmptyingWorlds(g, h, sources), Emptying(g, h, sources))
    ensures AllOpen(EmptyingWorlds(g, h, sources), Emptying(g, h, sources))
  {
    var ws, es := EmptyingWorlds(g, h, sources), Emptying(g, h, sources);
    EmptyingSteps(g, h, sources);
    var b := Sample(sources[h]);
    OneObject(Id(b.ns, b.name), b);
    assert ws[3].stores == ws[2].stores[h := ws[2].stores[h] - {Id(b.ns, b.name)}];
    NothingBelieved(sources[h], ws[2].cache, ws[3].cache);
    assert Step(ws[2], es[2], ws[3]);
  }

  lemma NothingBelieved(h: Source, c: Cache, c': Cache)
    requires (forall s :: s in c ==> s.resource == h.gvr.resource) && c' == map s | s in c :: {}
    ensures Recomputed(c, h, {}, c')
  {
    forall s: Slot ensures Believes(h, {}, s) == {} {
    }
  }

  /** Two handlers that share a resource name, whatever they watch otherwise, have a run in which the
      deletion of one handler's object makes the other's names disappear. */
  lemma SharedNameIsEmptied(g: nat, h: nat, sources: map<nat, Source>)
    requires g in sources && h in sources && g != h && sources[g].gvr.resource == sources[h].gvr.resource
    ensures var ws := EmptyingWorlds(g, h, sources);
            IsRun(ws, Emptying(g, h, sources)) && AllOpen(ws, Emptying(g, h, sources)) &&
            Cached(ws[3].cache, SlotOf(sources[g])) == {} && "shop" in Names(ws[3], g, SlotOf(sources[g]))
  {
    EmptyingIsRun(g, h, sources);
    var ws := EmptyingWorlds(g, h, sources);
    OneObject(Id(Home(sources[g]), "web"), Sample(sources[g]));
    NamedInhabits(Home(sources[g]), Home(sources[g]));
  }

  /** Handlers as they are installed: with the throttle open the cache is exact for a resource name after
      every event of every run if and only if at most one handler writes under that name. */
  lemma AlwaysExactExactly(sources: map<nat, Source>, r: string)
    ensures (forall ws: seq<World>, es ::
               IsRun(ws, es) && AllOpen(ws, es) && ws[0].sources == sources ==> ExactFor(ws[|es|], r))
            <==> forall g, h :: g in sources && h in sources && sources[g].gvr.resource == r == sources[h].gvr.resource
                                ==> g == h
  {
    if g, h :| g in sources && h in sources && sources[g].gvr.resource == r == sources[h].gvr.resource && g != h {
      SharedNameIsEmptied(g, h, sources);
      var ws, es := EmptyingWorlds(g, h, sources), Emptying(g, h, sources);
      assert |es| == 3 && "shop" in Names(ws[3], g, SlotOf(sources[g]));
      assert "shop" !in Cached(ws[3].cache, SlotOf(sources[g]));
      assert !Exact(ws[|es|], SlotOf(sources[g]));
      assert !ExactFor(ws[|es|], r);
    } else {
      forall ws: seq<World>, es | IsRun(ws, es) && AllOpen(ws, es) && ws[0].sources == sources
        ensures ExactFor(ws[|es|], r)
      {
        if h :| h in sources && sources[h].gvr.resource == r {
          OpenRunIsExact(ws, es, |es|, h);
        } else {
          NobodyWrites(ws, es, |es|, r);
        }
      }
    }
  }

  lemma NobodyWrites(ws: seq<World>, es: seq<Event>, i: nat, r: string)
    requires IsRun(ws, es) && i <= |es|
    requires forall h :: h in ws[0].sources ==> ws[0].sources[h].gvr.resource != r
    ensures ExactFor(ws[i], r)
  {
    SourcesStay(ws, es, i);
    RunKeepsEmpty(ws, es, i);
    forall s: Slot | s.resource == r ensures Exact(ws[i], s) {
      assert forall h :: !Lives(ws[i], h, s);
    }
  }

  /** In particular, with one searcher of a cluster administrator, whose kinds have different resource
      names, the whole cache is exact after every event. */
  lemma ClusterAdminIsExact(ws: seq<World>, es: seq<Event>, i: nat, kube: string, r: string)
    requires IsRun(ws, es) && AllOpen(ws, es) && i <= |es|
    requires forall h :: h in ws[0].sources ==> ws[0].sources[h].kube == kube && ws[0].sources[h].scope == ""
    requires forall g, h :: g in ws[0].sources && h in ws[0].sources && g != h ==>
               ws[0].sources[g].gvr.resource != ws[0].sources[h].gvr.resource
    ensures ExactFor(ws[i], r)
  {
    if h :| h in ws[0].sources && ws[0].sources[h].gvr.resource == r {
      OpenRunIsExact(ws, es, i, h);
    } else {
      NobodyWrites(ws, es, i, r);
    }
  }

  /** A user who is not a cluster administrator and works in two namespaces: a deployment deleted in one
      makes the cached applications of the other disappear. */
  lemma DeletionEmptiesOtherNamespace(gvr: Gvr)
    ensures var a, b := Source("user", "a", gvr), Source("user", "b", gvr);
            var ws := EmptyingWorlds(0, 1, map[0 := a, 1 := b]);
            && IsRun(ws, Emptying(0, 1, map[0 := a, 1 := b]))
            && Cached(ws[2].cache, Slot("user", "a", gvr.resource)) == {"shop"}
            && Cached(ws[3].cache, Slot("user", "a", gvr.resource)) == {}
            && AppsIn(Objects(ws[3], 0), "a") == {"shop"}
  {
    var sources := map[0 := Source("user", "a", gvr), 1 := Source("user", "b", gvr)];
    SharedNameIsEmptied(0, 1, sources);
    var ws := EmptyingWorlds(0, 1, sources);
    OneObject(Id("a", "web"), Sample(sources[0]));
    NamedInhabits("a", "a");
  }

  // ---------------------------------------------------------------- asking

  method GetAllAppNameByNamespace(c: Cache, kube: string, ns: string) returns (apps: set<string>)
    ensures forall a :: a in apps <==> exists r :: a in Cached(c, Slot(kube, ns, r))
  {
    apps := {};
    var todo := c.Keys;
    while todo != {}
      invariant todo <= c.Keys
      invariant forall a :: a in apps <==> exists s: Slot ::
                  s in c && s !in todo && s.kube == kube && s.ns == ns && a in c[s]
      decreases todo
    {
      var s :| s in todo;
      if s.kube == kube && s.ns == ns {
        apps := apps + c[s];
      }
      todo := todo - {s};
    }
    forall a ensures a in apps <==> exists r :: a in Cached(c, Slot(kube, ns, r)) {
      if a in apps {
        var s: Slot :| s in c && s.kube == kube && s.ns == ns && a in c[s];
        assert s == Slot(kube, ns, s.resource) && a in Cached(c, Slot(kube, ns, s.resource));
      }
      if r :| a in Cached(c, Slot(kube, ns, r)) {
        assert Slot(kube, ns, r) in c;
      }
    }
  }
}
