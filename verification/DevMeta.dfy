/** The dev-mode table of one application and the event stream that describes its changes.

    A table maps a workload type to a map from resource name to the identifier of the
    developer who holds it.  `Events` compares two tables and lists what ended and what
    started; listeners replay that list. */
module DevMeta {
  import opened Common

  datatype EventKind = DevEnd | DevSta
  datatype Event = Event(kind: EventKind, devType: string, name: string, id: string)
  datatype Key = Key(devType: string, name: string)

  type Table = map<string, map<string, string>>
  type Owners = map<Key, string>

  function KeyOf(e: Event): Key {
    Key(e.devType, e.name)
  }

  /** Who holds a workload, if anyone. */
  function Owner(t: Table, k: Key): Option<string> {
    if k.devType in t then Get(t[k.devType], k.name) else None
  }

  /** The table as one map; inner maps that are empty contribute nothing. */
  ghost function Flat(t: Table): Owners {
    map d, n | d in t && n in t[d] :: Key(d, n) := t[d][n]
  }

  lemma FlatAt(t: Table, k: Key)
    ensures Get(Flat(t), k) == Owner(t, k)
  {
    assert k == Key(k.devType, k.name);
  }

  // ---------------------------------------------------------------- replaying events

  ghost function Apply(m: Owners, e: Event): Owners {
    if e.kind.DevEnd? then m - {KeyOf(e)} else m[KeyOf(e) := e.id]
  }

  ghost function Replay(m: Owners, es: seq<Event>): Owners {
    if es == [] then m else Apply(Replay(m, es[..|es| - 1]), es[|es| - 1])
  }

  /** The events about one workload, in order. */
  ghost function EventsOf(es: seq<Event>, k: Key): seq<Event> {
    if es == [] then []
    else
      var rest := EventsOf(es[..|es| - 1], k);
      if KeyOf(es[|es| - 1]) == k then rest + [es[|es| - 1]] else rest
  }

  lemma {:induction false} EventsOfConcat(a: seq<Event>, b: seq<Event>, k: Key)
    ensures EventsOf(a + b, k) == EventsOf(a, k) + EventsOf(b, k)
  {
    if b == [] {
      assert a + b == a;
    } else {
      assert (a + b)[..|a + b| - 1] == a + b[..|b| - 1];
      EventsOfConcat(a, b[..|b| - 1], k);
    }
  }

  lemma EventsOfPush(es: seq<Event>, e: Event, k: Key)
    ensures EventsOf(es + [e], k) == if KeyOf(e) == k then EventsOf(es, k) + [e] else EventsOf(es, k)
  {
    assert (es + [e])[..|es|] == es;
  }

  /** One workload's own story: a start only when nobody holds it, an end only by its holder. */
  ghost predicate LegalRun(o: Option<string>, es: seq<Event>, o': Option<string>)
    decreases |es|
  {
    if es == [] then o == o'
    else if es[0].kind.DevSta? then o.None? && LegalRun(Some(es[0].id), es[1..], o')
    else o == Some(es[0].id) && LegalRun(None, es[1..], o')
  }

  lemma {:induction false} LegalRunConcat(o: Option<string>, a: seq<Event>, o': Option<string>,
                                          b: seq<Event>, o'': Option<string>)
    requires LegalRun(o, a, o') && LegalRun(o', b, o'')
    ensures LegalRun(o, a + b, o'')
    decreases |a|
  {
    if a == [] {
      assert a + b == b;
    } else {
      var mid := if a[0].kind.DevSta? then Some(a[0].id) else None;
      LegalRunConcat(mid, a[1..], o', b, o'');
      assert (a + b)[1..] == a[1..] + b;
    }
  }

  /** The last event of a legal story says who holds the workload afterwards. */
  lemma {:induction false} LegalRunEnd(o: Option<string>, es: seq<Event>, o': Option<string>)
    requires LegalRun(o, es, o') && es != []
    decreases |es|
    ensures o' == if es[|es| - 1].kind.DevSta? then Some(es[|es| - 1].id) else None
  {
    var mid := if es[0].kind.DevSta? then Some(es[0].id) else None;
    if |es| == 1 {
      assert LegalRun(mid, [], o');
    } else {
      LegalRunEnd(mid, es[1..], o');
    }
  }

  /** Replaying a log touches a workload only through the events about that workload. */
  lemma {:induction false} ReplayAt(m: Owners, es: seq<Event>, k: Key)
    ensures var mine := EventsOf(es, k);
            Get(Replay(m, es), k) ==
            if mine == [] then Get(m, k)
            else if mine[|mine| - 1].kind.DevSta? then Some(mine[|mine| - 1].id) else None
  {
    if es != [] {
      ReplayAt(m, es[..|es| - 1], k);
    }
  }

  lemma LegalReplayAt(from: Table, es: seq<Event>, to: Table, k: Key)
    requires LegalRun(Owner(from, k), EventsOf(es, k), Owner(to, k))
    ensures Get(Replay(Flat(from), es), k) == Get(Flat(to), k)
  {
    FlatAt(from, k);
    FlatAt(to, k);
    ReplayAt(Flat(from), es, k);
    if EventsOf(es, k) != [] {
      LegalRunEnd(Owner(from, k), EventsOf(es, k), Owner(to, k));
    }
  }

  /** A log that is legal for every workload replays to the table it ends with. */
  lemma LegalReplay(from: Table, es: seq<Event>, to: Table)
    requires forall k :: LegalRun(Owner(from, k), EventsOf(es, k), Owner(to, k))
    ensures Replay(Flat(from), es) == Flat(to)
  {
    var a, b := Replay(Flat(from), es), Flat(to);
    forall k ensures Get(a, k) == Get(b, k) {
      LegalReplayAt(from, es, to, k);
    }
    SameLookups(a, b);
  }

  // ---------------------------------------------------------------- the exact diff

  /** What the change of one workload's holder is worth in events. */
  ghost function Expected(o: Option<string>, o': Option<string>, k: Key): seq<Event> {
    if o == o' then []
    else (if o.Some? then [Event(DevEnd, k.devType, k.name, o.value)] else [])
         + (if o'.Some? then [Event(DevSta, k.devType, k.name, o'.value)] else [])
  }

  /** `es` holds, for every workload, exactly the events its change is worth. */
  ghost predicate ExactDiff(from: Table, to: Table, es: seq<Event>) {
    forall k :: EventsOf(es, k) == Expected(Owner(from, k), Owner(to, k), k)
  }

  lemma ExpectedLegal(o: Option<string>, o': Option<string>, k: Key)
    ensures LegalRun(o, Expected(o, o', k), o')
  {
    if o != o' && o.Some? && o'.Some? {
      var es := Expected(o, o', k);
      assert es[1..] == [es[1]] && es[1..][1..] == [];
    } else if o != o' {
      assert Expected(o, o', k)[1..] == [];
    }
  }

  lemma DiffLegal(from: Table, to: Table, es: seq<Event>)
    requires ExactDiff(from, to, es)
    ensures forall k :: LegalRun(Owner(from, k), EventsOf(es, k), Owner(to, k))
  {
    forall k ensures LegalRun(Owner(from, k), EventsOf(es, k), Owner(to, k)) {
      ExpectedLegal(Owner(from, k), Owner(to, k), k);
    }
  }

  /** The diff, replayed on the old table, gives the new one. */
  lemma DiffReplays(from: Table, to: Table, es: seq<Event>)
    requires ExactDiff(from, to, es)
    ensures Replay(Flat(from), es) == Flat(to)
  {
    DiffLegal(from, to, es);
    LegalReplay(from, es, to);
  }

  // Minimality: no legal log from one table to the other is shorter.

  lemma LegalRunLongEnough(o: Option<string>, es: seq<Event>, o': Option<string>, k: Key)
    requires LegalRun(o, es, o')
    ensures |Expected(o, o', k)| <= |es|
  {
    if |es| == 1 {
      assert es[1..] == [];
    }
  }

  ghost function KeyBag(es: seq<Event>): multiset<Key> {
    if es == [] then multiset{} else KeyBag(es[..|es| - 1]) + multiset{KeyOf(es[|es| - 1])}
  }

  lemma {:induction false} KeyBagCounts(es: seq<Event>, k: Key)
    ensures |KeyBag(es)| == |es| && KeyBag(es)[k] == |EventsOf(es, k)|
  {
    if es != [] {
      KeyBagCounts(es[..|es| - 1], k);
    }
  }

  lemma SmallerBag(a: multiset<Key>, b: multiset<Key>)
    requires forall k :: a[k] <= b[k]
    ensures |a| <= |b|
  {
    assert b == a + (b - a);
  }

  lemma DiffMinimal(from: Table, to: Table, es: seq<Event>, other: seq<Event>)
    requires ExactDiff(from, to, es)
    requires forall k :: LegalRun(Owner(from, k), EventsOf(other, k), Owner(to, k))
    ensures |es| <= |other|
  {
    forall k ensures KeyBag(es)[k] <= KeyBag(other)[k] {
      KeyBagCounts(es, k);
      KeyBagCounts(other, k);
      LegalRunLongEnough(Owner(from, k), EventsOf(other, k), Owner(to, k), k);
    }
    KeyBagCounts(es, Key("", ""));
    KeyBagCounts(other, Key("", ""));
    SmallerBag(KeyBag(es), KeyBag(other));
  }

  // ---------------------------------------------------------------- the comparison itself

  /** An inner map of a table, shared by reference in the source. */
  class NameTable {
    var ids: map<string, string>

    constructor (ids: map<string, string>)
      ensures this.ids == ids
    {
      this.ids := ids;
    }
  }

  type HeapTable = map<string, NameTable>

  function View(h: HeapTable): (t: Table)
    reads h.Values
    ensures t.Keys == h.Keys
  {
    map d | d in h :: h[d].ids
  }

  /** No inner map is shared between two workload types. */
  ghost predicate Separate(h: HeapTable) {
    forall d, d' :: d in h && d' in h && d != d' ==> h[d] != h[d']
  }

  method CopyNames(ids: map<string, string>) returns (im: map<string, string>)
    ensures im == ids
  {
    im := map[];
    var names := ids.Keys;
    while names != {}
      invariant names <= ids.Keys && im.Keys == ids.Keys - names
      invariant forall n :: n in im ==> im[n] == ids[n]
      decreases names
    {
      var n :| n in names;
      im := im[n := ids[n]];
      names := names - {n};
    }
  }

  method Copy(h: HeapTable) returns (c: HeapTable)
    ensures View(c) == View(h)
    ensures Separate(c) && forall d :: d in c ==> fresh(c[d])
  {
    c := map[];
    var types := h.Keys;
    while types != {}
      invariant types <= h.Keys && c.Keys == h.Keys - types
      invariant Separate(c)
      invariant forall d :: d in c ==> fresh(c[d]) && c[d].ids == h[d].ids
      decreases types
    {
      var d :| d in types;
      var im := CopyNames(h[d].ids);
      var cell := new NameTable(im);
      c := c[d := cell];
      types := types - {d};
    }
  }

  /** Delete one resource name from a table whose inner maps are separate. */
  method DeleteName(work: HeapTable, d: string, n: string)
    requires d in work && Separate(work)
    modifies work[d]
    ensures View(work) == old(View(work))[d := old(work[d].ids) - {n}]
  {
    work[d].ids := work[d].ids - {n};
  }

  /** A workload a pass has not reached yet: the types in `types` are still to do, except
      the names in `done` of type `d`. */
  predicate Pending(k: Key, types: set<string>, d: string, done: set<string>) {
    k.devType in types && !(k.devType == d && k.name in done)
  }

  ghost predicate Settled(from: Table, to: Table, rest: Table, es: seq<Event>, k: Key) {
    EventsOf(es, k) == Expected(Owner(from, k), Owner(to, k), k) && Owner(rest, k).None?
  }

  ghost predicate Untouched(to: Table, rest: Table, es: seq<Event>, k: Key) {
    EventsOf(es, k) == [] && Owner(rest, k) == Owner(to, k)
  }

  /** First pass: what has been reached is settled in `es` and gone from `rest`. */
  ghost predicate Progress(from: Table, to: Table, rest: Table, es: seq<Event>,
                           types: set<string>, d: string, done: set<string>) {
    forall k ::
      if Owner(from, k).Some? && !Pending(k, types, d, done)
      then Settled(from, to, rest, es, k)
      else Untouched(to, rest, es, k)
  }

  /** The events of one workload of the old table. */
  function Compare(d: string, n: string, id: string, to: Option<string>): (es: seq<Event>)
  {
    match to
    case None => [Event(DevEnd, d, n, id)]
    case Some(id') =>
      if id == id' then [] else [Event(DevEnd, d, n, id), Event(DevSta, d, n, id')]
  }

  lemma CompareAt(d: string, n: string, id: string, to: Option<string>, k: Key)
    ensures EventsOf(Compare(d, n, id, to), k) ==
            if k == Key(d, n) then Expected(Some(id), to, k) else []
  {
    var end := Event(DevEnd, d, n, id);
    SingleEvent(end, k);
    if to.Some? && id != to.value {
      EventsOfPush([end], Event(DevSta, d, n, to.value), k);
      assert Compare(d, n, id, to) == [end] + [Event(DevSta, d, n, to.value)];
    }
  }

  lemma SingleEvent(e: Event, k: Key)
    ensures EventsOf([e], k) == if KeyOf(e) == k then [e] else []
  {
    EventsOfPush([], e, k);
    assert [] + [e] == [e];
  }

  lemma WithoutName(rest: Table, d: string, n: string, rest': Table, k: Key)
    requires rest' == if d in rest then rest[d := rest[d] - {n}] else rest
    ensures Owner(rest', k) == if k == Key(d, n) then None else Owner(rest, k)
  {
  }

  lemma PendingStep(k: Key, types: set<string>, d: string, done: set<string>, n: string)
    requires d in types && n !in done
    ensures Pending(k, types, d, done) <==> Pending(k, types, d, done + {n}) || k == Key(d, n)
  {
  }

  lemma ProgressStep(from: Table, to: Table, rest: Table, es: seq<Event>,
                     types: set<string>, d: string, done: set<string>, n: string, rest': Table)
    requires Progress(from, to, rest, es, types, d, done)
    requires d in types && n !in done && d in from && n in from[d]
    requires rest' == if d in rest then rest[d := rest[d] - {n}] else rest
    ensures Progress(from, to, rest', es + Compare(d, n, from[d][n], Owner(rest, Key(d, n))),
                     types, d, done + {n})
  {
    var id, holder := from[d][n], Owner(rest, Key(d, n));
    assert Owner(from, Key(d, n)) == Some(id);
    PendingStep(Key(d, n), types, d, done, n);
    forall k
      ensures if Owner(from, k).Some? && !Pending(k, types, d, done + {n})
              then Settled(from, to, rest', es + Compare(d, n, id, holder), k)
              else Untouched(to, rest', es + Compare(d, n, id, holder), k)
    {
      PendingStep(k, types, d, done, n);
      WithoutName(rest, d, n, rest', k);
      EventsOfConcat(es, Compare(d, n, id, holder), k);
      CompareAt(d, n, id, holder, k);
    }
  }

  /** The inner loop of the first pass: one workload type. */
  method EventsOfType(from: Table, ghost to: Table, work: HeapTable, es: seq<Event>,
                      ghost types: set<string>, d: string)
    returns (result: seq<Event>)
    requires d in types && d in from && Separate(work)
    requires Progress(from, to, View(work), es, types, d, {})
    modifies if d in work then {work[d]} else {}
    ensures Progress(from, to, View(work), result, types, d, from[d].Keys)
  {
    result := es;
    var names := from[d].Keys;
    while names != {}
      invariant names <= from[d].Keys
      invariant Progress(from, to, View(work), result, types, d, from[d].Keys - names)
      decreases names
    {
      var n :| n in names;
      ghost var before := View(work);
      var holder := None;
      if d in work {
        holder := Get(work[d].ids, n);
        DeleteName(work, d, n);
      }
      ProgressStep(from, to, before, result, types, d, from[d].Keys - names, n, View(work));
      result := result + Compare(d, n, from[d][n], holder);
      assert from[d].Keys - (names - {n}) == (from[d].Keys - names) + {n};
      names := names - {n};
    }
    assert from[d].Keys - names == from[d].Keys;
  }

  /** Second pass: everything but the starts still to do is settled. */
  ghost predicate Nearly(from: Table, to: Table, rest: Table, es: seq<Event>,
                         types: set<string>, d: string, done: set<string>) {
    forall k ::
      if Owner(rest, k).Some? && Pending(k, types, d, done)
      then EventsOf(es, k) == [] && Owner(from, k).None? && Owner(to, k) == Owner(rest, k)
      else EventsOf(es, k) == Expected(Owner(from, k), Owner(to, k), k)
  }

  lemma NearlyStep(from: Table, to: Table, rest: Table, es: seq<Event>,
                   types: set<string>, d: string, done: set<string>, n: string)
    requires Nearly(from, to, rest, es, types, d, done)
    requires d in types && n !in done && d in rest && n in rest[d]
    ensures Nearly(from, to, rest, es + [Event(DevSta, d, n, rest[d][n])], types, d, done + {n})
  {
    var e := Event(DevSta, d, n, rest[d][n]);
    forall k
      ensures if Owner(rest, k).Some? && Pending(k, types, d, done + {n})
              then EventsOf(es + [e], k) == [] && Owner(from, k).None? && Owner(to, k) == Owner(rest, k)
              else EventsOf(es + [e], k) == Expected(Owner(from, k), Owner(to, k), k)
    {
      EventsOfPush(es, e, k);
    }
  }

  /** The second pass: everything left in the working table is a start. */
  method RemainingStarts(ghost from: Table, ghost to: Table, rest: Table, es: seq<Event>)
    returns (result: seq<Event>)
    requires Nearly(from, to, rest, es, rest.Keys, "", {})
    ensures ExactDiff(from, to, result)
  {
    result := es;
    var types := rest.Keys;
    while types != {}
      invariant types <= rest.Keys
      invariant Nearly(from, to, rest, result, types, "", {})
      decreases types
    {
      var d :| d in types;
      var names := rest[d].Keys;
      assert Nearly(from, to, rest, result, types, d, rest[d].Keys - names) by {
        assert forall k :: Pending(k, types, d, rest[d].Keys - names) == Pending(k, types, "", {});
      }
      while names != {}
        invariant names <= rest[d].Keys
        invariant Nearly(from, to, rest, result, types, d, rest[d].Keys - names)
        decreases names
      {
        var n :| n in names;
        NearlyStep(from, to, rest, result, types, d, rest[d].Keys - names, n);
        result := result + [Event(DevSta, d, n, rest[d][n])];
        assert rest[d].Keys - (names - {n}) == (rest[d].Keys - names) + {n};
        names := names - {n};
      }
      assert forall k :: Owner(rest, k).Some? ==>
        Pending(k, types, d, rest[d].Keys - names) == Pending(k, types - {d}, "", {});
      types := types - {d};
    }
  }

  /** The first pass: ended and re-owned workloads, deleting from the working table. */
  method FirstPass(from: Table, ghost to: Table, work: HeapTable) returns (result: seq<Event>)
    requires Separate(work) && View(work) == to
    modifies work.Values
    ensures Progress(from, to, View(work), result, {}, "", {})
  {
    result := [];
    var types := from.Keys;
    while types != {}
      invariant types <= from.Keys
      invariant Progress(from, to, View(work), result, types, "", {})
      decreases types
    {
      var d :| d in types;
      PendingAll(from, types, d);
      result := EventsOfType(from, to, work, result, types, d);
      types := types - {d};
    }
  }

  lemma PendingAll(from: Table, types: set<string>, d: string)
    ensures forall k :: Pending(k, types, d, {}) == Pending(k, types, "", {})
    ensures d in from ==> forall k :: Owner(from, k).Some? ==>
              Pending(k, types, d, from[d].Keys) == Pending(k, types - {d}, "", {})
  {
  }

  lemma NoChange(t: Table)
    ensures ExactDiff(t, t, [])
  {
  }

  /** The comparison of two tables.  The caller's maps are only read: deletions happen in a copy. */
  method Events(from: HeapTable, to: HeapTable) returns (result: seq<Event>)
    ensures ExactDiff(old(View(from)), old(View(to)), result)
  {
    var f := View(from);
    ghost var t := View(to);
    var work := Copy(to);
    if View(work) == f {
      NoChange(f);
      return [];
    }
    result := FirstPass(f, t, work);
    FirstPassDone(f, t, View(work), result);
    result := RemainingStarts(f, t, View(work), result);
  }

  lemma FirstPassDone(from: Table, to: Table, rest: Table, es: seq<Event>)
    requires Progress(from, to, rest, es, {}, "", {})
    ensures Nearly(from, to, rest, es, rest.Keys, "", {})
  {
    forall k
      ensures if Owner(rest, k).Some? && Pending(k, rest.Keys, "", {})
              then EventsOf(es, k) == [] && Owner(from, k).None? && Owner(to, k) == Owner(rest, k)
              else EventsOf(es, k) == Expected(Owner(from, k), Owner(to, k), k)
    {
      assert !Pending(k, {}, "", {});
      assert if Owner(from, k).Some? then Settled(from, to, rest, es, k) else Untouched(to, rest, es, k);
    }
  }
}
