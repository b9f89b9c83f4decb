/** Which local directory a service is developed in: the stored map from pack keys to directories,
    its inverse, the default pack of a directory, and the cached copy of the store. */
module DevDir {
  import opened Common
  import opened GoStrings
  import opened PackKey

  datatype Mapping = Mapping(
    defaults: map<string, string>,   // directory -> key of its default pack
    paths: map<string, string>,      // pack key -> directory
    bytes: map<string, string>,      // pack key -> kubeconfig content
    servers: map<string, string>)    // pack key -> kubeconfig server

  predicate Valid(p: SvcPack) {
    p.ns != "" && p.app != "" && p.svcType != "" && p.svc != ""
  }

  function Or(m: map<string, string>, k: string): string {
    if k in m then m[k] else ""
  }

  /** The first of four keys that is stored decides. */
  function FirstOf(paths: map<string, string>, a: string, b: string, c: string, d: string): string {
    if a in paths then paths[a]
    else if b in paths then paths[b]
    else if c in paths then paths[c]
    else Or(paths, d)
  }

  /** The directory of a pack: by its key, without container, and by the two legacy keys. */
  function Lookup(m: Mapping, p: SvcPack): string {
    if !Valid(p) then ""
    else FirstOf(m.paths, Key(p), KeyWithoutContainer(p), WithoutNid(Key(p)), WithoutNid(KeyWithoutContainer(p)))
  }

  function CachedLookup(m: Mapping, p: SvcPack): string {
    if !Valid(p) then ""
    else if Key(p) in m.paths then m.paths[Key(p)]
    else Or(m.paths, KeyWithoutContainer(p))
  }

  // ---------------------------------------------------------------- the inverse map

  type Groups = map<string, seq<SvcPack>>

  function At(g: Groups, path: string): seq<SvcPack> {
    if path in g then g[path] else []
  }

  function AddToGroup(g: Groups, path: string, p: Option<SvcPack>): Groups {
    g[path := At(g, path) + if p.Some? then [p.value] else []]
  }

  ghost predicate Lists(order: seq<string>, keys: set<string>) {
    && (forall k :: k in order <==> k in keys)
    && NoRepeats(order)
  }

  /** A stored key as the loop sees it: its directory and the pack it decodes to, if any. */
  datatype Entry = Entry(path: string, pack: Option<SvcPack>)

  ghost function Group(entries: seq<Entry>): Groups {
    if entries == [] then map[]
    else
      var e := entries[|entries| - 1];
      AddToGroup(Group(entries[..|entries| - 1]), e.path, e.pack)
  }

  type Decoder = string -> Option<SvcPack>

  /** The stored keys in some order. */
  ghost function Entries(paths: map<string, string>, decode: Decoder, order: seq<string>): (es: seq<Entry>)
    requires forall i :: 0 <= i < |order| ==> order[i] in paths
    ensures |es| == |order|
  {
    seq(|order|, i requires 0 <= i < |order| => Entry(paths[order[i]], decode(order[i])))
  }

  /** Go's iteration order over the stored keys is arbitrary. */
  method GenPathToPackMap(paths: map<string, string>, decode: Decoder) returns (g: Groups, ghost order: seq<string>)
    ensures Lists(order, paths.Keys) && g == Group(Entries(paths, decode, order))
  {
    g, order := map[], [];
    var todo := paths.Keys;
    ghost var entries: seq<Entry> := [];
    while todo != {}
      invariant todo <= paths.Keys && Lists(order, paths.Keys - todo)
      invariant forall i :: 0 <= i < |order| ==> order[i] in paths
      invariant entries == Entries(paths, decode, order) && g == Group(entries)
      decreases todo
    {
      var k :| k in todo;
      ListsMore(order, paths.Keys - todo, k);
      GroupMore(entries, Entry(paths[k], decode(k)));
      EntriesMore(paths, decode, order, k);
      g := AddToGroup(g, paths[k], decode(k));
      entries := entries + [Entry(paths[k], decode(k))];
      order := order + [k];
      assert paths.Keys - (todo - {k}) == (paths.Keys - todo) + {k};
      todo := todo - {k};
    }
    assert paths.Keys - todo == paths.Keys;
  }

  lemma GroupMore(entries: seq<Entry>, e: Entry)
    ensures Group(entries + [e]) == AddToGroup(Group(entries), e.path, e.pack)
  {
    assert (entries + [e])[..|entries|] == entries;
  }

  lemma EntriesMore(paths: map<string, string>, decode: Decoder, order: seq<string>, k: string)
    requires k in paths && forall i :: 0 <= i < |order| ==> order[i] in paths
    ensures Entries(paths, decode, order + [k]) == Entries(paths, decode, order) + [Entry(paths[k], decode(k))]
  {
  }

  lemma ListsMore(order: seq<string>, keys: set<string>, k: string)
    requires Lists(order, keys) && k !in keys
    ensures Lists(order + [k], keys + {k})
  {
  }

  lemma CountSnoc<T>(a: seq<T>, x: T, y: T)
    ensures multiset(a + [x])[y] == multiset(a)[y] + if x == y then 1 else 0
  {
  }

  /** Nothing is lost or added: a pack stands under a directory as often as it was stored with it. */
  lemma {:induction false} GroupConserves(entries: seq<Entry>, path: string, p: SvcPack)
    ensures multiset(At(Group(entries), path))[p] == multiset(entries)[Entry(path, Some(p))]
  {
    if entries != [] {
      var front, e := entries[..|entries| - 1], entries[|entries| - 1];
      GroupConserves(front, path, p);
      assert entries == front + [e];
      CountSnoc(front, e, Entry(path, Some(p)));
      var list := At(Group(front), path);
      if e.path == path && e.pack.Some? {
        assert At(Group(entries), path) == list + [e.pack.value];
        CountSnoc(list, e.pack.value, p);
      } else {
        assert At(Group(entries), path) == list;
      }
    }
  }

  lemma GroupMember(m: Mapping, order: seq<string>, path: string, p: SvcPack)
    requires Lists(order, m.paths.Keys)
    ensures p in At(Listed(m, order), path) <==>
            exists k :: k in m.paths && m.paths[k] == path && ToPack(k) == Some(p)
  {
    var entries := Entries(m.paths, ToPack, order);
    GroupConserves(entries, path, p);
    assert p in At(Group(entries), path) <==> Entry(path, Some(p)) in entries by {
      assert p in At(Group(entries), path) <==> p in multiset(At(Group(entries), path));
      assert Entry(path, Some(p)) in entries <==> Entry(path, Some(p)) in multiset(entries);
    }
    if Entry(path, Some(p)) in entries {
      var i :| 0 <= i < |entries| && entries[i] == Entry(path, Some(p));
      assert order[i] in m.paths;
    }
    if k :| k in m.paths && m.paths[k] == path && ToPack(k) == Some(p) {
      var i :| 0 <= i < |order| && order[i] == k;
      assert entries[i] == Entry(path, Some(p));
    }
  }

  /** The inverse map of a store. */
  ghost function Listed(m: Mapping, order: seq<string>): Groups
    requires Lists(order, m.paths.Keys)
  {
    Group(Entries(m.paths, ToPack, order))
  }

  ghost predicate NoRepeats(order: seq<string>) {
    forall i, j :: 0 <= i < j < |order| ==> order[i] != order[j]
  }

  /** A value that stands at exactly one place, if at all, is counted at most once. */
  lemma {:induction false} CountOnce(entries: seq<Entry>, e: Entry, i: nat)
    requires forall j :: 0 <= j < |entries| ==> (entries[j] == e <==> j == i)
    ensures multiset(entries)[e] == if i < |entries| then 1 else 0
  {
    if entries != [] {
      var n := |entries| - 1;
      assert entries == entries[..n] + [entries[n]];
      CountOnce(entries[..n], e, i);
    }
  }

  /** A key in the current form, with fields free of slashes. */
  predicate FullKey(k: string) {
    var p := ToPack(k);
    p.Some? && SlashFree(p.value) && Key(p.value) == k
  }

  lemma FullKeyDecodes(k: string, p: SvcPack)
    requires FullKey(k) && SlashFree(p)
    ensures ToPack(k) == Some(p) <==> k == Key(p)
  {
    KeyRoundTrip(p);
  }

  /** When all keys have six fields, the derived map is the exact inverse: every pack stands once
      under its own directory and nowhere else. */
  lemma GroupIsInverse(m: Mapping, order: seq<string>, path: string, p: SvcPack)
    requires Lists(order, m.paths.Keys) && SlashFree(p) && forall k :: k in m.paths ==> FullKey(k)
    ensures multiset(At(Listed(m, order), path))[p] ==
            if Key(p) in m.paths && m.paths[Key(p)] == path then 1 else 0
  {
    var key := Key(p);
    forall k | k in m.paths ensures ToPack(k) == Some(p) <==> k == key {
      FullKeyDecodes(k, p);
    }
    InverseAt(m.paths, ToPack, order, path, p, key);
  }

  lemma InverseAt(paths: map<string, string>, decode: Decoder, order: seq<string>, path: string, p: SvcPack,
                  key: string)
    requires Lists(order, paths.Keys) && forall k :: k in paths ==> (decode(k) == Some(p) <==> k == key)
    ensures multiset(At(Group(Entries(paths, decode, order)), path))[p] ==
            if key in paths && paths[key] == path then 1 else 0
  {
    var entries, e := Entries(paths, decode, order), Entry(path, Some(p));
    GroupConserves(entries, path, p);
    assert forall j :: 0 <= j < |order| ==> (entries[j] == e <==> order[j] == key && paths[key] == path);
    if key in paths && paths[key] == path {
      var i :| 0 <= i < |order| && order[i] == key;
      assert forall j :: 0 <= j < |order| ==> (order[j] == key <==> j == i);
      CountOnce(entries, e, i);
    } else {
      CountOnce(entries, e, |entries|);
    }
  }

  /** The packs of a directory, by key. */
  function ByKey(list: seq<SvcPack>): map<string, SvcPack> {
    if list == [] then map[] else ByKey(list[..|list| - 1])[Key(list[|list| - 1]) := list[|list| - 1]]
  }

  lemma {:induction false} ByKeyAt(list: seq<SvcPack>, p: SvcPack)
    requires SlashFree(p) && forall q :: q in list ==> SlashFree(q)
    ensures Key(p) in ByKey(list) <==> p in list
    ensures p in list ==> ByKey(list)[Key(p)] == p
  {
    if list != [] {
      var front, last := list[..|list| - 1], list[|list| - 1];
      assert list == front + [last];
      ByKeyAt(front, p);
      KeyInjective(p, last);
    }
  }

  lemma {:induction false} ByKeyValues(list: seq<SvcPack>, k: string)
    requires k in ByKey(list)
    ensures ByKey(list)[k] in list && Key(ByKey(list)[k]) == k
  {
    var front, last := list[..|list| - 1], list[|list| - 1];
    if k != Key(last) {
      ByKeyValues(front, k);
    }
  }

  /** Every stored key, of either form, decodes to a pack free of slashes. */
  ghost predicate Clean(m: Mapping) {
    forall k :: k in m.paths ==> ToPack(k).Some? && SlashFree(ToPack(k).value)
  }

  /** What getDefaultPack may answer: the pack under the default key, or else any pack with a
      container, or else nothing. */
  ghost predicate IsDefaultPack(m: Mapping, g: Groups, path: string, r: Option<SvcPack>) {
    var packs := ByKey(At(g, path));
    var key := Or(m.defaults, path);
    if key in packs then r == Some(packs[key])
    else if exists k :: k in packs && Key(packs[k]) != KeyWithoutContainer(packs[k])
    then r.Some? && Key(r.value) != KeyWithoutContainer(r.value) && exists k :: k in packs && packs[k] == r.value
    else r == None
  }

  lemma StoredIsListed(m: Mapping, order: seq<string>, path: string, p: SvcPack)
    requires Clean(m) && Lists(order, m.paths.Keys) && SlashFree(p)
    requires exists k :: k in m.paths && m.paths[k] == path && ToPack(k) == Some(p)
    ensures var packs := ByKey(At(Listed(m, order), path));
            Key(p) in packs && packs[Key(p)] == p
  {
    var list := At(Listed(m, order), path);
    forall q | q in list ensures SlashFree(q) {
      GroupMember(m, order, path, q);
    }
    GroupMember(m, order, path, p);
    var k :| k in m.paths && m.paths[k] == path && ToPack(k) == Some(p);
    assert k in order;
    ByKeyAt(list, p);
  }

  // ---------------------------------------------------------------- the store

  /** What removing a pack does to the default packs, given the keys of the packs of its old
      directory. */
  ghost predicate DefaultsAfterRemove(was: map<string, string>, d: string, key: string, before: string,
                                      packs: set<string>, now: map<string, string>) {
    if |packs| == 1 then now == was - {d}
    else if Or(was, before) == key && packs - {key} != {}
    then exists r :: r in packs - {key} && now == was[before := r]
    else now == was
  }

  ghost predicate Removed(m: Mapping, d: string, p: SvcPack, order: seq<string>, now: map<string, string>)
    requires Lists(order, m.paths.Keys)
  {
    var before := Or(m.paths, Key(p));
    DefaultsAfterRemove(m.defaults, d, Key(p), before, ByKey(At(Listed(m, order), before)).Keys, now)
  }

  class Store {
    var db: Mapping
    var cache: Option<Mapping>

    constructor ()
      ensures db == Mapping(map[], map[], map[], map[]) && cache == None
    {
      db := Mapping(map[], map[], map[], map[]);
      cache := None;
    }

    method FlushCache()
      modifies this
      ensures cache == Some(db) && db == old(db)
    {
      cache := Some(db);
    }

    method GetAssociatePathCache(p: SvcPack) returns (path: string)
      modifies this
      ensures db == old(db)
      ensures cache == if Valid(p) && old(cache).None? then Some(db) else old(cache)
      ensures path == if cache.Some? then CachedLookup(cache.value, p) else ""
    {
      if !Valid(p) {
        return "";
      }
      if cache.None? {
        FlushCache();
      }
      var c := cache.value.paths;
      return if Key(p) in c then c[Key(p)] else Or(c, KeyWithoutContainer(p));
    }

    method GetAssociatePath(p: SvcPack) returns (path: string)
      ensures path == Lookup(db, p)
      ensures path != "" ==> exists k :: k in Forms(p) && k in db.paths && db.paths[k] == path
    {
      if !Valid(p) {
        return "";
      }
      var forms := Forms(p);
      if forms[0] in db.paths {
        return db.paths[forms[0]];
      } else if forms[1] in db.paths {
        return db.paths[forms[1]];
      }
      if forms[2] in db.paths {
        return db.paths[forms[2]];
      }
      assert forms[3] in forms;
      return Or(db.paths, forms[3]);
    }

    method GetDefaultPack(path: string) returns (r: Option<SvcPack>, ghost order: seq<string>)
      ensures Lists(order, db.paths.Keys) && IsDefaultPack(db, Listed(db, order), path, r)
    {
      var g;
      g, order := GenPathToPackMap(db.paths, ToPack);
      var packs := ByKey(At(g, path));
      var key := Or(db.defaults, path);
      if key in packs {
        return Some(packs[key]), order;
      }
      var todo := packs.Keys;
      while todo != {}
        invariant todo <= packs.Keys
        invariant forall k :: k in packs && k !in todo ==> Key(packs[k]) == KeyWithoutContainer(packs[k])
        decreases todo
      {
        var k :| k in todo;
        if Key(packs[k]) != KeyWithoutContainer(packs[k]) {
          return Some(packs[k]), order;
        }
        todo := todo - {k};
      }
      return None, order;
    }

    /** Replace the default of a directory by some other of its packs. */
    method ReplaceDefault(before: string, key: string, packs: set<string>) returns (ghost choice: Option<string>)
      modifies this
      ensures cache == old(cache) && db == old(db).(defaults := db.defaults)
      ensures choice.None? ==> packs <= {key} && db.defaults == old(db.defaults)
      ensures choice.Some? ==> choice.value in packs - {key} && db.defaults == old(db.defaults)[before := choice.value]
    {
      ghost var was := db;
      var todo := packs;
      choice := None;
      while todo != {}
        invariant todo <= packs && cache == old(cache) && db == was.(defaults := db.defaults)
        invariant choice.None? ==> packs - todo <= {key} && db.defaults == was.defaults
        invariant choice.Some? ==> choice.value in packs - {key} && db.defaults == was.defaults[before := choice.value]
        decreases todo
      {
        var r :| r in todo;
        if r != key {
          db := db.(defaults := db.defaults[before := r]);
          choice := Some(r);
        }
        todo := todo - {r};
      }
    }

    /** Steps 1 and 2 of removing a pack with the given key from its directory.  The default that a
        lone pack gives up is the one of `d`, whatever directory the pack was in. */
    method RemoveKey(d: string, key: string, before: string, packs: set<string>)
      modifies this
      ensures cache == old(cache)
      ensures db == old(db).(paths := old(db.paths) - {key}, defaults := db.defaults)
      ensures DefaultsAfterRemove(old(db.defaults), d, key, before, packs, db.defaults)
    {
      if |packs| == 1 {
        db := db.(defaults := db.defaults - {d});
      } else if Or(db.defaults, before) == key {
        ghost var choice := ReplaceDefault(before, key, packs);
      }
      db := db.(paths := db.paths - {key});
    }

    method RemovePack(d: string, p: SvcPack) returns (ok: bool, ghost order: seq<string>)
      modifies this
      ensures cache == old(cache) && ok == Valid(p)
      ensures !ok ==> db == old(db)
      ensures ok ==> db == old(db).(paths := old(db.paths) - {Key(p)}, defaults := db.defaults)
      ensures ok ==> Lists(order, old(db.paths).Keys) && Removed(old(db), d, p, order, db.defaults)
    {
      order := [];
      if !Valid(p) {
        return false, [];
      }
      var g;
      g, order := GenPathToPackMap(db.paths, ToPack);
      var key := Key(p);
      var before := Or(db.paths, key);
      RemoveKey(d, key, before, ByKey(At(g, before)).Keys);
      return true, order;
    }

    method Write(k: string, d: string, content: string, server: string)
      modifies this
      ensures cache == old(cache) && db.defaults == old(db.defaults)
      ensures db.paths == old(db.paths)[k := d]
      ensures db.bytes == old(db.bytes)[k := content] && db.servers == old(db.servers)[k := server]
    {
      db := db.(paths := db.paths[k := d], bytes := db.bytes[k := content], servers := db.servers[k := server]);
    }

    /** Write every stored key that begins with `key`. */
    method CoverPrefix(key: string, d: string, content: string, server: string)
      modifies this
      ensures cache == old(cache) && db.defaults == old(db.defaults)
      ensures var ks := Beginning(old(db.paths).Keys, key);
              && db.paths == Painted(old(db.paths), ks, d)
              && db.bytes == Painted(old(db.bytes), ks, content)
              && db.servers == Painted(old(db.servers), ks, server)
    {
      ghost var was, done: set<string> := db, {};
      var todo := db.paths.Keys;
      ghost var all := todo;
      while todo != {}
        invariant todo <= all && done == Beginning(all - todo, key)
        invariant cache == old(cache) && db.defaults == was.defaults
        invariant db.paths == Painted(was.paths, done, d)
        invariant db.bytes == Painted(was.bytes, done, content)
        invariant db.servers == Painted(was.servers, done, server)
        decreases todo
      {
        var k :| k in todo;
        assert Beginning(all - (todo - {k}), key) == Beginning(all - todo, key) + if key <= k then {k} else {};
        if key <= k {
          PaintMore(was.paths, done, d, k);
          PaintMore(was.bytes, done, content, k);
          PaintMore(was.servers, done, server, k);
          Write(k, d, content, server);
          done := done + {k};
        }
        todo := todo - {k};
      }
      assert all - todo == all;
    }

    /** Record the directory under the pack's key, and under the key without container if it has one;
        without a container, under all keys that begin with its key. */
    method Record(d: string, key: string, bare: string, contained: bool, content: string, server: string,
                  setAsDefault: bool)
      modifies this
      ensures cache == old(cache)
      ensures var ks := Written(old(db.paths).Keys, key, bare, contained);
              && db.paths == Painted(old(db.paths), ks, d)
              && db.bytes == Painted(old(db.bytes), ks, content)
              && db.servers == Painted(old(db.servers), ks, server)
      ensures db.defaults == WithDefault(old(db.defaults), d, key, setAsDefault)
    {
      ghost var was := db;
      Write(key, d, content, server);
      ghost var stored := was.paths.Keys;
      PaintWritten(was.paths, stored, key, bare, contained, d);
      PaintWritten(was.bytes, stored, key, bare, contained, content);
      PaintWritten(was.servers, stored, key, bare, contained, server);
      if !contained {
        assert db.paths.Keys == stored + {key};
        CoverPrefix(key, d, content, server);
      } else {
        Write(bare, d, content, server);
      }
      if setAsDefault || d !in db.defaults {
        db := db.(defaults := db.defaults[d := key]);
      }
    }

    /** `content` and `server` are what the kubeconfig file holds; an unreadable file has no content. */
    method Associate(d: string, p: SvcPack, content: string, server: string, setAsDefault: bool)
      returns (ok: bool, ghost order: seq<string>)
      modifies this
      ensures cache == old(cache) && (ok <==> p.ns != "" && p.app != "" && p.svcType != "" && p.svc != "")
      ensures !ok ==> db == old(db)
      ensures ok ==> Lists(order, old(db.paths).Keys)
      ensures ok ==> Associated(old(db), d, p, content, server, setAsDefault, order, db)
    {
      ok, order := RemovePack(d, p);
      ghost var removed := db.defaults;
      if ok && content != "" {
        Record(d, Key(p), KeyWithoutContainer(p), p.container != "", content, server, setAsDefault);
      }
    }

    method DeleteKeys(keys: seq<string>)
      modifies this
      ensures cache == old(cache)
      ensures db == old(db).(paths := old(db.paths) - set k | k in keys)
    {
      ghost var was := db;
      for i := 0 to |keys|
        invariant cache == old(cache) && db == was.(paths := was.paths - set k | k in keys[..i])
      {
        assert keys[..i + 1] == keys[..i] + [keys[i]];
        db := db.(paths := db.paths - {keys[i]});
      }
      assert keys[..|keys|] == keys;
    }

    /** Forget the four forms under which a pack can be found. */
    method UnAssociatePath(p: SvcPack)
      modifies this
      ensures cache == old(cache)
      ensures db == old(db).(paths := old(db.paths) - set k | k in Forms(p))
    {
      DeleteKeys(Forms(p));
    }
  }

  /** The last step of an association: the pack becomes the default if asked for, or if there is none. */
  function WithDefault(defaults: map<string, string>, d: string, key: string, set_: bool): map<string, string> {
    if set_ || d !in defaults then defaults[d := key] else defaults
  }

  /** Everything an association does: the pack is removed, then, if the kubeconfig is readable, recorded. */
  ghost predicate Associated(m: Mapping, d: string, p: SvcPack, content: string, server: string, set_: bool,
                             order: seq<string>, m': Mapping)
    requires Lists(order, m.paths.Keys)
  {
    && m'.paths == PathsAfter(m.paths, d, p, content)
    && (if content == "" then m'.bytes == m.bytes && m'.servers == m.servers
        else && m'.bytes == Painted(m.bytes, WrittenFor(m.paths, p), content)
             && m'.servers == Painted(m.servers, WrittenFor(m.paths, p), server))
    && DefaultsAfter(m, d, p, content, set_, order, m'.defaults)
  }

  ghost predicate DefaultsAfter(m: Mapping, d: string, p: SvcPack, content: string, set_: bool,
                                order: seq<string>, now: map<string, string>)
    requires Lists(order, m.paths.Keys)
  {
    exists removed :: Removed(m, d, p, order, removed) &&
      now == if content == "" then removed else WithDefault(removed, d, Key(p), set_)
  }

  function Forms(p: SvcPack): seq<string> {
    [Key(p), KeyWithoutContainer(p), WithoutNid(Key(p)), WithoutNid(KeyWithoutContainer(p))]
  }

  /** The map with one value written under several keys. */
  ghost function Painted(m: map<string, string>, ks: set<string>, v: string): map<string, string> {
    m + map k | k in ks :: v
  }

  lemma PaintMore(m: map<string, string>, ks: set<string>, v: string, k: string)
    ensures Painted(m, ks, v)[k := v] == Painted(m, ks + {k}, v)
  {
  }

  function Beginning(keys: set<string>, key: string): set<string> {
    set k | k in keys && key <= k
  }

  /** The keys an association writes: the pack's own and its bare one, or, without container, every
      stored key that begins with the pack's. */
  function Written(stored: set<string>, key: string, bare: string, contained: bool): set<string> {
    if contained then {key, bare} else {key} + Beginning(stored + {key}, key)
  }

  /** The two ways in which the keys are written one after the other. */
  lemma PaintWritten(m: map<string, string>, stored: set<string>, key: string, bare: string, contained: bool, v: string)
    ensures Painted(m, Written(stored, key, bare, contained), v) ==
            if contained then m[key := v][bare := v] else Painted(m[key := v], Beginning(stored + {key}, key), v)
  {
  }

  lemma PaintedKeys(m: map<string, string>, stored: set<string>, key: string, bare: string, contained: bool,
                    v: string, k: string)
    requires stored <= m.Keys && k in Painted(m, Written(stored, key, bare, contained), v)
    ensures k in m || k == key || k == bare
  {
  }

  function WrittenFor(paths: map<string, string>, p: SvcPack): set<string> {
    Written((paths - {Key(p)}).Keys, Key(p), KeyWithoutContainer(p), p.container != "")
  }

  /** The stored directories after an association. */
  ghost function PathsAfter(paths: map<string, string>, d: string, p: SvcPack, content: string): map<string, string> {
    if content == "" then paths - {Key(p)} else Painted(paths - {Key(p)}, WrittenFor(paths, p), d)
  }

  // ---------------------------------------------------------------- what users rely on

  /** After an association with a container, the pack and the pack without container are found in
      the directory, and no other key moves. */
  lemma AssociatedIsFound(m: Mapping, d: string, p: SvcPack, content: string, m': Mapping, k: string)
    requires Valid(p) && SlashFree(p) && p.container != "" && content != ""
    requires m'.paths == PathsAfter(m.paths, d, p, content)
    ensures Lookup(m', p) == d && Lookup(m', Bare(p)) == d
    ensures k != Key(p) && k != Key(Bare(p)) ==> Get(m'.paths, k) == Get(m.paths, k)
    ensures Key(p) != Key(Bare(p))
  {
    FoundAt(m.paths, d, Key(p), KeyWithoutContainer(p), m'.paths, k);
    assert Key(Bare(p)) == KeyWithoutContainer(Bare(p)) == KeyWithoutContainer(p);
    KeyInjective(p, Bare(p));
  }

  lemma FoundAt(paths: map<string, string>, d: string, key: string, bare: string, paths': map<string, string>,
                k: string)
    requires paths' == Painted(paths - {key}, {key, bare}, d)
    ensures Get(paths', key) == Some(d) == Get(paths', bare)
    ensures k != key && k != bare ==> Get(paths', k) == Get(paths, k)
  {
  }

  /** Without a container the association covers exactly the stored packs of the same service that
      have no container and whose namespace id extends the given one; packs with a container keep
      their directory. */
  lemma UncontainedCovers(m: Mapping, d: string, p: SvcPack, content: string, m': Mapping, q: SvcPack)
    requires Valid(p) && SlashFree(p) && p.container == "" && content != ""
    requires m'.paths == PathsAfter(m.paths, d, p, content) && SlashFree(q)
    ensures Get(m'.paths, Key(q)) ==
            if q == p || (Key(q) in m.paths && q.(nid := p.nid) == p && p.nid <= q.nid) then Some(d)
            else Get(m.paths, Key(q))
    ensures Lookup(m', p) == d
  {
    KeyPrefix(p, q);
    KeyInjective(p, q);
    KeyIsJoin(p);
  }

  lemma AssociateKeepsClean(m: Mapping, d: string, p: SvcPack, content: string, m': Mapping)
    requires Clean(m) && SlashFree(p) && m'.paths == PathsAfter(m.paths, d, p, content)
    ensures Clean(m')
  {
    KeyRoundTrip(p);
    KeyRoundTrip(Bare(p));
    assert KeyWithoutContainer(p) == Key(Bare(p));
    forall k | k in m'.paths ensures ToPack(k).Some? && SlashFree(ToPack(k).value) {
      if content != "" {
        var rest := m.paths - {Key(p)};
        PaintedKeys(rest, rest.Keys, Key(p), KeyWithoutContainer(p), p.container != "", d, k);
      }
    }
  }

  /** After an association as default, of a pack with or without container, the directory's default pack
      is the pack, whatever order the inverse map was built in. */
  lemma AssociatedIsDefault(m: Mapping, d: string, p: SvcPack, content: string, server: string,
                            order: seq<string>, m': Mapping, order': seq<string>, r: Option<SvcPack>)
    requires Clean(m) && SlashFree(p) && content != "" && Lists(order, m.paths.Keys)
    requires Associated(m, d, p, content, server, true, order, m')
    requires Lists(order', m'.paths.Keys) && IsDefaultPack(m', Listed(m', order'), d, r)
    ensures r == Some(p)
  {
    AssociateKeepsClean(m, d, p, content, m');
    KeyRoundTrip(p);
    StoredAt(m.paths, d, Key(p), KeyWithoutContainer(p), p.container != "", m'.paths);
    StoredIsDefault(m', order', d, Key(p), p, r);
  }

  lemma StoredAt(paths: map<string, string>, d: string, key: string, bare: string, contained: bool,
                 paths': map<string, string>)
    requires paths' == Painted(paths - {key}, Written((paths - {key}).Keys, key, bare, contained), d)
    ensures Get(paths', key) == Some(d)
  {
  }

  /** The kubeconfig's content and server go with the keys that get the directory, and with no others. */
  lemma AssociatedKubeconfig(m: Mapping, d: string, p: SvcPack, content: string, server: string, set_: bool,
                             order: seq<string>, m': Mapping, k: string)
    requires Lists(order, m.paths.Keys) && Associated(m, d, p, content, server, set_, order, m') && content != ""
    ensures if k in WrittenFor(m.paths, p)
            then && Get(m'.paths, k) == Some(d) && Get(m'.bytes, k) == Some(content)
                 && Get(m'.servers, k) == Some(server)
            else && Get(m'.paths, k) == (if k == Key(p) then None else Get(m.paths, k))
                 && Get(m'.bytes, k) == Get(m.bytes, k) && Get(m'.servers, k) == Get(m.servers, k)
    ensures Key(p) in WrittenFor(m.paths, p)
    ensures p.container != "" ==> WrittenFor(m.paths, p) == {Key(p), KeyWithoutContainer(p)}
  {
    var ks := WrittenFor(m.paths, p);
    PaintedAt(m.paths - {Key(p)}, ks, d, k);
    PaintedAt(m.bytes, ks, content, k);
    PaintedAt(m.servers, ks, server, k);
    assert Get(m.paths - {Key(p)}, k) == if k == Key(p) then None else Get(m.paths, k);
  }

  lemma PaintedAt(m: map<string, string>, ks: set<string>, v: string, k: string)
    ensures Get(Painted(m, ks, v), k) == if k in ks then Some(v) else Get(m, k)
  {
  }

  /** What may be answered as a directory's default, of the packs stored there: the one whose key is the default,
      or any with a container if there is none; nothing exactly when there is neither. */
  lemma DefaultPackExactly(m: Mapping, order: seq<string>, path: string, r: Option<SvcPack>, p: SvcPack)
    requires Clean(m) && Lists(order, m.paths.Keys) && IsDefaultPack(m, Listed(m, order), path, r)
    ensures r.Some? ==>
              && (exists k :: k in m.paths && m.paths[k] == path && ToPack(k) == r)
              && (Key(r.value) == Or(m.defaults, path) || r.value.container != "")
    ensures (exists k :: k in m.paths && m.paths[k] == path && ToPack(k) == Some(p)) ==>
              && (Key(p) == Or(m.defaults, path) ==> r == Some(p))
              && (p.container != "" ==> r.Some?)
  {
    var list := At(Listed(m, order), path);
    if r.Some? {
      AnsweredIsStored(m, order, path, r.value);
    }
    if k :| k in m.paths && m.paths[k] == path && ToPack(k) == Some(p) {
      assert SlashFree(p);
      StoredIsListed(m, order, path, p);
      HasContainer(p);
    }
  }

  lemma HasContainer(p: SvcPack)
    requires SlashFree(p)
    ensures Key(p) != KeyWithoutContainer(p) <==> p.container != ""
  {
    KeyInjective(p, Bare(p));
    KeyIsJoin(p);
  }

  lemma AnsweredFrom(m: Mapping, g: Groups, path: string, q: SvcPack) returns (k: string)
    requires IsDefaultPack(m, g, path, Some(q))
    ensures k in ByKey(At(g, path)) && ByKey(At(g, path))[k] == q
    ensures k == Or(m.defaults, path) || Key(q) != KeyWithoutContainer(q)
  {
    var packs := ByKey(At(g, path));
    if Or(m.defaults, path) in packs {
      k := Or(m.defaults, path);
    } else {
      k :| k in packs && packs[k] == q;
    }
  }

  lemma AnsweredIsStored(m: Mapping, order: seq<string>, path: string, q: SvcPack)
    requires Clean(m) && Lists(order, m.paths.Keys) && IsDefaultPack(m, Listed(m, order), path, Some(q))
    ensures exists k :: k in m.paths && m.paths[k] == path && ToPack(k) == Some(q)
    ensures Key(q) == Or(m.defaults, path) || q.container != ""
  {
    var k := AnsweredFrom(m, Listed(m, order), path, q);
    ListedIsStored(m, order, path, k, q);
  }

  lemma ListedIsStored(m: Mapping, order: seq<string>, path: string, k: string, q: SvcPack)
    requires Clean(m) && Lists(order, m.paths.Keys)
    requires k in ByKey(At(Listed(m, order), path)) && ByKey(At(Listed(m, order), path))[k] == q
    ensures exists key :: key in m.paths && m.paths[key] == path && ToPack(key) == Some(q)
    ensures Key(q) == k && (Key(q) != KeyWithoutContainer(q) <==> q.container != "")
  {
    ByKeyValues(At(Listed(m, order), path), k);
    GroupMember(m, order, path, q);
    var key :| key in m.paths && m.paths[key] == path && ToPack(key) == Some(q);
    HasContainer(q);
  }

  /** The packs of the directory a pack is in before it is associated. */
  ghost function PacksBefore(m: Mapping, p: SvcPack, order: seq<string>): set<string>
    requires Lists(order, m.paths.Keys)
  {
    ByKey(At(Listed(m, order), Or(m.paths, Key(p)))).Keys
  }

  /** Without the flag, an existing default of the directory stays if and only if the pack was not alone
      where it was, or is itself the default and recorded again; and it was not the default of this very
      directory while others are there. */
  lemma DefaultStaysExactly(m: Mapping, d: string, p: SvcPack, content: string, order: seq<string>, m': Mapping)
    requires Lists(order, m.paths.Keys) && DefaultsAfter(m, d, p, content, false, order, m'.defaults)
    requires d in m.defaults
    ensures var packs, isDefault := PacksBefore(m, p, order), m.defaults[d] == Key(p);
            Get(m'.defaults, d) == Some(m.defaults[d]) <==>
            if |packs| == 1 then content != "" && isDefault
            else !(isDefault && Or(m.paths, Key(p)) == d && packs - {Key(p)} != {})
  {
    var removed :| Removed(m, d, p, order, removed) &&
      m'.defaults == if content == "" then removed else WithDefault(removed, d, Key(p), false);
    DefaultsAt(m.defaults, d, Key(p), Or(m.paths, Key(p)), PacksBefore(m, p, order), removed);
  }

  lemma DefaultsAt(was: map<string, string>, d: string, key: string, before: string, packs: set<string>,
                   now: map<string, string>)
    requires DefaultsAfterRemove(was, d, key, before, packs, now) && d in was
    ensures |packs| == 1 ==> d !in now
    ensures |packs| != 1 ==> d in now
    ensures |packs| != 1 ==> (now[d] == was[d] <==> !(was[d] == key && before == d && packs - {key} != {}))
  {
  }

  /** A pack alone in its directory is the only one listed there. */
  lemma LonePack(m: Mapping, p: SvcPack, order: seq<string>)
    requires Clean(m) && SlashFree(p) && Lists(order, m.paths.Keys) && Key(p) in m.paths
    requires forall k :: k in m.paths && m.paths[k] == m.paths[Key(p)] ==> k == Key(p)
    ensures PacksBefore(m, p, order) == {Key(p)}
  {
    StoredPackIsListed(m, p, order);
    var before := m.paths[Key(p)];
    forall key | key in ByKey(At(Listed(m, order), before)) ensures key == Key(p) {
      if key != Key(p) {
        var k, q := OthersAreStored(m, p, order, before, key);
      }
    }
  }

  /** Associating a pack that was alone with another directory, without the flag, makes it that
      directory's default whether or not the directory had one. */
  lemma LonePackTakesDefault(m: Mapping, d: string, p: SvcPack, content: string, order: seq<string>, m': Mapping)
    requires Clean(m) && SlashFree(p) && Lists(order, m.paths.Keys) && Key(p) in m.paths && content != ""
    requires forall k :: k in m.paths && m.paths[k] == m.paths[Key(p)] ==> k == Key(p)
    requires DefaultsAfter(m, d, p, content, false, order, m'.defaults)
    ensures Get(m'.defaults, d) == Some(Key(p))
  {
    LonePack(m, p, order);
    LoneDefault(m.defaults, d, Key(p), m.paths[Key(p)], PacksBefore(m, p, order), m'.defaults);
  }

  lemma LoneDefault(was: map<string, string>, d: string, key: string, before: string, packs: set<string>,
                    now: map<string, string>)
    requires packs == {key}
    requires exists removed ::
               DefaultsAfterRemove(was, d, key, before, packs, removed) && now == WithDefault(removed, d, key, false)
    ensures Get(now, d) == Some(key)
  {
  }

  lemma TwoPaths(a: string, b: string, paths: map<string, string>)
    requires a != b && paths == map[a := "/a", b := "/b"]
    ensures a in paths && forall k :: k in paths && paths[k] == paths[a] ==> k == a
  {
    assert "/a"[1] != "/b"[1];
  }

  lemma TwoPacks(p: SvcPack, q: SvcPack, m: Mapping)
    requires SlashFree(p) && SlashFree(q) && m.paths.Keys == {Key(p), Key(q)}
    ensures Clean(m)
  {
    KeyRoundTrip(p);
    KeyRoundTrip(q);
  }

  /** Two packs without container, each alone in its directory and its default: associating the first
      with the second's directory, without the flag, takes that directory's default away. */
  lemma MovedPackTakesDefault(p: SvcPack, q: SvcPack, content: string, order: seq<string>, m: Mapping, m': Mapping)
    requires SlashFree(p) && SlashFree(q) && p != q && content != ""
    requires m.paths == map[Key(p) := "/a", Key(q) := "/b"] && Get(m.defaults, "/b") == Some(Key(q))
    requires Lists(order, m.paths.Keys) && DefaultsAfter(m, "/b", p, content, false, order, m'.defaults)
    ensures Get(m'.defaults, "/b") == Some(Key(p)) && Key(p) != Key(q)
  {
    KeyInjective(p, q);
    TwoPaths(Key(p), Key(q), m.paths);
    TwoPacks(p, q, m);
    LonePackTakesDefault(m, "/b", p, content, order, m');
  }

  /** After removing the association no lookup finds it, by full or legacy key, with or without
      container. */
  lemma UnAssociatedIsGone(m: Mapping, p: SvcPack, m': Mapping)
    requires m'.paths == m.paths - set k | k in Forms(p)
    ensures Lookup(m', p) == "" && Lookup(m', Bare(p)) == "" && CachedLookup(m', p) == ""
    ensures forall k :: (&& k != Key(p) && k != KeyWithoutContainer(p) && k != WithoutNid(Key(p))
                         && k != WithoutNid(KeyWithoutContainer(p))) ==> Get(m'.paths, k) == Get(m.paths, k)
  {
    var fs := Forms(p);
    NoneStored(m.paths, fs, m'.paths);
    assert Key(Bare(p)) == KeyWithoutContainer(Bare(p)) == KeyWithoutContainer(p);
    FirstOfNone(m'.paths, fs[0], fs[1], fs[2], fs[3]);
    FirstOfNone(m'.paths, fs[1], fs[1], fs[3], fs[3]);
  }

  lemma NoneStored(paths: map<string, string>, keys: seq<string>, paths': map<string, string>)
    requires paths' == paths - set k | k in keys
    ensures forall i :: 0 <= i < |keys| ==> keys[i] !in paths'
  {
  }

  lemma FirstOfNone(paths: map<string, string>, a: string, b: string, c: string, d: string)
    requires a !in paths && b !in paths && c !in paths && d !in paths
    ensures FirstOf(paths, a, b, c, d) == ""
  {
  }

  lemma OthersAreStored(m: Mapping, p: SvcPack, order: seq<string>, before: string, key: string)
    returns (k: string, q: SvcPack)
    requires Clean(m) && SlashFree(p) && Lists(order, m.paths.Keys)
    requires key in ByKey(At(Listed(m, order), before)) && key != Key(p)
    ensures k in m.paths && k != Key(p) && m.paths[k] == before && ToPack(k) == Some(q)
    ensures SlashFree(q) && Key(q) == key
  {
    var list := At(Listed(m, order), before);
    ByKeyValues(list, key);
    q := ByKey(list)[key];
    GroupMember(m, order, before, q);
    k :| k in m.paths && m.paths[k] == before && ToPack(k) == Some(q);
    KeyRoundTrip(p);
  }

  lemma StoredPackIsListed(m: Mapping, p: SvcPack, order: seq<string>)
    requires Clean(m) && SlashFree(p) && Lists(order, m.paths.Keys) && Key(p) in m.paths
    ensures Key(p) in ByKey(At(Listed(m, order), m.paths[Key(p)]))
  {
    KeyRoundTrip(p);
    StoredIsListed(m, order, m.paths[Key(p)], p);
  }

  lemma Replacement(m: Mapping, d: string, p: SvcPack, order: seq<string>, now: map<string, string>)
    returns (k: string, q: SvcPack)
    requires Clean(m) && SlashFree(p) && Key(p) in m.paths && Or(m.defaults, m.paths[Key(p)]) == Key(p)
    requires Lists(order, m.paths.Keys) && Removed(m, d, p, order, now)
    requires ByKey(At(Listed(m, order), m.paths[Key(p)])).Keys - {Key(p)} != {}
    ensures k in m.paths && k != Key(p) && m.paths[k] == m.paths[Key(p)] && ToPack(k) == Some(q)
    ensures SlashFree(q) && Key(q) == Or(now, m.paths[Key(p)]) && q != p
  {
    var before := m.paths[Key(p)];
    var packs := ByKey(At(Listed(m, order), before)).Keys;
    StoredPackIsListed(m, p, order);
    var key := ReplacedBy(m.defaults, d, Key(p), before, packs, now);
    k, q := OthersAreStored(m, p, order, before, key);
  }

  /** Removing the default pack of a directory that has others makes one of the others, still
      stored there, the default. */
  lemma RemovedDefaultIsReplaced(m: Mapping, d: string, p: SvcPack, order: seq<string>, m': Mapping,
                                 order': seq<string>, r: Option<SvcPack>)
    requires Clean(m) && SlashFree(p) && Key(p) in m.paths && Or(m.defaults, m.paths[Key(p)]) == Key(p)
    requires Lists(order, m.paths.Keys) && Removed(m, d, p, order, m'.defaults)
    requires m'.paths == m.paths - {Key(p)}
    requires ByKey(At(Listed(m, order), m.paths[Key(p)])).Keys - {Key(p)} != {}
    requires Lists(order', m'.paths.Keys) && IsDefaultPack(m', Listed(m', order'), m.paths[Key(p)], r)
    ensures r.Some? && r.value != p
    ensures exists k :: k in m'.paths && m'.paths[k] == m.paths[Key(p)] && ToPack(k) == r
  {
    var k, q := Replacement(m, d, p, order, m'.defaults);
    CleanWithout(m, Key(p), m');
    StillStored(m.paths, Key(p), m'.paths, k);
    StoredIsDefault(m', order', m.paths[Key(p)], k, q, r);
  }

  lemma CleanWithout(m: Mapping, key: string, m': Mapping)
    requires Clean(m) && m'.paths == m.paths - {key}
    ensures Clean(m')
  {
  }

  lemma StillStored(paths: map<string, string>, key: string, paths': map<string, string>, k: string)
    requires paths' == paths - {key} && k in paths && k != key
    ensures k in paths' && paths'[k] == paths[k]
  {
  }

  lemma StoredIsDefault(m: Mapping, order: seq<string>, path: string, k: string, q: SvcPack, r: Option<SvcPack>)
    requires Clean(m) && Lists(order, m.paths.Keys) && SlashFree(q)
    requires k in m.paths && m.paths[k] == path && ToPack(k) == Some(q) && Or(m.defaults, path) == Key(q)
    requires IsDefaultPack(m, Listed(m, order), path, r)
    ensures r == Some(q)
  {
    StoredIsListed(m, order, path, q);
    DefaultIs(m, Listed(m, order), path, Key(q), q, r);
  }

  lemma ReplacedBy(was: map<string, string>, d: string, key: string, before: string, packs: set<string>,
                   now: map<string, string>) returns (r: string)
    requires DefaultsAfterRemove(was, d, key, before, packs, now)
    requires key in packs && Or(was, before) == key && packs - {key} != {}
    ensures r in packs - {key} && Or(now, before) == r
  {
    assert packs == packs - {key} + {key};
    r :| r in packs - {key} && now == was[before := r];
  }

  lemma DefaultIs(m: Mapping, g: Groups, path: string, key: string, q: SvcPack, r: Option<SvcPack>)
    requires IsDefaultPack(m, g, path, r) && Or(m.defaults, path) == key
    requires key in ByKey(At(g, path)) && ByKey(At(g, path))[key] == q
    ensures r == Some(q)
  {
  }

  // ---------------------------------------------------------------- the cache

  /** Just after a flush the cached lookup differs from the stored one exactly for packs that only
      a legacy key knows. */
  lemma CacheAgreesExactly(m: Mapping, p: SvcPack)
    requires Valid(p)
    ensures CachedLookup(m, p) == Lookup(m, p) <==>
            || Key(p) in m.paths || KeyWithoutContainer(p) in m.paths
            || (if WithoutNid(Key(p)) in m.paths then m.paths[WithoutNid(Key(p))] == ""
                else Or(m.paths, WithoutNid(KeyWithoutContainer(p))) == "")
  {
  }

  /** A pack that only its legacy key knows is found in the store and not in the cache. */
  lemma LegacyOnlyIsMissed(m: Mapping, p: SvcPack)
    requires Valid(p) && SlashFree(p) && m.paths == map[WithoutNid(Key(p)) := "/d"]
    ensures Lookup(m, p) == "/d" && CachedLookup(m, p) == ""
  {
    LegacyIsNotFull(p, p);
    LegacyIsNotFull(p, Bare(p));
    KeyIsJoin(p);
  }

  lemma NoLegacy(paths: map<string, string>, a: string, b: string, c: string, d: string)
    requires forall k :: k in paths ==> k != c && k != d
    ensures FirstOf(paths, a, b, c, d) == if a in paths then paths[a] else Or(paths, b)
  {
  }

  lemma FullKeyIsNotLegacy(k: string, p: SvcPack)
    requires FullKey(k) && SlashFree(p)
    ensures k != WithoutNid(Key(p)) && k != WithoutNid(KeyWithoutContainer(p))
  {
    KeyIsJoin(p);
    LegacyIsNotFull(p, ToPack(k).value);
    LegacyIsNotFull(Bare(p), ToPack(k).value);
  }

  /** In particular they agree for every pack when all stored keys have six fields. */
  lemma CacheAgreesWithoutLegacy(m: Mapping, p: SvcPack)
    requires SlashFree(p) && forall k :: k in m.paths ==> FullKey(k)
    ensures CachedLookup(m, p) == Lookup(m, p)
  {
    forall k | k in m.paths ensures k != WithoutNid(Key(p)) && k != WithoutNid(KeyWithoutContainer(p)) {
      FullKeyIsNotLegacy(k, p);
    }
    NoLegacy(m.paths, Key(p), KeyWithoutContainer(p), WithoutNid(Key(p)), WithoutNid(KeyWithoutContainer(p)));
  }
}
