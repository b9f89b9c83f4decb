/** Which application a resource belongs to: the one named in its own annotations or, through owner
    references, in those of the nearest owner that has one. */
module OwnerLookup {
  import opened Common

  const DEFAULT_APPLICATION := "default.application"
  const APP_NAME := "dev.nocalhost/application-name"
  const HELM_RELEASE := "meta.helm.sh/release-name"

  datatype Gvk = Gvk(group: string, version: string, kind: string)

  /** `gvk` is None when the reference's API version cannot be parsed. */
  datatype OwnerRef = OwnerRef(gvk: Option<Gvk>, name: string, controller: bool)

  datatype Object = Object(ns: string, name: string, annotations: map<string, string>, deleting: bool,
                           owners: seq<OwnerRef>, labels: map<string, string>)

  datatype Ref = Ref(gvk: Gvk, ns: string, name: string)

  /** All informer stores; kinds that have no informer have no entries. */
  type Stores = map<Ref, Object>

  function Or(m: map<string, string>, k: string): string {
    if k in m then m[k] else ""
  }

  /** The application an object names itself; one that is being deleted names none. */
  function AppNameOrigin(o: Object): string {
    if o.deleting then ""
    else if Or(o.annotations, APP_NAME) != "" then Or(o.annotations, APP_NAME)
    else Or(o.annotations, HELM_RELEASE)
  }

  /** The application an object counts under when its owners are not consulted. */
  function AppName(o: Object): string {
    if AppNameOrigin(o) == "" then DEFAULT_APPLICATION else AppNameOrigin(o)
  }

  /** The first reference marked as controller. */
  function Controller(refs: seq<OwnerRef>): Option<OwnerRef> {
    if refs == [] then None else if refs[0].controller then Some(refs[0]) else Controller(refs[1..])
  }

  /** The stored owner of an object, looked up in the object's own namespace. */
  function OwnerOf(o: Object, s: Stores): (r: Option<Ref>)
    ensures r.Some? ==> r.value in s
  {
    match Controller(o.owners)
    case None => None
    case Some(ref) =>
      if ref.gvk.None? then None
      else
        var r := Ref(ref.gvk.value, o.ns, ref.name);
        if r in s then Some(r) else None
  }

  /** The source's recursion, cut off after `calls` calls. */
  function Calls(o: Object, s: Stores, calls: nat): Option<string>
    decreases calls
  {
    if calls == 0 then None
    else if AppNameOrigin(o) != "" then Some(AppNameOrigin(o))
    else match OwnerOf(o, s)
      case None => Some(DEFAULT_APPLICATION)
      case Some(r) => Calls(s[r], s, calls - 1)
  }

  /** The same recursion with the references it has followed: None when it comes back to one. */
  function Follow(o: Object, s: Stores, visited: set<Ref>): Option<string>
    decreases s.Keys - visited
  {
    if AppNameOrigin(o) != "" then Some(AppNameOrigin(o))
    else match OwnerOf(o, s)
      case None => Some(DEFAULT_APPLICATION)
      case Some(r) => if r in visited then None else Follow(s[r], s, visited + {r})
  }

  // ---------------------------------------------------------------- when the recursion ends

  lemma {:induction false} MoreCalls(o: Object, s: Stores, n: nat, m: nat)
    requires Calls(o, s, n).Some? && n <= m
    ensures Calls(o, s, m) == Calls(o, s, n)
    decreases n
  {
    if AppNameOrigin(o) == "" && OwnerOf(o, s).Some? {
      MoreCalls(s[OwnerOf(o, s).value], s, n - 1, m - 1);
    }
  }

  lemma {:induction false} FollowIsCalls(o: Object, s: Stores, visited: set<Ref>)
    requires Follow(o, s, visited).Some?
    ensures exists n: nat :: Calls(o, s, n) == Follow(o, s, visited)
    decreases s.Keys - visited
  {
    var own := OwnerOf(o, s);
    if AppNameOrigin(o) == "" && own.Some? {
      FollowIsCalls(s[own.value], s, visited + {own.value});
      var n: nat :| Calls(s[own.value], s, n) == Follow(o, s, visited);
      assert Calls(o, s, n + 1) == Follow(o, s, visited);
    } else {
      assert Calls(o, s, 1) == Follow(o, s, visited);
    }
  }

  /** `n` is the number of calls the recursion from `o` needs; the references followed before needed
      more. */
  lemma {:induction false} CallsIsFollow(o: Object, s: Stores, n: nat, visited: set<Ref>)
    requires n > 0 && Calls(o, s, n).Some? && Calls(o, s, n - 1).None?
    requires forall v :: v in visited ==> v in s && Calls(s[v], s, n - 1).None?
    ensures Follow(o, s, visited) == Calls(o, s, n)
    decreases n
  {
    var own := OwnerOf(o, s);
    if AppNameOrigin(o) == "" && own.Some? {
      var r := own.value;
      assert Calls(s[r], s, n - 1).Some?;
      assert n > 1;
      forall v | v in visited + {r} ensures v in s && Calls(s[v], s, n - 2).None? {
        if v in visited && Calls(s[v], s, n - 2).Some? {
          MoreCalls(s[v], s, n - 2, n - 1);
        }
      }
      CallsIsFollow(s[r], s, n - 1, visited + {r});
    }
  }

  lemma {:induction false} FewestCalls(o: Object, s: Stores, n: nat) returns (m: nat)
    requires Calls(o, s, n).Some?
    ensures 0 < m <= n && Calls(o, s, m).Some? && Calls(o, s, m - 1).None?
  {
    if Calls(o, s, n - 1).None? {
      m := n;
    } else {
      m := FewestCalls(o, s, n - 1);
    }
  }

  /** The recursion ends if and only if following the owners never comes back to an owner already
      followed, and then both give the same application. */
  lemma EndsExactly(o: Object, s: Stores)
    ensures Follow(o, s, {}).Some? <==> exists n: nat :: Calls(o, s, n).Some?
    ensures forall n: nat :: Calls(o, s, n).Some? ==> Calls(o, s, n) == Follow(o, s, {})
  {
    if Follow(o, s, {}).Some? {
      FollowIsCalls(o, s, {});
    }
    forall n: nat | Calls(o, s, n).Some? ensures Calls(o, s, n) == Follow(o, s, {}) {
      var m := FewestCalls(o, s, n);
      MoreCalls(o, s, m, n);
      CallsIsFollow(o, s, m, {});
    }
  }

  /** Owners rank below what they own, so no chain of owners repeats. */
  ghost predicate Acyclic(s: Stores, rank: Ref -> nat) {
    forall r :: r in s && OwnerOf(s[r], s).Some? ==> rank(OwnerOf(s[r], s).value) < rank(r)
  }

  lemma {:induction false} AcyclicEnds(o: Object, s: Stores, rank: Ref -> nat, n: nat)
    requires Acyclic(s, rank)
    requires OwnerOf(o, s).Some? ==> rank(OwnerOf(o, s).value) < n
    ensures Calls(o, s, n + 1).Some?
    decreases n
  {
    var own := OwnerOf(o, s);
    if AppNameOrigin(o) == "" && own.Some? {
      AcyclicEnds(s[own.value], s, rank, rank(own.value));
      MoreCalls(s[own.value], s, rank(own.value) + 1, n);
    }
  }

  // ---------------------------------------------------------------- which application it is

  predicate Blank(v: Option<string>) {
    v == None || v == Some("")
  }

  /** An object that is not being deleted names its application by an annotation of this program's or, if that
      is missing or empty, by Helm's. */
  predicate NamesApp(o: Object, app: string) {
    var own := Get(o.annotations, "dev.nocalhost/application-name");
    var release := Get(o.annotations, "meta.helm.sh/release-name");
    !o.deleting && app != "" && (own == Some(app) || (Blank(own) && release == Some(app)))
  }

  /** An object that is being deleted, or has neither annotation, names none. */
  predicate NamesNone(o: Object) {
    || o.deleting
    || (&& Blank(Get(o.annotations, "dev.nocalhost/application-name"))
        && Blank(Get(o.annotations, "meta.helm.sh/release-name")))
  }

  /** The owner: what is stored under the first reference marked as controller, in the object's namespace. */
  ghost predicate OwnedBy(o: Object, x: Object, s: Stores) {
    exists i :: 0 <= i < |o.owners| && o.owners[i].controller && (forall j :: 0 <= j < i ==> !o.owners[j].controller)
      && o.owners[i].gvk.Some? && Get(s, Ref(o.owners[i].gvk.value, o.ns, o.owners[i].name)) == Some(x)
  }

  /** `path` leads from an object through owners that name no application to the first that names one, or to one
      without a stored owner, which belongs to the default application. */
  ghost predicate NearestNamed(path: seq<Object>, o: Object, s: Stores, app: string) {
    && path != [] && path[0] == o
    && (forall i :: 0 <= i < |path| - 1 ==> NamesNone(path[i]) && OwnedBy(path[i], path[i + 1], s))
    && var last := path[|path| - 1];
       || NamesApp(last, app)
       || (NamesNone(last) && (forall x :: !OwnedBy(last, x, s)) && app == "default.application")
  }

  lemma NamesAre(o: Object, app: string)
    ensures NamesNone(o) <==> AppNameOrigin(o) == ""
    ensures NamesApp(o, app) <==> app != "" && AppNameOrigin(o) == app
  {
  }

  lemma {:induction false} FirstController(refs: seq<OwnerRef>) returns (i: nat)
    ensures i <= |refs| && forall j :: 0 <= j < i ==> !refs[j].controller
    ensures if i < |refs| then refs[i].controller && Controller(refs) == Some(refs[i]) else Controller(refs) == None
  {
    if refs == [] || refs[0].controller {
      i := 0;
    } else {
      i := FirstController(refs[1..]);
      i := i + 1;
    }
  }

  lemma OwnersAre(o: Object, x: Object, s: Stores)
    ensures OwnedBy(o, x, s) <==> OwnerOf(o, s).Some? && s[OwnerOf(o, s).value] == x
  {
    var i := FirstController(o.owners);
  }

  lemma OwnerlessAre(o: Object, s: Stores)
    ensures OwnerOf(o, s).None? <==> forall x :: !OwnedBy(o, x, s)
  {
    forall x ensures OwnedBy(o, x, s) <==> OwnerOf(o, s).Some? && s[OwnerOf(o, s).value] == x {
      OwnersAre(o, x, s);
    }
    if OwnerOf(o, s).Some? {
      assert OwnedBy(o, s[OwnerOf(o, s).value], s);
    }
  }

  /** The same path in terms of the functions that the lookup calls. */
  ghost predicate Chain(path: seq<Object>, o: Object, s: Stores, app: string) {
    && path != [] && path[0] == o
    && (forall i :: 0 <= i < |path| - 1 ==>
          AppNameOrigin(path[i]) == "" && OwnerOf(path[i], s).Some? && path[i + 1] == s[OwnerOf(path[i], s).value])
    && var last := path[|path| - 1];
       if AppNameOrigin(last) != "" then app == AppNameOrigin(last)
       else OwnerOf(last, s).None? && app == DEFAULT_APPLICATION
  }

  lemma {:induction false} PathGivesApp(path: seq<Object>, o: Object, s: Stores, app: string)
    requires Chain(path, o, s, app)
    ensures Calls(o, s, |path|) == Some(app)
    decreases |path|
  {
    if |path| > 1 {
      assert path[1..][0] == path[1];
      assert Chain(path[1..], path[1], s, app) by {
        assert forall i :: 0 <= i < |path[1..]| ==> path[1..][i] == path[i + 1];
      }
      PathGivesApp(path[1..], path[1], s, app);
    }
  }

  lemma LongerPath(rest: seq<Object>, next: Object, o: Object, s: Stores, app: string)
    requires Chain(rest, next, s, app)
    requires AppNameOrigin(o) == "" && OwnerOf(o, s).Some? && next == s[OwnerOf(o, s).value]
    ensures Chain([o] + rest, o, s, app)
  {
    var path := [o] + rest;
    forall i | 0 <= i < |path| - 1
      ensures AppNameOrigin(path[i]) == "" && OwnerOf(path[i], s).Some? && path[i + 1] == s[OwnerOf(path[i], s).value]
    {
      assert path[i + 1] == rest[i];
      assert i > 0 ==> path[i] == rest[i - 1];
    }
    assert path[|path| - 1] == rest[|rest| - 1];
  }

  lemma {:induction false} AppHasPath(o: Object, s: Stores, n: nat) returns (path: seq<Object>)
    requires Calls(o, s, n).Some?
    ensures Chain(path, o, s, Calls(o, s, n).value)
    decreases n
  {
    var own := OwnerOf(o, s);
    if AppNameOrigin(o) == "" && own.Some? {
      var rest := AppHasPath(s[own.value], s, n - 1);
      path := [o] + rest;
      LongerPath(rest, s[own.value], o, s, Calls(o, s, n).value);
    } else {
      path := [o];
    }
  }

  lemma LinkIs(x: Object, y: Object, s: Stores)
    ensures NamesNone(x) && OwnedBy(x, y, s) <==>
            AppNameOrigin(x) == "" && OwnerOf(x, s).Some? && y == s[OwnerOf(x, s).value]
  {
    NamesAre(x, "");
    OwnersAre(x, y, s);
  }

  lemma EndIs(x: Object, s: Stores, app: string)
    ensures NamesApp(x, app) || (NamesNone(x) && (forall y :: !OwnedBy(x, y, s)) && app == "default.application") <==>
            if AppNameOrigin(x) != "" then app == AppNameOrigin(x)
            else OwnerOf(x, s).None? && app == DEFAULT_APPLICATION
  {
    NamesAre(x, app);
    OwnerlessAre(x, s);
  }

  lemma ChainIs(path: seq<Object>, o: Object, s: Stores, app: string)
    ensures NearestNamed(path, o, s, app) <==> Chain(path, o, s, app)
  {
    if path != [] {
      EndIs(path[|path| - 1], s, app);
    }
    if NearestNamed(path, o, s, app) {
      forall i | 0 <= i < |path| - 1
        ensures AppNameOrigin(path[i]) == "" && OwnerOf(path[i], s).Some? && path[i + 1] == s[OwnerOf(path[i], s).value]
      {
        assert NamesNone(path[i]) && OwnedBy(path[i], path[i + 1], s);
        LinkIs(path[i], path[i + 1], s);
      }
    }
    if Chain(path, o, s, app) {
      forall i | 0 <= i < |path| - 1 ensures NamesNone(path[i]) && OwnedBy(path[i], path[i + 1], s) {
        LinkIs(path[i], path[i + 1], s);
      }
    }
  }

  /** Whenever the lookup ends, it names the application of the nearest owner that is alive and names
      one, or the default application when there is none; and only that. */
  lemma LookupIsNearest(o: Object, s: Stores, app: string)
    ensures Follow(o, s, {}) == Some(app) <==> exists path :: NearestNamed(path, o, s, app)
  {
    EndsExactly(o, s);
    if Follow(o, s, {}) == Some(app) {
      var n: nat :| Calls(o, s, n).Some?;
      var path := AppHasPath(o, s, n);
      ChainIs(path, o, s, app);
    }
    if path :| NearestNamed(path, o, s, app) {
      ChainIs(path, o, s, app);
      PathGivesApp(path, o, s, app);
    }
  }

  /** The application an object counts under by itself. */
  lemma AppNameIs(o: Object, app: string)
    ensures AppName(o) == app <==> NamesApp(o, app) || (NamesNone(o) && app == "default.application")
  {
    NamesAre(o, app);
  }

  /** Equal, or both being deleted and equal but for their annotations. */
  predicate Alike(x: Object, y: Object) {
    x == y || (x.deleting && y.deleting && x.(annotations := y.annotations) == y)
  }

  ghost predicate StoresAlike(s: Stores, s': Stores) {
    s.Keys == s'.Keys && forall r :: r in s ==> Alike(s[r], s'[r])
  }

  lemma {:induction false} CallsAlike(x: Object, y: Object, s: Stores, s': Stores, n: nat)
    requires Alike(x, y) && StoresAlike(s, s')
    ensures Calls(x, s, n) == Calls(y, s', n)
    decreases n
  {
    if n > 0 {
      assert OwnerOf(x, s) == OwnerOf(y, s');
      if OwnerOf(x, s).Some? {
        CallsAlike(s[OwnerOf(x, s).value], s'[OwnerOf(x, s).value], s, s', n - 1);
      }
    }
  }

  /** What objects that are being deleted have for annotations never changes any lookup. */
  lemma DeletedNamesDoNotCount(x: Object, y: Object, s: Stores, s': Stores)
    requires Alike(x, y) && StoresAlike(s, s')
    ensures Follow(x, s, {}) == Follow(y, s', {})
  {
    EndsExactly(x, s);
    EndsExactly(y, s');
    forall n: nat ensures Calls(x, s, n) == Calls(y, s', n) {
      CallsAlike(x, y, s, s', n);
    }
  }

  /** On acyclic owners every object has an application, and its name is not empty. */
  function AppOf(o: Object, s: Stores, ghost rank: Ref -> nat): (app: string)
    requires Acyclic(s, rank)
    ensures Follow(o, s, {}) == Some(app) && app != ""
  {
    assert Follow(o, s, {}).Some? by {
      var n := if OwnerOf(o, s).Some? then rank(OwnerOf(o, s).value) + 1 else 0;
      AcyclicEnds(o, s, rank, n);
      EndsExactly(o, s);
    }
    NotEmpty(o, s, {});
    Follow(o, s, {}).value
  }

  lemma {:induction false} NotEmpty(o: Object, s: Stores, visited: set<Ref>)
    ensures Follow(o, s, visited) != Some("")
    decreases s.Keys - visited
  {
    var own := OwnerOf(o, s);
    if AppNameOrigin(o) == "" && own.Some? && own.value !in visited {
      NotEmpty(s[own.value], s, visited + {own.value});
    }
  }

  // ---------------------------------------------------------------- filters

  function Keep(xs: seq<Object>, p: Object -> bool): seq<Object> {
    if xs == [] then []
    else
      var rest := Keep(xs[..|xs| - 1], p);
      if p(xs[|xs| - 1]) then rest + [xs[|xs| - 1]] else rest
  }

  /** A filter keeps every occurrence of what it accepts and nothing else. */
  lemma {:induction false} KeepCounts(xs: seq<Object>, p: Object -> bool, x: Object)
    ensures multiset(Keep(xs, p))[x] == if p(x) then multiset(xs)[x] else 0
  {
    if xs != [] {
      KeepCounts(xs[..|xs| - 1], p, x);
      assert xs == xs[..|xs| - 1] + [xs[|xs| - 1]];
    }
  }

  predicate Selected(o: Object, wanted: map<string, string>, equal: bool) {
    forall k :: k in wanted ==> (Or(o.labels, k) == wanted[k]) == equal
  }

  type Test = Object -> bool

  function ByNamespace(ns: string): Test {
    (o: Object) => o.ns == ns
  }

  function ByApp(s: Stores, app: string): Test {
    (o: Object) => Follow(o, s, {}) == Some(app)
  }

  function ByLabels(wanted: map<string, string>, equal: bool): Test {
    (o: Object) => Selected(o, wanted, equal)
  }

  function ByName(n: string): Test {
    (o: Object) => o.name == n
  }

  class Filter {
    var element: seq<Object>

    constructor (element: seq<Object>)
      ensures this.element == element
    {
      this.element := element;
    }

    /** The loop that all filters share. */
    method KeepMatching(p: Object -> bool)
      modifies this
      ensures element == Keep(old(element), p)
    {
      var all := element;
      var result: seq<Object> := [];
      for i := 0 to |all|
        invariant result == Keep(all[..i], p)
      {
        assert all[..i + 1][..i] == all[..i];
        if p(all[i]) {
          result := result + [all[i]];
        }
      }
      assert all[..|all|] == all;
      element := result;
    }

    method Namespace(ns: string)
      modifies this
      ensures element == if ns == "" then old(element) else Keep(old(element), ByNamespace(ns))
    {
      if ns != "" {
        KeepMatching(ByNamespace(ns));
      }
    }

    /** Needs acyclic owners; otherwise the source does not return. */
    method AppName(app: string, s: Stores, ghost rank: Ref -> nat)
      requires Acyclic(s, rank)
      modifies this
      ensures element == if app == "" then old(element) else Keep(old(element), ByApp(s, app))
    {
      if app != "" {
        KeepMatching(ByApp(s, app));
      }
    }

    /** `equal` distinguishes the two label filters. */
    method Label(wanted: map<string, string>, equal: bool)
      modifies this
      ensures element == Keep(old(element), ByLabels(wanted, equal))
    {
      KeepMatching(ByLabels(wanted, equal));
    }
  }

  // ---------------------------------------------------------------- applications split a list

  function OfApp(xs: seq<Object>, s: Stores, app: string): seq<Object> {
    Keep(xs, ByApp(s, app))
  }

  /** The parts of a list by application, one after the other. */
  function Parts(xs: seq<Object>, s: Stores, apps: seq<string>): seq<Object> {
    if apps == [] then [] else Parts(xs, s, apps[..|apps| - 1]) + OfApp(xs, s, apps[|apps| - 1])
  }

  /** Without repetitions the last name is new. */
  lemma LastIsNew(apps: seq<string>)
    requires apps != [] && forall i, j :: 0 <= i < j < |apps| ==> apps[i] != apps[j]
    ensures var front, last := apps[..|apps| - 1], apps[|apps| - 1];
            last !in front && forall a :: a in apps <==> a in front || a == last
  {
    assert apps == apps[..|apps| - 1] + [apps[|apps| - 1]];
  }

  lemma {:induction false} PartsCount(xs: seq<Object>, s: Stores, apps: seq<string>, x: Object, app: Option<string>)
    requires forall i, j :: 0 <= i < j < |apps| ==> apps[i] != apps[j]
    requires app == Follow(x, s, {})
    ensures multiset(Parts(xs, s, apps))[x] == if app.Some? && app.value in apps then multiset(xs)[x] else 0
    decreases |apps|
  {
    if apps != [] {
      var front, a := apps[..|apps| - 1], apps[|apps| - 1];
      PartsCount(xs, s, front, x, app);
      KeepCounts(xs, ByApp(s, a), x);
      LastIsNew(apps);
    }
  }

  /** Filtering by every application splits a list: each object is in the part of one application, and
      the parts together are the whole list, counting repetitions. */
  lemma PartsAreWhole(xs: seq<Object>, s: Stores, rank: Ref -> nat, apps: seq<string>)
    requires Acyclic(s, rank)
    requires forall i, j :: 0 <= i < j < |apps| ==> apps[i] != apps[j]
    requires forall x :: x in xs ==> AppOf(x, s, rank) in apps
    ensures multiset(Parts(xs, s, apps)) == multiset(xs)
    ensures forall x, a, b :: x in OfApp(xs, s, a) && x in OfApp(xs, s, b) ==> a == b
  {
    forall x ensures multiset(Parts(xs, s, apps))[x] == multiset(xs)[x] {
      PartsCount(xs, s, apps, x, Follow(x, s, {}));
      if x in xs {
        assert AppOf(x, s, rank) in apps;
      }
    }
    forall x, a, b | x in OfApp(xs, s, a) && x in OfApp(xs, s, b) ensures a == b {
      KeepCounts(xs, ByApp(s, a), x);
      KeepCounts(xs, ByApp(s, b), x);
      assert x in multiset(OfApp(xs, s, a)) && x in multiset(OfApp(xs, s, b));
    }
  }

  const IGNORED := "nocalhost.dev.workload.ignored"

  /** A query before sorting: namespace, application, labels, and hidden workloads. */
  function Query(xs: seq<Object>, ns: string, app: string, s: Stores, wanted: map<string, string>, showHidden: bool)
    : seq<Object>
  {
    var inNs := if ns == "" then xs else Keep(xs, ByNamespace(ns));
    var inApp := if app == "" then inNs else Keep(inNs, ByApp(s, app));
    var labelled := Keep(inApp, ByLabels(wanted, true));
    if showHidden then labelled else Keep(labelled, ByLabels(map[IGNORED := "true"], false))
  }

  /** What a query is for: every occurrence of an object that is in the namespace, belongs to the application,
      has all labels asked for and is not hidden, and nothing else. */
  ghost predicate Answers(x: Object, ns: string, app: string, s: Stores, wanted: map<string, string>,
                          showHidden: bool) {
    && (ns == "" || x.ns == ns)
    && (app == "" || Follow(x, s, {}) == Some(app))
    && (forall k :: k in wanted ==> (if k in x.labels then x.labels[k] else "") == wanted[k])
    && (showHidden || Get(x.labels, "nocalhost.dev.workload.ignored") != Some("true"))
  }

  lemma QueryExactly(xs: seq<Object>, ns: string, app: string, s: Stores, wanted: map<string, string>,
                     showHidden: bool, x: Object)
    ensures multiset(Query(xs, ns, app, s, wanted, showHidden))[x] ==
            if Answers(x, ns, app, s, wanted, showHidden) then multiset(xs)[x] else 0
  {
    var inNs := if ns == "" then xs else Keep(xs, ByNamespace(ns));
    var inApp := if app == "" then inNs else Keep(inNs, ByApp(s, app));
    var labelled, hidden := Keep(inApp, ByLabels(wanted, true)), map[IGNORED := "true"];
    KeepCounts(xs, ByNamespace(ns), x);
    KeepCounts(inNs, ByApp(s, app), x);
    KeepCounts(inApp, ByLabels(wanted, true), x);
    KeepCounts(labelled, ByLabels(hidden, false), x);
    HiddenIs(x);
  }

  /** The two label filters: all labels as asked for, or none of them. */
  lemma LabelsExactly(x: Object, wanted: map<string, string>)
    ensures ByLabels(wanted, true)(x) <==>
            forall k :: k in wanted ==> (if k in x.labels then x.labels[k] else "") == wanted[k]
    ensures ByLabels(wanted, false)(x) <==>
            forall k :: k in wanted ==> (if k in x.labels then x.labels[k] else "") != wanted[k]
  {
  }

  lemma HiddenIs(x: Object)
    ensures Selected(x, map[IGNORED := "true"], false) <==>
            Get(x.labels, "nocalhost.dev.workload.ignored") != Some("true")
  {
    var hidden := map[IGNORED := "true"];
    assert IGNORED in hidden && forall k :: k in hidden ==> k == IGNORED;
    assert |"true"| == 4;
  }

  /** Asking for an application selects, from the answer for all applications, what belongs to it. */
  lemma QueryByApp(xs: seq<Object>, ns: string, app: string, s: Stores, wanted: map<string, string>, showHidden: bool)
    requires app != ""
    ensures Query(xs, ns, app, s, wanted, showHidden) == OfApp(Query(xs, ns, "", s, wanted, showHidden), s, app)
  {
    var inNs := if ns == "" then xs else Keep(xs, ByNamespace(ns));
    var mine, labelled, shown := ByApp(s, app), ByLabels(wanted, true), ByLabels(map[IGNORED := "true"], false);
    KeepCommutes(inNs, mine, labelled);
    KeepCommutes(Keep(inNs, labelled), mine, shown);
  }

  lemma KeepPush(xs: seq<Object>, x: Object, p: Object -> bool)
    ensures Keep(xs + [x], p) == if p(x) then Keep(xs, p) + [x] else Keep(xs, p)
  {
    assert (xs + [x])[..|xs|] == xs;
  }

  /** Filters may be applied in any order. */
  lemma {:induction false} KeepCommutes(xs: seq<Object>, p: Object -> bool, q: Object -> bool)
    ensures Keep(Keep(xs, p), q) == Keep(Keep(xs, q), p)
  {
    if xs != [] {
      var front, last := xs[..|xs| - 1], xs[|xs| - 1];
      KeepCommutes(front, p, q);
      KeepPush(Keep(front, p), last, q);
      KeepPush(Keep(front, q), last, p);
    }
  }

  // ---------------------------------------------------------------- one object by name

  /** A query for one object by namespace and name does not consult its owners. */
  predicate FoundByName(o: Object, app: string) {
    app == "" || app == AppName(o)
  }

  lemma OwnNameFirst(o: Object, s: Stores, visited: set<Ref>)
    ensures AppNameOrigin(o) != "" ==> Follow(o, s, visited) == Some(AppNameOrigin(o))
  {
  }

  /** Asking for an object by name finds it under the same applications as listing them does if and only if
      it names its application itself or its owners lead to the default one. */
  lemma ByNameAgreesExactly(o: Object, s: Stores)
    ensures (forall app :: app != "" ==> (FoundByName(o, app) <==> ByApp(s, app)(o))) <==>
            AppNameOrigin(o) != "" || Follow(o, s, {}) == Some(DEFAULT_APPLICATION)
  {
    OwnNameFirst(o, s, {});
    assert FoundByName(o, AppName(o));
    if forall app :: app != "" ==> (FoundByName(o, app) <==> ByApp(s, app)(o)) {
      assert ByApp(s, AppName(o))(o);
    }
    NotEmpty(o, s, {});
  }

  /** A pod whose deployment names the application: it is listed under it and not found by name. */
  lemma OwnedIsNotFoundByName(gvk: Gvk)
    ensures var owner := Object("a", "web", map[APP_NAME := "shop"], false, [], map[]);
            var pod := Object("a", "web-0", map[], false, [OwnerRef(Some(gvk), "web", true)], map[]);
            var s := map[Ref(gvk, "a", "web") := owner];
            ByApp(s, "shop")(pod) && !FoundByName(pod, "shop")
  {
    var owner := Object("a", "web", map[APP_NAME := "shop"], false, [], map[]);
    var s := map[Ref(gvk, "a", "web") := owner];
    var pod := Object("a", "web-0", map[], false, [OwnerRef(Some(gvk), "web", true)], map[]);
    assert AppNameOrigin(pod) == "" && OwnerOf(pod, s) == Some(Ref(gvk, "a", "web"));
    OwnNameFirst(owner, s, {Ref(gvk, "a", "web")});
    assert {} + {Ref(gvk, "a", "web")} == {Ref(gvk, "a", "web")};
    assert |"shop"| != |DEFAULT_APPLICATION|;
  }

  // ---------------------------------------------------------------- sorting

  /** Names in alphabetical order. */
  predicate Less(a: string, b: string) {
    b != "" && (a == "" || a[0] < b[0] || (a[0] == b[0] && Less(a[1..], b[1..])))
  }

  /** What that means: the first is a proper beginning of the second, or has the smaller character at the first
      place where they differ. */
  lemma {:induction false} LessExactly(a: string, b: string)
    ensures Less(a, b) <==> a < b || exists i :: 0 <= i < |a| && i < |b| && a[..i] == b[..i] && a[i] < b[i]
  {
    if a != "" && b != "" {
      var x, y := a[1..], b[1..];
      LessExactly(x, y);
      assert a == [a[0]] + x && b == [b[0]] + y;
      if a[0] < b[0] {
        assert a[..0] == b[..0];
      }
      if a[0] == b[0] {
        if i :| 0 <= i < |x| && i < |y| && x[..i] == y[..i] && x[i] < y[i] {
          assert a[..i + 1] == [a[0]] + x[..i] && b[..i + 1] == [b[0]] + y[..i] && a[i + 1] < b[i + 1];
        }
        if x < y {
          assert a < b;
        }
      }
      LessBack(a, b);
    }
  }

  lemma LessBack(a: string, b: string)
    requires a != "" && b != ""
    ensures a < b ==> a[0] == b[0] && a[1..] < b[1..]
    ensures (exists i :: 0 <= i < |a| && i < |b| && a[..i] == b[..i] && a[i] < b[i]) ==>
              a[0] < b[0] || (a[0] == b[0] &&
                exists i :: 0 <= i < |a[1..]| && i < |b[1..]| && a[1..][..i] == b[1..][..i] && a[1..][i] < b[1..][i])
  {
    if a < b {
      assert a == b[..|a|];
      assert a[1..] == b[1..][..|a[1..]|];
    }
    if i :| 0 <= i < |a| && i < |b| && a[..i] == b[..i] && a[i] < b[i] {
      if i > 0 {
        assert a[0] == a[..i][0] == b[..i][0] == b[0];
        assert a[1..][..i - 1] == a[..i][1..] && b[1..][..i - 1] == b[..i][1..];
        assert a[1..][i - 1] < b[1..][i - 1];
      }
    }
  }

  lemma {:induction false} LessTotal(a: string, b: string)
    ensures a == b || Less(a, b) || Less(b, a)
  {
    if a != "" && b != "" {
      LessTotal(a[1..], b[1..]);
      assert a == [a[0]] + a[1..] && b == [b[0]] + b[1..];
    }
  }

  lemma {:induction false} AtMostTransitive(a: string, b: string, c: string)
    requires !Less(b, a) && !Less(c, b)
    ensures !Less(c, a)
  {
    if a != "" && b != "" && c != "" && a[0] == b[0] == c[0] {
      AtMostTransitive(a[1..], b[1..], c[1..]);
    }
  }

  ghost predicate InOrder(ys: seq<Object>) {
    forall i, j :: 0 <= i < j < |ys| ==> !Less(ys[j].name, ys[i].name)
  }

  /** A stable sort by name: names in order, objects of the same name in the order they had. */
  ghost predicate StableSort(xs: seq<Object>, ys: seq<Object>) {
    InOrder(ys) && forall n :: Keep(ys, ByName(n)) == Keep(xs, ByName(n))
  }

  /** Keeping the order of every name makes the result a rearrangement. */
  lemma StableSortPermutes(xs: seq<Object>, ys: seq<Object>)
    requires StableSort(xs, ys)
    ensures multiset(ys) == multiset(xs)
  {
    forall x ensures multiset(ys)[x] == multiset(xs)[x] {
      KeepCounts(xs, ByName(x.name), x);
      KeepCounts(ys, ByName(x.name), x);
    }
  }

  /** One stable sort, by insertion behind whatever is not greater. */
  function Insert(ys: seq<Object>, x: Object): seq<Object> {
    if ys == [] || !Less(x.name, ys[|ys| - 1].name) then ys + [x]
    else Insert(ys[..|ys| - 1], x) + [ys[|ys| - 1]]
  }

  function Sorted(xs: seq<Object>): seq<Object> {
    if xs == [] then [] else Insert(Sorted(xs[..|xs| - 1]), xs[|xs| - 1])
  }

  lemma {:induction false} InsertKeeps(ys: seq<Object>, x: Object, n: string)
    ensures Keep(Insert(ys, x), ByName(n)) == Keep(ys + [x], ByName(n))
  {
    if ys != [] && Less(x.name, ys[|ys| - 1].name) {
      var front, last := ys[..|ys| - 1], ys[|ys| - 1];
      InsertKeeps(front, x, n);
      KeepPush(Insert(front, x), last, ByName(n));
      KeepPush(front, x, ByName(n));
      KeepPush(ys, x, ByName(n));
      LessIrreflexive(x.name);
    }
  }

  lemma {:induction false} LessIrreflexive(a: string)
    ensures !Less(a, a)
  {
    if a != "" {
      LessIrreflexive(a[1..]);
    }
  }

  lemma {:induction false} LessAsymmetric(a: string, b: string)
    requires Less(a, b)
    ensures !Less(b, a)
  {
    if a != "" && a[0] == b[0] {
      LessAsymmetric(a[1..], b[1..]);
    }
  }

  lemma {:induction false} InsertMembers(ys: seq<Object>, x: Object)
    ensures multiset(Insert(ys, x)) == multiset(ys) + multiset{x}
  {
    if ys != [] && Less(x.name, ys[|ys| - 1].name) {
      InsertMembers(ys[..|ys| - 1], x);
      assert ys == ys[..|ys| - 1] + [ys[|ys| - 1]];
    }
  }

  lemma {:induction false} InsertInOrder(ys: seq<Object>, x: Object)
    requires InOrder(ys)
    ensures InOrder(Insert(ys, x))
  {
    if ys != [] {
      var front, last := ys[..|ys| - 1], ys[|ys| - 1];
      if Less(x.name, last.name) {
        InsertInOrder(front, x);
        InsertMembers(front, x);
        LessAsymmetric(x.name, last.name);
        var r := Insert(front, x);
        forall i | 0 <= i < |r| ensures !Less(last.name, r[i].name) {
          assert r[i] in multiset(r);
          assert r[i] == x || r[i] in multiset(front);
        }
      } else {
        forall i | 0 <= i < |ys| ensures !Less(x.name, ys[i].name) {
          if i < |ys| - 1 {
            AtMostTransitive(ys[i].name, last.name, x.name);
          }
        }
      }
    }
  }

  lemma {:induction false} SortedIsStableSort(xs: seq<Object>)
    ensures StableSort(xs, Sorted(xs))
  {
    if xs != [] {
      var front, last := xs[..|xs| - 1], xs[|xs| - 1];
      SortedIsStableSort(front);
      InsertInOrder(Sorted(front), last);
      forall n ensures Keep(Sorted(xs), ByName(n)) == Keep(xs, ByName(n)) {
        InsertKeeps(Sorted(front), last, n);
        KeepPush(Sorted(front), last, ByName(n));
      }
    }
  }

  /** Which of the equal names comes last. */
  lemma LastOfName(ys: seq<Object>)
    requires ys != []
    ensures var mine := Keep(ys, ByName(ys[|ys| - 1].name)); mine != [] && mine[|mine| - 1] == ys[|ys| - 1]
  {
  }

  lemma {:induction false} KeepSound(xs: seq<Object>, p: Object -> bool)
    ensures forall x :: x in Keep(xs, p) ==> x in xs && p(x)
  {
    if xs != [] {
      KeepSound(xs[..|xs| - 1], p);
    }
  }

  lemma LastIsThere(ys: seq<Object>, zs: seq<Object>)
    requires ys != [] && forall n :: Keep(ys, ByName(n)) == Keep(zs, ByName(n))
    ensures ys[|ys| - 1] in zs
  {
    var a := ys[|ys| - 1];
    LastOfName(ys);
    KeepSound(zs, ByName(a.name));
    assert a in Keep(zs, ByName(a.name));
  }

  lemma SameLastName(ys: seq<Object>, zs: seq<Object>)
    requires ys != [] && zs != [] && InOrder(ys) && InOrder(zs)
    requires ys[|ys| - 1] in zs && zs[|zs| - 1] in ys
    ensures ys[|ys| - 1].name == zs[|zs| - 1].name
  {
    var a, b := ys[|ys| - 1], zs[|zs| - 1];
    var i :| 0 <= i < |zs| && zs[i] == a;
    var j :| 0 <= j < |ys| && ys[j] == b;
    LessTotal(a.name, b.name);
    LessIrreflexive(a.name);
  }

  lemma SameLast(ys: seq<Object>, zs: seq<Object>)
    requires ys != [] && InOrder(ys) && InOrder(zs)
    requires forall n :: Keep(ys, ByName(n)) == Keep(zs, ByName(n))
    ensures zs != [] && ys[|ys| - 1] == zs[|zs| - 1]
  {
    LastIsThere(ys, zs);
    LastIsThere(zs, ys);
    SameLastName(ys, zs);
    LastOfName(ys);
    LastOfName(zs);
  }

  /** Two stable sorts of one list are equal. */
  lemma {:induction false} StableSortUnique(ys: seq<Object>, zs: seq<Object>)
    requires InOrder(ys) && InOrder(zs) && forall n :: Keep(ys, ByName(n)) == Keep(zs, ByName(n))
    ensures ys == zs
  {
    if ys != [] {
      SameLast(ys, zs);
      var last, front, rest := ys[|ys| - 1], ys[..|ys| - 1], zs[..|zs| - 1];
      forall n ensures Keep(front, ByName(n)) == Keep(rest, ByName(n)) {
        assert Keep(ys, ByName(n)) == Keep(zs, ByName(n));
        if n == last.name {
          assert Keep(front, ByName(n)) == Keep(ys, ByName(n))[..|Keep(ys, ByName(n))| - 1];
          assert Keep(rest, ByName(n)) == Keep(zs, ByName(n))[..|Keep(zs, ByName(n))| - 1];
        }
      }
      StableSortUnique(front, rest);
      assert ys == front + [last] && zs == rest + [last];
    } else if zs != [] {
      LastOfName(zs);
    }
  }

  lemma {:induction false} KeepInOrder(ys: seq<Object>, p: Object -> bool)
    requires InOrder(ys)
    ensures InOrder(Keep(ys, p))
  {
    if ys != [] {
      KeepInOrder(ys[..|ys| - 1], p);
      KeepSound(ys[..|ys| - 1], p);
      var rest := Keep(ys[..|ys| - 1], p);
      forall i | 0 <= i < |rest| ensures !Less(ys[|ys| - 1].name, rest[i].name) {
        assert rest[i] in rest;
      }
    }
  }

  /** Sorting and filtering may change places. */
  lemma SortThenKeep(xs: seq<Object>, p: Object -> bool)
    ensures Keep(Sorted(xs), p) == Sorted(Keep(xs, p))
  {
    SortedIsStableSort(xs);
    SortedIsStableSort(Keep(xs, p));
    KeepInOrder(Sorted(xs), p);
    forall n ensures Keep(Keep(Sorted(xs), p), ByName(n)) == Keep(Sorted(Keep(xs, p)), ByName(n)) {
      KeepCommutes(Sorted(xs), p, ByName(n));
      KeepCommutes(xs, p, ByName(n));
    }
    StableSortUnique(Keep(Sorted(xs), p), Sorted(Keep(xs, p)));
  }

  /** Whatever stable sort is used: the sorted answer for one application is, in order, what the sorted
      answer for all applications has of it. */
  lemma SortedQueryByApp(xs: seq<Object>, ns: string, app: string, s: Stores, wanted: map<string, string>,
                         showHidden: bool, all: seq<Object>, mine: seq<Object>)
    requires app != ""
    requires StableSort(Query(xs, ns, "", s, wanted, showHidden), all)
    requires StableSort(Query(xs, ns, app, s, wanted, showHidden), mine)
    ensures mine == OfApp(all, s, app)
  {
    var q, q' := Query(xs, ns, "", s, wanted, showHidden), Query(xs, ns, app, s, wanted, showHidden);
    SortedIsStableSort(q);
    SortedIsStableSort(q');
    StableSortUnique(all, Sorted(q));
    StableSortUnique(mine, Sorted(q'));
    QueryByApp(xs, ns, app, s, wanted, showHidden);
    SortThenKeep(q, ByApp(s, app));
  }
}
