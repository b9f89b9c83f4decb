/** Replace-mode dev start and dev end of a workload.  Start records the workload's cleaned definition
    in an annotation of the workload itself and then patches it; end deletes the workload and creates
    it again from the record.

    Definitions are JSON trees.  Patches address them by JSON pointers (RFC 6901); what a patch does to
    the record follows from where its pointer leads. */
module Rollback {
  import opened Common

  /** Elements of arrays are fields named by their index; every other value is its text. */
  datatype Json = Text(text: string) | Node(fields: map<string, Json>)

  type Path = seq<string>

  const ORIGIN := "dev.nocalhost/origin-workload-definition"
  const LEGACY := "nocalhost.origin.spec.json"
  const LAST_APPLIED := "kubectl.kubernetes.io/last-applied-configuration"
  const DEP_IGNORE := "nocalhost-dep-ignore"
  const APP_NAME := "dev.nocalhost/application-name"
  const APP_NAMESPACE := "dev.nocalhost/application-namespace"
  const DEV_CONTAINER := "dev.nocalhost/nocalhost-dev"

  /** Where the update strategy of a workload is. */
  const STRATEGY := "/spec/strategy"

  const ANNOTATIONS: Path := ["metadata", "annotations"]

  /** Fields of the metadata that the cluster writes. */
  const SERVER_FIELDS := {"managedFields", "resourceVersion", "creationTimestamp", "uid", "generation"}

  // ---------------------------------------------------------------- trees and pointers

  function Fields(j: Json): map<string, Json> {
    if j.Node? then j.fields else map[]
  }

  function At(j: Json, p: Path): Option<Json> {
    if p == [] then Some(j)
    else if p[0] in Fields(j) then At(Fields(j)[p[0]], p[1..])
    else None
  }

  function Put(j: Json, p: Path, v: Json): Json
    requires At(j, p).Some?
  {
    if p == [] then v else Node(Fields(j)[p[0] := Put(Fields(j)[p[0]], p[1..], v)])
  }

  /** A text cut at every slash. */
  function Tokens(s: string): (ts: Path)
    ensures |ts| > 0
  {
    if s == "" then [""] else Push(Tokens(s[..|s| - 1]), s[|s| - 1])
  }

  function Push(ts: Path, c: char): Path
    requires ts != []
  {
    if c == '/' then ts + [""] else ts[..|ts| - 1] + [ts[|ts| - 1] + [c]]
  }

  lemma PushConcat(xs: Path, ys: Path, c: char)
    requires ys != []
    ensures Push(xs + ys, c) == xs + Push(ys, c)
  {
  }

  /** The reference tokens of a JSON pointer, which is empty or begins with a slash. */
  function Pointer(s: string): Option<Path> {
    if s == "" then Some([])
    else if s[0] == '/' then Some(Tokens(s[1..]))
    else None
  }

  /** The "replace" operation of a JSON patch: the place must exist. */
  function Replace(j: Json, pointer: string, v: Json): Option<Json> {
    match Pointer(pointer)
    case None => None
    case Some(p) => if At(j, p).Some? then Some(Put(j, p, v)) else None
  }

  lemma {:induction false} AtPutBelow(j: Json, p: Path, v: Json, q: Path)
    requires At(j, p).Some? && p <= q
    ensures At(Put(j, p, v), q) == At(v, q[|p|..])
    decreases |p|
  {
    if p == [] {
      assert q[0..] == q;
    } else {
      assert p[1..] <= q[1..];
      AtPutBelow(Fields(j)[p[0]], p[1..], v, q[1..]);
      assert q[1..][|p[1..]|..] == q[|p|..];
    }
  }

  /** A text has nothing below it, so a place that does not lead to it, nor through it, leaves it. */
  lemma {:induction false} AtPutElsewhere(j: Json, p: Path, v: Json, q: Path)
    requires At(j, p).Some? && !(p <= q)
    requires At(j, q) == None || (At(j, q).Some? && At(j, q).value.Text?)
    ensures At(Put(j, p, v), q) == At(j, q)
    decreases |p|
  {
    if q != [] && p[0] == q[0] {
      assert p == [p[0]] + p[1..] && q == [q[0]] + q[1..];
      AtPutElsewhere(Fields(j)[p[0]], p[1..], v, q[1..]);
    }
  }

  lemma TokensPush(s: string, c: char)
    ensures Tokens(s + [c]) == Push(Tokens(s), c)
  {
    assert (s + [c])[..|s|] == s;
  }

  lemma {:induction false} TokensConcat(a: string, b: string)
    ensures Tokens(a + "/" + b) == Tokens(a) + Tokens(b)
  {
    if b == "" {
      TokensPush(a, '/');
      assert a + "/" + b == a + ['/'];
    } else {
      var front, c := b[..|b| - 1], b[|b| - 1];
      TokensConcat(a, front);
      TokensConcatStep(a, front, c);
      assert b == front + [c];
    }
  }

  lemma TokensConcatStep(a: string, b: string, c: char)
    requires Tokens(a + "/" + b) == Tokens(a) + Tokens(b)
    ensures Tokens(a + "/" + (b + [c])) == Tokens(a) + Tokens(b + [c])
  {
    TokensPush(b, c);
    TokensPush(a + "/" + b, c);
    PushConcat(Tokens(a), Tokens(b), c);
    assert a + "/" + (b + [c]) == a + "/" + b + [c];
  }

  lemma {:induction false} OneToken(s: string)
    requires '/' !in s
    ensures Tokens(s) == [s]
  {
    if s != "" {
      OneToken(s[..|s| - 1]);
      assert s == s[..|s| - 1] + [s[|s| - 1]];
    }
  }

  /** Appending a pointer to a pointer appends its tokens; a path that is no pointer stays none. */
  lemma PointerConcat(path: string, rest: string)
    ensures Pointer(path + "/" + rest) ==
            if Pointer(path).Some? then Some(Pointer(path).value + Tokens(rest)) else None
  {
    var s := path + "/" + rest;
    if path == "" {
      assert s[0] == '/' && s[1..] == rest && [] + Tokens(rest) == Tokens(rest);
    } else if path[0] == '/' {
      assert s[1..] == path[1..] + "/" + rest;
      TokensConcat(path[1..], rest);
    } else {
      assert s[0] == path[0];
    }
  }

  /** Places neither of which leads to the other do not disturb each other. */
  lemma {:induction false} AtPutApart(j: Json, p: Path, v: Json, q: Path)
    requires At(j, p).Some? && !(p <= q) && !(q <= p)
    ensures At(Put(j, p, v), q) == At(j, q)
    decreases |p|
  {
    if p[0] == q[0] {
      assert p == [p[0]] + p[1..] && q == [q[0]] + q[1..];
      AtPutApart(Fields(j)[p[0]], p[1..], v, q[1..]);
    }
  }

  // ---------------------------------------------------------------- annotations

  function Metadata(j: Json): map<string, Json> {
    if "metadata" in Fields(j) then Fields(Fields(j)["metadata"]) else map[]
  }

  function AnnotationNode(j: Json): map<string, Json> {
    if "annotations" in Metadata(j) then Fields(Metadata(j)["annotations"]) else map[]
  }

  /** Annotations are texts. */
  function Annotations(j: Json): map<string, string> {
    map k | k in AnnotationNode(j) && AnnotationNode(j)[k].Text? :: AnnotationNode(j)[k].text
  }

  function Texts(a: map<string, string>): Json {
    Node(map k | k in a :: Text(a[k]))
  }

  function WithAnnotationNode(j: Json, n: Json): Json {
    Node(Fields(j)["metadata" := Node(Metadata(j)["annotations" := n])])
  }

  function SetAnnotations(j: Json, a: map<string, string>): Json {
    WithAnnotationNode(j, Texts(a))
  }

  /** Without the fields that the cluster writes. */
  function Bare(j: Json): Json {
    Node((Fields(j) - {"status"})["metadata" := Node(Metadata(j) - SERVER_FIELDS)])
  }

  function RemoveUselessInfo(j: Json): Json {
    if Annotations(j) == map[] then Bare(j)
    else SetAnnotations(Bare(j), Annotations(j) - {ORIGIN, LAST_APPLIED, LEGACY})
  }

  /** The three annotations that a rollback adds. */
  function Marked(j: Json, app: string, ns: string): Json {
    SetAnnotations(j, Annotations(j)[DEP_IGNORE := "true"][APP_NAME := app][APP_NAMESPACE := ns])
  }

  /** The merge patch (RFC 7386) that adds the record. */
  function Record(j: Json, text: string): Json {
    WithAnnotationNode(j, Node(AnnotationNode(j)[ORIGIN := Text(text)]))
  }

  lemma AnnotationAt(j: Json, k: string)
    ensures At(j, ANNOTATIONS + [k]) == Get(AnnotationNode(j), k)
  {
    var p := ANNOTATIONS + [k];
    assert p[1..] == ["annotations", k] && p[1..][1..] == [k] && [k][1..] == [];
    if "metadata" in Fields(j) {
      var meta := Fields(j)["metadata"];
      assert At(j, p) == At(meta, ["annotations", k]);
      if "annotations" in Fields(meta) {
        assert At(meta, ["annotations", k]) == At(Fields(meta)["annotations"], [k]);
        assert k in AnnotationNode(j) ==> At(Fields(meta)["annotations"], [k]) == At(AnnotationNode(j)[k], []);
      }
    }
  }

  // ---------------------------------------------------------------- start

  /** A request to patch the workload; None when it fails. */
  type Patch = Json -> Option<Json>

  /** The world outside: definitions as text, the search for the sidecar in the pod template, which may
      not be readable, and what creating a workload makes of a definition. */
  datatype Env = Env(
    encode: Json -> string,
    decode: string -> Option<Json>,
    withSpec: (Json, string) -> string,
    sidecar: Json -> Option<bool>,
    create: Json -> Json)

  /** One dev start: the path of the pod template, the patches that the configuration adds, the generated
      pod spec if generating it succeeds, and which requests fail. */
  datatype Plan = Plan(path: string, container: string, scale: seq<Patch>, strategy: Json, podSpec: Option<Json>,
                       user: seq<Patch>, recordFails: bool, strategyFails: bool, specFails: bool,
                       annotationsFails: bool)

  function Send(fails: bool, j: Json, pointer: string, v: Json): Option<Json> {
    if fails then None else Replace(j, pointer, v)
  }

  /** The pod template's annotations; for an empty path only the pod spec is read. */
  function TemplateAnnotations(j: Json, path: string): map<string, Json> {
    if path == "" || Pointer(path).None? then map[]
    else
      var node := At(j, Pointer(path).value + ANNOTATIONS);
      if node.Some? then Fields(node.value) else map[]
  }

  function DevAnnotations(clean: Json, plan: Plan): Json {
    Node(TemplateAnnotations(clean, plan.path)[DEV_CONTAINER := Text(plan.container)])
  }

  /** Patches whose failure ends the start. */
  function Strict(j: Json, patches: seq<Patch>): (Json, bool) {
    if patches == [] then (j, true)
    else
      var (front, ok) := Strict(j, patches[..|patches| - 1]);
      if !ok then (front, false)
      else
        var r := patches[|patches| - 1](front);
        if r.Some? then (r.value, true) else (front, false)
  }

  /** Patches whose failure is only logged. */
  function Lenient(j: Json, patches: seq<Patch>): Json {
    if patches == [] then j
    else
      var front := Lenient(j, patches[..|patches| - 1]);
      Or(patches[|patches| - 1](front), front)
  }

  function Or(r: Option<Json>, otherwise: Json): Json {
    if r.Some? then r.value else otherwise
  }

  /** The strategy is patched if possible. */
  function Ready(j: Json, plan: Plan): Json {
    Or(Send(plan.strategyFails, j, STRATEGY, plan.strategy), j)
  }

  /** Everything up to the patch of the pod spec. */
  function Prepare(o: Json, env: Env, plan: Plan): (Json, bool) {
    var (scaled, ok) := Strict(Record(o, env.encode(RemoveUselessInfo(o))), plan.scale);
    if !ok || plan.podSpec.None? then (scaled, false)
    else
      var ready := Ready(scaled, plan);
      match Send(plan.specFails, ready, plan.path + "/spec", plan.podSpec.value)
      case None => (ready, false)
      case Some(patched) => (patched, true)
  }

  /** The definition once the pod template's annotations are patched, if the start gets there. */
  function Annotated(o: Json, env: Env, plan: Plan): Option<Json> {
    var (patched, ok) := Prepare(o, env, plan);
    if !ok then None
    else Send(plan.annotationsFails, patched, plan.path + "/metadata/annotations",
              DevAnnotations(RemoveUselessInfo(o), plan))
  }

  predicate Accepted(o: Json, env: Env, plan: Plan) {
    env.sidecar(RemoveUselessInfo(o)) == Some(false) && !plan.recordFails
  }

  function Start(o: Json, env: Env, plan: Plan): (Json, bool) {
    if !Accepted(o, env, plan) then (o, false)
    else match Annotated(o, env, plan)
      case None => (Prepare(o, env, plan).0, false)
      case Some(j) => (Lenient(j, plan.user), true)
  }

  // ---------------------------------------------------------------- end

  /** The text to restore from, if there is one. */
  function Recorded(o: Json, env: Env): Option<string> {
    var a := Annotations(o);
    if ORIGIN in a then Some(a[ORIGIN])
    else if LEGACY in a then Some(env.withSpec(o, a[LEGACY]))
    else None
  }

  /** Which of the two requests of a dev end fail. */
  datatype EndFails = EndFails(delete: bool, apply: bool)

  const ALL_WELL := EndFails(false, false)

  /** The workload afterwards, None if there is none, and whether the end succeeded. */
  function End(o: Json, env: Env, app: string, ns: string, f: EndFails): (Option<Json>, bool) {
    match Recorded(o, env)
    case None => (Some(o), false)
    case Some(text) =>
      match env.decode(text)
      case None => (Some(o), false)
      case Some(original) =>
        if f.delete then (Some(o), false)
        else if f.apply then (None, false)
        else (Some(env.create(Marked(original, app, ns))), true)
  }

  class Workload {
    /** The workload in the cluster, if there is one. */
    var live: Option<Json>
    const env: Env

    constructor (live: Option<Json>, env: Env)
      ensures this.live == live && this.env == env
    {
      this.live, this.env := live, env;
    }

    method ApplyScale(patches: seq<Patch>) returns (ok: bool)
      requires live.Some?
      modifies this
      ensures live.Some? && (live.value, ok) == Strict(old(live).value, patches)
    {
      for i := 0 to |patches|
        invariant live.Some? && Strict(old(live).value, patches[..i]) == (live.value, true)
      {
        assert patches[..i + 1][..i] == patches[..i];
        var r := patches[i](live.value);
        if r.None? {
          StrictStops(old(live).value, patches, i + 1);
          return false;
        }
        live := r;
      }
      assert patches[..|patches|] == patches;
      return true;
    }

    method ApplyUser(patches: seq<Patch>)
      requires live.Some?
      modifies this
      ensures live == Some(Lenient(old(live).value, patches))
    {
      for i := 0 to |patches|
        invariant live == Some(Lenient(old(live).value, patches[..i]))
      {
        assert patches[..i + 1][..i] == patches[..i];
        var r := patches[i](live.value);
        if r.Some? {
          live := r;
        }
      }
      assert patches[..|patches|] == patches;
    }

    method PatchDevModeManifest(plan: Plan) returns (ok: bool)
      modifies this
      ensures old(live).None? ==> live.None? && !ok
      ensures old(live).Some? ==> live.Some? && (live.value, ok) == Start(old(live).value, env, plan)
    {
      if live.None? {
        return false;
      }
      var clean := RemoveUselessInfo(live.value);
      var sidecar := env.sidecar(clean);
      if sidecar.None? || sidecar.value || plan.recordFails {
        return false;
      }
      live := Some(Record(live.value, env.encode(clean)));
      ok := ApplyScale(plan.scale);
      if !ok || plan.podSpec.None? {
        return false;
      }
      var r := Send(plan.strategyFails, live.value, STRATEGY, plan.strategy);
      if r.Some? {
        live := r;
      }
      r := Send(plan.specFails, live.value, plan.path + "/spec", plan.podSpec.value);
      if r.None? {
        return false;
      }
      live := r;
      r := Send(plan.annotationsFails, live.value, plan.path + "/metadata/annotations", DevAnnotations(clean, plan));
      if r.None? {
        return false;
      }
      live := r;
      ApplyUser(plan.user);
      return true;
    }

    method RollbackFromAnnotation(app: string, ns: string, f: EndFails) returns (ok: bool)
      modifies this
      ensures old(live).None? ==> live.None? && !ok
      ensures old(live).Some? ==> (live, ok) == End(old(live).value, env, app, ns, f)
    {
      if live.None? {
        return false;
      }
      var text: string;
      var annotations := Annotations(live.value);
      if ORIGIN in annotations {
        text := annotations[ORIGIN];
      } else if LEGACY in annotations {
        text := env.withSpec(live.value, annotations[LEGACY]);
      } else {
        return false;
      }
      var original := env.decode(text);
      if original.None? || f.delete {
        return false;
      }
      live := None;
      if f.apply {
        return false;
      }
      live := Some(env.create(Marked(original.value, app, ns)));
      return true;
    }
  }

  lemma {:induction false} StrictStops(j: Json, patches: seq<Patch>, n: nat)
    requires n <= |patches| && !Strict(j, patches[..n]).1
    ensures Strict(j, patches) == Strict(j, patches[..n])
    decreases |patches| - n
  {
    if n == |patches| {
      assert patches[..n] == patches;
    } else {
      assert patches[..n + 1][..n] == patches[..n];
      StrictStops(j, patches, n + 1);
    }
  }

  // ---------------------------------------------------------------- cleaning

  lemma BareParts(j: Json)
    ensures Metadata(Bare(j)) == Metadata(j) - SERVER_FIELDS
    ensures AnnotationNode(Bare(j)) == AnnotationNode(j) && Annotations(Bare(j)) == Annotations(j)
    ensures Bare(Bare(j)) == Bare(j)
  {
    assert Metadata(Bare(j)) - SERVER_FIELDS == Metadata(Bare(j));
    assert Fields(Bare(j)) - {"status"} == Fields(Bare(j));
  }

  lemma SetMetadata(j: Json, a: map<string, string>)
    ensures Metadata(SetAnnotations(j, a)) == Metadata(j)["annotations" := Texts(a)]
    ensures Annotations(SetAnnotations(j, a)) == a
  {
    assert AnnotationNode(SetAnnotations(j, a)) == Texts(a).fields;
  }

  lemma SetTwice(j: Json, a: map<string, string>, b: map<string, string>)
    ensures SetAnnotations(SetAnnotations(j, a), b) == SetAnnotations(j, b)
  {
    var s := SetAnnotations(j, a);
    SetMetadata(j, a);
    assert Metadata(s)["annotations" := Texts(b)] == Metadata(j)["annotations" := Texts(b)];
    assert s.fields["metadata" := Node(Metadata(j)["annotations" := Texts(b)])] ==
           Fields(j)["metadata" := Node(Metadata(j)["annotations" := Texts(b)])];
  }

  lemma BareSet(j: Json, a: map<string, string>)
    ensures Bare(SetAnnotations(j, a)) == SetAnnotations(Bare(j), a)
  {
    var s := SetAnnotations(j, a);
    SetMetadata(j, a);
    BareParts(j);
    assert Metadata(s) - SERVER_FIELDS == Metadata(Bare(j))["annotations" := Texts(a)];
    assert Bare(s).fields == SetAnnotations(Bare(j), a).fields;
  }

  lemma SetParts(j: Json, a: map<string, string>)
    ensures Annotations(SetAnnotations(j, a)) == a
    ensures SetAnnotations(SetAnnotations(j, a), a) == SetAnnotations(j, a)
    ensures Bare(SetAnnotations(j, a)) == SetAnnotations(Bare(j), a)
  {
    SetMetadata(j, a);
    SetTwice(j, a, a);
    BareSet(j, a);
  }

  lemma CleanIsClean(o: Json)
    ensures RemoveUselessInfo(RemoveUselessInfo(o)) == RemoveUselessInfo(o)
    ensures Annotations(RemoveUselessInfo(o)) == Annotations(o) - {ORIGIN, LAST_APPLIED, LEGACY}
    ensures Bare(RemoveUselessInfo(o)) == RemoveUselessInfo(o)
  {
    var a := Annotations(o) - {ORIGIN, LAST_APPLIED, LEGACY};
    BareParts(o);
    SetParts(Bare(o), a);
    assert a - {ORIGIN, LAST_APPLIED, LEGACY} == a;
  }

  lemma MarkedClean(o: Json, app: string, ns: string)
    requires RemoveUselessInfo(o) == o
    ensures RemoveUselessInfo(Marked(o, app, ns)) == Marked(o, app, ns)
    ensures Marked(Marked(o, app, ns), app, ns) == Marked(o, app, ns)
  {
    CleanIsClean(o);
    var a := Annotations(o)[DEP_IGNORE := "true"][APP_NAME := app][APP_NAMESPACE := ns];
    SetParts(o, a);
    assert a - {ORIGIN, LAST_APPLIED, LEGACY} == a;
    assert a[DEP_IGNORE := "true"][APP_NAME := app][APP_NAMESPACE := ns] == a;
  }

  // ---------------------------------------------------------------- what cleaning keeps

  /** Places that belong to the user: all but the status, five fields of the metadata and the annotations,
      and the trees that contain these. */
  predicate UserPlace(q: Path) {
    && q != [] && q[0] != "status"
    && (q[0] == "metadata" ==>
          && |q| > 1 && q[1] != "annotations" && q[1] != "managedFields" && q[1] != "resourceVersion"
          && q[1] != "creationTimestamp" && q[1] != "uid" && q[1] != "generation")
  }

  /** Annotations that are not a record. */
  predicate UserAnnotation(k: string) {
    && k != "dev.nocalhost/origin-workload-definition" && k != "nocalhost.origin.spec.json"
    && k != "kubectl.kubernetes.io/last-applied-configuration"
  }

  ghost predicate SameUserPlaces(a: Json, b: Json) {
    forall q :: UserPlace(q) ==> At(a, q) == At(b, q)
  }

  /** The same at every user's place, and the same annotations apart from the record of the apply. */
  ghost predicate SamePlaces(a: Json, b: Json) {
    SameUserPlaces(a, b) && forall k :: k != LAST_APPLIED ==> Get(Annotations(a), k) == Get(Annotations(b), k)
  }

  lemma AtStep(j: Json, q: Path)
    requires q != []
    ensures At(j, q) == if q[0] in Fields(j) then At(Fields(j)[q[0]], q[1..]) else None
  {
  }

  lemma AtMetadata(j: Json, q: Path)
    requires |q| > 1 && q[0] == "metadata"
    ensures At(j, q) == if q[1] in Metadata(j) then At(Metadata(j)[q[1]], q[2..]) else None
  {
    AtStep(j, q);
    if "metadata" in Fields(j) {
      AtStep(Fields(j)["metadata"], q[1..]);
      assert q[1..][1..] == q[2..];
    }
  }

  lemma BareAt(j: Json, q: Path)
    requires UserPlace(q)
    ensures At(Bare(j), q) == At(j, q)
  {
    if q[0] == "metadata" {
      AtMetadata(j, q);
      AtMetadata(Bare(j), q);
      BareParts(j);
    } else {
      AtStep(j, q);
      AtStep(Bare(j), q);
    }
  }

  lemma SetAt(j: Json, a: map<string, string>, q: Path)
    requires UserPlace(q)
    ensures At(SetAnnotations(j, a), q) == At(j, q)
  {
    if q[0] == "metadata" {
      AtMetadata(j, q);
      AtMetadata(SetAnnotations(j, a), q);
      SetMetadata(j, a);
    } else {
      AtStep(j, q);
      AtStep(SetAnnotations(j, a), q);
    }
  }

  /** Cleaning keeps everything that is the user's, and nothing that is not. */
  lemma CleanAt(o: Json, q: Path, k: string)
    ensures UserPlace(q) ==> At(RemoveUselessInfo(o), q) == At(o, q)
    ensures At(RemoveUselessInfo(o), ["status"]) == None
    ensures k in {"managedFields", "resourceVersion", "creationTimestamp", "uid", "generation"} ==>
              At(RemoveUselessInfo(o), ["metadata", k]) == None
    ensures Get(Annotations(RemoveUselessInfo(o)), k) == if UserAnnotation(k) then Get(Annotations(o), k) else None
  {
    CleanIsClean(o);
    if UserPlace(q) {
      BareAt(o, q);
      SetAt(Bare(o), Annotations(o) - {ORIGIN, LAST_APPLIED, LEGACY}, q);
    }
    AtStep(RemoveUselessInfo(o), ["status"]);
    AtMetadata(RemoveUselessInfo(o), ["metadata", k]);
    CleanMetadata(o);
  }

  lemma CleanMetadata(o: Json)
    ensures "status" !in Fields(RemoveUselessInfo(o))
    ensures forall k :: k in SERVER_FIELDS ==> k !in Metadata(RemoveUselessInfo(o))
  {
    BareParts(o);
    SetMetadata(Bare(o), Annotations(o) - {ORIGIN, LAST_APPLIED, LEGACY});
  }

  lemma SameBare(a: Json, b: Json, x: map<string, string>)
    requires SameUserPlaces(a, b)
    ensures SetAnnotations(Bare(a), x) == SetAnnotations(Bare(b), x)
  {
    forall f | f != "status" && f != "metadata" ensures Get(Fields(a), f) == Get(Fields(b), f) {
      assert UserPlace([f]) && At(a, [f]) == At(b, [f]);
      AtStep(a, [f]);
      AtStep(b, [f]);
      assert [f][1..] == [];
    }
    forall f | f !in SERVER_FIELDS && f != "annotations" ensures Get(Metadata(a), f) == Get(Metadata(b), f) {
      var q := ["metadata", f];
      assert UserPlace(q) && At(a, q) == At(b, q);
      AtMetadata(a, q);
      AtMetadata(b, q);
      assert q[2..] == [];
    }
    SameSet(a, b, x);
  }

  lemma SameSet(a: Json, b: Json, x: map<string, string>)
    requires forall f :: f != "status" && f != "metadata" ==> Get(Fields(a), f) == Get(Fields(b), f)
    requires forall f :: f !in SERVER_FIELDS && f != "annotations" ==> Get(Metadata(a), f) == Get(Metadata(b), f)
    ensures SetAnnotations(Bare(a), x) == SetAnnotations(Bare(b), x)
  {
    var m, n := Metadata(Bare(a))["annotations" := Texts(x)], Metadata(Bare(b))["annotations" := Texts(x)];
    BareParts(a);
    BareParts(b);
    forall f ensures Get(m, f) == Get(n, f) {
      assert f !in SERVER_FIELDS && f != "annotations" ==> Get(Metadata(a), f) == Get(Metadata(b), f);
    }
    SameLookups(m, n);
    var c, d := SetAnnotations(Bare(a), x).fields, SetAnnotations(Bare(b), x).fields;
    forall f ensures Get(c, f) == Get(d, f) {
      assert f != "status" && f != "metadata" ==> Get(Fields(a), f) == Get(Fields(b), f);
    }
    SameLookups(c, d);
  }

  /** What is created is, once cleaned, what was asked for. */
  lemma CreatedIsClean(o: Json, env: Env, app: string, ns: string)
    requires GoodEnv(env)
    ensures RemoveUselessInfo(env.create(Marked(o, app, ns))) == RemoveUselessInfo(Marked(o, app, ns))
  {
    var m, c := Marked(o, app, ns), env.create(Marked(o, app, ns));
    assert SamePlaces(c, m);
    var x, y := Annotations(m) - {ORIGIN, LAST_APPLIED, LEGACY}, Annotations(c) - {ORIGIN, LAST_APPLIED, LEGACY};
    forall k ensures Get(x, k) == Get(y, k) {
      assert k != LAST_APPLIED ==> Get(Annotations(c), k) == Get(Annotations(m), k);
    }
    SameLookups(x, y);
    MarkedNotEmpty(o, app, ns);
    assert Get(Annotations(c), DEP_IGNORE) == Get(Annotations(m), DEP_IGNORE);
    SameBare(c, m, x);
  }

  lemma MarkedNotEmpty(o: Json, app: string, ns: string)
    ensures Get(Annotations(Marked(o, app, ns)), DEP_IGNORE) == Some("true") && DEP_IGNORE != LAST_APPLIED
  {
    SetMetadata(o, Annotations(o)[DEP_IGNORE := "true"][APP_NAME := app][APP_NAMESPACE := ns]);
  }

  // ---------------------------------------------------------------- the record

  const RECORD: Path := ["metadata", "annotations", ORIGIN]
  const LEGACY_RECORD: Path := ["metadata", "annotations", LEGACY]

  ghost predicate Holds(j: Json, text: string) {
    At(j, RECORD) == Some(Text(text))
  }

  lemma RecordedIs(j: Json, env: Env)
    ensures At(j, RECORD) == Get(AnnotationNode(j), ORIGIN)
    ensures At(j, LEGACY_RECORD) == Get(AnnotationNode(j), LEGACY)
    ensures forall text :: Holds(j, text) ==> Recorded(j, env) == Some(text)
    ensures At(j, RECORD) == None == At(j, LEGACY_RECORD) ==> Recorded(j, env) == None
  {
    AnnotationAt(j, ORIGIN);
    AnnotationAt(j, LEGACY);
    assert RECORD == ANNOTATIONS + [ORIGIN] && LEGACY_RECORD == ANNOTATIONS + [LEGACY];
  }

  /** A patch that leaves the recorded annotations alone. */
  ghost predicate KeepsRecord(p: Patch) {
    forall j :: p(j).Some? ==>
      At(p(j).value, RECORD) == At(j, RECORD) && At(p(j).value, LEGACY_RECORD) == At(j, LEGACY_RECORD)
  }

  ghost predicate KeepRecord(patches: seq<Patch>) {
    forall i :: 0 <= i < |patches| ==> KeepsRecord(patches[i])
  }

  lemma {:induction false} StrictKeeps(j: Json, patches: seq<Patch>)
    requires KeepRecord(patches)
    ensures At(Strict(j, patches).0, RECORD) == At(j, RECORD)
  {
    if patches != [] {
      StrictKeeps(j, patches[..|patches| - 1]);
      assert KeepsRecord(patches[|patches| - 1]);
    }
  }

  lemma {:induction false} LenientKeeps(j: Json, patches: seq<Patch>)
    requires KeepRecord(patches)
    ensures At(Lenient(j, patches), RECORD) == At(j, RECORD)
    ensures At(Lenient(j, patches), LEGACY_RECORD) == At(j, LEGACY_RECORD)
  {
    if patches != [] {
      LenientKeeps(j, patches[..|patches| - 1]);
      assert KeepsRecord(patches[|patches| - 1]);
    }
  }

  /** A replacement loses the record only at or above it. */
  lemma ReplaceKeeps(j: Json, pointer: string, v: Json, text: string)
    requires Holds(j, text) && Replace(j, pointer, v).Some? && !(Pointer(pointer).value <= RECORD)
    ensures Holds(Replace(j, pointer, v).value, text)
  {
    AtPutElsewhere(j, Pointer(pointer).value, v, RECORD);
  }

  lemma PointerField(path: string, field: string)
    requires '/' !in field
    ensures Pointer(path + "/" + field) == if Pointer(path).Some? then Some(Pointer(path).value + [field]) else None
  {
    PointerConcat(path, field);
    OneToken(field);
  }

  lemma PointerFields(path: string, a: string, b: string)
    requires '/' !in a && '/' !in b
    ensures Pointer(path + "/" + a + "/" + b) ==
            if Pointer(path).Some? then Some(Pointer(path).value + [a, b]) else None
  {
    PointerField(path, a);
    PointerField(path + "/" + a, b);
    if Pointer(path).Some? {
      assert Pointer(path).value + [a] + [b] == Pointer(path).value + [a, b];
    }
  }

  lemma StrategyPlace(path: string)
    requires path == STRATEGY
    ensures Pointer(path) == Some(["spec", "strategy"]) && !(["spec", "strategy"] <= RECORD)
  {
    var root := path[..0];
    PointerFields(root, "spec", "strategy");
    assert root + "/" + "spec" + "/" + "strategy" == path;
    assert [] + ["spec", "strategy"] == ["spec", "strategy"];
    assert ["spec", "strategy"][0] != RECORD[0];
  }

  /** Where the two patches of the pod template lead: the pod spec never to the record or above it, the
      annotations exactly when the template's path is empty. */
  lemma TemplatePlaces(path: string)
    ensures Pointer(path + "/spec").Some? <==> Pointer(path).Some?
    ensures Pointer(path + "/metadata/annotations").Some? <==> Pointer(path).Some?
    ensures Pointer(path).Some? ==>
              && Pointer(path + "/spec").value == Pointer(path).value + ["spec"]
              && !(Pointer(path + "/spec").value <= RECORD)
              && Pointer(path + "/metadata/annotations").value == Pointer(path).value + ANNOTATIONS
              && (Pointer(path + "/metadata/annotations").value <= RECORD <==> path == "")
  {
    PointerField(path, "spec");
    PointerFields(path, "metadata", "annotations");
    assert path + "/" + "spec" == path + "/spec";
    assert path + "/" + "metadata" + "/" + "annotations" == path + "/metadata/annotations";
    if Pointer(path).Some? {
      PlacesApart(Pointer(path).value);
    }
  }

  lemma PlacesApart(p: Path)
    ensures !(p + ["spec"] <= RECORD)
    ensures p + ANNOTATIONS <= RECORD <==> p == []
  {
    assert (p + ["spec"])[|p|] == "spec" && "spec" !in RECORD;
    assert (p + ANNOTATIONS)[|p|] == "metadata" && (p + ANNOTATIONS)[|p| + 1] == "annotations";
    assert [] + ANNOTATIONS == ANNOTATIONS == RECORD[..2];
  }

  // ---------------------------------------------------------------- what comes back

  /** Decoding undoes encoding; a workload that is created has what was asked for at every place but those
      that the cluster writes, and the record of the apply; the pod template is not among the workload's
      own annotations. */
  ghost predicate GoodEnv(env: Env) {
    && (forall o {:trigger env.encode(o)} :: env.decode(env.encode(o)) == Some(o))
    && (forall o {:trigger env.create(o)} :: SamePlaces(env.create(o), o))
    && (forall o, a {:trigger env.sidecar(SetAnnotations(o, a))} :: env.sidecar(SetAnnotations(o, a)) == env.sidecar(o))
  }

  ghost predicate Restored(back: Option<Json>, o: Json, app: string, ns: string) {
    back.Some? && RemoveUselessInfo(back.value) == Marked(RemoveUselessInfo(o), app, ns)
  }

  lemma RecordHolds(o: Json, text: string)
    ensures Holds(Record(o, text), text)
  {
    AnnotationAt(Record(o, text), ORIGIN);
    assert RECORD == ANNOTATIONS + [ORIGIN];
  }

  lemma ReadyHolds(j: Json, plan: Plan, text: string)
    requires Holds(j, text)
    ensures Holds(Ready(j, plan), text)
  {
    StrategyPlace(STRATEGY);
    if Send(plan.strategyFails, j, STRATEGY, plan.strategy).Some? {
      ReplaceKeeps(j, STRATEGY, plan.strategy, text);
    }
  }

  lemma SpecHolds(j: Json, path: string, v: Json, text: string)
    requires Holds(j, text) && Replace(j, path + "/spec", v).Some?
    ensures Holds(Replace(j, path + "/spec", v).value, text)
  {
    TemplatePlaces(path);
    ReplaceKeeps(j, path + "/spec", v, text);
  }

  lemma PreparedHolds(o: Json, env: Env, plan: Plan)
    requires KeepRecord(plan.scale)
    ensures Holds(Prepare(o, env, plan).0, env.encode(RemoveUselessInfo(o)))
  {
    var text := env.encode(RemoveUselessInfo(o));
    RecordHolds(o, text);
    StrictKeeps(Record(o, text), plan.scale);
    var (scaled, ok) := Strict(Record(o, text), plan.scale);
    if ok && plan.podSpec.Some? {
      ReadyHolds(scaled, plan, text);
      if Send(plan.specFails, Ready(scaled, plan), plan.path + "/spec", plan.podSpec.value).Some? {
        SpecHolds(Ready(scaled, plan), plan.path, plan.podSpec.value, text);
      }
    }
  }

  /** The patch of the template's annotations keeps the record if the path is not empty; otherwise it
      removes it, and a legacy record too. */
  lemma AnnotatedHolds(o: Json, env: Env, plan: Plan)
    requires KeepRecord(plan.scale) && Annotated(o, env, plan).Some?
    ensures var j := Annotated(o, env, plan).value;
            if plan.path != "" then Holds(j, env.encode(RemoveUselessInfo(o)))
            else At(j, RECORD) == None == At(j, LEGACY_RECORD)
  {
    var (patched, _) := Prepare(o, env, plan);
    var v := DevAnnotations(RemoveUselessInfo(o), plan);
    PreparedHolds(o, env, plan);
    TemplatePlaces(plan.path);
    if plan.path != "" {
      ReplaceKeeps(patched, plan.path + "/metadata/annotations", v, env.encode(RemoveUselessInfo(o)));
    } else {
      assert [] + ANNOTATIONS == ANNOTATIONS;
      AtPutBelow(patched, ANNOTATIONS, v, RECORD);
      AtPutBelow(patched, ANNOTATIONS, v, LEGACY_RECORD);
      assert RECORD[2..] == [ORIGIN] && LEGACY_RECORD[2..] == [LEGACY];
      assert v.fields.Keys == {DEV_CONTAINER};
    }
  }

  /** Whether the record survives a start. */
  lemma StartRecord(o: Json, env: Env, plan: Plan)
    requires KeepRecord(plan.scale) && KeepRecord(plan.user) && Accepted(o, env, plan)
    ensures Recorded(Start(o, env, plan).0, env) ==
            if plan.path == "" && Annotated(o, env, plan).Some? then None
            else Some(env.encode(RemoveUselessInfo(o)))
  {
    RecordedIs(Start(o, env, plan).0, env);
    PreparedHolds(o, env, plan);
    if Annotated(o, env, plan).Some? {
      AnnotatedHolds(o, env, plan);
      LenientKeeps(Annotated(o, env, plan).value, plan.user);
    }
  }

  lemma EndFromRecord(dev: Json, o: Json, env: Env, app: string, ns: string)
    requires GoodEnv(env) && Recorded(dev, env) == Some(env.encode(RemoveUselessInfo(o)))
    ensures End(dev, env, app, ns, ALL_WELL).1 && Restored(End(dev, env, app, ns, ALL_WELL).0, o, app, ns)
  {
    var clean := RemoveUselessInfo(o);
    assert env.decode(env.encode(clean)) == Some(clean);
    CleanIsClean(o);
    MarkedClean(clean, app, ns);
    CreatedIsClean(clean, env, app, ns);
  }

  /** Once the record is written, and whatever the configured patches did short of touching it, ending dev
      mode restores the cleaned original with three annotations if and only if the pod template's
      annotations were not patched at an empty path. */
  lemma EndRestoresExactly(o: Json, env: Env, plan: Plan, app: string, ns: string)
    requires GoodEnv(env) && KeepRecord(plan.scale) && KeepRecord(plan.user) && Accepted(o, env, plan)
    ensures var (back, ok) := End(Start(o, env, plan).0, env, app, ns, ALL_WELL);
            ok && Restored(back, o, app, ns) <==> plan.path != "" || Annotated(o, env, plan).None?
  {
    StartRecord(o, env, plan);
    if plan.path != "" || Annotated(o, env, plan).None? {
      EndFromRecord(Start(o, env, plan).0, o, env, app, ns);
    }
  }

  /** In particular a start that succeeded can be ended if and only if the path is not empty. */
  lemma StartedEndsExactly(o: Json, env: Env, plan: Plan, app: string, ns: string)
    requires GoodEnv(env) && KeepRecord(plan.scale) && KeepRecord(plan.user) && Start(o, env, plan).1
    ensures var (back, ok) := End(Start(o, env, plan).0, env, app, ns, ALL_WELL);
            && (ok <==> plan.path != "")
            && (ok ==> Restored(back, o, app, ns))
            && (!ok ==> back == Some(Start(o, env, plan).0))
  {
    StartRecord(o, env, plan);
    EndRestoresExactly(o, env, plan, app, ns);
  }

  /** What the recorded text says: the cleaned definition, which contains no record in turn. */
  lemma RecordNeverNests(o: Json, env: Env, plan: Plan)
    requires GoodEnv(env) && KeepRecord(plan.scale) && KeepRecord(plan.user) && Accepted(o, env, plan)
    requires plan.path != "" || Annotated(o, env, plan).None?
    ensures var text := Recorded(Start(o, env, plan).0, env);
            text.Some? && env.decode(text.value) == Some(RemoveUselessInfo(o)) &&
            Recorded(RemoveUselessInfo(o), env) == None
  {
    StartRecord(o, env, plan);
    CleanIsClean(o);
  }

  /** When requests of the end fail: a failing delete leaves everything, and ending again restores; a
      failing apply after it loses the workload together with its record. */
  lemma EndOutcomes(o: Json, env: Env, plan: Plan, app: string, ns: string, f: EndFails)
    requires GoodEnv(env) && KeepRecord(plan.scale) && KeepRecord(plan.user) && Accepted(o, env, plan)
    requires plan.path != "" || Annotated(o, env, plan).None?
    ensures var dev := Start(o, env, plan).0;
            var (back, ok) := End(dev, env, app, ns, f);
            && (ok <==> !f.delete && !f.apply) && (ok ==> Restored(back, o, app, ns))
            && (back == None <==> !f.delete && f.apply)
            && (f.delete ==> back == Some(dev) && Restored(End(back.value, env, app, ns, ALL_WELL).0, o, app, ns))
  {
    StartRecord(o, env, plan);
    EndRestoresExactly(o, env, plan, app, ns);
  }

  /** A start and the end after it. */
  function Cycle(o: Json, env: Env, plan: Plan, app: string, ns: string): Json {
    Or(End(Start(o, env, plan).0, env, app, ns, ALL_WELL).0, o)
  }

  /** Any number of cycles. */
  function Cycles(o: Json, env: Env, plans: seq<Plan>, app: string, ns: string): Json {
    if plans == [] then o
    else Cycle(Cycles(o, env, plans[..|plans| - 1], app, ns), env, plans[|plans| - 1], app, ns)
  }

  ghost predicate GoodPlan(plan: Plan) {
    KeepRecord(plan.scale) && KeepRecord(plan.user) && !plan.recordFails && plan.path != ""
  }

  /** Every number of cycles leaves the same definition as one, whatever the patches of each and however
      far each start gets. */
  lemma {:induction false} CyclesRestore(o: Json, env: Env, plans: seq<Plan>, app: string, ns: string)
    requires GoodEnv(env) && env.sidecar(RemoveUselessInfo(o)) == Some(false) && plans != []
    requires forall i :: 0 <= i < |plans| ==> GoodPlan(plans[i])
    ensures Restored(Some(Cycles(o, env, plans, app, ns)), o, app, ns)
    decreases |plans|
  {
    var n := |plans| - 1;
    if n > 0 {
      CyclesRestore(o, env, plans[..n], app, ns);
    }
    NextCycle(Cycles(o, env, plans[..n], app, ns), o, env, plans[n], app, ns);
  }

  lemma SidecarMarked(clean: Json, env: Env, app: string, ns: string)
    requires GoodEnv(env)
    ensures env.sidecar(Marked(clean, app, ns)) == env.sidecar(clean)
  {
  }

  lemma MarkedAgain(o: Json, app: string, ns: string)
    ensures Marked(Marked(RemoveUselessInfo(o), app, ns), app, ns) == Marked(RemoveUselessInfo(o), app, ns)
  {
    CleanIsClean(o);
    MarkedClean(RemoveUselessInfo(o), app, ns);
  }

  lemma RestoredAgain(before: Json, o: Json, env: Env, app: string, ns: string)
    requires GoodEnv(env) && Restored(Some(before), o, app, ns)
    ensures env.sidecar(RemoveUselessInfo(before)) == env.sidecar(RemoveUselessInfo(o))
    ensures Marked(RemoveUselessInfo(before), app, ns) == Marked(RemoveUselessInfo(o), app, ns)
  {
    SidecarMarked(RemoveUselessInfo(o), env, app, ns);
    MarkedAgain(o, app, ns);
  }

  lemma NextCycle(before: Json, o: Json, env: Env, plan: Plan, app: string, ns: string)
    requires GoodEnv(env) && env.sidecar(RemoveUselessInfo(o)) == Some(false) && GoodPlan(plan)
    requires before == o || Restored(Some(before), o, app, ns)
    ensures Restored(Some(Cycle(before, env, plan, app, ns)), o, app, ns)
  {
    if before != o {
      RestoredAgain(before, o, env, app, ns);
    }
    StartRecord(before, env, plan);
    EndFromRecord(Start(before, env, plan).0, before, env, app, ns);
  }

  /** What it means to be restored: every place of the user's, the spec included, is as it was; the three
      annotations are set, no record is left, and every other annotation is as it was. */
  lemma RestoredMeans(back: Json, o: Json, app: string, ns: string, q: Path, k: string)
    requires Restored(Some(back), o, app, ns)
    ensures UserPlace(q) ==> At(back, q) == At(o, q)
    ensures UserPlace(["spec"])
    ensures UserAnnotation(k) ==>
              Get(Annotations(back), k) ==
              if k == "nocalhost-dep-ignore" then Some("true")
              else if k == "dev.nocalhost/application-name" then Some(app)
              else if k == "dev.nocalhost/application-namespace" then Some(ns)
              else Get(Annotations(o), k)
  {
    var clean := RemoveUselessInfo(o);
    var a := Annotations(clean)[DEP_IGNORE := "true"][APP_NAME := app][APP_NAMESPACE := ns];
    CleanAt(o, q, k);
    CleanAt(back, q, k);
    if UserPlace(q) {
      SetAt(clean, a, q);
    }
    SetMetadata(clean, a);
    assert APP_NAME != DEP_IGNORE && APP_NAMESPACE != DEP_IGNORE && |APP_NAME| != |APP_NAMESPACE|;
  }

  /** Without requests that fail, a workload that was started and ended, any number of times, has at every
      place of the user's what it had before. */
  lemma CyclesKeepPlaces(o: Json, env: Env, plans: seq<Plan>, app: string, ns: string, q: Path)
    requires GoodEnv(env) && env.sidecar(RemoveUselessInfo(o)) == Some(false) && plans != []
    requires forall i :: 0 <= i < |plans| ==> GoodPlan(plans[i])
    requires UserPlace(q)
    ensures At(Cycles(o, env, plans, app, ns), q) == At(o, q)
  {
    CyclesRestore(o, env, plans, app, ns);
    RestoredMeans(Cycles(o, env, plans, app, ns), o, app, ns, q, "");
  }

  /** Starting a workload that is in dev mode already does no harm: ending still restores the original. */
  lemma SecondStartHarmless(o: Json, env: Env, plan: Plan, again: Plan, app: string, ns: string)
    requires GoodEnv(env) && GoodPlan(plan) && Accepted(o, env, plan)
    requires env.sidecar(RemoveUselessInfo(Start(o, env, plan).0)) != Some(false)
    ensures !Start(Start(o, env, plan).0, env, again).1
    ensures Restored(End(Start(Start(o, env, plan).0, env, again).0, env, app, ns, ALL_WELL).0, o, app, ns)
  {
    StartRecord(o, env, plan);
    EndFromRecord(Start(o, env, plan).0, o, env, app, ns);
  }

  lemma CleanMarked(x: Json, app: string, ns: string)
    ensures RemoveUselessInfo(Marked(x, app, ns)) == Marked(RemoveUselessInfo(x), app, ns)
  {
    var a := Annotations(x)[DEP_IGNORE := "true"][APP_NAME := app][APP_NAMESPACE := ns];
    var clean, b := RemoveUselessInfo(x), Annotations(x) - {ORIGIN, LAST_APPLIED, LEGACY};
    var c := b[DEP_IGNORE := "true"][APP_NAME := app][APP_NAMESPACE := ns];
    SetParts(x, a);
    CleanIsClean(x);
    assert a - {ORIGIN, LAST_APPLIED, LEGACY} == c;
    SetTwice(Bare(x), a, c);
    SetTwice(Bare(x), b, c);
  }

  /** A workload that only has the older record is restored from that. */
  lemma LegacyRecordRestores(dev: Json, original: Json, env: Env, app: string, ns: string)
    requires GoodEnv(env) && ORIGIN !in Annotations(dev) && LEGACY in Annotations(dev)
    requires env.decode(env.withSpec(dev, Annotations(dev)[LEGACY])) == Some(original)
    ensures End(dev, env, app, ns, ALL_WELL).1 && Restored(End(dev, env, app, ns, ALL_WELL).0, original, app, ns)
  {
    CreatedIsClean(original, env, app, ns);
    CleanMarked(original, app, ns);
  }

  // ---------------------------------------------------------------- what a start leaves

  /** The generated pod spec is at the template's place, and the template's annotations name the dev container
      beside what they had. */
  lemma AnnotatedHasSpec(o: Json, env: Env, plan: Plan, k: string)
    requires Annotated(o, env, plan).Some?
    ensures Pointer(plan.path).Some?
    ensures var j, place := Annotated(o, env, plan).value, Pointer(plan.path).value;
            && At(j, place + ["spec"]) == plan.podSpec
            && At(j, place + ["metadata", "annotations", k]) ==
               if k == "dev.nocalhost/nocalhost-dev" then Some(Text(plan.container))
               else if plan.path == "" then None
               else At(RemoveUselessInfo(o), place + ["metadata", "annotations", k])
  {
    TemplatePlaces(plan.path);
    var patched, v := Prepare(o, env, plan).0, DevAnnotations(RemoveUselessInfo(o), plan);
    PreparedHasSpec(o, env, plan);
    var place := Pointer(plan.path).value;
    var spec, notes := place + ["spec"], place + ANNOTATIONS;
    assert spec[|place|] == "spec" && notes[|place|] == "metadata";
    AtPutApart(patched, notes, v, spec);
    var q := place + ["metadata", "annotations", k];
    assert q == notes + [k] && q[|notes|..] == [k] && notes <= q;
    AtPutBelow(patched, notes, v, q);
    AtStep(v, [k]);
    assert [k][1..] == [];
    if plan.path != "" {
      AtConcat(RemoveUselessInfo(o), notes, k);
    }
  }

  lemma {:induction false} AtConcat(j: Json, p: Path, k: string)
    ensures At(j, p + [k]) == if At(j, p).Some? then Get(Fields(At(j, p).value), k) else None
    decreases |p|
  {
    var q := p + [k];
    AtStep(j, q);
    if p == [] {
      assert q[0] == k && q[1..] == [];
    } else {
      AtStep(j, p);
      assert q[0] == p[0] && q[1..] == p[1..] + [k];
      if p[0] in Fields(j) {
        AtConcat(Fields(j)[p[0]], p[1..], k);
      }
    }
  }

  lemma PreparedHasSpec(o: Json, env: Env, plan: Plan)
    requires Prepare(o, env, plan).1
    ensures Pointer(plan.path).Some? && At(Prepare(o, env, plan).0, Pointer(plan.path).value + ["spec"]) == plan.podSpec
  {
    TemplatePlaces(plan.path);
    var (scaled, _) := Strict(Record(o, env.encode(RemoveUselessInfo(o))), plan.scale);
    var place := Pointer(plan.path + "/spec").value;
    AtPutBelow(Ready(scaled, plan), place, plan.podSpec.value, place);
    assert place[|place|..] == [];
  }

  /** The strategy is replaced where there is one. */
  lemma ReadyHasStrategy(j: Json, plan: Plan)
    requires !plan.strategyFails
    ensures At(Ready(j, plan), ["spec", "strategy"]) ==
            if At(j, ["spec", "strategy"]).Some? then Some(plan.strategy) else None
  {
    StrategyPlace(STRATEGY);
    if At(j, ["spec", "strategy"]).Some? {
      AtPutBelow(j, ["spec", "strategy"], plan.strategy, ["spec", "strategy"]);
      assert ["spec", "strategy"][2..] == [];
    }
  }

  /** A patch succeeds in its turn. */
  ghost predicate Succeeds(j: Json, patches: seq<Patch>, i: nat)
    requires i < |patches|
  {
    patches[i](Strict(j, patches[..i]).0).Some?
  }

  lemma SucceedsBefore(j: Json, patches: seq<Patch>, i: nat, n: nat)
    requires i < n <= |patches|
    ensures Succeeds(j, patches[..n], i) <==> Succeeds(j, patches, i)
  {
    assert patches[..n][..i] == patches[..i];
  }

  lemma {:induction false} StrictExactly(j: Json, patches: seq<Patch>)
    ensures Strict(j, patches).1 <==> forall i :: 0 <= i < |patches| ==> Succeeds(j, patches, i)
  {
    if patches != [] {
      var n := |patches| - 1;
      StrictExactly(j, patches[..n]);
      forall i | 0 <= i < n ensures Succeeds(j, patches[..n], i) <==> Succeeds(j, patches, i) {
        SucceedsBefore(j, patches, i, n);
      }
      assert Strict(j, patches).1 <==> Strict(j, patches[..n]).1 && Succeeds(j, patches, n);
    }
  }

  lemma PrepareExactly(o: Json, env: Env, plan: Plan)
    ensures var scaled := Strict(Record(o, env.encode(RemoveUselessInfo(o))), plan.scale);
            var ready := Ready(scaled.0, plan);
            && (Prepare(o, env, plan).1 <==>
                && scaled.1 && plan.podSpec.Some? && !plan.specFails && Pointer(plan.path).Some?
                && At(ready, Pointer(plan.path).value + ["spec"]).Some?)
            && (Prepare(o, env, plan).1 ==>
                Prepare(o, env, plan).0 == Put(ready, Pointer(plan.path).value + ["spec"], plan.podSpec.value))
  {
    TemplatePlaces(plan.path);
  }

  lemma NotesStay(ready: Json, place: Path, spec: Json)
    requires At(ready, place + ["spec"]).Some?
    ensures At(Put(ready, place + ["spec"], spec), place + ANNOTATIONS) == At(ready, place + ANNOTATIONS)
  {
    assert (place + ["spec"])[|place|] == "spec" && (place + ANNOTATIONS)[|place|] == "metadata";
    AtPutApart(ready, place + ["spec"], spec, place + ANNOTATIONS);
  }

  /** Exactly when a start succeeds: the template is readable and has no sidecar, the record is written, every
      scale patch succeeds in its turn, a spec is generated, and spec and annotations of the template are
      there to be replaced.  The strategy and the user's patches do not matter. */
  lemma StartSucceedsExactly(o: Json, env: Env, plan: Plan)
    ensures var rec := Record(o, env.encode(RemoveUselessInfo(o)));
            var ready := Ready(Strict(rec, plan.scale).0, plan);
            Start(o, env, plan).1 <==>
            && env.sidecar(RemoveUselessInfo(o)) == Some(false) && !plan.recordFails
            && (forall i :: 0 <= i < |plan.scale| ==> Succeeds(rec, plan.scale, i))
            && plan.podSpec.Some? && !plan.specFails && !plan.annotationsFails && Pointer(plan.path).Some?
            && At(ready, Pointer(plan.path).value + ["spec"]).Some?
            && At(ready, Pointer(plan.path).value + ANNOTATIONS).Some?
  {
    var rec := Record(o, env.encode(RemoveUselessInfo(o)));
    StrictExactly(rec, plan.scale);
    PrepareExactly(o, env, plan);
    TemplatePlaces(plan.path);
    if Prepare(o, env, plan).1 {
      NotesStay(Ready(Strict(rec, plan.scale).0, plan), Pointer(plan.path).value, plan.podSpec.value);
    }
  }

  /** One more scale patch works on what the others left. */
  lemma OneMoreScalePatch(j: Json, patches: seq<Patch>, p: Patch)
    requires Strict(j, patches).1
    ensures var before := Strict(j, patches).0;
            Strict(j, patches + [p]) == if p(before).Some? then (p(before).value, true) else (before, false)
  {
    assert (patches + [p])[..|patches|] == patches;
  }

  /** One more patch of the user's works on what the start leaves without it, and is left out if it fails. */
  lemma OneMoreUserPatch(o: Json, env: Env, plan: Plan, p: Patch)
    requires Start(o, env, plan).1
    ensures var before := Start(o, env, plan).0;
            Start(o, env, plan.(user := plan.user + [p])) == (if p(before).Some? then p(before).value else before, true)
  {
    var more := plan.(user := plan.user + [p]);
    assert Annotated(o, env, more) == Annotated(o, env, plan);
    assert more.user[..|plan.user|] == plan.user;
  }

  ghost predicate KeepPlace(patches: seq<Patch>, q: Path) {
    forall i, j :: 0 <= i < |patches| && patches[i](j).Some? ==> At(patches[i](j).value, q) == At(j, q)
  }

  lemma {:induction false} LenientKeepsPlace(j: Json, patches: seq<Patch>, q: Path)
    requires KeepPlace(patches, q)
    ensures At(Lenient(j, patches), q) == At(j, q)
  {
    if patches != [] {
      LenientKeepsPlace(j, patches[..|patches| - 1], q);
    }
  }

  /** So a start that succeeded, and whose user's patches leave the pod spec alone, leaves the generated one. */
  lemma StartedHasSpec(o: Json, env: Env, plan: Plan)
    requires Start(o, env, plan).1
    requires Pointer(plan.path).Some? ==> KeepPlace(plan.user, Pointer(plan.path).value + ["spec"])
    ensures Pointer(plan.path).Some?
    ensures At(Start(o, env, plan).0, Pointer(plan.path).value + ["spec"]) == plan.podSpec && plan.podSpec.Some?
  {
    AnnotatedHasSpec(o, env, plan, "");
    LenientKeepsPlace(Annotated(o, env, plan).value, plan.user, Pointer(plan.path).value + ["spec"]);
  }

  /** A workload of a type that is configured without a template path, so that its pod spec is its own. */
  function CustomWorkload(): Json {
    var container := Node(map["name" := Text("web"), "image" := Text("app")]);
    Node(map["metadata" := Node(map["name" := Text("web")]),
             "spec" := Node(map["containers" := Node(map["0" := container])])])
  }

  /** The spec generated for it: the dev container and the sidecar. */
  function CustomDevSpec(): Json {
    var dev := Node(map["name" := Text("nocalhost-dev"), "image" := Text("dev")]);
    var sidecar := Node(map["name" := Text("nocalhost-sidecar"), "image" := Text("sidecar")]);
    Node(map["containers" := Node(map["0" := dev, "1" := sidecar])])
  }

  function CustomPlan(): Plan {
    Plan("", "nocalhost-dev", [], Text("Recreate"), Some(CustomDevSpec()), [], false, false, false, false)
  }

  /** Without a template path the spec is replaced as a whole, and a spec without strategy keeps none. */
  lemma OwnSpecPatches(rec: Json, path: string, strategy: Json, spec: Json)
    requires "spec" in Fields(rec) && "strategy" !in Fields(Fields(rec)["spec"]) && path == ""
    ensures Replace(rec, STRATEGY, strategy) == None
    ensures Replace(rec, path + "/spec", spec) == Some(Node(Fields(rec)["spec" := spec]))
  {
    var own := Fields(rec)["spec"];
    StrategyPlace(STRATEGY);
    assert ["spec", "strategy"][1..] == ["strategy"];
    assert At(rec, ["spec", "strategy"]) == At(own, ["strategy"]) == None;
    TemplatePlaces(path);
    assert [] + ["spec"] == ["spec"] && ["spec"][1..] == [];
    assert At(rec, ["spec"]) == At(own, []);
    assert Put(rec, ["spec"], spec) == Node(Fields(rec)["spec" := Put(own, [], spec)]);
  }

  lemma CustomPrepared(o: Json, env: Env, plan: Plan)
    requires o == CustomWorkload() && plan == CustomPlan()
    ensures Prepare(o, env, plan).1 && At(Prepare(o, env, plan).0, ANNOTATIONS).Some?
  {
    var rec := Record(o, env.encode(RemoveUselessInfo(o)));
    assert Fields(rec)["spec"] == Fields(o)["spec"];
    OwnSpecPatches(rec, plan.path, plan.strategy, plan.podSpec.value);
    assert Strict(rec, plan.scale) == (rec, true);
    assert Ready(rec, plan) == rec;
    var patched := Node(Fields(rec)["spec" := plan.podSpec.value]);
    assert Prepare(o, env, plan) == (patched, true);
    assert ANNOTATIONS[1..] == ["annotations"] && ["annotations"][1..] == [];
    assert "annotations" in Fields(Fields(patched)["metadata"]);
    assert At(patched, ANNOTATIONS) == At(Fields(patched)["metadata"], ["annotations"]);
    assert At(Fields(patched)["metadata"], ["annotations"]).Some?;
  }

  /** Its start succeeds and cannot be ended. */
  lemma CustomTypeCannotEnd(env: Env, app: string, ns: string)
    requires GoodEnv(env) && env.sidecar(RemoveUselessInfo(CustomWorkload())) == Some(false)
    ensures var (dev, ok) := Start(CustomWorkload(), env, CustomPlan());
            ok && End(dev, env, app, ns, ALL_WELL) == (Some(dev), false)
  {
    var o, plan := CustomWorkload(), CustomPlan();
    CustomPrepared(o, env, plan);
    TemplatePlaces(plan.path);
    assert [] + ANNOTATIONS == ANNOTATIONS;
    StartedEndsExactly(o, env, plan, app, ns);
  }
}
