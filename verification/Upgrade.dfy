/** Upgrading a manifest application: resources that left the manifest are deleted, the others are
    created or updated. */
module Upgrade {
  import opened Common

  /** The cluster keeps one object per group, kind, namespace and name; the version only says in which
      form it is read and written. */
  datatype Id = Id(group: string, kind: string, ns: string, name: string)
  datatype Info = Info(id: Id, version: string, text: string)
  type Objects = map<Id, string>

  /** The source recognises a resource by kind, version and name; its namespace does not count. */
  predicate Same(a: Info, b: Info) {
    a.id.name == b.id.name && a.id.group == b.id.group && a.version == b.version && a.id.kind == b.id.kind
  }

  ghost predicate Has(infos: seq<Info>, info: Info) {
    exists j :: 0 <= j < |infos| && Same(infos[j], info)
  }

  ghost predicate HasExactly(infos: seq<Info>, id: Id) {
    exists j :: 0 <= j < |infos| && infos[j].id == id
  }

  method IsContainsInfo(info: Info, infos: seq<Info>) returns (b: bool)
    ensures b <==> Has(infos, info)
  {
    for i := 0 to |infos|
      invariant forall j :: 0 <= j < i ==> !Same(infos[j], info)
    {
      if Same(infos[i], info) {
        return true;
      }
    }
    return false;
  }

  /** The infos whose resource is, or is not, in another list. */
  ghost function Select(infos: seq<Info>, others: seq<Info>, wanted: bool): seq<Info> {
    if infos == [] then []
    else
      var last := infos[|infos| - 1];
      var rest := Select(infos[..|infos| - 1], others, wanted);
      if Has(others, last) == wanted then rest + [last] else rest
  }

  ghost function DeleteAll(c: Objects, infos: seq<Info>): Objects {
    if infos == [] then c else DeleteAll(c, infos[..|infos| - 1]) - {infos[|infos| - 1].id}
  }

  ghost function ApplyAll(c: Objects, infos: seq<Info>): Objects {
    if infos == [] then c
    else ApplyAll(c, infos[..|infos| - 1])[infos[|infos| - 1].id := infos[|infos| - 1].text]
  }

  ghost predicate NoneFails(infos: seq<Info>, failing: set<Id>) {
    forall i :: 0 <= i < |infos| ==> infos[i].id !in failing
  }

  /** The requests that take effect: failing ones change nothing and, unless errors are only logged,
      keep the later ones from being sent. */
  ghost function Performed(infos: seq<Info>, failing: set<Id>, continueOnErr: bool): seq<Info> {
    if infos == [] then []
    else
      var front, last := infos[..|infos| - 1], infos[|infos| - 1];
      var rest := Performed(front, failing, continueOnErr);
      if last.id in failing || !(continueOnErr || NoneFails(front, failing)) then rest else rest + [last]
  }

  /** The cluster after the three loops, the later of which a failure may prevent. */
  ghost function Upgraded(c: Objects, old_: seq<Info>, new_: seq<Info>, continueOnErr: bool,
                          deleteFails: set<Id>, applyFails: set<Id>): Objects {
    var del := Select(old_, new_, false);
    var add, upd := Select(new_, old_, false), Select(new_, old_, true);
    var deleted := DeleteAll(c, Performed(del, deleteFails, continueOnErr));
    if !(continueOnErr || NoneFails(del, deleteFails)) then deleted
    else
      var created := ApplyAll(deleted, Performed(add, applyFails, continueOnErr));
      if !(continueOnErr || NoneFails(add, applyFails)) then created
      else ApplyAll(created, Performed(upd, applyFails, continueOnErr))
  }

  lemma {:induction false} PerformedStops(infos: seq<Info>, i: nat, failing: set<Id>)
    requires i < |infos| && infos[i].id in failing
    ensures Performed(infos, failing, false) == Performed(infos[..i], failing, false)
    ensures !NoneFails(infos, failing)
    decreases |infos|
  {
    var n := |infos| - 1;
    if i < n {
      assert infos[..n][..i] == infos[..i];
      PerformedStops(infos[..n], i, failing);
    }
  }

  lemma PerformedNext(infos: seq<Info>, i: nat, failing: set<Id>, continueOnErr: bool)
    requires i < |infos| && (continueOnErr || NoneFails(infos[..i], failing))
    ensures var done := Performed(infos[..i], failing, continueOnErr);
            Performed(infos[..i + 1], failing, continueOnErr) ==
            if infos[i].id in failing then done else done + [infos[i]]
    ensures NoneFails(infos[..i + 1], failing) <==> NoneFails(infos[..i], failing) && infos[i].id !in failing
  {
    assert infos[..i + 1][..i] == infos[..i];
    assert infos[..i + 1] == infos[..i] + [infos[i]];
  }

  /** Which requests take effect: those that do not fail and, unless errors are only logged, come before the
      first that does. */
  lemma {:induction false} PerformedExactly(infos: seq<Info>, failing: set<Id>, continueOnErr: bool, info: Info)
    ensures info in Performed(infos, failing, continueOnErr) <==>
            exists i :: 0 <= i < |infos| && infos[i] == info && info.id !in failing &&
              (continueOnErr || forall j :: 0 <= j < i ==> infos[j].id !in failing)
  {
    if infos != [] {
      var n, front := |infos| - 1, infos[..|infos| - 1];
      PerformedExactly(front, failing, continueOnErr, info);
      assert forall i :: 0 <= i < n ==> front[i] == infos[i];
    }
  }

  lemma DeletePush(c: Objects, infos: seq<Info>, info: Info)
    ensures DeleteAll(c, infos + [info]) == DeleteAll(c, infos) - {info.id}
  {
    assert (infos + [info])[..|infos|] == infos;
  }

  lemma ApplyPush(c: Objects, infos: seq<Info>, info: Info)
    ensures ApplyAll(c, infos + [info]) == ApplyAll(c, infos)[info.id := info.text]
  {
    assert (infos + [info])[..|infos|] == infos;
  }

  class Cluster {
    var objects: Objects

    constructor (objects: Objects)
      ensures this.objects == objects
    {
      this.objects := objects;
    }

    method DeleteEach(infos: seq<Info>, failing: set<Id>, continueOnErr: bool) returns (ok: bool)
      modifies this
      ensures ok <==> continueOnErr || NoneFails(infos, failing)
      ensures objects == DeleteAll(old(objects), Performed(infos, failing, continueOnErr))
    {
      for i := 0 to |infos|
        invariant continueOnErr || NoneFails(infos[..i], failing)
        invariant objects == DeleteAll(old(objects), Performed(infos[..i], failing, continueOnErr))
      {
        PerformedNext(infos, i, failing, continueOnErr);
        if infos[i].id in failing {
          if !continueOnErr {
            PerformedStops(infos, i, failing);
            return false;
          }
        } else {
          DeletePush(old(objects), Performed(infos[..i], failing, continueOnErr), infos[i]);
          objects := objects - {infos[i].id};
        }
      }
      assert infos[..|infos|] == infos;
      return true;
    }

    method ApplyEach(infos: seq<Info>, failing: set<Id>, continueOnErr: bool) returns (ok: bool)
      modifies this
      ensures ok <==> continueOnErr || NoneFails(infos, failing)
      ensures objects == ApplyAll(old(objects), Performed(infos, failing, continueOnErr))
    {
      for i := 0 to |infos|
        invariant continueOnErr || NoneFails(infos[..i], failing)
        invariant objects == ApplyAll(old(objects), Performed(infos[..i], failing, continueOnErr))
      {
        PerformedNext(infos, i, failing, continueOnErr);
        if infos[i].id in failing {
          if !continueOnErr {
            PerformedStops(infos, i, failing);
            return false;
          }
        } else {
          ApplyPush(old(objects), Performed(infos[..i], failing, continueOnErr), infos[i]);
          objects := objects[infos[i].id := infos[i].text];
        }
      }
      assert infos[..|infos|] == infos;
      return true;
    }

    method UpgradeInfos(oldInfos: seq<Info>, newInfos: seq<Info>, continueOnErr: bool,
                        deleteFails: set<Id>, applyFails: set<Id>) returns (ok: bool)
      modifies this
      ensures ok <==> || continueOnErr
                      || (&& NoneFails(Select(oldInfos, newInfos, false), deleteFails)
                          && NoneFails(Select(newInfos, oldInfos, false), applyFails)
                          && NoneFails(Select(newInfos, oldInfos, true), applyFails))
      ensures objects == Upgraded(old(objects), oldInfos, newInfos, continueOnErr, deleteFails, applyFails)
    {
      var toDelete: seq<Info>, toCreate: seq<Info>, toUpdate: seq<Info> := [], [], [];
      for i := 0 to |oldInfos|
        invariant objects == old(objects)
        invariant toDelete == Select(oldInfos[..i], newInfos, false)
      {
        assert oldInfos[..i + 1][..i] == oldInfos[..i];
        var kept := IsContainsInfo(oldInfos[i], newInfos);
        if !kept {
          toDelete := toDelete + [oldInfos[i]];
        }
      }
      assert oldInfos[..|oldInfos|] == oldInfos;
      for i := 0 to |newInfos|
        invariant objects == old(objects)
        invariant toCreate == Select(newInfos[..i], oldInfos, false)
        invariant toUpdate == Select(newInfos[..i], oldInfos, true)
      {
        assert newInfos[..i + 1][..i] == newInfos[..i];
        var known := IsContainsInfo(newInfos[i], oldInfos);
        if !known {
          toCreate := toCreate + [newInfos[i]];
        } else {
          toUpdate := toUpdate + [newInfos[i]];
        }
      }
      assert newInfos[..|newInfos|] == newInfos;
      ok := DeleteEach(toDelete, deleteFails, continueOnErr);
      if !ok {
        return;
      }
      ok := ApplyEach(toCreate, applyFails, continueOnErr);
      if !ok {
        return;
      }
      ok := ApplyEach(toUpdate, applyFails, continueOnErr);
    }
  }

  // ---------------------------------------------------------------- what an upgrade amounts to

  /** The last definition of a resource in a list. */
  ghost function LastOf(infos: seq<Info>, id: Id): Option<string> {
    if infos == [] then None
    else if infos[|infos| - 1].id == id then Some(infos[|infos| - 1].text)
    else LastOf(infos[..|infos| - 1], id)
  }

  lemma {:induction false} LastOfHas(infos: seq<Info>, id: Id)
    ensures LastOf(infos, id).Some? <==> HasExactly(infos, id)
  {
    if infos != [] {
      var n := |infos| - 1;
      LastOfHas(infos[..n], id);
      if HasExactly(infos, id) && infos[n].id != id {
        var j :| 0 <= j < |infos| && infos[j].id == id;
        assert infos[..n][j].id == id;
      }
      if HasExactly(infos[..n], id) {
        var j :| 0 <= j < n && infos[..n][j].id == id;
        assert infos[j].id == id;
      }
    }
  }

  lemma {:induction false} ApplyAllAt(c: Objects, infos: seq<Info>, id: Id)
    ensures Get(ApplyAll(c, infos), id) == if LastOf(infos, id).Some? then LastOf(infos, id) else Get(c, id)
  {
    if infos != [] {
      ApplyAllAt(c, infos[..|infos| - 1], id);
    }
  }

  lemma {:induction false} DeleteAllAt(c: Objects, infos: seq<Info>, id: Id)
    ensures Get(DeleteAll(c, infos), id) == if LastOf(infos, id).Some? then None else Get(c, id)
  {
    if infos != [] {
      DeleteAllAt(c, infos[..|infos| - 1], id);
    }
  }

  /** Every definition of a resource is selected on one of the two sides. */
  lemma {:induction false} SelectSplits(infos: seq<Info>, others: seq<Info>, id: Id)
    ensures var known, rest := LastOf(Select(infos, others, true), id), LastOf(Select(infos, others, false), id);
            && (LastOf(infos, id).None? <==> known.None? && rest.None?)
            && (known.None? ==> rest == LastOf(infos, id)) && (rest.None? ==> known == LastOf(infos, id))
  {
    if infos != [] {
      var front, last := infos[..|infos| - 1], infos[|infos| - 1];
      SelectSplits(front, others, id);
      var known, rest := Select(front, others, true), Select(front, others, false);
      assert (known + [last])[..|known|] == known && (rest + [last])[..|rest|] == rest;
    }
  }

  /** Some definition of the resource in the list is not recognised in the other. */
  ghost predicate Dropped(infos: seq<Info>, others: seq<Info>, id: Id) {
    exists i :: 0 <= i < |infos| && infos[i].id == id && !Has(others, infos[i])
  }

  lemma {:induction false} SelectDrops(infos: seq<Info>, others: seq<Info>, id: Id)
    ensures LastOf(Select(infos, others, false), id).Some? <==> Dropped(infos, others, id)
  {
    if infos != [] {
      var front, last := infos[..|infos| - 1], infos[|infos| - 1];
      SelectDrops(front, others, id);
      var rest := Select(front, others, false);
      assert (rest + [last])[..|rest|] == rest;
      if i :| 0 <= i < |infos| && infos[i].id == id && !Has(others, infos[i]) {
        assert i == |infos| - 1 || front[i] == infos[i];
      }
      if i :| 0 <= i < |front| && front[i].id == id && !Has(others, front[i]) {
        assert infos[i] == front[i];
      }
    }
  }

  lemma {:induction false} NothingFails(infos: seq<Info>, continueOnErr: bool)
    ensures Performed(infos, {}, continueOnErr) == infos
  {
    if infos != [] {
      NothingFails(infos[..|infos| - 1], continueOnErr);
    }
  }

  /** What every resource becomes.  If the new list has it: the last of its definitions that the old list
      recognises, which are applied after the others, or else the last.  If not: gone if the old list has
      a definition of it that the new one does not recognise, untouched otherwise. */
  lemma UpgradeAt(c: Objects, oldInfos: seq<Info>, newInfos: seq<Info>, id: Id, cont: bool)
    ensures var known := LastOf(Select(newInfos, oldInfos, true), id);
            Get(Upgraded(c, oldInfos, newInfos, cont, {}, {}), id) ==
            if HasExactly(newInfos, id) then (if known.Some? then known else LastOf(newInfos, id))
            else if Dropped(oldInfos, newInfos, id) then None
            else Get(c, id)
  {
    var del := Select(oldInfos, newInfos, false);
    var add, upd := Select(newInfos, oldInfos, false), Select(newInfos, oldInfos, true);
    NothingFails(del, cont);
    NothingFails(add, cont);
    NothingFails(upd, cont);
    var deleted := DeleteAll(c, del);
    var created := ApplyAll(deleted, add);
    DeleteAllAt(c, del, id);
    ApplyAllAt(deleted, add, id);
    ApplyAllAt(created, upd, id);
    SelectDrops(oldInfos, newInfos, id);
    SelectSplits(newInfos, oldInfos, id);
    LastOfHas(newInfos, id);
  }

  // ---------------------------------------------------------------- deleting what is applied

  /** Exactly when an upgrade deletes a resource that it then creates or updates: the old list has a
      definition of it that the new list, which has it too, does not recognise. */
  lemma DeletesWhatItAppliesExactly(oldInfos: seq<Info>, newInfos: seq<Info>, id: Id)
    ensures HasExactly(Select(oldInfos, newInfos, false), id) && HasExactly(newInfos, id) <==>
            exists i, j :: 0 <= i < |oldInfos| && 0 <= j < |newInfos| &&
              oldInfos[i].id == id == newInfos[j].id && !Has(newInfos, oldInfos[i])
  {
    SelectDrops(oldInfos, newInfos, id);
    LastOfHas(Select(oldInfos, newInfos, false), id);
  }

  /** It never does so if every resource keeps the version it had. */
  lemma SameVersionsNeverDeleted(oldInfos: seq<Info>, newInfos: seq<Info>, id: Id)
    requires forall i, j :: 0 <= i < |oldInfos| && 0 <= j < |newInfos| && oldInfos[i].id == id == newInfos[j].id ==>
               oldInfos[i].version == newInfos[j].version
    ensures !(HasExactly(Select(oldInfos, newInfos, false), id) && HasExactly(newInfos, id))
  {
    DeletesWhatItAppliesExactly(oldInfos, newInfos, id);
    forall i, j | 0 <= i < |oldInfos| && 0 <= j < |newInfos| && oldInfos[i].id == id == newInfos[j].id
      ensures Has(newInfos, oldInfos[i])
    {
      assert Same(newInfos[j], oldInfos[i]);
    }
  }

  /** A resource whose API version changes, as a cron job's from batch/v1beta1 to batch/v1, is deleted and
      created anew; if creating it fails, it is gone. */
  lemma ChangedVersionIsRecreated(id: Id, was: Info, now: Info, cont: bool)
    requires was.id == id == now.id && was.version != now.version
    ensures Select([was], [now], false) == [was] && Select([now], [was], false) == [now]
    ensures Upgraded(map[id := was.text], [was], [now], cont, {}, {}) == map[id := now.text]
    ensures Upgraded(map[id := was.text], [was], [now], cont, {}, {id}) == map[]
  {
    assert !Has([now], was) && !Has([was], now);
    SelectOne(was, [now]);
    SelectOne(now, [was]);
    var c: Objects := map[id := was.text];
    OnlyCreates(c, [was], [now], cont, {});
    OnlyCreates(c, [was], [now], cont, {id});
    OneRequest(c, was, cont);
    OneRequest(map[], now, cont);
    assert c - {id} == map[];
  }

  lemma OnlyCreates(c: Objects, oldInfos: seq<Info>, newInfos: seq<Info>, cont: bool, fails: set<Id>)
    requires Select(newInfos, oldInfos, true) == []
    ensures Upgraded(c, oldInfos, newInfos, cont, {}, fails) ==
            ApplyAll(DeleteAll(c, Select(oldInfos, newInfos, false)),
                     Performed(Select(newInfos, oldInfos, false), fails, cont))
  {
    NothingFails(Select(oldInfos, newInfos, false), cont);
  }

  lemma OneRequest(c: Objects, info: Info, cont: bool)
    ensures Performed([info], {}, cont) == [info] && Performed([info], {info.id}, cont) == []
    ensures DeleteAll(c, [info]) == c - {info.id} && ApplyAll(c, [info]) == c[info.id := info.text]
  {
    assert [info][..0] == [];
  }

  lemma SelectOne(info: Info, others: seq<Info>)
    requires !Has(others, info)
    ensures Select([info], others, false) == [info] && Select([info], others, true) == []
  {
    assert [info][..0] == [];
  }

  // ---------------------------------------------------------------- the upgrade one expects

  /** The cluster without the old resources, overlaid with the new list. */
  ghost function Expected(c: Objects, oldInfos: seq<Info>, newInfos: seq<Info>): Objects {
    ApplyAll(DeleteAll(c, oldInfos), newInfos)
  }

  /** A resource of the old list that is not in the new one, but whose every definition is recognised there
      in another namespace: it is left behind. */
  ghost predicate Stranded(c: Objects, oldInfos: seq<Info>, newInfos: seq<Info>, id: Id) {
    id in c && HasExactly(oldInfos, id) && !HasExactly(newInfos, id) && !Dropped(oldInfos, newInfos, id)
  }

  /** A resource defined several times in the new list: an earlier definition, which the old list recognises,
      is applied after the last and says something else. */
  ghost predicate Overruled(oldInfos: seq<Info>, newInfos: seq<Info>, id: Id) {
    var known := LastOf(Select(newInfos, oldInfos, true), id);
    known.Some? && known != LastOf(newInfos, id)
  }

  lemma ExpectedAt(c: Objects, oldInfos: seq<Info>, newInfos: seq<Info>, id: Id)
    ensures Get(Expected(c, oldInfos, newInfos), id) ==
            if HasExactly(newInfos, id) then LastOf(newInfos, id)
            else if HasExactly(oldInfos, id) then None else Get(c, id)
  {
    DeleteAllAt(c, oldInfos, id);
    ApplyAllAt(DeleteAll(c, oldInfos), newInfos, id);
    LastOfHas(oldInfos, id);
    LastOfHas(newInfos, id);
  }

  /** The upgrade does what one expects if and only if it strands no resource and overrules no definition. */
  lemma UpgradeExactly(c: Objects, oldInfos: seq<Info>, newInfos: seq<Info>, cont: bool)
    ensures Upgraded(c, oldInfos, newInfos, cont, {}, {}) == Expected(c, oldInfos, newInfos) <==>
            forall id :: !Stranded(c, oldInfos, newInfos, id) && !Overruled(oldInfos, newInfos, id)
  {
    var got, want := Upgraded(c, oldInfos, newInfos, cont, {}, {}), Expected(c, oldInfos, newInfos);
    forall id ensures Get(got, id) == Get(want, id) <==>
                      !Stranded(c, oldInfos, newInfos, id) && !Overruled(oldInfos, newInfos, id)
    {
      UpgradeAt(c, oldInfos, newInfos, id, cont);
      ExpectedAt(c, oldInfos, newInfos, id);
      SelectSplits(newInfos, oldInfos, id);
      LastOfHas(newInfos, id);
    }
    if forall id :: !Stranded(c, oldInfos, newInfos, id) && !Overruled(oldInfos, newInfos, id) {
      SameLookups(got, want);
    }
  }

  /** In one namespace nothing is ever stranded. */
  lemma OneNamespaceUpgrade(c: Objects, oldInfos: seq<Info>, newInfos: seq<Info>, ns: string, cont: bool)
    requires forall i :: 0 <= i < |oldInfos| ==> oldInfos[i].id.ns == ns
    requires forall i :: 0 <= i < |newInfos| ==> newInfos[i].id.ns == ns
    ensures Upgraded(c, oldInfos, newInfos, cont, {}, {}) == Expected(c, oldInfos, newInfos) <==>
            forall id :: !Overruled(oldInfos, newInfos, id)
  {
    UpgradeExactly(c, oldInfos, newInfos, cont);
    forall id ensures !Stranded(c, oldInfos, newInfos, id) {
      if i :| 0 <= i < |oldInfos| && oldInfos[i].id == id && Has(newInfos, oldInfos[i]) {
        var j :| 0 <= j < |newInfos| && Same(newInfos[j], oldInfos[i]);
        assert newInfos[j].id == id;
      }
    }
  }

  /** Nothing is overruled if the new list gives each resource one version. */
  lemma OneVersionIsNotOverruled(oldInfos: seq<Info>, newInfos: seq<Info>, id: Id)
    requires forall i, j :: 0 <= i < |newInfos| && 0 <= j < |newInfos| && newInfos[i].id == id == newInfos[j].id ==>
               newInfos[i].version == newInfos[j].version
    ensures !Overruled(oldInfos, newInfos, id)
  {
    SelectSplits(newInfos, oldInfos, id);
    SelectDrops(newInfos, oldInfos, id);
    forall i, j | 0 <= i < |newInfos| && 0 <= j < |newInfos| && newInfos[i].id == id == newInfos[j].id
      ensures Has(oldInfos, newInfos[i]) <==> Has(oldInfos, newInfos[j])
    {
      SameSide(oldInfos, newInfos[i], newInfos[j]);
      SameSide(oldInfos, newInfos[j], newInfos[i]);
    }
    if LastOf(Select(newInfos, oldInfos, true), id).Some? {
      SelectKeeps(newInfos, oldInfos, id);
    }
  }

  lemma SameSide(others: seq<Info>, a: Info, b: Info)
    requires a.id == b.id && a.version == b.version
    ensures Has(others, a) ==> Has(others, b)
  {
    if k :| 0 <= k < |others| && Same(others[k], a) {
      assert Same(others[k], b);
    }
  }

  lemma {:induction false} SelectKeeps(infos: seq<Info>, others: seq<Info>, id: Id)
    requires LastOf(Select(infos, others, true), id).Some?
    ensures exists i :: 0 <= i < |infos| && infos[i].id == id && Has(others, infos[i])
  {
    var front, last := infos[..|infos| - 1], infos[|infos| - 1];
    var rest := Select(front, others, true);
    assert (rest + [last])[..|rest|] == rest;
    if last.id != id || !Has(others, last) {
      SelectKeeps(front, others, id);
      var i :| 0 <= i < |front| && front[i].id == id && Has(others, front[i]);
      assert infos[i] == front[i];
    }
  }

  /** A resource that moves between namespaces stays in the old one. */
  lemma MovedResourceStays(version: string, cont: bool)
    ensures var before, after := Id("apps", "Deployment", "a", "web"), Id("apps", "Deployment", "b", "web");
            Upgraded(map[before := "v1"], [Info(before, version, "v1")], [Info(after, version, "v2")], cont, {}, {})
            == map[before := "v1", after := "v2"]
  {
    var before, after := Id("apps", "Deployment", "a", "web"), Id("apps", "Deployment", "b", "web");
    var was, now := [Info(before, version, "v1")], [Info(after, version, "v2")];
    assert before != after;
    var got, want := Upgraded(map[before := "v1"], was, now, cont, {}, {}), map[before := "v1", after := "v2"];
    assert Same(now[0], was[0]) && Same(was[0], now[0]);
    assert Has(now, was[0]) && Has(was, now[0]);
    forall id ensures Get(got, id) == Get(want, id) {
      UpgradeAt(map[before := "v1"], was, now, id, cont);
      assert now[..0] == [] && HasExactly(now, id) <==> id == after;
    }
    SameLookups(got, want);
  }

  /** Of two versions in the new list the one that the old list had wins, though the other comes last. */
  lemma OldVersionWins(cont: bool)
    ensures var id := Id("batch", "CronJob", "a", "web");
            var was := [Info(id, "v1beta1", "v1")];
            var now := [Info(id, "v1beta1", "v2"), Info(id, "v1", "v3")];
            Overruled(was, now, id) && Get(Upgraded(map[id := "v1"], was, now, cont, {}, {}), id) == Some("v2")
  {
    var id := Id("batch", "CronJob", "a", "web");
    var was := [Info(id, "v1beta1", "v1")];
    var now := [Info(id, "v1beta1", "v2"), Info(id, "v1", "v3")];
    assert |"v1beta1"| != |"v1"|;
    assert now[..1] == [now[0]] && now[..1][..0] == [];
    assert Same(was[0], now[0]) && !Has(was, now[1]);
    assert Select(now[..1], was, true) == [now[0]];
    assert Select(now, was, true) == [now[0]];
    assert [now[0]][0].id == id && now[1].id == id;
    UpgradeAt(map[id := "v1"], was, now, id, cont);
  }
}
