/** The live picture of which machine reverses which resources.  Health checks hold references to
    the entries of this picture and write their verdicts into them, so a refresh from the cluster
    must keep the entry objects of everything that is still there. */
module ReverseInfo {

  datatype Health = Unknown | UnHealthy | Healthy

  class ResourceInfo {
    const name: string
    var health: Health

    constructor (name: string, health: Health)
      ensures this.name == name && this.health == health
    {
      this.name, this.health := name, health;
    }
  }

  /** A set of resources: one entry object each. */
  type Entries = map<string, ResourceInfo>

  ghost predicate NewUnHealthy(was: Entries, now: Entries)
    reads now.Values
  {
    forall k :: k in now && k !in was ==> now[k].health == UnHealthy && now[k].name == k
  }

  /** `was` together with new entries for what only `latest` has. */
  ghost predicate Joined(was: Entries, latest: Entries, now: Entries)
    reads now.Values
  {
    && now.Keys == was.Keys + latest.Keys
    && (forall k :: k in was ==> now[k] == was[k])
    && NewUnHealthy(was, now)
  }

  /** Add what `latest` has and `was` lacks; what `was` has stays the same object. */
  method AddMissing(was: Entries, latest: Entries) returns (now: Entries)
    ensures Joined(was, latest, now)
  {
    now := was;
    var keys := latest.Keys;
    while keys != {}
      invariant keys <= latest.Keys && now.Keys == was.Keys + (latest.Keys - keys)
      invariant forall k :: k in was ==> now[k] == was[k]
      invariant NewUnHealthy(was, now)
      decreases keys
    {
      var k :| k in keys;
      if k !in now {
        var info := new ResourceInfo(k, UnHealthy);
        now := now[k := info];
      }
      keys := keys - {k};
    }
  }

  /** Remove what `latest` lacks. */
  method RemoveUseless(was: Entries, latest: Entries) returns (now: Entries)
    ensures now == was - (was.Keys - latest.Keys)
  {
    now := was;
    var keys := was.Keys;
    while keys != {}
      invariant keys <= was.Keys && now == was - (was.Keys - keys - latest.Keys)
      decreases keys
    {
      var k :| k in keys;
      if k !in latest {
        now := now - {k};
      }
      keys := keys - {k};
    }
  }

  /** What one machine's entries must become. */
  ghost predicate Merged(was: Entries, latest: Entries, now: Entries)
    reads now.Values
  {
    && now.Keys == latest.Keys
    && (forall k :: k in now && k in was ==> now[k] == was[k])
    && NewUnHealthy(was, now)
  }

  function Of(m: map<string, Entries>, a: string): Entries {
    if a in m then m[a] else map[]
  }

  /** First pass: every machine of `latest` is there with at least its resources. */
  method AddAll(was: map<string, Entries>, latest: map<string, Entries>) returns (live: map<string, Entries>)
    ensures live.Keys == was.Keys + latest.Keys
    ensures forall a :: a in live && a !in latest ==> live[a] == was[a]
    ensures forall a :: a in latest && a !in was ==> live[a] == latest[a]
    ensures forall a :: a in latest && a in was ==> Joined(was[a], latest[a], live[a])
  {
    live := was;
    var macs := latest.Keys;
    while macs != {}
      invariant macs <= latest.Keys && live.Keys == was.Keys + (latest.Keys - macs)
      invariant forall a :: a in live && (a !in latest || a in macs) ==> live[a] == was[a]
      invariant forall a :: a in latest && a !in macs && a !in was ==> live[a] == latest[a]
      invariant forall a :: a in latest && a !in macs && a in was ==> Joined(was[a], latest[a], live[a])
      decreases macs
    {
      var a :| a in macs;
      if a in live {
        var grown := AddMissing(live[a], latest[a]);
        live := live[a := grown];
      } else {
        live := live[a := latest[a]];
      }
      macs := macs - {a};
    }
  }

  /** Second pass: nothing is there that `latest` lacks. */
  method RemoveAll(was: map<string, Entries>, latest: map<string, Entries>) returns (live: map<string, Entries>)
    ensures live.Keys == was.Keys * latest.Keys
    ensures forall a :: a in live ==> live[a] == was[a] - (was[a].Keys - latest[a].Keys)
  {
    live := was;
    var macs := was.Keys;
    while macs != {}
      invariant macs <= was.Keys
      invariant forall a :: a in live <==> a in was && (a in macs || a in latest)
      invariant forall a :: a in macs ==> live[a] == was[a]
      invariant forall a :: a in live && a !in macs ==> live[a] == was[a] - (was[a].Keys - latest[a].Keys)
      decreases macs
    {
      var a :| a in macs;
      if a !in latest {
        live := live - {a};
      } else {
        var kept := RemoveUseless(live[a], latest[a]);
        live := live[a := kept];
      }
      macs := macs - {a};
    }
  }

  class ReverseTotal {
    /** Machine address to the resources it reverses; nothing is known before the first snapshot. */
    var resources: map<string, Entries>
    var known: bool

    constructor ()
      ensures !known && resources == map[]
    {
      known, resources := false, map[];
    }

    /** Bring the live picture up to the latest snapshot: same machines, same resources; an entry that
        survives is the same object, so its health mark and the references to it stay good; an entry
        that is new is unhealthy until checked. */
    method ModifyReverseInfo(latest: map<string, Entries>)
      requires forall a, k :: a in latest && k in latest[a] ==>
                 latest[a][k].health == UnHealthy && latest[a][k].name == k
      requires !known ==> resources == map[]
      modifies this
      ensures known && resources.Keys == latest.Keys
      ensures forall a :: a in latest ==> Merged(Of(old(resources), a), latest[a], resources[a])
    {
      if !known {
        known, resources := true, latest;
        return;
      }
      var was := resources;
      var all := AddAll(was, latest);
      var kept := RemoveAll(all, latest);
      forall a | a in latest ensures Merged(Of(was, a), latest[a], kept[a]) {
        assert kept[a].Keys == latest[a].Keys;
        assert forall k :: k in kept[a] ==> kept[a][k] == all[a][k];
      }
      resources := kept;
    }
  }
}
