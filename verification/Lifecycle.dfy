/** Installing and uninstalling an application: the state kept in its secret and the ten seconds
    during which an uninstalled application may not be initialised again without force.
    Times are nanoseconds. */
module Lifecycle {
  import opened Common
  import opened DevMeta
  import DevMode

  datatype AppState = Uninstalled | Installing | Installed | Unknown

  const BACK_OFF: int := 10_000_000_000

  /** The secret; a fresh one has neither a back-off time nor a dev table. */
  datatype Secret = Secret(state: AppState, backOff: Option<int>, devMeta: Option<Table>)

  datatype Outcome = Ok | Failed

  /** How the cluster answers one request. */
  datatype Cluster = Cluster(getFails: bool, writeFails: bool)

  /** What an initialisation does to the meta besides setting its state: the dev table that the
      caller's function leaves behind. */
  type Change = Table -> Table

  class ApplicationMeta {
    var state: AppState
    var backOff: int
    var devMeta: Table
    /** The secret in the cluster, if there is one. */
    var stored: Option<Secret>

    constructor (state: AppState, backOff: int, devMeta: Table, stored: Option<Secret>)
      ensures this.state == state && this.backOff == backOff && this.devMeta == devMeta && this.stored == stored
    {
      this.state, this.backOff, this.devMeta, this.stored := state, backOff, devMeta, stored;
    }

    function Now(): Snapshot
      reads this
    {
      Snapshot(state, backOff, devMeta, stored)
    }

    method Update(c: Cluster) returns (r: Outcome)
      modifies this
      ensures r == (if stored == None || c.writeFails then Failed else Ok)
      ensures Now() == Write(old(Now()), c)
    {
      if stored == None || c.writeFails {
        return Failed;
      }
      stored := Some(Secret(state, Some(backOff), Some(devMeta)));
      return Ok;
    }

    method ReAssignmentBySecret(secret: Secret)
      modifies this
      ensures Now() == ReadBack(old(Now()), secret)
    {
      state := secret.state;
      if secret.backOff.Some? {
        backOff := secret.backOff.value;
      }
      if secret.devMeta.Some? {
        devMeta := secret.devMeta.value;
      }
    }

    method Delete(now: int, c: Cluster) returns (r: Outcome)
      modifies this
      ensures Step(old(Now()), DeleteOp(now, c), Now(), r)
    {
      state := Uninstalled;
      devMeta := map[];
      backOff := now + BACK_OFF;
      r := Update(c);
    }

    /** `target` is the state to reach: Installing for Initial, Installed for OneTimesInitial. */
    method Initial(target: AppState, change: Change, force: bool, now: int, c: Cluster) returns (r: Outcome)
      modifies this
      ensures Step(old(Now()), InitOp(target, change, force, now, c), Now(), r)
    {
      if c.getFails {
        return Failed;
      }
      if stored == None {
        if target == Installed {
          state := Installed;
          devMeta := change(devMeta);
        }
        if c.writeFails {
          return Failed;
        }
        // only OneTimesInitial writes the meta's own fields into the fresh secret
        stored := Some(if target == Installed
                       then Secret(state, Some(backOff), Some(devMeta))
                       else Secret(Installing, None, None));
        ReAssignmentBySecret(stored.value);
        return Ok;
      }
      ReAssignmentBySecret(stored.value);
      if !force && state == Uninstalled && backOff > now {
        return Failed;
      }
      state := target;
      if target == Installed {
        devMeta := change(devMeta);
      }
      r := Update(c);
    }
  }

  // ---------------------------------------------------------------- the same as a transition relation

  datatype Snapshot = Snapshot(state: AppState, backOff: int, devMeta: Table, stored: Option<Secret>)

  datatype Op =
    | DeleteOp(now: int, c: Cluster)
    | InitOp(target: AppState, change: Change, force: bool, now: int, c: Cluster)
    | DevOp(op: DevMode.Op, now: int)

  function Write(a: Snapshot, c: Cluster): Snapshot {
    if a.stored == None || c.writeFails then a
    else a.(stored := Some(Secret(a.state, Some(a.backOff), Some(a.devMeta))))
  }

  function ReadBack(a: Snapshot, secret: Secret): Snapshot {
    a.(state := secret.state,
       backOff := if secret.backOff.Some? then secret.backOff.value else a.backOff,
       devMeta := if secret.devMeta.Some? then secret.devMeta.value else a.devMeta)
  }

  ghost predicate Protected(secret: Secret, now: int, backOff: int) {
    secret.state == Uninstalled && (if secret.backOff.Some? then secret.backOff.value else backOff) > now
  }

  ghost predicate Step(a: Snapshot, op: Op, a': Snapshot, r: Outcome) {
    match op
    case DeleteOp(now, c) =>
      && a' == Write(a.(state := Uninstalled, devMeta := map[], backOff := now + BACK_OFF), c)
      && r == (if a.stored == None || c.writeFails then Failed else Ok)
    case InitOp(target, change, force, now, c) =>
      if c.getFails then a' == a && r == Failed
      else if a.stored == None then
        var b := if target == Installed then a.(state := Installed, devMeta := change(a.devMeta)) else a;
        var blank := if target == Installed then Secret(b.state, Some(b.backOff), Some(b.devMeta))
                     else Secret(Installing, None, None);
        if c.writeFails then a' == b && r == Failed
        else a' == ReadBack(b, blank).(stored := Some(blank)) && r == Ok
      else
        var b := ReadBack(a, a.stored.value);
        if !force && Protected(a.stored.value, now, a.backOff) then a' == b && r == Failed
        else
          && a' == Write(b.(state := target,
                            devMeta := if target == Installed then change(b.devMeta) else b.devMeta), c)
          && r == (if c.writeFails then Failed else Ok)
    case DevOp(dev, _) =>
      var b := a.(devMeta := DevMode.Step(a.devMeta, dev));
      && a' == (if dev.LookOp? || DevMode.Refused(a.devMeta, dev) then b
                else Write(b, Cluster(false, !dev.saved)))
      && r == (if dev.LookOp? || (!DevMode.Refused(a.devMeta, dev) && dev.saved && a.stored.Some?) then Ok else Failed)
  }

  // ---------------------------------------------------------------- the protection

  /** The secret of an application uninstalled no earlier than `since`, and the meta read from it. */
  ghost predicate Gone(a: Snapshot, since: int) {
    && a.state == Uninstalled && a.backOff >= since + BACK_OFF
    && a.stored.Some? && a.stored.value.state == Uninstalled && a.stored.value.devMeta.Some?
    && a.stored.value.backOff.Some? && a.stored.value.backOff.value >= since + BACK_OFF
  }

  /** What may happen meanwhile: more deletes, unforced initialisations and any dev operations, none
      earlier than the delete nor later than its back-off. */
  ghost predicate Meanwhile(op: Op, since: int) {
    since <= op.now < since + BACK_OFF && (op.InitOp? ==> !op.force)
  }

  ghost predicate IsHistory(as_: seq<Snapshot>, ops: seq<Op>, rs: seq<Outcome>) {
    && |as_| == |ops| + 1 && |rs| == |ops|
    && forall i :: 0 <= i < |ops| ==> Step(as_[i], ops[i], as_[i + 1], rs[i])
  }

  /** The clock never runs backwards. */
  ghost predicate Clocked(ops: seq<Op>) {
    forall i, j :: 0 <= i < j < |ops| ==> ops[i].now <= ops[j].now
  }

  /** A history that begins with a successful delete, is not forced, and is within the back-off. */
  ghost predicate AfterDelete(as_: seq<Snapshot>, ops: seq<Op>, rs: seq<Outcome>) {
    && IsHistory(as_, ops, rs) && Clocked(ops) && ops != [] && ops[0].DeleteOp? && rs[0] == Ok
    && forall j :: 0 < j < |ops| ==> (ops[j].InitOp? ==> !ops[j].force) && ops[j].now < ops[0].now + BACK_OFF
  }

  lemma DeleteGone(a: Snapshot, now: int, c: Cluster, a': Snapshot)
    requires Step(a, DeleteOp(now, c), a', Ok)
    ensures Gone(a', now)
  {
  }

  lemma GoneStep(a: Snapshot, since: int, op: Op, a': Snapshot, r: Outcome)
    requires Gone(a, since) && Meanwhile(op, since) && Step(a, op, a', r)
    ensures Gone(a', since) && (op.InitOp? ==> r == Failed)
  {
  }

  /** After a successful delete, and before its ten seconds are over, whatever else happens, no unforced
      initialisation succeeds and the state, in memory and stored, stays uninstalled. */
  lemma {:induction false} UninstalledStaysGone(as_: seq<Snapshot>, ops: seq<Op>, rs: seq<Outcome>, i: nat)
    requires AfterDelete(as_, ops, rs) && i < |ops|
    ensures Gone(as_[i + 1], ops[0].now)
    ensures ops[i].InitOp? ==> rs[i] == Failed
  {
    if i == 0 {
      DeleteGone(as_[0], ops[0].now, ops[0].c, as_[1]);
    } else {
      UninstalledStaysGone(as_, ops, rs, i - 1);
      GoneStep(as_[i], ops[0].now, ops[i], as_[i + 1], rs[i]);
    }
  }

  /** Exactly when an initialisation right after a delete succeeds. */
  lemma InitAfterDelete(a: Snapshot, now: int, c: Cluster, b: Snapshot, init: Op, b': Snapshot, r: Outcome)
    requires Step(a, DeleteOp(now, c), b, Ok)
    requires init.InitOp? && Step(b, init, b', r)
    ensures r == Ok <==> !init.c.getFails && !init.c.writeFails && (init.force || init.now >= now + 10_000_000_000)
    ensures r == Ok ==> b'.stored.Some? && b'.stored.value.state == init.target
  {
  }

  /** Exactly when an initialisation succeeds and what it leaves, first installation included.  A secret that
      says uninstalled keeps an unforced one off until its back-off is over; a secret without back-off counts
      with the one in memory. */
  lemma InitExactly(a: Snapshot, op: Op, a': Snapshot, r: Outcome)
    requires op.InitOp? && op.target in {Installing, Installed} && Step(a, op, a', r)
    ensures r == Ok <==>
            && !op.c.getFails && !op.c.writeFails
            && (a.stored.None? || op.force || a.stored.value.state != Uninstalled ||
                (if a.stored.value.backOff.Some? then a.stored.value.backOff.value else a.backOff) <= op.now)
    ensures r == Failed ==> a'.stored == a.stored
    ensures r == Ok ==> a'.stored.Some? && a'.state == op.target == a'.stored.value.state
    ensures r == Ok && a.stored.None? ==>
              a'.stored.value == (if op.target == Installed
                                  then Secret(Installed, Some(a.backOff), Some(op.change(a.devMeta)))
                                  else Secret(Installing, None, None))
    ensures r == Ok && a.stored.Some? ==>
              var was := if a.stored.value.devMeta.Some? then a.stored.value.devMeta.value else a.devMeta;
              a'.stored.value.devMeta == Some(if op.target == Installed then op.change(was) else was)
  {
  }

  // ---------------------------------------------------------------- dev status of what is uninstalled

  /** Whether a slot is starting or started, in memory and in the secret. */
  datatype Claim = Claim(memory: bool, stored: bool)

  ghost predicate Claimed(t: Table, at: DevMode.Target) {
    DevMode.StatusOf(t, at) != DevMode.NotDeveloping
  }

  ghost function ClaimOf(a: Snapshot, at: DevMode.Target): Claim
    requires a.stored.Some? && a.stored.value.devMeta.Some?
  {
    Claim(Claimed(a.devMeta, at), Claimed(a.stored.value.devMeta.value, at))
  }

  /** Starts and completions take a slot, ends and deletes free it. */
  ghost predicate Takes(op: Op, at: DevMode.Target) {
    op.DevOp? && (op.op.StartOp? || op.op.CompleteOp?) && DevMode.SameSlot(op.op.at, at)
  }

  ghost predicate Frees(op: Op, at: DevMode.Target) {
    op.DeleteOp? || (op.DevOp? && op.op.EndOp? && DevMode.SameSlot(op.op.at, at))
  }

  /** The operation writes the secret. */
  ghost predicate Writes(a: Snapshot, op: Op) {
    match op
    case DeleteOp(_, c) => !c.writeFails
    case InitOp(_, _, _, _, _) => false
    case DevOp(dev, _) => !dev.LookOp? && !DevMode.Refused(a.devMeta, dev) && dev.saved
  }

  /** How one operation changes a claim: an initialisation, though refused, reads the secret back. */
  ghost function Track(claim: Claim, a: Snapshot, op: Op, at: DevMode.Target): Claim {
    var memory := if Takes(op, at) then true else if Frees(op, at) then false
                  else if op.InitOp? && !op.c.getFails then claim.stored else claim.memory;
    Claim(memory, if Writes(a, op) then memory else claim.stored)
  }

  ghost function TrackAll(as_: seq<Snapshot>, ops: seq<Op>, at: DevMode.Target, n: nat): Claim
    requires n <= |ops| && |as_| == |ops| + 1
  {
    if n == 0 then Claim(false, false) else Track(TrackAll(as_, ops, at, n - 1), as_[n - 1], ops[n - 1], at)
  }

  ghost predicate CleanSlots(ops: seq<Op>) {
    forall i :: 0 <= i < |ops| && ops[i].DevOp? ==> !DevMode.HasStartingSuffix(ops[i].op.at.Slot())
  }

  lemma DevClaim(t: Table, dev: DevMode.Op, at: DevMode.Target)
    requires !DevMode.HasStartingSuffix(at.Slot()) && !DevMode.HasStartingSuffix(dev.at.Slot())
    ensures Claimed(DevMode.Step(t, dev), at) ==
            if DevMode.SameSlot(dev.at, at) && !dev.LookOp? then !dev.EndOp? else Claimed(t, at)
  {
    if DevMode.SameSlot(dev.at, at) {
      DevMode.MarkInjective(at.Slot(), at.Slot());
    } else {
      DevMode.OtherSlotUnchanged(t, dev, at);
    }
  }

  lemma ClaimStep(a: Snapshot, since: int, op: Op, a': Snapshot, r: Outcome, at: DevMode.Target)
    requires Gone(a, since) && Meanwhile(op, since) && Step(a, op, a', r)
    requires !DevMode.HasStartingSuffix(at.Slot())
    requires op.DevOp? ==> !DevMode.HasStartingSuffix(op.op.at.Slot())
    ensures Gone(a', since) && ClaimOf(a', at) == Track(ClaimOf(a, at), a, op, at)
  {
    GoneStep(a, since, op, a', r);
    if op.DevOp? {
      DevClaim(a.devMeta, op.op, at);
    }
  }

  /** The exact status of every slot of an uninstalled application, also when requests fail: what the
      accepted operations since the delete claim in memory and in the secret. */
  lemma {:induction false} StatusFollows(as_: seq<Snapshot>, ops: seq<Op>, rs: seq<Outcome>, i: nat, at: DevMode.Target)
    requires AfterDelete(as_, ops, rs) && CleanSlots(ops) && i < |ops| && !DevMode.HasStartingSuffix(at.Slot())
    ensures Gone(as_[i + 1], ops[0].now) && ClaimOf(as_[i + 1], at) == TrackAll(as_, ops, at, i + 1)
  {
    if i == 0 {
      assert TrackAll(as_, ops, at, 0) == Claim(false, false);
    } else {
      StatusFollows(as_, ops, rs, i - 1, at);
      ClaimStep(as_[i], ops[0].now, ops[i], as_[i + 1], rs[i], at);
    }
  }

  /** A slot was taken and not freed since. */
  ghost predicate TakenSince(ops: seq<Op>, n: nat, at: DevMode.Target)
    requires n <= |ops|
  {
    exists j :: 0 <= j < n && Takes(ops[j], at) && forall k :: j < k < n ==> !Frees(ops[k], at)
  }

  ghost predicate NothingFails(ops: seq<Op>) {
    forall i :: 0 <= i < |ops| ==>
      match ops[i]
      case DeleteOp(_, c) => !c.writeFails
      case InitOp(_, _, _, _, _) => true
      case DevOp(dev, _) => dev.LookOp? || dev.saved
  }

  lemma TakenStep(ops: seq<Op>, n: nat, at: DevMode.Target)
    requires n < |ops|
    ensures TakenSince(ops, n + 1, at) <==> Takes(ops[n], at) || (TakenSince(ops, n, at) && !Frees(ops[n], at))
  {
    if TakenSince(ops, n + 1, at) {
      var j :| 0 <= j < n + 1 && Takes(ops[j], at) && forall k :: j < k < n + 1 ==> !Frees(ops[k], at);
      assert j < n ==> TakenSince(ops, n, at) && !Frees(ops[n], at);
    }
    if TakenSince(ops, n, at) && !Frees(ops[n], at) {
      var j :| 0 <= j < n && Takes(ops[j], at) && forall k :: j < k < n ==> !Frees(ops[k], at);
      assert forall k :: j < k < n + 1 ==> !Frees(ops[k], at);
    }
  }

  lemma {:induction false} TakenTracks(as_: seq<Snapshot>, ops: seq<Op>, rs: seq<Outcome>, at: DevMode.Target, n: nat)
    requires AfterDelete(as_, ops, rs) && CleanSlots(ops) && NothingFails(ops) && n <= |ops|
    requires !DevMode.HasStartingSuffix(at.Slot())
    ensures TrackAll(as_, ops, at, n) == Claim(TakenSince(ops, n, at), TakenSince(ops, n, at))
  {
    if n > 0 {
      TakenTracks(as_, ops, rs, at, n - 1);
      TakenStep(ops, n - 1, at);
      if n > 1 {
        StatusFollows(as_, ops, rs, n - 2, at);
        if ops[n - 1].DevOp? && DevMode.Refused(as_[n - 1].devMeta, ops[n - 1].op) {
          assert Takes(ops[n - 1], at) ==> Claimed(as_[n - 1].devMeta, at);
        }
      }
    }
  }

  /** When no write fails: nobody's status is anything but none if and only if no start or completion of
      the slot came after the last delete and the last end of the slot. */
  lemma NoStatusExactly(as_: seq<Snapshot>, ops: seq<Op>, rs: seq<Outcome>, i: nat, at: DevMode.Target)
    requires AfterDelete(as_, ops, rs) && CleanSlots(ops) && NothingFails(ops) && i < |ops|
    requires !DevMode.HasStartingSuffix(at.Slot())
    ensures DevMode.StatusOf(as_[i + 1].devMeta, at) == DevMode.NotDeveloping <==> !TakenSince(ops, i + 1, at)
  {
    StatusFollows(as_, ops, rs, i, at);
    TakenTracks(as_, ops, rs, at, i + 1);
  }

  /** Dev starts are not refused on an uninstalled application: right after a delete one is accepted, and
      the workload is starting while the application stays uninstalled. */
  lemma StartsWhileUninstalled(a: Snapshot, now: int, at: DevMode.Target)
    requires a.stored.Some? && !DevMode.HasStartingSuffix(at.Slot())
    ensures var cluster := Cluster(false, false);
            exists b, c ::
              Step(a, DeleteOp(now, cluster), b, Ok) && Step(b, DevOp(DevMode.StartOp(at, true), now), c, Ok) &&
              Gone(c, now) && DevMode.StatusOf(c.devMeta, at) == DevMode.Starting
  {
    var cluster, start := Cluster(false, false), DevMode.StartOp(at, true);
    var b := Write(a.(state := Uninstalled, devMeta := map[], backOff := now + BACK_OFF), cluster);
    var c := Write(b.(devMeta := DevMode.Step(b.devMeta, start)), cluster);
    assert Step(a, DeleteOp(now, cluster), b, Ok);
    assert Step(b, DevOp(start, now), c, Ok);
    assert |DevMode.Mark(at.Slot())| > |at.Slot()|;
  }
}
