/** Dev mode of one application: who is starting, who has started, and who possesses a
    workload, all read off the application's dev table. */
module DevMode {
  import opened Common
  import opened DevMeta
  import opened GoStrings

  const STARTING_SUFFIX := ">...Starting"
  const DUPLICATE := "duplicate"
  const REPLACE := "replace"
  const DUPLICATE_INFIX := "-duplicate-"

  datatype Status = NotDeveloping | Starting | Started
  datatype Outcome = Ok | AlreadyDev | UpdateFailed

  function Alias(svcType: string): string {
    if svcType == "deployment" then "D" else svcType
  }

  predicate IsReplace(mode: string) {
    mode == REPLACE || mode == ""
  }

  function DevModeName(name: string, id: string, mode: string): string {
    if IsReplace(mode) then name else name + "-" + mode + "-" + id
  }

  function Mark(key: string): string {
    key + STARTING_SUFFIX
  }

  predicate HasStartingSuffix(key: string) {
    |key| >= |STARTING_SUFFIX| && key[|key| - |STARTING_SUFFIX|..] == STARTING_SUFFIX
  }

  /** A workload as one developer names it in one mode. */
  datatype Target = Target(name: string, svcType: string, id: string, mode: string) {
    function Slot(): string {
      DevModeName(name, id, mode)
    }

    function Type(): string {
      Alias(svcType)
    }
  }

  /** Every call first makes sure that the type has an inner map. */
  function Touched(t: Table, d: string): Table {
    if d in t then t else t[d := map[]]
  }

  function Names(t: Table, d: string): map<string, string> {
    if d in t then t[d] else map[]
  }

  // ---------------------------------------------------------------- operations

  /** `saved` says whether writing the secret succeeds; the table in memory changes either way. */
  datatype Op =
    | StartOp(at: Target, saved: bool)
    | CompleteOp(at: Target, saved: bool)
    | EndOp(at: Target, saved: bool)
    | LookOp(at: Target)

  predicate Refused(t: Table, op: Op) {
    var m := Names(t, op.at.Type());
    match op
    case StartOp(at, _) => at.Slot() in m || Mark(at.Slot()) in m
    case CompleteOp(at, _) => at.Slot() in m
    case _ => false
  }

  function Result(t: Table, op: Op): Outcome {
    if Refused(t, op) then AlreadyDev
    else if op.LookOp? || op.saved then Ok
    else UpdateFailed
  }

  function Step(t: Table, op: Op): Table {
    var d := op.at.Type();
    var key := op.at.Slot();
    var m := Names(t, d);
    if Refused(t, op) then Touched(t, d)
    else match op
      case StartOp(at, _) => t[d := m[Mark(key) := at.id]]
      case CompleteOp(at, _) => t[d := m[key := at.id] - {Mark(key)}]
      case EndOp(_, _) => t[d := m - {Mark(key)} - {key}]
      case LookOp(_) => Touched(t, d)
  }

  function StatusOf(t: Table, at: Target): Status {
    var m := Names(t, at.Type());
    if at.Slot() in m then Started
    else if Mark(at.Slot()) in m then Starting
    else NotDeveloping
  }

  predicate Possesses(t: Table, at: Target) {
    var m := Names(t, at.Type());
    (if at.Slot() in m then m[at.Slot()] else "") == at.id && at.id != ""
  }

  function Run(t: Table, ops: seq<Op>): Table {
    if ops == [] then t else Step(Run(t, ops[..|ops| - 1]), ops[|ops| - 1])
  }

  /** The application meta object; `saved` is the outcome of writing its secret. */
  class ApplicationMeta {
    var devMeta: Table

    constructor ()
      ensures devMeta == map[]
    {
      devMeta := map[];
    }

    method Bucket(d: string)
      modifies this
      ensures devMeta == Touched(old(devMeta), d)
    {
      if d !in devMeta {
        devMeta := devMeta[d := map[]];
      }
    }

    method SvcDevStarting(at: Target, saved: bool) returns (r: Outcome)
      modifies this
      ensures devMeta == Step(old(devMeta), StartOp(at, saved))
      ensures r == Result(old(devMeta), StartOp(at, saved))
    {
      var name, d := at.Slot(), at.Type();
      Bucket(d);
      if name in devMeta[d] {
        return AlreadyDev;
      }
      var mark := Mark(name);
      if mark in devMeta[d] {
        return AlreadyDev;
      }
      devMeta := devMeta[d := devMeta[d][mark := at.id]];
      return if saved then Ok else UpdateFailed;
    }

    method SvcDevStartComplete(at: Target, saved: bool) returns (r: Outcome)
      modifies this
      ensures devMeta == Step(old(devMeta), CompleteOp(at, saved))
      ensures r == Result(old(devMeta), CompleteOp(at, saved))
    {
      var name, d := at.Slot(), at.Type();
      Bucket(d);
      if name in devMeta[d] {
        return AlreadyDev;
      }
      devMeta := devMeta[d := devMeta[d][name := at.id]];
      devMeta := devMeta[d := devMeta[d] - {Mark(name)}];
      return if saved then Ok else UpdateFailed;
    }

    method SvcDevEnd(at: Target, saved: bool) returns (r: Outcome)
      modifies this
      ensures devMeta == Step(old(devMeta), EndOp(at, saved))
      ensures r == Result(old(devMeta), EndOp(at, saved))
    {
      var name, d := at.Slot(), at.Type();
      Bucket(d);
      devMeta := devMeta[d := devMeta[d] - {Mark(name)}];
      devMeta := devMeta[d := devMeta[d] - {name}];
      return if saved then Ok else UpdateFailed;
    }

    method CheckIfSvcDeveloping(at: Target) returns (s: Status)
      modifies this
      ensures devMeta == Step(old(devMeta), LookOp(at))
      ensures s == StatusOf(old(devMeta), at)
    {
      var name, d := at.Slot(), at.Type();
      Bucket(d);
      if name in devMeta[d] {
        return Started;
      }
      if Mark(name) in devMeta[d] {
        return Starting;
      }
      return NotDeveloping;
    }

    method SvcDevModePossessor(at: Target) returns (b: bool)
      modifies this
      ensures devMeta == Step(old(devMeta), LookOp(at))
      ensures b == Possesses(old(devMeta), at)
    {
      var name, d := at.Slot(), at.Type();
      Bucket(d);
      return (if name in devMeta[d] then devMeta[d][name] else "") == at.id && at.id != "";
    }
  }

  // ---------------------------------------------------------------- slots and marks

  ghost predicate SameSlot(a: Target, b: Target) {
    a.Type() == b.Type() && a.Slot() == b.Slot()
  }

  lemma MarkInjective(a: string, b: string)
    ensures Mark(a) == Mark(b) ==> a == b
    ensures HasStartingSuffix(Mark(a))
  {
    if Mark(a) == Mark(b) {
      assert a == Mark(a)[..|a|] && b == Mark(b)[..|b|];
    }
  }

  /** An operation reaches only the entry and the mark of its own slot. */
  lemma StepElsewhere(t: Table, op: Op, d: string, x: string)
    requires d != op.at.Type() || (x != op.at.Slot() && x != Mark(op.at.Slot()))
    ensures Get(Names(Step(t, op), d), x) == Get(Names(t, d), x)
  {
  }

  lemma OtherSlotUnchanged(t: Table, op: Op, q: Target)
    requires !SameSlot(op.at, q)
    requires !HasStartingSuffix(op.at.Slot()) && !HasStartingSuffix(q.Slot())
    ensures StatusOf(Step(t, op), q) == StatusOf(t, q)
    ensures Possesses(Step(t, op), q) == Possesses(t, q)
  {
    var k := op.at.Slot();
    MarkInjective(k, q.Slot());
    MarkInjective(q.Slot(), k);
    if op.at.Type() != q.Type() || q.Slot() != k {
      StepElsewhere(t, op, q.Type(), q.Slot());
      StepElsewhere(t, op, q.Type(), Mark(q.Slot()));
      assert Get(Names(Step(t, op), q.Type()), q.Slot()) == Get(Names(t, q.Type()), q.Slot());
      assert Get(Names(Step(t, op), q.Type()), Mark(q.Slot())) == Get(Names(t, q.Type()), Mark(q.Slot()));
    }
  }

  // ---------------------------------------------------------------- starting or started, never both

  ghost predicate CleanOps(ops: seq<Op>) {
    forall i :: 0 <= i < |ops| ==> !HasStartingSuffix(ops[i].at.Slot())
  }

  ghost predicate NeverBoth(t: Table) {
    forall d, k :: !HasStartingSuffix(k) ==> !Both(t, d, k)
  }

  ghost predicate Both(t: Table, d: string, k: string) {
    k in Names(t, d) && Mark(k) in Names(t, d)
  }

  /** Exactly when an operation makes a workload both starting and started: it completes a workload
      that is named like the starting mark of the other, which is started. */
  lemma BothExactly(t: Table, op: Op, d: string, k: string)
    requires !HasStartingSuffix(k) && !Both(t, d, k)
    ensures Both(Step(t, op), d, k) <==>
            && op.CompleteOp? && !Refused(t, op)
            && op.at.Type() == d && op.at.Slot() == Mark(k) && k in Names(t, d)
  {
    var s := op.at.Slot();
    MarkInjective(k, s);
    MarkInjective(s, k);
    assert |Mark(s)| > |s|;
    if d != op.at.Type() || (k != s && Mark(k) != s) {
      StepElsewhere(t, op, d, k);
      StepElsewhere(t, op, d, Mark(k));
      assert Get(Names(Step(t, op), d), k) == Get(Names(t, d), k);
      assert Get(Names(Step(t, op), d), Mark(k)) == Get(Names(t, d), Mark(k));
    }
  }

  lemma StepNeverBoth(t: Table, op: Op)
    requires NeverBoth(t) && !HasStartingSuffix(op.at.Slot())
    ensures NeverBoth(Step(t, op))
  {
    forall d, k | !HasStartingSuffix(k) ensures !Both(Step(t, op), d, k) {
      BothExactly(t, op, d, k);
      MarkInjective(k, k);
    }
  }

  /** In every run from an empty table no workload is both starting and started. */
  lemma {:induction false} RunNeverBoth(ops: seq<Op>)
    requires CleanOps(ops)
    ensures NeverBoth(Run(map[], ops))
  {
    if ops != [] {
      RunNeverBoth(ops[..|ops| - 1]);
      StepNeverBoth(Run(map[], ops[..|ops| - 1]), ops[|ops| - 1]);
    }
  }

  /** The condition on names is needed: a workload named like a starting mark confuses the two. */
  lemma SuffixedNameIsBoth()
    ensures var other := Target("web" + STARTING_SUFFIX, "D", "ib", REPLACE);
            var web := Target("web", "D", "ia", REPLACE);
            var m := Names(Run(map[], [CompleteOp(web, true), CompleteOp(other, true)]), "D");
            web.Slot() in m && Mark(web.Slot()) in m
  {
    var other := Target("web" + STARTING_SUFFIX, "D", "ib", REPLACE);
    var web := Target("web", "D", "ia", REPLACE);
    var ops := [CompleteOp(web, true), CompleteOp(other, true)];
    assert ops[..1] == [ops[0]] && ops[..1][..0] == [];
    assert Run(map[], ops[..1]) == Step(map[], ops[0]);
    var t := Step(map[], ops[0]);
    assert "D" in t && t["D"] == map["web" := "ia"];
    assert Run(map[], ops) == Step(t, ops[1]);
    assert |Mark(other.Slot())| > |other.Slot()| > 3;
  }

  // ---------------------------------------------------------------- exclusion and possession

  ghost predicate Held(t: Table, at: Target) {
    StatusOf(t, at) != NotDeveloping
  }

  ghost predicate NoEndOf(ops: seq<Op>, at: Target) {
    forall i :: 0 <= i < |ops| && ops[i].EndOp? ==> !SameSlot(ops[i].at, at)
  }

  lemma StepHeld(t: Table, op: Op, at: Target)
    requires Held(t, at) && !HasStartingSuffix(at.Slot()) && !HasStartingSuffix(op.at.Slot())
    requires op.EndOp? ==> !SameSlot(op.at, at)
    ensures Held(Step(t, op), at)
  {
    if SameSlot(op.at, at) {
      MarkInjective(at.Slot(), at.Slot());
    } else {
      OtherSlotUnchanged(t, op, at);
    }
  }

  lemma {:induction false} RunHeld(t: Table, ops: seq<Op>, at: Target)
    requires Held(t, at) && !HasStartingSuffix(at.Slot()) && CleanOps(ops) && NoEndOf(ops, at)
    ensures Held(Run(t, ops), at)
  {
    if ops != [] {
      RunHeld(t, ops[..|ops| - 1], at);
      StepHeld(Run(t, ops[..|ops| - 1]), ops[|ops| - 1], at);
    }
  }

  /** Once a start is accepted (even if its secret could not be written), every start of the
      same slot is refused until that slot is ended.  In replace mode the slot is the workload. */
  lemma StartExcludesStarts(t: Table, start: Op, ops: seq<Op>, later: Op)
    requires start.StartOp? && Result(t, start) != AlreadyDev && !HasStartingSuffix(start.at.Slot())
    requires CleanOps(ops) && NoEndOf(ops, start.at)
    requires later.StartOp? && SameSlot(later.at, start.at)
    ensures Result(Run(Step(t, start), ops), later) == AlreadyDev
  {
    RunHeld(Step(t, start), ops, start.at);
  }

  /** In replace mode the slot is the workload: its name and its type, of which only one has two names. */
  lemma ReplaceSlotsAreWorkloads(a: Target, b: Target)
    requires IsReplace(a.mode) && IsReplace(b.mode)
    ensures SameSlot(a, b) <==>
            a.name == b.name && (a.svcType == b.svcType || {a.svcType, b.svcType} == {"deployment", "D"})
  {
    assert |"D"| != |"deployment"|;
  }

  /** How slots are named. */
  lemma SlotsAreNamed(name: string, svcType: string, id: string)
    ensures Target(name, svcType, id, "").Slot() == name == Target(name, svcType, id, "replace").Slot()
    ensures Target(name, svcType, id, "duplicate").Slot() == name + "-duplicate-" + id
    ensures Mark(name) == name + ">...Starting"
  {
    DuplicateName(name, id);
    assert |"duplicate"| != |"replace"|;
  }

  /** What every operation answers and leaves in its own slot: a start is accepted iff the slot is free, a
      completion iff it is not started; whoever starts or completes is entered. */
  lemma StepMeans(t: Table, op: Op)
    requires !HasStartingSuffix(op.at.Slot())
    ensures var t', d, slot := Step(t, op), op.at.Type(), op.at.Slot();
            match op
            case StartOp(at, saved) =>
              && (Result(t, op) == AlreadyDev <==> StatusOf(t, at) != NotDeveloping)
              && (Result(t, op) == Ok <==> StatusOf(t, at) == NotDeveloping && saved)
              && (Result(t, op) != AlreadyDev ==>
                    StatusOf(t', at) == Starting && Owner(t', Key(d, slot + ">...Starting")) == Some(at.id))
            case CompleteOp(at, saved) =>
              && (Result(t, op) == AlreadyDev <==> StatusOf(t, at) == Started)
              && (Result(t, op) == Ok <==> StatusOf(t, at) != Started && saved)
              && (Result(t, op) != AlreadyDev ==>
                    && StatusOf(t', at) == Started && Owner(t', Key(d, slot)) == Some(at.id)
                    && Owner(t', Key(d, slot + ">...Starting")) == None)
            case EndOp(at, saved) =>
              && (Result(t, op) == Ok <==> saved) && (Result(t, op) == UpdateFailed <==> !saved)
              && StatusOf(t', at) == NotDeveloping && Owner(t', Key(d, slot)) == None
              && Owner(t', Key(d, slot + ">...Starting")) == None
            case LookOp(at) =>
              Result(t, op) == Ok && forall k :: Owner(t', k) == Owner(t, k)
  {
    assert |Mark(op.at.Slot())| > |op.at.Slot()|;
  }

  /** A refused operation changes nobody's entry. */
  lemma RefusedChangesNothing(t: Table, op: Op, k: Key)
    requires Result(t, op) == AlreadyDev
    ensures Owner(Step(t, op), k) == Owner(t, k)
  {
  }

  lemma StepOwner(t: Table, op: Op, at: Target, id: string)
    requires Get(Names(t, at.Type()), at.Slot()) == Some(id)
    requires !HasStartingSuffix(at.Slot()) && !HasStartingSuffix(op.at.Slot())
    requires op.EndOp? ==> !SameSlot(op.at, at)
    ensures Get(Names(Step(t, op), at.Type()), at.Slot()) == Some(id)
  {
    MarkInjective(op.at.Slot(), at.Slot());
  }

  lemma {:induction false} RunOwner(t: Table, ops: seq<Op>, at: Target, id: string)
    requires Get(Names(t, at.Type()), at.Slot()) == Some(id)
    requires !HasStartingSuffix(at.Slot()) && CleanOps(ops) && NoEndOf(ops, at)
    ensures Get(Names(Run(t, ops), at.Type()), at.Slot()) == Some(id)
  {
    if ops != [] {
      RunOwner(t, ops[..|ops| - 1], at, id);
      StepOwner(Run(t, ops[..|ops| - 1]), ops[|ops| - 1], at, id);
    }
  }

  /** After a completion, and until its slot is ended, the slot is started for everybody who shares it and
      its possessor is the completing developer, alone. */
  lemma CompleterPossesses(t: Table, complete: Op, ops: seq<Op>, q: Target)
    requires complete.CompleteOp? && Result(t, complete) != AlreadyDev
    requires !HasStartingSuffix(complete.at.Slot()) && SameSlot(q, complete.at)
    requires CleanOps(ops) && NoEndOf(ops, complete.at)
    ensures StatusOf(Run(Step(t, complete), ops), q) == Started
    ensures Possesses(Run(Step(t, complete), ops), q) <==> q.id == complete.at.id && q.id != ""
  {
    MarkInjective(complete.at.Slot(), complete.at.Slot());
    RunOwner(Step(t, complete), ops, complete.at, complete.at.id);
  }

  /** An end releases the slot: nobody is developing it and a new start is accepted. */
  lemma EndReleases(t: Table, end: Op, start: Op)
    requires end.EndOp? && start.StartOp? && SameSlot(end.at, start.at)
    ensures StatusOf(Step(t, end), end.at) == NotDeveloping
    ensures forall q :: SameSlot(q, end.at) ==> !Possesses(Step(t, end), q)
    ensures Result(Step(t, end), start) != AlreadyDev
  {
  }

  // ---------------------------------------------------------------- duplicate mode

  lemma DuplicateName(name: string, id: string)
    ensures DevModeName(name, id, DUPLICATE) == name + DUPLICATE_INFIX + id
  {
    assert "-" + DUPLICATE + "-" == DUPLICATE_INFIX;
    assert name + "-" + DUPLICATE + "-" + id == name + ("-" + DUPLICATE + "-") + id;
  }

  /** How the infix can be read in two ways: the longer name ends in "-duplicate" and the other identifier
      begins with "duplicate-", so that the two readings overlap; or the identifier contains the infix. */
  ghost predicate TwoReadings(n: string, i: string, n': string, i': string) {
    || (n' == n + "-duplicate" && i == "duplicate-" + i')
    || exists m :: n' == n + DUPLICATE_INFIX + m && i == m + DUPLICATE_INFIX + i'
  }

  /** For all names and identifiers, the slots of two duplicate-mode developers coincide only in these ways. */
  lemma DuplicateCollisions(n: string, i: string, n': string, i': string)
    requires |n| <= |n'|
    ensures DevModeName(n, i, DUPLICATE) == DevModeName(n', i', DUPLICATE) <==>
            (n == n' && i == i') || TwoReadings(n, i, n', i')
  {
    DuplicateName(n, i);
    DuplicateName(n', i');
    if n + DUPLICATE_INFIX + i == n' + DUPLICATE_INFIX + i' {
      CollisionShape(n, i, n', i');
    }
    if TwoReadings(n, i, n', i') {
      ReadingsCollide(n, i, n', i');
    }
  }

  lemma ReadingsCollide(n: string, i: string, n': string, i': string)
    requires TwoReadings(n, i, n', i')
    ensures n + DUPLICATE_INFIX + i == n' + DUPLICATE_INFIX + i'
  {
    var sep := DUPLICATE_INFIX;
    if n' == n + "-duplicate" && i == "duplicate-" + i' {
      assert sep + "duplicate-" == "-duplicate" + sep;
      assert n + sep + i == n + (sep + "duplicate-") + i';
      assert n' + sep + i' == n + ("-duplicate" + sep) + i';
    } else {
      var m :| n' == n + sep + m && i == m + sep + i';
      assert n + sep + i == n + sep + m + sep + i';
    }
  }

  lemma LongGap(n: string, i: string, n': string, i': string)
    requires n + DUPLICATE_INFIX + i == n' + DUPLICATE_INFIX + i'
    requires |n| + |DUPLICATE_INFIX| <= |n'|
    ensures TwoReadings(n, i, n', i')
  {
    var sep := DUPLICATE_INFIX;
    var s, m := n + sep + i, n'[|n| + 11..];
    assert s[..|n'|] == n' && s[..|n| + 11] == n + sep && n'[..|n| + 11] == s[..|n| + 11];
    assert n' == n + sep + m;
    assert n' + sep + i' == n + sep + (m + sep + i');
    assert i == s[|n| + 11..] == m + sep + i';
  }

  lemma CollisionShape(n: string, i: string, n': string, i': string)
    requires n + DUPLICATE_INFIX + i == n' + DUPLICATE_INFIX + i' && |n| <= |n'|
    ensures (n == n' && i == i') || TwoReadings(n, i, n', i')
  {
    var gap := |n'| - |n|;
    if gap == 0 {
      var s := n + DUPLICATE_INFIX + i;
      assert n == s[..|n|] == n' && i == s[|n| + 11..] == i';
    } else if gap >= 11 {
      LongGap(n, i, n', i');
    } else {
      ShortGap(n, i, n', i');
    }
  }

  /** The infix begins with its own last character and with no other. */
  lemma OverlapIsTen(s: string, a: nat, b: nat)
    requires OccursAt(s, DUPLICATE_INFIX, a) && OccursAt(s, DUPLICATE_INFIX, b) && a < b < a + 11
    ensures b == a + 10
  {
    assert s[a..a + 11][b - a] == DUPLICATE_INFIX[b - a];
    assert s[b..b + 11][0] == DUPLICATE_INFIX[0];
  }

  lemma ShortGap(n: string, i: string, n': string, i': string)
    requires n + DUPLICATE_INFIX + i == n' + DUPLICATE_INFIX + i' && 0 < |n'| - |n| < 11
    ensures n' == n + "-duplicate" && i == "duplicate-" + i'
  {
    var sep := DUPLICATE_INFIX;
    var s := n + sep + i;
    assert s[|n|..|n| + 11] == sep && s[|n'|..|n'| + 11] == sep;
    OverlapIsTen(s, |n|, |n'|);
    assert n' == s[..|n| + 10] == n + sep[..10] && sep[..10] == "-duplicate";
    Overlap(n, i, i');
  }

  lemma Overlap(n: string, i: string, i': string)
    requires n + DUPLICATE_INFIX + i == n + "-duplicate" + DUPLICATE_INFIX + i'
    ensures i == "duplicate-" + i'
  {
    assert "-duplicate" + DUPLICATE_INFIX == DUPLICATE_INFIX + "duplicate-";
    assert n + "-duplicate" + DUPLICATE_INFIX + i' == n + DUPLICATE_INFIX + ("duplicate-" + i');
    assert i == (n + DUPLICATE_INFIX + i)[|n| + 11..];
  }

  /** Identifiers as the program generates them: the letter i, then hexadecimal digits and dashes. */
  predicate Generated(id: string) {
    |id| > 0 && id[0] == 'i' && '>' !in id && !Contains(id, DUPLICATE_INFIX)
  }

  /** Names as Kubernetes allows them have no such sign as the starting mark; they may contain the infix. */
  predicate Proper(at: Target) {
    '>' !in at.name && Generated(at.id) && (at.mode == DUPLICATE || IsReplace(at.mode))
  }

  lemma SuffixHasArrow(key: string)
    requires HasStartingSuffix(key)
    ensures '>' in key
  {
    assert key[|key| - |STARTING_SUFFIX|..][0] == '>';
  }

  lemma ProperSlot(at: Target)
    requires Proper(at)
    ensures !HasStartingSuffix(at.Slot())
  {
    if at.mode == DUPLICATE {
      DuplicateName(at.name, at.id);
    }
    assert '>' !in at.Slot();
    if HasStartingSuffix(at.Slot()) {
      SuffixHasArrow(at.Slot());
      assert false;
    }
  }

  /** Generated identifiers leave only one reading, whatever the names. */
  lemma OneReading(n: string, i: string, n': string, i': string)
    requires Generated(i)
    ensures !TwoReadings(n, i, n', i')
  {
    if m :| n' == n + DUPLICATE_INFIX + m && i == m + DUPLICATE_INFIX + i' {
      assert i[|m|..|m| + 11] == DUPLICATE_INFIX;
      assert OccursAt(i, DUPLICATE_INFIX, |m|);
      assert false;
    }
    assert "duplicate-"[0] == 'd';
  }

  lemma DuplicateInjective(n: string, i: string, n': string, i': string)
    requires Generated(i) && Generated(i')
    ensures DevModeName(n, i, DUPLICATE) == DevModeName(n', i', DUPLICATE) <==> n == n' && i == i'
  {
    if |n| <= |n'| {
      DuplicateCollisions(n, i, n', i');
      OneReading(n, i, n', i');
    } else {
      DuplicateCollisions(n', i', n, i);
      OneReading(n', i', n, i);
    }
  }

  /** Exactly when two developers share a slot: in replace mode by the workload's name, in duplicate mode by
      name and identifier, and across modes when the workload held in replace mode is named like the
      other's slot. */
  lemma SlotsCoincideExactly(a: Target, b: Target)
    requires Proper(a) && Proper(b)
    ensures a.Slot() == b.Slot() <==>
            if IsReplace(a.mode) && IsReplace(b.mode) then a.name == b.name
            else if IsReplace(a.mode) then a.name == b.name + DUPLICATE_INFIX + b.id
            else if IsReplace(b.mode) then b.name == a.name + DUPLICATE_INFIX + a.id
            else a.name == b.name && a.id == b.id
  {
    DuplicateName(a.name, a.id);
    DuplicateName(b.name, b.id);
    DuplicateInjective(a.name, a.id, b.name, b.id);
  }

  /** Without the identifiers' leading letter two developers can share a slot. */
  lemma UnprefixedIdentifiersCollide()
    ensures DevModeName("a", "duplicate-x", DUPLICATE) == DevModeName("a-duplicate", "x", DUPLICATE)
  {
    assert DevModeName("a", "duplicate-x", DUPLICATE) == "a-duplicate-duplicate-x";
  }

  /** Kubernetes allows a workload to be named like a duplicate slot of another, such as web-duplicate-i0a
      for web and i0a: then a duplicate-mode start of the latter keeps another developer from starting the
      former. */
  lemma NamedLikeSlotIsBlocked(name: string, id: string, other: string)
    requires '>' !in name && Generated(id) && Generated(other) && id != other
    ensures var mine := Target(name, "D", id, DUPLICATE);
            var yours := Target(name + DUPLICATE_INFIX + id, "D", other, REPLACE);
            && Proper(mine) && Proper(yours) && mine.Slot() == yours.Slot()
            && Result(map[], StartOp(yours, true)) == Ok
            && Result(Step(map[], StartOp(mine, true)), StartOp(yours, true)) == AlreadyDev
  {
    DuplicateName(name, id);
  }

  /** Whatever happens in other slots, one slot's status and possession stay. */
  lemma {:induction false} OtherSlotsRun(t: Table, ops: seq<Op>, q: Target)
    requires Proper(q) && forall i :: 0 <= i < |ops| ==> Proper(ops[i].at) && !SameSlot(ops[i].at, q)
    ensures StatusOf(Run(t, ops), q) == StatusOf(t, q)
    ensures Possesses(Run(t, ops), q) == Possesses(t, q)
  {
    if ops != [] {
      OtherSlotsRun(t, ops[..|ops| - 1], q);
      ProperSlot(ops[|ops| - 1].at);
      ProperSlot(q);
      OtherSlotUnchanged(Run(t, ops[..|ops| - 1]), ops[|ops| - 1], q);
    }
  }

  ghost predicate DuplicateOpsOf(ops: seq<Op>, id: string) {
    forall i :: 0 <= i < |ops| ==> Proper(ops[i].at) && ops[i].at.mode == DUPLICATE && ops[i].at.id == id
  }

  /** Whatever one developer does in duplicate mode to whatever workloads, another developer's view of any
      workload in duplicate mode does not change. */
  lemma DuplicateIsolation(t: Table, ops: seq<Op>, id: string, q: Target)
    requires DuplicateOpsOf(ops, id) && Proper(q) && q.mode == DUPLICATE && q.id != id
    ensures StatusOf(Run(t, ops), q) == StatusOf(t, q)
    ensures Possesses(Run(t, ops), q) == Possesses(t, q)
  {
    forall i | 0 <= i < |ops| ensures !SameSlot(ops[i].at, q) {
      SlotsCoincideExactly(ops[i].at, q);
    }
    OtherSlotsRun(t, ops, q);
  }

  /** The workload is named like a slot of this developer. */
  ghost predicate NamedLikeSlotOf(name: string, id: string) {
    exists n :: '>' !in n && name == n + DUPLICATE_INFIX + id
  }

  ghost predicate SameStatus(t: Table, ops: seq<Op>, q: Target) {
    StatusOf(Run(t, ops), q) == StatusOf(t, q)
  }

  /** Nor does the replace-mode status of a workload, in any run from any table, if and only if the workload
      is not named like a slot of that developer. */
  lemma ReplaceIsolationExactly(id: string, q: Target)
    requires Generated(id) && Proper(q) && IsReplace(q.mode)
    ensures (forall t, ops :: DuplicateOpsOf(ops, id) ==> SameStatus(t, ops, q)) <==> !NamedLikeSlotOf(q.name, id)
  {
    if NamedLikeSlotOf(q.name, id) {
      var n :| '>' !in n && q.name == n + DUPLICATE_INFIX + id;
      var op := StartOp(Target(n, q.svcType, id, DUPLICATE), true);
      DuplicateName(n, id);
      assert SameSlot(op.at, q) && DuplicateOpsOf([op], id);
      var empty: Table := map[];
      assert [op][..0] == [] && Run(empty, [op]) == Step(empty, op);
      assert StatusOf(Step(empty, op), op.at) == Starting by {
        MarkInjective(op.at.Slot(), op.at.Slot());
        ProperSlot(op.at);
      }
      assert !SameStatus(empty, [op], q);
    } else {
      forall t, ops: seq<Op> | DuplicateOpsOf(ops, id) ensures SameStatus(t, ops, q) {
        forall i | 0 <= i < |ops| ensures !SameSlot(ops[i].at, q) {
          SlotsCoincideExactly(ops[i].at, q);
        }
        OtherSlotsRun(t, ops, q);
      }
    }
  }

  /** A workload held in replace mode does not keep others from starting it in duplicate mode; only a
      workload that is itself named like the slot could. */
  lemma ReplaceDoesNotExcludeDuplicate(t: Table, ops: seq<Op>, start: Op)
    requires start.StartOp? && Proper(start.at) && start.at.mode == DUPLICATE
    requires forall i :: 0 <= i < |ops| ==> Proper(ops[i].at) && IsReplace(ops[i].at.mode)
    requires forall i :: 0 <= i < |ops| ==> ops[i].at.name != start.at.name + DUPLICATE_INFIX + start.at.id
    ensures Result(Run(t, ops), start) == Result(t, start)
  {
    forall i | 0 <= i < |ops| ensures !SameSlot(ops[i].at, start.at) {
      SlotsCoincideExactly(ops[i].at, start.at);
    }
    OtherSlotsRun(t, ops, start.at);
  }
}
