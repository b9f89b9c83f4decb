/** The string keys under which service packs are stored: six fields joined by "-/-", or five in
    records older than the namespace id. */
module PackKey {
  import opened Common
  import opened GoStrings

  const SPLITTER := "-/-"

  datatype SvcPack = SvcPack(ns: string, nid: string, app: string, svcType: string, svc: string, container: string)

  function Fields(p: SvcPack): (fs: seq<string>)
    ensures |fs| == 6
  {
    [p.ns, p.app, p.svcType, p.svc, p.container, p.nid]
  }

  function KeyWithoutContainer(p: SvcPack): string {
    Join([p.ns, p.app, p.svcType, p.svc, "", p.nid], SPLITTER)
  }

  function Key(p: SvcPack): string {
    if p.container == "" then KeyWithoutContainer(p) else Join(Fields(p), SPLITTER)
  }

  function ToPack(key: string): Option<SvcPack> {
    var a := Split(key, SPLITTER);
    if |a| < 5 then None
    else Some(SvcPack(a[0], if |a| > 5 then a[5] else "", a[1], a[2], a[3], a[4]))
  }

  function WithoutNid(key: string): string {
    if |Split(key, SPLITTER)| > 5 && LastIndex(key, SPLITTER) >= 0 then key[..LastIndex(key, SPLITTER)] else key
  }

  /** Kubernetes names and generated ids contain no slash. */
  predicate SlashFree(p: SvcPack) {
    '/' !in p.ns && '/' !in p.nid && '/' !in p.app && '/' !in p.svcType && '/' !in p.svc && '/' !in p.container
  }

  function Bare(p: SvcPack): SvcPack {
    p.(container := "")
  }

  lemma SplitFieldList(fs: seq<string>)
    requires fs != [] && AllFree(fs, '/')
    ensures Split(Join(fs, SPLITTER), SPLITTER) == fs
  {
    assert Pivot(SPLITTER, 1);
    SplitJoin(fs, SPLITTER, 1);
  }

  lemma KeyIsJoin(p: SvcPack)
    ensures Key(p) == Join(Fields(p), SPLITTER)
    ensures KeyWithoutContainer(p) == Key(Bare(p))
  {
  }

  lemma JoinStep(x: string, rest: seq<string>)
    requires rest != []
    ensures Join([x] + rest, SPLITTER) == x + "-/-" + Join(rest, SPLITTER)
  {
    assert ([x] + rest)[1..] == rest;
  }

  /** How keys are written: the fields in this order, "-/-" between them. */
  lemma KeyText(p: SvcPack)
    ensures Key(p) ==
            p.ns + "-/-" + (p.app + "-/-" + (p.svcType + "-/-" + (p.svc + "-/-" + (p.container + "-/-" + p.nid))))
  {
    KeyIsJoin(p);
    var nid := [p.nid];
    var container := [p.container] + nid;
    var svc := [p.svc] + container;
    var svcType := [p.svcType] + svc;
    var app := [p.app] + svcType;
    assert Fields(p) == [p.ns] + app;
    JoinStep(p.ns, app);
    JoinStep(p.app, svcType);
    JoinStep(p.svcType, svc);
    JoinStep(p.svc, container);
    JoinStep(p.container, nid);
  }

  /** The key determines the pack, also with an empty container or namespace id. */
  lemma KeyRoundTrip(p: SvcPack)
    requires SlashFree(p)
    ensures Split(Key(p), SPLITTER) == Fields(p)
    ensures ToPack(Key(p)) == Some(p)
  {
    KeyIsJoin(p);
    SplitFieldList(Fields(p));
  }

  lemma KeyInjective(p: SvcPack, q: SvcPack)
    requires SlashFree(p) && SlashFree(q)
    ensures Key(p) == Key(q) <==> p == q
  {
    KeyRoundTrip(p);
    KeyRoundTrip(q);
  }

  lemma CutLast(front: seq<string>, last: string)
    requires front != [] && '/' !in last
    ensures var key := Join(front + [last], SPLITTER);
            LastIndex(key, SPLITTER) >= 0 && key[..LastIndex(key, SPLITTER)] == Join(front, SPLITTER)
  {
    assert Pivot(SPLITTER, 1);
    LastIndexOfJoin(front, last, SPLITTER, 1);
    JoinSnoc(front, last, SPLITTER);
  }

  lemma LegacyKey(p: SvcPack)
    requires SlashFree(p)
    ensures WithoutNid(Key(p)) == Join(Fields(p)[..5], SPLITTER)
  {
    KeyRoundTrip(p);
    KeyIsJoin(p);
    CutLast(Fields(p)[..5], p.nid);
    assert Fields(p)[..5] + [p.nid] == Fields(p);
  }

  /** Dropping the namespace id gives the older form of the key: five fields, which decode to the
      same pack without its id, and from which nothing more is dropped. */
  lemma WithoutNidIsLegacy(p: SvcPack)
    requires SlashFree(p)
    ensures Split(WithoutNid(Key(p)), SPLITTER) == Fields(p)[..5]
    ensures ToPack(WithoutNid(Key(p))) == Some(p.(nid := ""))
    ensures WithoutNid(WithoutNid(Key(p))) == WithoutNid(Key(p))
  {
    LegacyKey(p);
    assert AllFree(Fields(p)[..5], '/');
    SplitFieldList(Fields(p)[..5]);
  }

  /** Legacy keys and full keys never coincide. */
  lemma LegacyIsNotFull(p: SvcPack, q: SvcPack)
    requires SlashFree(p) && SlashFree(q)
    ensures WithoutNid(Key(p)) != Key(q)
  {
    WithoutNidIsLegacy(p);
    KeyRoundTrip(q);
  }

  // ---------------------------------------------------------------- prefixes of keys

  lemma FirstSlash(x: string, rest: string)
    requires '/' !in x
    ensures var s := x + SPLITTER + rest;
            s[|x| + 1] == '/' && forall i :: 0 <= i < |x| + 1 ==> s[i] != '/'
  {
  }

  lemma PrefixField(x: string, a: string, y: string, b: string)
    requires '/' !in x && '/' !in y
    ensures x + SPLITTER + a <= y + SPLITTER + b <==> x == y && a <= b
  {
    var s, t := x + SPLITTER + a, y + SPLITTER + b;
    FirstSlash(x, a);
    FirstSlash(y, b);
    if s <= t {
      assert s == t[..|s|];
      assert t[|x| + 1] == s[|x| + 1] == '/';
      assert |x| == |y|;
      assert x == s[..|x|] == t[..|x|] == y;
      assert a == s[|x| + 3..] && b == t[|x| + 3..];
      assert s[|x| + 3..] == t[|x| + 3..|s|];
    }
    if x == y && a <= b {
      assert s == t[..|s|];
    }
  }

  /** A joined list is a prefix of another of the same length exactly when all its fields but the
      last agree and the last is a prefix. */
  lemma {:induction false} JoinPrefix(xs: seq<string>, ys: seq<string>)
    requires |xs| == |ys| && xs != [] && AllFree(xs, '/') && AllFree(ys, '/')
    ensures Join(xs, SPLITTER) <= Join(ys, SPLITTER) <==>
            xs[..|xs| - 1] == ys[..|ys| - 1] && xs[|xs| - 1] <= ys[|ys| - 1]
    decreases |xs|
  {
    if |xs| > 1 {
      var xs', ys' := xs[1..], ys[1..];
      PrefixField(xs[0], Join(xs', SPLITTER), ys[0], Join(ys', SPLITTER));
      JoinPrefix(xs', ys');
      var n := |xs| - 1;
      assert xs[..n] == [xs[0]] + xs'[..n - 1] && ys[..n] == [ys[0]] + ys'[..n - 1];
    }
  }

  /** Which keys begin with the key of a pack: those that differ at most by a longer namespace id.
      For a pack without container these have no container either. */
  lemma KeyPrefix(p: SvcPack, q: SvcPack)
    requires SlashFree(p) && SlashFree(q)
    ensures Key(p) <= Key(q) <==> q.(nid := p.nid) == p && p.nid <= q.nid
  {
    KeyIsJoin(p);
    KeyIsJoin(q);
    JoinPrefix(Fields(p), Fields(q));
    assert Fields(p)[..5] == Fields(q)[..5] <==> q.(nid := p.nid) == p by {
      assert forall i :: 0 <= i < 5 ==> Fields(p)[..5][i] == Fields(p)[i] && Fields(q)[..5][i] == Fields(q)[i];
      if Fields(p)[..5] == Fields(q)[..5] {
        assert Fields(p)[0] == Fields(q)[0] && Fields(p)[1] == Fields(q)[1] && Fields(p)[2] == Fields(q)[2];
        assert Fields(p)[3] == Fields(q)[3] && Fields(p)[4] == Fields(q)[4];
      }
    }
  }
}
