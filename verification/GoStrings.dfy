/** The string functions of Go that the program's codecs rest on, and the law that makes them
    invertible: a list of fields survives Join and Split when no field contains the separator's
    pivot, a character that occurs in the separator exactly once. */
module GoStrings {

  predicate OccursAt(s: string, sep: string, i: int) {
    0 <= i && i + |sep| <= |s| && s[i..i + |sep|] == sep
  }

  predicate Contains(s: string, sep: string) {
    exists i :: 0 <= i <= |s| && OccursAt(s, sep, i)
  }

  lemma ShiftOccurrence(s: string, sep: string, j: int)
    requires s != [] && j > 0
    ensures OccursAt(s, sep, j) <==> OccursAt(s[1..], sep, j - 1)
  {
    if j + |sep| <= |s| {
      assert s[1..][j - 1..j - 1 + |sep|] == s[j..j + |sep|];
    }
  }

  /** strings.Index: the first occurrence, or -1. */
  function Index(s: string, sep: string): (i: int)
    ensures i >= 0 ==> OccursAt(s, sep, i)
    ensures forall j :: OccursAt(s, sep, j) ==> 0 <= i <= j
  {
    if sep <= s then 0
    else if s == [] then -1
    else
      var i := Index(s[1..], sep);
      assert !OccursAt(s, sep, 0);
      assert forall j :: j > 0 ==> (OccursAt(s, sep, j) <==> OccursAt(s[1..], sep, j - 1)) by {
        forall j | j > 0 ensures OccursAt(s, sep, j) <==> OccursAt(s[1..], sep, j - 1) {
          ShiftOccurrence(s, sep, j);
        }
      }
      if i < 0 then -1 else i + 1
  }

  /** strings.LastIndex: the last occurrence, or -1. */
  function LastIndex(s: string, sep: string): (i: int)
    ensures i >= 0 ==> OccursAt(s, sep, i)
    ensures forall j :: OccursAt(s, sep, j) ==> j <= i
  {
    if |sep| > |s| then -1
    else if s[|s| - |sep|..] == sep then |s| - |sep|
    else
      assert forall j :: OccursAt(s, sep, j) ==> OccursAt(s[..|s| - 1], sep, j) by {
        forall j | OccursAt(s, sep, j) ensures OccursAt(s[..|s| - 1], sep, j) {
          assert j + |sep| != |s|;
          assert s[..|s| - 1][j..j + |sep|] == s[j..j + |sep|];
        }
      }
      var i := LastIndex(s[..|s| - 1], sep);
      assert i >= 0 ==> s[..|s| - 1][i..i + |sep|] == s[i..i + |sep|];
      i
  }

  /** strings.Count: occurrences that do not overlap. */
  function Count(s: string, sep: string): (n: nat)
    requires sep != []
    decreases |s|
  {
    var i := Index(s, sep);
    if i < 0 then 0 else 1 + Count(s[i + |sep|..], sep)
  }

  /** strings.Split with a non-empty separator: one more field than there are separators. */
  function Split(s: string, sep: string): (parts: seq<string>)
    requires sep != []
    ensures |parts| == Count(s, sep) + 1
    decreases |s|
  {
    var i := Index(s, sep);
    if i < 0 then [s] else [s[..i]] + Split(s[i + |sep|..], sep)
  }

  function Join(parts: seq<string>, sep: string): string {
    if |parts| == 0 then ""
    else if |parts| == 1 then parts[0]
    else parts[0] + sep + Join(parts[1..], sep)
  }

  // ---------------------------------------------------------------- fields and separators

  ghost predicate Pivot(sep: string, m: nat) {
    m < |sep| && forall j :: 0 <= j < |sep| && j != m ==> sep[j] != sep[m]
  }

  ghost predicate AllFree(parts: seq<string>, c: char) {
    forall i :: 0 <= i < |parts| ==> c !in parts[i]
  }

  lemma OccurrencePivot(s: string, sep: string, j: int, m: nat)
    requires OccursAt(s, sep, j) && m < |sep|
    ensures s[j + m] == sep[m] && sep[m] in s
  {
    assert s[j..j + |sep|][m] == sep[m];
  }

  lemma IndexOfField(part: string, sep: string, m: nat, rest: string)
    requires Pivot(sep, m) && sep[m] !in part
    ensures Index(part, sep) == -1
    ensures Index(part + sep + rest, sep) == |part|
  {
    if Index(part, sep) >= 0 {
      OccurrencePivot(part, sep, Index(part, sep), m);
      assert false;
    }
    var s := part + sep + rest;
    assert OccursAt(s, sep, |part|);
    OccurrencePivot(s, sep, Index(s, sep), m);
    assert forall x :: 0 <= x < |part| ==> s[x] in part;
    assert forall x :: |part| <= x < |part| + |sep| ==> s[x] == sep[x - |part|];
  }

  lemma {:induction false} SplitJoin(parts: seq<string>, sep: string, m: nat)
    requires parts != [] && Pivot(sep, m) && AllFree(parts, sep[m])
    ensures Split(Join(parts, sep), sep) == parts
    decreases |parts|
  {
    if |parts| == 1 {
      IndexOfField(parts[0], sep, m, "");
    } else {
      var rest := Join(parts[1..], sep);
      IndexOfField(parts[0], sep, m, rest);
      SplitJoin(parts[1..], sep, m);
      var s := parts[0] + sep + rest;
      assert s[..|parts[0]|] == parts[0] && s[|parts[0]| + |sep|..] == rest;
    }
  }

  lemma {:induction false} JoinSnoc(parts: seq<string>, last: string, sep: string)
    requires parts != []
    ensures Join(parts + [last], sep) == Join(parts, sep) + sep + last
  {
    var all := parts + [last];
    assert all[1..] == parts[1..] + [last];
    if |parts| == 1 {
      assert all[1..] == [last];
    } else {
      JoinSnoc(parts[1..], last, sep);
      calc {
        Join(all, sep);
        parts[0] + sep + (Join(parts[1..], sep) + sep + last);
        (parts[0] + sep + Join(parts[1..], sep)) + sep + last;
      }
    }
  }

  /** The last separator of a joined list stands before its last field. */
  lemma LastIndexOfJoin(parts: seq<string>, last: string, sep: string, m: nat)
    requires parts != [] && Pivot(sep, m) && sep[m] !in last
    ensures LastIndex(Join(parts + [last], sep), sep) == |Join(parts, sep)|
  {
    JoinSnoc(parts, last, sep);
    var front := Join(parts, sep);
    var s := front + sep + last;
    assert OccursAt(s, sep, |front|);
    OccurrencePivot(s, sep, LastIndex(s, sep), m);
    assert forall x :: |front| <= x < |front| + |sep| ==> s[x] == sep[x - |front|];
    assert forall x :: |front| + |sep| <= x < |s| ==> s[x] in last;
  }

  /** Splitting at one character gives fields free of it, made of the original's characters. */
  lemma {:induction false} SplitFields(s: string, c: char, field: string)
    requires field in Split(s, [c])
    ensures c !in field && forall x :: x in field ==> x in s
    decreases |s|
  {
    var i := Index(s, [c]);
    var first := if i < 0 then s else s[..i];
    if field == first {
      forall j | 0 <= j < |first| ensures first[j] != c {
        assert OccursAt(s, [c], j) <==> s[j] == c;
      }
    } else {
      SplitFields(s[i + 1..], c, field);
    }
  }
}
