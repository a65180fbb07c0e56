/** Canonical ids of private rooms: the members' ids, sorted and joined. */
module RoomIds {
  import Text

  // ---- The order of strings -------------------------------------------------------------

  predicate Leq(a: string, b: string) {
    a == "" || (b != "" && (a[0] < b[0] || (a[0] == b[0] && Leq(a[1..], b[1..]))))
  }

  lemma {:induction false} LeqTotal(a: string, b: string)
    ensures Leq(a, b) || Leq(b, a)
    decreases |a|
  {
    if a != "" && b != "" { LeqTotal(a[1..], b[1..]); }
  }

  lemma {:induction false} LeqAntisymmetric(a: string, b: string)
    requires Leq(a, b) && Leq(b, a)
    ensures a == b
    decreases |a|
  {
    if a != "" && b != "" {
      LeqAntisymmetric(a[1..], b[1..]);
      assert a == [a[0]] + a[1..] && b == [b[0]] + b[1..];
    }
  }

  lemma {:induction false} LeqTransitive(a: string, b: string, c: string)
    requires Leq(a, b) && Leq(b, c)
    ensures Leq(a, c)
    decreases |a|
  {
    if a != "" && a[0] == b[0] == c[0] { LeqTransitive(a[1..], b[1..], c[1..]); }
  }

  /** The smaller character at the first difference decides, and a prefix comes first. */
  lemma {:induction false} LeqIs(p: string, a: string, b: string)
    requires a != "" ==> b != "" && a[0] != b[0]
    ensures Leq(p + a, p + b) <==> a == "" || a[0] < b[0]
    ensures a != "" ==> (Leq(p + b, p + a) <==> b[0] < a[0])
    decreases |p|
  {
    if p == "" {
      assert p + a == a && p + b == b;
    } else {
      assert (p + a)[1..] == p[1..] + a && (p + b)[1..] == p[1..] + b;
      LeqIs(p[1..], a, b);
    }
  }

  // ---- Sorting --------------------------------------------------------------------------

  ghost predicate Sorted(s: seq<string>) {
    forall i, j :: 0 <= i < j < |s| ==> Leq(s[i], s[j])
  }

  function Insert(x: string, s: seq<string>): (r: seq<string>)
    ensures multiset(r) == multiset(s) + multiset{x}
  {
    if s == [] || Leq(x, s[0]) then [x] + s
    else
      assert s == [s[0]] + s[1..];
      [s[0]] + Insert(x, s[1..])
  }

  /** sort.Strings */
  function Sort(s: seq<string>): (r: seq<string>)
    ensures multiset(r) == multiset(s) && |r| == |s|
  {
    if s == [] then []
    else
      assert s == [s[0]] + s[1..];
      var r := Insert(s[0], Sort(s[1..]));
      assert |multiset(r)| == |multiset(s)|;
      r
  }

  lemma {:induction false} InsertSorted(x: string, s: seq<string>)
    requires Sorted(s)
    ensures Sorted(Insert(x, s))
    decreases |s|
  {
    if s != [] && !Leq(x, s[0]) {
      LeqTotal(x, s[0]);
      InsertSorted(x, s[1..]);
      var r := Insert(x, s[1..]);
      forall j | 0 <= j < |r|
        ensures Leq(s[0], r[j])
      {
        assert r[j] in multiset(r);
        if r[j] != x {
          assert r[j] in multiset(s[1..]);
          var k :| 0 <= k < |s[1..]| && s[1..][k] == r[j];
          assert s[1..][k] == s[k + 1];
        }
      }
    } else if s != [] {
      forall j | 0 <= j < |s|
        ensures Leq(x, s[j])
      {
        if j > 0 { LeqTransitive(x, s[0], s[j]); }
      }
    }
  }

  lemma {:induction false} SortSorted(s: seq<string>)
    ensures Sorted(Sort(s))
    decreases |s|
  {
    if s != [] {
      SortSorted(s[1..]);
      InsertSorted(s[0], Sort(s[1..]));
    }
  }

  lemma LeastFirst(a: seq<string>, x: string)
    requires Sorted(a) && a != [] && x in multiset(a)
    ensures Leq(a[0], x)
  {
    var k :| 0 <= k < |a| && a[k] == x;
    if k == 0 { LeqTotal(x, x); }
  }

  lemma Tail(a: seq<string>)
    requires a != []
    ensures a[0] in multiset(a) && multiset(a[1..]) == multiset(a) - multiset{a[0]}
  {
    assert a == [a[0]] + a[1..];
  }

  /** There is only one way to sort. */
  lemma {:induction false} SortedUnique(a: seq<string>, b: seq<string>)
    requires Sorted(a) && Sorted(b) && multiset(a) == multiset(b)
    ensures a == b
    decreases |a|
  {
    assert |multiset(a)| == |a| && |multiset(b)| == |b|;
    if a != [] {
      Tail(a);
      Tail(b);
      LeastFirst(a, b[0]);
      LeastFirst(b, a[0]);
      LeqAntisymmetric(a[0], b[0]);
      SortedUnique(a[1..], b[1..]);
      assert a == [a[0]] + a[1..] && b == [b[0]] + b[1..];
    }
  }

  // ---- The id ---------------------------------------------------------------------------

  /** generateRoomIdByUuidList */
  function RoomId(uuids: seq<string>): string {
    "pri_" + if uuids == [] then "" else Text.Join(Sort(uuids), "_")
  }

  /** The id does not depend on the order of the list. */
  lemma SameForPermutations(a: seq<string>, b: seq<string>)
    requires multiset(a) == multiset(b)
    ensures RoomId(a) == RoomId(b)
  {
    SortSorted(a);
    SortSorted(b);
    SortedUnique(Sort(a), Sort(b));
    assert |multiset(a)| == |a| && |multiset(b)| == |b|;
  }

  /** What the id looks like: the sorted ids behind a fixed prefix, with underscores between. */
  lemma IdOfSorted(uuids: seq<string>)
    requires uuids != [] && Sorted(uuids)
    ensures RoomId(uuids) == "pri_" + Text.Join(uuids, "_")
  {
    SortSorted(uuids);
    SortedUnique(uuids, Sort(uuids));
  }

  predicate Plain(s: string) {
    '_' !in s
  }

  function FirstBar(s: string): nat {
    if s == "" || s[0] == '_' then 0 else 1 + FirstBar(s[1..])
  }

  lemma {:induction false} FirstBarAfter(a: string, rest: string)
    requires Plain(a) && (rest == "" || rest[0] == '_')
    ensures FirstBar(a + rest) == |a|
    decreases |a|
  {
    if a == "" {
      assert a + rest == rest;
    } else {
      assert (a + rest)[1..] == a[1..] + rest;
      FirstBarAfter(a[1..], rest);
    }
  }

  function After(parts: seq<string>): string
    requires parts != []
  {
    if |parts| == 1 then "" else "_" + Text.Join(parts[1..], "_")
  }

  /** The first part ends at the first underscore. */
  lemma JoinHead(parts: seq<string>)
    requires parts != [] && Plain(parts[0])
    ensures var s, n := Text.Join(parts, "_"), |parts[0]|;
            FirstBar(s) == n <= |s| && s[..n] == parts[0] && s[n..] == After(parts)
  {
    FirstBarAfter(parts[0], After(parts));
    assert Text.Join(parts, "_") == parts[0] + After(parts);
  }

  lemma {:induction false} JoinInjective(a: seq<string>, b: seq<string>)
    requires a != [] && b != []
    requires forall i :: 0 <= i < |a| ==> Plain(a[i])
    requires forall i :: 0 <= i < |b| ==> Plain(b[i])
    requires Text.Join(a, "_") == Text.Join(b, "_")
    ensures a == b
    decreases |a|
  {
    JoinHead(a);
    JoinHead(b);
    assert After(a) == After(b) && (|a| == 1 <==> After(a) == "") && (|b| == 1 <==> After(b) == "");
    if |a| > 1 {
      assert After(a)[1..] == Text.Join(a[1..], "_") && After(b)[1..] == Text.Join(b[1..], "_");
      JoinInjective(a[1..], b[1..]);
    }
    assert a == [a[0]] + a[1..] && b == [b[0]] + b[1..];
  }

  /** For ids without an underscore, two lists have the same room id only if they name the
      same users, each as often. */
  lemma SameOnlyForPermutations(a: seq<string>, b: seq<string>)
    requires a != [] && b != []
    requires forall i :: 0 <= i < |a| ==> Plain(a[i])
    requires forall i :: 0 <= i < |b| ==> Plain(b[i])
    ensures RoomId(a) == RoomId(b) <==> multiset(a) == multiset(b)
  {
    if RoomId(a) == RoomId(b) {
      var x, y := Text.Join(Sort(a), "_"), Text.Join(Sort(b), "_");
      assert RoomId(a)[4..] == x && RoomId(b)[4..] == y;
      forall i | 0 <= i < |a| ensures Plain(Sort(a)[i]) { assert Sort(a)[i] in multiset(a); }
      forall i | 0 <= i < |b| ensures Plain(Sort(b)[i]) { assert Sort(b)[i] in multiset(b); }
      JoinInjective(Sort(a), Sort(b));
    }
    if multiset(a) == multiset(b) {
      SameForPermutations(a, b);
    }
  }

  /** An id cut at its underscores. */
  function Pieces(s: string): (r: seq<string>)
    ensures r != [] && forall i :: 0 <= i < |r| ==> Plain(r[i])
    decreases |s|
  {
    var k := FirstBar(s);
    BarAt(s);
    if k == |s| then [s] else [s[..k]] + Pieces(s[k + 1..])
  }

  lemma {:induction false} BarAt(s: string)
    ensures FirstBar(s) <= |s| && Plain(s[..FirstBar(s)])
    ensures FirstBar(s) < |s| ==> s[FirstBar(s)] == '_'
    ensures FirstBar(s) == |s| ==> Plain(s)
    decreases |s|
  {
    if s != "" && s[0] != '_' {
      BarAt(s[1..]);
      var k := FirstBar(s[1..]);
      assert s[..k + 1] == [s[0]] + s[1..][..k];
      assert s == [s[0]] + s[1..];
    }
  }

  function AllPieces(ids: seq<string>): (r: seq<string>)
    requires ids != []
    ensures r != [] && forall i :: 0 <= i < |r| ==> Plain(r[i])
    decreases |ids|
  {
    if |ids| == 1 then Pieces(ids[0]) else Pieces(ids[0]) + AllPieces(ids[1..])
  }

  lemma {:induction false} JoinConcat(a: seq<string>, b: seq<string>)
    requires a != [] && b != []
    ensures Text.Join(a + b, "_") == Text.Join(a, "_") + ("_" + Text.Join(b, "_"))
    decreases |a|
  {
    JoinFirst(a, b);
    if |a| > 1 {
      JoinConcat(a[1..], b);
      var x, y := Text.Join(a[1..], "_"), "_" + Text.Join(b, "_");
      assert a[0] + ("_" + (x + y)) == a[0] + ("_" + x) + y;
    }
  }

  lemma JoinFirst(a: seq<string>, b: seq<string>)
    requires a != [] && b != []
    ensures Text.Join(a + b, "_") == a[0] + ("_" + Text.Join(if |a| == 1 then b else a[1..] + b, "_"))
  {
    assert (a + b)[0] == a[0] && (a + b)[1..] == if |a| == 1 then b else a[1..] + b;
  }

  lemma {:induction false} JoinPieces(s: string)
    ensures Text.Join(Pieces(s), "_") == s
    decreases |s|
  {
    var k := FirstBar(s);
    BarAt(s);
    if k < |s| {
      JoinPieces(s[k + 1..]);
      JoinFirst([s[..k]], Pieces(s[k + 1..]));
      Text.CutAt(s, k);
    }
  }

  lemma {:induction false} JoinAllPieces(ids: seq<string>)
    requires ids != []
    ensures Text.Join(AllPieces(ids), "_") == Text.Join(ids, "_")
    decreases |ids|
  {
    JoinPieces(ids[0]);
    if |ids| > 1 {
      JoinAllPieces(ids[1..]);
      JoinConcat(Pieces(ids[0]), AllPieces(ids[1..]));
    }
  }

  /** For any ids at all: two non-empty lists have the same room id if and only if their sorted
      ids, cut at the underscores, give the same pieces. */
  lemma SameExactly(a: seq<string>, b: seq<string>)
    requires a != [] && b != []
    ensures RoomId(a) == RoomId(b) <==> AllPieces(Sort(a)) == AllPieces(Sort(b))
  {
    var x, y := Sort(a), Sort(b);
    JoinAllPieces(x);
    JoinAllPieces(y);
    if RoomId(a) == RoomId(b) {
      assert RoomId(a)[4..] == Text.Join(x, "_") && RoomId(b)[4..] == Text.Join(y, "_");
      JoinInjective(AllPieces(x), AllPieces(y));
    }
  }

  /** So with underscores different rooms collide: the room of any two users, and that of the
      one user whose id is theirs joined. */
  lemma UnderscoresCollide(a: string, b: string)
    requires Leq(a, b)
    ensures RoomId([a + "_" + b]) == RoomId([a, b]) && multiset([a + "_" + b]) != multiset([a, b])
  {
    SortOne(a + "_" + b);
    SortTwo(a, b);
    assert [a, b][1..] == [b];
    assert Text.Join([a, b], "_") == a + ("_" + b) == a + "_" + b;
    assert |multiset([a + "_" + b])| == 1 && |multiset([a, b])| == 2;
  }

  lemma SortOne(a: string)
    ensures Sort([a]) == [a]
  {
  }

  lemma SortTwo(a: string, b: string)
    requires Leq(a, b)
    ensures Sort([a, b]) == [a, b]
  {
    SortOne(b);
    assert [a, b][1..] == [b];
  }

  /** The function sorts its argument in place before joining it. */
  method GenerateRoomId(uuids: array<string>) returns (id: string)
    modifies uuids
    ensures uuids[..] == Sort(old(uuids[..]))
    ensures id == RoomId(old(uuids[..]))
  {
    var sorted := Sort(uuids[..]);
    forall i | 0 <= i < uuids.Length {
      uuids[i] := sorted[i];
    }
    assert uuids[..] == sorted;
    id := "pri_" + if uuids.Length == 0 then "" else Text.Join(uuids[..], "_");
  }
}
