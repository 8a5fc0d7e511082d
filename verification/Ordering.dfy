/** Byte order of strings, as `String: Ord` compares them, and the
    sort-then-dedup idiom built on it. */
module Ordering {

  predicate Before(a: string, b: string) {
    if b == [] then false
    else if a == [] then true
    else if a[0] != b[0] then a[0] < b[0]
    else Before(a[1..], b[1..])
  }

  predicate AtMost(a: string, b: string) { a == b || Before(a, b) }

  lemma {:induction false} Trichotomy(a: string, b: string)
    ensures Before(a, b) || a == b || Before(b, a)
    ensures !(Before(a, b) && Before(b, a))
    ensures a == b ==> !Before(a, b)
  {
    if a != [] && b != [] && a[0] == b[0] {
      Trichotomy(a[1..], b[1..]);
      assert a == [a[0]] + a[1..] && b == [b[0]] + b[1..];
    }
  }

  lemma {:induction false} Transitive(a: string, b: string, c: string)
    requires Before(a, b) && Before(b, c)
    ensures Before(a, c)
  {
    if a != [] && a[0] == b[0] && b[0] == c[0] {
      Transitive(a[1..], b[1..], c[1..]);
    }
  }

  /** `a` and `b` part at `k`, where `a` ends or has the smaller character. */
  predicate PartAt(a: string, b: string, k: nat) {
    k <= |a| && k < |b| && a[..k] == b[..k] && (k == |a| || a[k] < b[k])
  }

  lemma PartLater(a: string, b: string, k: nat)
    requires PartAt(a, b, k)
    ensures k > 0 ==> a != [] && a[0] == b[0]
  {
    if k > 0 { assert a[0] == a[..k][0] && b[0] == b[..k][0]; }
  }

  /** The order is that of a dictionary over the characters' values. */
  lemma {:induction false} BeforeIff(a: string, b: string)
    ensures Before(a, b) <==> exists k: nat :: PartAt(a, b, k)
  {
    if b != [] && (a == [] || a[0] < b[0]) {
      assert PartAt(a, b, 0);
    } else if a != [] && b != [] && a[0] == b[0] {
      BeforeIff(a[1..], b[1..]);
      if Before(a, b) {
        var k: nat :| PartAt(a[1..], b[1..], k);
        assert a[..k + 1] == [a[0]] + a[1..][..k] && b[..k + 1] == [b[0]] + b[1..][..k];
        assert PartAt(a, b, k + 1);
      } else if k: nat :| PartAt(a, b, k) {
        assert k > 0 && a[1..][..k - 1] == a[..k][1..] && b[1..][..k - 1] == b[..k][1..];
        assert PartAt(a[1..], b[1..], k - 1);
      }
    } else if k: nat :| PartAt(a, b, k) {
      PartLater(a, b, k);
    }
  }

  predicate Ascending(ids: seq<string>) {
    forall i, j :: 0 <= i < j < |ids| ==> AtMost(ids[i], ids[j])
  }

  predicate StrictlyAscending(ids: seq<string>) {
    forall i, j :: 0 <= i < j < |ids| ==> Before(ids[i], ids[j])
  }

  function InsertSorted(id: string, ids: seq<string>): seq<string> {
    if ids == [] || AtMost(id, ids[0]) then [id] + ids
    else [ids[0]] + InsertSorted(id, ids[1..])
  }

  /** `ids.sort()`. */
  function Sorted(ids: seq<string>): seq<string> {
    if ids == [] then [] else InsertSorted(ids[0], Sorted(ids[1..]))
  }

  /** `ids.dedup()`: drops each element equal to the one before it. */
  function Dedup(ids: seq<string>): seq<string> {
    if |ids| <= 1 then ids
    else if ids[0] == ids[1] then Dedup(ids[1..])
    else [ids[0]] + Dedup(ids[1..])
  }

  lemma {:induction false} InsertSortedAscends(id: string, ids: seq<string>)
    requires Ascending(ids)
    ensures Ascending(InsertSorted(id, ids))
    ensures forall x :: x in InsertSorted(id, ids) <==> x == id || x in ids
  {
    if ids == [] {
    } else if AtMost(id, ids[0]) {
      forall j | 0 <= j < |ids| ensures AtMost(id, ids[j]) {
        if Before(id, ids[0]) && Before(ids[0], ids[j]) { Transitive(id, ids[0], ids[j]); }
      }
    } else {
      Trichotomy(id, ids[0]);
      var rest := InsertSorted(id, ids[1..]);
      InsertSortedAscends(id, ids[1..]);
      assert ids == [ids[0]] + ids[1..];
      forall j | 0 <= j < |rest| ensures AtMost(ids[0], rest[j]) {
        assert rest[j] in rest;
      }
    }
  }

  lemma {:induction false} SortedAscends(ids: seq<string>)
    ensures Ascending(Sorted(ids))
    ensures forall x :: x in Sorted(ids) <==> x in ids
  {
    if ids != [] {
      SortedAscends(ids[1..]);
      InsertSortedAscends(ids[0], Sorted(ids[1..]));
      assert ids == [ids[0]] + ids[1..];
    }
  }

  lemma {:induction false} DedupStrict(ids: seq<string>)
    requires Ascending(ids)
    ensures StrictlyAscending(Dedup(ids))
    ensures forall x :: x in Dedup(ids) <==> x in ids
  {
    if |ids| > 1 {
      DedupStrict(ids[1..]);
      assert ids == [ids[0]] + ids[1..];
      if ids[0] != ids[1] {
        forall x | x in ids[1..] ensures Before(ids[0], x) {
          var j :| 1 <= j < |ids| && ids[j] == x;
          assert AtMost(ids[0], ids[1]) && AtMost(ids[1], ids[j]);
          if ids[1] != ids[j] { Transitive(ids[0], ids[1], ids[j]); }
        }
      }
    }
  }

  /** Sorting first is what makes `dedup` remove every repeat. */
  lemma SortDedup(ids: seq<string>)
    ensures StrictlyAscending(Dedup(Sorted(ids)))
    ensures forall x :: x in Dedup(Sorted(ids)) <==> x in ids
    ensures forall i, j :: 0 <= i < j < |Dedup(Sorted(ids))| ==> Dedup(Sorted(ids))[i] != Dedup(Sorted(ids))[j]
  {
    SortedAscends(ids);
    DedupStrict(Sorted(ids));
    var r := Dedup(Sorted(ids));
    forall i, j | 0 <= i < j < |r| ensures r[i] != r[j] { Trichotomy(r[i], r[j]); }
  }
}
