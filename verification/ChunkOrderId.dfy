/**
 The vault order id of a chunk (backend/src/workers/baseRelayWorker.ts, deriveChunkOrderId): the
 chunk's ticket ids, sorted and joined with commas, then hashed.  The hash is taken to be
 injective, so the joined text stands for the id.
 */
module ChunkOrderId {
  /** Ticket ids are never empty and contain no comma. */
  predicate ValidId(id: string) {
    |id| > 0 && ',' !in id
  }

  predicate ValidIds(ids: seq<string>) {
    forall i :: 0 <= i < |ids| ==> ValidId(ids[i])
  }

  /** Code-unit order. */
  predicate Leq(a: string, b: string) {
    |a| == 0 || (|b| > 0 && (a[0] < b[0] || (a[0] == b[0] && Leq(a[1..], b[1..]))))
  }

  function Insert(sorted: seq<string>, id: string): seq<string> {
    if |sorted| == 0 || Leq(id, sorted[0]) then [id] + sorted
    else [sorted[0]] + Insert(sorted[1..], id)
  }

  function Sort(ids: seq<string>): seq<string> {
    if |ids| == 0 then [] else Insert(Sort(ids[1..]), ids[0])
  }

  function Join(ids: seq<string>): string {
    if |ids| == 0 then ""
    else if |ids| == 1 then ids[0]
    else ids[0] + "," + Join(ids[1..])
  }

  function DeriveChunkOrderId(chunk: seq<string>): string {
    Join(Sort(chunk))
  }

  // ---------------------------------------------------------------------------------
  // Sorting is canonical
  // ---------------------------------------------------------------------------------

  ghost predicate Ascending(ids: seq<string>) {
    forall i, j :: 0 <= i < j < |ids| ==> Leq(ids[i], ids[j])
  }

  lemma {:induction false} LeqTotal(a: string, b: string)
    ensures Leq(a, b) || Leq(b, a)
  {
    if |a| > 0 && |b| > 0 && a[0] == b[0] {
      LeqTotal(a[1..], b[1..]);
    }
  }

  lemma {:induction false} LeqAntisymmetric(a: string, b: string)
    requires Leq(a, b) && Leq(b, a)
    ensures a == b
  {
    if |a| > 0 && |b| > 0 {
      LeqAntisymmetric(a[1..], b[1..]);
      assert a == [a[0]] + a[1..] && b == [b[0]] + b[1..];
    }
  }

  lemma {:induction false} LeqTransitive(a: string, b: string, c: string)
    requires Leq(a, b) && Leq(b, c)
    ensures Leq(a, c)
  {
    if |a| > 0 && a[0] == b[0] == c[0] {
      LeqTransitive(a[1..], b[1..], c[1..]);
    }
  }

  lemma {:induction false} InsertPermutes(sorted: seq<string>, id: string)
    ensures multiset(Insert(sorted, id)) == multiset(sorted) + multiset{id}
  {
    if |sorted| > 0 && !Leq(id, sorted[0]) {
      InsertPermutes(sorted[1..], id);
      assert sorted == [sorted[0]] + sorted[1..];
    }
  }

  lemma {:induction false} InsertAscends(sorted: seq<string>, id: string)
    requires Ascending(sorted)
    ensures Ascending(Insert(sorted, id))
  {
    if |sorted| > 0 {
      var rest := sorted[1..];
      if Leq(id, sorted[0]) {
        forall j | 0 <= j < |sorted| ensures Leq(id, sorted[j]) {
          if j > 0 {
            LeqTransitive(id, sorted[0], sorted[j]);
          }
        }
      } else {
        LeqTotal(id, sorted[0]);
        InsertAscends(rest, id);
        InsertPermutes(rest, id);
        forall x | x in Insert(rest, id) ensures Leq(sorted[0], x) {
          assert x in multiset(Insert(rest, id));
        }
      }
    }
  }

  lemma {:induction false} SortIsAscendingPermutation(ids: seq<string>)
    ensures Ascending(Sort(ids)) && multiset(Sort(ids)) == multiset(ids)
  {
    if |ids| > 0 {
      SortIsAscendingPermutation(ids[1..]);
      InsertAscends(Sort(ids[1..]), ids[0]);
      InsertPermutes(Sort(ids[1..]), ids[0]);
      assert ids == [ids[0]] + ids[1..];
    }
  }

  lemma LeastIsFirst(a: seq<string>, x: string)
    requires Ascending(a) && x in multiset(a)
    ensures |a| > 0 && Leq(a[0], x)
  {
    var i :| 0 <= i < |a| && a[i] == x;
    LeqTotal(x, x);
  }

  lemma WithoutFirst(a: seq<string>)
    requires |a| > 0
    ensures multiset(a[1..]) == multiset(a) - multiset{a[0]}
  {
    assert a == [a[0]] + a[1..];
  }

  lemma {:induction false} AscendingIsUnique(a: seq<string>, b: seq<string>)
    requires Ascending(a) && Ascending(b) && multiset(a) == multiset(b)
    ensures a == b
  {
    if |a| == 0 {
      assert |multiset(b)| == 0;
    } else {
      assert a[0] in multiset(b);
      LeastIsFirst(b, a[0]);
      assert b[0] in multiset(a);
      LeastIsFirst(a, b[0]);
      LeqAntisymmetric(a[0], b[0]);
      WithoutFirst(a);
      WithoutFirst(b);
      AscendingIsUnique(a[1..], b[1..]);
      assert a == [a[0]] + a[1..] && b == [b[0]] + b[1..];
    }
  }

  // ---------------------------------------------------------------------------------
  // Joining loses nothing
  // ---------------------------------------------------------------------------------

  function UpToComma(text: string): string {
    if |text| == 0 || text[0] == ',' then "" else [text[0]] + UpToComma(text[1..])
  }

  lemma {:induction false} UpToCommaStops(id: string, rest: string)
    requires ',' !in id && (|rest| == 0 || rest[0] == ',')
    ensures UpToComma(id + rest) == id
  {
    if |id| == 0 {
      assert id + rest == rest;
    } else {
      assert (id + rest)[1..] == id[1..] + rest;
      UpToCommaStops(id[1..], rest);
    }
  }

  /** What follows the first id of a list. */
  function Tail(ids: seq<string>): string
    requires |ids| > 0
  {
    if |ids| == 1 then "" else "," + Join(ids[1..])
  }

  lemma JoinIsHeadTail(ids: seq<string>)
    requires |ids| > 0 && ValidIds(ids)
    ensures Join(ids) == ids[0] + Tail(ids) && UpToComma(Join(ids)) == ids[0] && |Join(ids)| > 0
  {
    assert ids[0] + Tail(ids) == Join(ids);
    UpToCommaStops(ids[0], Tail(ids));
  }

  lemma {:induction false} JoinIsInjective(a: seq<string>, b: seq<string>)
    requires ValidIds(a) && ValidIds(b) && Join(a) == Join(b)
    ensures a == b
  {
    if |a| > 0 {
      JoinIsHeadTail(a);
    }
    if |b| > 0 {
      JoinIsHeadTail(b);
    }
    if |a| > 0 && |b| > 0 {
      assert a[0] == b[0];
      assert Tail(a) == Join(a)[|a[0]|..] && Tail(b) == Join(b)[|b[0]|..];
      if |a| > 1 && |b| > 1 {
        assert Join(a[1..]) == Tail(a)[1..] && Join(b[1..]) == Tail(b)[1..];
        JoinIsInjective(a[1..], b[1..]);
      }
      assert a == [a[0]] + a[1..] && b == [b[0]] + b[1..];
    }
  }

  /** Two chunks get the same vault order id exactly when they hold the same tickets, in whatever order. */
  lemma SameIdIffSameTickets(a: seq<string>, b: seq<string>)
    requires ValidIds(a) && ValidIds(b)
    ensures DeriveChunkOrderId(a) == DeriveChunkOrderId(b) <==> multiset(a) == multiset(b)
  {
    SortIsAscendingPermutation(a);
    SortIsAscendingPermutation(b);
    if multiset(a) == multiset(b) {
      AscendingIsUnique(Sort(a), Sort(b));
    }
    if DeriveChunkOrderId(a) == DeriveChunkOrderId(b) {
      SortKeepsValid(a);
      SortKeepsValid(b);
      JoinIsInjective(Sort(a), Sort(b));
    }
  }

  lemma SortKeepsValid(ids: seq<string>)
    requires ValidIds(ids)
    ensures ValidIds(Sort(ids))
  {
    SortIsAscendingPermutation(ids);
    forall i | 0 <= i < |Sort(ids)| ensures ValidId(Sort(ids)[i]) {
      assert Sort(ids)[i] in multiset(ids);
    }
  }

  /** The comma matters: ids that contain one can make different chunks collide. */
  lemma CommaInIdCollides()
    ensures DeriveChunkOrderId(["a,b"]) == DeriveChunkOrderId(["a", "b"])
    ensures multiset(["a,b"]) != multiset(["a", "b"])
  {
  }
}
