/**
 * The contract every entity store shares: an ordered sequence of records
 * keyed by a string id, replaced as a whole on every change. A record is
 * appended with a fresh id, rewritten in place of the record with a given id
 * (`map`), or dropped by id (`filter`). A missing id is never an error: the
 * rewrite and the removal then leave the sequence as it was.
 */
module Collection {
  import Seqs

  function WithId<T>(idOf: T -> string, id: string): T -> bool {
    x => idOf(x) == id
  }

  /** No record carries `id`: the precondition on a freshly generated id. */
  predicate IsFresh<T>(s: seq<T>, idOf: T -> string, id: string) {
    forall i :: 0 <= i < |s| ==> idOf(s[i]) != id
  }

  ghost predicate UniqueIds<T>(s: seq<T>, idOf: T -> string) {
    forall i, j :: 0 <= i < j < |s| ==> idOf(s[i]) != idOf(s[j])
  }

  /** `s.filter(x => x.id === id)`: what a query by id finds. */
  function Find<T(!new)>(s: seq<T>, idOf: T -> string, id: string): seq<T> {
    Seqs.Filter(s, WithId(idOf, id))
  }

  /** `s.map(x => x.id === id ? f(x) : x)`. */
  function Replace<T>(s: seq<T>, idOf: T -> string, id: string, f: T -> T): seq<T> {
    Seqs.MapWhere(s, WithId(idOf, id), f)
  }

  /** `s.filter(x => x.id !== id)`. */
  function Remove<T(!new)>(s: seq<T>, idOf: T -> string, id: string): seq<T> {
    Seqs.Filter(s, Seqs.Not(WithId(idOf, id)))
  }

  lemma {:induction false} FindFresh<T(!new)>(s: seq<T>, idOf: T -> string, id: string)
    requires IsFresh(s, idOf, id)
    ensures Find(s, idOf, id) == []
  {
    if s != [] {
      FindFresh(s[1..], idOf, id);
    }
  }

  /**
   * Appending a record under a fresh id: a query by that id finds exactly
   * the new record, and ids stay unique.
   */
  lemma AppendFresh<T(!new)>(s: seq<T>, idOf: T -> string, x: T)
    requires IsFresh(s, idOf, idOf(x))
    ensures Find(s + [x], idOf, idOf(x)) == [x]
    ensures UniqueIds(s, idOf) ==> UniqueIds(s + [x], idOf)
  {
    Seqs.FilterConcat(s, [x], WithId(idOf, idOf(x)));
    FindFresh(s, idOf, idOf(x));
  }

  /** With unique ids a query by id finds at most one record. */
  lemma {:induction false} FindAtMostOne<T(!new)>(s: seq<T>, idOf: T -> string, id: string)
    requires UniqueIds(s, idOf)
    ensures |Find(s, idOf, id)| <= 1
  {
    if s != [] {
      assert UniqueIds(s[1..], idOf);
      FindAtMostOne(s[1..], idOf, id);
      if idOf(s[0]) == id {
        assert IsFresh(s[1..], idOf, id);
        FindFresh(s[1..], idOf, id);
      }
    }
  }

  /**
   * The rewrite by id keeps the length, rewrites exactly the records with
   * that id, and is the identity when no record has it.
   */
  lemma ReplaceEffect<T>(s: seq<T>, idOf: T -> string, id: string, f: T -> T)
    ensures |Replace(s, idOf, id, f)| == |s|
    ensures forall i :: 0 <= i < |s| && idOf(s[i]) != id ==> Replace(s, idOf, id, f)[i] == s[i]
    ensures forall i :: 0 <= i < |s| && idOf(s[i]) == id ==> Replace(s, idOf, id, f)[i] == f(s[i])
    ensures IsFresh(s, idOf, id) ==> Replace(s, idOf, id, f) == s
  {
  }

  /** A rewrite that keeps the id keeps ids unique. */
  lemma ReplaceKeepsUnique<T>(s: seq<T>, idOf: T -> string, id: string, f: T -> T)
    requires UniqueIds(s, idOf)
    requires forall x :: idOf(f(x)) == idOf(x)
    ensures UniqueIds(Replace(s, idOf, id, f), idOf)
  {
  }

  /**
   * Removal by id: no record with the id is left, every other record is,
   * and exactly the records a query by id finds are gone.
   */
  lemma RemoveEffect<T(!new)>(s: seq<T>, idOf: T -> string, id: string)
    ensures IsFresh(Remove(s, idOf, id), idOf, id)
    ensures forall x :: x in s && idOf(x) != id ==> x in Remove(s, idOf, id)
    ensures |Remove(s, idOf, id)| + |Find(s, idOf, id)| == |s|
    ensures IsFresh(s, idOf, id) ==> Remove(s, idOf, id) == s
  {
    var r := Remove(s, idOf, id);
    assert forall i :: 0 <= i < |r| ==> r[i] in r;
    forall x | x in s && idOf(x) != id ensures x in r {
      Seqs.FilterKeeps(s, Seqs.Not(WithId(idOf, id)), x);
    }
    Seqs.FilterPartition(s, WithId(idOf, id));
    if IsFresh(s, idOf, id) {
      FindFresh(s, idOf, id);
      Seqs.FilterAllKept(s, Seqs.Not(WithId(idOf, id)));
    }
  }

  /** Removal keeps the survivors in their relative order. */
  lemma RemoveConcat<T(!new)>(a: seq<T>, b: seq<T>, idOf: T -> string, id: string)
    ensures Remove(a + b, idOf, id) == Remove(a, idOf, id) + Remove(b, idOf, id)
  {
    Seqs.FilterConcat(a, b, Seqs.Not(WithId(idOf, id)));
  }

  /** Dropping records keeps ids unique. */
  lemma {:induction false} FilterKeepsUnique<T(!new)>(s: seq<T>, idOf: T -> string, keep: T -> bool)
    requires UniqueIds(s, idOf)
    ensures UniqueIds(Seqs.Filter(s, keep), idOf)
  {
    if s != [] {
      assert UniqueIds(s[1..], idOf);
      FilterKeepsUnique(s[1..], idOf, keep);
      var rest := Seqs.Filter(s[1..], keep);
      if keep(s[0]) {
        forall y | y in rest ensures idOf(s[0]) != idOf(y) {
          var j :| 0 <= j < |s[1..]| && s[1..][j] == y;
          assert s[j + 1] == y;
        }
        var r := [s[0]] + rest;
        forall i, j | 0 <= i < j < |r| ensures idOf(r[i]) != idOf(r[j]) {
          assert r[j] == rest[j - 1];
          if i > 0 {
            assert r[i] == rest[i - 1];
          } else {
            assert r[j] in rest;
          }
        }
      }
    }
  }
}
