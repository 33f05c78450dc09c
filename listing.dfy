/** What a listing read of the store returns, independent of its order:
    each selected record of a table keyed by id, exactly once. */
module Listing {

  /** `r` lists the records of `rows` whose ids are in `ids`, each once;
      `idOf` reads a record's id. */
  ghost predicate ListsOnce<T>(r: seq<T>, rows: map<string, T>, ids: set<string>, idOf: T -> string)
  {
    && (forall i :: 0 <= i < |r| ==> idOf(r[i]) in ids && idOf(r[i]) in rows && rows[idOf(r[i])] == r[i])
    && (forall id :: id in ids && id in rows ==> rows[id] in r)
    && (forall i, j :: 0 <= i < j < |r| ==> idOf(r[i]) != idOf(r[j]))
  }

  /** Inserting the record of a further id anywhere keeps the listing exact. */
  lemma InsertListsOnce<T>(r: seq<T>, rows: map<string, T>, ids: set<string>, idOf: T -> string,
                           id: string, k: nat)
    requires forall x :: x in rows ==> idOf(rows[x]) == x
    requires ListsOnce(r, rows, ids, idOf) && id in rows && id !in ids && k <= |r|
    ensures ListsOnce(r[..k] + [rows[id]] + r[k..], rows, ids + {id}, idOf)
  {
    var t := r[..k] + [rows[id]] + r[k..];
    InsertedAt(r, rows[id], k);
    forall i | 0 <= i < |t|
      ensures idOf(t[i]) in ids + {id} && idOf(t[i]) in rows && rows[idOf(t[i])] == t[i]
    {
      if i != k { assert t[i] == r[if i < k then i else i - 1]; }
    }
    forall x | x in ids + {id} && x in rows ensures rows[x] in t {
      if x != id {
        var i :| 0 <= i < |r| && r[i] == rows[x];
        assert t[if i < k then i else i + 1] == rows[x];
      } else {
        assert t[k] == rows[id];
      }
    }
    forall i, j | 0 <= i < j < |t| ensures idOf(t[i]) != idOf(t[j]) {
      if i != k && j != k {
        assert t[i] == r[if i < k then i else i - 1];
        assert t[j] == r[if j < k then j else j - 1];
      } else if i == k {
        assert t[j] == r[j - 1];
      } else {
        assert t[i] == r[i];
      }
    }
  }

  /** Where the elements of `r` land once `x` is inserted at `k`. */
  lemma InsertedAt<T>(r: seq<T>, x: T, k: nat)
    requires k <= |r|
    ensures |r[..k] + [x] + r[k..]| == |r| + 1
    ensures (r[..k] + [x] + r[k..])[k] == x
    ensures forall i :: 0 <= i < k ==> (r[..k] + [x] + r[k..])[i] == r[i]
    ensures forall i :: k < i <= |r| ==> (r[..k] + [x] + r[k..])[i] == r[i - 1]
  {
  }
}
