/** Id-list indexes: maps from an owner to the ids it owns, in insertion order. */
module TeamIndex {

  type Id = string

  function ListOf(index: map<Id, seq<Id>>, k: Id): seq<Id> {
    if k in index then index[k] else []
  }

  ghost predicate NoRepeats(ids: seq<Id>) {
    forall i, j :: 0 <= i < j < |ids| ==> ids[i] != ids[j]
  }

  /**
  The index lists each owned id exactly once, under its owner and nowhere else, lists nothing
  else, and has no empty list.
  */
  ghost predicate Indexes(index: map<Id, seq<Id>>, owner: map<Id, Id>) {
    && (forall k :: k in index ==> index[k] != [] && NoRepeats(index[k]))
    && (forall k, x :: k in index && x in index[k] ==> x in owner && owner[x] == k)
    && (forall x :: x in owner ==> owner[x] in index && x in index[owner[x]])
  }

  /** `entry(k).or_default().push(x)`. */
  function Push(index: map<Id, seq<Id>>, k: Id, x: Id): map<Id, seq<Id>> {
    index[k := ListOf(index, k) + [x]]
  }

  lemma PushKeeps(index: map<Id, seq<Id>>, owner: map<Id, Id>, k: Id, x: Id)
    requires Indexes(index, owner) && x !in owner
    ensures Indexes(Push(index, k, x), owner[x := k])
  {
    assert x !in ListOf(index, k);
  }

  function Retain(ids: seq<Id>, gone: set<Id>): (r: seq<Id>)
    ensures forall x :: x in r <==> x in ids && x !in gone
  {
    if ids == [] then [] else (if ids[0] in gone then [] else [ids[0]]) + Retain(ids[1..], gone)
  }

  lemma {:induction false} RetainNoRepeats(ids: seq<Id>, gone: set<Id>)
    requires NoRepeats(ids)
    ensures NoRepeats(Retain(ids, gone))
  {
    if ids != [] {
      RetainNoRepeats(ids[1..], gone);
      assert ids[0] !in ids[1..];
    }
  }

  lemma {:induction false} RetainNothing(ids: seq<Id>, gone: set<Id>)
    requires forall x :: x in ids ==> x !in gone
    ensures Retain(ids, gone) == ids
  {
    if ids != [] {
      RetainNothing(ids[1..], gone);
    }
  }

  lemma {:induction false} RetainTwice(ids: seq<Id>, a: set<Id>, b: set<Id>)
    ensures Retain(Retain(ids, a), b) == Retain(ids, a + b)
  {
    if ids != [] {
      RetainTwice(ids[1..], a, b);
      var rest := Retain(ids[1..], a);
      if ids[0] in a {
        assert Retain(ids, a) == rest;
      } else {
        assert Retain(ids, a) == [ids[0]] + rest;
        assert ([ids[0]] + rest)[1..] == rest;
      }
    }
  }

  /** The index without some ids; a list that runs empty goes with its key. */
  function Without(index: map<Id, seq<Id>>, gone: set<Id>): map<Id, seq<Id>> {
    map k | k in index && Retain(index[k], gone) != [] :: Retain(index[k], gone)
  }

  lemma WithoutKeeps(index: map<Id, seq<Id>>, owner: map<Id, Id>, gone: set<Id>)
    requires Indexes(index, owner)
    ensures Indexes(Without(index, gone), owner - gone)
  {
    var next := Without(index, gone);
    forall k | k in next ensures NoRepeats(next[k]) {
      RetainNoRepeats(index[k], gone);
    }
    forall x | x in owner - gone ensures owner[x] in next && x in next[owner[x]] {
      assert x in Retain(index[owner[x]], gone);
    }
  }

  /** Dropping whole lists: exact when the ids dropped are those the lists own. */
  lemma DropKeysKeeps(index: map<Id, seq<Id>>, owner: map<Id, Id>, keys: set<Id>, gone: set<Id>)
    requires Indexes(index, owner)
    requires forall x :: x in owner ==> (x in gone <==> owner[x] in keys)
    ensures Indexes(index - keys, owner - gone)
  {
  }

  /** Position order inside one owner's list. */
  ghost predicate Ahead(ids: seq<Id>, a: Id, b: Id) {
    exists i, j :: 0 <= i < j < |ids| && ids[i] == a && ids[j] == b
  }

  lemma {:induction false} RetainAhead(ids: seq<Id>, gone: set<Id>, a: Id, b: Id)
    requires Ahead(Retain(ids, gone), a, b)
    ensures Ahead(ids, a, b)
  {
    var rest := Retain(ids[1..], gone);
    var i, j :| 0 <= i < j < |Retain(ids, gone)| && Retain(ids, gone)[i] == a && Retain(ids, gone)[j] == b;
    if ids[0] in gone {
      assert Ahead(rest, a, b);
      RetainAhead(ids[1..], gone, a, b);
      AheadInTail(ids, a, b);
    } else if i == 0 {
      assert b == rest[j - 1];
      assert b in ids[1..];
      var k :| 0 <= k < |ids[1..]| && ids[1..][k] == b;
      assert ids[0] == a && ids[k + 1] == b;
    } else {
      assert rest[i - 1] == a && rest[j - 1] == b;
      RetainAhead(ids[1..], gone, a, b);
      AheadInTail(ids, a, b);
    }
  }

  lemma AheadInTail(ids: seq<Id>, a: Id, b: Id)
    requires ids != [] && Ahead(ids[1..], a, b)
    ensures Ahead(ids, a, b)
  {
    var i, j :| 0 <= i < j < |ids[1..]| && ids[1..][i] == a && ids[1..][j] == b;
    assert ids[i + 1] == a && ids[j + 1] == b;
  }

  /** Appending to a list puts nothing ahead of an id that was already in it. */
  lemma PushAhead(ids: seq<Id>, x: Id, a: Id, b: Id)
    requires Ahead(ids + [x], a, b) && b != x
    ensures Ahead(ids, a, b)
  {
    var i, j :| 0 <= i < j < |ids + [x]| && (ids + [x])[i] == a && (ids + [x])[j] == b;
    assert ids[i] == a && ids[j] == b;
  }
}
