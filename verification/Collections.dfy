/** Small facts about sets and sequences that several components share. */
module Collections {
  lemma Member<T>(ids: set<T>) returns (id: T)
    requires ids != {}
    ensures id in ids
  {
    id :| id in ids;
  }

  /** Pieces end to end. */
  function Flat<T>(pieces: seq<seq<T>>): seq<T> {
    if pieces == [] then [] else pieces[0] + Flat(pieces[1..])
  }

  lemma {:induction false} FlatConcat<T>(a: seq<seq<T>>, b: seq<seq<T>>)
    ensures Flat(a + b) == Flat(a) + Flat(b)
    decreases a
  {
    if a == [] {
      assert a + b == b;
    } else {
      assert (a + b)[1..] == a[1..] + b;
      FlatConcat(a[1..], b);
    }
  }

  lemma FlatSnoc<T>(a: seq<seq<T>>, f: seq<T>)
    ensures Flat(a + [f]) == Flat(a) + f
  {
    FlatConcat(a, [f]);
    assert Flat([f]) == f + Flat([]);
  }
}
