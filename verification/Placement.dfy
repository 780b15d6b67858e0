/**
 Free lists whose items are each in exactly one place: a list is tied to a map
 from items to places.
 */
module Placement {
  type Item = nat

  /** The list q is exactly the items at place p, each once. */
  ghost predicate Lists<P>(q: seq<Item>, p: P, places: map<Item, P>) {
    && (forall i | 0 <= i < |q| :: q[i] in places && places[q[i]] == p)
    && (forall i, j | 0 <= i < j < |q| :: q[i] != q[j])
    && (forall id | id in places && places[id] == p :: id in q)
  }

  /** Moving an item between two other places. */
  lemma ListsKept<P>(q: seq<Item>, p: P, places: map<Item, P>, id: Item, to: P)
    requires Lists(q, p, places) && to != p && (id in places ==> places[id] != p)
    ensures Lists(q, p, places[id := to])
  {
  }

  lemma ListsPop<P>(q: seq<Item>, p: P, places: map<Item, P>, to: P)
    requires Lists(q, p, places) && q != [] && to != p
    ensures Lists(q[1..], p, places[q[0] := to])
  {
    forall id | id in places[q[0] := to] && places[q[0] := to][id] == p ensures id in q[1..] {
      assert id in q && id != q[0];
    }
  }

  lemma ListsPush<P>(q: seq<Item>, p: P, places: map<Item, P>, id: Item)
    requires Lists(q, p, places) && (id in places ==> places[id] != p)
    ensures Lists([id] + q, p, places[id := p])
  {
    var q', places' := [id] + q, places[id := p];
    assert forall i | 0 < i < |q'| :: q'[i] == q[i - 1];
    forall k | k in places' && places'[k] == p ensures k in q' {
      if k != id { assert k in q; }
    }
  }

  lemma ListsAppend<P>(q: seq<Item>, p: P, places: map<Item, P>, id: Item)
    requires Lists(q, p, places) && (id in places ==> places[id] != p)
    ensures Lists(q + [id], p, places[id := p])
  {
    var q', places' := q + [id], places[id := p];
    assert q'[|q|] == id;
    forall k | k in places' && places'[k] == p ensures k in q' {
      if k != id { assert k in q; }
    }
  }
}
