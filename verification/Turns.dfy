/** Taking turns: a listing that always chooses the hundred oldest candidates, each of which has a
    budget of turns, cannot pass a candidate over for long. */
module Turns {

  /** One listing: the candidates older than the one that waits, with the turns they have left, and
      those of them that are chosen. */
  datatype Turn<!K> = Turn(left: map<K, nat>, chosen: set<K>)

  /** The `size` oldest candidates are chosen. */
  ghost predicate Chooses<K(!new)>(t: Turn<K>, created: map<K, int>, size: nat) {
    && |t.chosen| == size && t.chosen <= t.left.Keys && t.left.Keys <= created.Keys
    && (forall x | x in t.left :: t.left[x] > 0)
    && (forall x, y | x in t.chosen && y in t.left && y !in t.chosen :: created[x] < created[y])
  }

  /** Candidates only drop out, and being chosen costs a turn. */
  ghost predicate Follows<K(!new)>(t: Turn<K>, u: Turn<K>) {
    && u.left.Keys <= t.left.Keys
    && (forall x | x in u.left :: u.left[x] <= t.left[x] && (x in t.chosen ==> u.left[x] < t.left[x]))
  }

  ghost predicate Line<K(!new)>(turns: seq<Turn<K>>, created: map<K, int>, size: nat) {
    && (forall i | 0 <= i < |turns| :: Chooses(turns[i], created, size))
    && (forall i | 0 < i < |turns| :: Follows(turns[i - 1], turns[i]))
  }

  lemma {:induction false} SubsetSize<K>(small: set<K>, large: set<K>)
    requires small <= large
    ensures |small| <= |large|
    decreases |small|
  {
    if small != {} {
      var k :| k in small;
      SubsetSize(small - {k}, large - {k});
    }
  }

  lemma {:induction false} LineShrinks<K(!new)>(turns: seq<Turn<K>>, created: map<K, int>, size: nat, j: nat)
    requires Line(turns, created, size) && j < |turns|
    ensures turns[j].left.Keys <= turns[0].left.Keys
    ensures forall x | x in turns[j].left :: turns[j].left[x] <= turns[0].left[x]
  {
    if j > 0 {
      LineShrinks(turns, created, size, j - 1);
      assert Follows(turns[j - 1], turns[j]);
    }
  }

  /** Whoever was chosen first is chosen again as long as it has turns left. */
  lemma FirstStayChosen<K(!new)>(t: Turn<K>, u: Turn<K>, created: map<K, int>, size: nat, x: K)
    requires Chooses(t, created, size) && Chooses(u, created, size) && u.left.Keys <= t.left.Keys
    requires x in t.chosen && x in u.left
    ensures x in u.chosen
  {
    if x !in u.chosen {
      forall y | y in u.chosen
        ensures y in t.chosen - {x}
      {
        assert created[y] < created[x];
      }
      SubsetSize(u.chosen, t.chosen - {x});
    }
  }

  lemma {:induction false} FirstWear<K(!new)>(turns: seq<Turn<K>>, created: map<K, int>, size: nat, x: K, most: nat,
      j: nat)
    requires Line(turns, created, size) && j < |turns| && x in turns[0].chosen && x in turns[j].left
    requires x in turns[0].left && turns[0].left[x] <= most
    ensures turns[j].left[x] + j <= most
  {
    if j > 0 {
      assert Follows(turns[j - 1], turns[j]);
      FirstWear(turns, created, size, x, most, j - 1);
      LineShrinks(turns, created, size, j - 1);
      FirstStayChosen(turns[0], turns[j - 1], created, size, x);
    }
  }

  /** After as many listings as anyone can have turns, those chosen first have dropped out. */
  lemma FirstDropOut<K(!new)>(turns: seq<Turn<K>>, created: map<K, int>, size: nat, most: nat)
    requires Line(turns, created, size) && most < |turns|
    requires forall x | x in turns[0].left :: turns[0].left[x] <= most
    ensures turns[most].left.Keys <= turns[0].left.Keys - turns[0].chosen
    ensures forall x | x in turns[most].left :: turns[most].left[x] <= most
  {
    LineShrinks(turns, created, size, most);
    assert Chooses(turns[most], created, size);
    forall x | x in turns[most].left
      ensures x !in turns[0].chosen
    {
      if x in turns[0].chosen {
        FirstWear(turns, created, size, x, most, most);
      }
    }
  }

  lemma OneLess(q: nat, k: nat)
    requires q > 0
    ensures q * k == (q - 1) * k + k && (q - 1) * k >= 0
  {}

  /** With fewer than (q + 1) * size older candidates of at most `most` turns each, a candidate is
      passed over by at most q * most listings. */
  lemma {:induction false} LineIsShort<K(!new)>(turns: seq<Turn<K>>, created: map<K, int>, size: nat, q: nat, most: nat)
    requires Line(turns, created, size) && size > 0
    requires |turns| > 0 ==>
      |turns[0].left.Keys| < q * size + size && forall x | x in turns[0].left :: turns[0].left[x] <= most
    ensures |turns| <= q * most
    decreases q
  {
    if |turns| > 0 {
      assert Chooses(turns[0], created, size);
      SubsetSize(turns[0].chosen, turns[0].left.Keys);
      assert q > 0 by { assert 0 * size == 0; }
      OneLess(q, most);
      OneLess(q, size);
      if |turns| > most {
        FirstDropOut(turns, created, size, most);
        SubsetSize(turns[most].left.Keys, turns[0].left.Keys - turns[0].chosen);
        LineIsShort(turns[most..], created, size, q - 1, most);
      }
    }
  }
}
