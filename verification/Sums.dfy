/** What the calls of a table amount to together, whatever the order in which they are counted. */
module Sums {

  ghost function Pick<C>(m: map<nat, C>): (k: nat)
    requires m != map[]
    ensures k in m
  {
    assert m.Keys != {};
    var k :| k in m;
    k
  }

  ghost function Sum<C, V>(m: map<nat, C>, part: C -> multiset<V>): multiset<V>
    decreases |m.Keys|
  {
    if m == map[] then multiset{} else part(m[Pick(m)]) + Sum(m - {Pick(m)}, part)
  }

  lemma RemoveTwo<C>(m: map<nat, C>, k: nat, l: nat)
    ensures m - {k} - {l} == m - {k, l}
  {
  }

  /** Whichever entry is taken first. */
  lemma {:induction false} SumPick<C, V>(m: map<nat, C>, part: C -> multiset<V>, k: nat)
    requires k in m
    ensures Sum(m, part) == part(m[k]) + Sum(m - {k}, part)
    decreases |m.Keys|
  {
    var l := Pick(m);
    if l != k {
      RemoveTwo(m, l, k);
      RemoveTwo(m, k, l);
      assert {k, l} == {l, k};
      SumPick(m - {l}, part, k);
      SumPick(m - {k}, part, l);
    }
  }

  lemma SumAdd<C, V>(m: map<nat, C>, part: C -> multiset<V>, k: nat, c: C)
    requires k !in m
    ensures Sum(m[k := c], part) == part(c) + Sum(m, part)
  {
    SumPick(m[k := c], part, k);
    assert m[k := c] - {k} == m;
  }

  /** One entry changes, and the rest carries over. */
  lemma SumChange<C, V>(m: map<nat, C>, part: C -> multiset<V>, k: nat, c: C, more: multiset<V>, less: multiset<V>)
    requires k in m && part(m[k]) + more == part(c) + less
    ensures Sum(m, part) + more == Sum(m[k := c], part) + less
  {
    SumPick(m, part, k);
    SumPick(m[k := c], part, k);
    assert m[k := c] - {k} == m - {k};
    var rest := Sum(m - {k}, part);
    assert part(m[k]) + rest + more == part(m[k]) + more + rest;
    assert part(c) + rest + less == part(c) + less + rest;
  }

  lemma {:induction false} SumOfNothing<C, V>(m: map<nat, C>, part: C -> multiset<V>)
    requires forall k :: k in m ==> part(m[k]) == multiset{}
    ensures Sum(m, part) == multiset{}
    decreases |m.Keys|
  {
    if m != map[] {
      SumOfNothing(m - {Pick(m)}, part);
    }
  }
}
