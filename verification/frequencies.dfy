/** Frequency profiles: an immutable token-to-count table, read through
    `Frequency` (0 for an absent token) and `TokenCount` (the sum of all
    counts). A profile is kept as the sequence of its entries in iteration
    order, because the similarity computation walks the entries of one
    profile and its result depends on that order. */
module Frequencies {

  /** One (token, count) pair of a profile. */
  datatype Entry<T> = Entry(token: T, count: nat)

  /** The entries of a profile, in the order its table is iterated. */
  type Profile<T> = seq<Entry<T>>

  /** No token has two entries (the profile is a map). */
  ghost predicate DistinctTokens<T>(p: Profile<T>) {
    forall i, j :: 0 <= i < j < |p| ==> p[i].token != p[j].token
  }

  /** Every stored count is at least 1, as for a profile counted from tokens. */
  ghost predicate PositiveCounts<T>(p: Profile<T>) {
    forall i :: 0 <= i < |p| ==> p[i].count > 0
  }

  /** The keys of the table. */
  function Tokens<T>(p: Profile<T>): set<T> {
    set i | 0 <= i < |p| :: p[i].token
  }

  /** The count stored for `t`, or 0 when `t` is not a key. */
  function Frequency<T(==)>(p: Profile<T>, t: T): (n: nat)
    ensures t !in Tokens(p) ==> n == 0
    ensures n <= TokenCount(p)
  {
    if |p| == 0 then 0
    else if p[0].token == t then p[0].count
    else
      assert Tokens(p[1..]) <= Tokens(p) by {
        forall u | u in Tokens(p[1..]) ensures u in Tokens(p) {
          var i :| 0 <= i < |p[1..]| && p[1..][i].token == u;
          assert p[i + 1].token == u;
        }
      }
      Frequency(p[1..], t)
  }

  /** The total number of token occurrences recorded in the profile. */
  function TokenCount<T>(p: Profile<T>): (n: nat)
  {
    if |p| == 0 then 0 else p[0].count + TokenCount(p[1..])
  }

  /** No entry's count exceeds the token count, and with positive counts
      the token count is at least the number of entries. */
  lemma {:induction false} TokenCountBounds<T>(p: Profile<T>)
    ensures forall i :: 0 <= i < |p| ==> p[i].count <= TokenCount(p)
    ensures PositiveCounts(p) ==> TokenCount(p) >= |p|
  {
    if |p| > 0 {
      TokenCountBounds(p[1..]);
      assert forall i :: 1 <= i < |p| ==> p[i] == p[1..][i - 1];
    }
  }

  lemma TokensOfCons<T>(e: Entry<T>, p: Profile<T>)
    ensures Tokens([e] + p) == {e.token} + Tokens(p)
  {
    var q := [e] + p;
    forall u | u in Tokens(q) ensures u in {e.token} + Tokens(p) {
      var i :| 0 <= i < |q| && q[i].token == u;
      if i > 0 { assert p[i - 1].token == u; }
    }
    forall u | u in Tokens(p) ensures u in Tokens(q) {
      var i :| 0 <= i < |p| && p[i].token == u;
      assert q[i + 1].token == u;
    }
    assert q[0].token == e.token;
  }

  /** In a profile without repeated tokens, looking up the token of an entry
      yields that entry's count. */
  lemma {:induction false} FrequencyOfEntry<T>(p: Profile<T>, i: nat)
    requires DistinctTokens(p)
    requires i < |p|
    ensures Frequency(p, p[i].token) == p[i].count
    decreases i
  {
    if i > 0 {
      assert p[0].token != p[i].token;
      assert DistinctTokens(p[1..]) by {
        forall a, b | 0 <= a < b < |p[1..]| ensures p[1..][a].token != p[1..][b].token {
          assert p[a + 1].token != p[b + 1].token;
        }
      }
      FrequencyOfEntry(p[1..], i - 1);
      assert p[1..][i - 1] == p[i];
    }
  }

  /** Dropping the first entry of a map-like profile leaves a map-like
      profile that does not hold the dropped token. */
  lemma DistinctTail<T>(p: Profile<T>)
    requires |p| > 0 && DistinctTokens(p)
    ensures DistinctTokens(p[1..]) && p[0].token !in Tokens(p[1..])
  {
    forall a, b | 0 <= a < b < |p[1..]| ensures p[1..][a].token != p[1..][b].token {
      assert p[a + 1].token != p[b + 1].token;
    }
    forall k | 0 <= k < |p[1..]| ensures p[1..][k].token != p[0].token {
      assert p[1..][k] == p[k + 1];
    }
  }

  /** Putting an entry with a new token in front keeps tokens distinct. */
  lemma ConsDistinct<T>(e: Entry<T>, rest: Profile<T>)
    requires DistinctTokens(rest) && e.token !in Tokens(rest)
    ensures DistinctTokens([e] + rest)
  {
    var r := [e] + rest;
    forall a, b | 0 <= a < b < |r| ensures r[a].token != r[b].token {
      assert r[b] == rest[b - 1];
      if a == 0 {
        assert rest[b - 1].token in Tokens(rest);
      } else {
        assert r[a] == rest[a - 1];
      }
    }
  }

  /** Putting an entry with a positive count in front keeps counts positive. */
  lemma ConsPositive<T>(e: Entry<T>, rest: Profile<T>)
    requires PositiveCounts(rest) && e.count > 0
    ensures PositiveCounts([e] + rest)
  {
    var r := [e] + rest;
    forall a | 0 <= a < |r| ensures r[a].count > 0 {
      if a > 0 { assert r[a] == rest[a - 1]; }
    }
  }

  /** Keeping the head of `p` in front of the incremented tail increments
      `p`, when the head is not the incremented token. */
  lemma IncrementBehindHead<T>(p: Profile<T>, t: T, rest: Profile<T>)
    requires |p| > 0 && p[0].token != t
    requires forall u :: Frequency(rest, u) == Frequency(p[1..], u) + (if u == t then 1 else 0)
    requires TokenCount(rest) == TokenCount(p[1..]) + 1
    requires Tokens(rest) == Tokens(p[1..]) + {t}
    requires DistinctTokens(p[1..]) ==> DistinctTokens(rest)
    requires PositiveCounts(p[1..]) ==> PositiveCounts(rest)
    ensures forall u :: Frequency([p[0]] + rest, u) == Frequency(p, u) + (if u == t then 1 else 0)
    ensures TokenCount([p[0]] + rest) == TokenCount(p) + 1
    ensures Tokens([p[0]] + rest) == Tokens(p) + {t}
    ensures DistinctTokens(p) ==> DistinctTokens([p[0]] + rest)
    ensures PositiveCounts(p) ==> PositiveCounts([p[0]] + rest)
  {
    var r := [p[0]] + rest;
    assert r[1..] == rest;
    assert p == [p[0]] + p[1..];
    TokensOfCons(p[0], p[1..]);
    TokensOfCons(p[0], rest);
    if DistinctTokens(p) {
      DistinctTail(p);
      ConsDistinct(p[0], rest);
    }
    if PositiveCounts(p) {
      ConsPositive(p[0], rest);
    }
  }

  /** The profile with one more occurrence of `t`: the entry of `t` has its
      count raised by one, or a new entry `(t, 1)` is appended. */
  function Increment<T(==, !new)>(p: Profile<T>, t: T): (r: Profile<T>)
    ensures forall u :: Frequency(r, u) == Frequency(p, u) + (if u == t then 1 else 0)
    ensures TokenCount(r) == TokenCount(p) + 1
    ensures Tokens(r) == Tokens(p) + {t}
    ensures DistinctTokens(p) ==> DistinctTokens(r)
    ensures PositiveCounts(p) ==> PositiveCounts(r)
  {
    if |p| == 0 then
      assert Tokens([Entry(t, 1)]) == {t} by { TokensOfCons(Entry(t, 1), []); }
      [Entry(t, 1)]
    else if p[0].token == t then
      var r := [Entry(t, p[0].count + 1)] + p[1..];
      assert r[1..] == p[1..];
      assert p == [p[0]] + p[1..];
      TokensOfCons(p[0], p[1..]);
      TokensOfCons(r[0], p[1..]);
      r
    else
      var rest := Increment(p[1..], t);
      IncrementBehindHead(p, t, rest);
      [p[0]] + rest
  }

  /** The profile of a token sequence, counted in one pass (entries appear in
      the order their tokens first occur). */
  function FromTokens<T(==, !new)>(tokens: seq<T>): (p: Profile<T>)
    ensures DistinctTokens(p) && PositiveCounts(p)
    ensures forall t :: Frequency(p, t) == multiset(tokens)[t]
    ensures TokenCount(p) == |tokens|
    ensures Tokens(p) == set t | t in tokens
  {
    if |tokens| == 0 then []
    else
      var n := |tokens| - 1;
      assert tokens == tokens[..n] + [tokens[n]];
      Increment(FromTokens(tokens[..n]), tokens[n])
  }

  /** The profile of a, b, a, c, a: a three times, b once, an absent token
      never, five occurrences in all. */
  lemma FromTokensExample()
    ensures var p := FromTokens(['a', 'b', 'a', 'c', 'a']);
      Frequency(p, 'a') == 3 && Frequency(p, 'b') == 1 && Frequency(p, 'z') == 0 && TokenCount(p) == 5
  {
    ExampleCounts(['a', 'b', 'a', 'c', 'a']);
  }

  lemma ExampleCounts(tokens: seq<char>)
    requires tokens == ['a', 'b', 'a', 'c', 'a']
    ensures var p := FromTokens(tokens);
      Frequency(p, 'a') == 3 && Frequency(p, 'b') == 1 && Frequency(p, 'z') == 0 && TokenCount(p) == 5
  {
    ExampleMultiset(tokens);
    var p := FromTokens(tokens);
    assert Frequency(p, 'a') == multiset(tokens)['a'];
    assert Frequency(p, 'b') == multiset(tokens)['b'];
    assert Frequency(p, 'z') == multiset(tokens)['z'];
  }

  lemma ExampleMultiset(tokens: seq<char>)
    requires tokens == ['a', 'b', 'a', 'c', 'a']
    ensures multiset(tokens)['a'] == 3 && multiset(tokens)['b'] == 1 && multiset(tokens)['z'] == 0
  {
    var m2 := multiset(tokens[..2]);
    assert tokens[..2] == ['a'] + ['b'];
    assert m2['a'] == 1 && m2['b'] == 1 && m2['z'] == 0;
    var m4 := multiset(tokens[..4]);
    assert tokens[..4] == tokens[..2] + ['a', 'c'];
    assert m4 == m2 + multiset{'a', 'c'};
    assert tokens == tokens[..4] + ['a'];
    assert multiset(tokens) == m4 + multiset{'a'};
  }

  /** Two profiles of the same table: both map-like, with the same entries,
      possibly iterated in different orders. */
  ghost predicate SameTable<T>(p: Profile<T>, q: Profile<T>) {
    DistinctTokens(p) && DistinctTokens(q) && multiset(p) == multiset(q)
  }

  /** The sum of `g` over the entries of a profile. */
  function SumOver<T>(g: Entry<T> -> real, p: Profile<T>): real {
    if |p| == 0 then 0.0 else g(p[0]) + SumOver(g, p[1..])
  }

  lemma {:induction false} SumOverAppend<T>(g: Entry<T> -> real, a: Profile<T>, b: Profile<T>)
    ensures SumOver(g, a + b) == SumOver(g, a) + SumOver(g, b)
    decreases |a|
  {
    if |a| == 0 {
      assert a + b == b;
    } else {
      assert (a + b)[1..] == a[1..] + b;
      SumOverAppend(g, a[1..], b);
    }
  }

  /** A sum over the entries does not depend on the order of the entries. */
  lemma {:induction false} SumOverPermutation<T>(g: Entry<T> -> real, p: Profile<T>, q: Profile<T>)
    requires multiset(p) == multiset(q)
    ensures SumOver(g, p) == SumOver(g, q)
    decreases |p|
  {
    if |p| == 0 {
      assert |q| == |multiset(q)| == 0;
    } else {
      var x := p[0];
      assert x in multiset(q) by { assert x in multiset(p); }
      var k :| 0 <= k < |q| && q[k] == x;
      var rest := RemoveAt(g, q, k);
      assert p == [x] + p[1..];
      Cancel(x, multiset(p[1..]), multiset(rest));
      SumOverPermutation(g, p[1..], rest);
    }
  }

  /** `q` without its k-th entry, which the multiset and the sum lose. */
  lemma RemoveAt<T>(g: Entry<T> -> real, q: Profile<T>, k: nat) returns (rest: Profile<T>)
    requires k < |q|
    ensures multiset(q) == multiset{q[k]} + multiset(rest)
    ensures SumOver(g, q) == g(q[k]) + SumOver(g, rest)
  {
    rest := q[..k] + q[k + 1..];
    var tail := [q[k]] + q[k + 1..];
    assert q == q[..k] + tail;
    SumOverAppend(g, q[..k], tail);
    SumOverAppend(g, q[..k], q[k + 1..]);
    assert tail[0] == q[k] && tail[1..] == q[k + 1..];
    assert SumOver(g, tail) == g(q[k]) + SumOver(g, q[k + 1..]);
  }

  lemma Cancel<T>(x: T, a: multiset<T>, b: multiset<T>)
    requires multiset{x} + a == multiset{x} + b
    ensures a == b
  {
    forall y ensures a[y] == b[y] {
      assert (multiset{x} + a)[y] == (multiset{x} + b)[y];
    }
  }

  /** The token count is the sum of the counts. */
  lemma {:induction false} TokenCountIsSum<T>(p: Profile<T>)
    ensures TokenCount(p) as real == SumOver((e: Entry<T>) => e.count as real, p)
    decreases |p|
  {
    if |p| > 0 {
      TokenCountIsSum(p[1..]);
    }
  }

  /** Two profiles of the same table agree on every lookup and on the token
      count. */
  lemma SameTableAgrees<T>(p: Profile<T>, q: Profile<T>)
    requires SameTable(p, q)
    ensures forall t :: Frequency(p, t) == Frequency(q, t)
    ensures TokenCount(p) == TokenCount(q)
  {
    forall t ensures Frequency(p, t) == Frequency(q, t) {
      SameTableLookup(p, q, t);
    }
    TokenCountIsSum(p);
    TokenCountIsSum(q);
    SumOverPermutation((e: Entry<T>) => e.count as real, p, q);
  }

  lemma SameTableLookup<T>(p: Profile<T>, q: Profile<T>, t: T)
    requires SameTable(p, q)
    ensures Frequency(p, t) == Frequency(q, t)
  {
    SameEntriesSameTokens(p, q);
    SameEntriesSameTokens(q, p);
    if t in Tokens(p) {
      var i :| 0 <= i < |p| && p[i].token == t;
      FrequencyOfEntry(p, i);
      assert p[i] in multiset(q) by { assert p[i] in multiset(p); }
      var j :| 0 <= j < |q| && q[j] == p[i];
      FrequencyOfEntry(q, j);
    }
  }

  lemma SameEntriesSameTokens<T>(p: Profile<T>, q: Profile<T>)
    requires multiset(p) == multiset(q)
    ensures Tokens(p) <= Tokens(q)
  {
    forall u | u in Tokens(p) ensures u in Tokens(q) {
      var i :| 0 <= i < |p| && p[i].token == u;
      assert p[i] in multiset(q) by { assert p[i] in multiset(p); }
      var j :| 0 <= j < |q| && q[j] == p[i];
      assert q[j].token == u;
    }
  }
}
