/** The load-balanced candidate order and the failover cursor of server/internal/router/engine.go. */
module LoadBalance {
  import opened Prelude

  datatype Channel = Channel(id: nat, priority: int, weight: int, group: string, enabled: bool,
                             models: seq<string>, mapping: map<string, string>)

  function EffectiveWeight(w: int): (r: nat)
    ensures r >= 1
  {
    if w <= 0 then 1 else w
  }

  // ------------------------------------------------------------------ one weighted pick

  /** The weight of the first n channels. */
  function WeightBefore(pool: seq<Channel>, n: nat): nat
    requires n <= |pool|
  {
    if n == 0 then 0 else WeightBefore(pool, n - 1) + EffectiveWeight(pool[n - 1].weight)
  }

  function Total(pool: seq<Channel>): nat { WeightBefore(pool, |pool|) }

  /** The draw falls on this channel's stretch of the number line. */
  predicate Picks(pool: seq<Channel>, draw: nat, i: nat) {
    i < |pool| && WeightBefore(pool, i) <= draw < WeightBefore(pool, i + 1)
  }

  lemma {:induction false} WeightGrows(pool: seq<Channel>, i: nat, j: nat)
    requires i <= j <= |pool|
    ensures WeightBefore(pool, i) + (j - i) <= WeightBefore(pool, j)
  {
    if i < j {
      WeightGrows(pool, i, j - 1);
    }
  }

  /** The total is positive, so a draw exists whenever there is something to draw from. */
  lemma TotalPositive(pool: seq<Channel>)
    ensures Total(pool) >= |pool|
  {
    WeightGrows(pool, 0, |pool|);
  }

  /** No draw picks two channels. */
  lemma PickIsUnique(pool: seq<Channel>, draw: nat, i: nat, j: nat)
    requires Picks(pool, draw, i) && Picks(pool, draw, j)
    ensures i == j
  {
    if i < j {
      WeightGrows(pool, i + 1, j);
    } else if j < i {
      WeightGrows(pool, j + 1, i);
    }
  }

  /** The draws that pick a channel. */
  ghost function DrawsFor(pool: seq<Channel>, i: nat): set<nat> {
    set d: nat | d < Total(pool) && Picks(pool, d, i)
  }

  predicate Between(lo: nat, d: nat, hi: nat) { lo <= d < hi }

  ghost function Interval(lo: nat, hi: nat): set<nat>
    requires lo <= hi
  {
    set d: nat | d < hi && Between(lo, d, hi)
  }

  lemma {:induction false} IntervalSize(lo: nat, hi: nat)
    requires lo <= hi
    ensures |Interval(lo, hi)| == hi - lo
    decreases hi - lo
  {
    if lo < hi {
      IntervalSize(lo, hi - 1);
      assert Interval(lo, hi) == Interval(lo, hi - 1) + {hi - 1};
    } else {
      assert Interval(lo, hi) == {};
    }
  }

  /** How many draws a channel is to get: as many as its stored weight, one if that is not positive. */
  function Shares(pool: seq<Channel>): (shares: seq<nat>)
    ensures |shares| == |pool|
  {
    seq(|pool|, i requires 0 <= i < |pool| => if pool[i].weight > 0 then pool[i].weight else 1)
  }

  function Sum(ns: seq<nat>): nat { if ns == [] then 0 else Sum(ns[..|ns| - 1]) + ns[|ns| - 1] }

  lemma {:induction false} WeightIsSum(pool: seq<Channel>, n: nat)
    requires n <= |pool|
    ensures WeightBefore(pool, n) == Sum(Shares(pool)[..n])
  {
    if n > 0 {
      WeightIsSum(pool, n - 1);
      assert Shares(pool)[..n][..n - 1] == Shares(pool)[..n - 1];
    }
  }

  /** What is drawn from is the sum of the shares. */
  lemma TotalIsSum(pool: seq<Channel>)
    ensures Total(pool) == Sum(Shares(pool))
  {
    WeightIsSum(pool, |pool|);
    assert Shares(pool)[..|pool|] == Shares(pool);
  }

  /** Of the draws below the total, exactly as many pick a channel as its share. */
  lemma ShareOfDraws(pool: seq<Channel>, i: nat)
    requires i < |pool|
    ensures |DrawsFor(pool, i)| == Shares(pool)[i]
  {
    WeightGrows(pool, i + 1, |pool|);
    IntervalSize(WeightBefore(pool, i), WeightBefore(pool, i + 1));
    var stretch := Interval(WeightBefore(pool, i), WeightBefore(pool, i + 1));
    forall d: nat ensures d in DrawsFor(pool, i) <==> d in stretch {
      assert Picks(pool, d, i) <==> Between(WeightBefore(pool, i), d, WeightBefore(pool, i + 1));
    }
    assert DrawsFor(pool, i) == stretch;
  }

  /** The channel a draw below n channels' weight falls on. */
  function PickBelow(pool: seq<Channel>, draw: nat, n: nat): (i: nat)
    requires n <= |pool| && draw < WeightBefore(pool, n)
    ensures Picks(pool, draw, i)
  {
    if draw >= WeightBefore(pool, n - 1) then n - 1 else PickBelow(pool, draw, n - 1)
  }

  function PickOf(pool: seq<Channel>, draw: nat): (i: nat)
    requires draw < Total(pool)
    ensures Picks(pool, draw, i)
  {
    PickBelow(pool, draw, |pool|)
  }

  /** The scan of the source: it always stops at the channel the draw falls on, so its default of
      index 0 is never what decides. */
  method Pick(pool: seq<Channel>, draw: nat) returns (idx: nat)
    requires draw < Total(pool)
    ensures Picks(pool, draw, idx)
  {
    var pick: int := draw;
    idx := 0;
    var i := 0;
    while i < |pool|
      invariant 0 <= i <= |pool|
      invariant pick == draw - WeightBefore(pool, i) && pick >= 0
    {
      pick := pick - EffectiveWeight(pool[i].weight);
      if pick < 0 {
        idx := i;
        return;
      }
      i := i + 1;
    }
  }

  // ------------------------------------------------------------------ a bucket shuffled

  function Without(pool: seq<Channel>, i: nat): seq<Channel>
    requires i < |pool|
  {
    pool[..i] + pool[i + 1..]
  }

  lemma WithoutContents(pool: seq<Channel>, i: nat)
    requires i < |pool|
    ensures multiset(pool) == multiset(Without(pool, i)) + multiset{pool[i]}
  {
    assert pool == pool[..i] + [pool[i]] + pool[i + 1..];
  }

  /** What randIntn may return in the rounds of a shuffle: each time a number below the total weight
      of what is left. */
  predicate ValidDraws(bucket: seq<Channel>, draws: seq<nat>)
    decreases |bucket|
  {
    if bucket == [] then draws == []
    else
      && draws != [] && draws[0] < Total(bucket)
      && ValidDraws(Without(bucket, PickOf(bucket, draws[0])), draws[1..])
  }

  /** Weighted picking without replacement. */
  function OrderOf(bucket: seq<Channel>, draws: seq<nat>): seq<Channel>
    requires ValidDraws(bucket, draws)
    decreases |bucket|
  {
    if bucket == [] then []
    else
      var i := PickOf(bucket, draws[0]);
      [bucket[i]] + OrderOf(Without(bucket, i), draws[1..])
  }

  lemma {:induction false} OrderPermutes(bucket: seq<Channel>, draws: seq<nat>)
    requires ValidDraws(bucket, draws)
    ensures multiset(OrderOf(bucket, draws)) == multiset(bucket)
    decreases |bucket|
  {
    if bucket != [] {
      var i := PickOf(bucket, draws[0]);
      OrderPermutes(Without(bucket, i), draws[1..]);
      WithoutContents(bucket, i);
    }
  }

  /** Every order can come out: no channel is starved, whatever its weight says. */
  lemma {:induction false} EveryOrderComesOut(bucket: seq<Channel>, order: seq<Channel>) returns (draws: seq<nat>)
    requires multiset(bucket) == multiset(order)
    ensures ValidDraws(bucket, draws) && OrderOf(bucket, draws) == order
    decreases |bucket|
  {
    hide Total, WeightBefore, Picks;
    assert |bucket| == |multiset(bucket)| == |multiset(order)| == |order|;
    if bucket == [] {
      draws := [];
    } else {
      var i := LocateFirst(bucket, order);
      var rest := EveryOrderComesOut(Without(bucket, i), order[1..]);
      draws := [DrawThatPicks(bucket, i)] + rest;
      assert draws[1..] == rest && order == [order[0]] + order[1..];
    }
  }

  lemma LocateFirst(bucket: seq<Channel>, order: seq<Channel>) returns (i: nat)
    requires multiset(bucket) == multiset(order) && order != []
    ensures i < |bucket| && bucket[i] == order[0] && multiset(Without(bucket, i)) == multiset(order[1..])
  {
    assert order[0] in multiset(bucket);
    i :| 0 <= i < |bucket| && bucket[i] == order[0];
    WithoutContents(bucket, i);
    assert order == [order[0]] + order[1..];
    assert multiset(Without(bucket, i)) == multiset(bucket) - multiset{bucket[i]} == multiset(order[1..]);
  }

  /** Each channel's stretch has a first draw. */
  ghost function DrawThatPicks(bucket: seq<Channel>, i: nat): (draw: nat)
    requires i < |bucket|
    ensures draw < Total(bucket) && PickOf(bucket, draw) == i
  {
    WeightGrows(bucket, i + 1, |bucket|);
    PickIsUnique(bucket, WeightBefore(bucket, i), i, PickOf(bucket, WeightBefore(bucket, i)));
    WeightBefore(bucket, i)
  }

  /** The shuffle of the source: the pool shrinks in place, one weighted pick a round. Its draws
      determine its order. */
  method WeightedShuffle(bucket: seq<Channel>, draws: seq<nat>) returns (out: seq<Channel>)
    requires ValidDraws(bucket, draws)
    ensures out == OrderOf(bucket, draws)
  {
    hide Picks, PickOf, Without;
    var pool := bucket;
    out := [];
    var round := 0;
    while |pool| > 0
      invariant round <= |draws| && ValidDraws(pool, draws[round..])
      invariant out + OrderOf(pool, draws[round..]) == OrderOf(bucket, draws)
      decreases |pool|
    {
      var total := 0;
      for i := 0 to |pool|
        invariant total == WeightBefore(pool, i)
      {
        total := total + EffectiveWeight(pool[i].weight);
      }
      var draw := draws[round];
      assert draw < total && draws[round..][1..] == draws[round + 1..];
      var idx := Pick(pool, draw);
      TheOnePicked(pool, draw, idx);
      out := out + [pool[idx]];
      pool := pool[..idx] + pool[idx + 1..];
      round := round + 1;
    }
  }

  lemma TheOnePicked(pool: seq<Channel>, draw: nat, i: nat)
    requires draw < Total(pool) && Picks(pool, draw, i)
    ensures PickOf(pool, draw) == i && Without(pool, i) == pool[..i] + pool[i + 1..]
  {
    PickIsUnique(pool, draw, i, PickOf(pool, draw));
  }

  // ------------------------------------------------------------------ how often an order comes out

  predicate Distinct(cs: seq<Channel>) { forall i, j | 0 <= i < j < |cs| :: cs[i] != cs[j] }

  function Product(ns: seq<nat>): nat { if ns == [] then 1 else ns[0] * Product(ns[1..]) }

  ghost function Cons(heads: set<nat>, tails: set<seq<nat>>): set<seq<nat>> {
    set d, rest | d in heads && rest in tails :: [d] + rest
  }

  /** The draws of a shuffle that give an order. */
  ghost function DrawsGiving(bucket: seq<Channel>, order: seq<Channel>): set<seq<nat>>
    decreases |bucket|
  {
    if bucket == [] then (if order == [] then {[]} else {})
    else if order == [] then {}
    else set i, draws | 0 <= i < |bucket| && bucket[i] == order[0]
                        && draws in Cons(DrawsFor(bucket, i), DrawsGiving(Without(bucket, i), order[1..])) :: draws
  }

  lemma {:induction false} DrawsGivingExactly(bucket: seq<Channel>, order: seq<Channel>, draws: seq<nat>)
    ensures draws in DrawsGiving(bucket, order) <==> ValidDraws(bucket, draws) && OrderOf(bucket, draws) == order
    decreases |bucket|
  {
    hide Total, WeightBefore, PickOf;
    if bucket != [] && order != [] && draws != [] {
      assert order == [order[0]] + order[1..] && draws == [draws[0]] + draws[1..];
      if draws in DrawsGiving(bucket, order) {
        var i :| 0 <= i < |bucket| && bucket[i] == order[0]
                 && draws in Cons(DrawsFor(bucket, i), DrawsGiving(Without(bucket, i), order[1..]));
        InCons(DrawsFor(bucket, i), DrawsGiving(Without(bucket, i), order[1..]), draws);
        DrawnFor(bucket, draws[0], i);
        DrawsGivingExactly(Without(bucket, i), order[1..], draws[1..]);
      }
      if ValidDraws(bucket, draws) && OrderOf(bucket, draws) == order {
        var i := PickOf(bucket, draws[0]);
        assert OrderOf(bucket, draws)[1..] == OrderOf(Without(bucket, i), draws[1..]);
        DrawnFor(bucket, draws[0], i);
        DrawsGivingExactly(Without(bucket, i), order[1..], draws[1..]);
        InCons(DrawsFor(bucket, i), DrawsGiving(Without(bucket, i), order[1..]), draws);
      }
    }
  }

  lemma InCons(heads: set<nat>, tails: set<seq<nat>>, draws: seq<nat>)
    ensures draws in Cons(heads, tails) <==> draws != [] && draws[0] in heads && draws[1..] in tails
  {
    if draws != [] {
      assert draws == [draws[0]] + draws[1..];
    }
    if draws in Cons(heads, tails) {
      var d, rest :| d in heads && rest in tails && draws == [d] + rest;
      assert draws[1..] == rest;
    }
  }

  lemma DrawnFor(bucket: seq<Channel>, draw: nat, i: nat)
    requires i < |bucket|
    ensures draw in DrawsFor(bucket, i) <==> draw < Total(bucket) && PickOf(bucket, draw) == i
  {
    if draw < Total(bucket) && Picks(bucket, draw, i) {
      PickIsUnique(bucket, draw, i, PickOf(bucket, draw));
    }
  }

  lemma {:induction false} ConsSize(heads: set<nat>, tails: set<seq<nat>>)
    ensures |Cons(heads, tails)| == |heads| * |tails|
    decreases |heads|
  {
    hide Cons;
    if heads == {} {
      ConsNothing(tails);
    } else {
      var d := SomeMember(heads);
      var fewer := heads - {d};
      ConsSize(fewer, tails);
      ConsOneSize(d, tails);
      ConsSplits(heads, d, tails);
      assert |heads| == |fewer| + 1;
      OnceMore(|fewer|, |tails|);
    }
  }

  lemma ConsNothing(tails: set<seq<nat>>)
    ensures Cons({}, tails) == {}
  {
  }

  lemma OnceMore(a: nat, b: nat)
    ensures (a + 1) * b == a * b + b
  {
  }

  lemma ConsSplits(heads: set<nat>, d: nat, tails: set<seq<nat>>)
    requires d in heads
    ensures Cons(heads, tails) == Cons({d}, tails) + Cons(heads - {d}, tails)
    ensures Cons({d}, tails) !! Cons(heads - {d}, tails)
  {
    hide Cons;
    forall draws: seq<nat>
      ensures draws in Cons(heads, tails) <==> draws in Cons({d}, tails) || draws in Cons(heads - {d}, tails)
      ensures !(draws in Cons({d}, tails) && draws in Cons(heads - {d}, tails))
    {
      InCons(heads, tails, draws);
      InCons({d}, tails, draws);
      InCons(heads - {d}, tails, draws);
    }
  }

  lemma ConsSplitsTail(d: nat, tails: set<seq<nat>>, rest: seq<nat>)
    requires rest in tails
    ensures Cons({d}, tails) == Cons({d}, tails - {rest}) + {[d] + rest}
    ensures [d] + rest !in Cons({d}, tails - {rest})
  {
    hide Cons;
    forall draws: seq<nat>
      ensures draws in Cons({d}, tails) <==> draws in Cons({d}, tails - {rest}) || draws == [d] + rest
    {
      InCons({d}, tails, draws);
      InCons({d}, tails - {rest}, draws);
      assert draws != [] && draws[0] == d && draws[1..] == rest ==> draws == [d] + rest;
      assert ([d] + rest)[1..] == rest;
    }
    InCons({d}, tails - {rest}, [d] + rest);
    assert ([d] + rest)[1..] == rest;
  }

  lemma {:induction false} ConsOneSize(d: nat, tails: set<seq<nat>>)
    ensures |Cons({d}, tails)| == |tails|
    decreases |tails|
  {
    if tails == {} {
      assert Cons({d}, tails) == {};
    } else {
      var rest := SomeMember(tails);
      ConsOneSize(d, tails - {rest});
      ConsSplitsTail(d, tails, rest);
      assert |tails| == 1 + |tails - {rest}|;
    }
  }

  /** How often each order of distinct channels comes out: of the draw sequences, as many give it as
      the product of the channels' shares. */
  lemma {:induction false} ShareOfShuffles(bucket: seq<Channel>, order: seq<Channel>)
    requires Distinct(bucket) && multiset(order) == multiset(bucket)
    ensures |DrawsGiving(bucket, order)| == Product(Shares(order))
    decreases |bucket|
  {
    hide Total, WeightBefore, Picks;
    assert |bucket| == |multiset(bucket)| == |multiset(order)| == |order|;
    if bucket != [] {
      var i := LocateFirst(bucket, order);
      var heads, tails := DrawsFor(bucket, i), DrawsGiving(Without(bucket, i), order[1..]);
      StillDistinct(bucket, i);
      ShareOfShuffles(Without(bucket, i), order[1..]);
      ShareOfDraws(bucket, i);
      ConsSize(heads, tails);
      assert Shares(order)[0] == Shares(bucket)[i] && Shares(order)[1..] == Shares(order[1..]);
      assert DrawsGiving(bucket, order) == Cons(heads, tails) by {
        assert forall j | 0 <= j < |bucket| && bucket[j] == order[0] :: j == i;
      }
    } else {
      assert DrawsGiving(bucket, order) == {[]};
    }
  }

  lemma StillDistinct(cs: seq<Channel>, i: nat)
    requires Distinct(cs) && i < |cs|
    ensures Distinct(Without(cs, i))
  {
    var w := Without(cs, i);
    forall a, b | 0 <= a < b < |w| ensures w[a] != w[b] {
      assert w[a] == cs[if a < i then a else a + 1] && w[b] == cs[if b < i then b else b + 1];
    }
  }

  // ------------------------------------------------------------------ the whole order

  ghost predicate Descending(cs: seq<Channel>) {
    forall i, j | 0 <= i < j < |cs| :: cs[i].priority >= cs[j].priority
  }

  /** The channels of one priority, in the order given. */
  function Bucket(cs: seq<Channel>, p: int): seq<Channel> {
    if cs == [] then []
    else Bucket(cs[..|cs| - 1], p) + if cs[|cs| - 1].priority == p then [cs[|cs| - 1]] else []
  }

  lemma {:induction false} BucketMembers(cs: seq<Channel>, p: int)
    ensures forall c | c in Bucket(cs, p) :: c.priority == p && c in cs
    ensures Bucket(cs, p) == [] <==> forall c | c in cs :: c.priority != p
  {
    if cs != [] {
      BucketMembers(cs[..|cs| - 1], p);
      assert cs == cs[..|cs| - 1] + [cs[|cs| - 1]];
      assert cs[|cs| - 1] in cs;
    }
  }

  method BucketsByPriority(cs: seq<Channel>) returns (buckets: map<int, seq<Channel>>)
    ensures forall p :: p in buckets <==> Bucket(cs, p) != []
    ensures forall p | p in buckets :: buckets[p] == Bucket(cs, p)
  {
    buckets := map[];
    for i := 0 to |cs|
      invariant forall p :: p in buckets <==> Bucket(cs[..i], p) != []
      invariant forall p | p in buckets :: buckets[p] == Bucket(cs[..i], p)
    {
      var ch := cs[i];
      assert cs[..i + 1][..i] == cs[..i] && cs[..i + 1][i] == ch;
      buckets := buckets[ch.priority := (if ch.priority in buckets then buckets[ch.priority] else []) + [ch]];
    }
    assert cs[..|cs|] == cs;
  }

  method AnyOf(s: set<int>) returns (k: int)
    requires s != {}
    ensures k in s
  {
    ghost var member := SomeMember(s);
    k :| k in s;
  }

  /** A map's keys in an arbitrary order, each once. */
  method Keys(m: map<int, seq<Channel>>) returns (ks: seq<int>)
    ensures forall k :: k in ks <==> k in m
    ensures forall i, j | 0 <= i < j < |ks| :: ks[i] != ks[j]
  {
    ks := [];
    var left := m.Keys;
    while left != {}
      invariant left <= m.Keys
      invariant forall k :: k in ks <==> k in m && k !in left
      invariant forall i, j | 0 <= i < j < |ks| :: ks[i] != ks[j]
      decreases |left|
    {
      var k := AnyOf(left);
      ks := ks + [k];
      left := left - {k};
    }
  }

  ghost predicate StrictlyDescending(ks: seq<int>) { forall i, j | 0 <= i < j < |ks| :: ks[i] > ks[j] }

  method InsertDescending(ks: seq<int>, k: int) returns (r: seq<int>)
    requires StrictlyDescending(ks) && k !in ks
    ensures StrictlyDescending(r) && forall x :: x in r <==> x in ks || x == k
  {
    var i := 0;
    while i < |ks| && ks[i] > k
      invariant 0 <= i <= |ks| && forall j | 0 <= j < i :: ks[j] > k
    {
      i := i + 1;
    }
    r := ks[..i] + [k] + ks[i..];
    assert i < |ks| ==> ks[i] in ks;
    Inserted(ks, k, i, r);
  }

  lemma Inserted(ks: seq<int>, k: int, i: nat, r: seq<int>)
    requires StrictlyDescending(ks) && i <= |ks| && r == ks[..i] + [k] + ks[i..]
    requires (forall j | 0 <= j < i :: ks[j] > k) && (i < |ks| ==> ks[i] < k)
    ensures StrictlyDescending(r) && forall x :: x in r <==> x in ks || x == k
  {
    forall j | i <= j < |ks| ensures ks[j] < k {
      assert j > i ==> ks[i] > ks[j];
    }
    forall a, b | 0 <= a < b < |r| ensures r[a] > r[b] {
      assert r[a] == if a < i then ks[a] else if a == i then k else ks[a - 1];
      assert r[b] == if b < i then ks[b] else if b == i then k else ks[b - 1];
    }
    InsertedMembers(ks, k, i);
  }

  lemma InsertedMembers(ks: seq<int>, k: int, i: nat)
    requires i <= |ks|
    ensures forall x :: x in ks[..i] + [k] + ks[i..] <==> x in ks || x == k
  {
    assert ks == ks[..i] + ks[i..];
    assert forall x :: x in ks <==> x in ks[..i] || x in ks[i..];
  }

  /** sort.Sort(sort.Reverse(sort.IntSlice(ks))) on distinct keys. */
  method SortDescending(ks: seq<int>) returns (r: seq<int>)
    requires forall i, j | 0 <= i < j < |ks| :: ks[i] != ks[j]
    ensures StrictlyDescending(r) && forall k :: k in r <==> k in ks
  {
    r := [];
    for i := 0 to |ks|
      invariant StrictlyDescending(r) && forall k :: k in r <==> k in ks[..i]
    {
      assert ks[..i + 1] == ks[..i] + [ks[i]];
      r := InsertDescending(r, ks[i]);
    }
    assert ks[..|ks|] == ks;
  }

  /** The channels whose priority is listed. */
  function Within(cs: seq<Channel>, ps: seq<int>): seq<Channel> {
    if cs == [] then []
    else Within(cs[..|cs| - 1], ps) + if cs[|cs| - 1].priority in ps then [cs[|cs| - 1]] else []
  }

  lemma {:induction false} WithinOneMore(cs: seq<Channel>, ps: seq<int>, p: int)
    requires p !in ps
    ensures multiset(Within(cs, ps + [p])) == multiset(Within(cs, ps)) + multiset(Bucket(cs, p))
  {
    if cs != [] {
      WithinOneMore(cs[..|cs| - 1], ps, p);
    }
  }

  lemma {:induction false} WithinAll(cs: seq<Channel>, ps: seq<int>)
    requires forall k | 0 <= k < |cs| :: cs[k].priority in ps
    ensures Within(cs, ps) == cs
  {
    if cs != [] {
      WithinAll(cs[..|cs| - 1], ps);
      assert cs == cs[..|cs| - 1] + [cs[|cs| - 1]];
    }
  }

  lemma {:induction false} WithinNone(cs: seq<Channel>)
    ensures Within(cs, []) == []
  {
    if cs != [] {
      WithinNone(cs[..|cs| - 1]);
    }
  }

  /** randIntn's results for the shuffle of each bucket. */
  predicate BucketDraws(cs: seq<Channel>, draws: map<int, seq<nat>>) {
    forall c | c in cs :: c.priority in draws && ValidDraws(Bucket(cs, c.priority), draws[c.priority])
  }

  /** The priorities that occur, highest first. */
  ghost predicate Priorities(cs: seq<Channel>, prios: seq<int>) {
    StrictlyDescending(prios) && forall p :: p in prios <==> Bucket(cs, p) != []
  }

  /** One bucket after the other, each in the order its draws give. */
  function LaidOut(cs: seq<Channel>, draws: map<int, seq<nat>>, prios: seq<int>): seq<Channel>
    requires forall p | p in prios :: p in draws && ValidDraws(Bucket(cs, p), draws[p])
  {
    if prios == [] then []
    else
      var last := prios[|prios| - 1];
      LaidOut(cs, draws, prios[..|prios| - 1]) + OrderOf(Bucket(cs, last), draws[last])
  }

  /** The order that the draws determine. */
  ghost predicate Drawn(cs: seq<Channel>, draws: map<int, seq<nat>>, prios: seq<int>, ordered: seq<Channel>) {
    && Priorities(cs, prios)
    && (forall p | p in prios :: p in draws && ValidDraws(Bucket(cs, p), draws[p]))
    && ordered == LaidOut(cs, draws, prios)
  }

  lemma {:induction false} SamePriorities(a: seq<int>, b: seq<int>)
    requires StrictlyDescending(a) && StrictlyDescending(b) && forall p :: p in a <==> p in b
    ensures a == b
  {
    EmptyTogether(a, b);
    if a != [] {
      HeadIsLargest(a);
      HeadIsLargest(b);
      assert a[0] in a && b[0] in b;
      assert a == [a[0]] + a[1..] && b == [b[0]] + b[1..];
      SamePriorities(a[1..], b[1..]);
    }
  }

  lemma EmptyTogether(a: seq<int>, b: seq<int>)
    requires forall p :: p in a <==> p in b
    ensures a == [] <==> b == []
  {
    if a != [] {
      var p := a[0];
      assert p in a;
    }
    if b != [] {
      var p := b[0];
      assert p in b;
    }
  }

  lemma HeadIsLargest(a: seq<int>)
    requires StrictlyDescending(a) && a != []
    ensures StrictlyDescending(a[1..]) && forall p :: p in a[1..] <==> p in a && p < a[0]
    ensures forall p | p in a :: p <= a[0]
  {
    assert a == [a[0]] + a[1..];
    forall p | p in a[1..] ensures p < a[0] {
      var k :| 0 <= k < |a[1..]| && a[1..][k] == p;
      assert a[k + 1] == p;
    }
  }

  /** The draws leave no choice: the map's iteration order does not matter. */
  lemma DrawsDetermineOrder(cs: seq<Channel>, draws: map<int, seq<nat>>, prios1: seq<int>, ordered1: seq<Channel>,
                            prios2: seq<int>, ordered2: seq<Channel>)
    requires Drawn(cs, draws, prios1, ordered1) && Drawn(cs, draws, prios2, ordered2)
    ensures ordered1 == ordered2
  {
    hide Bucket, ValidDraws, LaidOut;
    SamePriorities(prios1, prios2);
  }

  lemma PrioritiesHaveDraws(cs: seq<Channel>, draws: map<int, seq<nat>>, prios: seq<int>)
    requires BucketDraws(cs, draws) && forall p | p in prios :: Bucket(cs, p) != []
    ensures forall p | p in prios :: p in draws && ValidDraws(Bucket(cs, p), draws[p])
  {
    forall p | p in prios ensures p in draws && ValidDraws(Bucket(cs, p), draws[p]) {
      BucketMembers(cs, p);
      assert Bucket(cs, p)[0] in Bucket(cs, p);
    }
  }

  /** The order of the source: buckets by descending priority, each shuffled by weight. Whatever the
      iteration order of the map, it is exactly what the draws determine: a permutation of the
      candidates by descending priority, in each bucket the weighted picking of its own draws. */
  method LoadBalanceOrder(candidates: seq<Channel>, draws: map<int, seq<nat>>)
    returns (ordered: seq<Channel>, ghost prios: seq<int>)
    requires BucketDraws(candidates, draws)
    ensures Drawn(candidates, draws, prios, ordered)
    ensures multiset(ordered) == multiset(candidates)
    ensures forall i, j | 0 <= i < j < |ordered| :: ordered[i].priority >= ordered[j].priority
  {
    hide ValidDraws, OrderOf, Bucket, Within, Descending;
    if |candidates| <= 1 {
      prios := OneBucket(candidates, draws);
      DescendingMeaning(candidates);
      return candidates, prios;
    }
    var buckets := BucketsByPriority(candidates);
    var keys := Keys(buckets);
    var sorted := SortDescending(keys);
    prios := sorted;
    PrioritiesHaveDraws(candidates, draws, prios);
    ordered := [];
    for i := 0 to |sorted|
      invariant ordered == LaidOut(candidates, draws, sorted[..i])
    {
      assert sorted[i] in sorted && sorted[..i + 1][..i] == sorted[..i];
      var part := WeightedShuffle(buckets[sorted[i]], draws[sorted[i]]);
      ordered := ordered + part;
    }
    assert sorted[..|sorted|] == sorted;
    LaidOutOrders(candidates, draws, sorted);
    DescendingMeaning(ordered);
  }

  lemma DescendingMeaning(cs: seq<Channel>)
    requires Descending(cs)
    ensures forall i, j | 0 <= i < j < |cs| :: cs[i].priority >= cs[j].priority
  {
  }

  lemma OneBucket(cs: seq<Channel>, draws: map<int, seq<nat>>) returns (prios: seq<int>)
    requires |cs| <= 1 && BucketDraws(cs, draws)
    ensures Priorities(cs, prios) && forall p | p in prios :: p in draws && ValidDraws(Bucket(cs, p), draws[p])
    ensures cs == LaidOut(cs, draws, prios) && Descending(cs)
  {
    if cs == [] {
      prios := [];
    } else {
      var p := cs[0].priority;
      prios := [p];
      assert Bucket(cs[..0], p) == [] && Bucket(cs, p) == cs;
      PrioritiesHaveDraws(cs, draws, prios);
      OrderPermutes(cs, draws[p]);
      var order := OrderOf(cs, draws[p]);
      assert |order| == |multiset(order)| == 1 && order[0] in multiset(cs);
      assert LaidOut(cs, draws, []) == [];
    }
  }

  /** Such a layout permutes the candidates, by descending priority. */
  lemma LaidOutOrders(cs: seq<Channel>, draws: map<int, seq<nat>>, prios: seq<int>)
    requires Priorities(cs, prios)
    requires forall p | p in prios :: p in draws && ValidDraws(Bucket(cs, p), draws[p])
    ensures var ordered := LaidOut(cs, draws, prios); multiset(ordered) == multiset(cs) && Descending(ordered)
  {
    hide ValidDraws, OrderOf, Bucket, Within, Descending;
    LaidOutSoFar(cs, draws, prios);
    CoversAll(cs, prios);
    assert forall k | 0 <= k < |cs| :: cs[k] in cs;
    WithinAll(cs, prios);
  }

  lemma {:induction false} LaidOutSoFar(cs: seq<Channel>, draws: map<int, seq<nat>>, prios: seq<int>)
    requires StrictlyDescending(prios)
    requires forall p | p in prios :: p in draws && ValidDraws(Bucket(cs, p), draws[p])
    ensures var ordered := LaidOut(cs, draws, prios);
            && multiset(ordered) == multiset(Within(cs, prios)) && Descending(ordered)
            && forall c | c in ordered :: c.priority in prios
    decreases |prios|
  {
    hide ValidDraws, OrderOf, Bucket, Within;
    if prios == [] {
      WithinNone(cs);
    } else {
      var before, p := prios[..|prios| - 1], prios[|prios| - 1];
      assert prios == before + [p];
      LaidOutSoFar(cs, draws, before);
      OrderPermutes(Bucket(cs, p), draws[p]);
      ShuffledBucket(cs, p, OrderOf(Bucket(cs, p), draws[p]));
      WithinOneMore(cs, before, p);
      AppendLower(LaidOut(cs, draws, before), OrderOf(Bucket(cs, p), draws[p]), before, p);
    }
  }

  lemma AppendLower(ordered: seq<Channel>, part: seq<Channel>, before: seq<int>, p: int)
    requires StrictlyDescending(before + [p]) && Descending(ordered)
    requires (forall c | c in ordered :: c.priority in before) && forall c | c in part :: c.priority == p
    ensures Descending(ordered + part) && forall c | c in ordered + part :: c.priority in before + [p]
  {
    forall q | q in before ensures q > p {
      var k :| 0 <= k < |before| && before[k] == q;
      assert (before + [p])[k] == q && (before + [p])[|before|] == p;
    }
    assert forall k | 0 <= k < |ordered| :: ordered[k] in ordered;
    assert forall k | 0 <= k < |part| :: part[k] in part;
  }

  lemma ShuffledBucket(cs: seq<Channel>, p: int, part: seq<Channel>)
    requires multiset(part) == multiset(Bucket(cs, p))
    ensures forall c | c in part :: c.priority == p
  {
    BucketMembers(cs, p);
    forall c | c in part ensures c.priority == p {
      assert c in multiset(part);
    }
  }

  lemma CoversAll(cs: seq<Channel>, prios: seq<int>)
    requires forall p :: p in prios <==> Bucket(cs, p) != []
    ensures forall c | c in cs :: c.priority in prios
  {
    forall c | c in cs ensures c.priority in prios {
      BucketMembers(cs, c.priority);
    }
  }

  // ------------------------------------------------------------------ the failover cursor

  /** What Next returns and where it leaves the cursor. */
  function NextSpec(candidates: seq<Channel>, maxRetries: int, cursor: nat): (r: (Option<Channel>, nat)) {
    if cursor >= |candidates| || cursor >= maxRetries then (None, cursor) else (Some(candidates[cursor]), cursor + 1)
  }

  class Selection {
    const candidates: seq<Channel>
    const maxRetries: int
    var cursor: nat

    constructor (candidates: seq<Channel>, maxRetries: int)
      ensures this.candidates == candidates && this.maxRetries == maxRetries && cursor == 0
    {
      this.candidates, this.maxRetries, cursor := candidates, maxRetries, 0;
    }

    method Next() returns (ch: Option<Channel>)
      modifies this
      ensures (ch, cursor) == NextSpec(candidates, maxRetries, old(cursor))
    {
      if cursor >= |candidates| || cursor >= maxRetries {
        return None;
      }
      ch := Some(candidates[cursor]);
      cursor := cursor + 1;
    }
  }

  /** The results of n calls in a row, and the cursor after them. */
  function Calls(candidates: seq<Channel>, maxRetries: int, n: nat): (r: (seq<Option<Channel>>, nat))
    ensures |r.0| == n
  {
    if n == 0 then ([], 0)
    else
      var before := Calls(candidates, maxRetries, n - 1);
      var (ch, cursor) := NextSpec(candidates, maxRetries, before.1);
      (before.0 + [ch], cursor)
  }

  /** How many candidates a selection hands out. */
  function Budget(candidates: seq<Channel>, maxRetries: int): nat { Max(0, Min(|candidates|, maxRetries)) }

  /** Any number of calls: the candidates in order, each position once, exactly as many as the budget
      allows, and nothing ever after. */
  lemma {:induction false} CallsInOrder(candidates: seq<Channel>, maxRetries: int, n: nat)
    ensures forall k | 0 <= k < n ::
              Calls(candidates, maxRetries, n).0[k]
              == if k < |candidates| && k < maxRetries then Some(candidates[k]) else None
    ensures Calls(candidates, maxRetries, n).1 == Min(n, Budget(candidates, maxRetries))
  {
    if n > 0 {
      CallsInOrder(candidates, maxRetries, n - 1);
    }
  }
}
