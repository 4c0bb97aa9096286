/** `RandomHostPolicy`: host placement by a forward Fisher–Yates shuffle. The random
    source is a sequence of draws: `draw(i)` is what `rand.Intn(i + 1)` answers on the
    iteration for index `i`, so a valid draw sequence has `draw(i) <= i` everywhere. */
module Placement {
  import opened Wrappers

  /** A host, identified by its managed-object reference. */
  datatype HostSystem = HostSystem(reference: string)

  /** The cluster owning the session's resource pool. */
  datatype Cluster = Cluster(reference: string)

  /** Draws `rand.Intn(i + 1)` can produce: each lies in `[0, i]`. */
  ghost predicate ValidDraws(draw: nat -> nat)
  {
    forall i: nat :: draw(i) <= i
  }

  /** `RandomHostPolicy.CheckHost`: the random policy never keeps the current host. */
  function CheckHost(): (keep: bool)
    ensures !keep
  {
    false
  }

  /** `s` with the entries at `i` and `j` exchanged. */
  function Swap(s: seq<HostSystem>, i: nat, j: nat): (r: seq<HostSystem>)
    requires i < |s| && j < |s|
    ensures |r| == |s| && r[i] == s[j] && r[j] == s[i]
    ensures forall k :: 0 <= k < |s| && k != i && k != j ==> r[k] == s[k]
  {
    seq(|s|, k requires 0 <= k < |s| => if k == i then s[j] else if k == j then s[i] else s[k])
  }

  /** Exchanging two entries keeps the same hosts. */
  lemma SwapPermutes(s: seq<HostSystem>, i: nat, j: nat)
    requires i < |s| && j < |s|
    ensures multiset(Swap(s, i, j)) == multiset(s)
  {
    assert Swap(s, i, j) == s[i := s[j]][j := s[i]];
  }

  /** The reference shuffle: `s` after the loop iterations for indices `0 .. k-1`, each
      exchanging index `i` with index `draw(i)`. */
  function ShufflePrefix(s: seq<HostSystem>, draw: nat -> nat, k: nat): (r: seq<HostSystem>)
    requires ValidDraws(draw) && k <= |s|
    ensures |r| == |s|
    decreases k
  {
    if k == 0 then s
    else Swap(ShufflePrefix(s, draw, k - 1), k - 1, draw(k - 1))
  }

  /** The whole shuffle of `s`. */
  function Shuffled(s: seq<HostSystem>, draw: nat -> nat): seq<HostSystem>
    requires ValidDraws(draw)
  {
    ShufflePrefix(s, draw, |s|)
  }

  /** One iteration keeps the same hosts. */
  lemma IterationPermutes(s: seq<HostSystem>, draw: nat -> nat, k: nat)
    requires ValidDraws(draw) && 0 < k <= |s|
    ensures multiset(ShufflePrefix(s, draw, k)) == multiset(ShufflePrefix(s, draw, k - 1))
  {
    SwapPermutes(ShufflePrefix(s, draw, k - 1), k - 1, draw(k - 1));
  }

  /** Every prefix of the shuffle, and so the shuffle, is a permutation of its input. */
  lemma {:induction false} ShufflePrefixPermutes(s: seq<HostSystem>, draw: nat -> nat, k: nat)
    requires ValidDraws(draw) && k <= |s|
    ensures multiset(ShufflePrefix(s, draw, k)) == multiset(s)
    decreases k
  {
    if k > 0 {
      ShufflePrefixPermutes(s, draw, k - 1);
      IterationPermutes(s, draw, k);
    }
  }

  /** When every draw picks its own index, no iteration moves anything. */
  lemma {:induction false} SelfDrawsKeepOrder(s: seq<HostSystem>, draw: nat -> nat, k: nat)
    requires ValidDraws(draw) && k <= |s|
    requires forall i: nat :: draw(i) == i
    ensures ShufflePrefix(s, draw, k) == s
    decreases k
  {
    if k > 0 {
      SelfDrawsKeepOrder(s, draw, k - 1);
    }
  }

  /** The first `k` iterations leave every index from `k` on untouched. */
  lemma {:induction false} ShufflePrefixLeavesSuffix(s: seq<HostSystem>, draw: nat -> nat, k: nat, m: nat)
    requires ValidDraws(draw) && k <= m < |s|
    ensures ShufflePrefix(s, draw, k)[m] == s[m]
    decreases k
  {
    if k > 0 {
      ShufflePrefixLeavesSuffix(s, draw, k - 1, m);
    }
  }

  /** Only the draws for iterations below `k` matter to the first `k` iterations. */
  lemma {:induction false} DrawsAgreeBelow(s: seq<HostSystem>, draw: nat -> nat, other: nat -> nat, k: nat)
    requires ValidDraws(draw) && ValidDraws(other) && k <= |s|
    requires forall i: nat :: i < k ==> draw(i) == other(i)
    ensures ShufflePrefix(s, draw, k) == ShufflePrefix(s, other, k)
    decreases k
  {
    if k > 0 {
      DrawsAgreeBelow(s, draw, other, k - 1);
    }
  }

  /** An exchange inside `p` leaves what follows `p` alone. */
  lemma SwapAppend(p: seq<HostSystem>, tail: seq<HostSystem>, i: nat, j: nat)
    requires i < |p| && j < |p|
    ensures Swap(p + tail, i, j) == Swap(p, i, j) + tail
  {
  }

  /** The first `k` iterations never look past index `k`, so hosts appended after the
      list ride along unchanged. */
  lemma {:induction false} ShufflePrefixExtends(s: seq<HostSystem>, tail: seq<HostSystem>, draw: nat -> nat, k: nat)
    requires ValidDraws(draw) && k <= |s|
    ensures ShufflePrefix(s + tail, draw, k) == ShufflePrefix(s, draw, k) + tail
    decreases k
  {
    if k > 0 {
      ShufflePrefixExtends(s, tail, draw, k - 1);
      SwapAppend(ShufflePrefix(s, draw, k - 1), tail, k - 1, draw(k - 1));
    }
  }

  /** Dropping the same last host from two permutations of each other leaves two
      permutations of each other. */
  lemma DropLastPermutes(s: seq<HostSystem>, t: seq<HostSystem>)
    requires |s| == |t| > 0 && s[|s| - 1] == t[|t| - 1]
    requires multiset(t) == multiset(s)
    ensures multiset(t[..|t| - 1]) == multiset(s[..|s| - 1])
  {
    var n := |s| - 1;
    assert s == s[..n] + [s[n]];
    assert t == t[..n] + [t[n]];
    assert multiset(s[..n]) == multiset(s) - multiset{s[n]};
    assert multiset(t[..n]) == multiset(t) - multiset{t[n]};
  }

  /** `draw` for the iterations below `n`, then `j` for iteration `n`. */
  function DrawThen(draw: nat -> nat, n: nat, j: nat): (d: nat -> nat)
    requires ValidDraws(draw) && j <= n
    ensures ValidDraws(d)
    ensures d(n) == j && forall i: nat :: i < n ==> d(i) == draw(i)
  {
    (i: nat) => if i == n then j else draw(i)
  }

  /** Exchanging the same two entries twice restores the list. */
  lemma SwapBack(t: seq<HostSystem>, i: nat, j: nat)
    requires i < |t| && j < |t|
    ensures Swap(Swap(t, i, j), j, i) == t
  {
  }

  /** The first `|s| - 1` iterations on `s` arrange its first hosts as they arrange them
      alone, with the last host still in place. */
  lemma {:induction false} AllButLastIteration(s: seq<HostSystem>, draw: nat -> nat, rest: nat -> nat)
    requires |s| > 0 && ValidDraws(draw) && ValidDraws(rest)
    requires forall i: nat :: i < |s| - 1 ==> draw(i) == rest(i)
    ensures ShufflePrefix(s, draw, |s| - 1) == Shuffled(s[..|s| - 1], rest) + [s[|s| - 1]]
  {
    var n := |s| - 1;
    DrawsAgreeBelow(s[..n], draw, rest, n);
    ShufflePrefixExtends(s[..n], [s[n]], draw, n);
    assert s[..n] + [s[n]] == s;
  }

  /** The last iteration: if the first `n` iterations arrange `s`'s first `n` hosts as
      `t` with positions `j` and `n` exchanged, then drawing `j` at index `n` yields `t`. */
  lemma {:induction false} LastIterationCompletes(s: seq<HostSystem>, t: seq<HostSystem>, j: nat, rest: nat -> nat)
    requires |s| == |t| > 0 && j < |t| && t[j] == s[|s| - 1]
    requires ValidDraws(rest) && Shuffled(s[..|s| - 1], rest) == Swap(t, j, |t| - 1)[..|t| - 1]
    ensures Shuffled(s, DrawThen(rest, |s| - 1, j)) == t
  {
    var n := |s| - 1;
    var draw := DrawThen(rest, n, j);
    var t' := Swap(t, j, n);
    AllButLastIteration(s, draw, rest);
    assert ShufflePrefix(s, draw, n) == t' by {
      assert t'[..n] + [s[n]] == t';
    }
    SwapBack(t, j, n);
  }

  /** Every ordering of the hosts is the outcome of some valid draw sequence. For `n`
      distinct hosts there are `n!` relevant draw sequences and `n!` orderings, so this
      is the reason to expect uniform draws to give a uniform ordering; that
      uniformity itself is not proved here. */
  lemma {:induction false} EveryOrderReachable(s: seq<HostSystem>, t: seq<HostSystem>)
    requires multiset(t) == multiset(s)
    ensures exists draw: nat -> nat :: ValidDraws(draw) && Shuffled(s, draw) == t
    decreases |s|
  {
    assert |t| == |multiset(t)| == |multiset(s)| == |s|;
    if |s| == 0 {
      var self: nat -> nat := (i: nat) => i;
      assert Shuffled(s, self) == t;
    } else {
      var n := |s| - 1;
      assert s[n] in multiset(t);
      var j: nat :| j < |t| && t[j] == s[n];
      var t' := Swap(t, j, n);
      SwapPermutes(t, j, n);
      DropLastPermutes(s, t');
      EveryOrderReachable(s[..n], t'[..n]);
      var rest: nat -> nat :| ValidDraws(rest) && Shuffled(s[..n], rest) == t'[..n];
      LastIterationCompletes(s, t, j, rest);
      assert ValidDraws(DrawThen(rest, n, j));
    }
  }

  /** The hosts `RecommendHost` shuffles: the caller's list, or when the caller passes
      nil, the hosts of the session's cluster — a cluster or host lookup error instead
      ends the call. */
  function Candidates(hosts: Option<seq<HostSystem>>, cluster: Result<Cluster>,
                      clusterHosts: Cluster -> Result<seq<HostSystem>>): (r: Result<seq<HostSystem>>)
    ensures hosts.Some? ==> r == Ok(hosts.value)
    ensures hosts.None? && cluster.Err? ==> r == Err(cluster.error)
    ensures hosts.None? && cluster.Ok? ==> r == clusterHosts(cluster.value)
  {
    match hosts
    case Some(list) => Ok(list)
    case None =>
      match cluster
      case Err(e) => Err(e)
      case Ok(cls) => clusterHosts(cls)
  }

  /** The source's shuffle loop, run on a fresh copy of `list`: index `i` ascending,
      exchanging with `draw(i)`. Every index it touches is in bounds, and its result
      is the reference shuffle of `list`. */
  method ShuffleCopy(list: seq<HostSystem>, draw: nat -> nat) returns (out: seq<HostSystem>)
    requires ValidDraws(draw)
    ensures out == Shuffled(list, draw)
  {
    var a := new HostSystem[|list|](k requires 0 <= k < |list| => list[k]);
    for i := 0 to a.Length
      invariant a[..] == ShufflePrefix(list, draw, i)
    {
      ghost var before := a[..];
      var j := draw(i);
      a[i], a[j] := a[j], a[i];
      assert a[..] == Swap(before, i, j);
    }
    out := a[..];
  }

  /** `RandomHostPolicy.RecommendHost`: the candidates, or the lookup error that stopped
      their fetch. The candidates come back shuffled by the source's loop: a permutation
      of them, and their reference shuffle. */
  method RecommendHost(hosts: Option<seq<HostSystem>>, cluster: Result<Cluster>,
                       clusterHosts: Cluster -> Result<seq<HostSystem>>, draw: nat -> nat)
    returns (r: Result<seq<HostSystem>>)
    requires ValidDraws(draw)
    ensures Candidates(hosts, cluster, clusterHosts).Err? ==> r == Err(Candidates(hosts, cluster, clusterHosts).error)
    ensures Candidates(hosts, cluster, clusterHosts).Ok? ==>
              r.Ok? && r.value == Shuffled(Candidates(hosts, cluster, clusterHosts).value, draw)
    ensures Candidates(hosts, cluster, clusterHosts).Ok? ==>
              multiset(r.value) == multiset(Candidates(hosts, cluster, clusterHosts).value)
    ensures hosts.Some? ==> r.Ok? && |r.value| == |hosts.value|
  {
    var list: seq<HostSystem>;
    match hosts {
      case Some(given) =>
        list := given;
      case None =>
        if cluster.Err? {
          return Err(cluster.error);
        }
        var fetched := clusterHosts(cluster.value);
        if fetched.Err? {
          return Err(fetched.error);
        }
        list := fetched.value;
    }
    var shuffled := ShuffleCopy(list, draw);
    ShufflePrefixPermutes(list, draw, |list|);
    return Ok(shuffled);
  }
}
