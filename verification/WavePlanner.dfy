/** The wave planner: a conflict graph over issues, a capacity-bounded first-fit colouring, and the
    waves made of the colours. Waves list issue positions. */
module WavePlanner {
  const MAX_PER_WAVE: nat := 3
  const MAX_UNIQUE_DEPS_PER_WAVE: nat := 3

  /** An issue after text extraction. */
  datatype Issue = Issue(files: seq<string>, labels: seq<string>)

  predicate HasKnownDeps(i: Issue) { i.files != [] }

  predicate Overlap(a: seq<string>, b: seq<string>) { exists x :: x in a && x in b }

  predicate Shares(a: Issue, b: Issue) { Overlap(a.files, b.files) || Overlap(a.labels, b.labels) }

  predicate Adjacent(issues: seq<Issue>, i: nat, j: nat) {
    i < |issues| && j < |issues| && i != j && Shares(issues[i], issues[j])
  }

  ghost predicate IsGraph(adj: seq<set<nat>>, issues: seq<Issue>) {
    |adj| == |issues| && forall i, j: nat :: 0 <= i < |adj| ==> (j in adj[i] <==> Adjacent(issues, i, j))
  }

  // ---------------------------------------------------------------- first-fit colouring

  /** How many nodes have the colour. */
  function Class(colors: seq<int>, c: int): nat {
    if colors == [] then 0 else Class(colors[..|colors| - 1], c) + if colors[|colors| - 1] == c then 1 else 0
  }

  predicate NeighbourHas(nbrs: set<nat>, prefix: seq<int>, c: int) {
    exists j :: j in nbrs && j < |prefix| && prefix[j] == c
  }

  /** The next node, with these neighbours, cannot take the colour. */
  predicate Blocked(nbrs: set<nat>, prefix: seq<int>, c: int, cap: nat) {
    NeighbourHas(nbrs, prefix, c) || Class(prefix, c) >= cap
  }

  /** The colour is the least one that is free for the next node. */
  predicate Fits(nbrs: set<nat>, prefix: seq<int>, color: int, cap: nat) {
    0 <= color && !Blocked(nbrs, prefix, color, cap) && forall c :: 0 <= c < color ==> Blocked(nbrs, prefix, c, cap)
  }

  predicate FirstFit(adj: seq<set<nat>>, colors: seq<int>, cap: nat) {
    |colors| <= |adj| && forall v :: 0 <= v < |colors| ==> Fits(adj[v], colors[..v], colors[v], cap)
  }

  predicate Symmetric(adj: seq<set<nat>>) {
    && (forall i :: 0 <= i < |adj| ==> forall j :: j in adj[i] ==> j < |adj| && j != i)
    && (forall i, j :: 0 <= i < |adj| && 0 <= j < |adj| && j in adj[i] ==> i in adj[j])
  }

  lemma GraphSymmetric(adj: seq<set<nat>>, issues: seq<Issue>)
    requires IsGraph(adj, issues)
    ensures Symmetric(adj)
  {}

  /** No two neighbours share a colour. */
  lemma FirstFitSeparates(adj: seq<set<nat>>, colors: seq<int>, cap: nat, i: nat, j: nat)
    requires FirstFit(adj, colors, cap) && Symmetric(adj) && i < |colors| && j < |colors| && j in adj[i]
    ensures colors[i] != colors[j]
  {
    var a, b := if i < j then i else j, if i < j then j else i;
    assert a in adj[b] && Fits(adj[b], colors[..b], colors[b], cap);
    assert colors[..b][a] == colors[a];
  }

  /** No colour is used more often than the capacity allows. */
  lemma {:induction false} FirstFitWithinCapacity(adj: seq<set<nat>>, colors: seq<int>, cap: nat, c: int)
    requires FirstFit(adj, colors, cap)
    ensures Class(colors, c) <= cap
  {
    if colors != [] {
      var n := |colors| - 1;
      PrefixFits(adj, colors, cap, n);
      FirstFitWithinCapacity(adj, colors[..n], cap, c);
      assert Fits(adj[n], colors[..n], colors[n], cap);
    }
  }

  lemma PrefixFits(adj: seq<set<nat>>, colors: seq<int>, cap: nat, n: nat)
    requires FirstFit(adj, colors, cap) && n <= |colors|
    ensures FirstFit(adj, colors[..n], cap)
  {
    forall v | 0 <= v < n ensures Fits(adj[v], colors[..n][..v], colors[..n][v], cap) {
      assert colors[..n][..v] == colors[..v];
      assert Fits(adj[v], colors[..v], colors[v], cap);
    }
  }

  lemma FitUnique(nbrs: set<nat>, prefix: seq<int>, a: int, b: int, cap: nat)
    requires Fits(nbrs, prefix, a, cap) && Fits(nbrs, prefix, b, cap)
    ensures a == b
  {}

  /** There is one first-fit colouring. */
  lemma {:induction false} FirstFitUnique(adj: seq<set<nat>>, a: seq<int>, b: seq<int>, cap: nat)
    requires FirstFit(adj, a, cap) && FirstFit(adj, b, cap) && |a| == |b|
    ensures a == b
  {
    if a != [] {
      var n := |a| - 1;
      PrefixFits(adj, a, cap, n);
      PrefixFits(adj, b, cap, n);
      FirstFitUnique(adj, a[..n], b[..n], cap);
      assert Fits(adj[n], a[..n], a[n], cap) && Fits(adj[n], b[..n], b[n], cap);
      FitUnique(adj[n], a[..n], a[n], b[n], cap);
      assert a == a[..n] + [a[n]] && b == b[..n] + [b[n]];
    }
  }

  // ---------------------------------------------------------------- the number of colours

  /** Nodes whose colour is below the bound. */
  function Total(prefix: seq<int>, bound: nat): nat {
    if bound == 0 then 0 else Total(prefix, bound - 1) + Class(prefix, bound - 1)
  }

  function Below(prefix: seq<int>, bound: nat): nat {
    if prefix == [] then 0
    else Below(prefix[..|prefix| - 1], bound) + if 0 <= prefix[|prefix| - 1] < bound then 1 else 0
  }

  lemma {:induction false} BelowStep(prefix: seq<int>, bound: nat)
    ensures Below(prefix, bound + 1) == Below(prefix, bound) + Class(prefix, bound)
    ensures Below(prefix, 0) == 0 && Below(prefix, bound) <= |prefix|
  {
    if prefix != [] { BelowStep(prefix[..|prefix| - 1], bound); }
  }

  lemma {:induction false} TotalIsBelow(prefix: seq<int>, bound: nat)
    ensures Total(prefix, bound) == Below(prefix, bound)
  {
    BelowStep(prefix, bound);
    if bound > 0 {
      TotalIsBelow(prefix, bound - 1);
      BelowStep(prefix, bound - 1);
    }
  }

  /** Each blocked colour costs a neighbour or `cap` nodes. */
  lemma {:induction false} BlockedCosts(nbrs: set<nat>, prefix: seq<int>, colors: nat, cap: nat)
    requires forall c :: 0 <= c < colors ==> Blocked(nbrs, prefix, c, cap)
    ensures cap * (colors - |nbrs|) <= Total(prefix, colors)
    decreases colors
  {
    if colors > 0 {
      var c := colors - 1;
      assert Blocked(nbrs, prefix, c, cap);
      if NeighbourHas(nbrs, prefix, c) {
        var j :| j in nbrs && j < |prefix| && prefix[j] == c;
        var rest := nbrs - {j};
        forall d | 0 <= d < c ensures Blocked(rest, prefix, d, cap) { StillBlocked(nbrs, prefix, d, cap, j); }
        BlockedCosts(rest, prefix, c, cap);
        assert |rest| == |nbrs| - 1;
      } else {
        BlockedCosts(nbrs, prefix, c, cap);
        assert cap * (colors - |nbrs|) == cap * (c - |nbrs|) + cap;
      }
    } else {
      assert cap * |nbrs| >= 0;
    }
  }

  lemma StillBlocked(nbrs: set<nat>, prefix: seq<int>, d: int, cap: nat, j: nat)
    requires Blocked(nbrs, prefix, d, cap) && j < |prefix| && prefix[j] != d
    ensures Blocked(nbrs - {j}, prefix, d, cap)
  {
    if NeighbourHas(nbrs, prefix, d) {
      var i :| i in nbrs && i < |prefix| && prefix[i] == d;
      assert i in nbrs - {j};
    }
  }

  lemma Quotient(cap: nat, k: int, n: nat)
    requires cap > 0 && cap * k <= n
    ensures k <= n / cap
  {
    assert n == cap * (n / cap) + n % cap;
    var q := n / cap + 1;
    assert k >= q ==> cap * k >= cap * q;
  }

  /** A node's colour is at most its degree plus the colours that earlier nodes can have filled. */
  lemma ColourBound(adj: seq<set<nat>>, colors: seq<int>, cap: nat, v: nat)
    requires FirstFit(adj, colors, cap) && cap > 0 && v < |colors|
    ensures colors[v] <= |adj[v]| + v / cap
  {
    assert Fits(adj[v], colors[..v], colors[v], cap);
    BlockedCosts(adj[v], colors[..v], colors[v], cap);
    TotalIsBelow(colors[..v], colors[v]);
    BelowStep(colors[..v], colors[v]);
    Quotient(cap, colors[v] - |adj[v]|, v);
  }

  predicate DegreeBound(adj: seq<set<nat>>, degree: nat) { forall v :: 0 <= v < |adj| ==> |adj[v]| <= degree }

  /** The number of colours is at most maxDegree + floor((n - 1) / cap) + 1. */
  lemma ColoursBounded(adj: seq<set<nat>>, colors: seq<int>, cap: nat, degree: nat)
    requires FirstFit(adj, colors, cap) && cap > 0 && DegreeBound(adj, degree) && colors != []
    ensures forall v :: 0 <= v < |colors| ==> colors[v] + 1 <= degree + (|colors| - 1) / cap + 1
  {
    forall v | 0 <= v < |colors| ensures colors[v] + 1 <= degree + (|colors| - 1) / cap + 1 {
      ColourBound(adj, colors, cap, v);
      QuotientGrows(v, |colors| - 1, cap);
    }
  }

  lemma QuotientGrows(a: nat, b: nat, cap: nat)
    requires a <= b && cap > 0
    ensures a / cap <= b / cap
  {
    assert a == cap * (a / cap) + a % cap;
    Quotient(cap, a / cap, b);
  }

  /** No colour is left out. */
  lemma ColoursContiguous(adj: seq<set<nat>>, colors: seq<int>, cap: nat, v: nat, c: int)
    requires FirstFit(adj, colors, cap) && cap > 0 && v < |colors| && 0 <= c < colors[v]
    ensures exists u :: 0 <= u < v && colors[u] == c
  {
    assert Fits(adj[v], colors[..v], colors[v], cap);
    assert Blocked(adj[v], colors[..v], c, cap);
    if NeighbourHas(adj[v], colors[..v], c) {
      var j :| j in adj[v] && j < |colors[..v]| && colors[..v][j] == c;
      assert colors[j] == c;
    } else {
      ClassMember(colors[..v], c);
      var u :| 0 <= u < v && colors[..v][u] == c;
      assert colors[u] == c;
    }
  }

  lemma {:induction false} ClassMember(colors: seq<int>, c: int)
    requires Class(colors, c) > 0
    ensures exists u :: 0 <= u < |colors| && colors[u] == c
  {
    var n := |colors| - 1;
    if colors[n] != c {
      ClassMember(colors[..n], c);
      var u :| 0 <= u < n && colors[..n][u] == c;
      assert colors[u] == c;
    }
  }

  // ---------------------------------------------------------------- graph and colouring as code

  method BuildConflictGraph(issues: seq<Issue>) returns (adj: array<set<nat>>)
    ensures fresh(adj) && IsGraph(adj[..], issues)
  {
    var n := |issues|;
    adj := new set<nat>[n](_ => {});
    for i := 0 to n
      invariant forall a, b: nat :: 0 <= a < n ==> (b in adj[a] <==> Adjacent(issues, a, b) && (a < i || b < i))
    {
      for j := i + 1 to n
        invariant forall a, b: nat :: 0 <= a < n ==>
          (b in adj[a] <==> Adjacent(issues, a, b) && (a < i || b < i || (a == i && b < j) || (b == i && a < j)))
      {
        SharesSymmetric(issues[i], issues[j]);
        if Shares(issues[i], issues[j]) {
          adj[i] := adj[i] + {j};
          adj[j] := adj[j] + {i};
        }
      }
    }
  }

  lemma SharesSymmetric(a: Issue, b: Issue)
    ensures Shares(a, b) <==> Shares(b, a)
  {}

  /** The colours that the neighbours coloured so far use. */
  method UsedColors(nbrs: set<nat>, colors: array<int>, node: nat) returns (used: set<int>)
    requires node <= colors.Length && forall j :: j in nbrs ==> j < colors.Length
    requires forall v :: 0 <= v < colors.Length ==> (colors[v] != -1 <==> v < node)
    ensures forall c :: c in used <==> NeighbourHas(nbrs, colors[..node], c)
  {
    used := {};
    var todo := nbrs;
    while todo != {}
      invariant todo <= nbrs
      invariant forall c :: c in used <==> NeighbourHas(nbrs - todo, colors[..node], c)
      decreases todo
    {
      var j :| j in todo;
      var done := nbrs - todo;
      todo := todo - {j};
      assert nbrs - todo == done + {j};
      OneMore(done, colors[..node], j);
      if colors[j] != -1 { used := used + {colors[j]}; }
    }
    assert nbrs - todo == nbrs;
  }

  lemma OneMore(done: set<nat>, prefix: seq<int>, j: nat)
    ensures forall c :: NeighbourHas(done + {j}, prefix, c) <==>
              NeighbourHas(done, prefix, c) || (j < |prefix| && prefix[j] == c)
  {
    forall c
      ensures NeighbourHas(done + {j}, prefix, c) <==> NeighbourHas(done, prefix, c) || (j < |prefix| && prefix[j] == c)
    {
      if NeighbourHas(done, prefix, c) {
        var i :| i in done && i < |prefix| && prefix[i] == c;
        assert i in done + {j};
      }
      if j < |prefix| && prefix[j] == c { assert j in done + {j}; }
    }
  }

  /** The counters say how often each colour is used; colours beyond them are not used. */
  predicate Tallied(counts: seq<nat>, prefix: seq<int>) {
    && (forall c :: 0 <= c < |counts| ==> counts[c] == Class(prefix, c))
    && (forall v :: 0 <= v < |prefix| ==> 0 <= prefix[v] < |counts|)
  }

  lemma {:induction false} UnusedClass(prefix: seq<int>, c: int)
    requires forall v :: 0 <= v < |prefix| ==> prefix[v] != c
    ensures Class(prefix, c) == 0
  {
    if prefix != [] { UnusedClass(prefix[..|prefix| - 1], c); }
  }

  lemma TallyOne(counts: seq<nat>, prefix: seq<int>, color: nat)
    requires Tallied(counts, prefix) && color < |counts|
    ensures Tallied(counts[color := counts[color] + 1], prefix + [color])
  {
    assert (prefix + [color as int])[..|prefix|] == prefix;
  }

  lemma TallyNew(counts: seq<nat>, prefix: seq<int>)
    requires Tallied(counts, prefix)
    ensures Tallied(counts + [0], prefix)
  {
    UnusedClass(prefix, |counts|);
  }

  /** First fit: the least colour neither used by a neighbour nor full, else a new one. */
  method Assign(nbrs: set<nat>, used: set<int>, counts: seq<nat>, cap: nat,
                ghost prefix: seq<int>) returns (chosen: nat, grown: seq<nat>)
    requires cap > 0 && Tallied(counts, prefix) && forall c :: c in used <==> NeighbourHas(nbrs, prefix, c)
    ensures Fits(nbrs, prefix, chosen, cap) && Tallied(grown, prefix + [chosen])
  {
    grown := counts;
    var found := false;
    chosen := 0;
    while chosen < |counts| && !found
      invariant chosen <= |counts|
      invariant forall c :: 0 <= c < chosen ==> Blocked(nbrs, prefix, c, cap)
      invariant found ==> chosen < |counts| && !Blocked(nbrs, prefix, chosen, cap)
      decreases |counts| - chosen, !found
    {
      if chosen !in used && counts[chosen] < cap { found := true; } else { chosen := chosen + 1; }
    }
    if !found {
      TallyNew(counts, prefix);
      grown := counts + [0];
      assert Class(prefix, chosen) == grown[chosen] == 0;
    }
    TallyOne(grown, prefix, chosen);
    grown := grown[chosen := grown[chosen] + 1];
  }

  method GraphColoring(adj: array<set<nat>>, cap: nat) returns (colors: array<int>)
    requires cap > 0 && Symmetric(adj[..])
    ensures fresh(colors) && colors.Length == adj.Length && FirstFit(adj[..], colors[..], cap)
  {
    var n := adj.Length;
    colors := new int[n](_ => -1);
    var counts: seq<nat> := [];
    for node := 0 to n
      invariant Tallied(counts, colors[..node]) && FirstFit(adj[..], colors[..node], cap)
      invariant forall v :: 0 <= v < n ==> (colors[v] != -1 <==> v < node)
    {
      NeighboursInGraph(adj[..], node);
      var usedColors := UsedColors(adj[node], colors, node);
      var chosen, grown := Assign(adj[node], usedColors, counts, cap, colors[..node]);
      ghost var before := colors[..node];
      colors[node] := chosen;
      counts := grown;
      assert colors[..node + 1] == before + [chosen as int];
      ExtendFit(adj[..], before, chosen, cap);
    }
    assert colors[..n] == colors[..];
  }

  lemma NeighboursInGraph(adj: seq<set<nat>>, node: nat)
    requires Symmetric(adj) && node < |adj|
    ensures forall j :: j in adj[node] ==> j < |adj|
  {}

  lemma ExtendFit(adj: seq<set<nat>>, colors: seq<int>, color: int, cap: nat)
    requires FirstFit(adj, colors, cap) && |colors| < |adj| && Fits(adj[|colors|], colors, color, cap)
    ensures FirstFit(adj, colors + [color], cap)
  {
    var more := colors + [color];
    forall v | 0 <= v < |more| ensures Fits(adj[v], more[..v], more[v], cap) {
      assert more[..v] == colors[..v];
      if v < |colors| { assert Fits(adj[v], colors[..v], colors[v], cap); } else { assert colors[..v] == colors; }
    }
  }
}
