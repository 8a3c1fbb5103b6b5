/** The waves made of the colours, and the plan as code. */
module Waves {
  import opened Ordering
  import opened WavePlanner

  /** The nodes of one colour, in order. */
  function WaveOf(colors: seq<int>, w: int): seq<nat> {
    if colors == [] then []
    else
      var front := WaveOf(colors[..|colors| - 1], w);
      if colors[|colors| - 1] == w then front + [|colors| - 1] else front
  }

  /** The issues of the wave whose dependencies are known, or those whose are not. */
  function Filter(issues: seq<Issue>, wave: seq<nat>, known: bool): seq<nat>
    requires InRange(wave, |issues|)
  {
    if wave == [] then []
    else
      var front, last := Filter(issues, wave[..|wave| - 1], known), wave[|wave| - 1];
      if HasKnownDeps(issues[last]) == known then front + [last] else front
  }

  predicate InRange(wave: seq<nat>, n: nat) { forall p :: 0 <= p < |wave| ==> wave[p] < n }

  function Singles(wave: seq<nat>): seq<seq<nat>> { seq(|wave|, p requires 0 <= p < |wave| => [wave[p]]) }

  /** Too many unknowns in a wave go into waves of their own, before the knowns. */
  function Split(issues: seq<Issue>, wave: seq<nat>, cap: nat): seq<seq<nat>>
    requires InRange(wave, |issues|)
  {
    var unknowns, knowns := Filter(issues, wave, false), Filter(issues, wave, true);
    if |unknowns| <= cap then [wave] else if knowns == [] then Singles(unknowns) else Singles(unknowns) + [knowns]
  }

  function Times(wave: seq<nat>, v: nat): nat {
    if wave == [] then 0 else Times(wave[..|wave| - 1], v) + if wave[|wave| - 1] == v then 1 else 0
  }

  /** How often the node occurs in the waves. */
  function Occurs(waves: seq<seq<nat>>, v: nat): nat {
    if waves == [] then 0 else Occurs(waves[..|waves| - 1], v) + Times(waves[|waves| - 1], v)
  }

  /** Not empty, within the capacity, and without two issues that share a file or a label. */
  predicate GoodWave(issues: seq<Issue>, wave: seq<nat>) {
    && InRange(wave, |issues|) && 1 <= |wave| <= 3 && Distinct(wave)
    && forall p, q :: 0 <= p < |wave| && 0 <= q < |wave| && p != q ==> !Shares(issues[wave[p]], issues[wave[q]])
  }

  predicate Isolated(issues: seq<Issue>, wave: seq<nat>) {
    InRange(wave, |issues|) && forall p :: 0 <= p < |wave| && issues[wave[p]].files == [] ==> |wave| == 1
  }

  function Raw(colors: seq<int>, k: nat): seq<seq<nat>> {
    if k == 0 then []
    else if WaveOf(colors, k - 1) == [] then Raw(colors, k - 1)
    else Raw(colors, k - 1) + [WaveOf(colors, k - 1)]
  }

  predicate AllInRange(waves: seq<seq<nat>>, n: nat) { forall i :: 0 <= i < |waves| ==> InRange(waves[i], n) }

  function Final(issues: seq<Issue>, raw: seq<seq<nat>>, cap: nat): seq<seq<nat>>
    requires AllInRange(raw, |issues|)
  {
    if raw == [] then [] else Final(issues, raw[..|raw| - 1], cap) + Split(issues, raw[|raw| - 1], cap)
  }

  // ---------------------------------------------------------------- colour classes

  lemma TimesAppend(wave: seq<nat>, x: nat, v: nat)
    ensures Times(wave + [x], v) == Times(wave, v) + if x == v then 1 else 0
  {
    assert (wave + [x])[..|wave|] == wave;
  }

  lemma {:induction false} WaveHolds(colors: seq<int>, w: int)
    ensures forall p :: 0 <= p < |WaveOf(colors, w)| ==>
              WaveOf(colors, w)[p] < |colors| && colors[WaveOf(colors, w)[p]] == w
    ensures Distinct(WaveOf(colors, w)) && |WaveOf(colors, w)| == Class(colors, w)
  {
    if colors != [] {
      var n := |colors| - 1;
      WaveHolds(colors[..n], w);
      var front := WaveOf(colors[..n], w);
      assert forall p :: 0 <= p < |front| ==> front[p] < n && colors[..n][front[p]] == colors[front[p]];
    }
  }

  lemma {:induction false} WaveCounts(colors: seq<int>, w: int, v: nat)
    ensures Times(WaveOf(colors, w), v) == if v < |colors| && colors[v] == w then 1 else 0
  {
    if colors != [] {
      var n := |colors| - 1;
      WaveCounts(colors[..n], w, v);
      TimesAppend(WaveOf(colors[..n], w), n, v);
      assert v < n ==> colors[..n][v] == colors[v];
    }
  }

  lemma {:induction false} OccursConcat(a: seq<seq<nat>>, b: seq<seq<nat>>, v: nat)
    ensures Occurs(a + b, v) == Occurs(a, v) + Occurs(b, v)
  {
    if b == [] {
      assert a + b == a;
    } else {
      var n := |b| - 1;
      assert (a + b)[..|a + b| - 1] == a + b[..n];
      OccursConcat(a, b[..n], v);
    }
  }

  lemma OccursAppend(a: seq<seq<nat>>, wave: seq<nat>, v: nat)
    ensures Occurs(a + [wave], v) == Occurs(a, v) + Times(wave, v)
  {
    assert (a + [wave])[..|a|] == a;
  }

  lemma RawGrows(waves: seq<seq<nat>>, wave: seq<nat>, v: nat)
    ensures Occurs(if wave == [] then waves else waves + [wave], v) == Occurs(waves, v) + Times(wave, v)
  {
    OccursAppend(waves, wave, v);
  }

  /** The raw waves hold each node once, in the wave of its colour. */
  lemma {:induction false} RawCounts(colors: seq<int>, k: nat, v: nat)
    ensures Occurs(Raw(colors, k), v) == if v < |colors| && 0 <= colors[v] < k then 1 else 0
  {
    if k > 0 {
      RawCounts(colors, k - 1, v);
      WaveCounts(colors, k - 1, v);
      RawGrows(Raw(colors, k - 1), WaveOf(colors, k - 1), v);
    }
  }

  /** What a colouring must be for its classes to be good waves. */
  ghost predicate Colours(issues: seq<Issue>, colors: seq<int>) {
    && |colors| == |issues|
    && (forall w :: Class(colors, w) <= MAX_PER_WAVE)
    && (forall i: nat, j: nat :: Adjacent(issues, i, j) ==> colors[i] != colors[j])
  }

  lemma ClassIsGood(issues: seq<Issue>, colors: seq<int>, w: int)
    requires Colours(issues, colors) && WaveOf(colors, w) != []
    ensures GoodWave(issues, WaveOf(colors, w))
  {
    var wave := WaveOf(colors, w);
    WaveHolds(colors, w);
    forall p, q | 0 <= p < |wave| && 0 <= q < |wave| && p != q ensures !Shares(issues[wave[p]], issues[wave[q]]) {
      assert wave[p] != wave[q];
      assert !Adjacent(issues, wave[p], wave[q]);
    }
  }

  predicate AllGood(issues: seq<Issue>, waves: seq<seq<nat>>) {
    forall i :: 0 <= i < |waves| ==> GoodWave(issues, waves[i])
  }

  lemma {:induction false} RawIsGood(issues: seq<Issue>, colors: seq<int>, k: nat)
    requires Colours(issues, colors)
    ensures AllGood(issues, Raw(colors, k)) && |Raw(colors, k)| <= k
  {
    if k > 0 {
      RawIsGood(issues, colors, k - 1);
      if WaveOf(colors, k - 1) != [] { ClassIsGood(issues, colors, k - 1); }
    }
  }

  // ---------------------------------------------------------------- splitting

  lemma {:induction false} FilterCounts(issues: seq<Issue>, wave: seq<nat>, v: nat)
    requires InRange(wave, |issues|)
    ensures Times(Filter(issues, wave, false), v) + Times(Filter(issues, wave, true), v) == Times(wave, v)
  {
    if wave != [] {
      var front, last := wave[..|wave| - 1], wave[|wave| - 1];
      FilterCounts(issues, front, v);
      TimesAppend(Filter(issues, front, HasKnownDeps(issues[last])), last, v);
    }
  }

  lemma {:induction false} FilterShort(issues: seq<Issue>, wave: seq<nat>, known: bool)
    requires InRange(wave, |issues|)
    ensures |Filter(issues, wave, known)| <= |wave|
  {
    if wave != [] { FilterShort(issues, wave[..|wave| - 1], known); }
  }

  lemma {:induction false} FilterHolds(issues: seq<Issue>, wave: seq<nat>, known: bool, x: nat)
    requires InRange(wave, |issues|)
    ensures x in Filter(issues, wave, known) <==> x in wave && HasKnownDeps(issues[x]) == known
  {
    if wave != [] {
      FilterHolds(issues, wave[..|wave| - 1], known, x);
      assert wave == wave[..|wave| - 1] + [wave[|wave| - 1]];
    }
  }

  lemma {:induction false} FilterDistinct(issues: seq<Issue>, wave: seq<nat>, known: bool)
    requires InRange(wave, |issues|) && Distinct(wave)
    ensures Distinct(Filter(issues, wave, known))
  {
    if wave != [] {
      var front, last := wave[..|wave| - 1], wave[|wave| - 1];
      FilterDistinct(issues, front, known);
      FilterHolds(issues, front, known, last);
    }
  }

  lemma {:induction false} SinglesCount(wave: seq<nat>, v: nat)
    ensures Occurs(Singles(wave), v) == Times(wave, v)
  {
    if wave != [] {
      var front, last := wave[..|wave| - 1], wave[|wave| - 1];
      SinglesCount(front, v);
      assert Singles(wave)[..|wave| - 1] == Singles(front);
      TimesAppend([], last, v);
      assert [last] == [] + [last];
    }
  }

  /** Splitting a wave loses and duplicates nothing. */
  lemma SplitCounts(issues: seq<Issue>, wave: seq<nat>, cap: nat, v: nat)
    requires InRange(wave, |issues|)
    ensures Occurs(Split(issues, wave, cap), v) == Times(wave, v)
  {
    var us, ks := Filter(issues, wave, false), Filter(issues, wave, true);
    FilterCounts(issues, wave, v);
    SinglesCount(us, v);
    OccursAppend([], wave, v);
    assert [wave] == [] + [wave];
    OccursAppend(Singles(us), ks, v);
  }

  lemma KnownsGood(issues: seq<Issue>, wave: seq<nat>)
    requires GoodWave(issues, wave) && Filter(issues, wave, true) != []
    ensures GoodWave(issues, Filter(issues, wave, true)) && Isolated(issues, Filter(issues, wave, true))
  {
    var ks := Filter(issues, wave, true);
    FilterShort(issues, wave, true);
    FilterDistinct(issues, wave, true);
    forall p | 0 <= p < |ks|
      ensures ks[p] in wave && HasKnownDeps(issues[ks[p]])
    {
      FilterHolds(issues, wave, true, ks[p]);
    }
    forall p, q | 0 <= p < |ks| && 0 <= q < |ks| && p != q ensures !Shares(issues[ks[p]], issues[ks[q]]) {
      var i :| 0 <= i < |wave| && wave[i] == ks[p];
      var j :| 0 <= j < |wave| && wave[j] == ks[q];
      assert ks[p] != ks[q];
    }
  }

  predicate AllIsolated(issues: seq<Issue>, waves: seq<seq<nat>>) {
    forall i :: 0 <= i < |waves| ==> Isolated(issues, waves[i])
  }

  lemma SinglesGood(issues: seq<Issue>, wave: seq<nat>)
    requires InRange(wave, |issues|)
    ensures AllGood(issues, Singles(wave)) && AllIsolated(issues, Singles(wave))
  {}

  lemma UnknownsInRange(issues: seq<Issue>, wave: seq<nat>)
    requires InRange(wave, |issues|)
    ensures InRange(Filter(issues, wave, false), |issues|)
  {
    var us := Filter(issues, wave, false);
    forall p | 0 <= p < |us| ensures us[p] < |issues| { FilterHolds(issues, wave, false, us[p]); }
  }

  lemma NoUnknowns(issues: seq<Issue>, wave: seq<nat>)
    requires InRange(wave, |issues|) && Filter(issues, wave, false) == []
    ensures Isolated(issues, wave)
  {
    forall p | 0 <= p < |wave| ensures HasKnownDeps(issues[wave[p]]) { FilterHolds(issues, wave, false, wave[p]); }
  }

  /** The parts of a good wave are good, and with no unknown tolerated they isolate the unknowns. */
  lemma SplitIsGood(issues: seq<Issue>, wave: seq<nat>, cap: nat)
    requires GoodWave(issues, wave)
    ensures AllGood(issues, Split(issues, wave, cap)) && (cap == 0 ==> AllIsolated(issues, Split(issues, wave, cap)))
  {
    var us, ks := Filter(issues, wave, false), Filter(issues, wave, true);
    if |us| > cap {
      UnknownsInRange(issues, wave);
      SinglesGood(issues, us);
      if ks != [] { KnownsGood(issues, wave); }
    } else if cap == 0 {
      NoUnknowns(issues, wave);
    }
  }

  lemma {:induction false} FinalCounts(issues: seq<Issue>, raw: seq<seq<nat>>, cap: nat, v: nat)
    requires AllInRange(raw, |issues|)
    ensures Occurs(Final(issues, raw, cap), v) == Occurs(raw, v)
  {
    if raw != [] {
      var n := |raw| - 1;
      FinalCounts(issues, raw[..n], cap, v);
      SplitCounts(issues, raw[n], cap, v);
      OccursConcat(Final(issues, raw[..n], cap), Split(issues, raw[n], cap), v);
    }
  }

  lemma GoodConcat(issues: seq<Issue>, a: seq<seq<nat>>, b: seq<seq<nat>>)
    ensures AllGood(issues, a) && AllGood(issues, b) ==> AllGood(issues, a + b)
    ensures AllIsolated(issues, a) && AllIsolated(issues, b) ==> AllIsolated(issues, a + b)
  {}

  lemma {:induction false} FinalIsGood(issues: seq<Issue>, raw: seq<seq<nat>>, cap: nat)
    requires AllInRange(raw, |issues|) && AllGood(issues, raw)
    ensures AllGood(issues, Final(issues, raw, cap)) && (cap == 0 ==> AllIsolated(issues, Final(issues, raw, cap)))
  {
    if raw != [] {
      var n := |raw| - 1;
      FinalIsGood(issues, raw[..n], cap);
      assert GoodWave(issues, raw[n]);
      SplitIsGood(issues, raw[n], cap);
      GoodConcat(issues, Final(issues, raw[..n], cap), Split(issues, raw[n], cap));
    }
  }

  lemma ShortWaveIsKept(issues: seq<Issue>, wave: seq<nat>, cap: nat)
    requires InRange(wave, |issues|) && |wave| <= cap
    ensures Split(issues, wave, cap) == [wave]
  {
    FilterShort(issues, wave, false);
  }

  lemma {:induction false} ShortWavesAreKept(issues: seq<Issue>, raw: seq<seq<nat>>, cap: nat)
    requires AllInRange(raw, |issues|) && forall i :: 0 <= i < |raw| ==> |raw[i]| <= cap
    ensures Final(issues, raw, cap) == raw
  {
    if raw != [] {
      var n := |raw| - 1;
      ShortWavesAreKept(issues, raw[..n], cap);
      ShortWaveIsKept(issues, raw[n], cap);
      assert raw == raw[..n] + [raw[n]];
    }
  }

  /** The default cap never splits a wave. */
  lemma DefaultCapSplitsNothing(issues: seq<Issue>, raw: seq<seq<nat>>)
    requires AllInRange(raw, |issues|) && AllGood(issues, raw)
    ensures Final(issues, raw, MAX_UNIQUE_DEPS_PER_WAVE) == raw
  {
    forall i | 0 <= i < |raw| ensures |raw[i]| <= MAX_UNIQUE_DEPS_PER_WAVE { assert GoodWave(issues, raw[i]); }
    ShortWavesAreKept(issues, raw, MAX_UNIQUE_DEPS_PER_WAVE);
  }

  /** How many issues of the wave name no file. */
  function Unknowns(issues: seq<Issue>, wave: seq<nat>): nat
    requires InRange(wave, |issues|)
  {
    |set p | 0 <= p < |wave| && issues[wave[p]].files == []|
  }

  lemma UnknownsGrow(issues: seq<Issue>, front: seq<nat>, last: nat)
    requires InRange(front, |issues|) && last < |issues|
    ensures Unknowns(issues, front + [last]) == Unknowns(issues, front) + if issues[last].files == [] then 1 else 0
  {
    var n, wave := |front|, front + [last];
    var before := set p | 0 <= p < n && issues[front[p]].files == [];
    var now := set p | 0 <= p < n + 1 && issues[wave[p]].files == [];
    assert now == if issues[last].files == [] then before + {n} else before;
  }

  lemma {:induction false} FilterSize(issues: seq<Issue>, wave: seq<nat>)
    requires InRange(wave, |issues|)
    ensures |Filter(issues, wave, false)| == Unknowns(issues, wave)
  {
    if wave != [] {
      var front, last := wave[..|wave| - 1], wave[|wave| - 1];
      assert wave == front + [last];
      FilterSize(issues, front);
      UnknownsGrow(issues, front, last);
    }
  }

  lemma {:induction false} FilterIs(issues: seq<Issue>, wave: seq<nat>, known: bool)
    requires InRange(wave, |issues|)
    ensures forall p :: 0 <= p < |Filter(issues, wave, known)| ==>
              && Filter(issues, wave, known)[p] < |issues|
              && (issues[Filter(issues, wave, known)[p]].files != [] <==> known)
  {
    if wave != [] { FilterIs(issues, wave[..|wave| - 1], known); }
  }

  /** What the split makes of a wave: nothing if it has at most `cap` issues without a file; otherwise each
      of those alone, and then, if there are any, the others together. */
  lemma SplitShape(issues: seq<Issue>, wave: seq<nat>, cap: nat)
    requires InRange(wave, |issues|)
    ensures var parts, n := Split(issues, wave, cap), Unknowns(issues, wave);
            && (n <= cap ==> parts == [wave])
            && (n > cap ==>
                  && n <= |parts| <= n + 1
                  && (forall p :: 0 <= p < n ==>
                        |parts[p]| == 1 && parts[p][0] < |issues| && issues[parts[p][0]].files == [])
                  && (|parts| > n ==>
                        parts[n] != [] && forall q :: 0 <= q < |parts[n]| ==>
                          parts[n][q] < |issues| && issues[parts[n][q]].files != []))
  {
    FilterIs(issues, wave, false);
    FilterIs(issues, wave, true);
    FilterSize(issues, wave);
  }

  // ---------------------------------------------------------------- the plan

  /** Every issue is in exactly one wave. */
  ghost predicate Partitions(waves: seq<seq<nat>>, n: nat) {
    forall v: nat :: Occurs(waves, v) == if v < n then 1 else 0
  }

  function Limit(noStacking: bool): nat { if noStacking then 0 else MAX_UNIQUE_DEPS_PER_WAVE }

  /** All that the plan promises. With the default cap no wave is ever split. */
  ghost predicate Plan(issues: seq<Issue>, noStacking: bool, waves: seq<seq<nat>>) {
    && Partitions(waves, |issues|) && AllGood(issues, waves)
    && (noStacking ==> AllIsolated(issues, waves))
    && (!noStacking && issues != [] ==> |waves| <= MaxDegree(issues, |issues|) + (|issues| - 1) / 3 + 1)
  }

  function Neighbours(issues: seq<Issue>, i: nat): set<nat> { set j: nat | j < |issues| && Adjacent(issues, i, j) }

  /** The most conflicts that one of the first n issues has. */
  function MaxDegree(issues: seq<Issue>, n: nat): nat {
    if n == 0 then 0
    else
      var front, last := MaxDegree(issues, n - 1), |Neighbours(issues, n - 1)|;
      if last > front then last else front
  }

  lemma {:induction false} MaxDegreeBounds(issues: seq<Issue>, n: nat)
    ensures forall i :: 0 <= i < n ==> |Neighbours(issues, i)| <= MaxDegree(issues, n)
  {
    if n > 0 { MaxDegreeBounds(issues, n - 1); }
  }

  lemma GraphDegree(adj: seq<set<nat>>, issues: seq<Issue>)
    requires IsGraph(adj, issues)
    ensures DegreeBound(adj, MaxDegree(issues, |issues|))
  {
    MaxDegreeBounds(issues, |issues|);
    forall i | 0 <= i < |adj| ensures |adj[i]| <= MaxDegree(issues, |issues|) {
      assert adj[i] == Neighbours(issues, i);
    }
  }

  lemma FirstFitColours(adj: seq<set<nat>>, issues: seq<Issue>, colors: seq<int>)
    requires IsGraph(adj, issues) && FirstFit(adj, colors, MAX_PER_WAVE) && |colors| == |issues|
    ensures Colours(issues, colors)
  {
    GraphSymmetric(adj, issues);
    forall w ensures Class(colors, w) <= MAX_PER_WAVE { FirstFitWithinCapacity(adj, colors, MAX_PER_WAVE, w); }
    forall i: nat, j: nat | Adjacent(issues, i, j) ensures colors[i] != colors[j] {
      assert j in adj[i];
      FirstFitSeparates(adj, colors, MAX_PER_WAVE, i, j);
    }
  }

  /** One more than the largest colour. */
  function MaxWave(colors: seq<int>): nat {
    if colors == [] then 0
    else
      var front, last := MaxWave(colors[..|colors| - 1]), colors[|colors| - 1] + 1;
      if last > front then last else front
  }

  lemma {:induction false} MaxWaveBounds(colors: seq<int>)
    ensures forall v :: 0 <= v < |colors| ==> colors[v] < MaxWave(colors)
    ensures MaxWave(colors) > 0 ==> exists v :: 0 <= v < |colors| && colors[v] + 1 == MaxWave(colors)
  {
    if colors != [] {
      var n := |colors| - 1;
      MaxWaveBounds(colors[..n]);
      if colors[n] + 1 <= MaxWave(colors[..n]) && MaxWave(colors) > 0 {
        var v :| 0 <= v < n && colors[..n][v] + 1 == MaxWave(colors[..n]);
        assert colors[v] + 1 == MaxWave(colors);
      }
    }
  }

  /** The waves of a first-fit colouring keep all that the plan promises. */
  lemma PlanHolds(issues: seq<Issue>, adj: seq<set<nat>>, colors: seq<int>, noStacking: bool)
    requires IsGraph(adj, issues) && FirstFit(adj, colors, MAX_PER_WAVE) && |colors| == |issues|
    ensures var raw := Raw(colors, MaxWave(colors));
            AllInRange(raw, |issues|) && Plan(issues, noStacking, Final(issues, raw, Limit(noStacking)))
  {
    var k := MaxWave(colors);
    var raw := Raw(colors, k);
    FirstFitColours(adj, issues, colors);
    RawIsGood(issues, colors, k);
    FinalIsGood(issues, raw, Limit(noStacking));
    DefaultCapSplitsNothing(issues, raw);
    MaxWaveBounds(colors);
    forall v: nat ensures Occurs(Final(issues, raw, Limit(noStacking)), v) == if v < |issues| then 1 else 0 {
      RawCounts(colors, k, v);
      FinalCounts(issues, raw, Limit(noStacking), v);
      assert v < |colors| ==> Fits(adj[v], colors[..v], colors[v], MAX_PER_WAVE);
    }
    if issues != [] {
      GraphDegree(adj, issues);
      ColoursBounded(adj, colors, MAX_PER_WAVE, MaxDegree(issues, |issues|));
    }
  }

  method RawWaves(colors: seq<int>) returns (rawWaves: seq<seq<nat>>)
    ensures rawWaves == Raw(colors, MaxWave(colors))
  {
    rawWaves := [];
    for w := 0 to MaxWave(colors)
      invariant rawWaves == Raw(colors, w)
    {
      var wave := WaveOf(colors, w);
      if wave != [] { rawWaves := rawWaves + [wave]; }
    }
  }

  method SplitWave(issues: seq<Issue>, wave: seq<nat>, cap: nat) returns (parts: seq<seq<nat>>)
    requires InRange(wave, |issues|)
    ensures parts == Split(issues, wave, cap)
  {
    var unknowns, knowns := Filter(issues, wave, false), Filter(issues, wave, true);
    if |unknowns| <= cap { return [wave]; }
    parts := [];
    for u := 0 to |unknowns|
      invariant parts == Singles(unknowns)[..u]
    {
      parts := parts + [[unknowns[u]]];
    }
    if knowns != [] { parts := parts + [knowns]; }
  }

  method SplitWaves(issues: seq<Issue>, rawWaves: seq<seq<nat>>, cap: nat) returns (waves: seq<seq<nat>>)
    requires AllInRange(rawWaves, |issues|)
    ensures waves == Final(issues, rawWaves, cap)
  {
    waves := [];
    for i := 0 to |rawWaves|
      invariant waves == Final(issues, rawWaves[..i], cap)
    {
      assert rawWaves[..i + 1][..i] == rawWaves[..i];
      var parts := SplitWave(issues, rawWaves[i], cap);
      waves := waves + parts;
    }
    assert rawWaves[..|rawWaves|] == rawWaves;
  }

  /** The plan: conflict graph, colouring, one wave per colour, and the split of the unknowns. */
  method PlanWaves(issues: seq<Issue>, noStacking: bool) returns (waves: seq<seq<nat>>)
    ensures Plan(issues, noStacking, waves)
  {
    var adj := BuildConflictGraph(issues);
    GraphSymmetric(adj[..], issues);
    var colors := GraphColoring(adj, MAX_PER_WAVE);
    PlanHolds(issues, adj[..], colors[..], noStacking);
    var rawWaves := RawWaves(colors[..]);
    waves := SplitWaves(issues, rawWaves, Limit(noStacking));
  }
}
