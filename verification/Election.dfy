/** The oldest-CR election: seniority order, the winner, and who counts as active. */
module Election {
  import opened Basics
  import opened Ordering

  /** What the fingerprint of a CR sees besides its identity, and what Redis needs of the spec. */
  datatype Spec = Spec(redisUrl: string, secretRef: bool, rest: string)

  /** A creation time: missing, given, or given in a form that does not parse. */
  datatype Created = Missing | At(time: Time) | Garbled

  /** An empty uid stands for a missing one; `status` is what the operator itself writes. */
  datatype Cr = Cr(name: string, uid: string, created: Created, spec: Spec, labels: string, status: string)

  function TimeOf(c: Created): Option<Time> { if c.At? then Some(c.time) else None }

  predicate CreatedBefore(a: Option<Time>, b: Option<Time>) {
    a.Some? && (b.None? || a.value < b.value)
  }

  /** The election raises if a creation time does not parse. */
  predicate Parses(items: seq<Cr>) { forall x :: x in items ==> !x.created.Garbled? }

  /** The order by (created, name, uid); a missing creation time is the youngest. */
  predicate Senior(a: Cr, b: Cr) {
    || CreatedBefore(TimeOf(a.created), TimeOf(b.created))
    || (TimeOf(a.created) == TimeOf(b.created) && (if a.name == b.name then Le(a.uid, b.uid) else Le(a.name, b.name)))
  }

  lemma SeniorTotal(a: Cr, b: Cr)
    ensures Senior(a, b) || Senior(b, a)
  {
    LeTotal(a.name, b.name);
    LeTotal(a.uid, b.uid);
  }

  lemma SeniorAntisymmetric(a: Cr, b: Cr)
    requires Senior(a, b) && Senior(b, a)
    ensures TimeOf(a.created) == TimeOf(b.created) && a.name == b.name && a.uid == b.uid
  {
    if a.name != b.name { LeAntisymmetric(a.name, b.name); }
    LeAntisymmetric(a.uid, b.uid);
  }

  lemma SeniorTransitive(a: Cr, b: Cr, c: Cr)
    requires Senior(a, b) && Senior(b, c)
    ensures Senior(a, c)
  {
    if TimeOf(a.created) == TimeOf(b.created) == TimeOf(c.created) {
      if a.name == b.name == c.name {
        LeTransitive(a.uid, b.uid, c.uid);
      } else if a.name != b.name && b.name != c.name {
        LeTransitive(a.name, b.name, c.name);
        if a.name == c.name { LeAntisymmetric(a.name, b.name); }
      }
    }
  }

  /** The winner: the first of the most senior. */
  function Oldest(items: seq<Cr>): Cr
    requires items != []
  {
    if |items| == 1 then items[0]
    else
      var front, last := Oldest(items[..|items| - 1]), items[|items| - 1];
      if Senior(front, last) then front else last
  }

  predicate Leads(m: Cr, items: seq<Cr>) { m in items && forall x :: x in items ==> Senior(m, x) }

  lemma {:induction false} OldestLeads(items: seq<Cr>)
    requires items != []
    ensures Leads(Oldest(items), items)
  {
    SeniorTotal(items[0], items[0]);
    if |items| > 1 {
      var rest, last := items[..|items| - 1], items[|items| - 1];
      var front := Oldest(rest);
      OldestLeads(rest);
      assert items == rest + [last];
      SeniorTotal(last, last);
      SeniorTotal(front, last);
      forall x | x in items ensures Senior(Oldest(items), x) {
        if !Senior(front, last) && x in rest { SeniorTransitive(last, front, x); }
      }
    } else {
      assert forall x :: x in items ==> x == items[0];
    }
  }

  /** Names are unique in a namespace, and so are the uids there are. */
  predicate Proper(items: seq<Cr>) {
    forall i, j :: 0 <= i < j < |items| ==>
          items[i].name != items[j].name && (items[i].uid != "" ==> items[i].uid != items[j].uid)
  }

  lemma SameElement(items: seq<Cr>, a: Cr, b: Cr)
    requires Proper(items) && a in items && b in items && a.name == b.name
    ensures a == b
  {}

  lemma LeaderIsOldest(items: seq<Cr>, m: Cr)
    requires Proper(items) && Leads(m, items)
    ensures items != [] && Oldest(items) == m
  {
    OldestLeads(items);
    SeniorAntisymmetric(m, Oldest(items));
    SameElement(items, m, Oldest(items));
  }

  /** The winner, in plain comparisons: it has a creation time if any CR has one, and none is earlier;
      of those created at the same time, or without one, it is the first by name, and by uid of that. */
  lemma WinnerIsOldest(items: seq<Cr>)
    requires items != [] && Parses(items)
    ensures var w := Oldest(items);
            && w in items
            && forall x :: x in items ==>
                 && (x.created.At? ==> w.created.At? && w.created.time <= x.created.time)
                 && (x.created == w.created ==> Le(w.name, x.name))
                 && (x.created == w.created && x.name == w.name ==> Le(w.uid, x.uid))
  {
    OldestLeads(items);
    forall x | x in items && x.created == Oldest(items).created ensures Le(Oldest(items).name, x.name) {
      LeTotal(x.name, x.name);
    }
  }

  /** Conversely, a CR that is no later than any other, and comes before those of its time by name, wins. */
  lemma OldestWins(items: seq<Cr>, m: Cr)
    requires Proper(items) && Parses(items) && m in items
    requires forall x :: x in items && x != m ==>
               && (x.created.At? ==> m.created.At? && m.created.time <= x.created.time)
               && (x.created == m.created ==> Le(m.name, x.name))
    ensures items != [] && Oldest(items) == m
  {
    SeniorTotal(m, m);
    forall x | x in items ensures Senior(m, x) { if x != m && x.name == m.name { SameElement(items, x, m); } }
    LeaderIsOldest(items, m);
  }

  /** A CR created strictly before every other wins, whatever the names. */
  lemma EarliestWins(items: seq<Cr>, m: Cr)
    requires Proper(items) && Parses(items) && m in items && m.created.At?
    requires forall x :: x in items && x != m && x.created.At? ==> m.created.time < x.created.time
    ensures items != [] && Oldest(items) == m
  {
    OldestWins(items, m);
  }

  /** In ascending order of (created, name, uid), in plain comparisons. */
  predicate Ascending(a: Cr, b: Cr) {
    || (a.created.At? && !b.created.At?)
    || (a.created.At? && b.created.At? && a.created.time < b.created.time)
    || (a.created == b.created && a.name != b.name && Le(a.name, b.name))
    || (a.created == b.created && a.name == b.name && Le(a.uid, b.uid))
  }

  lemma AscendingIsSenior(a: Cr, b: Cr)
    requires !a.created.Garbled? && !b.created.Garbled?
    ensures Ascending(a, b) <==> Senior(a, b)
  {}

  /** What an ascending sort by (created, name, uid) puts first is the winner. */
  lemma SortedHeadWins(items: seq<Cr>, sorted: seq<Cr>)
    requires Proper(items) && Parses(items) && items != [] && multiset(items) == multiset(sorted)
    requires forall i, j :: 0 <= i < j < |sorted| ==> Ascending(sorted[i], sorted[j])
    ensures sorted != [] && sorted[0] == Oldest(items)
  {
    SameElements(items, sorted);
    assert |items| == |multiset(items)| == |multiset(sorted)| == |sorted|;
    SeniorTotal(sorted[0], sorted[0]);
    assert sorted[0] in sorted;
    forall j | 0 < j < |sorted| ensures Senior(sorted[0], sorted[j]) {
      assert sorted[j] in sorted;
      AscendingIsSenior(sorted[0], sorted[j]);
    }
    LeaderIsOldest(items, sorted[0]);
  }

  lemma SameElements(a: seq<Cr>, b: seq<Cr>)
    requires multiset(a) == multiset(b)
    ensures forall x :: x in a <==> x in b
  {
    forall x ensures x in a <==> x in b { assert x in a <==> x in multiset(a); assert x in b <==> x in multiset(b); }
  }

  /** The same CRs in any order elect the same winner. */
  lemma SameWinner(a: seq<Cr>, b: seq<Cr>)
    requires Proper(a) && a != [] && Proper(b) && forall x :: x in a <==> x in b
    ensures b != [] && Oldest(a) == Oldest(b)
  {
    OldestLeads(a);
    LeaderIsOldest(b, Oldest(a));
  }

  /** Adding juniors or removing losers keeps the winner. */
  lemma WinnerStays(items: seq<Cr>, changed: seq<Cr>)
    requires Proper(items) && items != [] && Proper(changed) && Parses(changed) && Oldest(items) in changed
    requires forall x :: x in changed && x !in items ==> Ascending(Oldest(items), x)
    ensures changed != [] && Oldest(changed) == Oldest(items)
  {
    OldestLeads(items);
    forall x | x in changed && x !in items ensures Senior(Oldest(items), x) { AscendingIsSenior(Oldest(items), x); }
    LeaderIsOldest(changed, Oldest(items));
  }

  /** A CR without a creation time wins only where none has one. */
  lemma MissingIsYoungest(items: seq<Cr>)
    requires items != [] && Parses(items) && Oldest(items).created.Missing?
    ensures forall x :: x in items ==> x.created.Missing?
  {
    OldestLeads(items);
  }

  /** By uid where both have one, else by name. */
  predicate SameCr(a: Cr, b: Cr) {
    if a.uid != "" && b.uid != "" then a.uid == b.uid else a.name == b.name
  }

  predicate IsActive(body: Cr, items: seq<Cr>) { items != [] && SameCr(body, Oldest(items)) }

  /** Where CRs have uids, a body is active exactly if it has the winner's: one deleted and created again
      under the winner's name is not, and a stale copy of the winner is. Without uids the name decides. */
  lemma ActiveByUid(items: seq<Cr>, body: Cr)
    requires items != []
    requires (forall x :: x in items ==> x.uid != "") || (forall x :: x in items ==> x.uid == "")
    ensures IsActive(body, items) <==>
              if body.uid == "" || items[0].uid == "" then body.name == Oldest(items).name
              else body.uid == Oldest(items).uid
  {
    OldestLeads(items);
    assert items[0] in items;
  }

  /** Exactly one CR of a non-empty list is active. */
  lemma ExactlyOneActive(items: seq<Cr>)
    requires Proper(items) && items != []
    ensures exists i ::
              && 0 <= i < |items| && IsActive(items[i], items)
              && forall j :: 0 <= j < |items| && IsActive(items[j], items) ==> j == i
  {
    OldestLeads(items);
    var i :| 0 <= i < |items| && items[i] == Oldest(items);
    assert IsActive(items[i], items);
    forall j | 0 <= j < |items| && IsActive(items[j], items) ensures j == i {}
  }
}
