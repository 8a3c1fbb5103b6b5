/** The bounded least-recently-used cache of CR fingerprints. */
module GuardCache {
  import opened Basics
  import opened Ordering
  import opened Election

  const MAX_GUARD_CACHE_ENTRIES := 1000

  /** Every CR field that a relist reacts to; the status is not among them. */
  datatype Surface = Surface(uid: string, spec: Spec, labels: string)

  function SurfaceOf(cr: Cr): Surface { Surface(cr.uid, cr.spec, cr.labels) }

  /** The keys from the oldest to the most recent, and what is kept under them. */
  datatype Lru = Lru(order: seq<string>, data: map<string, Surface>)

  const EMPTY_CACHE := Lru([], map[])

  predicate Valid(c: Lru) { Lists(c.order, c.data.Keys) && |c.order| <= MAX_GUARD_CACHE_ENTRIES }

  function Without(order: seq<string>, key: string): seq<string> {
    if order == [] then []
    else Without(order[..|order| - 1], key) + if order[|order| - 1] == key then [] else [order[|order| - 1]]
  }

  function Touched(c: Lru, key: string): Lru { if key in c.data then c.(order := Without(c.order, key) + [key]) else c }

  function Evicted(c: Lru): Lru {
    if |c.order| <= MAX_GUARD_CACHE_ENTRIES then c else Lru(c.order[1..], c.data - {c.order[0]})
  }

  function Put(c: Lru, key: string, s: Surface): Lru {
    if key in c.data then Lru(Without(c.order, key) + [key], c.data[key := s])
    else Evicted(Lru(c.order + [key], c.data[key := s]))
  }

  function Popped(c: Lru, key: string): Lru { Lru(Without(c.order, key), c.data - {key}) }

  // ---------------------------------------------------------------- what the operations keep

  lemma {:induction false} WithoutHolds(order: seq<string>, key: string)
    requires Distinct(order)
    ensures Distinct(Without(order, key)) && Elements(Without(order, key)) == Elements(order) - {key}
    ensures |Without(order, key)| == if key in order then |order| - 1 else |order|
  {
    if order != [] {
      var front, last := order[..|order| - 1], order[|order| - 1];
      WithoutHolds(front, key);
      assert order == front + [last] && last !in front;
      assert Elements(order) == Elements(front) + {last};
      var rest := Without(front, key);
      assert forall i :: 0 <= i < |rest| ==> rest[i] in Elements(rest);
      assert Elements(rest + [last]) == Elements(rest) + {last};
    }
  }

  lemma AppendLists(order: seq<string>, keys: set<string>, key: string)
    requires Lists(order, keys) && key !in keys
    ensures Lists(order + [key], keys + {key})
  {
    assert forall i :: 0 <= i < |order| ==> order[i] in Elements(order);
    assert Elements(order + [key]) == Elements(order) + {key};
  }

  /** Reading moves the key to the end and changes nothing else. */
  lemma TouchedValid(c: Lru, key: string)
    requires Valid(c)
    ensures Valid(Touched(c, key)) && Touched(c, key).data == c.data
    ensures var order := Touched(c, key).order; key in c.data ==> order != [] && order[|order| - 1] == key
  {
    if key in c.data {
      assert key in Elements(c.order);
      WithoutHolds(c.order, key);
      AppendLists(Without(c.order, key), c.data.Keys - {key}, key);
      assert c.data.Keys - {key} + {key} == c.data.Keys;
    }
  }

  lemma PoppedValid(c: Lru, key: string)
    requires Valid(c)
    ensures Valid(Popped(c, key)) && Popped(c, key).data == c.data - {key}
  {
    WithoutHolds(c.order, key);
  }

  lemma DropFirst(order: seq<string>, keys: set<string>)
    requires Lists(order, keys) && order != []
    ensures Lists(order[1..], keys - {order[0]})
  {
    assert order == [order[0]] + order[1..];
    assert forall x :: x in order <==> x == order[0] || x in order[1..];
  }

  /** Writing keeps the bound. The key holds the new value, every other key that is left holds what
      it held, and at most one key goes: the least recently used, and only from a full cache. */
  lemma PutValid(c: Lru, key: string, s: Surface)
    requires Valid(c)
    ensures var after := Put(c, key, s);
            && Valid(after) && key in after.data && after.data[key] == s
            && (forall k :: k in after.data && k != key ==> k in c.data && after.data[k] == c.data[k])
            && (forall k :: k in c.data && k !in after.data ==>
                k == c.order[0] && |c.order| == MAX_GUARD_CACHE_ENTRIES && key !in c.data)
  {
    if key in c.data {
      TouchedValid(c, key);
      assert c.data[key := s].Keys == c.data.Keys;
    } else {
      AppendLists(c.order, c.data.Keys, key);
      var grown := Lru(c.order + [key], c.data[key := s]);
      assert grown.data.Keys == c.data.Keys + {key};
      DropFirst(grown.order, grown.data.Keys);
      if |grown.order| > MAX_GUARD_CACHE_ENTRIES {
        assert c.order[0] in Elements(c.order);
        assert Evicted(grown).data.Keys == grown.data.Keys - {grown.order[0]};
      }
    }
  }

  // ---------------------------------------------------------------- imperative code

  class BoundedGuardCache {
    var order: seq<string>
    var data: map<string, Surface>

    function View(): Lru
      reads this
    {
      Lru(order, data)
    }

    constructor ()
      ensures View() == EMPTY_CACHE && Valid(View())
    {
      order, data := [], map[];
    }

    method MoveToEnd(key: string)
      requires key in data
      modifies this`order
      ensures View() == Touched(old(View()), key)
    {
      var kept: seq<string> := [];
      for i := 0 to |order|
        invariant kept == Without(order[..i], key)
      {
        assert order[..i + 1][..i] == order[..i];
        if order[i] != key { kept := kept + [order[i]]; }
      }
      assert order[..|order|] == order;
      order := kept + [key];
    }

    method Get(key: string) returns (found: Option<Surface>)
      requires Valid(View())
      modifies this`order
      ensures View() == Touched(old(View()), key) && Valid(View())
      ensures found == if key in data then Some(data[key]) else None
    {
      TouchedValid(View(), key);
      if key !in data { return None; }
      MoveToEnd(key);
      return Some(data[key]);
    }

    method Set(key: string, s: Surface)
      requires Valid(View())
      modifies this
      ensures View() == Put(old(View()), key, s) && Valid(View())
    {
      PutValid(View(), key, s);
      if key in data {
        MoveToEnd(key);
        data := data[key := s];
        return;
      }
      order, data := order + [key], data[key := s];
      ghost var grown := View();
      while |order| > MAX_GUARD_CACHE_ENTRIES
        invariant |order| <= MAX_GUARD_CACHE_ENTRIES + 1
        invariant View() == if |order| == |grown.order| then grown else Evicted(grown)
        decreases |order|
      {
        data := data - {order[0]};
        order := order[1..];
      }
    }

    method Pop(key: string)
      requires Valid(View())
      modifies this
      ensures View() == Popped(old(View()), key) && Valid(View())
    {
      PoppedValid(View(), key);
      var kept: seq<string> := [];
      for i := 0 to |order|
        invariant kept == Without(order[..i], key)
      {
        assert order[..i + 1][..i] == order[..i];
        if order[i] != key { kept := kept + [order[i]]; }
      }
      assert order[..|order|] == order;
      order, data := kept, data - {key};
    }
  }
}
