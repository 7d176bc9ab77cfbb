/**
 * The list of name-value pairs behind `URL.searchParams`, and its `set`
 * operation as section 6.2 of the WHATWG URL Standard defines it: if the list
 * holds pairs with the given name, the first one takes the new value and the
 * others are removed; otherwise the pair is appended.
 */
module SearchParams {
  import opened Records

  /** The values of the pairs named `name`, in list order (`getAll(name)`). */
  function Occurrences(q: seq<Pair>, name: string): seq<string> {
    if q == [] then []
    else (if q[0].0 == name then [q[0].1] else []) + Occurrences(q[1..], name)
  }

  lemma {:induction false} OccurrencesAppend(a: seq<Pair>, b: seq<Pair>, name: string)
    ensures Occurrences(a + b, name) == Occurrences(a, name) + Occurrences(b, name)
  {
    if a != [] {
      assert (a + b)[1..] == a[1..] + b;
      OccurrencesAppend(a[1..], b, name);
    } else {
      assert a + b == b;
    }
  }

  /** The list without any pair named `name`. */
  function RemoveName(q: seq<Pair>, name: string): seq<Pair> {
    if q == [] then []
    else (if q[0].0 == name then [] else [q[0]]) + RemoveName(q[1..], name)
  }

  lemma {:induction false} RemoveNameOccurrences(q: seq<Pair>, name: string, other: string)
    ensures Occurrences(RemoveName(q, name), other) == if other == name then [] else Occurrences(q, other)
  {
    if q != [] {
      RemoveNameOccurrences(q[1..], name, other);
      OccurrencesAppend(if q[0].0 == name then [] else [q[0]], RemoveName(q[1..], name), other);
    }
  }

  lemma {:induction false} RemoveNameAppend(a: seq<Pair>, b: seq<Pair>, name: string)
    ensures RemoveName(a + b, name) == RemoveName(a, name) + RemoveName(b, name)
  {
    if a != [] {
      assert (a + b)[1..] == a[1..] + b;
      RemoveNameAppend(a[1..], b, name);
    } else {
      assert a + b == b;
    }
  }

  /** Removing a name that no pair carries changes nothing. */
  lemma {:induction false} RemoveAbsentName(q: seq<Pair>, name: string)
    requires forall j :: 0 <= j < |q| ==> q[j].0 != name
    ensures RemoveName(q, name) == q
  {
    if q != [] {
      RemoveAbsentName(q[1..], name);
    }
  }

  lemma {:induction false} RemoveNameTwice(q: seq<Pair>, name: string)
    ensures RemoveName(RemoveName(q, name), name) == RemoveName(q, name)
  {
    if q != [] {
      RemoveNameTwice(q[1..], name);
      RemoveNameAppend(if q[0].0 == name then [] else [q[0]], RemoveName(q[1..], name), name);
    }
  }

  /** The index of the first pair named `name`. */
  function FirstNamed(q: seq<Pair>, name: string): (k: nat)
    requires Occurrences(q, name) != []
    ensures k < |q| && q[k].0 == name && forall j :: 0 <= j < k ==> q[j].0 != name
  {
    if q[0].0 == name then 0 else 1 + FirstNamed(q[1..], name)
  }

  /** The first pair named `name` takes `value`; the later ones are dropped. */
  function SetFirst(q: seq<Pair>, name: string, value: string): seq<Pair>
    requires Occurrences(q, name) != []
  {
    if q[0].0 == name then [(name, value)] + RemoveName(q[1..], name)
    else [q[0]] + SetFirst(q[1..], name, value)
  }

  /** `SetFirst` rewrites the first pair named `name` where it stands and drops the later ones. */
  lemma {:induction false} SetFirstShape(q: seq<Pair>, name: string, value: string)
    requires Occurrences(q, name) != []
    ensures var k := FirstNamed(q, name);
      SetFirst(q, name, value) == q[..k] + [(name, value)] + RemoveName(q[k + 1..], name)
  {
    if q[0].0 != name {
      SetFirstShape(q[1..], name, value);
      var k := FirstNamed(q, name);
      assert q[..k] == [q[0]] + q[1..][..k - 1];
      assert q[k + 1..] == q[1..][k..];
    }
  }

  /** `searchParams.set(name, value)`. */
  function Set(q: seq<Pair>, name: string, value: string): seq<Pair> {
    if Occurrences(q, name) != [] then SetFirst(q, name, value) else q + [(name, value)]
  }

  lemma {:induction false} SetFirstOccurrences(q: seq<Pair>, name: string, value: string, other: string)
    requires Occurrences(q, name) != []
    ensures Occurrences(SetFirst(q, name, value), other) ==
      if other == name then [value] else Occurrences(q, other)
  {
    var head := if q[0].0 == name then [(name, value)] else [q[0]];
    if q[0].0 == name {
      RemoveNameOccurrences(q[1..], name, other);
      OccurrencesAppend(head, RemoveName(q[1..], name), other);
    } else {
      SetFirstOccurrences(q[1..], name, value, other);
      OccurrencesAppend(head, SetFirst(q[1..], name, value), other);
    }
  }

  /**
   * After `set(name, value)` the name occurs exactly once, with `value`; every
   * other name keeps its values in order. A name already present is updated
   * without growing the list; a new name is appended at the end.
   */
  lemma SetSpec(q: seq<Pair>, name: string, value: string, other: string)
    ensures Occurrences(Set(q, name, value), name) == [value]
    ensures other != name ==> Occurrences(Set(q, name, value), other) == Occurrences(q, other)
    ensures Occurrences(q, name) == [] ==> Set(q, name, value) == q + [(name, value)]
    ensures Occurrences(q, name) != [] ==>
      var k := FirstNamed(q, name);
      k < |Set(q, name, value)| && Set(q, name, value)[..k] == q[..k] && Set(q, name, value)[k] == (name, value)
    ensures RemoveName(Set(q, name, value), name) == RemoveName(q, name)
  {
    if Occurrences(q, name) != [] {
      SetFirstOccurrences(q, name, value, name);
      SetFirstOccurrences(q, name, value, other);
      SetPlacesFirst(q, name, value);
    } else {
      OccurrencesAppend(q, [(name, value)], name);
      OccurrencesAppend(q, [(name, value)], other);
      RemoveNameAppend(q, [(name, value)], name);
    }
  }

  /** The position part of `SetSpec`: the pairs before the first `name` stay, and the rest loses only `name`. */
  lemma SetPlacesFirst(q: seq<Pair>, name: string, value: string)
    requires Occurrences(q, name) != []
    ensures var k := FirstNamed(q, name); var r := SetFirst(q, name, value);
      k < |r| && r[..k] == q[..k] && r[k] == (name, value) && RemoveName(r, name) == RemoveName(q, name)
  {
    var k := FirstNamed(q, name);
    var pre, rest := q[..k], RemoveName(q[k + 1..], name);
    SetFirstShape(q, name, value);
    var r := SetFirst(q, name, value);
    assert r[..k] == pre;
    assert q == pre + [q[k]] + q[k + 1..];
    RemoveAbsentName(pre, name);
    RemoveNameAppend(pre + [q[k]], q[k + 1..], name);
    RemoveNameAppend(pre, [q[k]], name);
    RemoveNameAppend(pre + [(name, value)], rest, name);
    RemoveNameAppend(pre, [(name, value)], name);
    RemoveNameTwice(q[k + 1..], name);
  }

  /** `ps.forEach(p => searchParams.set(p.key, p.value))`. */
  function SetAll(q: seq<Pair>, ps: seq<Pair>): seq<Pair> {
    if ps == [] then q
    else
      var last := ps[|ps| - 1];
      Set(SetAll(q, ps[..|ps| - 1]), last.0, last.1)
  }

  /**
   * After setting every pair of `ps`, a name set by `ps` occurs exactly once,
   * with the value of the last pair of `ps` that names it; any other name
   * keeps exactly the values it had.
   */
  lemma {:induction false} SetAllSpec(q: seq<Pair>, ps: seq<Pair>, name: string)
    ensures Occurrences(SetAll(q, ps), name) ==
      if name in ToMap(ps) then [ToMap(ps)[name]] else Occurrences(q, name)
  {
    if ps != [] {
      var init, last := ps[..|ps| - 1], ps[|ps| - 1];
      SetAllSpec(q, init, name);
      SetSpec(SetAll(q, init), last.0, last.1, name);
    }
  }

  /** The pairs whose name is not in `names`, in list order. */
  function Untouched(q: seq<Pair>, names: set<string>): seq<Pair> {
    if q == [] then []
    else (if q[0].0 in names then [] else [q[0]]) + Untouched(q[1..], names)
  }

  lemma {:induction false} UntouchedRemoveName(q: seq<Pair>, name: string, names: set<string>)
    requires name in names
    ensures Untouched(RemoveName(q, name), names) == Untouched(q, names)
  {
    if q != [] {
      UntouchedRemoveName(q[1..], name, names);
      var head := if q[0].0 == name then [] else [q[0]];
      UntouchedAppend(head, RemoveName(q[1..], name), names);
    }
  }

  lemma {:induction false} UntouchedAppend(a: seq<Pair>, b: seq<Pair>, names: set<string>)
    ensures Untouched(a + b, names) == Untouched(a, names) + Untouched(b, names)
  {
    if a != [] {
      assert (a + b)[1..] == a[1..] + b;
      UntouchedAppend(a[1..], b, names);
    } else {
      assert a + b == b;
    }
  }

  /**
   * Setting only names from `names` leaves the other pairs exactly as they
   * were, in the same relative order.
   */
  lemma {:induction false} SetAllKeepsOthers(q: seq<Pair>, ps: seq<Pair>, names: set<string>)
    requires forall i :: 0 <= i < |ps| ==> ps[i].0 in names
    ensures Untouched(SetAll(q, ps), names) == Untouched(q, names)
  {
    if ps != [] {
      var init, last := ps[..|ps| - 1], ps[|ps| - 1];
      SetAllKeepsOthers(q, init, names);
      var x := SetAll(q, init);
      SetSpec(x, last.0, last.1, last.0);
      UntouchedRemoveName(Set(x, last.0, last.1), last.0, names);
      UntouchedRemoveName(x, last.0, names);
    }
  }
}
