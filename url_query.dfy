/**
 * The query component of the page's address as a list of name/value pairs,
 * with the `get`, `getAll` and `set` operations of `URLSearchParams`
 * (section 6.2 of the WHATWG URL Standard). Percent-encoding and the
 * serialisation to text are not modelled: the list is the query.
 */
module UrlQuery {
  import opened Wrappers

  type Params = seq<(string, string)>

  /** `getAll(name)`: the values of the pairs called `name`, in list order. */
  function GetAll(q: Params, name: string): (r: seq<string>)
    ensures |r| <= |q|
  {
    if q == [] then []
    else (if q[0].0 == name then [q[0].1] else []) + GetAll(q[1..], name)
  }

  /** `get(name)`: the value of the first pair called `name`, or `null`. */
  function GetParam(q: Params, name: string): (r: Option<string>)
    ensures r == if GetAll(q, name) == [] then None else Some(GetAll(q, name)[0])
  {
    if q == [] then None
    else if q[0].0 == name then Some(q[0].1)
    else GetParam(q[1..], name)
  }

  /** The pairs whose name is not in `names`, in list order. */
  function Without(q: Params, names: set<string>): (r: Params)
    ensures |r| <= |q|
  {
    if q == [] then []
    else (if q[0].0 in names then [] else [q[0]]) + Without(q[1..], names)
  }

  /**
   * `set(name, value)`: if some pair is called `name`, the first such pair
   * takes `value` and the others are removed; otherwise the pair is appended.
   */
  function SetParam(q: Params, name: string, value: string): (r: Params)
    ensures |r| <= |q| + 1
  {
    if q == [] then [(name, value)]
    else if q[0].0 == name then [(name, value)] + Without(q[1..], {name})
    else [q[0]] + SetParam(q[1..], name, value)
  }

  /** The first position of a pair called `name`. */
  predicate IsFirstIndex(q: Params, name: string, i: nat) {
    i < |q| && q[i].0 == name && forall j :: 0 <= j < i ==> q[j].0 != name
  }

  lemma {:induction false} GetAllAppend(a: Params, b: Params, name: string)
    ensures GetAll(a + b, name) == GetAll(a, name) + GetAll(b, name)
  {
    if a == [] {
      assert a + b == b;
    } else {
      assert (a + b)[1..] == a[1..] + b;
      GetAllAppend(a[1..], b, name);
    }
  }

  lemma {:induction false} WithoutAppend(a: Params, b: Params, names: set<string>)
    ensures Without(a + b, names) == Without(a, names) + Without(b, names)
  {
    if a == [] {
      assert a + b == b;
    } else {
      assert (a + b)[1..] == a[1..] + b;
      WithoutAppend(a[1..], b, names);
    }
  }

  /** Removing names hides exactly the values of those names. */
  lemma {:induction false} GetAllWithout(q: Params, names: set<string>, name: string)
    ensures GetAll(Without(q, names), name) == if name in names then [] else GetAll(q, name)
  {
    if q != [] {
      var head := if q[0].0 in names then [] else [q[0]];
      GetAllAppend(head, Without(q[1..], names), name);
      GetAllWithout(q[1..], names, name);
    }
  }

  lemma {:induction false} WithoutWithout(q: Params, a: set<string>, b: set<string>)
    ensures Without(Without(q, a), b) == Without(q, a + b)
  {
    if q != [] {
      var head := if q[0].0 in a then [] else [q[0]];
      WithoutAppend(head, Without(q[1..], a), b);
      WithoutWithout(q[1..], a, b);
    }
  }

  /** Removing a name no pair carries changes nothing. */
  lemma {:induction false} WithoutAbsent(q: Params, name: string)
    requires GetAll(q, name) == []
    ensures Without(q, {name}) == q
  {
    if q != [] {
      WithoutAbsent(q[1..], name);
    }
  }

  /** After `set`, `getAll(name)` is exactly the one value written. */
  lemma {:induction false} SetParamGetAll(q: Params, name: string, value: string)
    ensures GetAll(SetParam(q, name, value), name) == [value]
  {
    if q != [] {
      if q[0].0 == name {
        GetAllAppend([(name, value)], Without(q[1..], {name}), name);
        GetAllWithout(q[1..], {name}, name);
      } else {
        GetAllAppend([q[0]], SetParam(q[1..], name, value), name);
        SetParamGetAll(q[1..], name, value);
      }
    }
  }

  /** `set` leaves the values of every other name as they were. */
  lemma {:induction false} SetParamOther(q: Params, name: string, value: string, other: string)
    requires other != name
    ensures GetAll(SetParam(q, name, value), other) == GetAll(q, other)
  {
    if q != [] {
      if q[0].0 == name {
        GetAllAppend([(name, value)], Without(q[1..], {name}), other);
        GetAllWithout(q[1..], {name}, other);
      } else {
        GetAllAppend([q[0]], SetParam(q[1..], name, value), other);
        SetParamOther(q[1..], name, value, other);
      }
    }
  }

  /** `set` leaves the pairs of other names untouched, in their order. */
  lemma {:induction false} SetParamKeepsOthers(q: Params, name: string, value: string, names: set<string>)
    requires name in names
    ensures Without(SetParam(q, name, value), names) == Without(q, names)
  {
    if q == [] {
      assert Without([(name, value)], names) == [];
    } else if q[0].0 == name {
      WithoutAppend([(name, value)], Without(q[1..], {name}), names);
      WithoutWithout(q[1..], {name}, names);
      assert {name} + names == names;
    } else {
      WithoutAppend([q[0]], SetParam(q[1..], name, value), names);
      SetParamKeepsOthers(q[1..], name, value, names);
    }
  }

  /** `set` with the one value a name already has changes nothing. */
  lemma {:induction false} SetParamFixed(q: Params, name: string, value: string)
    requires GetAll(q, name) == [value]
    ensures SetParam(q, name, value) == q
  {
    if q[0].0 == name {
      assert GetAll(q, name) == [q[0].1] + GetAll(q[1..], name);
      assert GetAll(q, name)[0] == q[0].1;
      assert GetAll(q[1..], name) == [];
      WithoutAbsent(q[1..], name);
    } else {
      assert GetAll(q, name) == GetAll(q[1..], name);
      SetParamFixed(q[1..], name, value);
    }
  }

  /** `set` is idempotent. */
  lemma SetParamIdempotent(q: Params, name: string, value: string)
    ensures SetParam(SetParam(q, name, value), name, value) == SetParam(q, name, value)
  {
    SetParamGetAll(q, name, value);
    SetParamFixed(SetParam(q, name, value), name, value);
  }

  /**
   * Where `set` puts the value when some pair is called `name`: at the
   * position of the first such pair, with everything before it kept and the
   * later pairs of that name removed.
   */
  lemma {:induction false} SetParamPosition(q: Params, name: string, value: string, i: nat)
    requires IsFirstIndex(q, name, i)
    ensures SetParam(q, name, value) == q[..i] + [(name, value)] + Without(q[i + 1..], {name})
  {
    if i > 0 {
      SetParamPosition(q[1..], name, value, i - 1);
      assert q[1..][..i - 1] == q[1..i];
      assert q[1..][i - 1 + 1..] == q[i + 1..];
      assert q[..i] == [q[0]] + q[1..i];
    }
  }

  /** When no pair is called `name`, `set` appends one. */
  lemma {:induction false} SetParamAppends(q: Params, name: string, value: string)
    requires GetParam(q, name) == None
    ensures SetParam(q, name, value) == q + [(name, value)]
  {
    if q != [] {
      SetParamAppends(q[1..], name, value);
      assert q == [q[0]] + q[1..];
    }
  }

  /**
   * A `URLSearchParams` object: created from a query, then updated in place
   * by successive `Set` calls.
   */
  class SearchParams {
    var pairs: Params

    constructor (init: Params)
      ensures pairs == init
    {
      pairs := init;
    }

    function Get(name: string): Option<string>
      reads this
    {
      GetParam(pairs, name)
    }

    method Set(name: string, value: string)
      modifies this
      ensures pairs == SetParam(old(pairs), name, value)
    {
      pairs := SetParam(pairs, name, value);
    }
  }
}
