/**
 * The query of a `URL` object as the adapter uses it: an ordered list of name-value pairs
 * that `searchParams.set` updates in place (the URL Standard's URLSearchParams). Parsing a
 * URL and serialising it as `.href` are left to a caller-supplied function.
 */
module UrlSearchParams {

  type Param = (string, string)

  /** Some pair in `q` is named `n`. */
  predicate HasName(q: seq<Param>, n: string)
  {
    exists i :: 0 <= i < |q| && q[i].0 == n
  }

  /** The pairs of `q` not named `n`, in order. */
  function Without(q: seq<Param>, n: string): (r: seq<Param>)
    ensures !HasName(r, n)
    ensures |r| <= |q|
  {
    if q == [] then []
    else if q[0].0 == n then Without(q[1..], n)
    else [q[0]] + Without(q[1..], n)
  }

  /** The values of the pairs of `q` named `n`, in order. */
  function ValuesOf(q: seq<Param>, n: string): seq<string>
  {
    if q == [] then []
    else (if q[0].0 == n then [q[0].1] else []) + ValuesOf(q[1..], n)
  }

  /** Gives the first pair named `n` the value `v` and removes the later pairs named `n`. */
  function Collapse(q: seq<Param>, n: string, v: string): seq<Param>
  {
    if q == [] then []
    else if q[0].0 == n then [(n, v)] + Without(q[1..], n)
    else [q[0]] + Collapse(q[1..], n, v)
  }

  /** `searchParams.set(n, v)`: collapse onto the first pair named `n`, or append when there is none. */
  function SetParam(q: seq<Param>, n: string, v: string): seq<Param>
  {
    if HasName(q, n) then Collapse(q, n, v) else q + [(n, v)]
  }

  lemma {:induction false} WithoutAppend(a: seq<Param>, b: seq<Param>, n: string)
    ensures Without(a + b, n) == Without(a, n) + Without(b, n)
  {
    if a != [] {
      assert (a + b)[1..] == a[1..] + b;
      WithoutAppend(a[1..], b, n);
    } else {
      assert a + b == b;
    }
  }

  lemma {:induction false} ValuesOfAppend(a: seq<Param>, b: seq<Param>, n: string)
    ensures ValuesOf(a + b, n) == ValuesOf(a, n) + ValuesOf(b, n)
  {
    if a != [] {
      assert (a + b)[1..] == a[1..] + b;
      ValuesOfAppend(a[1..], b, n);
    } else {
      assert a + b == b;
    }
  }

  lemma {:induction false} WithoutAbsent(q: seq<Param>, n: string)
    requires !HasName(q, n)
    ensures Without(q, n) == q
  {
    if q != [] {
      assert !HasName(q[1..], n) by {
        forall i | 0 <= i < |q[1..]| ensures q[1..][i].0 != n {
          assert q[1..][i] == q[i + 1];
        }
      }
      WithoutAbsent(q[1..], n);
    }
  }

  lemma {:induction false} ValuesOfAbsent(q: seq<Param>, n: string)
    requires !HasName(q, n)
    ensures ValuesOf(q, n) == []
  {
    if q != [] {
      assert !HasName(q[1..], n) by {
        forall i | 0 <= i < |q[1..]| ensures q[1..][i].0 != n {
          assert q[1..][i] == q[i + 1];
        }
      }
      ValuesOfAbsent(q[1..], n);
    }
  }

  /** Collapsing a list with no pair named `n` changes nothing. */
  lemma {:induction false} CollapseAbsent(q: seq<Param>, n: string, v: string)
    requires !HasName(q, n)
    ensures Collapse(q, n, v) == q
  {
    if q != [] {
      assert !HasName(q[1..], n) by {
        forall i | 0 <= i < |q[1..]| ensures q[1..][i].0 != n {
          assert q[1..][i] == q[i + 1];
        }
      }
      CollapseAbsent(q[1..], n, v);
    }
  }

  /** How collapsing a list grows when one more pair is appended: what Set's loop relies on. */
  lemma {:induction false} CollapseSnoc(q: seq<Param>, p: Param, n: string, v: string)
    requires HasName(q, n)
    ensures Collapse(q + [p], n, v) == Collapse(q, n, v) + (if p.0 == n then [] else [p])
  {
    assert (q + [p])[1..] == q[1..] + [p];
    if q[0].0 == n {
      WithoutAppend(q[1..], [p], n);
    } else {
      assert HasName(q[1..], n) by {
        var i :| 0 <= i < |q| && q[i].0 == n;
        assert q[1..][i - 1] == q[i];
      }
      CollapseSnoc(q[1..], p, n, v);
    }
  }

  /** After collapsing, exactly one pair is named `n`, and its value is `v`. */
  lemma {:induction false} CollapseValues(q: seq<Param>, n: string, v: string)
    requires HasName(q, n)
    ensures ValuesOf(Collapse(q, n, v), n) == [v]
  {
    if q[0].0 == n {
      assert Collapse(q, n, v) == [(n, v)] + Without(q[1..], n);
      ValuesOfAbsent(Without(q[1..], n), n);
      ValuesOfAppend([(n, v)], Without(q[1..], n), n);
    } else {
      assert HasName(q[1..], n) by {
        var i :| 0 <= i < |q| && q[i].0 == n;
        assert q[1..][i - 1] == q[i];
      }
      CollapseValues(q[1..], n, v);
      ValuesOfAppend([q[0]], Collapse(q[1..], n, v), n);
    }
  }

  /** Collapsing onto `n` keeps every pair with another name, in order. */
  lemma {:induction false} CollapseOthers(q: seq<Param>, n: string, v: string)
    ensures Without(Collapse(q, n, v), n) == Without(q, n)
  {
    if q != [] {
      if q[0].0 == n {
        WithoutAppend([(n, v)], Without(q[1..], n), n);
        WithoutAbsent(Without(q[1..], n), n);
      } else {
        CollapseOthers(q[1..], n, v);
        WithoutAppend([q[0]], Collapse(q[1..], n, v), n);
      }
    }
  }

  /** After `set(n, v)` the list holds exactly one pair named `n`, with the value `v`. */
  lemma SetParamValue(q: seq<Param>, n: string, v: string)
    ensures ValuesOf(SetParam(q, n, v), n) == [v]
  {
    if HasName(q, n) {
      CollapseValues(q, n, v);
    } else {
      ValuesOfAppend(q, [(n, v)], n);
      ValuesOfAbsent(q, n);
    }
  }

  /** `set(n, v)` leaves the pairs with other names as they were, in the same order. */
  lemma SetParamOthers(q: seq<Param>, n: string, v: string)
    ensures Without(SetParam(q, n, v), n) == Without(q, n)
  {
    if HasName(q, n) {
      CollapseOthers(q, n, v);
    } else {
      WithoutAppend(q, [(n, v)], n);
    }
  }

  /** The `searchParams` of one URL object. */
  class SearchParams {
    var list: seq<Param>

    /** The search parameters of a URL without a query. */
    constructor ()
      ensures list == []
    {
      list := [];
    }

    /** `searchParams.set(name, value)` */
    method Set(name: string, value: string)
      modifies this
      ensures list == SetParam(old(list), name, value)
    {
      var q := list;
      var out: seq<Param> := [];
      var found := false;
      var i := 0;
      while i < |q|
        invariant 0 <= i <= |q|
        invariant found == HasName(q[..i], name)
        invariant out == if found then Collapse(q[..i], name, value) else q[..i]
      {
        var p := q[i];
        assert q[..i + 1] == q[..i] + [p];
        if found {
          CollapseSnoc(q[..i], p, name, value);
          if p.0 != name {
            out := out + [p];
          }
        } else if p.0 == name {
          CollapseAppendFirst(q[..i], p, name, value);
          out := out + [(name, value)];
          found := true;
        } else {
          out := out + [p];
        }
        i := i + 1;
      }
      assert q[..i] == q;
      if !found {
        out := out + [(name, value)];
      }
      list := out;
    }
  }

  /** Appending the first pair named `n` to a list without one: it takes the value `v` in place. */
  lemma {:induction false} CollapseAppendFirst(q: seq<Param>, p: Param, n: string, v: string)
    requires !HasName(q, n) && p.0 == n
    ensures Collapse(q + [p], n, v) == q + [(n, v)]
  {
    if q == [] {
      assert [p] + [] == [p];
      assert Collapse([p], n, v) == [(n, v)] + Without([], n);
    } else {
      assert (q + [p])[1..] == q[1..] + [p];
      assert !HasName(q[1..], n) by {
        forall i | 0 <= i < |q[1..]| ensures q[1..][i].0 != n {
          assert q[1..][i] == q[i + 1];
        }
      }
      CollapseAppendFirst(q[1..], p, n, v);
    }
  }

  /** A `URL` object: a fixed location and its mutable `searchParams`. */
  class Url {
    const base: string
    const searchParams: SearchParams

    /** `new URL(base)` for a base without a query. */
    constructor (base: string)
      ensures this.base == base && fresh(searchParams) && searchParams.list == []
    {
      this.base := base;
      searchParams := new SearchParams();
    }

    /** `.href`, with the serialisation of location and query supplied by the caller. */
    function Href(serialize: (string, seq<Param>) -> string): string
      reads this, searchParams
    {
      serialize(base, searchParams.list)
    }
  }
}
