/**
 * The search box: it keeps a local term, writes it to the `search` query
 * parameter (or removes the parameter for an empty term) while keeping every
 * other parameter, and pushes the new URL; a debounced check pushes only when
 * the term differs from the parameter.
 */
module Search {
  import opened Wrappers
  import opened Effects

  /** One name/value pair of a `URLSearchParams` list; names may repeat. */
  datatype Param = Param(name: string, value: string)

  const SEARCH_KEY := "search"

  /** `params.get(name)`: the value of the first pair with that name. */
  function Get(ps: seq<Param>, name: string): (r: Option<string>)
    ensures r.None? <==> forall i :: 0 <= i < |ps| ==> ps[i].name != name
    ensures r.Some? ==> exists k :: 0 <= k < |ps| && ps[k] == Param(name, r.value)
                                    && forall j :: 0 <= j < k ==> ps[j].name != name
  {
    if ps == [] then None
    else if ps[0].name == name then Some(ps[0].value)
    else
      var r := Get(ps[1..], name);
      assert r.Some? ==> exists k :: 1 <= k < |ps| && ps[k] == Param(name, r.value)
                                     && forall j :: 0 <= j < k ==> ps[j].name != name by {
        if r.Some? {
          var k :| 0 <= k < |ps[1..]| && ps[1..][k] == Param(name, r.value)
                   && forall j :: 0 <= j < k ==> ps[1..][j].name != name;
          assert ps[k + 1] == Param(name, r.value);
          assert forall j :: 0 <= j < k + 1 ==> ps[j].name != name by {
            forall j | 0 <= j < k + 1 ensures ps[j].name != name {
              if j > 0 { assert ps[j] == ps[1..][j - 1]; }
            }
          }
        }
      }
      r
  }

  /** The pairs whose name is not `name`, in order. */
  function Without(ps: seq<Param>, name: string): (r: seq<Param>)
    ensures forall p :: p in r <==> p in ps && p.name != name
    ensures |r| <= |ps|
  {
    if ps == [] then []
    else if ps[0].name == name then Without(ps[1..], name)
    else [ps[0]] + Without(ps[1..], name)
  }

  /** The filter keeps order: filtering a concatenation concatenates the filtered parts. */
  lemma {:induction false} WithoutAppend(a: seq<Param>, b: seq<Param>, name: string)
    ensures Without(a + b, name) == Without(a, name) + Without(b, name)
  {
    if a == [] {
      assert a + b == b;
    } else {
      var ab := a + b;
      assert ab[0] == a[0];
      assert ab[1..] == a[1..] + b;
      WithoutAppend(a[1..], b, name);
    }
  }

  /** `params.delete(name)`: removes every pair with that name. */
  function Delete(ps: seq<Param>, name: string): (r: seq<Param>)
    ensures Get(r, name).None?
    ensures Without(r, name) == Without(ps, name)
  {
    WithoutTwice(ps, name);
    Without(ps, name)
  }

  lemma {:induction false} WithoutTwice(ps: seq<Param>, name: string)
    ensures Without(Without(ps, name), name) == Without(ps, name)
  {
    if ps != [] {
      WithoutTwice(ps[1..], name);
      if ps[0].name != name {
        assert ([ps[0]] + Without(ps[1..], name))[1..] == Without(ps[1..], name);
      }
    }
  }

  /**
   * `params.set(name, value)`: the first pair with that name gets the value
   * and the other pairs with that name go; with no such pair, one is appended.
   */
  function Set(ps: seq<Param>, name: string, value: string): (r: seq<Param>)
    ensures Get(r, name) == Some(value)
    ensures Without(r, name) == Without(ps, name)
    ensures |r| == |Without(ps, name)| + 1
  {
    if ps == [] then [Param(name, value)]
    else if ps[0].name == name then
      WithoutTwice(ps[1..], name);
      [Param(name, value)] + Without(ps[1..], name)
    else
      var rest := Set(ps[1..], name, value);
      assert ([ps[0]] + rest)[1..] == rest;
      [ps[0]] + rest
  }

  /** With no pair of that name, the new pair is appended after all the others. */
  lemma {:induction false} SetAppendsWhenAbsent(ps: seq<Param>, name: string, value: string)
    requires forall j :: 0 <= j < |ps| ==> ps[j].name != name
    ensures Set(ps, name, value) == ps + [Param(name, value)]
  {
    if ps != [] {
      var t := ps[1..];
      forall j | 0 <= j < |t| ensures t[j].name != name {
        assert t[j] == ps[j + 1];
      }
      SetAppendsWhenAbsent(t, name, value);
      ConsAppend(ps, [Param(name, value)]);
    }
  }

  lemma ConsAppend<T>(s: seq<T>, tail: seq<T>)
    requires 1 <= |s|
    ensures s + tail == [s[0]] + (s[1..] + tail)
  {
    assert s == [s[0]] + s[1..];
  }

  /** With a pair of that name, the new pair takes the place of the first one and later ones go. */
  lemma {:induction false} SetReplacesFirst(ps: seq<Param>, name: string, value: string, k: nat)
    requires k < |ps| && ps[k].name == name
    requires forall j :: 0 <= j < k ==> ps[j].name != name
    ensures Set(ps, name, value) == ps[..k] + ([Param(name, value)] + Without(ps[k + 1..], name))
  {
    if k == 0 {
      assert ps[..0] == [];
    } else {
      var t := ps[1..];
      assert ps[0].name != name;
      forall j | 0 <= j < k - 1 ensures t[j].name != name {
        assert t[j] == ps[j + 1];
      }
      SetReplacesFirst(t, name, value, k - 1);
      assert t[k..] == ps[k + 1..];
      ConsPrefix(ps, k, [Param(name, value)] + Without(ps[k + 1..], name));
    }
  }

  lemma ConsPrefix<T>(s: seq<T>, k: nat, tail: seq<T>)
    requires 1 <= k <= |s|
    ensures s[..k] + tail == [s[0]] + (s[1..][..k - 1] + tail)
  {
    assert s[..k] == [s[0]] + s[1..][..k - 1];
  }

  /** Every other parameter reads the same after the pairs of `name` are replaced or removed. */
  lemma {:induction false} GetOther(ps: seq<Param>, qs: seq<Param>, name: string, other: string)
    requires Without(ps, name) == Without(qs, name)
    requires other != name
    ensures Get(ps, other) == Get(qs, other)
  {
    GetWithout(ps, name, other);
    GetWithout(qs, name, other);
  }

  lemma {:induction false} GetWithout(ps: seq<Param>, name: string, other: string)
    requires other != name
    ensures Get(Without(ps, name), other) == Get(ps, other)
  {
    if ps != [] {
      GetWithout(ps[1..], name, other);
      if ps[0].name != name {
        assert ([ps[0]] + Without(ps[1..], name))[1..] == Without(ps[1..], name);
      }
    }
  }

  /** `updateSearchParam`'s new parameter list: set `search` for a non-empty term, delete it for ''. */
  function UpdatedParams(ps: seq<Param>, term: string): (r: seq<Param>)
    ensures term != "" ==> Get(r, SEARCH_KEY) == Some(term)
    ensures term == "" ==> r == Without(ps, SEARCH_KEY) && Get(r, SEARCH_KEY).None?
    ensures Without(r, SEARCH_KEY) == Without(ps, SEARCH_KEY)
    // where the `search` pair lands fixes the order of the pushed URL's parameters
    ensures term != "" && Get(ps, SEARCH_KEY).None? ==> r == ps + [Param(SEARCH_KEY, term)]
    ensures term != "" ==>
      forall k :: 0 <= k < |ps| && ps[k].name == SEARCH_KEY && (forall j :: 0 <= j < k ==> ps[j].name != SEARCH_KEY)
        ==> r == ps[..k] + ([Param(SEARCH_KEY, term)] + Without(ps[k + 1..], SEARCH_KEY))
  {
    if term != "" then
      assert forall k :: 0 <= k < |ps| && ps[k].name == SEARCH_KEY && (forall j :: 0 <= j < k ==> ps[j].name != SEARCH_KEY)
                   ==> Set(ps, SEARCH_KEY, term) == ps[..k] + ([Param(SEARCH_KEY, term)] + Without(ps[k + 1..], SEARCH_KEY)) by {
        forall k | 0 <= k < |ps| && ps[k].name == SEARCH_KEY && (forall j :: 0 <= j < k ==> ps[j].name != SEARCH_KEY) {
          SetReplacesFirst(ps, SEARCH_KEY, term, k);
        }
      }
      if Get(ps, SEARCH_KEY).None? then
        SetAppendsWhenAbsent(ps, SEARCH_KEY, term);
        Set(ps, SEARCH_KEY, term)
      else
        Set(ps, SEARCH_KEY, term)
    else Delete(ps, SEARCH_KEY)
  }

  /** The other parameters are untouched by an update, whatever the term. */
  lemma UpdateKeepsOtherParams(ps: seq<Param>, term: string, other: string)
    requires other != SEARCH_KEY
    ensures Get(UpdatedParams(ps, term), other) == Get(ps, other)
  {
    GetOther(UpdatedParams(ps, term), ps, SEARCH_KEY, other);
  }

  /** `params.toString()` without percent-encoding: `name=value` pairs joined by '&'. */
  function Serialize(ps: seq<Param>): string {
    if ps == [] then ""
    else if |ps| == 1 then ps[0].name + "=" + ps[0].value
    else ps[0].name + "=" + ps[0].value + "&" + Serialize(ps[1..])
  }

  /** The URL `updateSearchParam` pushes: `<pathname>?<serialized params>`. */
  function SearchUrl(pathname: string, ps: seq<Param>, term: string): string {
    pathname + "?" + Serialize(UpdatedParams(ps, term))
  }

  /** `searchParams.get('search') || ''`: the term in the URL, absence read as ''. */
  function CurrentTerm(ps: seq<Param>): (t: string)
    ensures Get(ps, SEARCH_KEY).None? ==> t == ""
    ensures Get(ps, SEARCH_KEY).Some? ==> t == Get(ps, SEARCH_KEY).value
  {
    OrElse(Get(ps, SEARCH_KEY).GetOr(""), "")
  }

  /** The debounced effect's condition: the local term differs from the URL's. */
  predicate ShouldPush(term: string, ps: seq<Param>) {
    term != CurrentTerm(ps)
  }

  /** Once the URL carries the pushed parameters, the debounced check stops firing. */
  lemma PushSettles(ps: seq<Param>, term: string)
    ensures CurrentTerm(UpdatedParams(ps, term)) == term
    ensures !ShouldPush(term, UpdatedParams(ps, term))
  {
  }

  /** The search box component: its local term, the URL it was rendered with and the pushes made. */
  class SearchBar {
    var pathname: string
    var params: seq<Param>
    var searchTerm: string
    var effects: seq<Effect>

    /** The local term starts as the URL's term, or '' when there is none. */
    constructor (pathname: string, params: seq<Param>)
      ensures this.pathname == pathname && this.params == params
      ensures searchTerm == CurrentTerm(params) && effects == []
    {
      this.pathname := pathname;
      this.params := params;
      searchTerm := CurrentTerm(params);
      effects := [];
    }

    /** `updateSearchParam(term)`. */
    method UpdateSearchParam(term: string)
      modifies this`effects
      ensures effects == old(effects) + [Push(SearchUrl(pathname, params, term))]
    {
      var next := UpdatedParams(params, term);
      effects := effects + [Push(pathname + "?" + Serialize(next))];
    }

    /** `handleSearch`: typing only changes the local term. */
    method HandleSearch(value: string)
      modifies this`searchTerm
      ensures searchTerm == value
    {
      searchTerm := value;
    }

    /** `handleSubmit`: pushes the current term, changed or not. */
    method HandleSubmit()
      modifies this`effects
      ensures effects == old(effects) + [Push(SearchUrl(pathname, params, searchTerm))]
    {
      UpdateSearchParam(searchTerm);
    }

    /** `clearSearch`: empties the local term and pushes a URL without `search`. */
    method ClearSearch()
      modifies this`searchTerm, this`effects
      ensures searchTerm == ""
      ensures effects == old(effects) + [Push(SearchUrl(pathname, params, ""))]
    {
      searchTerm := "";
      UpdateSearchParam("");
    }

    /** The debounce timer firing: push only when the term differs from the URL's. */
    method DebounceElapsed()
      modifies this`effects
      ensures ShouldPush(searchTerm, params) ==> effects == old(effects) + [Push(SearchUrl(pathname, params, searchTerm))]
      ensures !ShouldPush(searchTerm, params) ==> effects == old(effects)
    {
      if searchTerm != CurrentTerm(params) {
        UpdateSearchParam(searchTerm);
      }
    }

    /** The router re-renders with new query parameters; the local term is state and stays. */
    method ParamsChanged(newParams: seq<Param>)
      modifies this`params
      ensures params == newParams
    {
      params := newParams;
    }
  }

  /** Typing a term, waiting, and landing on the pushed URL pushes once and then settles. */
  method TypeAndSettle(bar: SearchBar, term: string)
    modifies bar
    ensures bar.searchTerm == term
    ensures |bar.effects| <= |old(bar.effects)| + 1
    ensures !ShouldPush(bar.searchTerm, bar.params)
  {
    bar.HandleSearch(term);
    bar.DebounceElapsed();
    bar.ParamsChanged(UpdatedParams(bar.params, term));
    PushSettles(old(bar.params), term);
    bar.DebounceElapsed();
  }
}
