/** The shapes of the browser's `fetch` as the client sees them: header
    objects, responses and the outcome of a request. The network itself is
    not modelled: a reply is an input. */
module Fetch {
  import opened JsValues

  /** A plain header object: name/value entries in insertion order. */
  type Headers = seq<(string, string)>

  /** The value of the first entry named `name`. */
  function Lookup(h: Headers, name: string): (r: Option<string>)
    ensures r.Some? <==> exists i :: 0 <= i < |h| && h[i].0 == name
    decreases |h|
  {
    if |h| == 0 then None
    else if h[0].0 == name then Some(h[0].1)
    else Lookup(h[1..], name)
  }

  predicate UniqueNames(h: Headers) {
    forall i, j :: 0 <= i < j < |h| ==> h[i].0 != h[j].0
  }

  /** The entries of `base`, in order, each taking its value from `extra`
      when `extra` names it too. */
  function Override(base: Headers, extra: Headers): (r: Headers)
    ensures |r| == |base|
    ensures forall i :: 0 <= i < |base| ==> r[i].0 == base[i].0
    decreases |base|
  {
    if |base| == 0 then []
    else [(base[0].0, Lookup(extra, base[0].0).GetOr(base[0].1))] + Override(base[1..], extra)
  }

  /** The entries of `extra` whose names `base` lacks, in order. */
  function Fresh(extra: Headers, base: Headers): (r: Headers)
    ensures forall i :: 0 <= i < |r| ==> Lookup(base, r[i].0).None?
    decreases |extra|
  {
    if |extra| == 0 then []
    else (if Lookup(base, extra[0].0).None? then [extra[0]] else []) + Fresh(extra[1..], base)
  }

  /** The object spread `{ ...base, ...extra }`: names of `base` first in
      their order, then the new names of `extra`; values of `extra` win. */
  function Merge(base: Headers, extra: Headers): (r: Headers)
    ensures |r| >= |base|
    ensures forall i :: 0 <= i < |base| ==> r[i].0 == base[i].0
  {
    Override(base, extra) + Fresh(extra, base)
  }

  lemma {:induction false} LookupAppend(a: Headers, b: Headers, name: string)
    ensures Lookup(a + b, name) == if Lookup(a, name).Some? then Lookup(a, name) else Lookup(b, name)
    decreases |a|
  {
    if |a| == 0 {
      assert a + b == b;
    } else {
      LookupAppend(a[1..], b, name);
      assert (a + b)[1..] == a[1..] + b;
    }
  }

  lemma {:induction false} LookupOverride(base: Headers, extra: Headers, name: string)
    ensures Lookup(Override(base, extra), name) ==
      if Lookup(base, name).Some? then Some(Lookup(extra, name).GetOr(Lookup(base, name).value)) else None
    decreases |base|
  {
    if |base| > 0 {
      LookupOverride(base[1..], extra, name);
    }
  }

  lemma {:induction false} LookupFresh(extra: Headers, base: Headers, name: string)
    ensures Lookup(Fresh(extra, base), name) == if Lookup(base, name).Some? then None else Lookup(extra, name)
    decreases |extra|
  {
    if |extra| > 0 {
      LookupFresh(extra[1..], base, name);
      var head := if Lookup(base, extra[0].0).None? then [extra[0]] else [];
      LookupAppend(head, Fresh(extra[1..], base), name);
    }
  }

  /** Reading a merged header: the caller's value when it gives one,
      otherwise the default's. */
  lemma MergeLookup(base: Headers, extra: Headers, name: string)
    ensures Lookup(Merge(base, extra), name) ==
      if Lookup(extra, name).Some? then Lookup(extra, name) else Lookup(base, name)
  {
    LookupAppend(Override(base, extra), Fresh(extra, base), name);
    LookupOverride(base, extra, name);
    LookupFresh(extra, base, name);
  }

  /** `response.ok`. */
  predicate IsOk(status: int) {
    200 <= status <= 299
  }

  /** A response whose JSON body is `body`: `None` when `response.json()`
      rejects. */
  datatype Response<T> = Response(status: int, statusText: string, body: Option<T>) {
    predicate Ok() {
      IsOk(status)
    }
  }

  /** What an awaited request produced: a rejection with its message, or a
      response. */
  datatype Reply<R> = Threw(message: string) | Responded(response: R)
}
