/** Header sets and the merge that `Get` performs before handing a request
    to net/http. */
module Headers {
  import opened Wrappers

  /** A header set as `http.Header` holds it: each header name maps to its
      ordered list of values. Names are compared exactly; the merge indexes
      the map directly and never canonicalises a name. */
  type Header = map<string, seq<string>>

  /** The outgoing header set of one request. `defaults` are the client's
      stored headers, `override` the per-call map (`None` for a nil map).
      A nil override stays nil: defaults are only ever merged INTO a present
      override, never injected on their own. For a name the override already
      carries, the override's values are kept as they are: the concatenation
      with the default values is computed and then dropped. */
  function Merge(defaults: Header, override: Option<Header>): (r: Option<Header>)
    ensures r.None? <==> override.None?
    ensures override.Some? ==> r.value.Keys == override.value.Keys + defaults.Keys
    ensures override.Some? ==>
      forall k :: k in override.value ==> r.value[k] == override.value[k]
    ensures override.Some? ==>
      forall k :: k in defaults && k !in override.value ==> r.value[k] == defaults[k]
  {
    match override
    case None => None
    case Some(o) => Some(map k | k in o.Keys + defaults.Keys :: if k in o then o[k] else defaults[k])
  }

  /** The merge loop as the source writes it: visit the default names one at
      a time, in whatever order the map iteration yields them (here: any
      order, chosen by `:|`), and add each name the override map lacks.
      Whatever the order, the outcome is `Merge`. */
  method MergeLoop(defaults: Header, override: Option<Header>) returns (r: Option<Header>)
    ensures r == Merge(defaults, override)
  {
    if override.None? {
      return None;
    }
    var h := override.value;
    var pending := defaults.Keys;
    while pending != {}
      invariant pending <= defaults.Keys
      invariant h.Keys == override.value.Keys + (defaults.Keys - pending)
      invariant forall k :: k in override.value ==> h[k] == override.value[k]
      invariant forall k :: k in h && k !in override.value ==> k in defaults && h[k] == defaults[k]
      decreases pending
    {
      var k :| k in pending;
      var v := defaults[k];
      if k !in h {
        h := h[k := v];
      } else {
        // The source concatenates here and discards the result.
        var joined := h[k] + v;
      }
      pending := pending - {k};
    }
    var m := Merge(defaults, override).value;
    assert h.Keys == m.Keys;
    assert forall k :: k in h ==> h[k] == m[k];
    assert h == m;
    r := Some(h);
  }

  /** Merging is Dafny's right-biased map union with the override on the
      right: the override wins every collision. */
  lemma MergeIsRightBiasedUnion(defaults: Header, override: Header)
    ensures Merge(defaults, Some(override)) == Some(defaults + override)
  {
    var m := Merge(defaults, Some(override)).value;
    var u := defaults + override;
    assert m.Keys == u.Keys;
    assert forall k :: k in m ==> m[k] == u[k];
    assert m == u;
  }

  /** Merging a second time with the same defaults changes nothing. Because
      the source mutates the caller's map in place, this is what a caller
      sees when it reuses the same override for another request. */
  lemma MergeIdempotent(defaults: Header, override: Option<Header>)
    ensures Merge(defaults, Merge(defaults, override)) == Merge(defaults, override)
  {
    if override.Some? {
      var once := Merge(defaults, override).value;
      var twice := Merge(defaults, Some(once)).value;
      assert twice.Keys == once.Keys;
      assert forall k :: k in twice ==> twice[k] == once[k];
      assert twice == once;
    }
  }

  /** Merging with `first` and then with `second` is one merge with the
      union of both default sets in which `first` wins every collision.
      This is what a reused override map accumulates across clients. */
  lemma MergeTwice(first: Header, second: Header, override: Option<Header>)
    ensures Merge(second, Merge(first, override)) == Merge(second + first, override)
  {
    if override.Some? {
      var twice := Merge(second, Merge(first, override)).value;
      var once := Merge(second + first, override).value;
      assert twice.Keys == once.Keys;
      assert forall k :: k in twice ==> twice[k] == once[k];
      assert twice == once;
    }
  }

  /** An override that already names every default header comes out
      unchanged: no default value reaches the request, not even appended. */
  lemma CollisionKeepsOverride(defaults: Header, override: Header)
    requires defaults.Keys <= override.Keys
    ensures Merge(defaults, Some(override)) == Some(override)
  {
    var m := Merge(defaults, Some(override)).value;
    assert m.Keys == override.Keys;
    assert forall k :: k in m ==> m[k] == override[k];
    assert m == override;
  }

  /** A present but empty override receives exactly the defaults. */
  lemma EmptyOverrideGetsDefaults(defaults: Header)
    ensures Merge(defaults, Some(map[])) == Some(defaults)
  {
    var m := Merge(defaults, Some(map[])).value;
    assert m.Keys == defaults.Keys;
    assert forall k :: k in m ==> m[k] == defaults[k];
    assert m == defaults;
  }
}
