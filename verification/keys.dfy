/**
  Credential lists read from the environment: `[A, B].filter(Boolean)`, which
  drops unset (`undefined`) and empty-string values and keeps the rest in order.
 */
module Keys {
  import opened Outcomes
  import Sequences

  /** A configured value survives `filter(Boolean)` when it is set and not the empty string. */
  predicate Truthy(v: Option<string>) {
    v.Some? && v.value != ""
  }

  /** The usable keys among the configured values, in configuration order. */
  function PresentKeys(configured: seq<Option<string>>): (r: seq<string>)
    ensures |r| == Sequences.CountWhere(Truthy, configured) <= |configured|
    ensures forall i :: 0 <= i < |r| ==> r[i] != ""
    ensures forall k :: k in r <==> k != "" && Some(k) in configured
    decreases |configured|
  {
    if |configured| == 0 then []
    else (if Truthy(configured[0]) then [configured[0].value] else []) + PresentKeys(configured[1..])
  }

  /** Concatenated configurations yield concatenated key lists: relative order is kept. */
  lemma {:induction false} PresentKeysAppend(a: seq<Option<string>>, b: seq<Option<string>>)
    ensures PresentKeys(a + b) == PresentKeys(a) + PresentKeys(b)
    decreases |a|
  {
    if |a| == 0 {
      assert a + b == b;
    } else {
      assert (a + b)[1..] == a[1..] + b;
      PresentKeysAppend(a[1..], b);
    }
  }

  /** A configuration with no unset or empty value is taken over unchanged. */
  lemma {:induction false} PresentKeysAllSet(configured: seq<Option<string>>)
    requires forall i :: 0 <= i < |configured| ==> Truthy(configured[i])
    ensures |PresentKeys(configured)| == |configured|
    ensures forall i :: 0 <= i < |configured| ==> Some(PresentKeys(configured)[i]) == configured[i]
    decreases |configured|
  {
    if |configured| > 0 {
      PresentKeysAllSet(configured[1..]);
    }
  }

  /**
    The two-variable configuration used for both the Gemini and the Stability
    keys: the primary key (when usable) comes before the secondary one.
   */
  function PairKeys(primary: Option<string>, secondary: Option<string>): (r: seq<string>)
    ensures r == (if Truthy(primary) then [primary.value] else []) + (if Truthy(secondary) then [secondary.value] else [])
  {
    assert [primary, secondary][1..] == [secondary];
    assert [secondary][1..] == [];
    assert PresentKeys([secondary]) == (if Truthy(secondary) then [secondary.value] else []) + PresentKeys([]);
    PresentKeys([primary, secondary])
  }
}
