/** The assistant recognises intents by keyword lists: a handler fires when
    any of its trigger phrases occurs in the command, and lists are tried in
    a fixed order with the first hit winning. */
module Triggers {
  import opened PyStr
  import opened Wrappers

  /** `any(t in s for t in ts)`. */
  predicate AnyIn(s: string, ts: seq<string>)
    decreases |ts|
  {
    |ts| > 0 && (Contains(s, ts[0]) || AnyIn(s, ts[1..]))
  }

  lemma {:induction false} AnyInIff(s: string, ts: seq<string>)
    ensures AnyIn(s, ts) <==> exists k :: 0 <= k < |ts| && Contains(s, ts[k])
    decreases |ts|
  {
    if |ts| > 0 {
      AnyInIff(s, ts[1..]);
      if exists k :: 0 <= k < |ts| && Contains(s, ts[k]) {
        var k :| 0 <= k < |ts| && Contains(s, ts[k]);
        if k > 0 { assert ts[1..][k - 1] == ts[k]; }
      }
      if exists k :: 0 <= k < |ts[1..]| && Contains(s, ts[1..][k]) {
        var k :| 0 <= k < |ts[1..]| && Contains(s, ts[1..][k]);
        assert ts[k + 1] == ts[1..][k];
      }
    }
  }

  /** The first trigger of the list that occurs in `s`. */
  function FirstIn(s: string, ts: seq<string>): (r: Option<nat>)
    ensures r.None? <==> !AnyIn(s, ts)
    ensures r.Some? ==> r.value < |ts| && Contains(s, ts[r.value])
    ensures r.Some? ==> forall k :: 0 <= k < r.value ==> !Contains(s, ts[k])
    decreases |ts|
  {
    if |ts| == 0 then None
    else if Contains(s, ts[0]) then Some(0)
    else match FirstIn(s, ts[1..])
      case None => None
      case Some(k) =>
        assert forall j :: 1 <= j < k + 1 ==> ts[j] == ts[1..][j - 1];
        Some(k + 1)
  }

  /** The first keyword group of the table that has a trigger in `s`. */
  function FirstGroup(s: string, groups: seq<seq<string>>): (r: Option<nat>)
    ensures r.None? <==> forall k :: 0 <= k < |groups| ==> !AnyIn(s, groups[k])
    ensures r.Some? ==> r.value < |groups| && AnyIn(s, groups[r.value])
    ensures r.Some? ==> forall k :: 0 <= k < r.value ==> !AnyIn(s, groups[k])
    decreases |groups|
  {
    if |groups| == 0 then None
    else if AnyIn(s, groups[0]) then Some(0)
    else match FirstGroup(s, groups[1..])
      case None =>
        assert forall k :: 1 <= k < |groups| ==> groups[k] == groups[1..][k - 1];
        None
      case Some(k) =>
        assert forall j :: 1 <= j < k + 1 ==> groups[j] == groups[1..][j - 1];
        Some(k + 1)
  }

  /** `AnyIn` over the triggers from the `k`-th on, decided by the scan and
      indexed rather than sliced, so that a fixed trigger table can be walked
      one entry at a time. */
  predicate AnyFrom(s: string, ts: seq<string>, k: nat)
    decreases |ts| - k
  {
    k < |ts| && (OccursFrom(s, ts[k], 0) || AnyFrom(s, ts, k + 1))
  }

  lemma {:induction false} AnyFromIff(s: string, ts: seq<string>, k: nat)
    requires k <= |ts|
    ensures AnyFrom(s, ts, k) <==> AnyIn(s, ts[k..])
    decreases |ts| - k
  {
    if k < |ts| {
      ScanDecidesContains(s, ts[k]);
      AnyFromIff(s, ts, k + 1);
      assert ts[k..][1..] == ts[k + 1..];
    }
  }

  /** One step of showing that no trigger of a table occurs. */
  lemma MissStep(s: string, ts: seq<string>, k: nat)
    requires k < |ts| && !OccursFrom(s, ts[k], 0) && !AnyFrom(s, ts, k + 1)
    ensures !AnyFrom(s, ts, k)
  {
  }

  /** Entry `k` of a table occurs, as the scan finds. */
  lemma HitAt(s: string, ts: seq<string>, k: nat)
    requires k < |ts| && OccursFrom(s, ts[k], 0)
    ensures AnyIn(s, ts)
  {
    ScanDecidesContains(s, ts[k]);
    AnyInIff(s, ts);
  }

  /** The last step: a table walked from its first entry. */
  lemma MissAll(s: string, ts: seq<string>)
    requires !AnyFrom(s, ts, 0)
    ensures !AnyIn(s, ts)
  {
    AnyFromIff(s, ts, 0);
    assert ts[0..] == ts;
  }

  /** No trigger of the list occurs. */
  lemma NoneContained(s: string, ts: seq<string>)
    requires forall k :: 0 <= k < |ts| ==> !Contains(s, ts[k])
    ensures !AnyIn(s, ts)
  {
    AnyInIff(s, ts);
  }

  /** Trigger `k` of the list occurs. */
  lemma Contained(s: string, ts: seq<string>, k: nat)
    requires k < |ts| && Contains(s, ts[k])
    ensures AnyIn(s, ts)
  {
    AnyInIff(s, ts);
  }
}
