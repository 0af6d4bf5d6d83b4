/**
 * The wallet list every agent keeps: `create_new_wallet` appends
 * `result["wallet_data"]` when `result.get("status") == "success"`, and the
 * list is the wallet data of the successful creations, in order.
 */
module Registry {
  import opened PyValue

  /** `result.get("status") == "success"` for a result dict. */
  predicate Succeeded(result: Json) {
    result.JDict? && "status" in result.fields && result.fields["status"] == JStr("success")
  }

  /** A result that reports success carries the `wallet_data` the agent appends. */
  predicate Trackable(result: Json) {
    Succeeded(result) ==> "wallet_data" in result.fields
  }

  ghost predicate AllTrackable(results: seq<Json>) {
    forall k :: 0 <= k < |results| ==> Trackable(results[k])
  }

  /** What appending one creation result does to the wallet list. */
  function Appended(result: Json): seq<Json>
    requires Trackable(result)
  {
    if Succeeded(result) then [result.fields["wallet_data"]] else []
  }

  /** The wallet list after a sequence of creation results, starting from `[]`. */
  function Tracked(results: seq<Json>): seq<Json>
    requires AllTrackable(results)
    decreases |results|
  {
    if results == [] then []
    else Tracked(results[..|results| - 1]) + Appended(results[|results| - 1])
  }

  /** The number of creation results that report success. */
  function SuccessCount(results: seq<Json>): (n: nat)
    ensures n <= |results|
    decreases |results|
  {
    if results == [] then 0
    else SuccessCount(results[1..]) + (if Succeeded(results[0]) then 1 else 0)
  }

  lemma {:induction false} SuccessCountAppend(results: seq<Json>, r: Json)
    ensures SuccessCount(results + [r]) == SuccessCount(results) + (if Succeeded(r) then 1 else 0)
    decreases |results|
  {
    if results != [] {
      assert (results + [r])[1..] == results[1..] + [r];
      SuccessCountAppend(results[1..], r);
    }
  }

  /** One creation result moves the wallet list on by `Appended` of it. */
  lemma {:induction false} TrackedAppend(results: seq<Json>, r: Json)
    requires AllTrackable(results) && Trackable(r)
    ensures AllTrackable(results + [r])
    ensures Tracked(results + [r]) == Tracked(results) + Appended(r)
  {
    assert (results + [r])[..|results|] == results;
  }

  /**
   * The wallet list holds one entry per successful creation, and the k-th
   * entry is the wallet data of the k-th success.
   */
  lemma {:induction false} TrackedCountsSuccesses(results: seq<Json>)
    requires AllTrackable(results)
    ensures |Tracked(results)| == SuccessCount(results)
    decreases |results|
  {
    if results != [] {
      var init := results[..|results| - 1];
      var last := results[|results| - 1];
      assert results == init + [last];
      TrackedCountsSuccesses(init);
      SuccessCountAppend(init, last);
    }
  }

  /** Results that all fail leave the wallet list empty. */
  lemma {:induction false} NoSuccessNoWallets(results: seq<Json>)
    requires AllTrackable(results)
    requires forall k :: 0 <= k < |results| ==> !Succeeded(results[k])
    ensures Tracked(results) == []
    decreases |results|
  {
    if results != [] {
      NoSuccessNoWallets(results[..|results| - 1]);
    }
  }
}
