/**
 * The stale-on-error rule shared by the username and the profile
 * resolutions. A refresh builds a fresh entry from one upstream call; if that
 * entry is invalid while the caller's prior entry is valid, the prior entry is
 * handed back and the tier is left alone, so an upstream outage never evicts
 * a known-good entry. Otherwise the fresh entry is written under the key
 * (overwriting) and handed back, even when it is itself invalid.
 *
 * Validity is a parameter, so one definition serves both entry kinds.
 */
module StaleOnError {
  import opened Wrappers
  import Storage

  /** What a refresh leaves behind: the entry handed back and the tier afterwards. */
  datatype Outcome<E> = Outcome(result: E, tier: map<string, E>)

  /** The fresh entry failed but the prior one is good: keep the prior one. */
  predicate KeepsPrior<E>(latest: E, prior: E, valid: E -> bool) {
    !valid(latest) && valid(prior)
  }

  /** One refresh of `key`, given the latest entry and the caller's prior one. */
  function Refresh<E>(tier: map<string, E>, key: string, latest: E, prior: E, valid: E -> bool): (o: Outcome<E>)
    ensures valid(o.result) <==> valid(latest) || valid(prior)
    ensures !valid(latest) && valid(prior) ==> o.result == prior && o.tier == tier
    ensures valid(latest) || !valid(prior) ==> o.result == latest && o.tier == Storage.Insert(tier, key, latest)
  {
    if KeepsPrior(latest, prior, valid) then Outcome(prior, tier)
    else Outcome(latest, Storage.Insert(tier, key, latest))
  }

  /**
   * A run of refreshes of `key`, one per element of `freshes`, where each
   * refresh is handed the previous result as its prior entry.
   */
  function RefreshAll<E>(o: Outcome<E>, key: string, freshes: seq<E>, valid: E -> bool): (r: Outcome<E>)
    decreases |freshes|
  {
    if freshes == [] then o
    else RefreshAll(Refresh(o.tier, key, freshes[0], o.result, valid), key, freshes[1..], valid)
  }

  /**
   * After a run of refreshes the entry held is valid exactly when it was valid
   * before the run or some refresh in it succeeded: a valid entry is never
   * lost to failures.
   */
  lemma {:induction false} RefreshAllValid<E>(o: Outcome<E>, key: string, freshes: seq<E>, valid: E -> bool)
    ensures valid(RefreshAll(o, key, freshes, valid).result)
        <==> valid(o.result) || exists i :: 0 <= i < |freshes| && valid(freshes[i])
    decreases |freshes|
  {
    if freshes != [] {
      var next := Refresh(o.tier, key, freshes[0], o.result, valid);
      RefreshAllValid(next, key, freshes[1..], valid);
      assert forall i :: 0 <= i < |freshes| - 1 ==> freshes[1..][i] == freshes[i + 1];
    }
  }

  /**
   * A run in which every upstream call fails, started from a valid entry,
   * changes nothing: the same entry is handed back and the tier is untouched.
   */
  lemma {:induction false} OutageKeepsEverything<E>(o: Outcome<E>, key: string, freshes: seq<E>, valid: E -> bool)
    requires valid(o.result)
    requires forall i :: 0 <= i < |freshes| ==> !valid(freshes[i])
    ensures RefreshAll(o, key, freshes, valid) == o
    decreases |freshes|
  {
    if freshes != [] {
      assert !valid(freshes[0]);
      assert forall i :: 0 <= i < |freshes| - 1 ==> freshes[1..][i] == freshes[i + 1];
      OutageKeepsEverything(o, key, freshes[1..], valid);
    }
  }

  /**
   * The entry held after a run is the last latest entry that was valid, and
   * the tier holds that same entry under the key.
   */
  lemma {:induction false} LastValidWins<E>(o: Outcome<E>, key: string, freshes: seq<E>, valid: E -> bool, j: nat)
    requires j < |freshes| && valid(freshes[j])
    requires forall i :: j < i < |freshes| ==> !valid(freshes[i])
    ensures RefreshAll(o, key, freshes, valid).result == freshes[j]
    ensures Storage.Retrieve(RefreshAll(o, key, freshes, valid).tier, key) == Ok(freshes[j])
    decreases |freshes|
  {
    var next := Refresh(o.tier, key, freshes[0], o.result, valid);
    assert forall i :: 0 <= i < |freshes| - 1 ==> freshes[1..][i] == freshes[i + 1];
    if j == 0 {
      assert next.result == freshes[0] && Storage.Retrieve(next.tier, key) == Ok(freshes[0]);
      OutageKeepsEverything(next, key, freshes[1..], valid);
    } else {
      LastValidWins(next, key, freshes[1..], valid, j - 1);
    }
  }

  /**
   * When the caller's prior entry is the one the tier holds under the key, a
   * run of refreshes keeps the two in step, and no other key of the tier is
   * touched.
   */
  lemma {:induction false} TierTracksResult<E>(o: Outcome<E>, key: string, freshes: seq<E>, valid: E -> bool)
    requires Storage.Retrieve(o.tier, key) == Ok(o.result)
    ensures Storage.Retrieve(RefreshAll(o, key, freshes, valid).tier, key)
         == Ok(RefreshAll(o, key, freshes, valid).result)
    ensures forall k :: k != key ==>
              Storage.Retrieve(RefreshAll(o, key, freshes, valid).tier, k) == Storage.Retrieve(o.tier, k)
    decreases |freshes|
  {
    if freshes != [] {
      var next := Refresh(o.tier, key, freshes[0], o.result, valid);
      TierTracksResult(next, key, freshes[1..], valid);
    }
  }
}
