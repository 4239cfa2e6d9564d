/** A series of health checks of one instance: when it is given up, and when failures are forgiven. */
module HealthChecks {
  import opened Common
  import opened Supervisor

  datatype Verdict = Verdict(ok: bool, at: nat)

  /** One verdict after the other about instance `i`, whose connection lives. */
  function Checked(s: State, i: nat, verdicts: seq<Verdict>): State {
    if verdicts == [] then s
    else
      var v := verdicts[|verdicts| - 1];
      Health(Checked(s, i, verdicts[..|verdicts| - 1]), i, v.ok, true, v.at)
  }

  /** How many of the last verdicts failed. */
  function FailedLast(verdicts: seq<Verdict>): nat {
    if verdicts == [] || verdicts[|verdicts| - 1].ok then 0 else 1 + FailedLast(verdicts[..|verdicts| - 1])
  }

  /** No three verdicts in a row failed. */
  ghost predicate NeverThree(verdicts: seq<Verdict>) {
    forall k :: 0 <= k <= |verdicts| ==> FailedLast(verdicts[..k]) < 3
  }

  lemma NeverThreeStep(verdicts: seq<Verdict>, v: Verdict)
    ensures NeverThree(verdicts + [v]) <==> NeverThree(verdicts) && FailedLast(verdicts + [v]) < 3
  {
    var more := verdicts + [v];
    assert forall k :: 0 <= k <= |verdicts| ==> more[..k] == verdicts[..k];
    assert more[..|more|] == more && verdicts[..|verdicts|] == verdicts;
  }

  /** From an instance without failed checks on: it stays current exactly as long as no three checks in a
      row failed, and until then the count is that of the last failures. */
  lemma {:induction false} ThreeStrikes(s: State, i: nat, verdicts: seq<Verdict>)
    requires s.client == Some(i) && s.healthFailures == 0
    ensures var t := Checked(s, i, verdicts);
            && (t.client == Some(i) <==> NeverThree(verdicts))
            && (t.client == Some(i) ==> t.healthFailures == FailedLast(verdicts))
            && (t.client != Some(i) ==> t.client.None?)
  {
    if verdicts != [] {
      var front, v := verdicts[..|verdicts| - 1], verdicts[|verdicts| - 1];
      assert verdicts == front + [v];
      ThreeStrikes(s, i, front);
      NeverThreeStep(front, v);
    }
  }

  /** When the present unbroken series of good verdicts began, if the last verdict is good. */
  function GoodSince(before: Option<nat>, verdicts: seq<Verdict>): Option<nat> {
    if verdicts == [] then before
    else
      var v := verdicts[|verdicts| - 1];
      var front := GoodSince(before, verdicts[..|verdicts| - 1]);
      if !v.ok then None else if front.Some? then front else Some(v.at)
  }

  lemma {:induction false} HealthySinceIsSeries(s: State, i: nat, verdicts: seq<Verdict>)
    requires s.client == Some(i) && s.healthFailures == 0 && NeverThree(verdicts)
    ensures Checked(s, i, verdicts).healthySince == GoodSince(s.healthySince, verdicts)
    ensures Checked(s, i, verdicts).client == Some(i)
  {
    ThreeStrikes(s, i, verdicts);
    if verdicts != [] {
      var front, v := verdicts[..|verdicts| - 1], verdicts[|verdicts| - 1];
      assert verdicts == front + [v];
      NeverThreeStep(front, v);
      HealthySinceIsSeries(s, i, front);
    }
  }

  /** A good verdict forgives the failures exactly when the good series it ends lasts a minute. */
  lemma MinuteForgives(s: State, i: nat, verdicts: seq<Verdict>, now: nat)
    requires s.client == Some(i) && s.healthFailures == 0 && NeverThree(verdicts)
    ensures
      var t := Checked(s, i, verdicts);
      var since := GoodSince(s.healthySince, verdicts + [Verdict(true, now)]);
      since.Some? && Health(t, i, true, true, now).failures == if now >= since.value + 60 then 0 else t.failures
  {
    HealthySinceIsSeries(s, i, verdicts);
    assert (verdicts + [Verdict(true, now)])[..|verdicts|] == verdicts;
  }

  // ---- keeping a verdict -----------------------------------------------------------

  /** A recorded verdict is repeated for less than three seconds. */
  lemma VerdictRepeated(s: State, instance: nat, ok: bool, alive: bool, now: nat, later: nat)
    requires s.client == Some(instance) && later >= now
    ensures CachedHealth(Health(s, instance, ok, alive, now), later) == (if later < now + 3 then Some(ok) else None)
  {}

  /** From then on the next check may be made. */
  lemma NextCheckAllowed(s: State, instance: nat, ok: bool, alive: bool, now: nat, later: nat)
    requires s.client == Some(instance) && later >= now + 3
    ensures Possible(Health(s, instance, ok, alive, now), now, RecordHealth(instance, true, true, later, later))
  {}
}
