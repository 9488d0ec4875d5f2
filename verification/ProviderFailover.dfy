/**
 Provider failover with an in-process cooldown table (backend/llm/resolver.py:65-186). A visit
 to a candidate reads the clock twice: at the cooldown check, and when a retryable failure sets
 the cooldown.
 */
module ProviderFailover {
  import opened Common

  /** What the operation does: it returns, fails at connection level, or raises anything else. */
  datatype Outcome<T> = Returns(value: T) | FailsRetryably | Raises(error: string)

  /** One candidate together with what a visit to it meets. */
  datatype Visit<T> = Visit(provider: string, checkedAt: int, known: bool, outcome: Outcome<T>, failedAt: int)

  type Cooldowns = map<string, int>

  predicate IsCooled(until: Cooldowns, provider: string, now: int) {
    provider in until && now < until[provider]
  }

  datatype Passing = Cooled | Missing | Failed | Decisive

  function Verdict<T>(until: Cooldowns, v: Visit<T>): Passing {
    if IsCooled(until, v.provider, v.checkedAt) then Cooled
    else if !v.known then Missing
    else if v.outcome.FailsRetryably? then Failed
    else Decisive
  }

  /** The four ways: skipped while cooled, skipped as deleted, failed at connection level, or answered either way. */
  lemma VerdictIs<T>(until: Cooldowns, v: Visit<T>)
    ensures var cooled := v.provider in until && v.checkedAt < until[v.provider];
      && (Verdict(until, v) == Cooled <==> cooled)
      && (Verdict(until, v) == Missing <==> !cooled && !v.known)
      && (Verdict(until, v) == Failed <==> !cooled && v.known && v.outcome.FailsRetryably?)
      && (Verdict(until, v) == Decisive <==> !cooled && v.known && (v.outcome.Returns? || v.outcome.Raises?))
  {}

  /** The table after a visit: only a retryable failure changes it. */
  function Updated<T>(until: Cooldowns, v: Visit<T>, cooldown: int): Cooldowns {
    if Verdict(until, v) == Failed then until[v.provider := v.failedAt + cooldown] else until
  }

  function UpdatedAll<T>(until: Cooldowns, visits: seq<Visit<T>>, cooldown: int): Cooldowns {
    if visits == [] then until
    else Updated(UpdatedAll(until, visits[..|visits| - 1], cooldown), visits[|visits| - 1], cooldown)
  }

  /** The verdict on the i-th candidate, given what happened before it. */
  function VerdictAt<T>(until: Cooldowns, visits: seq<Visit<T>>, cooldown: int, i: nat): Passing
    requires i < |visits|
  {
    Verdict(UpdatedAll(until, visits[..i], cooldown), visits[i])
  }

  function Number<T>(until: Cooldowns, visits: seq<Visit<T>>, cooldown: int, what: Passing): nat {
    if visits == [] then 0
    else
      var front := visits[..|visits| - 1];
      Number(until, front, cooldown, what)
      + if Verdict(UpdatedAll(until, front, cooldown), visits[|visits| - 1]) == what then 1 else 0
  }

  /** The search ends at `stop`: nothing before it was decisive, and it is unless the list is exhausted. */
  ghost predicate StopsAt<T>(until: Cooldowns, visits: seq<Visit<T>>, cooldown: int, stop: nat) {
    && stop <= |visits|
    && (forall i :: 0 <= i < stop ==> VerdictAt(until, visits, cooldown, i) != Decisive)
    && (stop < |visits| ==> VerdictAt(until, visits, cooldown, stop) == Decisive)
  }

  lemma StopIsUnique<T>(until: Cooldowns, visits: seq<Visit<T>>, cooldown: int, a: nat, b: nat)
    requires StopsAt(until, visits, cooldown, a) && StopsAt(until, visits, cooldown, b)
    ensures a == b
  {}

  datatype Resolution<T> =
    | NoCandidates
    | Resolved(value: T)
    | Reraised(error: string)
    | NoLiveCandidate(tried: nat, cooled: nat, total: nat)

  class ProviderResolver {
    var until: Cooldowns
    const cooldown: int

    constructor (seconds: int)
      ensures until == map[] && cooldown == seconds
    {
      until := map[];
      cooldown := seconds;
    }

    /**
     resolve_with_fallback: the first decisive candidate gives the result or the error, and
     neither it nor anything after it touches the table.
     */
    method ResolveWithFallback<T>(visits: seq<Visit<T>>) returns (r: Resolution<T>, ghost stop: nat)
      modifies this`until
      ensures StopsAt(old(until), visits, cooldown, stop)
      ensures until == UpdatedAll(old(until), visits[..stop], cooldown)
      ensures visits == [] <==> r.NoCandidates?
      ensures stop < |visits| ==> match visits[stop].outcome
        case Returns(value) => r == Resolved(value)
        case Raises(error) => r == Reraised(error)
        case FailsRetryably => false
      ensures stop == |visits| > 0 ==>
        r == NoLiveCandidate(Number(old(until), visits, cooldown, Failed),
                             Number(old(until), visits, cooldown, Cooled), |visits|)
    {
      stop := 0;
      if visits == [] {
        return NoCandidates, 0;
      }
      var tried, cooled := 0, 0;
      for i := 0 to |visits|
        invariant until == UpdatedAll(old(until), visits[..i], cooldown)
        invariant forall j :: 0 <= j < i ==> VerdictAt(old(until), visits, cooldown, j) != Decisive
        invariant tried == Number(old(until), visits[..i], cooldown, Failed)
        invariant cooled == Number(old(until), visits[..i], cooldown, Cooled)
      {
        var v := visits[i];
        assert visits[..i + 1][..i] == visits[..i];
        if v.provider in until && v.checkedAt < until[v.provider] {
          cooled := cooled + 1;
          continue;
        }
        if !v.known {
          continue;
        }
        tried := tried + 1;
        match v.outcome
        case Returns(value) => return Resolved(value), i;
        case Raises(error) => return Reraised(error), i;
        case FailsRetryably => until := until[v.provider := v.failedAt + cooldown];
      }
      assert visits[..|visits|] == visits;
      return NoLiveCandidate(tried, cooled, |visits|), |visits|;
    }
  }

  /** On exhaustion the three ways of passing a candidate account for the whole list. */
  lemma {:induction false} AllAccountedFor<T>(until: Cooldowns, visits: seq<Visit<T>>, cooldown: int)
    requires StopsAt(until, visits, cooldown, |visits|)
    ensures Number(until, visits, cooldown, Failed) + Number(until, visits, cooldown, Cooled)
          + Number(until, visits, cooldown, Missing) == |visits|
  {
    if visits != [] {
      var last := |visits| - 1;
      assert VerdictAt(until, visits, cooldown, last) != Decisive;
      forall i | 0 <= i < last
        ensures VerdictAt(until, visits[..last], cooldown, i) == VerdictAt(until, visits, cooldown, i)
      {
        assert visits[..last][..i] == visits[..i];
      }
      AllAccountedFor(until, visits[..last], cooldown);
    }
  }

  // ---------------------------------------------------------------------------
  // Cooldowns over any number of calls
  // ---------------------------------------------------------------------------

  /** The clock is monotone: a visit's check comes before its failure, and visits follow each other. */
  ghost predicate Monotone<T>(visits: seq<Visit<T>>) {
    && (forall i :: 0 <= i < |visits| ==> visits[i].checkedAt <= visits[i].failedAt)
    && (forall i, j :: 0 <= i < j < |visits| ==> visits[i].failedAt <= visits[j].checkedAt)
  }

  /** The end of a cooldown only moves later. */
  lemma {:induction false} CooldownStays<T>(until: Cooldowns, visits: seq<Visit<T>>, cooldown: int, i: nat)
    requires i < |visits| && Monotone(visits) && cooldown >= 0 && VerdictAt(until, visits, cooldown, i) == Failed
    ensures var after := UpdatedAll(until, visits, cooldown);
      visits[i].provider in after && after[visits[i].provider] >= visits[i].failedAt + cooldown
  {
    var last := |visits| - 1;
    if i < last {
      assert visits[..last][..i] == visits[..i];
      CooldownStays(until, visits[..last], cooldown, i);
    }
  }

  /**
   Over any sequence of visits, of one call or of many: after a retryable failure the same
   provider is not tried again before the cooldown has passed.
   */
  lemma NotRetriedDuringCooldown<T>(until: Cooldowns, visits: seq<Visit<T>>, cooldown: int, i: nat, j: nat)
    requires i < j < |visits| && Monotone(visits) && cooldown >= 0 && visits[i].provider == visits[j].provider
    requires VerdictAt(until, visits, cooldown, i) == Failed
      && VerdictAt(until, visits, cooldown, j) in {Failed, Decisive}
    ensures visits[j].checkedAt >= visits[i].failedAt + cooldown
  {
    assert visits[..j][..i] == visits[..i];
    CooldownStays(until, visits[..j], cooldown, i);
  }

  /**
   When a call ends, every candidate before the decisive one was cooled, was missing, or has
   its cooldown set; the table differs from before only in those that failed.
   */
  lemma EarlierCandidates<T>(until: Cooldowns, visits: seq<Visit<T>>, cooldown: int, stop: nat, i: nat)
    requires StopsAt(until, visits, cooldown, stop) && i < stop && Monotone(visits) && cooldown >= 0
    ensures var after := UpdatedAll(until, visits[..stop], cooldown);
      || VerdictAt(until, visits, cooldown, i) == Cooled
      || !visits[i].known
      || (visits[i].provider in after && after[visits[i].provider] >= visits[i].failedAt + cooldown)
  {
    if VerdictAt(until, visits, cooldown, i) == Failed {
      assert visits[..stop][..i] == visits[..i];
      CooldownStays(until, visits[..stop], cooldown, i);
    } else {
      assert VerdictAt(until, visits, cooldown, i) != Decisive;
    }
  }

  lemma {:induction false} UntouchedProviders<T>(until: Cooldowns, visits: seq<Visit<T>>, cooldown: int, p: string)
    requires forall i :: 0 <= i < |visits| && visits[i].provider == p ==>
      VerdictAt(until, visits, cooldown, i) != Failed
    ensures var after := UpdatedAll(until, visits, cooldown);
      (p in after <==> p in until) && (p in until ==> after[p] == until[p])
  {
    if visits != [] {
      var last := |visits| - 1;
      forall i | 0 <= i < last && visits[i].provider == p
        ensures VerdictAt(until, visits[..last], cooldown, i) != Failed
      {
        assert visits[..last][..i] == visits[..i];
      }
      assert visits[last].provider == p ==> VerdictAt(until, visits, cooldown, last) != Failed;
      UntouchedProviders(until, visits[..last], cooldown, p);
    }
  }

  /**
   A cooled candidate later in the list may be one that this very call cooled: listing a
   provider twice tries it once.
   */
  lemma RepeatedProviderIsSkipped<T>(until: Cooldowns, a: Visit<T>, b: Visit<T>, cooldown: int)
    requires a.provider == b.provider && Verdict(until, a) == Failed && b.checkedAt < a.failedAt + cooldown
    ensures VerdictAt(until, [a, b], cooldown, 1) == Cooled
  {
    assert [a][..0] == [];
    assert UpdatedAll(until, [a], cooldown) == Updated(until, a, cooldown);
    assert [a, b][..1] == [a];
  }

  // ---------------------------------------------------------------------------
  // Calls that overlap in time
  // ---------------------------------------------------------------------------

  /**
   The two moments at which a visit touches the table. Calls may overlap, so between the check
   and the failure of one visit there may be any moments of others.
   */
  datatype Moment = Checked(provider: string, at: int) | FailedAt(provider: string, at: int)

  function After(until: Cooldowns, moments: seq<Moment>, cooldown: int): Cooldowns {
    if moments == [] then until
    else
      var before, last := After(until, moments[..|moments| - 1], cooldown), moments[|moments| - 1];
      if last.FailedAt? then before[last.provider := last.at + cooldown] else before
  }

  /** Each moment reads the clock no earlier than the one before. */
  ghost predicate InOrder(moments: seq<Moment>) {
    forall i, j :: 0 <= i < j < |moments| ==> moments[i].at <= moments[j].at
  }

  /** The check at position j lets its candidate through. */
  predicate Passes(until: Cooldowns, moments: seq<Moment>, cooldown: int, j: nat)
    requires j < |moments|
  {
    !IsCooled(After(until, moments[..j], cooldown), moments[j].provider, moments[j].at)
  }

  ghost predicate FailedBefore(moments: seq<Moment>, j: nat, p: string) {
    exists i :: 0 <= i < j && i < |moments| && moments[i] == FailedAt(p, moments[i].at)
  }

  /** The table holds the end of the provider's last cooldown, which is its latest, or what it held at first. */
  lemma {:induction false} LastFailureCounts(until: Cooldowns, moments: seq<Moment>, cooldown: int, p: string)
    requires InOrder(moments)
    ensures var after := After(until, moments, cooldown);
      && (!FailedBefore(moments, |moments|, p) ==>
            (p in after <==> p in until) && (p in until ==> after[p] == until[p]))
      && (FailedBefore(moments, |moments|, p) ==>
            && p in after
            && (forall i :: 0 <= i < |moments| && moments[i] == FailedAt(p, moments[i].at) ==>
                  moments[i].at + cooldown <= after[p])
            && (exists i :: 0 <= i < |moments| && moments[i] == FailedAt(p, after[p] - cooldown)))
  {
    if moments != [] {
      var n := |moments| - 1;
      var front := moments[..n];
      LastFailureCounts(until, front, cooldown, p);
      assert forall i :: 0 <= i < n ==> front[i] == moments[i];
      if moments[n].FailedAt? && moments[n].provider == p {
        assert moments[n] == FailedAt(p, moments[n].at);
        assert moments[n] == FailedAt(p, After(until, moments, cooldown)[p] - cooldown);
      } else if FailedBefore(front, n, p) {
        var i :| 0 <= i < n && front[i] == FailedAt(p, After(until, front, cooldown)[p] - cooldown);
        assert moments[i] == FailedAt(p, After(until, moments, cooldown)[p] - cooldown);
      }
    }
  }

  /**
   Over every interleaving of any number of calls: a check lets a provider through if and only
   if the cooldowns of all its earlier failures have passed, or, without any, the one that the
   table began with. What may still run during a cooldown are visits that were checked before.
   */
  lemma PassesIff(until: Cooldowns, moments: seq<Moment>, cooldown: int, j: nat)
    requires InOrder(moments) && j < |moments|
    ensures var c := moments[j];
      Passes(until, moments, cooldown, j) <==>
        && (forall i :: 0 <= i < j && moments[i] == FailedAt(c.provider, moments[i].at) ==>
              moments[i].at + cooldown <= c.at)
        && (!FailedBefore(moments, j, c.provider) ==> !IsCooled(until, c.provider, c.at))
  {
    var before := moments[..j];
    assert forall i :: 0 <= i < j ==> before[i] == moments[i];
    LastFailureCounts(until, before, cooldown, moments[j].provider);
    assert FailedBefore(before, |before|, moments[j].provider) <==> FailedBefore(moments, j, moments[j].provider);
  }

  /** The moments of a call on its own: every candidate is checked, and those that fail set their cooldown. */
  function MomentsOf<T>(until: Cooldowns, visits: seq<Visit<T>>, cooldown: int): seq<Moment> {
    if visits == [] then []
    else
      var n := |visits| - 1;
      var p := visits[n].provider;
      MomentsOf(until, visits[..n], cooldown) + [Checked(p, visits[n].checkedAt)]
      + if VerdictAt(until, visits, cooldown, n) == Failed then [FailedAt(p, visits[n].failedAt)] else []
  }

  lemma AfterOne(until: Cooldowns, moments: seq<Moment>, m: Moment, cooldown: int)
    ensures After(until, moments + [m], cooldown) ==
      if m.FailedAt? then After(until, moments, cooldown)[m.provider := m.at + cooldown]
      else After(until, moments, cooldown)
  {
    assert (moments + [m])[..|moments|] == moments;
  }

  /** They leave the table as the call does. */
  lemma {:induction false} CallsAreMoments<T>(until: Cooldowns, visits: seq<Visit<T>>, cooldown: int)
    ensures After(until, MomentsOf(until, visits, cooldown), cooldown) == UpdatedAll(until, visits, cooldown)
  {
    if visits != [] {
      var n := |visits| - 1;
      var front, check := MomentsOf(until, visits[..n], cooldown), Checked(visits[n].provider, visits[n].checkedAt);
      CallsAreMoments(until, visits[..n], cooldown);
      AfterOne(until, front, check, cooldown);
      AfterOne(until, front + [check], FailedAt(visits[n].provider, visits[n].failedAt), cooldown);
      assert front + [check] + [] == front + [check];
    }
  }
}
