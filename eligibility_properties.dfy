/**
 * What the evaluator's result means, stated against the scheme and the
 * profile rather than against the order of the checks: which criteria are
 * reported and where, how the score is computed from two counts, how the
 * score moves when a criterion is added, and two worked cases.
 */
module EligibilityProperties {
  import opened Wrappers
  import opened Database
  import opened EligibilityEngine

  /** Outcome `i` speaks about the criterion checked in position `i`. */
  ghost predicate Tagged(os: seq<Outcome>) {
    forall i :: 0 <= i < |os| ==>
      (os[i].Met? ==> Index(os[i].reason.Criterion()) == i)
      && (os[i].Unmet? ==> Index(os[i].missing.Criterion()) == i)
  }

  /** Sentences listed strictly in checking order (so no criterion twice). */
  predicate ReasonsInOrder(rs: seq<Reason>) {
    forall i, j :: 0 <= i < j < |rs| ==> Index(rs[i].Criterion()) < Index(rs[j].Criterion())
  }

  predicate GapsInOrder(ms: seq<Missing>) {
    forall i, j :: 0 <= i < j < |ms| ==> Index(ms[i].Criterion()) < Index(ms[j].Criterion())
  }

  /** Some affirming sentence is about criterion `c`. */
  predicate HasReason(rs: seq<Reason>, c: Criterion) {
    exists i :: 0 <= i < |rs| && rs[i].Criterion() == c
  }

  /** Some gap is about criterion `c`. */
  predicate HasGap(ms: seq<Missing>, c: Criterion) {
    exists i :: 0 <= i < |ms| && ms[i].Criterion() == c
  }

  lemma IndexOfCriterionAt(i: nat)
    requires i < CriteriaCount
    ensures Index(CriterionAt(i)) == i
  {
  }

  lemma OutcomesTagged(p: Profile, s: Scheme)
    ensures Tagged(Outcomes(p, s))
  {
    forall i | 0 <= i < CriteriaCount
      ensures Outcomes(p, s)[i].Met? ==> Index(Outcomes(p, s)[i].reason.Criterion()) == i
      ensures Outcomes(p, s)[i].Unmet? ==> Index(Outcomes(p, s)[i].missing.Criterion()) == i
    {
      OutcomeAt(p, s, CriteriaCount, i);
      CheckMeaning(CriterionAt(i), p, s);
      IndexOfCriterionAt(i);
    }
  }

  /**
   * Over any outcomes where outcome `i` has rank `i`, the tally's sentences
   * have ranks below `n`, strictly increasing.
   */
  lemma {:induction false} ReasonsRanked(os: seq<Outcome>, n: nat, rank: Reason -> int)
    requires n <= |os|
    requires forall i :: 0 <= i < |os| && os[i].Met? ==> rank(os[i].reason) == i
    ensures forall i, j :: 0 <= i < j < |TallyOf(os, n).reasons| ==>
      rank(TallyOf(os, n).reasons[i]) < rank(TallyOf(os, n).reasons[j])
    ensures forall i :: 0 <= i < |TallyOf(os, n).reasons| ==> rank(TallyOf(os, n).reasons[i]) < n
  {
    if n > 0 {
      ReasonsRanked(os, n - 1, rank);
    }
  }

  /** A sentence is in the tally exactly when one of the first `n` checks was met with it. */
  lemma {:induction false} ReasonMember(os: seq<Outcome>, n: nat, r: Reason)
    requires n <= |os|
    ensures r in TallyOf(os, n).reasons <==> exists k :: 0 <= k < n && os[k] == Met(r)
  {
    if n > 0 {
      ReasonMember(os, n - 1, r);
      var prev := TallyOf(os, n - 1).reasons;
      if os[n - 1].Met? {
        var rs := prev + [os[n - 1].reason];
        assert TallyOf(os, n).reasons == rs;
        assert r in rs <==> r in prev || r == os[n - 1].reason;
      } else {
        assert TallyOf(os, n).reasons == prev;
      }
    }
  }

  /** The same for the gaps. */
  lemma {:induction false} GapsRanked(os: seq<Outcome>, n: nat, rank: Missing -> int)
    requires n <= |os|
    requires forall i :: 0 <= i < |os| && os[i].Unmet? ==> rank(os[i].missing) == i
    ensures forall i, j :: 0 <= i < j < |TallyOf(os, n).missingCriteria| ==>
      rank(TallyOf(os, n).missingCriteria[i]) < rank(TallyOf(os, n).missingCriteria[j])
    ensures forall i :: 0 <= i < |TallyOf(os, n).missingCriteria| ==> rank(TallyOf(os, n).missingCriteria[i]) < n
  {
    if n > 0 {
      GapsRanked(os, n - 1, rank);
    }
  }

  /** A gap is in the tally exactly when one of the first `n` checks was unmet with it. */
  lemma {:induction false} GapMember(os: seq<Outcome>, n: nat, m: Missing)
    requires n <= |os|
    ensures m in TallyOf(os, n).missingCriteria <==> exists k :: 0 <= k < n && os[k] == Unmet(m)
  {
    if n > 0 {
      GapMember(os, n - 1, m);
      var prev := TallyOf(os, n - 1).missingCriteria;
      if os[n - 1].Unmet? {
        var ms := prev + [os[n - 1].missing];
        assert TallyOf(os, n).missingCriteria == ms;
        assert m in ms <==> m in prev || m == os[n - 1].missing;
      } else {
        assert TallyOf(os, n).missingCriteria == prev;
      }
    }
  }

  /**
   * The result lists exactly the sentences of the met checks, in checking
   * order.
   */
  lemma ReasonsListed(p: Profile, s: Scheme, r: Reason)
    ensures ReasonsInOrder(Evaluation(p, s).reasons)
    ensures r in Evaluation(p, s).reasons <==> Check(r.Criterion(), p, s) == Met(r)
  {
    var os := Outcomes(p, s);
    OutcomesTagged(p, s);
    ReasonsRanked(os, CriteriaCount, (x: Reason) => Index(x.Criterion()));
    ReasonMember(os, CriteriaCount, r);
    OutcomeAt(p, s, CriteriaCount, Index(r.Criterion()));
  }

  /**
   * The result lists exactly the gaps of the unmet checks, in checking
   * order.
   */
  lemma GapsListed(p: Profile, s: Scheme, m: Missing)
    ensures GapsInOrder(Evaluation(p, s).missingCriteria)
    ensures m in Evaluation(p, s).missingCriteria <==> Check(m.Criterion(), p, s) == Unmet(m)
  {
    var os := Outcomes(p, s);
    OutcomesTagged(p, s);
    GapsRanked(os, CriteriaCount, (x: Missing) => Index(x.Criterion()));
    GapMember(os, CriteriaCount, m);
    OutcomeAt(p, s, CriteriaCount, Index(m.Criterion()));
  }

  /**
   * A criterion gets an affirming sentence exactly when the scheme defines it
   * and the profile satisfies it, and a gap exactly when the scheme defines
   * it and the profile does not; never both, and nothing for a criterion the
   * scheme leaves out.
   */
  lemma CriterionReported(p: Profile, s: Scheme, c: Criterion)
    ensures HasReason(Evaluation(p, s).reasons, c) <==> Active(c, s) && Satisfied(c, p, s)
    ensures HasGap(Evaluation(p, s).missingCriteria, c) <==> Active(c, s) && !Satisfied(c, p, s)
  {
    var e := Evaluation(p, s);
    CheckMeaning(c, p, s);
    var o := Check(c, p, s);
    if HasReason(e.reasons, c) {
      var i :| 0 <= i < |e.reasons| && e.reasons[i].Criterion() == c;
      ReasonsListed(p, s, e.reasons[i]);
    }
    if o.Met? {
      ReasonsListed(p, s, o.reason);
      assert e.reasons[IndexOf(e.reasons, o.reason)].Criterion() == c;
    }
    if HasGap(e.missingCriteria, c) {
      var i :| 0 <= i < |e.missingCriteria| && e.missingCriteria[i].Criterion() == c;
      GapsListed(p, s, e.missingCriteria[i]);
    }
    if o.Unmet? {
      GapsListed(p, s, o.missing);
      assert e.missingCriteria[IndexOf(e.missingCriteria, o.missing)].Criterion() == c;
    }
  }

  /** A position at which `x` occurs in `xs`. */
  function IndexOf<T(==)>(xs: seq<T>, x: T): (i: nat)
    requires x in xs
    ensures i < |xs| && xs[i] == x
  {
    if xs[0] == x then 0 else 1 + IndexOf(xs[1..], x)
  }

  /** How many of the first `n` criteria the scheme defines and the profile satisfies. */
  function MetUpTo(p: Profile, s: Scheme, n: nat): nat
    requires n <= CriteriaCount
  {
    if n == 0 then 0 else MetUpTo(p, s, n - 1) + Ind(Active(CriterionAt(n - 1), s) && Satisfied(CriterionAt(n - 1), p, s))
  }

  /** The number of criteria the scheme defines and the profile satisfies. */
  function MetCount(p: Profile, s: Scheme): nat {
    MetUpTo(p, s, CriteriaCount)
  }

  /** The engine's `matchScore` after `n` checks counts the satisfied criteria among the first `n`. */
  lemma {:induction false} MatchedUpTo(p: Profile, s: Scheme, n: nat)
    requires n <= CriteriaCount
    ensures TallyOf(Outcomes(p, s), n).matchScore == MetUpTo(p, s, n)
  {
    if n > 0 {
      MatchedUpTo(p, s, n - 1);
      OutcomeAt(p, s, CriteriaCount, n - 1);
      CheckMeaning(CriterionAt(n - 1), p, s);
    }
  }

  /**
   * The result in terms of the two counts: one sentence per satisfied
   * criterion, one entry per defined criterion, and the score is
   * `Math.round(100 * met / defined)`, or 100 when the scheme defines none.
   */
  lemma ScoreFormula(p: Profile, s: Scheme)
    ensures |Evaluation(p, s).reasons| == MetCount(p, s) <= ActiveCount(s)
    ensures |Evaluation(p, s).reasons| + |Evaluation(p, s).missingCriteria| == ActiveCount(s)
    ensures Evaluation(p, s).confidenceScore ==
      if ActiveCount(s) == 0 then 100 else (200 * MetCount(p, s) + ActiveCount(s)) / (2 * ActiveCount(s))
  {
    var t := TallyOf(Outcomes(p, s), CriteriaCount);
    TotalIsActiveCount(p, s);
    MatchedUpTo(p, s, CriteriaCount);
    assert Evaluation(p, s).confidenceScore == Score(t.matchScore, t.totalCriteria);
  }

  /** A scheme that defines no criterion: empty lists, score 100, eligible. */
  lemma NoCriteria(p: Profile, s: Scheme)
    requires ActiveCount(s) == 0
    ensures Evaluation(p, s).reasons == [] && Evaluation(p, s).missingCriteria == []
    ensures Evaluation(p, s).confidenceScore == 100 && Evaluation(p, s).isEligible
  {
    ScoreFormula(p, s);
  }

  /** Rounding `100 * (m + 1) / (t + 1)` gives at least the rounding `r` of `100 * m / t`. */
  lemma RoundingGrows(m: int, t: int, r: nat, r': nat)
    requires t > 0 && r <= 100
    requires 2 * t * r <= 200 * m + t
    requires 200 * (m + 1) + (t + 1) < 2 * (t + 1) * (r' + 1)
    ensures r <= r'
  {
    assert 2 * (t + 1) * r == 2 * t * r + 2 * r;
    MulMonotone(2 * (t + 1), r' + 1, r);
  }

  /** Rounding `100 * m / (t + 1)` gives at most the rounding `r` of `100 * m / t`. */
  lemma RoundingShrinks(m: int, t: int, r: nat, r': nat)
    requires t > 0
    requires 200 * m + t < 2 * t * (r + 1)
    requires 2 * (t + 1) * r' <= 200 * m + (t + 1)
    ensures r' <= r
  {
    assert 2 * (t + 1) * r' == 2 * t * r' + 2 * r';
    MulMonotone(2 * t, r + 1, r');
  }

  /** One more criterion, met, never lowers the score. */
  lemma ScoreGrowsWithMet(matched: nat, total: nat)
    requires matched <= total
    ensures Score(matched + 1, total + 1) >= Score(matched, total)
  {
    if total > 0 {
      var r, r' := RoundedPercent(matched, total), RoundedPercent(matched + 1, total + 1);
      RoundingGrows(matched, total, r, r');
    }
  }

  /** One more criterion, unmet, never raises the score. */
  lemma ScoreShrinksWithUnmet(matched: nat, total: nat)
    requires matched <= total
    ensures Score(matched, total + 1) <= Score(matched, total)
  {
    if total > 0 {
      var r, r' := RoundedPercent(matched, total), RoundedPercent(matched, total + 1);
      RoundingShrinks(matched, total, r, r');
    }
  }

  /**
   * Both counts over the first `n` criteria when `s'` defines criterion `c`
   * on top of `s` and agrees with it on every other criterion.
   */
  lemma {:induction false} CountsWithOneMore(p: Profile, s: Scheme, s': Scheme, c: Criterion, n: nat)
    requires n <= CriteriaCount
    requires !Active(c, s) && Active(c, s')
    requires forall d :: d != c ==> Active(d, s') == Active(d, s) && Satisfied(d, p, s') == Satisfied(d, p, s)
    ensures ActiveUpTo(s', n) == ActiveUpTo(s, n) + Ind(Index(c) < n)
    ensures MetUpTo(p, s', n) == MetUpTo(p, s, n) + Ind(Index(c) < n && Satisfied(c, p, s'))
  {
    if n > 0 {
      CountsWithOneMore(p, s, s', c, n - 1);
      IndexOfCriterionAt(n - 1);
      var d := CriterionAt(n - 1);
      if d != c {
        assert Active(d, s') == Active(d, s) && Satisfied(d, p, s') == Satisfied(d, p, s);
      }
    }
  }

  /** The score and the verdict as functions of the two counts taken in checking order. */
  lemma ScoreByCounts(p: Profile, s: Scheme)
    ensures MetCount(p, s) <= ActiveUpTo(s, CriteriaCount)
    ensures Evaluation(p, s).confidenceScore == Score(MetCount(p, s), ActiveUpTo(s, CriteriaCount))
    ensures Evaluation(p, s).isEligible <==> MetCount(p, s) == ActiveUpTo(s, CriteriaCount)
  {
    TotalUpTo(p, s, CriteriaCount);
    MatchedUpTo(p, s, CriteriaCount);
    EligibleIffNothingMissing(p, s);
  }

  /**
   * Defining one more criterion that the profile satisfies, with every other
   * criterion unchanged, never lowers the score and keeps the verdict.
   */
  lemma AddSatisfiedCriterion(p: Profile, s: Scheme, s': Scheme, c: Criterion)
    requires !Active(c, s) && Active(c, s') && Satisfied(c, p, s')
    requires forall d :: d != c ==> Active(d, s') == Active(d, s) && Satisfied(d, p, s') == Satisfied(d, p, s)
    ensures Evaluation(p, s').confidenceScore >= Evaluation(p, s).confidenceScore
    ensures Evaluation(p, s').isEligible == Evaluation(p, s).isEligible
  {
    CountsWithOneMore(p, s, s', c, CriteriaCount);
    ScoreByCounts(p, s);
    ScoreByCounts(p, s');
    ScoreGrowsWithMet(MetCount(p, s), ActiveUpTo(s, CriteriaCount));
  }

  /**
   * Defining one more criterion that the profile fails, with every other
   * criterion unchanged, never raises the score and makes it ineligible.
   */
  lemma AddUnsatisfiedCriterion(p: Profile, s: Scheme, s': Scheme, c: Criterion)
    requires !Active(c, s) && Active(c, s') && !Satisfied(c, p, s')
    requires forall d :: d != c ==> Active(d, s') == Active(d, s) && Satisfied(d, p, s') == Satisfied(d, p, s)
    ensures Evaluation(p, s').confidenceScore <= Evaluation(p, s).confidenceScore
    ensures !Evaluation(p, s').isEligible
  {
    CountsWithOneMore(p, s, s', c, CriteriaCount);
    ScoreByCounts(p, s);
    ScoreByCounts(p, s');
    ScoreShrinksWithUnmet(MetCount(p, s), ActiveUpTo(s, CriteriaCount));
  }

  /**
   * The age criterion: inclusive bounds, 0 and 150 standing in for an absent
   * bound; an absent age is always a gap when the scheme has an age bound.
   */
  lemma AgeCriterion(p: Profile, s: Scheme)
    ensures AgeRequired in Evaluation(p, s).missingCriteria <==> (s.minAge.Some? || s.maxAge.Some?) && p.age.None?
    ensures p.age.Some? ==>
      var lo, hi := s.minAge.GetOr(0), s.maxAge.GetOr(150);
      && (AgeWithinRange(p.age.value, lo, hi) in Evaluation(p, s).reasons
          <==> (s.minAge.Some? || s.maxAge.Some?) && lo <= p.age.value <= hi)
      && (AgeOutOfRange(lo, hi) in Evaluation(p, s).missingCriteria
          <==> (s.minAge.Some? || s.maxAge.Some?) && !(lo <= p.age.value <= hi))
  {
    GapsListed(p, s, AgeRequired);
    if p.age.Some? {
      var lo, hi := s.minAge.GetOr(0), s.maxAge.GetOr(150);
      ReasonsListed(p, s, AgeWithinRange(p.age.value, lo, hi));
      GapsListed(p, s, AgeOutOfRange(lo, hi));
    }
  }

  /** The income criterion: the limit is inclusive; an absent income is a gap. */
  lemma IncomeCriterion(p: Profile, s: Scheme)
    requires s.maxIncome.Some?
    ensures IncomeRequired in Evaluation(p, s).missingCriteria <==> p.annualIncome.None?
    ensures p.annualIncome.Some? ==>
      && (IncomeWithinLimit(p.annualIncome.value, s.maxIncome.value) in Evaluation(p, s).reasons
          <==> p.annualIncome.value <= s.maxIncome.value)
      && (IncomeAboveLimit(s.maxIncome.value) in Evaluation(p, s).missingCriteria
          <==> p.annualIncome.value > s.maxIncome.value)
  {
    GapsListed(p, s, IncomeRequired);
    if p.annualIncome.Some? {
      ReasonsListed(p, s, IncomeWithinLimit(p.annualIncome.value, s.maxIncome.value));
      GapsListed(p, s, IncomeAboveLimit(s.maxIncome.value));
    }
  }

  /**
   * A disability of "none", like an absent one, never qualifies, even when
   * the scheme lists "none"; it is a gap whenever the scheme lists any.
   */
  lemma DisabilityNoneNeverQualifies(p: Profile, s: Scheme)
    requires p.disability.None? || p.disability == Some(DisabilityNone)
    ensures !HasReason(Evaluation(p, s).reasons, Disability)
    ensures DisabilityRequired in Evaluation(p, s).missingCriteria <==> NonEmpty(s.disabilities)
  {
    CriterionReported(p, s, Disability);
    GapsListed(p, s, DisabilityRequired);
  }

  /** An absent or empty state name never qualifies; it is a gap whenever the scheme lists states. */
  lemma EmptyStateNeverQualifies(p: Profile, s: Scheme)
    requires p.state.None? || p.state == Some("")
    ensures !HasReason(Evaluation(p, s).reasons, State)
    ensures StateRequired in Evaluation(p, s).missingCriteria <==> NonEmpty(s.states)
  {
    CriterionReported(p, s, State);
    GapsListed(p, s, StateRequired);
  }

  /** The two flag criteria apply only when the scheme's flag is true, and only a true profile flag meets them. */
  lemma FlagCriteria(p: Profile, s: Scheme)
    ensures BplQualifies in Evaluation(p, s).reasons <==> s.bplOnly == Some(true) && p.isBpl == Some(true)
    ensures BplOnly in Evaluation(p, s).missingCriteria <==> s.bplOnly == Some(true) && p.isBpl != Some(true)
    ensures MinorityQualifies in Evaluation(p, s).reasons <==> s.minorityOnly == Some(true) && p.isMinority == Some(true)
    ensures MinorityOnly in Evaluation(p, s).missingCriteria <==> s.minorityOnly == Some(true) && p.isMinority != Some(true)
  {
    ReasonsListed(p, s, BplQualifies);
    GapsListed(p, s, BplOnly);
    ReasonsListed(p, s, MinorityQualifies);
    GapsListed(p, s, MinorityOnly);
  }

  /** A 22-year-old woman from Kerala with an income of 150000, not below the poverty line. */
  const SampleProfile: Profile :=
    Profile(Some(22), Some(Female), Some(General), None, None, None, Some(150000), Some("Kerala"), Some(false), None)

  /** A scheme for women aged 18 to 35 in Kerala or Tamil Nadu earning at most 200000. */
  const SampleScheme: Scheme :=
    Scheme("sample", "Sample scheme", None, Some(18), Some(35), Some([Female]), None, None, None, None,
           Some(200000), Some(["Kerala", "Tamil Nadu"]), None, None)

  /** The sample scheme restricted to families below the poverty line. */
  const SampleBplScheme: Scheme := SampleScheme.(bplOnly := Some(true))

  /** The sample scheme defines age, gender, income and state; the restricted one adds the poverty line. */
  lemma SampleActiveCounts()
    ensures ActiveCount(SampleScheme) == 4
    ensures ActiveCount(SampleBplScheme) == 5
  {
  }

  /** The sample profile meets all four criteria of the sample scheme. */
  lemma SampleMetCount()
    ensures MetCount(SampleProfile, SampleScheme) == 4
  {
  }

  /** It meets the same four of the restricted scheme, and not the poverty line. */
  lemma SampleBplMetCount()
    ensures MetCount(SampleProfile, SampleBplScheme) == 4
  {
  }

  /** All four defined criteria met: score 100, eligible, nothing missing. */
  lemma SampleFullMatch()
    ensures Evaluation(SampleProfile, SampleScheme).confidenceScore == 100
    ensures Evaluation(SampleProfile, SampleScheme).isEligible
    ensures Evaluation(SampleProfile, SampleScheme).missingCriteria == []
    ensures |Evaluation(SampleProfile, SampleScheme).reasons| == 4
  {
    SampleActiveCounts();
    SampleMetCount();
    ScoreFormula(SampleProfile, SampleScheme);
    EligibleIffNothingMissing(SampleProfile, SampleScheme);
  }

  /**
   * The restricted scheme: four of five met gives 80, but the one gap makes
   * the profile ineligible.
   */
  lemma SamplePartialMatch()
    ensures Evaluation(SampleProfile, SampleBplScheme).confidenceScore == 80
    ensures Evaluation(SampleProfile, SampleBplScheme).missingCriteria == [BplOnly]
    ensures !Evaluation(SampleProfile, SampleBplScheme).isEligible
  {
    SampleActiveCounts();
    SampleBplMetCount();
    OneUnmetFlag(SampleProfile, SampleBplScheme);
  }

  /** Exactly one gap, about the poverty line: the gap list is that one entry and the profile is ineligible. */
  lemma OneUnmetFlag(p: Profile, s: Scheme)
    requires ActiveCount(s) == MetCount(p, s) + 1
    requires s.bplOnly == Some(true) && p.isBpl != Some(true)
    ensures Evaluation(p, s).missingCriteria == [BplOnly]
    ensures !Evaluation(p, s).isEligible
    ensures Evaluation(p, s).confidenceScore == (200 * MetCount(p, s) + ActiveCount(s)) / (2 * ActiveCount(s))
  {
    ScoreFormula(p, s);
    EligibleIffNothingMissing(p, s);
    GapsListed(p, s, BplOnly);
    var ms := Evaluation(p, s).missingCriteria;
    assert |ms| == 1 && BplOnly in ms;
  }
}
