/**
  Quality metrics of the evaluated modes and their Pareto comparison. Dominance skips metrics that one side leaves
  undefined, so it is not transitive in general; whether a frontier can be empty depends on which metrics the evaluator
  leaves undefined.
*/
module Pareto {
  import opened Collections
  import opened Wrappers

  // ---- The evaluator ----

  datatype Metric =
    | RiskRecall | RiskPrecision | SeverityConsistency | ControlCoverage | GovernanceCoverage | HumanOversightAccuracy
    | ArchitectureFit | OverEngineeringAvoidance | Groundedness | UnsupportedClaimRate | AppropriateAbstention
    | SpecialistPreservation | SynthesisTransparency

  const METRIC_NAMES: seq<Metric> := [
    RiskRecall, RiskPrecision, SeverityConsistency, ControlCoverage, GovernanceCoverage, HumanOversightAccuracy,
    ArchitectureFit, OverEngineeringAvoidance, Groundedness, UnsupportedClaimRate, AppropriateAbstention,
    SpecialistPreservation, SynthesisTransparency]

  datatype Metrics = Metrics(
    riskRecall: Option<real>, riskPrecision: Option<real>, severityConsistency: Option<real>,
    controlCoverage: Option<real>, governanceCoverage: Option<real>, humanOversightAccuracy: Option<real>,
    architectureFit: Option<real>, overEngineeringAvoidance: Option<real>, groundedness: Option<real>,
    unsupportedClaimRate: Option<real>, appropriateAbstention: Option<real>, specialistPreservation: Option<real>,
    synthesisTransparency: Option<real>)

  function Value(m: Metrics, name: Metric): Option<real> {
    match name
    case RiskRecall => m.riskRecall
    case RiskPrecision => m.riskPrecision
    case SeverityConsistency => m.severityConsistency
    case ControlCoverage => m.controlCoverage
    case GovernanceCoverage => m.governanceCoverage
    case HumanOversightAccuracy => m.humanOversightAccuracy
    case ArchitectureFit => m.architectureFit
    case OverEngineeringAvoidance => m.overEngineeringAvoidance
    case Groundedness => m.groundedness
    case UnsupportedClaimRate => m.unsupportedClaimRate
    case AppropriateAbstention => m.appropriateAbstention
    case SpecialistPreservation => m.specialistPreservation
    case SynthesisTransparency => m.synthesisTransparency
  }

  datatype Source = AssessmentInput | RetrievedEvidence | SpecialistOutput | SystemKnowledge

  datatype Support = Support(source: Source, reference: Option<string>, systemCategory: Option<string>)

  datatype Requirement = Requirement(
    allowedSources: set<Source>, allowedReferences: set<string>, allowedFindings: set<string>,
    allowedCategories: set<string>, citationRequired: bool)

  datatype Claim = Claim(id: string, supports: seq<Support>)

  datatype Architecture =
    | DeterministicSufficient | SimplerWorkflowPreferred | MultiAgentUnnecessary | AgentWorkflowJustified
    | MultiAgentJustified | OtherCharacteristic(name: string)

  datatype Specialists = Specialists(
    available: set<string>, important: set<string>, disagreements: set<string>, unavailable: set<string>)

  // Expected risks and their severities, and the other expectations of one benchmark case.
  datatype BenchmarkCase = BenchmarkCase(
    risks: map<string, string>, controls: set<string>, governance: set<string>, architecture: set<Architecture>,
    oversight: bool, requirements: map<string, Requirement>, abstentionRequired: bool, uncertaintyRequired: bool,
    validationRequired: bool)

  // The schema's non-empty expectations.
  predicate ValidCase(c: BenchmarkCase) {
    c.risks != map[] && c.controls != {} && c.governance != {} && c.architecture != {}
  }

  datatype Output = Output(
    risks: map<string, string>, controls: set<string>, governance: set<string>, architecture: set<Architecture>,
    oversight: bool, uncertaintyAcknowledged: bool, abstained: bool, validationRecommended: bool, claims: seq<Claim>,
    specialists: Option<Specialists>, preserved: set<string>, surfaced: set<string>, degradationReasons: seq<string>,
    degradedAcknowledged: bool)

  predicate SupportIsValid(support: Support, requirement: Requirement, findings: set<string>) {
    && support.source in requirement.allowedSources
    && match support.source
       case AssessmentInput => support.reference.None? && support.systemCategory.None?
       case RetrievedEvidence => support.reference.Some? && support.reference.value in requirement.allowedReferences
       case SpecialistOutput =>
         && support.reference.Some? && support.reference.value in requirement.allowedFindings
         && support.reference.value in findings
       case SystemKnowledge => support.systemCategory.Some? && support.systemCategory.value in requirement.allowedCategories
  }

  predicate ClaimSupported(claim: Claim, requirements: map<string, Requirement>, findings: set<string>) {
    && claim.id in requirements
    && exists i | 0 <= i < |claim.supports| :: SupportIsValid(claim.supports[i], requirements[claim.id], findings)
  }

  function UnsupportedClaims(claims: seq<Claim>, requirements: map<string, Requirement>, findings: set<string>): (ids: seq<string>)
    ensures |ids| <= |claims|
  {
    if claims == [] then []
    else
      UnsupportedClaims(claims[..|claims| - 1], requirements, findings)
      + if ClaimSupported(claims[|claims| - 1], requirements, findings) then [] else [claims[|claims| - 1].id]
  }

  predicate CitesEvidence(claim: Claim) {
    exists i | 0 <= i < |claim.supports| :: claim.supports[i].source == RetrievedEvidence
  }

  predicate CitesAllowed(claim: Claim, requirement: Requirement) {
    exists i | 0 <= i < |claim.supports| ::
      && claim.supports[i].source == RetrievedEvidence && claim.supports[i].reference.Some?
      && claim.supports[i].reference.value in requirement.allowedReferences
  }

  predicate NeedsCitation(claim: Claim, requirements: map<string, Requirement>) {
    claim.id in requirements && requirements[claim.id].citationRequired
  }

  function MissingCitations(claims: seq<Claim>, requirements: map<string, Requirement>): seq<string> {
    if claims == [] then []
    else
      var last := claims[|claims| - 1];
      MissingCitations(claims[..|claims| - 1], requirements)
      + if NeedsCitation(last, requirements) && !CitesEvidence(last) then [last.id] else []
  }

  function InvalidCitations(claims: seq<Claim>, requirements: map<string, Requirement>): seq<string> {
    if claims == [] then []
    else
      var last := claims[|claims| - 1];
      InvalidCitations(claims[..|claims| - 1], requirements)
      + if NeedsCitation(last, requirements) && CitesEvidence(last) && !CitesAllowed(last, requirements[last.id])
        then [last.id] else []
  }

  // The loop over the claims.
  method ScanClaims(claims: seq<Claim>, requirements: map<string, Requirement>, findings: set<string>)
    returns (unsupported: seq<string>, missing: seq<string>, invalid: seq<string>)
    ensures unsupported == UnsupportedClaims(claims, requirements, findings)
    ensures missing == MissingCitations(claims, requirements) && invalid == InvalidCitations(claims, requirements)
  {
    hide SupportIsValid, CitesEvidence, CitesAllowed;
    unsupported, missing, invalid := [], [], [];
    for k := 0 to |claims|
      invariant unsupported == UnsupportedClaims(claims[..k], requirements, findings)
      invariant missing == MissingCitations(claims[..k], requirements)
      invariant invalid == InvalidCitations(claims[..k], requirements)
    {
      var claim := claims[k];
      assert claims[..k + 1][..k] == claims[..k];
      if claim.id !in requirements {
        unsupported := unsupported + [claim.id];
        continue;
      }
      var requirement := requirements[claim.id];
      var valid := exists i | 0 <= i < |claim.supports| :: SupportIsValid(claim.supports[i], requirement, findings);
      if !valid {
        unsupported := unsupported + [claim.id];
      }
      if requirement.citationRequired {
        if !CitesEvidence(claim) {
          missing := missing + [claim.id];
        } else if !CitesAllowed(claim, requirement) {
          invalid := invalid + [claim.id];
        }
      }
    }
    assert claims[..|claims|] == claims;
  }

  function Share(part: nat, whole: nat): real
    requires whole > 0
  {
    part as real / whole as real
  }

  function Indicator(b: bool): real {
    if b then 1.0 else 0.0
  }

  function CountTrue(checks: seq<bool>): nat {
    if checks == [] then 0 else (if checks[0] then 1 else 0) + CountTrue(checks[1..])
  }

  function AbstentionScore(c: BenchmarkCase, o: Output): real {
    if c.abstentionRequired then
      var checks := [o.abstained] + (if c.uncertaintyRequired then [o.uncertaintyAcknowledged] else [])
                    + if c.validationRequired then [o.validationRecommended] else [];
      Share(CountTrue(checks), |checks|)
    else Indicator(!o.abstained)
  }

  function Preservation(o: Output): Option<real> {
    match o.specialists
    case None => None
    case Some(s) => if s.important == {} then None else Some(Share(|s.important * o.preserved|, |s.important|))
  }

  function Transparency(o: Output): Option<real> {
    match o.specialists
    case None => None
    case Some(s) =>
      var checks := [o.preserved <= s.available]
                    + (if s.disagreements != {} then [s.disagreements <= o.surfaced] else [])
                    + if s.unavailable != {} || o.degradationReasons != [] then [o.degradedAcknowledged] else [];
      Some(Share(CountTrue(checks), |checks|))
  }

  function MatchedRisks(c: BenchmarkCase, o: Output): set<string> {
    c.risks.Keys * o.risks.Keys
  }

  function Findings(o: Output): set<string> {
    if o.specialists.Some? then o.specialists.value.available else {}
  }

  // How many claims nothing supports.
  function Unsupported(c: BenchmarkCase, o: Output): (n: nat)
    ensures n <= |o.claims|
  {
    |UnsupportedClaims(o.claims, c.requirements, Findings(o))|
  }

  function SupportedShare(c: BenchmarkCase, o: Output): Option<real> {
    if o.claims == [] then None else Some(Share(|o.claims| - Unsupported(c, o), |o.claims|))
  }

  function UnsupportedShare(c: BenchmarkCase, o: Output): Option<real> {
    if o.claims == [] then None else Some(Share(Unsupported(c, o), |o.claims|))
  }

  function Agreement(c: BenchmarkCase, o: Output): Option<real> {
    var matched := MatchedRisks(c, o);
    var agreeing := set r | r in matched && c.risks[r] == o.risks[r];
    if matched == {} then None else Some(Share(|agreeing|, |matched|))
  }

  function Restraint(c: BenchmarkCase, o: Output): Option<real> {
    var simple := {DeterministicSufficient, SimplerWorkflowPreferred, MultiAgentUnnecessary} * c.architecture != {};
    var excessive := {AgentWorkflowJustified, MultiAgentJustified} * o.architecture != {};
    if simple then Some(Indicator(!excessive)) else None
  }

  function Evaluate(c: BenchmarkCase, o: Output): Metrics
    requires ValidCase(c)
  {
    var matched := MatchedRisks(c, o);
    Metrics(
      Some(Share(|matched|, |c.risks.Keys|)),
      Some(if o.risks.Keys != {} then Share(|matched|, |o.risks.Keys|) else 0.0),
      Agreement(c, o),
      Some(Share(|c.controls * o.controls|, |c.controls|)),
      Some(Share(|c.governance * o.governance|, |c.governance|)),
      Some(Indicator(o.oversight == c.oversight)),
      Some(Share(|c.architecture * o.architecture|, |c.architecture|)),
      Restraint(c, o),
      SupportedShare(c, o),
      UnsupportedShare(c, o),
      Some(AbstentionScore(c, o)),
      Preservation(o),
      Transparency(o))
  }

  lemma {:induction false} UnsupportedDistributes(first: seq<Claim>, last: seq<Claim>, requirements: map<string, Requirement>,
                                                   findings: set<string>)
    ensures UnsupportedClaims(first + last, requirements, findings)
         == UnsupportedClaims(first, requirements, findings) + UnsupportedClaims(last, requirements, findings)
  {
    hide ClaimSupported;
    if last == [] {
      assert first + last == first;
    } else {
      var k, all := |last| - 1, first + last;
      UnsupportedDistributes(first, last[..k], requirements, findings);
      assert all[..|all| - 1] == first + last[..k] && all[|all| - 1] == last[k];
      var one := if ClaimSupported(last[k], requirements, findings) then [] else [last[k].id];
      assert UnsupportedClaims(all, requirements, findings) == UnsupportedClaims(first + last[..k], requirements, findings) + one;
      assert UnsupportedClaims(last, requirements, findings) == UnsupportedClaims(last[..k], requirements, findings) + one;
      hide UnsupportedClaims;
    }
  }

  /** A claim is unsupported unless some support names what its requirement allows for the support's source. */
  lemma OneClaimIsSupported(claim: Claim, requirements: map<string, Requirement>, findings: set<string>)
    ensures UnsupportedClaims([claim], requirements, findings) == [] || UnsupportedClaims([claim], requirements, findings) == [claim.id]
    ensures UnsupportedClaims([claim], requirements, findings) == [] <==>
      claim.id in requirements && exists i | 0 <= i < |claim.supports| ::
        var s, r := claim.supports[i], requirements[claim.id];
        && s.source in r.allowedSources
        && (s.source == AssessmentInput ==> s.reference == None && s.systemCategory == None)
        && (s.source in {RetrievedEvidence, SpecialistOutput} ==> s.reference.Some?)
        && (s.source == RetrievedEvidence ==> s.reference.value in r.allowedReferences)
        && (s.source == SpecialistOutput ==> s.reference.value in r.allowedFindings * findings)
        && (s.source == SystemKnowledge ==> s.systemCategory.Some? && s.systemCategory.value in r.allowedCategories)
  {
    assert UnsupportedClaims([], requirements, findings) == [];
    assert [claim][..0] == [];
  }

  lemma WholeShare(part: nat, whole: nat)
    requires part <= whole && whole > 0
    ensures 0.0 <= Share(part, whole) <= 1.0
    ensures Share(part, whole) == 1.0 <==> part == whole
    ensures Share(part, whole) == 0.0 <==> part == 0
  {
  }

  lemma CommonShare<T>(some: set<T>, all: set<T>)
    requires all != {}
    ensures 0.0 <= Share(|some * all|, |all|) <= 1.0
    ensures Share(|some * all|, |all|) == 1.0 <==> all <= some
    ensures Share(|some * all|, |all|) == 0.0 <==> some !! all
  {
    assert |all| == |some * all| + |all - some| by {
      assert all == (some * all) + (all - some);
    }
    WholeShare(|some * all|, |all|);
    hide Share;
    if x :| x in all && x !in some {
      assert x in all - some;
    } else {
      assert all - some == {};
    }
    if x :| x in all && x in some {
      assert x in some * all;
    } else {
      assert some * all == {};
    }
  }

  /** What a perfect and an empty score of a coverage metric say. */
  lemma CoverageScoresMean(c: BenchmarkCase, o: Output)
    requires ValidCase(c)
    ensures var m := Evaluate(c, o);
      && m.riskRecall.Some? && (m.riskRecall.value == 1.0 <==> c.risks.Keys <= o.risks.Keys)
      && (m.riskRecall.value == 0.0 <==> c.risks.Keys !! o.risks.Keys)
      && m.riskPrecision.Some? && (m.riskPrecision.value == 1.0 <==> o.risks != map[] && o.risks.Keys <= c.risks.Keys)
      && (m.riskPrecision.value == 0.0 <==> c.risks.Keys !! o.risks.Keys)
      && m.controlCoverage.Some? && (m.controlCoverage.value == 1.0 <==> c.controls <= o.controls)
      && (m.controlCoverage.value == 0.0 <==> c.controls !! o.controls)
      && m.governanceCoverage.Some? && (m.governanceCoverage.value == 1.0 <==> c.governance <= o.governance)
      && (m.governanceCoverage.value == 0.0 <==> c.governance !! o.governance)
      && m.architectureFit.Some? && (m.architectureFit.value == 1.0 <==> c.architecture <= o.architecture)
      && (m.architectureFit.value == 0.0 <==> c.architecture !! o.architecture)
  {
    hide Indicator, AbstentionScore, Preservation, Transparency, Agreement, Restraint, SupportedShare, UnsupportedShare, Share;
    CommonShare(o.risks.Keys, c.risks.Keys);
    assert o.risks.Keys * c.risks.Keys == c.risks.Keys * o.risks.Keys;
    if o.risks.Keys != {} {
      CommonShare(c.risks.Keys, o.risks.Keys);
    }
    CommonShare(o.controls, c.controls);
    assert o.controls * c.controls == c.controls * o.controls;
    CommonShare(o.governance, c.governance);
    assert o.governance * c.governance == c.governance * o.governance;
    CommonShare(o.architecture, c.architecture);
    assert o.architecture * c.architecture == c.architecture * o.architecture;
  }

  lemma AgreementMeans(c: BenchmarkCase, o: Output)
    ensures Agreement(c, o) == Some(1.0) <==>
      c.risks.Keys * o.risks.Keys != {} && forall r | r in c.risks && r in o.risks :: c.risks[r] == o.risks[r]
  {
    hide Share;
    var matched := MatchedRisks(c, o);
    var agreeing := set r | r in matched && c.risks[r] == o.risks[r];
    if matched != {} {
      assert agreeing * matched == agreeing;
      CommonShare(agreeing, matched);
      if matched <= agreeing {
        forall r | r in c.risks && r in o.risks ensures c.risks[r] == o.risks[r] {
          assert r in matched;
        }
      }
    }
  }

  lemma ClaimSharesMean(c: BenchmarkCase, o: Output)
    ensures SupportedShare(c, o) == Some(1.0) <==> o.claims != [] && Unsupported(c, o) == 0
    ensures UnsupportedShare(c, o) == Some(0.0) <==> o.claims != [] && Unsupported(c, o) == 0
  {
    hide Unsupported, Share;
    if o.claims != [] {
      WholeShare(|o.claims| - Unsupported(c, o), |o.claims|);
      WholeShare(Unsupported(c, o), |o.claims|);
    }
  }

  lemma RestraintMeans(c: BenchmarkCase, o: Output)
    ensures Restraint(c, o) == Some(0.0) <==>
      && c.architecture * {DeterministicSufficient, SimplerWorkflowPreferred, MultiAgentUnnecessary} != {}
      && o.architecture * {AgentWorkflowJustified, MultiAgentJustified} != {}
  {
    var simple, excessive := {DeterministicSufficient, SimplerWorkflowPreferred, MultiAgentUnnecessary},
                             {AgentWorkflowJustified, MultiAgentJustified};
    assert c.architecture * simple == simple * c.architecture && o.architecture * excessive == excessive * o.architecture;
  }

  /** What the best or worst score of the other metrics says. */
  lemma JudgementScoresMean(c: BenchmarkCase, o: Output)
    requires ValidCase(c)
    ensures var m := Evaluate(c, o);
      && (m.severityConsistency == Some(1.0) <==>
           c.risks.Keys * o.risks.Keys != {} && forall r | r in c.risks && r in o.risks :: c.risks[r] == o.risks[r])
      && (m.humanOversightAccuracy == Some(1.0) <==> o.oversight == c.oversight)
      && (m.overEngineeringAvoidance == Some(0.0) <==>
           c.architecture * {DeterministicSufficient, SimplerWorkflowPreferred, MultiAgentUnnecessary} != {}
           && o.architecture * {AgentWorkflowJustified, MultiAgentJustified} != {})
      && (m.groundedness == Some(1.0) <==> o.claims != [] && Unsupported(c, o) == 0)
      && (m.unsupportedClaimRate == Some(0.0) <==> o.claims != [] && Unsupported(c, o) == 0)
  {
    hide AbstentionScore, Preservation, Transparency, Unsupported, Share, Agreement, Restraint, SupportedShare, UnsupportedShare;
    AgreementMeans(c, o);
    ClaimSharesMean(c, o);
    RestraintMeans(c, o);
  }

  lemma {:induction false} AllTrue(checks: seq<bool>)
    ensures CountTrue(checks) <= |checks|
    ensures CountTrue(checks) == |checks| <==> forall i | 0 <= i < |checks| :: checks[i]
  {
    if checks != [] {
      AllTrue(checks[1..]);
      assert forall i | 0 < i < |checks| :: checks[i] == checks[1..][i - 1];
    }
  }

  lemma AbstentionMeans(c: BenchmarkCase, o: Output)
    ensures AbstentionScore(c, o) == 1.0 <==>
      if c.abstentionRequired
      then o.abstained && (c.uncertaintyRequired ==> o.uncertaintyAcknowledged) && (c.validationRequired ==> o.validationRecommended)
      else !o.abstained
  {
    hide Share, CountTrue;
    if c.abstentionRequired {
      var first, second := [o.abstained], if c.uncertaintyRequired then [o.uncertaintyAcknowledged] else [];
      var checks := first + second + if c.validationRequired then [o.validationRecommended] else [];
      AllTrue(checks);
      WholeShare(CountTrue(checks), |checks|);
      assert AbstentionScore(c, o) == Share(CountTrue(checks), |checks|);
      assert checks[0] == o.abstained;
      assert c.uncertaintyRequired ==> checks[1] == o.uncertaintyAcknowledged;
      assert c.validationRequired ==> checks[|checks| - 1] == o.validationRecommended;
    }
  }

  lemma SynthesisMeans(o: Output)
    ensures Preservation(o) == Some(1.0) <==>
      o.specialists.Some? && o.specialists.value.important != {} && o.specialists.value.important <= o.preserved
    ensures Transparency(o) == Some(1.0) <==>
      && o.specialists.Some? && o.preserved <= o.specialists.value.available
      && o.specialists.value.disagreements <= o.surfaced
      && ((o.specialists.value.unavailable == {} && o.degradationReasons == []) || o.degradedAcknowledged)
  {
    hide Share, CountTrue;
    if o.specialists.Some? {
      var s := o.specialists.value;
      if s.important != {} {
        CommonShare(o.preserved, s.important);
        assert o.preserved * s.important == s.important * o.preserved;
      }
      var degraded := s.unavailable != {} || o.degradationReasons != [];
      var first, second := [o.preserved <= s.available], if s.disagreements != {} then [s.disagreements <= o.surfaced] else [];
      var checks := first + second + if degraded then [o.degradedAcknowledged] else [];
      AllTrue(checks);
      WholeShare(CountTrue(checks), |checks|);
      assert Transparency(o) == Some(Share(CountTrue(checks), |checks|));
      assert checks[0] == (o.preserved <= s.available);
      assert s.disagreements != {} ==> checks[1] == (s.disagreements <= o.surfaced);
      assert degraded ==> checks[|checks| - 1] == o.degradedAcknowledged;
    }
  }

  /** What a perfect score of the run's conduct says: abstention, and the treatment of the specialists' findings. */
  lemma ConductScoresMean(c: BenchmarkCase, o: Output)
    requires ValidCase(c)
    ensures var m := Evaluate(c, o);
      && (m.appropriateAbstention == Some(1.0) <==>
           if c.abstentionRequired
           then o.abstained && (c.uncertaintyRequired ==> o.uncertaintyAcknowledged) && (c.validationRequired ==> o.validationRecommended)
           else !o.abstained)
      && (m.specialistPreservation == Some(1.0) <==>
           o.specialists.Some? && o.specialists.value.important != {} && o.specialists.value.important <= o.preserved)
      && (m.synthesisTransparency == Some(1.0) <==>
           && o.specialists.Some? && o.preserved <= o.specialists.value.available
           && o.specialists.value.disagreements <= o.surfaced
           && ((o.specialists.value.unavailable == {} && o.degradationReasons == []) || o.degradedAcknowledged))
  {
    hide AbstentionScore, Preservation, Transparency, Unsupported, Share, Agreement, Restraint, SupportedShare, UnsupportedShare;
    AbstentionMeans(c, o);
    SynthesisMeans(o);
  }

  // ---- Dominance ----

  datatype Mode = DeterministicMode | SingleAgentMode | MultiAgentMode

  datatype CaseResult = CaseResult(mode: Mode, metrics: Metrics, failed: bool)

  // Larger is better: the rate of unsupported claims is turned round.
  function Oriented(m: Metrics, name: Metric): real
    requires Value(m, name).Some?
  {
    if name == UnsupportedClaimRate then 1.0 - Value(m, name).value else Value(m, name).value
  }

  predicate Both(a: Metrics, b: Metrics, name: Metric) {
    Value(a, name).Some? && Value(b, name).Some?
  }

  predicate AtLeast(a: Metrics, b: Metrics, name: Metric) {
    Both(a, b, name) ==> Oriented(a, name) >= Oriented(b, name)
  }

  predicate Better(a: Metrics, b: Metrics, name: Metric) {
    Both(a, b, name) && Oriented(a, name) > Oriented(b, name)
  }

  ghost predicate Dominates(a: Metrics, b: Metrics) {
    (forall name :: AtLeast(a, b, name)) && (exists name :: Better(a, b, name))
  }

  lemma NamesAreAll(name: Metric)
    ensures name in METRIC_NAMES
  {
    match name {
      case RiskRecall => assert METRIC_NAMES[0] == name;
      case RiskPrecision => assert METRIC_NAMES[1] == name;
      case SeverityConsistency => assert METRIC_NAMES[2] == name;
      case ControlCoverage => assert METRIC_NAMES[3] == name;
      case GovernanceCoverage => assert METRIC_NAMES[4] == name;
      case HumanOversightAccuracy => assert METRIC_NAMES[5] == name;
      case ArchitectureFit => assert METRIC_NAMES[6] == name;
      case OverEngineeringAvoidance => assert METRIC_NAMES[7] == name;
      case Groundedness => assert METRIC_NAMES[8] == name;
      case UnsupportedClaimRate => assert METRIC_NAMES[9] == name;
      case AppropriateAbstention => assert METRIC_NAMES[10] == name;
      case SpecialistPreservation => assert METRIC_NAMES[11] == name;
      case SynthesisTransparency => assert METRIC_NAMES[12] == name;
    }
  }

  // The oriented pairs of the metrics both sides define, in the order of the names.
  function Pairs(a: Metrics, b: Metrics, names: seq<Metric>): seq<(real, real)> {
    if names == [] then []
    else
      var name := names[|names| - 1];
      Pairs(a, b, names[..|names| - 1]) + if Both(a, b, name) then [(Oriented(a, name), Oriented(b, name))] else []
  }

  /** `_dominates`: collects the comparable pairs, then asks for all and any. */
  method ComputeDominates(a: Metrics, b: Metrics) returns (dominates: bool)
    ensures dominates == Dominates(a, b)
  {
    hide Oriented, Value;
    var comparable: seq<(real, real)> := [];
    for k := 0 to |METRIC_NAMES|
      invariant comparable == Pairs(a, b, METRIC_NAMES[..k])
    {
      var name := METRIC_NAMES[k];
      assert METRIC_NAMES[..k + 1][..k] == METRIC_NAMES[..k];
      if Both(a, b, name) {
        comparable := comparable + [(Oriented(a, name), Oriented(b, name))];
      }
    }
    assert METRIC_NAMES[..|METRIC_NAMES|] == METRIC_NAMES;
    PairsDecide(a, b);
    dominates :=
      && comparable != []
      && (forall i | 0 <= i < |comparable| :: comparable[i].0 >= comparable[i].1)
      && (exists i | 0 <= i < |comparable| :: comparable[i].0 > comparable[i].1);
  }

  lemma {:induction false} PairsAre(a: Metrics, b: Metrics, names: seq<Metric>)
    ensures forall name | name in names && Both(a, b, name) :: (Oriented(a, name), Oriented(b, name)) in Pairs(a, b, names)
    ensures forall pair | pair in Pairs(a, b, names) ::
              exists name | name in names && Both(a, b, name) :: pair == (Oriented(a, name), Oriented(b, name))
  {
    hide Oriented, Value;
    if names != [] {
      var init, last := names[..|names| - 1], names[|names| - 1];
      PairsAre(a, b, init);
      assert forall name | name in names :: name in init || name == last;
      forall pair | pair in Pairs(a, b, names)
        ensures exists name | name in names && Both(a, b, name) :: pair == (Oriented(a, name), Oriented(b, name))
      {
        if pair !in Pairs(a, b, init) {
          assert last in names && Both(a, b, last);
        }
      }
    }
  }

  lemma PairsDecide(a: Metrics, b: Metrics)
    ensures var pairs := Pairs(a, b, METRIC_NAMES);
      Dominates(a, b) <==> (forall i | 0 <= i < |pairs| :: pairs[i].0 >= pairs[i].1)
                           && (exists i | 0 <= i < |pairs| :: pairs[i].0 > pairs[i].1)
  {
    hide Oriented, Value, Pairs;
    var pairs := Pairs(a, b, METRIC_NAMES);
    PairsAre(a, b, METRIC_NAMES);
    if forall i | 0 <= i < |pairs| :: pairs[i].0 >= pairs[i].1 {
      forall name ensures AtLeast(a, b, name) {
        NamesAreAll(name);
      }
    }
    if forall name :: AtLeast(a, b, name) {
      forall i | 0 <= i < |pairs| ensures pairs[i].0 >= pairs[i].1 {
        assert pairs[i] in pairs;
        var name :| name in METRIC_NAMES && Both(a, b, name) && pairs[i] == (Oriented(a, name), Oriented(b, name));
        assert AtLeast(a, b, name);
      }
    }
    if i :| 0 <= i < |pairs| && pairs[i].0 > pairs[i].1 {
      assert pairs[i] in pairs;
      var name :| name in METRIC_NAMES && Both(a, b, name) && pairs[i] == (Oriented(a, name), Oriented(b, name));
      assert Better(a, b, name);
    }
    if name :| Better(a, b, name) {
      NamesAreAll(name);
      var i :| 0 <= i < |pairs| && pairs[i] == (Oriented(a, name), Oriented(b, name));
    }
  }

  /** Two results never dominate each other, and none dominates itself. */
  lemma DominanceIsAsymmetric(a: Metrics, b: Metrics)
    requires Dominates(a, b)
    ensures !Dominates(b, a) && a != b
  {
    var name :| Better(a, b, name);
    assert !AtLeast(b, a, name);
  }

  /** With one metric changed, the rate of unsupported claims must fall and any other metric must rise. */
  lemma OneMetricDecides(a: Metrics, b: Metrics, name: Metric)
    requires Value(a, name).Some? && Value(b, name).Some?
    requires forall other | other != name :: Value(a, other) == Value(b, other)
    ensures Dominates(a, b) <==>
      if name == UnsupportedClaimRate then Value(a, name).value < Value(b, name).value
      else Value(a, name).value > Value(b, name).value
  {
    hide Value;
    if Oriented(a, name) > Oriented(b, name) {
      assert Better(a, b, name);
    }
    if Dominates(a, b) {
      var better :| Better(a, b, better);
      assert better == name;
    }
  }

  lemma ShareFalls(part: nat, more: nat, whole: nat)
    requires part < more && whole > 0
    ensures Share(part, whole) < Share(more, whole)
  {
  }

  /** With all else equal and as many claims, fewer unsupported claims dominate. */
  lemma FewerUnsupportedDominates(c: BenchmarkCase, o: Output, claims: seq<Claim>)
    requires ValidCase(c) && |claims| == |o.claims|
    requires Unsupported(c, o.(claims := claims)) < Unsupported(c, o)
    ensures Dominates(Evaluate(c, o.(claims := claims)), Evaluate(c, o))
  {
    hide Evaluate, Dominates, Unsupported, Share;
    var other := o.(claims := claims);
    SameButForClaims(c, o, claims);
    var n, fewer, more := |claims|, Unsupported(c, other), Unsupported(c, o);
    ShareFalls(fewer, more, n);
    ShareFalls(n - more, n - fewer, n);
    BothClaimMetricsDecide(Evaluate(c, other), Evaluate(c, o));
  }

  lemma BothClaimMetricsDecide(a: Metrics, b: Metrics)
    requires a.(groundedness := None, unsupportedClaimRate := None) == b.(groundedness := None, unsupportedClaimRate := None)
    requires a.groundedness.Some? && b.groundedness.Some? && a.groundedness.value > b.groundedness.value
    requires a.unsupportedClaimRate.Some? && b.unsupportedClaimRate.Some?
    requires a.unsupportedClaimRate.value < b.unsupportedClaimRate.value
    ensures Dominates(a, b)
  {
    OtherMetricsAgree(a, b);
    assert Better(a, b, Groundedness);
    hide Value;
    forall name ensures AtLeast(a, b, name) {
      if name != Groundedness && name != UnsupportedClaimRate {
        assert Value(a, name) == Value(b, name);
      }
    }
  }

  lemma OtherMetricsAgree(a: Metrics, b: Metrics)
    requires a.(groundedness := None, unsupportedClaimRate := None) == b.(groundedness := None, unsupportedClaimRate := None)
    ensures forall name | name != Groundedness && name != UnsupportedClaimRate :: Value(a, name) == Value(b, name)
  {
    forall name: Metric | name != Groundedness && name != UnsupportedClaimRate ensures Value(a, name) == Value(b, name) {
      assert a == b.(groundedness := a.groundedness, unsupportedClaimRate := a.unsupportedClaimRate);
    }
  }

  // Only the two claim metrics look at the claims.
  lemma SameButForClaims(c: BenchmarkCase, o: Output, claims: seq<Claim>)
    requires ValidCase(c)
    ensures var other := o.(claims := claims);
      && Evaluate(c, other) == Evaluate(c, o).(groundedness := SupportedShare(c, other), unsupportedClaimRate := UnsupportedShare(c, other))
      && Evaluate(c, o).groundedness == SupportedShare(c, o) && Evaluate(c, o).unsupportedClaimRate == UnsupportedShare(c, o)
  {
    ScoresIgnoreClaims(c, o, claims);
    hide Share, Indicator, AbstentionScore, Preservation, Transparency, Agreement, Restraint, SupportedShare, UnsupportedShare;
  }

  lemma ScoresIgnoreClaims(c: BenchmarkCase, o: Output, claims: seq<Claim>)
    ensures var other := o.(claims := claims);
      && AbstentionScore(c, other) == AbstentionScore(c, o) && Preservation(other) == Preservation(o)
      && Transparency(other) == Transparency(o) && Agreement(c, other) == Agreement(c, o)
      && Restraint(c, other) == Restraint(c, o)
  {
    hide Share, CountTrue, Indicator;
  }

  // ---- The frontier ----

  ghost predicate Beats(cases: seq<CaseResult>, j: nat, i: nat)
    requires i < |cases| && j < |cases|
  {
    !cases[j].failed && cases[j].mode != cases[i].mode && Dominates(cases[j].metrics, cases[i].metrics)
  }

  ghost predicate OnFrontier(cases: seq<CaseResult>, i: nat)
    requires i < |cases|
  {
    !cases[i].failed && forall j: nat | j < |cases| :: !Beats(cases, j, i)
  }

  // The modes of the first k results that stay, in order.
  ghost function Frontier(cases: seq<CaseResult>, k: nat): seq<Mode>
    requires k <= |cases|
  {
    if k == 0 then [] else Frontier(cases, k - 1) + if OnFrontier(cases, k - 1) then [cases[k - 1].mode] else []
  }

  /** `_pareto_modes`. */
  method ParetoModes(cases: seq<CaseResult>) returns (modes: seq<Mode>)
    ensures modes == Frontier(cases, |cases|)
  {
    hide Dominates;
    modes := [];
    for i := 0 to |cases|
      invariant modes == Frontier(cases, i)
    {
      if !cases[i].failed {
        var beaten := false;
        for j := 0 to |cases|
          invariant beaten <==> exists h: nat | h < j :: Beats(cases, h, i)
        {
          if !cases[j].failed && cases[j].mode != cases[i].mode {
            var dominates := ComputeDominates(cases[j].metrics, cases[i].metrics);
            assert Beats(cases, j, i) == dominates;
            beaten := beaten || dominates;
          }
        }
        if !beaten {
          modes := modes + [cases[i].mode];
        }
      }
    }
  }

  predicate DistinctModes(cases: seq<CaseResult>) {
    forall i, j | 0 <= i < j < |cases| :: cases[i].mode != cases[j].mode
  }

  lemma {:induction false} FrontierMembers(cases: seq<CaseResult>, k: nat)
    requires k <= |cases|
    ensures forall i: nat | i < k && OnFrontier(cases, i) :: cases[i].mode in Frontier(cases, k)
    ensures forall mode | mode in Frontier(cases, k) :: exists i: nat | i < k && OnFrontier(cases, i) :: cases[i].mode == mode
  {
    hide OnFrontier;
    if k > 0 {
      FrontierMembers(cases, k - 1);
      forall mode | mode in Frontier(cases, k)
        ensures exists i: nat | i < k && OnFrontier(cases, i) :: cases[i].mode == mode
      {
        if mode !in Frontier(cases, k - 1) {
          assert OnFrontier(cases, k - 1);
        }
      }
    }
  }

  // ---- Equal support ----

  ghost predicate EqualSupport(a: Metrics, b: Metrics) {
    forall name :: Value(a, name).Some? <==> Value(b, name).Some?
  }

  lemma DominanceIsTransitiveOnEqualSupport(a: Metrics, b: Metrics, c: Metrics)
    requires EqualSupport(a, b) && EqualSupport(b, c) && Dominates(a, b) && Dominates(b, c)
    ensures Dominates(a, c)
  {
    hide Oriented, Value;
    forall name ensures AtLeast(a, c, name) {
      assert AtLeast(a, b, name) && AtLeast(b, c, name);
      assert Value(a, name).Some? <==> Value(b, name).Some?;
    }
    var name :| Better(a, b, name);
    assert AtLeast(b, c, name);
    assert Value(b, name).Some? <==> Value(c, name).Some?;
    assert Better(a, c, name);
  }

  ghost predicate SupportsAgree(cases: seq<CaseResult>) {
    forall i, j | 0 <= i < |cases| && 0 <= j < |cases| && !cases[i].failed && !cases[j].failed ::
      EqualSupport(cases[i].metrics, cases[j].metrics)
  }

  ghost function Beaters(cases: seq<CaseResult>, i: nat): set<nat>
    requires i < |cases|
  {
    set j: nat | j < |cases| && Beats(cases, j, i)
  }

  lemma FewerBeaters(cases: seq<CaseResult>, j: nat, i: nat)
    requires i < |cases| && j < |cases| && !cases[i].failed && Beats(cases, j, i)
    requires DistinctModes(cases) && SupportsAgree(cases)
    ensures Beaters(cases, j) < Beaters(cases, i)
  {
    hide Dominates, EqualSupport;
    forall h | h in Beaters(cases, j) ensures h in Beaters(cases, i) {
      DominanceIsTransitiveOnEqualSupport(cases[h].metrics, cases[j].metrics, cases[i].metrics);
      if h == i {
        DominanceIsAsymmetric(cases[j].metrics, cases[i].metrics);
        assert false;
      }
    }
    assert j in Beaters(cases, i) && j !in Beaters(cases, j);
  }

  /** When all successful modes define the same metrics, every excluded one is dominated by one that stays. */
  lemma {:induction false} ExcludedIsDominatedByFrontier(cases: seq<CaseResult>, i: nat) returns (j: nat)
    requires i < |cases| && !cases[i].failed && !OnFrontier(cases, i)
    requires DistinctModes(cases) && SupportsAgree(cases)
    ensures j < |cases| && OnFrontier(cases, j) && cases[j].mode in Frontier(cases, |cases|)
    ensures Dominates(cases[j].metrics, cases[i].metrics)
    decreases Beaters(cases, i)
  {
    hide Dominates, EqualSupport;
    j :| j < |cases| && Beats(cases, j, i);
    FrontierMembers(cases, |cases|);
    if !OnFrontier(cases, j) {
      FewerBeaters(cases, j, i);
      var k := ExcludedIsDominatedByFrontier(cases, j);
      DominanceIsTransitiveOnEqualSupport(cases[k].metrics, cases[j].metrics, cases[i].metrics);
      j := k;
    }
  }

  // ---- The evaluator's three modes ----

  predicate AlwaysDefined(name: Metric) {
    name in {RiskRecall, RiskPrecision, ControlCoverage, GovernanceCoverage, HumanOversightAccuracy, ArchitectureFit,
             AppropriateAbstention}
  }

  // What two outputs of one case have in common in the metrics they leave undefined.
  ghost predicate Evaluated(m: Metrics, simple: bool) {
    && (forall name | AlwaysDefined(name) :: Value(m, name).Some?)
    && m.riskRecall.Some? && (m.severityConsistency.Some? <==> m.riskRecall.value > 0.0)
    && (m.overEngineeringAvoidance.Some? <==> simple)
    && (m.groundedness.Some? <==> m.unsupportedClaimRate.Some?)
    && (m.specialistPreservation.Some? ==> m.synthesisTransparency.Some?)
  }

  predicate SimpleExpected(c: BenchmarkCase) {
    {DeterministicSufficient, SimplerWorkflowPreferred, MultiAgentUnnecessary} * c.architecture != {}
  }

  lemma ScoresAreDefined(c: BenchmarkCase, o: Output)
    requires ValidCase(c)
    ensures var m := Evaluate(c, o);
      && m.riskRecall.Some? && m.riskPrecision.Some? && m.controlCoverage.Some? && m.governanceCoverage.Some?
      && m.humanOversightAccuracy.Some? && m.architectureFit.Some? && m.appropriateAbstention.Some?
    ensures Evaluate(c, o).overEngineeringAvoidance.Some? <==> SimpleExpected(c)
    ensures Evaluate(c, o).groundedness.Some? <==> Evaluate(c, o).unsupportedClaimRate.Some?
  {
    hide UnsupportedClaims, Unsupported, AbstentionScore, Share, Preservation, Transparency, Indicator;
  }

  lemma SeverityNeedsAMatch(c: BenchmarkCase, o: Output)
    requires ValidCase(c)
    ensures Evaluate(c, o).riskRecall.Some?
    ensures Evaluate(c, o).severityConsistency.Some? <==> Evaluate(c, o).riskRecall.value > 0.0
  {
    hide UnsupportedClaims, Unsupported, AbstentionScore, Share, Preservation, Transparency, Indicator;
    RatioPositive(|MatchedRisks(c, o)|, |c.risks.Keys|);
  }

  lemma SynthesisScores(c: BenchmarkCase, o: Output)
    requires ValidCase(c)
    ensures Evaluate(c, o).specialistPreservation == Preservation(o)
    ensures Evaluate(c, o).synthesisTransparency == Transparency(o)
  {
    hide UnsupportedClaims, Unsupported, AbstentionScore, Share, Preservation, Transparency, Indicator;
  }

  /** Which metrics the evaluator leaves undefined, for any output. */
  lemma EvaluatorLeavesUndefined(c: BenchmarkCase, o: Output)
    requires ValidCase(c)
    ensures Evaluated(Evaluate(c, o), SimpleExpected(c))
  {
    hide Evaluate, Preservation, Transparency;
    ScoresAreDefined(c, o);
    SeverityNeedsAMatch(c, o);
    SynthesisScores(c, o);
    PreservedIsTransparent(o);
  }

  lemma PreservedIsTransparent(o: Output)
    ensures Preservation(o).Some? ==> Transparency(o).Some?
  {
  }

  lemma RatioPositive(part: nat, whole: nat)
    requires whole > 0
    ensures Share(part, whole) > 0.0 <==> part > 0
  {
  }

  // A cycle of three: each dominates the next.
  ghost predicate Cycle(a: Metrics, b: Metrics, c: Metrics) {
    Dominates(a, b) && Dominates(b, c) && Dominates(c, a)
  }

  // A metric all three define is equal around the cycle, so a strict step uses one that the third leaves out.
  lemma StrictStepNeedsAGap(a: Metrics, b: Metrics, c: Metrics) returns (name: Metric)
    requires Cycle(a, b, c)
    ensures Better(a, b, name) && Value(c, name).None?
  {
    hide Oriented, Value;
    name :| Better(a, b, name);
    assert AtLeast(b, c, name) && AtLeast(c, a, name);
  }

  lemma AllDefinedIsEqual(a: Metrics, b: Metrics, c: Metrics, name: Metric)
    requires Cycle(a, b, c) && Value(a, name).Some? && Value(b, name).Some? && Value(c, name).Some?
    ensures Oriented(a, name) == Oriented(b, name) == Oriented(c, name)
  {
    assert AtLeast(a, b, name) && AtLeast(b, c, name) && AtLeast(c, a, name);
  }

  lemma GapIsLate(a: Metrics, b: Metrics, c: Metrics, simple: bool) returns (name: Metric)
    requires Cycle(a, b, c) && Evaluated(a, simple) && Evaluated(b, simple) && Evaluated(c, simple)
    ensures Better(a, b, name) && Value(c, name).None?
    ensures name in {Groundedness, UnsupportedClaimRate, SpecialistPreservation, SynthesisTransparency}
  {
    name := StrictStepNeedsAGap(a, b, c);
    assert AlwaysDefined(RiskRecall);
    AllDefinedIsEqual(a, b, c, RiskRecall);
  }

  /** Results of one case never dominate each other in a circle of three. */
  lemma NoCycleOfThree(a: Metrics, b: Metrics, c: Metrics, simple: bool)
    requires Evaluated(a, simple) && Evaluated(b, simple) && Evaluated(c, simple)
    ensures !Cycle(a, b, c)
  {
    if Cycle(a, b, c) {
      var first := GapIsLate(a, b, c, simple);
      var second := GapIsLate(b, c, a, simple);
      var third := GapIsLate(c, a, b, simple);
      assert false;
    }
  }

  // Every successful result is the evaluator's, on the same case.
  ghost predicate FromEvaluator(cases: seq<CaseResult>, c: BenchmarkCase, outputs: seq<Output>) {
    && ValidCase(c) && |outputs| == |cases|
    && forall i | 0 <= i < |cases| && !cases[i].failed :: cases[i].metrics == Evaluate(c, outputs[i])
  }

  function Modes(cases: seq<CaseResult>): set<Mode> {
    set i | 0 <= i < |cases| :: cases[i].mode
  }

  lemma {:induction false} DistinctModesCount(cases: seq<CaseResult>)
    requires DistinctModes(cases)
    ensures |Modes(cases)| == |cases|
  {
    if cases != [] {
      var init, last := cases[..|cases| - 1], cases[|cases| - 1];
      DistinctModesCount(init);
      assert Modes(cases) == Modes(init) + {last.mode} by {
        assert forall i | 0 <= i < |init| :: init[i] == cases[i];
      }
      assert last.mode !in Modes(init);
    }
  }

  lemma AtMostThreeModes(cases: seq<CaseResult>)
    requires DistinctModes(cases)
    ensures |cases| <= 3
  {
    DistinctModesCount(cases);
    var all := {DeterministicMode, SingleAgentMode, MultiAgentMode};
    forall mode | mode in Modes(cases) ensures mode in all {
      match mode { case DeterministicMode => case SingleAgentMode => case MultiAgentMode => }
    }
    SubsetIsSmaller(Modes(cases), all);
  }

  lemma FrontierHasAMember(cases: seq<CaseResult>, simple: bool, x: nat) returns (i: nat)
    requires DistinctModes(cases) && x < |cases| && !cases[x].failed
    requires forall j | 0 <= j < |cases| && !cases[j].failed :: Evaluated(cases[j].metrics, simple)
    ensures i < |cases| && OnFrontier(cases, i)
  {
    hide Dominates, Evaluated;
    AtMostThreeModes(cases);
    i := x;
    if !OnFrontier(cases, x) {
      var y: nat :| y < |cases| && Beats(cases, y, x);
      DominanceIsAsymmetric(cases[y].metrics, cases[x].metrics);
      i := y;
      if !OnFrontier(cases, y) {
        var z: nat :| z < |cases| && Beats(cases, z, y);
        DominanceIsAsymmetric(cases[z].metrics, cases[y].metrics);
        i := z;
        forall w: nat | w < |cases| ensures !Beats(cases, w, z) {
          assert w == x || w == y || w == z;
          NoCycleOfThree(cases[z].metrics, cases[y].metrics, cases[x].metrics, simple);
        }
      }
    }
  }

  /** With the evaluator's modes some mode is named best exactly when some mode succeeded, even with differing support. */
  lemma FrontierIsNonEmpty(cases: seq<CaseResult>, c: BenchmarkCase, outputs: seq<Output>)
    requires DistinctModes(cases) && FromEvaluator(cases, c, outputs)
    ensures Frontier(cases, |cases|) != [] <==> exists i | 0 <= i < |cases| :: !cases[i].failed
  {
    hide Dominates, Evaluated, Evaluate;
    FrontierMembers(cases, |cases|);
    forall j | 0 <= j < |cases| && !cases[j].failed ensures Evaluated(cases[j].metrics, SimpleExpected(c)) {
      EvaluatorLeavesUndefined(c, outputs[j]);
    }
    if x: nat :| x < |cases| && !cases[x].failed {
      var i := FrontierHasAMember(cases, SimpleExpected(c), x);
      assert cases[i].mode in Frontier(cases, |cases|);
    }
    if Frontier(cases, |cases|) != [] {
      assert Frontier(cases, |cases|)[0] in Frontier(cases, |cases|);
    }
  }

  // Metrics with three values only.
  function Sparse(groundedness: Option<real>, preservation: Option<real>, transparency: Option<real>): Metrics {
    Metrics(None, None, None, None, None, None, None, None, groundedness, None, None, preservation, transparency)
  }

  /** Without what the evaluator guarantees the frontier of three successful modes can be empty. */
  lemma ArbitrarySupportCanEmptyTheFrontier() returns (cases: seq<CaseResult>)
    ensures DistinctModes(cases) && |cases| == 3 && (forall i | 0 <= i < 3 :: !cases[i].failed)
    ensures Frontier(cases, 3) == []
  {
    var a, b, c := Sparse(Some(1.0), None, Some(0.0)), Sparse(Some(0.0), Some(1.0), None), Sparse(None, Some(0.0), Some(1.0));
    cases := [CaseResult(DeterministicMode, a, false), CaseResult(SingleAgentMode, b, false), CaseResult(MultiAgentMode, c, false)];
    assert Dominates(a, b) by {
      assert Better(a, b, Groundedness);
    }
    assert Dominates(b, c) by {
      assert Better(b, c, SpecialistPreservation);
    }
    assert Dominates(c, a) by {
      assert Better(c, a, SynthesisTransparency);
    }
    assert Beats(cases, 0, 1) && Beats(cases, 1, 2) && Beats(cases, 2, 0);
    assert !OnFrontier(cases, 0) && !OnFrontier(cases, 1) && !OnFrontier(cases, 2);
    assert Frontier(cases, 0) == [];
    assert Frontier(cases, 1) == [];
    assert Frontier(cases, 2) == [];
  }
}
