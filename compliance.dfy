/**
 * The compliance `scan` endpoint: an idea's title and description, lower-cased, are searched
 * for keywords that bring it under GDPR, HIPAA or PCI-DSS and for keywords that mitigate each;
 * the frameworks left at risk set the risk level and the recommendations. The regular
 * expressions are alternations of literal words, so each `test` is a substring search.
 */
module Compliance {
  import opened Wrappers
  import opened Text

  datatype Framework = Gdpr | Hipaa | Pci

  datatype RiskLevel = Low | Medium | High

  datatype ComplianceResult = ComplianceResult(
    gdprCompliant: bool, hipaaCompliant: bool, pciCompliant: bool,
    riskLevel: RiskLevel, complianceNotes: string, recommendations: seq<string>)

  /** The columns of `ideas` the scan reads, with the owner's user id. */
  datatype IdeaRow = IdeaRow(userId: int, title: string, description: Option<string>)

  const PersonalWords := ["personal", "user", "customer", "profile", "data", "email", "name", "address"]
  const GdprWords := ["privacy", "consent", "gdpr"]
  const HealthWords := ["health", "medical", "patient", "clinic", "hospital", "diagnosis", "treatment"]
  const HipaaWords := ["hipaa", "encryption", "secure"]
  const PaymentWords := ["payment", "credit card", "billing", "checkout", "transaction", "stripe", "paypal"]
  const PciWords := ["secure", "encryption", "pci", "tokeniz"]

  const GdprAdvice := "Implement GDPR-compliant privacy policies and user consent mechanisms"
  const HipaaAdvice := "Ensure HIPAA compliance with encrypted data storage and access controls"
  const PciAdvice := "Implement PCI-DSS compliant payment processing and data handling"
  const NoIssues := "No specific compliance issues identified"

  function Triggers(f: Framework): seq<string> {
    match f
    case Gdpr => PersonalWords
    case Hipaa => HealthWords
    case Pci => PaymentWords
  }

  function Mitigations(f: Framework): seq<string> {
    match f
    case Gdpr => GdprWords
    case Hipaa => HipaaWords
    case Pci => PciWords
  }

  function Advice(f: Framework): string {
    match f
    case Gdpr => GdprAdvice
    case Hipaa => HipaaAdvice
    case Pci => PciAdvice
  }

  /** `${title.toLowerCase()} ${(description || "").toLowerCase()}`. */
  function Content(title: string, description: Option<string>): string {
    ToLower(title) + " " + ToLower(description.UnwrapOr(""))
  }

  /** `hasPersonalData`, `hasHealthData`, `hasPaymentData`. */
  predicate Concerns(content: string, f: Framework) {
    ContainsAny(content, Triggers(f))
  }

  /** `gdprCompliant`, `hipaaCompliant`, `pciCompliant`. */
  predicate Compliant(content: string, f: Framework) {
    !Concerns(content, f) || ContainsAny(content, Mitigations(f))
  }

  /** `hasX && !xCompliant`: the framework is one of the risk factors. */
  predicate AtRisk(content: string, f: Framework) {
    Concerns(content, f) && !Compliant(content, f)
  }

  /** `[...].filter(Boolean).length`. */
  function CountTrue(flags: seq<bool>): (n: nat)
    ensures n <= |flags|
  {
    if flags == [] then 0 else CountTrue(flags[..|flags| - 1]) + (if flags[|flags| - 1] then 1 else 0)
  }

  function RiskFactors(content: string): nat {
    CountTrue([AtRisk(content, Gdpr), AtRisk(content, Hipaa), AtRisk(content, Pci)])
  }

  function LevelFor(riskFactors: nat): RiskLevel {
    if riskFactors >= 2 then High else if riskFactors == 1 then Medium else Low
  }

  /** The advice pushed for the frameworks at risk, in the order GDPR, HIPAA, PCI. */
  function AdviceFor(content: string): seq<string> {
    (if AtRisk(content, Gdpr) then [GdprAdvice] else [])
      + (if AtRisk(content, Hipaa) then [HipaaAdvice] else [])
      + (if AtRisk(content, Pci) then [PciAdvice] else [])
  }

  function Notes(riskFactors: nat): string {
    "Analyzed for " + NatToString(riskFactors) + " compliance risk factors"
  }

  /** The specification of `AnalyzeCompliance`. */
  function Analysis(title: string, description: Option<string>): ComplianceResult {
    AnalysisOf(Content(title, description))
  }

  /** The analysis of the lower-cased text. */
  function AnalysisOf(content: string): ComplianceResult {
    var advice := AdviceFor(content);
    ComplianceResult(
      Compliant(content, Gdpr), Compliant(content, Hipaa), Compliant(content, Pci),
      LevelFor(RiskFactors(content)), Notes(RiskFactors(content)),
      if advice == [] then [NoIssues] else advice)
  }

  /** One framework's test: does the idea touch it, and if so does it mention a safeguard. */
  method CheckFramework(content: string, f: Framework) returns (concerned: bool, compliant: bool)
    ensures concerned == Concerns(content, f) && compliant == Compliant(content, f)
  {
    concerned := ContainsAny(content, Triggers(f));
    compliant := !concerned || ContainsAny(content, Mitigations(f));
  }

  /** The recommendations of `analyzeCompliance`, pushed for each framework at risk, or the no-issues line. */
  method Recommend(content: string, gdprRisk: bool, hipaaRisk: bool, pciRisk: bool) returns (recommendations: seq<string>)
    requires gdprRisk == AtRisk(content, Gdpr) && hipaaRisk == AtRisk(content, Hipaa) && pciRisk == AtRisk(content, Pci)
    ensures recommendations == if AdviceFor(content) == [] then [NoIssues] else AdviceFor(content)
  {
    recommendations := [];
    if gdprRisk {
      recommendations := recommendations + [GdprAdvice];
    }
    if hipaaRisk {
      recommendations := recommendations + [HipaaAdvice];
    }
    if pciRisk {
      recommendations := recommendations + [PciAdvice];
    }
    assert recommendations == AdviceFor(content);
    if |recommendations| == 0 {
      recommendations := recommendations + [NoIssues];
    }
  }

  /** `analyzeCompliance`: the three checks, then the risk level and the recommendations built step by step. */
  method AnalyzeCompliance(title: string, description: Option<string>) returns (r: ComplianceResult)
    ensures r == Analysis(title, description)
  {
    var content := Content(title, description);
    var hasPersonalData, gdprCompliant := CheckFramework(content, Gdpr);
    var hasHealthData, hipaaCompliant := CheckFramework(content, Hipaa);
    var hasPaymentData, pciCompliant := CheckFramework(content, Pci);

    var riskLevel := Low;
    var riskFactors := CountTrue([hasPersonalData && !gdprCompliant, hasHealthData && !hipaaCompliant, hasPaymentData && !pciCompliant]);
    assert riskFactors == RiskFactors(content);
    if riskFactors >= 2 {
      riskLevel := High;
    } else if riskFactors == 1 {
      riskLevel := Medium;
    }

    var recommendations := Recommend(content, hasPersonalData && !gdprCompliant, hasHealthData && !hipaaCompliant, hasPaymentData && !pciCompliant);
    assert riskLevel == LevelFor(RiskFactors(content));
    r := ComplianceResult(gdprCompliant, hipaaCompliant, pciCompliant, riskLevel, Notes(riskFactors), recommendations);
    assert r == AnalysisOf(content);
  }

  /** The `compliance_scans` table, one row per idea. */
  class ComplianceStore {
    var scans: map<int, ComplianceResult>

    constructor ()
      ensures scans == map[]
    {
      scans := map[];
    }

    /**
     * `scan`: the signed-in user must exist and own the idea; the analysis is then upserted
     * for the idea and returned. `users` maps Clerk ids to user ids and `ideas` is the
     * `ideas` table by id.
     */
    method Scan(clerkId: string, ideaId: int, users: map<string, int>, ideas: map<int, IdeaRow>) returns (r: Result<ComplianceResult>)
      modifies this
      ensures clerkId !in users ==> r == Err("User not found") && scans == old(scans)
      ensures clerkId in users && (ideaId !in ideas || ideas[ideaId].userId != users[clerkId]) ==>
        r == Err("Idea not found") && scans == old(scans)
      ensures clerkId in users && ideaId in ideas && ideas[ideaId].userId == users[clerkId] ==>
        var a := Analysis(ideas[ideaId].title, ideas[ideaId].description);
        r == Ok(a) && scans == old(scans)[ideaId := a]
    {
      if clerkId !in users {
        return Err("User not found");
      }
      var userId := users[clerkId];
      if ideaId !in ideas || ideas[ideaId].userId != userId {
        return Err("Idea not found");
      }
      var result := AnalyzeCompliance(ideas[ideaId].title, ideas[ideaId].description);
      scans := scans[ideaId := result];
      return Ok(result);
    }
  }

  /** A framework is a risk factor exactly when it is not compliant: non-compliance implies a trigger word. */
  lemma AtRiskIffNotCompliant(content: string, f: Framework)
    ensures AtRisk(content, f) <==> !Compliant(content, f)
    ensures Compliant(content, f) <==> !ContainsAny(content, Triggers(f)) || ContainsAny(content, Mitigations(f))
  {
  }

  lemma CountThree(a: bool, b: bool, c: bool)
    ensures CountTrue([a, b, c]) == (if a then 1 else 0) + (if b then 1 else 0) + (if c then 1 else 0)
  {
    assert [a][..0] == [];
    assert CountTrue([a]) == (if a then 1 else 0);
    assert [a, b][..1] == [a];
    assert CountTrue([a, b]) == CountTrue([a]) + (if b then 1 else 0);
    assert [a, b, c][..2] == [a, b];
  }

  /**
   * The risk factors are the non-compliant frameworks, between 0 and 3; none is low, one
   * is medium, two or more is high.
   */
  lemma RiskLevels(title: string, description: Option<string>)
    ensures var a := Analysis(title, description);
      var n := (if !a.gdprCompliant then 1 else 0) + (if !a.hipaaCompliant then 1 else 0) + (if !a.pciCompliant then 1 else 0);
      && RiskFactors(Content(title, description)) == n
      && (a.riskLevel == Low <==> n == 0)
      && (a.riskLevel == Medium <==> n == 1)
      && (a.riskLevel == High <==> n >= 2)
  {
    var content := Content(title, description);
    CountThree(AtRisk(content, Gdpr), AtRisk(content, Hipaa), AtRisk(content, Pci));
  }

  /**
   * Never an empty list: the single no-issues line when every framework is compliant, and
   * otherwise one line per non-compliant framework, GDPR before HIPAA before PCI.
   */
  lemma Recommendations(title: string, description: Option<string>)
    ensures var a := Analysis(title, description);
      && a.recommendations != []
      && (a.recommendations == [NoIssues] <==> a.gdprCompliant && a.hipaaCompliant && a.pciCompliant)
      && (!(a.gdprCompliant && a.hipaaCompliant && a.pciCompliant) ==>
            a.recommendations ==
              (if a.gdprCompliant then [] else [GdprAdvice])
              + (if a.hipaaCompliant then [] else [HipaaAdvice])
              + (if a.pciCompliant then [] else [PciAdvice]))
  {
    var content := Content(title, description);
    var adv := AdviceFor(content);
    if adv != [] {
      assert adv[0] in [GdprAdvice, HipaaAdvice, PciAdvice];
      assert |NoIssues| != |GdprAdvice| && |NoIssues| != |HipaaAdvice| && |NoIssues| != |PciAdvice|;
      assert adv != [NoIssues];
    }
  }

  /** "secure" anywhere in the idea mitigates both HIPAA and PCI-DSS. */
  lemma SecureMitigatesHealthAndPayment(content: string)
    requires Contains(content, "secure")
    ensures Compliant(content, Hipaa) && Compliant(content, Pci)
  {
    assert HipaaWords[2] == "secure" && PciWords[0] == "secure";
  }

  /** The scan ignores case: the analysis of the lower-cased title and description is the same. */
  lemma CaseInsensitive(title: string, description: Option<string>)
    ensures Analysis(ToLower(title), if description.Some? then Some(ToLower(description.value)) else None) == Analysis(title, description)
  {
    ToLowerIdempotent(title);
    if description.Some? {
      ToLowerIdempotent(description.value);
    }
    var lowered := if description.Some? then Some(ToLower(description.value)) else None;
    assert Content(ToLower(title), lowered) == Content(title, description);
  }
}
