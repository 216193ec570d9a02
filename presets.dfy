/**
 * The legal presets (`lib/presets.ts`): six fixed prompt templates, the
 * lookups by id and by category, and the substitution that fills the
 * `{{key}}` markers of a template with the jurisdiction and with bracketed
 * hints for the other keys.
 */
module Presets {
  import opened Wrappers
  import opened Text
  import opened Seqs

  datatype Category = Contracts | Research | Compliance | Corporate | Litigation

  /** A preset (`labelText` is the source's `label`, a reserved word here). Its icon is a display component and is not part of the model. */
  datatype LegalPreset = LegalPreset(
    id: string,
    labelText: string,
    description: string,
    category: Category,
    system: string,
    prefill: string)

  /** The template texts of the table: the system prompt and the prefill of each preset. */
  datatype TemplateTexts = TemplateTexts(
    contractReviewSystem: string,
    contractReviewPrefill: string,
    legalResearchSystem: string,
    legalResearchPrefill: string,
    complianceCheckSystem: string,
    complianceCheckPrefill: string,
    corporateGovernanceSystem: string,
    corporateGovernancePrefill: string,
    employmentLawSystem: string,
    employmentLawPrefill: string,
    litigationSupportSystem: string,
    litigationSupportPrefill: string)

  /** The template texts of the presets, as declared. */
  const ContractReviewSystem: string :=
    "You are a jurisdiction-aware AI legal assistant. Give practical, {{jurisdiction}}-specific analysis. Always: (1) identify key risks with clause references, (2) summarise party obligations, (3) propose negotiation levers, (4) draft redline-ready clause suggestions, (5) list open questions. If documents exist, cite them by filename/section. Include a brief \"not legal advice\" reminder."
  const ContractReviewPrefill: string :=
    "Contract Review \U{2014} {{jurisdiction}}\n\nCounterparty: {{counterparty}}\nDocuments: {{documents}}  (attach files or paste key clauses)\nContext: [deal type, value, term, deliverables]\nPriorities: {{priorities}}  (e.g., liability cap \U{2265} fees x2; mutual indemnity; IP stays with us)\nClauses of concern: {{clauses_of_concern}}  (e.g., indemnity, termination for convenience)\n\nOutput:\n- Risk summary table (Issue \U{2022} Why it matters \U{2022} Clause ref \U{2022} Risk: Low/Med/High)\n- Obligations by party (bullets)\n- Negotiation levers (ranked)\n- Suggested redline text (concise, copyable)\n- Open questions to resolve"

  const LegalResearchSystem: string :=
    "You are a precise legal researcher for {{jurisdiction}}. Deliver: (A) Short Answer, (B) structured Analysis with tests/elements, (C) authorities with proper citations, (D) practical next steps. Do not invent citations; note gaps and recency limits. Include \"not legal advice.\""
  const LegalResearchPrefill: string :=
    "Legal Research \U{2014} {{jurisdiction}}\n\nQuestion: {{question}}\nKey facts: {{facts}}\nTime horizon: {{time_horizon}}  (e.g., current law; mention notable proposed changes if any)\n\nPlease provide:\n- Short Answer (1 paragraph)\n- Analysis (elements/tests; apply to facts)\n- Authorities (statutes, regs, leading cases) with citations\n- Practical next steps & risks\n- Open issues / missing facts"

  const ComplianceCheckSystem: string :=
    "You map regulatory obligations for {{jurisdiction}}. Produce gap analysis, required controls, records, notices/consents, DPIA/TRA triggers, cross-border transfer rules, retention, incident duties. Reference relevant frameworks (e.g., UK/EU GDPR, CPRA, HIPAA, sectoral rules). Include \"not legal advice.\""
  const ComplianceCheckPrefill: string :=
    "Compliance Check \U{2014} {{jurisdiction}}\n\nActivity: {{activity}}  (what the org is doing)\nData categories: {{data_categories}}  (e.g., customer PII, payment data)\nRoles: {{roles}}  (controller/processor; vendors)\nLocations: {{locations}}  (collection, storage, access, transfers)\nFrameworks: {{frameworks}}  (e.g., UK GDPR, EU GDPR, CPRA)\n\nOutput:\n- Summary risk rating (Low/Med/High) + why\n- Obligations checklist (bullets with citations)\n- Gap analysis (Current vs Required)\n- Required artefacts (RoPA, DPA, SCCs, policy set)\n- DPIA/TRA need? (yes/no + reason)\n- Cross-border transfer mechanism (if relevant)\n- Recommended controls & next steps"

  const CorporateGovernanceSystem: string :=
    "You are a corporate law specialist with expertise in {{jurisdiction}} corporate governance. You assist with:\n\n1. Board resolutions and corporate documentation\n2. Shareholder rights and obligations\n3. Director duties and liabilities\n4. Corporate structure and compliance\n5. Merger, acquisition, and restructuring matters\n\nEnsure all advice aligns with {{jurisdiction}} corporate law requirements and best practices for corporate governance."
  const CorporateGovernancePrefill: string :=
    "I need assistance with [describe corporate matter]. Please provide guidance on the proper procedures and documentation required."

  const EmploymentLawSystem: string :=
    "You are an employment law specialist with comprehensive knowledge of {{jurisdiction}} workplace regulations. You provide guidance on:\n\n1. Employment contracts and workplace policies\n2. Discrimination, harassment, and workplace rights\n3. Termination procedures and severance\n4. Wage and hour compliance\n5. Health and safety requirements\n\nAlways consider {{jurisdiction}} employment standards, labor codes, and recent regulatory changes in your analysis."
  const EmploymentLawPrefill: string :=
    "I have an employment law question regarding [describe situation]. Please advise on the legal requirements and best practices."

  const LitigationSupportSystem: string :=
    "You are a litigation support specialist with expertise in {{jurisdiction}} court procedures and case law. You assist with:\n\n1. Case analysis and legal strategy development\n2. Identifying relevant precedents and authorities\n3. Drafting legal arguments and motions\n4. Discovery planning and evidence analysis\n5. Settlement negotiations and risk assessment\n\nFocus on {{jurisdiction}} procedural rules, local court practices, and applicable substantive law for the strongest possible legal position."
  const LitigationSupportPrefill: string :=
    "I need help developing legal strategy for [describe case/dispute]. Please analyze the key issues and suggest potential arguments."

  /**
   * The preset table, in its declared order, built from its template texts
   * (the system prompt and the prefill of each preset, in that order). What
   * is proved about the table holds whatever the texts are.
   */
  function PresetTable(texts: TemplateTexts): (r: seq<LegalPreset>)
    ensures |r| == 6
  {
    [
    LegalPreset("contract-review", "Contract Review", "Analyze contracts for risks and key terms", Contracts, texts.contractReviewSystem, texts.contractReviewPrefill),
    LegalPreset("legal-research", "Legal Research", "Research case law and precedents", Research, texts.legalResearchSystem, texts.legalResearchPrefill),
    LegalPreset("compliance-check", "Compliance Check", "Verify regulatory compliance", Compliance, texts.complianceCheckSystem, texts.complianceCheckPrefill),
    LegalPreset("corporate-governance", "Corporate Governance", "Board resolutions and corporate matters", Corporate, texts.corporateGovernanceSystem, texts.corporateGovernancePrefill),
    LegalPreset("employment-law", "Employment Law", "Workplace policies and employment issues", Corporate, texts.employmentLawSystem, texts.employmentLawPrefill),
    LegalPreset("litigation-support", "Litigation Support", "Case strategy and legal arguments", Litigation, texts.litigationSupportSystem, texts.litigationSupportPrefill)
    ]
  }

  const Templates: TemplateTexts := TemplateTexts(
    ContractReviewSystem, ContractReviewPrefill,
    LegalResearchSystem, LegalResearchPrefill,
    ComplianceCheckSystem, ComplianceCheckPrefill,
    CorporateGovernanceSystem, CorporateGovernancePrefill,
    EmploymentLawSystem, EmploymentLawPrefill,
    LitigationSupportSystem, LitigationSupportPrefill)

  /** `LEGAL_PRESETS`. */
  const LegalPresets: seq<LegalPreset> := PresetTable(Templates)

  /** The ids of a table, in order. */
  function Ids(table: seq<LegalPreset>): (r: seq<string>)
    ensures |r| == |table| && forall i :: 0 <= i < |table| ==> r[i] == table[i].id
  {
    seq(|table|, i requires 0 <= i < |table| => table[i].id)
  }

  /** No two presets of the table share an id. */
  predicate IdsDistinct(table: seq<LegalPreset>) {
    forall i, j :: 0 <= i < j < |table| ==> table[i].id != table[j].id
  }

  /** The ids of the preset table are the six declared ones, all different. */
  lemma PresetIdsDistinct(texts: TemplateTexts)
    ensures Ids(PresetTable(texts)) == ["contract-review", "legal-research", "compliance-check",
                                        "corporate-governance", "employment-law", "litigation-support"]
    ensures IdsDistinct(PresetTable(texts))
  {
    var ids := Ids(PresetTable(texts));
    assert ids == ["contract-review", "legal-research", "compliance-check",
                   "corporate-governance", "employment-law", "litigation-support"];
  }

  /** `table.find(p => p.id === id)`: the first preset with that id, or nothing when none has it. */
  function PresetById(table: seq<LegalPreset>, id: string): (r: Option<LegalPreset>)
    ensures r.Some? ==> r.value.id == id
    ensures r.Some? ==> exists i :: 0 <= i < |table| && table[i] == r.value && forall j :: 0 <= j < i ==> table[j].id != id
    ensures r.None? <==> forall j :: 0 <= j < |table| ==> table[j].id != id
  {
    match FindIndex(table, (p: LegalPreset) => p.id == id)
    case None => None
    case Some(i) => Some(table[i])
  }

  /** `getPresetById`. */
  function GetPresetById(id: string): Option<LegalPreset> {
    PresetById(LegalPresets, id)
  }

  /** With distinct ids, every preset of the table is the one its own id finds. */
  lemma PresetByOwnId(table: seq<LegalPreset>, k: nat)
    requires IdsDistinct(table) && k < |table|
    ensures PresetById(table, table[k].id) == Some(table[k])
  {
    var r := PresetById(table, table[k].id);
    var i :| 0 <= i < |table| && table[i] == r.value && forall j :: 0 <= j < i ==> table[j].id != table[k].id;
    assert !(k < i);
    assert !(i < k);
  }

  /** Every preset of the table is the one `getPresetById` finds for its id. */
  lemma GetPresetByIdFindsEach(texts: TemplateTexts, k: nat)
    requires k < 6
    ensures PresetById(PresetTable(texts), PresetTable(texts)[k].id) == Some(PresetTable(texts)[k])
  {
    PresetIdsDistinct(texts);
    PresetByOwnId(PresetTable(texts), k);
  }

  /** `table.filter(p => p.category === category)`: exactly the presets of that category, in table order. */
  function PresetsOfCategory(table: seq<LegalPreset>, category: Category): (r: seq<LegalPreset>)
    ensures forall i :: 0 <= i < |r| ==> r[i] in table && r[i].category == category
    ensures forall i :: 0 <= i < |table| && table[i].category == category ==> table[i] in r
  {
    Filter(table, (p: LegalPreset) => p.category == category)
  }

  /** `getPresetsByCategory`. */
  function GetPresetsByCategory(category: Category): seq<LegalPreset> {
    PresetsOfCategory(LegalPresets, category)
  }

  /** The categories of the preset table, in order. */
  lemma PresetCategories(texts: TemplateTexts)
    ensures var t := PresetTable(texts);
      seq(6, k requires 0 <= k < 6 => t[k].category) == [Contracts, Research, Compliance, Corporate, Corporate, Litigation]
  {
  }

  /** The five category lists split the table: their lengths add up to its length. */
  lemma {:induction false} CategoriesPartition(table: seq<LegalPreset>)
    ensures |PresetsOfCategory(table, Contracts)| + |PresetsOfCategory(table, Research)|
          + |PresetsOfCategory(table, Compliance)| + |PresetsOfCategory(table, Corporate)|
          + |PresetsOfCategory(table, Litigation)| == |table|
  {
    if table != [] {
      CategoriesPartition(table[1..]);
      CategoryCountStep(table, Contracts);
      CategoryCountStep(table, Research);
      CategoryCountStep(table, Compliance);
      CategoryCountStep(table, Corporate);
      CategoryCountStep(table, Litigation);
    }
  }

  /** The first preset counts towards its own category only. */
  lemma CategoryCountStep(table: seq<LegalPreset>, category: Category)
    requires table != []
    ensures |PresetsOfCategory(table, category)| ==
      |PresetsOfCategory(table[1..], category)| + (if table[0].category == category then 1 else 0)
  {
  }

  /** The marker a key is written as in a template. */
  function Marker(key: string): (r: string)
    ensures |r| == |key| + 4 && r[0] == '{'
  {
    "{{" + key + "}}"
  }

  /** The fixed hints that stand in for every key but the jurisdiction, in declared order. */
  const Hints: seq<(string, string)> := [
      ("counterparty", "[Enter counterparty name]"),
      ("documents", "[Attach files or paste key clauses]"),
      ("priorities", "[e.g., liability cap \U{2265} fees x2; mutual indemnity; IP stays with us]"),
      ("clauses_of_concern", "[e.g., indemnity, termination for convenience]"),
      ("question", "[Enter your legal question]"),
      ("facts", "[Describe relevant facts]"),
      ("time_horizon", "[e.g., current law; mention notable proposed changes if any]"),
      ("activity", "[what the org is doing]"),
      ("data_categories", "[e.g., customer PII, payment data]"),
      ("roles", "[controller/processor; vendors]"),
      ("locations", "[collection, storage, access, transfers]"),
      ("frameworks", "[e.g., UK GDPR, EU GDPR, CPRA]") ]

  /** The substitution table, in its declared order: the jurisdiction first, then the hints. */
  function Substitutions(jurisdiction: string): (r: seq<(string, string)>)
    ensures |r| == |Hints| + 1 && r[0] == ("jurisdiction", jurisdiction) && r[1..] == Hints
  {
    [("jurisdiction", jurisdiction)] + Hints
  }

  /** The substitutions applied one after the other, each replacing every occurrence of its marker. */
  function SubstituteAll(s: string, subs: seq<(string, string)>): string
    decreases |subs|
  {
    if subs == [] then s
    else SubstituteAll(ReplaceAll(s, Marker(subs[0].0), subs[0].1), subs[1..])
  }

  /**
   * The `forEach` of `applyJurisdictionToPreset`: each substitution in turn
   * rewrites both texts.
   */
  method SubstituteBoth(system: string, prefill: string, subs: seq<(string, string)>)
    returns (system': string, prefill': string)
    ensures system' == SubstituteAll(system, subs) && prefill' == SubstituteAll(prefill, subs)
  {
    system', prefill' := system, prefill;
    var i := 0;
    while i < |subs|
      invariant 0 <= i <= |subs|
      invariant SubstituteAll(system', subs[i..]) == SubstituteAll(system, subs)
      invariant SubstituteAll(prefill', subs[i..]) == SubstituteAll(prefill, subs)
    {
      assert subs[i..][1..] == subs[i + 1..];
      system' := ReplaceAll(system', Marker(subs[i].0), subs[i].1);
      prefill' := ReplaceAll(prefill', Marker(subs[i].0), subs[i].1);
      i := i + 1;
    }
    assert subs[i..] == [];
  }

  /**
   * `applyJurisdictionToPreset`: the system prompt and the prefill go
   * through the substitution table; every other field is kept.
   */
  method ApplyJurisdictionToPreset(preset: LegalPreset, jurisdiction: string) returns (r: LegalPreset)
    ensures r.id == preset.id && r.labelText == preset.labelText && r.description == preset.description
    ensures r.category == preset.category
    ensures r.system == SubstituteAll(preset.system, Substitutions(jurisdiction))
    ensures r.prefill == SubstituteAll(preset.prefill, Substitutions(jurisdiction))
  {
    var system, prefill := SubstituteBoth(preset.system, preset.prefill, Substitutions(jurisdiction));
    r := preset.(system := system, prefill := prefill);
  }

  /** A marker cannot occur in text without an opening brace. */
  lemma NoBraceNoMarker(s: string, key: string)
    requires '{' !in s
    ensures !Contains(s, Marker(key))
  {
    var m := Marker(key);
    forall j | 0 <= j <= |s| ensures !At(s, m, j) {
      if j + |m| <= |s| {
        assert s[j..j + |m|][0] == s[j];
      }
    }
  }

  /** Text without an opening brace goes through every substitution unchanged. */
  lemma {:induction false} FreeTextUnchanged(s: string, subs: seq<(string, string)>)
    requires '{' !in s
    ensures SubstituteAll(s, subs) == s
    decreases |subs|
  {
    if subs != [] {
      NoBraceNoMarker(s, subs[0].0);
      ReplaceAllNoOccurrence(s, Marker(subs[0].0), subs[0].1);
      FreeTextUnchanged(s, subs[1..]);
    }
  }

  /** A prefix without the pattern's first character is kept in front of the replaced rest. */
  lemma {:induction false} ReplaceAllFreePrefix(x: string, y: string, pat: string, v: string)
    requires pat != [] && pat[0] !in x
    ensures ReplaceAll(x + y, pat, v) == x + ReplaceAll(y, pat, v)
    decreases |x|
  {
    if x != [] {
      assert !At(x + y, pat, 0);
      assert (x + y)[1..] == x[1..] + y;
      ReplaceAllFreePrefix(x[1..], y, pat, v);
    } else {
      assert x + y == y;
    }
  }

  /** A prefix without an opening brace is kept in front of the substituted rest. */
  lemma {:induction false} SubstituteFreePrefix(x: string, y: string, subs: seq<(string, string)>)
    requires '{' !in x
    ensures SubstituteAll(x + y, subs) == x + SubstituteAll(y, subs)
    decreases |subs|
  {
    if subs != [] {
      ReplaceAllFreePrefix(x, y, Marker(subs[0].0), subs[0].1);
      SubstituteFreePrefix(x, ReplaceAll(y, Marker(subs[0].0), subs[0].1), subs[1..]);
    }
  }

  /**
   * The first `{{jurisdiction}}` marker of a template is filled with the
   * jurisdiction: the text before it is kept verbatim, and the text after it
   * goes through the remaining substitutions.
   */
  lemma JurisdictionFilled(a: string, b: string, jurisdiction: string)
    requires '{' !in a && '{' !in jurisdiction
    ensures var subs := Substitutions(jurisdiction);
      SubstituteAll(a + Marker("jurisdiction") + b, subs)
        == a + jurisdiction + SubstituteAll(ReplaceAll(b, Marker("jurisdiction"), jurisdiction), subs[1..])
  {
    var subs := Substitutions(jurisdiction);
    var m := Marker("jurisdiction");
    var s := a + m + b;
    assert At(s, m, |a|) by {
      assert s[|a|..|a| + |m|] == m;
    }
    forall j | 0 <= j < |a| ensures !At(s, m, j) {
      assert s[j] == a[j];
    }
    ReplaceAllAtFirst(s, m, jurisdiction, |a|);
    assert s[..|a|] == a;
    assert s[|a| + |m|..] == b;
    assert '{' !in a + jurisdiction;
    SubstituteFreePrefix(a + jurisdiction, ReplaceAll(b, m, jurisdiction), subs[1..]);
  }
}
