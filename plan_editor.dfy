/**
 * The plan editor page keeps one plan record in its view state and patches it
 * one field at a time. The record has six named sections, each a string-keyed
 * object of string fields, and two top-level strings, `summary` and
 * `lifeHistory`. Sections are modelled as a map from section name to a map from
 * field name to value, so that a write under an unknown field name (which the
 * page does not reject) can be represented.
 */
module PlanEditor {

  import opened Wrappers

  const SummaryKey: string := "summary"
  const LifeHistoryKey: string := "lifeHistory"

  /** The names of the six nested sections of a plan record. */
  const SectionNames: set<string> :=
    {"basicInfo", "currentSituation", "goals", "services", "supportSystem", "monitoring"}

  // The field names each section declares in the record's interface.
  const BasicInfoFields: set<string> :=
    {"name", "birthDate", "gender", "address", "phone", "emergencyContact",
     "disabilityType", "supportLevel", "education", "medicalInfo"}
  const CurrentSituationFields: set<string> :=
    {"livingSituation", "physicalCondition", "mentalCondition", "socialParticipation", "familySituation"}
  const GoalsFields: set<string> := {"shortTerm", "longTerm", "achievementIndicators"}
  const ServicesFields: set<string> := {"serviceType", "frequency", "duration", "provider", "startDate"}
  const SupportSystemFields: set<string> :=
    {"supportCoordinator", "serviceProviders", "relatedInstitutions", "informalSupport"}
  const MonitoringFields: set<string> := {"frequency", "evaluationMethod", "reviewDate", "emergencyResponse"}

  const Schema: map<string, set<string>> := map[
    "basicInfo" := BasicInfoFields,
    "currentSituation" := CurrentSituationFields,
    "goals" := GoalsFields,
    "services" := ServicesFields,
    "supportSystem" := SupportSystemFields,
    "monitoring" := MonitoringFields]

  datatype PlanData = PlanData(
    sections: map<string, map<string, string>>,
    summary: string,
    lifeHistory: string)

  /** True for the two section names that address a top-level string, not a section. */
  predicate IsTopLevel(section: string) {
    section == SummaryKey || section == LifeHistoryKey
  }

  /** The section names the editor's update accepts (its parameter type). */
  predicate IsSectionKey(section: string) {
    section in SectionNames || IsTopLevel(section)
  }

  /** The record has exactly the six sections. */
  predicate WellFormed(p: PlanData) {
    p.sections.Keys == SectionNames
  }

  /** The record has exactly the six sections, each with exactly its declared fields. */
  predicate Conforms(p: PlanData) {
    && WellFormed(p)
    && forall s :: s in p.sections ==> s in Schema && p.sections[s].Keys == Schema[s]
  }

  /** A section's fields; a missing section spreads like `undefined`, to no fields. */
  function SectionOf(p: PlanData, section: string): map<string, string> {
    if section in p.sections then p.sections[section] else map[]
  }

  /** The value that the input addressed by `(section, field)` shows, if any. */
  function Slot(p: PlanData, section: string, field: string): Option<string> {
    if section == SummaryKey then Some(p.summary)
    else if section == LifeHistoryKey then Some(p.lifeHistory)
    else if field in SectionOf(p, section) then Some(SectionOf(p, section)[field])
    else None
  }

  /** True when the two addresses name the same slot (`field` is ignored for top-level strings). */
  predicate SameSlot(s1: string, f1: string, s2: string, f2: string) {
    s1 == s2 && (IsTopLevel(s1) || f1 == f2)
  }

  /**
   * The record that `updatePlanData(section, field, value)` produces from `p`:
   * the top-level string for `summary` and `lifeHistory`, otherwise one field of
   * one section, written whether or not the field name is declared.
   */
  function Update(p: PlanData, section: string, field: string, value: string): (r: PlanData)
    ensures Slot(r, section, field) == Some(value)
    ensures forall s, f :: !SameSlot(section, field, s, f) ==> Slot(r, s, f) == Slot(p, s, f)
  {
    if IsTopLevel(section) then
      if section == SummaryKey then p.(summary := value) else p.(lifeHistory := value)
    else
      p.(sections := p.sections[section := SectionOf(p, section)[field := value]])
  }

  /** A top-level update sets that string, whatever `field` is, and leaves every section alone. */
  lemma UpdateTopLevel(p: PlanData, section: string, field: string, value: string)
    requires IsTopLevel(section)
    ensures var r := Update(p, section, field, value);
      && r.sections == p.sections
      && (section == SummaryKey ==> r.summary == value && r.lifeHistory == p.lifeHistory)
      && (section == LifeHistoryKey ==> r.lifeHistory == value && r.summary == p.summary)
  {
  }

  /** A section update writes `field`, keeps the section's other fields and every other section. */
  lemma UpdateSection(p: PlanData, section: string, field: string, value: string)
    requires !IsTopLevel(section)
    ensures var r := Update(p, section, field, value);
      && r.summary == p.summary && r.lifeHistory == p.lifeHistory
      && r.sections.Keys == p.sections.Keys + {section}
      && r.sections[section][field] == value
      && r.sections[section].Keys == SectionOf(p, section).Keys + {field}
      && (forall f :: f in SectionOf(p, section) && f != field ==>
            r.sections[section][f] == SectionOf(p, section)[f])
      && (forall s :: s in p.sections && s != section ==> r.sections[s] == p.sections[s])
  {
  }

  /** Field names are not checked: the section's key set grows by one exactly when `field` is new. */
  lemma UpdateKeyGrowth(p: PlanData, section: string, field: string, value: string)
    requires !IsTopLevel(section)
    ensures var r := Update(p, section, field, value);
      |r.sections[section].Keys| == |SectionOf(p, section).Keys| + (if field in SectionOf(p, section) then 0 else 1)
  {
  }

  /** A section update keeps the record's six sections, as long as the section is one of them. */
  lemma UpdateKeepsWellFormed(p: PlanData, section: string, field: string, value: string)
    requires WellFormed(p) && IsSectionKey(section)
    ensures WellFormed(Update(p, section, field, value))
  {
  }

  /**
   * Writing a declared field keeps a conforming record conforming; writing an
   * undeclared field into a section does not (the lenient write is kept).
   */
  lemma UpdateConforms(p: PlanData, section: string, field: string, value: string)
    requires Conforms(p) && IsSectionKey(section)
    ensures Conforms(Update(p, section, field, value)) <==> IsTopLevel(section) || field in Schema[section]
  {
    var r := Update(p, section, field, value);
    if !IsTopLevel(section) && field !in Schema[section] {
      assert field in r.sections[section].Keys;
    }
  }

  /** Applying the same update twice equals applying it once. */
  lemma UpdateIdempotent(p: PlanData, section: string, field: string, value: string)
    ensures Update(Update(p, section, field, value), section, field, value) == Update(p, section, field, value)
  {
    UpdateLastWins(p, section, field, value, value);
  }

  /** Of two updates to the same slot only the last value remains. */
  lemma UpdateLastWins(p: PlanData, section: string, field: string, v1: string, v2: string)
    ensures Update(Update(p, section, field, v1), section, field, v2) == Update(p, section, field, v2)
  {
    if !IsTopLevel(section) {
      var m := SectionOf(p, section);
      assert SectionOf(Update(p, section, field, v1), section) == m[field := v1];
      assert m[field := v1][field := v2] == m[field := v2];
      assert p.sections[section := m[field := v1]][section := m[field := v2]] == p.sections[section := m[field := v2]];
    }
  }

  /** Updates to different slots commute. */
  lemma UpdateCommutes(p: PlanData, s1: string, f1: string, v1: string, s2: string, f2: string, v2: string)
    requires !SameSlot(s1, f1, s2, f2)
    ensures Update(Update(p, s1, f1, v1), s2, f2, v2) == Update(Update(p, s2, f2, v2), s1, f1, v1)
  {
    if !IsTopLevel(s1) && !IsTopLevel(s2) {
      var m1 := SectionOf(p, s1);
      var m2 := SectionOf(p, s2);
      if s1 == s2 {
        assert f1 != f2;
        assert m1[f1 := v1][f2 := v2] == m1[f2 := v2][f1 := v1];
        assert SectionOf(Update(p, s1, f1, v1), s2) == m1[f1 := v1];
        assert SectionOf(Update(p, s2, f2, v2), s1) == m1[f2 := v2];
      } else {
        assert SectionOf(Update(p, s1, f1, v1), s2) == m2;
        assert SectionOf(Update(p, s2, f2, v2), s1) == m1;
        assert p.sections[s1 := m1[f1 := v1]][s2 := m2[f2 := v2]] == p.sections[s2 := m2[f2 := v2]][s1 := m1[f1 := v1]];
      }
    }
  }

  // The record the editor starts from, section by section.

  const InitialBasicInfo: map<string, string> := map[
    "name" := "田中太郎",
    "birthDate" := "1985-03-15",
    "gender" := "男性",
    "address" := "東京都渋谷区○○町1-2-3",
    "phone" := "03-1234-5678",
    "emergencyContact" := "田中花子（母） 090-1234-5678",
    "disabilityType" := "身体障害",
    "supportLevel" := "区分2",
    "education" := "高卒",
    "medicalInfo" := ""]

  const InitialCurrentSituation: map<string, string> := map[
    "livingSituation" := "一人暮らし（アパート）",
    "physicalCondition" := "車椅子を使用、上肢に軽度の麻痺あり",
    "mentalCondition" := "安定している",
    "socialParticipation" := "地域のボランティア活動に参加",
    "familySituation" := "両親は健在、定期的に連絡"]

  const InitialGoals: map<string, string> := map[
    "shortTerm" := "6ヶ月以内に自立した生活を送る",
    "longTerm" := "1年後に就労を目指す",
    "achievementIndicators" := "日常生活動作の自立度向上"]

  const InitialServices: map<string, string> := map[
    "serviceType" := "居宅介護",
    "frequency" := "週3回",
    "duration" := "2時間/回",
    "provider" := "○○介護サービス",
    "startDate" := "2024-02-01"]

  const InitialSupportSystem: map<string, string> := map[
    "supportCoordinator" := "山田相談員",
    "serviceProviders" := "○○介護サービス、△△医療センター",
    "relatedInstitutions" := "区役所福祉課、地域包括支援センター",
    "informalSupport" := "近隣住民、ボランティア"]

  const InitialMonitoring: map<string, string> := map[
    "frequency" := "月1回",
    "evaluationMethod" := "面談、アンケート",
    "reviewDate" := "2024-07-01",
    "emergencyResponse" := "24時間対応可能"]

  const InitialPlan: PlanData := PlanData(
    map[
      "basicInfo" := InitialBasicInfo,
      "currentSituation" := InitialCurrentSituation,
      "goals" := InitialGoals,
      "services" := InitialServices,
      "supportSystem" := InitialSupportSystem,
      "monitoring" := InitialMonitoring],
    "",
    "")

  /** The initial record has the six sections, each with exactly its declared fields. */
  lemma InitialPlanConforms()
    ensures Conforms(InitialPlan)
  {
    assert InitialPlan.sections.Keys == SectionNames;
    forall s | s in InitialPlan.sections
      ensures s in Schema && InitialPlan.sections[s].Keys == Schema[s]
    {
      InitialSectionFields(s);
    }
  }

  lemma InitialSectionFields(s: string)
    requires s in SectionNames
    ensures s in Schema && InitialPlan.sections[s].Keys == Schema[s]
  {
    InitialBasicInfoFields();
    InitialOtherSectionFields();
    if s == "basicInfo" {
      assert InitialPlan.sections[s] == InitialBasicInfo && Schema[s] == BasicInfoFields;
    } else if s == "currentSituation" {
      assert InitialPlan.sections[s] == InitialCurrentSituation && Schema[s] == CurrentSituationFields;
    } else if s == "goals" {
      assert InitialPlan.sections[s] == InitialGoals && Schema[s] == GoalsFields;
    } else if s == "services" {
      assert InitialPlan.sections[s] == InitialServices && Schema[s] == ServicesFields;
    } else if s == "supportSystem" {
      assert InitialPlan.sections[s] == InitialSupportSystem && Schema[s] == SupportSystemFields;
    } else {
      assert InitialPlan.sections[s] == InitialMonitoring && Schema[s] == MonitoringFields;
    }
  }

  lemma InitialBasicInfoFields()
    ensures InitialBasicInfo.Keys == BasicInfoFields
  {
  }

  lemma InitialOtherSectionFields()
    ensures InitialCurrentSituation.Keys == CurrentSituationFields
    ensures InitialGoals.Keys == GoalsFields
    ensures InitialServices.Keys == ServicesFields
    ensures InitialSupportSystem.Keys == SupportSystemFields
    ensures InitialMonitoring.Keys == MonitoringFields
  {
  }

  /** The initial record has empty free text and the sample client's name. */
  lemma InitialPlanSample()
    ensures InitialPlan.summary == "" && InitialPlan.lifeHistory == ""
    ensures Slot(InitialPlan, "basicInfo", "name") == Some("田中太郎")
  {
    assert "basicInfo" != SummaryKey && "basicInfo" != LifeHistoryKey;
    assert InitialPlan.sections["basicInfo"]["name"] == "田中太郎";
  }

  /** The editor page's state: the current plan record, replaced wholesale by each update. */
  class Editor {
    var planData: PlanData

    ghost predicate Valid()
      reads this
    {
      WellFormed(planData)
    }

    constructor ()
      ensures Valid() && planData == InitialPlan
    {
      planData := InitialPlan;
    }

    /** `updatePlanData`: replace the state by the patched record. */
    method UpdatePlanData(section: string, field: string, value: string)
      requires Valid() && IsSectionKey(section)
      modifies this
      ensures Valid()
      ensures planData == Update(old(planData), section, field, value)
    {
      UpdateKeepsWellFormed(planData, section, field, value);
      planData := Update(planData, section, field, value);
    }
  }
}
