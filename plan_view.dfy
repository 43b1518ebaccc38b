/**
 * The plan view page: it chooses which plan record to show (a stored one or a
 * built-in sample) and renders the selected services as one line of text.
 * The browser's key-value store is a finite map from key to stored text, and
 * decoding that text is an opaque function that fails (`None`) where the
 * decoder would throw.
 */
module PlanView {

  import opened Wrappers

  /** `serviceType` as decoded: normally an array of labels, otherwise any other value shown as text. */
  datatype ServiceTypeValue = Labels(labels: seq<string>) | Verbatim(text: string)

  datatype Services = Services(
    serviceType: ServiceTypeValue,
    frequency: string,
    duration: string,
    provider: string,
    startDate: string,
    frequencyMap: Option<map<string, string>>,
    durationMap: Option<map<string, string>>)

  /**
   * A plan record as the view reads it: its flat string fields (an optional
   * field is a missing key), its nested sections of string fields, and its
   * services section.
   */
  datatype ViewPlan = ViewPlan(
    fields: map<string, string>,
    sections: map<string, map<string, string>>,
    services: Services)

  // ---------------------------------------------------------------------------
  // Record selection

  datatype LoadError = SyntaxError(raw: string)

  /** The storage key under which the record for `id` is kept. */
  function StorageKey(id: string): string {
    "planData_" + id
  }

  /** The route gives a non-empty id and the store holds non-empty text under its key. */
  predicate HasSaved(planId: Option<string>, storage: map<string, string>) {
    planId.Some? && planId.value != "" && StorageKey(planId.value) in storage
    && storage[StorageKey(planId.value)] != ""
  }

  /**
   * The record the page shows: the decoded stored record when the id and the
   * stored text are both present and non-empty (JavaScript truthiness);
   * otherwise the built-in sample. Text the decoder rejects is an error.
   */
  function SelectPlan(planId: Option<string>, storage: map<string, string>,
                      parse: string -> Option<ViewPlan>): (r: Result<ViewPlan, LoadError>)
    ensures HasSaved(planId, storage) ==>
      var raw := storage[StorageKey(planId.value)];
      (parse(raw).Some? ==> r == Ok(parse(raw).value)) && (parse(raw).None? ==> r == Failure(SyntaxError(raw)))
    ensures !HasSaved(planId, storage) ==> r == Ok(DefaultPlanData)
  {
    if planId.Some? && planId.value != "" then
      var key := StorageKey(planId.value);
      if key in storage && storage[key] != "" then
        match parse(storage[key])
        case Some(rec) => Ok(rec)
        case None => Failure(SyntaxError(storage[key]))
      else Ok(DefaultPlanData)
    else Ok(DefaultPlanData)
  }

  /** Different ids use different storage keys. */
  lemma StorageKeyInjective(a: string, b: string)
    ensures StorageKey(a) == StorageKey(b) ==> a == b
  {
    if StorageKey(a) == StorageKey(b) {
      assert a == StorageKey(a)[9..];
      assert b == StorageKey(b)[9..];
    }
  }

  /** Selection for `id` only looks at `id`'s key: writing another key changes nothing. */
  lemma SelectIgnoresOtherKeys(id: string, storage: map<string, string>, k: string, v: string,
                               parse: string -> Option<ViewPlan>)
    requires k != StorageKey(id)
    ensures SelectPlan(Some(id), storage[k := v], parse) == SelectPlan(Some(id), storage, parse)
  {
  }

  /** Text written under an id's key is what a later selection of that id decodes. */
  lemma SelectAfterStore(id: string, storage: map<string, string>, raw: string,
                         parse: string -> Option<ViewPlan>)
    requires id != "" && raw != ""
    ensures parse(raw).Some? ==> SelectPlan(Some(id), storage[StorageKey(id) := raw], parse) == Ok(parse(raw).value)
    ensures parse(raw).None? ==> SelectPlan(Some(id), storage[StorageKey(id) := raw], parse).Failure?
  {
  }

  // ---------------------------------------------------------------------------
  // Service summary

  /** The characters the pattern `[0-9]` matches. */
  predicate IsDigit(c: char) {
    '0' <= c <= '9'
  }

  /** `replace(/[^0-9]/g, '')`: the digits of `s`, in order, with nothing else removed. */
  function Digits(s: string): (r: string)
    ensures forall i :: 0 <= i < |r| ==> IsDigit(r[i])
    ensures |r| <= |s|
  {
    if s == [] then []
    else (if IsDigit(s[0]) then [s[0]] else []) + Digits(s[1..])
  }

  /** Stripping non-digits distributes over concatenation, so it keeps the digits in their order. */
  lemma {:induction false} DigitsConcat(a: string, b: string)
    ensures Digits(a + b) == Digits(a) + Digits(b)
  {
    if a == [] {
      assert a + b == b;
    } else {
      var h := if IsDigit(a[0]) then [a[0]] else [];
      assert (a + b)[0] == a[0];
      assert (a + b)[1..] == a[1..] + b;
      DigitsConcat(a[1..], b);
      calc {
        Digits(a + b);
        h + Digits(a[1..] + b);
        h + (Digits(a[1..]) + Digits(b));
        (h + Digits(a[1..])) + Digits(b);
      }
    }
  }

  /** A string of digits only, leading zeros included, is kept as it is. */
  lemma {:induction false} DigitsKeepsDigits(s: string)
    requires forall i :: 0 <= i < |s| ==> IsDigit(s[i])
    ensures Digits(s) == s
  {
    if s != [] {
      DigitsKeepsDigits(s[1..]);
    }
  }

  /** Every digit occurs in the stripped text as often as in the input, and nothing else occurs. */
  lemma {:induction false} DigitsMultiset(s: string)
    ensures forall c :: multiset(Digits(s))[c] == if IsDigit(c) then multiset(s)[c] else 0
  {
    if s != [] {
      DigitsMultiset(s[1..]);
      assert s == [s[0]] + s[1..];
      var h := if IsDigit(s[0]) then [s[0]] else [];
      assert multiset(s) == multiset([s[0]]) + multiset(s[1..]);
      assert multiset(Digits(s)) == multiset(h) + multiset(Digits(s[1..]));
    }
  }

  /** Text without digits strips to nothing. */
  lemma {:induction false} DigitsNoDigits(s: string)
    requires forall i :: 0 <= i < |s| ==> !IsDigit(s[i])
    ensures Digits(s) == ""
  {
    if s != [] {
      DigitsNoDigits(s[1..]);
    }
  }

  /** Stripping twice is the same as stripping once. */
  lemma DigitsIdempotent(s: string)
    ensures Digits(Digits(s)) == Digits(s)
  {
    DigitsKeepsDigits(Digits(s));
  }

  /** `filter(Boolean)` over strings: drop the empty ones, keep the rest in order. */
  function Compact(parts: seq<string>): (r: seq<string>)
    ensures forall i :: 0 <= i < |r| ==> r[i] != "" && r[i] in parts
    ensures forall i :: 0 <= i < |parts| && parts[i] != "" ==> parts[i] in r
    ensures |r| <= |parts|
  {
    if parts == [] then []
    else
      assert forall i :: 1 <= i < |parts| ==> parts[i] == parts[1..][i - 1];
      (if parts[0] != "" then [parts[0]] else []) + Compact(parts[1..])
  }

  /** Every non-empty part is kept as often as it occurs, and no empty one is. */
  lemma {:induction false} CompactMultiset(parts: seq<string>)
    ensures forall x :: multiset(Compact(parts))[x] == if x == "" then 0 else multiset(parts)[x]
  {
    if parts != [] {
      CompactMultiset(parts[1..]);
      assert parts == [parts[0]] + parts[1..];
      var h := if parts[0] != "" then [parts[0]] else [];
      assert multiset(parts) == multiset([parts[0]]) + multiset(parts[1..]);
      assert multiset(Compact(parts)) == multiset(h) + multiset(Compact(parts[1..]));
    }
  }

  /** Dropping empty strings distributes over concatenation, so the kept parts stay in order. */
  lemma {:induction false} CompactConcat(a: seq<string>, b: seq<string>)
    ensures Compact(a + b) == Compact(a) + Compact(b)
  {
    if a == [] {
      assert a + b == b;
    } else {
      var h := if a[0] != "" then [a[0]] else [];
      assert (a + b)[0] == a[0];
      assert (a + b)[1..] == a[1..] + b;
      CompactConcat(a[1..], b);
      calc {
        Compact(a + b);
        h + Compact(a[1..] + b);
        h + (Compact(a[1..]) + Compact(b));
        (h + Compact(a[1..])) + Compact(b);
      }
    }
  }

  /** `Array.prototype.join(sep)` over strings. */
  function Join(parts: seq<string>, sep: string): string {
    if |parts| == 0 then ""
    else if |parts| == 1 then parts[0]
    else parts[0] + sep + Join(parts[1..], sep)
  }

  /** Joining two non-empty lists puts exactly one separator between their joins. */
  lemma {:induction false} JoinConcat(a: seq<string>, b: seq<string>, sep: string)
    requires a != [] && b != []
    ensures Join(a + b, sep) == Join(a, sep) + sep + Join(b, sep)
  {
    if |a| == 1 {
      assert (a + b)[1..] == b;
    } else {
      assert (a + b)[1..] == a[1..] + b;
      JoinConcat(a[1..], b, sep);
    }
  }

  /** `m ? m[key] : ''` over an optional map, with a missing key read as empty. */
  function Lookup(m: Option<map<string, string>>, key: string): string {
    if m.Some? && key in m.value then m.value[key] else ""
  }

  /**
   * One service's fragment: the label, `週<digits>` for the frequency and
   * `<digits>時間` for the duration, empty parts dropped, joined by a space.
   */
  function Fragment(service: string, frequencyMap: Option<map<string, string>>,
                    durationMap: Option<map<string, string>>): string
  {
    var freq := Digits(Lookup(frequencyMap, service));
    var duration := Digits(Lookup(durationMap, service));
    var freqText := if freq != "" then "週" + freq else "";
    var durationText := if duration != "" then duration + "時間" else "";
    Join(Compact([service, freqText, durationText]), " ")
  }

  /** The list holding `x` when it is non-empty, and nothing otherwise. */
  function NonEmpty(x: string): seq<string> {
    if x != "" then [x] else []
  }

  /** Dropping empty strings from `[x] + rest` keeps `x` in front when it is non-empty. */
  lemma CompactCons(x: string, rest: seq<string>)
    ensures Compact([x] + rest) == NonEmpty(x) + Compact(rest)
  {
    assert ([x] + rest)[1..] == rest;
  }

  /** Joining a possibly-dropped head: it is followed by a separator only when both sides are present. */
  lemma JoinNonEmptyCons(x: string, rest: seq<string>, sep: string)
    ensures Join(NonEmpty(x) + rest, sep) == x + (if x != "" && rest != [] then sep else "") + Join(rest, sep)
  {
    if x == "" {
      assert NonEmpty(x) + rest == rest;
    } else if rest == [] {
      assert NonEmpty(x) + rest == [x];
    } else {
      assert (NonEmpty(x) + rest)[1..] == rest;
    }
  }

  /** Dropping empty strings from three parts keeps the non-empty ones in order. */
  lemma CompactThree(x: string, y: string, z: string)
    ensures Compact([x, y, z]) == NonEmpty(x) + (NonEmpty(y) + NonEmpty(z))
  {
    CompactCons(z, []);
    CompactCons(y, [z]);
    CompactCons(x, [y, z]);
    assert [x, y, z] == [x] + [y, z];
    assert [y, z] == [y] + [z];
    assert NonEmpty(z) + [] == NonEmpty(z);
  }

  /** Two possibly-dropped parts, joined: a separator only when both are present. */
  lemma JoinNonEmptyTwo(y: string, z: string, sep: string)
    ensures Join(NonEmpty(y) + NonEmpty(z), sep) == y + (if y != "" && z != "" then sep else "") + z
  {
    JoinNonEmptyCons(z, [], sep);
    assert NonEmpty(z) + [] == NonEmpty(z);
    JoinNonEmptyCons(y, NonEmpty(z), sep);
  }

  /** Three parts with the empty ones dropped, joined: each separator stands between two present parts. */
  lemma JoinCompactThree(x: string, y: string, z: string, sep: string)
    ensures Join(Compact([x, y, z]), sep) ==
      x + (if x != "" && y != "" then sep else "") + y
        + (if (x != "" || y != "") && z != "" then sep else "") + z
  {
    CompactThree(x, y, z);
    var mid := NonEmpty(y) + NonEmpty(z);
    JoinNonEmptyTwo(y, z, sep);
    JoinNonEmptyCons(x, mid, sep);
    var jm := y + (if y != "" && z != "" then sep else "") + z;
    assert mid != [] <==> y != "" || z != "";
    if x == "" {
      assert x + "" + jm == jm;
    } else if y == "" {
      assert jm == z;
    }
  }

  /** The fragment in closed form: each present part once, in order, with single spaces between. */
  lemma FragmentShape(service: string, frequencyMap: Option<map<string, string>>,
                      durationMap: Option<map<string, string>>)
    ensures var f := Digits(Lookup(frequencyMap, service));
      var d := Digits(Lookup(durationMap, service));
      Fragment(service, frequencyMap, durationMap) ==
        service
        + (if service != "" && f != "" then " " else "")
        + (if f != "" then "週" + f else "")
        + (if (service != "" || f != "") && d != "" then " " else "")
        + (if d != "" then d + "時間" else "")
  {
    var f := Digits(Lookup(frequencyMap, service));
    var d := Digits(Lookup(durationMap, service));
    var ft := if f != "" then "週" + f else "";
    var dt := if d != "" then d + "時間" else "";
    assert ft != "" <==> f != "";
    assert dt != "" <==> d != "";
    JoinCompactThree(service, ft, dt, " ");
  }

  /** A frequency that is absent, unknown for the label, or without digits leaves no trace. */
  lemma FragmentOmitsFrequency(service: string, frequencyMap: Option<map<string, string>>,
                               durationMap: Option<map<string, string>>)
    requires frequencyMap.None? || service !in frequencyMap.value || Digits(frequencyMap.value[service]) == ""
    ensures Fragment(service, frequencyMap, durationMap) == Fragment(service, None, durationMap)
  {
  }

  /** A duration that is absent, unknown for the label, or without digits leaves no trace. */
  lemma FragmentOmitsDuration(service: string, frequencyMap: Option<map<string, string>>,
                              durationMap: Option<map<string, string>>)
    requires durationMap.None? || service !in durationMap.value || Digits(durationMap.value[service]) == ""
    ensures Fragment(service, frequencyMap, durationMap) == Fragment(service, frequencyMap, None)
  {
  }

  /** One fragment per label, in the labels' order. */
  function Fragments(labels: seq<string>, frequencyMap: Option<map<string, string>>,
                     durationMap: Option<map<string, string>>): (r: seq<string>)
    ensures |r| == |labels|
    ensures forall i :: 0 <= i < |labels| ==> r[i] == Fragment(labels[i], frequencyMap, durationMap)
  {
    seq(|labels|, i requires 0 <= i < |labels| => Fragment(labels[i], frequencyMap, durationMap))
  }

  /** The text after 利用サービス種別: fragments joined by `、`, or a non-array value as it is. */
  function ServiceSummary(services: Services): string {
    match services.serviceType
    case Labels(labels) => Join(Fragments(labels, services.frequencyMap, services.durationMap), "、")
    case Verbatim(text) => text
  }

  /** A non-array `serviceType` is shown verbatim. */
  lemma SummaryVerbatim(services: Services)
    requires services.serviceType.Verbatim?
    ensures ServiceSummary(services) == services.serviceType.text
  {
  }

  /** No labels give empty text; one label gives exactly its fragment. */
  lemma SummaryBase(services: Services, service: string)
    ensures ServiceSummary(services.(serviceType := Labels([]))) == ""
    ensures ServiceSummary(services.(serviceType := Labels([service]))) ==
      Fragment(service, services.frequencyMap, services.durationMap)
  {
    var one := services.(serviceType := Labels([service]));
    assert Fragments([service], one.frequencyMap, one.durationMap) == [Fragment(service, services.frequencyMap, services.durationMap)];
  }

  /** Splitting the labels splits the summary at exactly one `、`, keeping the order. */
  lemma SummaryConcat(services: Services, a: seq<string>, b: seq<string>)
    requires a != [] && b != []
    ensures ServiceSummary(services.(serviceType := Labels(a + b))) ==
      ServiceSummary(services.(serviceType := Labels(a))) + "、" + ServiceSummary(services.(serviceType := Labels(b)))
  {
    var fm, dm := services.frequencyMap, services.durationMap;
    assert Fragments(a + b, fm, dm) == Fragments(a, fm, dm) + Fragments(b, fm, dm);
    JoinConcat(Fragments(a, fm, dm), Fragments(b, fm, dm), "、");
  }

  /** Worked case: a label with both frequency and duration. */
  lemma FragmentBothExample()
    ensures Fragment("居宅介護", Some(map["居宅介護" := "3"]), Some(map["居宅介護" := "2"])) == "居宅介護 週3 2時間"
  {
    assert Digits("3") == "3";
    assert Digits("2") == "2";
    FragmentShape("居宅介護", Some(map["居宅介護" := "3"]), Some(map["居宅介護" := "2"]));
  }

  /** Worked case: an empty frequency is omitted and leaves a single space. */
  lemma FragmentNoFrequencyExample()
    ensures Fragment("居宅介護", Some(map["居宅介護" := ""]), Some(map["居宅介護" := "2"])) == "居宅介護 2時間"
  {
    assert Digits("2") == "2";
    FragmentShape("居宅介護", Some(map["居宅介護" := ""]), Some(map["居宅介護" := "2"]));
  }

  /** Worked case: stored text keeps only its digits, so 週3回 renders as 週3. */
  lemma FragmentStripsTextExample()
    ensures Fragment("居宅介護", Some(map["居宅介護" := "週3回"]), None) == "居宅介護 週3"
  {
    assert Digits("回") == "";
    assert Digits("3回") == "3";
    assert Digits("週3回") == "3";
    FragmentShape("居宅介護", Some(map["居宅介護" := "週3回"]), None);
  }

  /** Worked case: an empty label is dropped and leading zeros are kept. */
  lemma FragmentEmptyLabelExample()
    ensures Fragment("", None, Some(map["" := "007"])) == "007時間"
  {
    assert Digits("7") == "7";
    assert Digits("07") == "07";
    assert Digits("007") == "007";
    FragmentShape("", None, Some(map["" := "007"]));
  }

  // ---------------------------------------------------------------------------
  // The built-in sample record

  const DefaultFields: map<string, string> := map[
    "id" := "1",
    "clientName" := "田中太郎",
    "clientId" := "C001",
    "birthDate" := "1985-03-15",
    "gender" := "男性",
    "address" := "東京都渋谷区○○町1-2-3",
    "phone" := "03-1234-5678",
    "emergencyContact" := "田中花子（母） 090-1234-5678",
    "disabilityType" := "身体障害",
    "supportLevel" := "区分2",
    "status" := "承認済み",
    "createdAt" := "2024-01-15",
    "updatedAt" := "2024-01-20",
    "assignedTo" := "山田相談員",
    "education" := "高卒",
    "summary" := "支援経過や課題の例文がここに入ります。",
    "lifeHistory" := "生活歴の例文がここに入ります。",
    "creator" := "山田相談員",
    "supportCoordinatorName" := "山田相談員",
    "contact" := "03-1234-5678"]

  const DefaultCurrentSituation: map<string, string> := map[
    "livingSituation" := "一人暮らし（アパート）",
    "physicalCondition" := "車椅子を使用、上肢に軽度の麻痺あり",
    "mentalCondition" := "安定している",
    "socialParticipation" := "地域のボランティア活動に参加",
    "familySituation" := "両親は健在、定期的に連絡"]

  const DefaultGoals: map<string, string> := map[
    "shortTerm" := "6ヶ月以内に自立した生活を送る",
    "longTerm" := "1年後に就労を目指す",
    "achievementIndicators" := "日常生活動作の自立度向上"]

  const DefaultSupportSystem: map<string, string> := map[
    "supportCoordinator" := "山田相談員",
    "serviceProviders" := "○○介護サービス、△△医療センター",
    "relatedInstitutions" := "区役所福祉課、地域包括支援センター",
    "informalSupport" := "近隣住民、ボランティア"]

  const DefaultMonitoring: map<string, string> := map[
    "frequency" := "月1回",
    "evaluationMethod" := "面談、アンケート",
    "reviewDate" := "2024-07-01",
    "emergencyResponse" := "24時間対応可能"]

  const DefaultBasicInfo: map<string, string> := map[
    "name" := "田中太郎",
    "birthDate" := "1985-03-15",
    "gender" := "男性",
    "address" := "東京都渋谷区○○町1-2-3",
    "phone" := "03-1234-5678",
    "emergencyContact" := "田中花子（母） 090-1234-5678",
    "disabilityType" := "身体障害",
    "supportLevel" := "区分2",
    "education" := "高卒",
    "medicalInfo" := "かかりつけ医：渋谷クリニック、通院：月1回、服薬：有"]

  /** The sample's services: one label and no frequency or duration maps. */
  const DefaultServices: Services := Services(
    Labels(["居宅介護"]), "週3回", "2時間/回", "○○介護サービス", "2024-02-01", None, None)

  const DefaultPlanData: ViewPlan := ViewPlan(
    DefaultFields,
    map[
      "currentSituation" := DefaultCurrentSituation,
      "goals" := DefaultGoals,
      "supportSystem" := DefaultSupportSystem,
      "monitoring" := DefaultMonitoring,
      "basicInfo" := DefaultBasicInfo],
    DefaultServices)

  /** The sample has no frequency or duration maps, so its summary is the bare label. */
  lemma DefaultSummary()
    ensures ServiceSummary(DefaultPlanData.services) == "居宅介護"
  {
    FragmentShape("居宅介護", None, None);
    assert Digits("") == "";
  }
}
