/**
 * The analysis report view (components/ReportDashboard.js): how bilingual
 * report texts are chosen for display, how the activity register is
 * filtered, and how edits in edit mode rebuild the report record one field,
 * one list entry or one language at a time.
 */
module ReportDashboard {
  import opened Wrappers
  import opened Js

  /**
   * `getLocalizedContent(item, language)`: "" for a falsy item, a string as
   * it is, otherwise the item's entry for `language` if truthy, else its
   * `en` entry if truthy, else "". The result is never a falsy value other
   * than "".
   */
  function LocalizedContent(item: Option<Value>, language: string): (r: Value)
    ensures !Truthy(item) ==> r == Str("")
    ensures item.Some? && item.value.Str? ==> r == item.value
    ensures Truthy(item) && !item.value.Str? ==>
      r == (if Truthy(GetOpt(item, language)) then GetOpt(item, language).value
            else if Truthy(GetOpt(item, "en")) then GetOpt(item, "en").value
            else Str(""))
    ensures r == Str("") || Truthy(Some(r))
  {
    if !Truthy(item) then Str("")
    else if item.value.Str? then item.value
    else
      var own := Get(item.value, language);
      var en := Get(item.value, "en");
      if Truthy(own) then own.value else if Truthy(en) then en.value else Str("")
  }

  /** `displayRisk`: the assessment's level, else the flat risk level, else "Medium". */
  function DisplayRisk(data: Value): (r: Value)
    ensures Truthy(Some(r))
    ensures Truthy(GetOpt(Get(data, "riskAssessment"), "level")) ==> Some(r) == GetOpt(Get(data, "riskAssessment"), "level")
    ensures !Truthy(GetOpt(Get(data, "riskAssessment"), "level")) && Truthy(Get(data, "riskLevel")) ==> Some(r) == Get(data, "riskLevel")
    ensures !Truthy(GetOpt(Get(data, "riskAssessment"), "level")) && !Truthy(Get(data, "riskLevel")) ==> r == Str("Medium")
  {
    var level := GetOpt(Get(data, "riskAssessment"), "level");
    if Truthy(level) then level.value
    else if Truthy(Get(data, "riskLevel")) then Get(data, "riskLevel").value
    else Str("Medium")
  }

  /** Whether the activity register keeps `act` under `filter`. */
  predicate Keep(act: Value, filter: string) {
    && !(filter == "Critical" && !Truthy(Get(act, "critical")))
    && !(filter == "High Float" && LessThan(Get(act, "totalFloat"), 44.0))
  }

  /**
   * `activities.filter(...)` in `ActivityTable`: exactly the kept activities
   * (`FilterMembers`), in the order they come in (`FilterAppend`), each as
   * often as it occurs (`FilterCounts`).
   */
  function FilterActivities(acts: seq<Value>, filter: string): (r: seq<Value>)
    ensures |r| <= |acts|
    ensures forall i | 0 <= i < |r| :: Keep(r[i], filter)
  {
    if acts == [] then []
    else
      var rest := FilterActivities(acts[1..], filter);
      assert acts == [acts[0]] + acts[1..];
      if Keep(acts[0], filter) then [acts[0]] + rest else rest
  }

  /** Filtering a register that starts with `x` keeps `x` first, if at all. */
  lemma FilterCons(x: Value, rest: seq<Value>, filter: string)
    ensures FilterActivities([x] + rest, filter) == (if Keep(x, filter) then [x] else []) + FilterActivities(rest, filter)
  {
    assert ([x] + rest)[0] == x;
    assert ([x] + rest)[1..] == rest;
  }

  /** Filtering a concatenation filters each part in turn, so the order of the activities is kept. */
  lemma {:induction false} FilterAppend(a: seq<Value>, b: seq<Value>, filter: string)
    ensures FilterActivities(a + b, filter) == FilterActivities(a, filter) + FilterActivities(b, filter)
  {
    if a == [] {
      assert a + b == b;
    } else {
      var head := if Keep(a[0], filter) then [a[0]] else [];
      assert a == [a[0]] + a[1..];
      assert a + b == [a[0]] + (a[1..] + b);
      FilterCons(a[0], a[1..] + b, filter);
      FilterCons(a[0], a[1..], filter);
      FilterAppend(a[1..], b, filter);
      assert head + (FilterActivities(a[1..], filter) + FilterActivities(b, filter))
          == (head + FilterActivities(a[1..], filter)) + FilterActivities(b, filter);
    }
  }

  /** The register shows each kept activity as often as the report lists it, and no other. */
  lemma {:induction false} FilterCounts(acts: seq<Value>, filter: string, x: Value)
    ensures multiset(FilterActivities(acts, filter))[x] == if Keep(x, filter) then multiset(acts)[x] else 0
  {
    if acts != [] {
      FilterCounts(acts[1..], filter, x);
      assert acts == [acts[0]] + acts[1..];
    }
  }

  /** An activity is shown exactly when the report lists it and the filter keeps it. */
  lemma FilterMembers(acts: seq<Value>, filter: string)
    ensures forall x :: x in FilterActivities(acts, filter) <==> x in acts && Keep(x, filter)
  {
    forall x ensures x in FilterActivities(acts, filter) <==> x in acts && Keep(x, filter) {
      FilterCounts(acts, filter, x);
      assert x in FilterActivities(acts, filter) <==> x in multiset(FilterActivities(acts, filter));
      assert x in acts <==> x in multiset(acts);
    }
  }

  /**
   * "Critical" keeps exactly the activities whose `critical` is truthy, and
   * "High Float" exactly those whose `totalFloat` is not below 44; an activity
   * without a numeric float compares as NaN and is kept.
   */
  lemma FilterCriteria(act: Value)
    ensures Keep(act, "Critical") <==> Truthy(Get(act, "critical"))
    ensures Keep(act, "High Float") <==> !LessThan(Get(act, "totalFloat"), 44.0)
    ensures Get(act, "totalFloat").None? ==> Keep(act, "High Float")
  {
  }

  /** Any filter other than "Critical" and "High Float" shows every activity, in order. */
  lemma {:induction false} FilterOthersKeepAll(acts: seq<Value>, filter: string)
    requires filter != "Critical" && filter != "High Float"
    ensures FilterActivities(acts, filter) == acts
  {
    if acts != [] {
      FilterOthersKeepAll(acts[1..], filter);
      assert acts == [acts[0]] + acts[1..];
    }
  }

  /** `{ ...v, [key]: value }` */
  function SetField(v: Value, key: string, value: Value): (r: Value)
    ensures r.Obj? && Get(r, key) == Some(value)
    ensures forall k | k != key :: Get(r, k) == (if v.Obj? then Get(v, k) else None)
  {
    Obj(Spread(Some(v))[key := value])
  }

  /**
   * `{ ...field, [language]: text }` on a localized field: an object field
   * keeps its other languages, any other field becomes an object holding
   * only the current language.
   */
  function MergeLanguage(field: Option<Value>, language: string, text: string): (r: Value)
    ensures r.Obj? && Get(r, language) == Some(Str(text))
    ensures forall k | k != language ::
      Get(r, k) == (if field.Some? && field.value.Obj? then Get(field.value, k) else None)
  {
    Obj(Spread(field)[language := Str(text)])
  }

  /** A language edit shows the new text in that language whenever the text is non-empty. */
  lemma MergeLanguageShows(field: Option<Value>, language: string, text: string)
    requires text != ""
    ensures LocalizedContent(Some(MergeLanguage(field, language, text)), language) == Str(text)
  {
  }

  /**
   * A language edit of an object field leaves what the other language shows
   * unchanged, as long as that language has a truthy entry of its own.
   */
  lemma MergeLanguageKeepsOther(field: Value, language: string, other: string, text: string)
    requires field.Obj? && other != language && Truthy(Get(field, other))
    ensures LocalizedContent(Some(MergeLanguage(Some(field), language, text)), other)
         == LocalizedContent(Some(field), other)
  {
  }

  /** `updateLocalizedField(fieldKey, text)`: merge the current language into the field. */
  function UpdateLocalizedField(data: Value, fieldKey: string, language: string, text: string): (r: Value)
    ensures Get(r, fieldKey) == Some(MergeLanguage(Get(data, fieldKey), language, text))
    ensures forall k | k != fieldKey :: Get(r, k) == (if data.Obj? then Get(data, k) else None)
  {
    SetField(data, fieldKey, MergeLanguage(Get(data, fieldKey), language, text))
  }

  /** `updateOverviewStat(key, value)`: one entry of `projectOverview` changes. */
  function UpdateOverviewStat(data: Value, key: string, value: string): (r: Value)
    ensures var overview := Get(r, "projectOverview");
      && overview.Some? && Get(overview.value, key) == Some(Str(value))
      && forall k | k != key :: Get(overview.value, k) == GetOpt(Get(data, "projectOverview"), k)
    ensures forall k | k != "projectOverview" :: Get(r, k) == (if data.Obj? then Get(data, k) else None)
  {
    var overview := Get(data, "projectOverview");
    SetField(data, "projectOverview", Obj(Spread(overview)[key := Str(value)]))
  }

  /**
   * The risk-description edit: the assessment keeps its other entries, but
   * its description becomes an object holding only the current language.
   */
  function UpdateRiskDescription(data: Value, language: string, text: string): (r: Value)
    ensures var assessment := Get(r, "riskAssessment");
      && assessment.Some?
      && Get(assessment.value, "description") == Some(Obj(map[language := Str(text)]))
      && forall k | k != "description" :: Get(assessment.value, k) == GetOpt(Get(data, "riskAssessment"), k)
    ensures forall k | k != "riskAssessment" :: Get(r, k) == (if data.Obj? then Get(data, k) else None)
  {
    var assessment := Get(data, "riskAssessment");
    SetField(data, "riskAssessment", Obj(Spread(assessment)["description" := Obj(map[language := Str(text)])]))
  }

  /** Unlike the other language edits, the risk-description edit drops the other languages. */
  lemma RiskDescriptionDropsOther(data: Value, language: string, other: string, text: string)
    requires other != language
    ensures GetOpt(GetOpt(Get(UpdateRiskDescription(data, language, text), "riskAssessment"), "description"), other).None?
  {
  }

  /**
   * `const copy = [...items]; copy[index] = item;`: a new list of the same
   * length with one entry replaced.
   */
  method CopyAndSet(items: seq<Value>, index: nat, item: Value) returns (updated: seq<Value>)
    requires index < |items|
    ensures |updated| == |items| && updated[index] == item
    ensures forall j | 0 <= j < |items| && j != index :: updated[j] == items[j]
  {
    var copy := new Value[|items|](j requires 0 <= j < |items| => items[j]);
    copy[index] := item;
    updated := copy[..];
  }

  /** `ComplianceTable.updateCheck(index, field, text)`: one field of one check changes. */
  method UpdateCheck(checks: seq<Value>, index: nat, field: string, text: string) returns (updated: seq<Value>)
    requires index < |checks|
    ensures |updated| == |checks|
    ensures Get(updated[index], field) == Some(Str(text))
    ensures forall k | k != field :: Get(updated[index], k) == Get(checks[index], k)
    ensures forall j | 0 <= j < |checks| && j != index :: updated[j] == checks[j]
  {
    updated := CopyAndSet(checks, index, SetField(checks[index], field, Str(text)));
  }

  /**
   * A finding or non-compliance edit: the `part` ("title" or "description")
   * of one item gets the new text in the current language; the item's
   * other entries and the other items are kept.
   */
  method EditListItem(items: seq<Value>, index: nat, part: string, language: string, text: string) returns (updated: seq<Value>)
    requires index < |items|
    ensures |updated| == |items|
    ensures Get(updated[index], part) == Some(MergeLanguage(Get(items[index], part), language, text))
    ensures forall k | k != part :: Get(updated[index], k) == Get(items[index], k)
    ensures forall j | 0 <= j < |items| && j != index :: updated[j] == items[j]
  {
    var item := items[index];
    updated := CopyAndSet(items, index, SetField(item, part, MergeLanguage(Get(item, part), language, text)));
  }

  /**
   * A recommendation edit: the entry becomes its merge with the current
   * language (`typeof` "object" also holds for `null`, whose spread is empty).
   */
  method EditRecommendation(recs: seq<Value>, index: nat, language: string, text: string) returns (updated: seq<Value>)
    requires index < |recs|
    ensures |updated| == |recs|
    ensures updated[index] == MergeLanguage(Some(recs[index]), language, text)
    ensures forall j | 0 <= j < |recs| && j != index :: updated[j] == recs[j]
  {
    updated := CopyAndSet(recs, index, MergeLanguage(Some(recs[index]), language, text));
  }

  /** `localData.key || []` for a list field. */
  function ListOf(data: Value, key: string): seq<Value> {
    var v := Get(data, key);
    if v.Some? && v.value.Arr? then v.value.items else []
  }

  /** The dashboard's state. */
  class Dashboard {
    /** `localData`: the report as edited so far. */
    var localData: Value
    /** `isEditing` */
    var isEditing: bool
    /** `activityFilter` of the activity register. */
    var activityFilter: string
    /** `activeTab` */
    var activeTab: string
    /** The reports handed to `onUpdate`, oldest first. */
    var updates: seq<Value>
    /** Whether the parent passed an `onUpdate` callback. */
    const hasOnUpdate: bool

    /** The first render: the parent's report, not editing, all activities, the overview tab. */
    constructor (data: Value, hasOnUpdate: bool)
      ensures localData == data && !isEditing && activityFilter == "All" && activeTab == "Overview"
      ensures updates == [] && this.hasOnUpdate == hasOnUpdate
    {
      localData := data;
      isEditing := false;
      activityFilter := "All";
      activeTab := "Overview";
      updates := [];
      this.hasOnUpdate := hasOnUpdate;
    }

    /** The effect run when the parent's report changes: local edits are replaced by it. */
    method SyncData(data: Value)
      modifies this
      ensures localData == data
      ensures isEditing == old(isEditing) && activityFilter == old(activityFilter)
      ensures activeTab == old(activeTab) && updates == old(updates)
    {
      localData := data;
    }

    /**
     * `toggleEdit`: always flips edit mode; leaving it hands the edited report
     * to `onUpdate`, if there is one, exactly once.
     */
    method ToggleEdit()
      modifies this
      ensures isEditing == !old(isEditing)
      ensures updates == if old(isEditing) && hasOnUpdate then old(updates) + [localData] else old(updates)
      ensures localData == old(localData) && activityFilter == old(activityFilter) && activeTab == old(activeTab)
    {
      if isEditing && hasOnUpdate {
        updates := updates + [localData];
      }
      isEditing := !isEditing;
    }

    /** Choosing an option of the activity filter. */
    method SetActivityFilter(filter: string)
      modifies this
      ensures activityFilter == filter
      ensures localData == old(localData) && isEditing == old(isEditing) && activeTab == old(activeTab)
      ensures updates == old(updates)
    {
      activityFilter := filter;
    }

    /** Choosing a tab. */
    method SetActiveTab(tab: string)
      modifies this
      ensures activeTab == tab
      ensures localData == old(localData) && isEditing == old(isEditing) && activityFilter == old(activityFilter)
      ensures updates == old(updates)
    {
      activeTab := tab;
    }

    /** The activities the register shows. */
    function ShownActivities(): seq<Value>
      reads this
    {
      FilterActivities(ListOf(localData, "activities"), activityFilter)
    }

    /** Editing the summary or the contractor note in the current language. */
    method EditLocalizedField(fieldKey: string, language: string, text: string)
      requires isEditing
      modifies this
      ensures localData == UpdateLocalizedField(old(localData), fieldKey, language, text)
      ensures isEditing && activityFilter == old(activityFilter) && activeTab == old(activeTab)
      ensures updates == old(updates)
    {
      localData := UpdateLocalizedField(localData, fieldKey, language, text);
    }

    /** Editing one overview statistic. */
    method EditOverviewStat(key: string, value: string)
      requires isEditing
      modifies this
      ensures localData == UpdateOverviewStat(old(localData), key, value)
      ensures isEditing && activityFilter == old(activityFilter) && activeTab == old(activeTab)
      ensures updates == old(updates)
    {
      localData := UpdateOverviewStat(localData, key, value);
    }

    /** Editing the risk description. */
    method EditRiskDescription(language: string, text: string)
      requires isEditing
      modifies this
      ensures localData == UpdateRiskDescription(old(localData), language, text)
      ensures isEditing && activityFilter == old(activityFilter) && activeTab == old(activeTab)
      ensures updates == old(updates)
    {
      localData := UpdateRiskDescription(localData, language, text);
    }

    /** Editing one cell of the compliance table; the table lists `dcmaAnalysis || []`. */
    method EditCheck(index: nat, field: string, text: string)
      requires isEditing && index < |ListOf(localData, "dcmaAnalysis")|
      modifies this
      ensures var checks := ListOf(old(localData), "dcmaAnalysis");
        && Get(localData, "dcmaAnalysis").Some? && Get(localData, "dcmaAnalysis").value.Arr?
        && var updated := Get(localData, "dcmaAnalysis").value.items;
        && |updated| == |checks|
        && Get(updated[index], field) == Some(Str(text))
        && (forall k | k != field :: Get(updated[index], k) == Get(checks[index], k))
        && (forall j | 0 <= j < |checks| && j != index :: updated[j] == checks[j])
      ensures forall k | k != "dcmaAnalysis" :: Get(localData, k) == (if old(localData).Obj? then Get(old(localData), k) else None)
      ensures isEditing && activityFilter == old(activityFilter) && activeTab == old(activeTab)
      ensures updates == old(updates)
    {
      var updated := UpdateCheck(ListOf(localData, "dcmaAnalysis"), index, field, text);
      localData := SetField(localData, "dcmaAnalysis", Arr(updated));
    }

    /**
     * Editing a finding (`listKey` "technicalFindings") or a non-compliance
     * issue ("nonComplianceIssues"); the list is shown only when it is an array.
     */
    method EditFinding(listKey: string, index: nat, part: string, language: string, text: string)
      requires isEditing
      requires Get(localData, listKey).Some? && Get(localData, listKey).value.Arr?
      requires index < |Get(localData, listKey).value.items|
      modifies this
      ensures var items := Get(old(localData), listKey).value.items;
        && Get(localData, listKey).Some? && Get(localData, listKey).value.Arr?
        && var updated := Get(localData, listKey).value.items;
        && |updated| == |items|
        && Get(updated[index], part) == Some(MergeLanguage(Get(items[index], part), language, text))
        && (forall k | k != part :: Get(updated[index], k) == Get(items[index], k))
        && (forall j | 0 <= j < |items| && j != index :: updated[j] == items[j])
      ensures forall k | k != listKey :: Get(localData, k) == (if old(localData).Obj? then Get(old(localData), k) else None)
      ensures isEditing && activityFilter == old(activityFilter) && activeTab == old(activeTab)
      ensures updates == old(updates)
    {
      var updated := EditListItem(Get(localData, listKey).value.items, index, part, language, text);
      localData := SetField(localData, listKey, Arr(updated));
    }

    /** Editing one recommendation, from the overview or the sequence tab. */
    method EditRecommendationAt(index: nat, language: string, text: string)
      requires isEditing && index < |ListOf(localData, "recommendations")|
      modifies this
      ensures var recs := ListOf(old(localData), "recommendations");
        && Get(localData, "recommendations").Some? && Get(localData, "recommendations").value.Arr?
        && var updated := Get(localData, "recommendations").value.items;
        && |updated| == |recs|
        && updated[index] == MergeLanguage(Some(recs[index]), language, text)
        && (forall j | 0 <= j < |recs| && j != index :: updated[j] == recs[j])
      ensures forall k | k != "recommendations" :: Get(localData, k) == (if old(localData).Obj? then Get(old(localData), k) else None)
      ensures isEditing && activityFilter == old(activityFilter) && activeTab == old(activeTab)
      ensures updates == old(updates)
    {
      var updated := EditRecommendation(ListOf(localData, "recommendations"), index, language, text);
      localData := SetField(localData, "recommendations", Arr(updated));
    }
  }
}
