/**
 * The dialog listing a planning standard's criteria
 * (components/StandardCriteriaModal.js): when it shows, which details it
 * shows, and in which language.
 */
module StandardCriteriaModal {
  import opened Wrappers
  import opened Browser
  import Constants

  /** One listed criterion as shown: its name and its description. */
  datatype ShownCriterion = ShownCriterion(name: string, desc: string)

  /** What the open dialog shows. */
  datatype ModalContent = ModalContent(title: string, description: string, criteria: seq<ShownCriterion>, closeLabel: string)

  /** The Arabic text when the language is Arabic, the English one otherwise. */
  function Pick(b: Constants.Bilingual, language: string): (r: string)
    ensures language == Constants.Language.AR.Code() ==> r == b.ar
    ensures language != Constants.Language.AR.Code() ==> r == b.en
  {
    if language == Constants.Language.AR.Code() then b.ar else b.en
  }

  /** The details for `standardId`, or the general ones for an unknown id. */
  function DetailsFor(standardId: string): (d: Constants.StandardDetail)
    ensures standardId in Constants.StandardDetails ==> d == Constants.StandardDetails[standardId]
    ensures standardId !in Constants.StandardDetails ==> d == Constants.GeneralDetail
  {
    if standardId in Constants.StandardDetails then Constants.StandardDetails[standardId]
    else Constants.StandardDetails["general"]
  }

  /** The criteria of `d` in table order, each in the chosen language. */
  function ShowCriteria(cs: seq<Constants.Criterion>, language: string): (r: seq<ShownCriterion>)
    ensures |r| == |cs|
    ensures forall k | 0 <= k < |cs| :: r[k] == ShownCriterion(Pick(cs[k].name, language), Pick(cs[k].desc, language))
  {
    seq(|cs|, k requires 0 <= k < |cs| => ShownCriterion(Pick(cs[k].name, language), Pick(cs[k].desc, language)))
  }

  /**
   * The dialog's content: nothing when it is closed or has no standard id;
   * otherwise the standard's (or the general) details in the chosen language.
   */
  function Content(isOpen: bool, standardId: Option<string>, language: string): (r: Option<ModalContent>)
    ensures r.None? <==> !isOpen || !Filled(standardId)
    ensures r.Some? ==>
      var d := DetailsFor(standardId.value);
      && r.value.title == Pick(d.title, language)
      && r.value.description == Pick(d.description, language)
      && r.value.criteria == ShowCriteria(d.criteria, language)
      && r.value.closeLabel == (if language == Constants.Language.AR.Code() then "إغلاق" else "Close")
  {
    if !isOpen || !Filled(standardId) then None
    else
      var d := DetailsFor(standardId.value);
      Some(ModalContent(Pick(d.title, language), Pick(d.description, language), ShowCriteria(d.criteria, language),
        if language == Constants.Language.AR.Code() then "إغلاق" else "Close"))
  }

  /** An id that is not a standard shows exactly what `general` shows. */
  lemma UnknownStandardShowsGeneral(standardId: string, language: string)
    requires standardId != "" && standardId !in Constants.StandardDetails
    ensures Content(true, Some(standardId), language) == Content(true, Some("general"), language)
  {
  }

  /**
   * Every standard offered on the agent screen opens its own details, and
   * every text the open dialog shows, in either language, is non-empty.
   */
  lemma ShownTextsNonEmpty(standardId: string, language: string)
    requires standardId != ""
    ensures (exists s | s in Constants.PlanningStandards :: s.id == standardId) ==>
      DetailsFor(standardId) == Constants.StandardDetails[standardId]
    ensures var c := Content(true, Some(standardId), language).value;
      && c.title != "" && c.description != ""
      && forall k | 0 <= k < |c.criteria| :: c.criteria[k].name != "" && c.criteria[k].desc != ""
  {
    Constants.StandardDetailsWellFormed();
    var d := DetailsFor(standardId);
    assert Constants.DetailFullyBilingual(d) by {
      if standardId !in Constants.StandardDetails {
        assert d == Constants.StandardDetails["general"];
      }
    }
  }

  /** The DCMA assessment lists its fourteen points in either language. */
  lemma DcmaShowsFourteenCriteria(language: string)
    ensures |Content(true, Some("dcma"), language).value.criteria| == 14
  {
    Constants.StandardDetailsWellFormed();
  }
}
