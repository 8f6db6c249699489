/**
 * The result rendering of `exibirResultado` and the three display slots of
 * the page (name error, date error, result) that `mostrarErro`,
 * `ocultarErros` and `exibirResultado` switch on and off.
 */
module Presenter {
  import opened Wrappers
  import opened Eligibility

  /** What `verificarIdade` computes and hands to `exibirResultado`. */
  datatype Report = Report(name: string, currentAge: int, isAdult: bool, ageAtElection: int, category: Category)

  /** The content of the result block, without its HTML markup. */
  datatype ResultView = ResultView(
    statusClass: string,   // "maior" or "menor", added to the block's classes
    greetingName: string,
    currentAge: int,
    statusLabel: string,
    panelTag: string,      // the category's tag, a class of the eligibility panel
    icon: string,
    ageAtElection: int,
    message: string)

  /** The majority statement of the greeting. */
  function StatusLabel(adult: bool): string {
    if adult then "maior de idade" else "menor de idade"
  }

  /** The two majority statements differ. */
  lemma LabelsDistinguish(a: bool, b: bool)
    ensures StatusLabel(a) == StatusLabel(b) <==> a == b
  {
    if a != b {
      assert StatusLabel(a)[1] != StatusLabel(b)[1];
    }
  }

  function Render(r: Report): ResultView {
    ResultView(
      if r.isAdult then "maior" else "menor",
      r.name,
      r.currentAge,
      StatusLabel(r.isAdult),
      Tag(r.category),
      IconForTag(Tag(r.category)),
      r.ageAtElection,
      Message(r.category))
  }

  /**
   * The rendered block tells the categories apart by its icon and by its
   * panel tag, and the majority status by its label.
   */
  lemma RenderDistinguishes(r1: Report, r2: Report)
    ensures Render(r1).icon == Render(r2).icon <==> r1.category == r2.category
    ensures Render(r1).panelTag == Render(r2).panelTag <==> r1.category == r2.category
    ensures Render(r1).statusLabel == Render(r2).statusLabel <==> r1.isAdult == r2.isAdult
  {
    IconsDistinguish(r1.category, r2.category);
    TagInjective(r1.category, r2.category);
    LabelsDistinguish(r1.isAdult, r2.isAdult);
  }

  /** The icon chosen from the tag identifies the category. */
  lemma IconsDistinguish(c: Category, d: Category)
    ensures IconForTag(Tag(c)) == IconForTag(Tag(d)) <==> c == d
  {
    IconPerCategory(c);
    IconPerCategory(d);
    assert |BallotIcon| == 2 && |ClipboardIcon| == 1 && |HourglassIcon| == 1;
    assert ClipboardIcon[0] != HourglassIcon[0];
  }

  datatype ErrorField = NameField | DateField

  /** What a visitor sees: each slot's content when it is displayed, `None` when hidden. */
  datatype PageView = PageView(nameError: Option<string>, dateError: Option<string>, result: Option<ResultView>)

  class Page {
    var nameErrorVisible: bool
    var nameErrorText: string
    var dateErrorVisible: bool
    var dateErrorText: string
    var resultVisible: bool
    var resultContent: Option<ResultView>

    /** A displayed result block always holds a rendered result. */
    ghost predicate Valid()
      reads this
    {
      resultVisible ==> resultContent.Some?
    }

    function View(): PageView
      reads this
    {
      PageView(
        if nameErrorVisible then Some(nameErrorText) else None,
        if dateErrorVisible then Some(dateErrorText) else None,
        if resultVisible then resultContent else None)
    }

    /** The page as loaded: every slot hidden and empty. */
    constructor ()
      ensures Valid()
      ensures View() == PageView(None, None, None)
      ensures nameErrorText == "" && dateErrorText == "" && resultContent == None
    {
      nameErrorVisible, nameErrorText := false, "";
      dateErrorVisible, dateErrorText := false, "";
      resultVisible, resultContent := false, None;
    }

    /** `ocultarErros`: hide both error slots and the result slot; their contents stay. */
    method HideAll()
      requires Valid()
      modifies this
      ensures Valid()
      ensures View() == PageView(None, None, None)
      ensures nameErrorText == old(nameErrorText) && dateErrorText == old(dateErrorText)
      ensures resultContent == old(resultContent)
    {
      nameErrorVisible := false;
      dateErrorVisible := false;
      resultVisible := false;
    }

    /** `mostrarErro`: put `message` in one error slot and display it; nothing else changes. */
    method ShowError(field: ErrorField, message: string)
      requires Valid()
      modifies this
      ensures Valid()
      ensures field == NameField ==>
        nameErrorVisible && nameErrorText == message &&
        dateErrorVisible == old(dateErrorVisible) && dateErrorText == old(dateErrorText)
      ensures field == DateField ==>
        dateErrorVisible && dateErrorText == message &&
        nameErrorVisible == old(nameErrorVisible) && nameErrorText == old(nameErrorText)
      ensures resultVisible == old(resultVisible) && resultContent == old(resultContent)
    {
      match field
      case NameField =>
        nameErrorText := message;
        nameErrorVisible := true;
      case DateField =>
        dateErrorText := message;
        dateErrorVisible := true;
    }

    /** `exibirResultado`: fill the result block with the rendered report and display it. */
    method ShowReport(report: Report)
      requires Valid()
      modifies this
      ensures Valid()
      ensures resultVisible && resultContent == Some(Render(report))
      ensures nameErrorVisible == old(nameErrorVisible) && nameErrorText == old(nameErrorText)
      ensures dateErrorVisible == old(dateErrorVisible) && dateErrorText == old(dateErrorText)
    {
      resultContent := Some(Render(report));
      resultVisible := true;
    }
  }
}
