/**
 * The submit handler of `inicializarApp`: trim the name, validate
 * (`validarDados`), and on success compute (`verificarIdade`) and display
 * the result (`exibirResultado`). "Now" is a parameter.
 */
module Controller {
  import opened Wrappers
  import opened Calendar
  import opened AgeCalc
  import opened Eligibility
  import opened Validation
  import opened Presenter

  const NameMessage := "Por favor, digite um nome válido com pelo menos 2 caracteres."

  function DateMessage(issue: DateIssue): string {
    match issue
    case Missing => "Por favor, selecione uma data de nascimento."
    case InFuture => "A data de nascimento não pode ser no futuro."
    case Implausible => "Por favor, verifique a data de nascimento."
  }

  /**
   * `validarDados`: hide every slot, then run the name check and the date
   * checks, showing one error per failing check and clearing the flag.
   */
  method Validate(page: Page, name: string, date: Option<Date>, now: Date) returns (valid: bool)
    requires page.Valid()
    modifies page
    ensures page.Valid()
    ensures valid == InputValid(name, date, now)
    ensures page.nameErrorVisible == !NameValid(name)
    ensures page.nameErrorText == if NameValid(name) then old(page.nameErrorText) else NameMessage
    ensures page.dateErrorVisible == (DateIssues(date, now) != [])
    ensures page.dateErrorText ==
            if DateIssues(date, now) == [] then old(page.dateErrorText) else DateMessage(DateIssues(date, now)[0])
    ensures !page.resultVisible && page.resultContent == old(page.resultContent)
  {
    valid := true;
    page.HideAll();

    if name == [] || Utf16Length(name) < 2 {
      page.ShowError(NameField, NameMessage);
      valid := false;
    }

    if date.None? {
      page.ShowError(DateField, DateMessage(Missing));
      valid := false;
    } else {
      var birth := date.value;
      if Before(now, birth) {
        page.ShowError(DateField, DateMessage(InFuture));
        valid := false;
      }
      if now.year - birth.year > MaxPlausibleYears {
        page.ShowError(DateField, DateMessage(Implausible));
        valid := false;
      }
    }
  }

  /** The values `verificarIdade` computes for an accepted submission. */
  function ReportOf(name: string, birth: Date, now: Date): Report {
    var current := Age(birth, now);
    var atElection := Age(birth, ElectionDate);
    Report(name, current, current >= AdultAge, atElection, Classify(atElection).value)
  }

  /**
   * `verificarIdade` without the display: the current age, the majority
   * flag, the age on 1 October 2026 and the category for that age.
   */
  method VerifyAge(name: string, birth: Date, now: Date) returns (report: Report)
    ensures report == ReportOf(name, birth, now)
  {
    var currentAge := AgeAtDate(birth, now);
    var isAdult := currentAge >= AdultAge;
    var ageAtElection := AgeAtDate(birth, ElectionDate);
    var situation := Classify(ageAtElection);
    report := Report(name, currentAge, isAdult, ageAtElection, situation.value);
  }

  /** Of age exactly when the 18th birthday has come round by now. */
  lemma AdultIffEighteenthBirthday(name: string, birth: Date, now: Date)
    ensures ReportOf(name, birth, now).isAdult <==> OnOrBefore(Anniversary(birth, 18), now)
  {
    BirthdayPassedIff(birth, now, 18);
  }

  /**
   * The category in terms of birthdays reached by the election day: below
   * voting age when the 16th birthday falls after it; voting compulsory when
   * the 18th has come round by then and the 70th has not.
   */
  lemma CategoryByBirthdays(name: string, birth: Date, now: Date)
    ensures var c := ReportOf(name, birth, now).category;
      (c == BelowVotingAge <==> Before(ElectionDate, Anniversary(birth, 16))) &&
      (c == MandatoryVoting <==>
         OnOrBefore(Anniversary(birth, 18), ElectionDate) && Before(ElectionDate, Anniversary(birth, 70))) &&
      (c == OptionalVoting <==>
         (OnOrBefore(Anniversary(birth, 16), ElectionDate) && Before(ElectionDate, Anniversary(birth, 18))) ||
         OnOrBefore(Anniversary(birth, 70), ElectionDate))
  {
    ClassifyTable(Age(birth, ElectionDate));
    BirthdayPassedIff(birth, ElectionDate, 16);
    BirthdayPassedIff(birth, ElectionDate, 18);
    BirthdayPassedIff(birth, ElectionDate, 70);
  }

  /**
   * For an accepted birth date the current age lies in 0 .. 150, and when
   * now precedes the election the age then is at least the current age.
   */
  lemma AcceptedReportRange(name: string, birth: Date, now: Date)
    requires DateIssues(Some(birth), now) == []
    ensures 0 <= ReportOf(name, birth, now).currentAge <= MaxPlausibleYears
    ensures OnOrBefore(now, ElectionDate) ==>
            ReportOf(name, birth, now).ageAtElection >= ReportOf(name, birth, now).currentAge
  {
    ValidDateAgeRange(birth, now);
    if OnOrBefore(now, ElectionDate) {
      AgeMonotone(birth, now, ElectionDate);
    }
  }

  /**
   * What a submission leaves on display: the result alone when every check
   * passes; otherwise the error message of each failing check.
   */
  function ExpectedView(rawName: string, date: Option<Date>, now: Date): (v: PageView)
    ensures v.result.Some? <==> InputValid(Trim(rawName), date, now)
    ensures v.result.Some? ==> v.nameError.None? && v.dateError.None?
    ensures v.result.None? ==> v.nameError.Some? || v.dateError.Some?
    ensures v.nameError.Some? <==> !NameValid(Trim(rawName))
    ensures v.dateError.Some? <==> DateIssues(date, now) != []
    ensures v.result.Some? ==> v.result == Some(Render(ReportOf(Trim(rawName), date.value, now)))
    ensures v.nameError.Some? ==> v.nameError == Some(NameMessage)
    ensures v.dateError.Some? ==> v.dateError == Some(DateMessage(DateIssues(date, now)[0]))
  {
    var name := Trim(rawName);
    var issues := DateIssues(date, now);
    if InputValid(name, date, now) then
      PageView(None, None, Some(Render(ReportOf(name, date.value, now))))
    else
      PageView(
        if NameValid(name) then None else Some(NameMessage),
        if issues == [] then None else Some(DateMessage(issues[0])),
        None)
  }

  /**
   * The submit handler. The date field is empty (`None`) or holds a date
   * the browser's picker produced.
   */
  method Submit(page: Page, rawName: string, date: Option<Date>, now: Date)
    requires page.Valid()
    requires date.Some? ==> IsCalendarDate(date.value)
    modifies page
    ensures page.Valid()
    ensures page.View() == ExpectedView(rawName, date, now)
  {
    var name := Trim(rawName);
    var valid := Validate(page, name, date, now);
    if valid {
      var report := VerifyAge(name, date.value, now);
      page.ShowReport(report);
    }
  }

  /** Submitting the same inputs twice leaves the same display both times. */
  method ResubmitShowsSame(page: Page, rawName: string, date: Option<Date>, now: Date)
    returns (first: PageView, second: PageView)
    requires page.Valid()
    requires date.Some? ==> IsCalendarDate(date.value)
    modifies page
    ensures first == second == page.View()
  {
    Submit(page, rawName, date, now);
    first := page.View();
    Submit(page, rawName, date, now);
    second := page.View();
  }
}
