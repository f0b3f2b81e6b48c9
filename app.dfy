/** The predictor screen: the form, the estimate it shows, and the advice
    panel that asks an external text-generation service for coaching. Each
    field of `SalaryPredictor` is one state cell of the screen. */
module App {
  import opened Coefficients
  import opened Scoring
  import opened Prompts
  import Skills

  datatype Option<T> = None | Some(value: T)

  /** How the awaited call to the text-generation service ended: a parsed
      reply, whose text is absent when the reply lacks a candidate, or an
      exception (network failure, unreadable body). */
  datatype Outcome = Reply(text: Option<string>) | ConnectionError

  const CouldNotGenerate: string := "I couldn't generate advice at this moment. Please try again."
  const ConnectionTrouble: string := "Sorry, I'm having trouble connecting to the career coach right now."

  /** The advice text a finished request leaves on screen: the reply's text
      when there is a non-empty one, a fixed apology when the reply had no
      text, and a fixed connection message when the call failed. */
  function AdviceText(outcome: Outcome): string
  {
    match outcome
    case Reply(Some(text)) => if text != "" then text else CouldNotGenerate
    case Reply(None) => CouldNotGenerate
    case ConnectionError => ConnectionTrouble
  }

  /** A finished request never leaves the panel empty, shows a reply's text
      only when that text is non-empty, and shows the connection message
      after a failed call (or a reply whose text is that very message). */
  lemma AdviceTextCases(outcome: Outcome)
    ensures AdviceText(outcome) != ""
    ensures outcome.Reply? && outcome.text.Some? && outcome.text.value != ""
            ==> AdviceText(outcome) == outcome.text.value
    ensures outcome == Reply(None) || outcome == Reply(Some(""))
            ==> AdviceText(outcome) == CouldNotGenerate
    ensures outcome.ConnectionError? ==> AdviceText(outcome) == ConnectionTrouble
    ensures outcome.Reply? ==> (AdviceText(outcome) == ConnectionTrouble <==> outcome.text == Some(ConnectionTrouble))
  {
  }

  class SalaryPredictor {
    var formData: Selection
    var prediction: int
    var breakdown: seq<Line>
    var aiAdvice: string
    var aiLoading: bool
    var adviceType: Option<AdviceKind>

    /** The shown rows add up to the shown estimate, no advice text is on
        screen while a request is loading, and no skill is listed twice (the
        list starts empty, and only chip clicks and Reset, which empties it,
        change it). */
    ghost predicate Valid()
      reads this
    {
      && SumAmounts(breakdown) == prediction
      && (aiLoading ==> aiAdvice == "")
      && Skills.NoDuplicates(formData.skills)
    }

    /** The estimate and rows shown are those of the current form. */
    ghost predicate Synced()
      reads this
    {
      prediction == Total(SalaryTable, formData) && breakdown == Breakdown(SalaryTable, formData)
    }

    /** The screen as first rendered: the default form, a zero estimate with
        no rows until the first recalculation, and an idle advice panel. */
    constructor ()
      ensures Valid()
      ensures formData == DefaultSelection && prediction == 0 && breakdown == []
      ensures aiAdvice == "" && !aiLoading && adviceType == None
    {
      formData := DefaultSelection;
      prediction := 0;
      breakdown := [];
      aiAdvice := "";
      aiLoading := false;
      adviceType := None;
    }

    /** A click on a skill chip. */
    method ToggleSkill(skill: string)
      requires Valid()
      modifies this`formData
      ensures Valid()
      ensures formData == old(formData).(skills := Skills.Toggle(old(formData.skills), skill))
    {
      Skills.ToggleNoDuplicates(formData.skills, skill);
      formData := formData.(skills := Skills.Toggle(formData.skills, skill));
    }

    /** A choice in the seniority drop-down. */
    method SelectSeniority(choice: string)
      requires Valid()
      modifies this`formData
      ensures Valid()
      ensures formData == old(formData).(seniority := choice)
    {
      formData := formData.(seniority := choice);
    }

    /** A choice in the location drop-down. */
    method SelectLocation(choice: string)
      requires Valid()
      modifies this`formData
      ensures Valid()
      ensures formData == old(formData).(location := choice)
    {
      formData := formData.(location := choice);
    }

    /** A choice in the industry drop-down. */
    method SelectIndustry(choice: string)
      requires Valid()
      modifies this`formData
      ensures Valid()
      ensures formData == old(formData).(industry := choice)
    {
      formData := formData.(industry := choice);
    }

    /** The effect that runs after every change of the form: compute the
        estimate and its rows and store both. */
    method Recalculate()
      requires Valid()
      modifies this`prediction, this`breakdown
      ensures Valid() && Synced()
    {
      var total, details := CalculateSalary(SalaryTable, formData);
      SalaryTableReconciles(formData);
      prediction, breakdown := total, details;
    }

    /** "Reset": the default form and an idle advice panel. A request still
        loading keeps loading. */
    method Reset()
      requires Valid()
      modifies this`formData, this`aiAdvice, this`adviceType
      ensures Valid()
      ensures formData == DefaultSelection && aiAdvice == "" && adviceType == None
    {
      formData := DefaultSelection;
      aiAdvice := "";
      adviceType := None;
    }

    /** The synchronous part of asking for advice: mark the panel as loading
        for `kind`, clear the old advice, and build the prompt to send from
        the form and estimate currently shown. */
    method StartAdvice(kind: AdviceKind, format: int -> string) returns (prompt: string)
      requires Valid()
      modifies this`aiLoading, this`adviceType, this`aiAdvice
      ensures Valid()
      ensures aiLoading && adviceType == Some(kind) && aiAdvice == ""
      ensures prompt == Prompt(kind, formData, prediction, format)
    {
      aiLoading := true;
      adviceType := Some(kind);
      aiAdvice := "";
      prompt := Prompt(kind, formData, prediction, format);
    }

    /** The part after the awaited call returns. It stores its advice and
        stops the loading state whatever happened in between: it does not
        check whether a newer request was started since. */
    method CompleteAdvice(outcome: Outcome)
      requires Valid()
      modifies this`aiLoading, this`aiAdvice
      ensures Valid()
      ensures aiAdvice == AdviceText(outcome) && !aiLoading
    {
      aiAdvice := AdviceText(outcome);
      aiLoading := false;
    }

    /** "Back": return to the choice of advice, touching nothing else. */
    method Back()
      requires Valid()
      modifies this`adviceType
      ensures Valid()
      ensures adviceType == None
    {
      adviceType := None;
    }
  }

  /** A negotiation request is started; the user goes "Back" (the advice
      buttons only show while no advice kind is set) and starts a roadmap
      request before the first one returns. When the first reply lands it is
      shown in the roadmap panel and loading stops while the roadmap request
      is still outstanding. */
  method LateReplyOverwrites(first: Outcome, format: int -> string)
    returns (shownKind: Option<AdviceKind>, shownAdvice: string, loading: bool)
    ensures shownKind == Some(Roadmap)
    ensures shownAdvice == AdviceText(first) && shownAdvice != ""
    ensures !loading
  {
    var app := new SalaryPredictor();
    var _ := app.StartAdvice(Negotiation, format);
    app.Back();
    var _ := app.StartAdvice(Roadmap, format);
    app.CompleteAdvice(first);
    AdviceTextCases(first);
    shownKind, shownAdvice, loading := app.adviceType, app.aiAdvice, app.aiLoading;
  }

  /** "Reset" while a request is loading leaves it loading; its reply, when
      it lands, fills the advice text although the panel was reset. */
  method ReplyAfterReset(outcome: Outcome, format: int -> string)
    returns (loadingAfterReset: bool, shownKind: Option<AdviceKind>, shownAdvice: string)
    ensures loadingAfterReset
    ensures shownKind == None && shownAdvice == AdviceText(outcome) && shownAdvice != ""
  {
    var app := new SalaryPredictor();
    var _ := app.StartAdvice(Negotiation, format);
    app.Reset();
    loadingAfterReset := app.aiLoading;
    app.CompleteAdvice(outcome);
    AdviceTextCases(outcome);
    shownKind, shownAdvice := app.adviceType, app.aiAdvice;
  }

  /** The first screen after its first recalculation: the default form is
      estimated at 150000 over four rows, and the negotiation prompt built
      from it falls back to the generic skills phrase. */
  method FirstScreen(format: int -> string) returns (estimate: int, rows: nat, prompt: string)
    ensures estimate == 150000 && rows == 4
    ensures Text.Contains(prompt, NegotiationFallback)
    ensures Text.Contains(prompt, format(150000))
  {
    var app := new SalaryPredictor();
    app.Recalculate();
    DefaultSelectionExample();
    prompt := app.StartAdvice(Negotiation, format);
    PromptMentionsSkills(Negotiation, app.formData, app.prediction, format);
    NegotiationPromptContents(app.formData, app.prediction, format);
    estimate, rows := app.prediction, |app.breakdown|;
  }

  /** On the first screen, a click on a skill chip followed by the
      recalculation effect moves the shown estimate from 150000 by exactly
      that skill's amount, and the rows still add up to it. */
  method ClickMovesEstimate(skill: string) returns (before: int, after: int, rowsSum: int)
    ensures before == 150000
    ensures after == before + Lookup(SalaryTable.skills, skill)
    ensures rowsSum == after
  {
    var app := new SalaryPredictor();
    app.Recalculate();
    DefaultSelectionExample();
    before := app.prediction;
    ghost var sel := app.formData;
    app.ToggleSkill(skill);
    app.Recalculate();
    ToggleMovesTotal(SalaryTable, sel, skill);
    after, rowsSum := app.prediction, SumAmounts(app.breakdown);
  }

  /** On any screen whose estimate is up to date, a click on a skill chip
      followed by the recalculation effect moves the estimate by exactly that
      skill's amount: down when it was selected, up when it was not. */
  method ClickOnAnyScreen(app: SalaryPredictor, skill: string)
    requires app.Valid() && app.Synced()
    modifies app`formData, app`prediction, app`breakdown
    ensures app.Valid() && app.Synced()
    ensures app.formData == old(app.formData).(skills := Skills.Toggle(old(app.formData.skills), skill))
    ensures app.prediction == old(app.prediction)
              + (if skill in old(app.formData.skills) then -Lookup(SalaryTable.skills, skill)
                 else Lookup(SalaryTable.skills, skill))
  {
    ghost var sel := app.formData;
    app.ToggleSkill(skill);
    app.Recalculate();
    ToggleMovesTotal(SalaryTable, sel, skill);
  }
}
