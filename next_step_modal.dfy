/** The Supabase next-step modal. Its date input holds either "" or one
    date; the model keeps that value as `Option<Day>` with `None` for "".
    `submitted` records the `onSubmit` calls. */
module NextStepDialog {
  import opened Base
  import opened SupabaseTypes

  class NextStepModal {
    var nextStep: string
    var nextStepDueDate: Option<Day>
    var submitted: seq<(string, Option<Day>)>

    /** The fields start from the application's next step (`|| ""`) and its
        due date (`|| ""`). */
    constructor (application: ApplicationWithVacancy)
      ensures nextStep == application.nextStep && nextStepDueDate == application.nextStepDueDate
      ensures submitted == []
    {
      nextStep := application.nextStep;
      nextStepDueDate := application.nextStepDueDate;
      submitted := [];
    }

    method SetNextStep(text: string)
      modifies this`nextStep
      ensures nextStep == text
    {
      nextStep := text;
    }

    method SetDueDate(date: Option<Day>)
      modifies this`nextStepDueDate
      ensures nextStepDueDate == date
    {
      nextStepDueDate := date;
    }

    /** `handleSubmit`: a blank next step calls nothing; otherwise the next
        step goes out untrimmed with the date, "" as null. */
    method HandleSubmit()
      modifies this`submitted
      ensures IsBlank(nextStep) ==> submitted == old(submitted)
      ensures !IsBlank(nextStep) ==> submitted == old(submitted) + [(nextStep, nextStepDueDate)]
    {
      if IsBlank(nextStep) {
        return;
      }
      submitted := submitted + [(nextStep, nextStepDueDate)];
    }
  }

  /** Every next step the modal hands on has a non-space character. */
  lemma SubmittedNotBlank(nextStep: string)
    requires !IsBlank(nextStep)
    ensures exists i :: 0 <= i < |nextStep| && !IsSpace(nextStep[i])
  {
    BlankIffAllSpace(nextStep);
  }
}
