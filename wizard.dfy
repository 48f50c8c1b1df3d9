/**
 * The biography wizard (components/biography-form.tsx): a component whose state fields
 * `step`, `started`, `isEditing`, `completed` and `savedAnswers` its handlers update.
 * Each handler is one atomic transition; rendering is reduced to which view is shown.
 */
module Wizard {
  import opened Biography

  /** What the component renders: the collapsed "Refazer" button, the intro, or one question. */
  datatype View = Collapsed | Intro | Asking(step: nat, backOffered: bool, lastQuestion: bool)

  /** The effect of a submit: schema rejected it, the wizard advanced, or the biography was emitted. */
  datatype SubmitOutcome = Rejected | Advanced | Completed(biography: string, answers: Answers)

  class BiographyForm {
    const hasExistingBiography: bool
    var step: nat
    var started: bool
    var isEditing: bool
    var completed: bool
    var savedAnswers: map<Field, string>

    /**
     * The wizard's invariant: the step indexes a question, every question before it has a
     * saved answer, and every saved answer passed its field's rule when it was stored.
     */
    ghost predicate Valid()
      reads this
    {
      && step < QuestionCount
      && AnsweredBefore(savedAnswers, step)
      && AllSavedValid(savedAnswers)
    }

    constructor (hasExistingBiography: bool)
      ensures Valid()
      ensures this.hasExistingBiography == hasExistingBiography
      ensures step == 0 && !started && !isEditing && completed == hasExistingBiography
      ensures savedAnswers == map[]
    {
      this.hasExistingBiography := hasExistingBiography;
      step := 0;
      started := false;
      isEditing := false;
      completed := hasExistingBiography;
      savedAnswers := map[];
    }

    function CurrentField(): (f: Field)
      reads this
      requires Valid()
      ensures QuestionIndex(f) == step
    {
      Order[step]
    }

    /** `isLastQuestion`: the current question is the final one. */
    predicate IsLastQuestion()
      reads this
    {
      step == QuestionCount - 1
    }

    /** The view rendered: collapsed once completed (or already stored) unless editing, then intro until started. */
    function CurrentView(): (v: View)
      reads this
      ensures v == Collapsed <==> (completed || hasExistingBiography) && !isEditing
      ensures v == Intro <==> !((completed || hasExistingBiography) && !isEditing) && !started
      ensures v.Asking? <==> !((completed || hasExistingBiography) && !isEditing) && started
      ensures v.Asking? ==> started && v.step == step
      ensures v.Asking? ==> (v.backOffered <==> step > 0) && (v.lastQuestion <==> step == QuestionCount - 1)
    {
      if (completed || hasExistingBiography) && !isEditing then Collapsed
      else if !started then Intro
      else Asking(step, step > 0, step == QuestionCount - 1)
    }

    /** "Começar agora". */
    method Start()
      requires Valid()
      modifies this
      ensures Valid()
      ensures started
      ensures step == old(step) && isEditing == old(isEditing) && completed == old(completed)
      ensures savedAnswers == old(savedAnswers)
      ensures !((completed || hasExistingBiography) && !isEditing) ==>
        CurrentView() == Asking(step, step > 0, step == QuestionCount - 1)
    {
      started := true;
    }

    /**
     * Submitting `value` for the current question. Only the current field is validated; a
     * rejected value changes nothing. An accepted value is saved under the current field; on
     * any question but the last the wizard moves to the next one, and on the last it emits the
     * biography built from all thirteen answers and resets to the collapsed view.
     */
    method Submit(value: string) returns (outcome: SubmitOutcome)
      requires Valid()
      modifies this
      ensures Valid()
      ensures outcome == Rejected <==> !Validate(old(CurrentField()), value)
      ensures outcome == Advanced <==> Validate(old(CurrentField()), value) && old(step) < QuestionCount - 1
      ensures outcome.Rejected? ==>
        && step == old(step) && savedAnswers == old(savedAnswers)
        && started == old(started) && isEditing == old(isEditing) && completed == old(completed)
      ensures outcome.Advanced? ==>
        && step == old(step) + 1
        && savedAnswers == old(savedAnswers)[old(CurrentField()) := value]
        && started == old(started) && isEditing == old(isEditing) && completed == old(completed)
      ensures outcome.Completed? ==>
        && old(step) == QuestionCount - 1
        && Complete(old(savedAnswers)[AdditionalInfo := value])
        && outcome.answers == FromSaved(old(savedAnswers)[AdditionalInfo := value])
        && outcome.biography == FormatBiography(outcome.answers)
        && step == 0 && savedAnswers == map[]
        && completed && !isEditing && !started
      ensures outcome.Completed? ==> AllValid(outcome.answers) && CurrentView() == Collapsed
    {
      var field := Order[step];
      if !Validate(field, value) {
        return Rejected;
      }
      var updated := savedAnswers[field := value];
      StoreKeepsInvariant(savedAnswers, step, value);
      if !IsLastQuestion() {
        savedAnswers := updated;
        step := step + 1;
        outcome := Advanced;
      } else {
        assert field == AdditionalInfo;
        AnsweredThroughLast(savedAnswers, value);
        SavedAnswersValid(updated);
        var answers := FromSaved(updated);
        var biography := Finish(answers);
        outcome := Completed(biography, answers);
      }
    }

    /** The last submit's reset: emits the document and returns the component to its collapsed view. */
    method Finish(answers: Answers) returns (biography: string)
      modifies this
      ensures Valid()
      ensures biography == FormatBiography(answers)
      ensures step == 0 && savedAnswers == map[]
      ensures completed && !isEditing && !started
    {
      biography := FormatBiography(answers);
      started := false;
      step := 0;
      completed := true;
      isEditing := false;
      savedAnswers := map[];
    }

    /** "Voltar": offered only past the first question; goes back one question and keeps the answers. */
    method Back()
      requires Valid()
      requires step > 0
      modifies this
      ensures Valid()
      ensures step == old(step) - 1 && savedAnswers == old(savedAnswers)
      ensures started == old(started) && isEditing == old(isEditing) && completed == old(completed)
    {
      step := step - 1;
    }

    /** "Refazer": reopens the wizard at the first question with no answers. */
    method Redo()
      requires Valid()
      modifies this
      ensures Valid()
      ensures isEditing && started && step == 0 && savedAnswers == map[]
      ensures completed == old(completed)
      ensures CurrentView() == Asking(0, false, false)
    {
      isEditing := true;
      started := true;
      step := 0;
      savedAnswers := map[];
    }
  }

  /** Every question before position `step` has a saved answer. */
  ghost predicate AnsweredBefore(saved: map<Field, string>, step: nat) {
    forall i :: 0 <= i < step && i < QuestionCount ==> Order[i] in saved
  }

  /** Every saved answer meets its field's rule. */
  ghost predicate AllSavedValid(saved: map<Field, string>) {
    forall f :: f in saved ==> Validate(f, saved[f])
  }

  /** Saving an accepted answer to the current question extends the answered prefix by one. */
  lemma StoreKeepsInvariant(saved: map<Field, string>, step: nat, value: string)
    requires step < QuestionCount
    requires AnsweredBefore(saved, step) && AllSavedValid(saved)
    requires Validate(Order[step], value)
    ensures AnsweredBefore(saved[Order[step] := value], step + 1)
    ensures AllSavedValid(saved[Order[step] := value])
  {
  }

  /** Once every question before the last has an answer, answering the last completes the set. */
  lemma AnsweredThroughLast(saved: map<Field, string>, value: string)
    requires AnsweredBefore(saved, QuestionCount - 1)
    ensures Complete(saved[AdditionalInfo := value])
  {
    var updated := saved[AdditionalInfo := value];
    forall f: Field ensures f in updated {
      var i := QuestionIndex(f);
      assert i < QuestionCount - 1 || f == AdditionalInfo;
    }
  }

  lemma SavedAnswersValid(saved: map<Field, string>)
    requires Complete(saved)
    requires AllSavedValid(saved)
    ensures AllValid(FromSaved(saved))
  {
    var a := FromSaved(saved);
    forall f: Field ensures Validate(f, Get(a, f)) {
      assert Get(a, f) == saved[f];
    }
  }
}
