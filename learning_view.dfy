/**
 * The single-question learning page: one question of the bank at a time, a
 * Check press that records a wrong attempt, Next to move on and Done to leave.
 */
module LearningView {
  import opened Common
  import opened QuestionBank

  const DefaultHint: string := "Re-read the prompt and eliminate obviously wrong options."

  /** `submitted && choice === q.correct` */
  predicate IsCorrect(submitted: bool, choice: Option<int>, q: BankQuestion)
  {
    submitted && choice == Some(q.correct)
  }

  /** The primary button: disabled only before a submission with nothing picked. */
  predicate PrimaryDisabled(choice: Option<int>, submitted: bool)
  {
    choice.None? && !submitted
  }

  datatype PrimaryLabel = Check | Next | Done

  /** The primary button's caption. */
  function Label(submitted: bool, idx: nat, count: nat): (l: PrimaryLabel)
    ensures l == Check <==> !submitted
    ensures l == Next <==> submitted && idx + 1 < count
    ensures l == Done <==> submitted && idx + 1 >= count
  {
    if !submitted then Check else if idx < count - 1 then Next else Done
  }

  /** The primary button is disabled only while it reads Check; Next and Done are always enabled. */
  lemma DisabledOnlyOnCheck(choice: Option<int>, submitted: bool, idx: nat, count: nat)
    ensures PrimaryDisabled(choice, submitted) ==> Label(submitted, idx, count) == Check
    ensures Label(submitted, idx, count) == Check ==> (PrimaryDisabled(choice, submitted) <==> choice.None?)
  {
  }

  /** `Math.max(0, Math.min(attempts - 1, (hints.length || 1) - 1))` */
  function HintIndex(attempts: nat, hintCount: nat): (r: int)
    ensures 0 <= r
    ensures hintCount > 0 ==> r < hintCount
    ensures r <= attempts
    ensures attempts <= 1 ==> r == 0
  {
    var last := (if hintCount != 0 then hintCount else 1) - 1;
    MaxInt(0, MinInt(attempts - 1, last))
  }

  /** The hint shown after a wrong check: the indexed hint, or a default when it is missing or empty. */
  function HintText(q: BankQuestion, attempts: nat): (h: string)
    ensures h != ""
    ensures |q.hints| > 0 && q.hints[HintIndex(attempts, |q.hints|)] != "" ==>
      h == q.hints[HintIndex(attempts, |q.hints|)]
  {
    var i := HintIndex(attempts, |q.hints|);
    if i < |q.hints| && q.hints[i] != "" then q.hints[i] else DefaultHint
  }

  /** The result box under the choices. */
  datatype Verdict = NoVerdict | NotQuite(hint: string) | Correct

  /**
   * After a submission: "Correct!" exactly when the current pick is the right
   * one, otherwise "Not quite." with the hint for the recorded attempts.
   */
  function VerdictFor(q: BankQuestion, submitted: bool, choice: Option<int>, attempts: nat): (v: Verdict)
    ensures v == NoVerdict <==> !submitted
    ensures v == Correct <==> IsCorrect(submitted, choice, q)
    ensures v.NotQuite? ==> v.hint == HintText(q, attempts) && v.hint != ""
  {
    if !submitted then NoVerdict
    else if IsCorrect(submitted, choice, q) then Correct
    else NotQuite(HintText(q, attempts))
  }

  datatype Page = LoadingQuestions | NoQuestions | Asking(idx: nat)

  class LearningPage {
    var bank: seq<BankQuestion>
    var loading: bool
    var idx: nat
    var choice: Option<int>
    var submitted: bool
    var attempts: nat

    /**
     * At most one wrong attempt is ever recorded per question, and only once
     * it is submitted; the index stays inside a loaded bank.
     */
    ghost predicate Valid()
      reads this
    {
      attempts <= 1 && (attempts == 1 ==> submitted) &&
      (|bank| > 0 ==> idx < |bank|) &&
      (|bank| == 0 ==> idx == 0)
    }

    function Render(): (p: Page)
      reads this
      ensures p == LoadingQuestions <==> loading
      ensures p == NoQuestions <==> !loading && |bank| == 0
      ensures p.Asking? ==> p.idx == idx
    {
      if loading then LoadingQuestions
      else if |bank| == 0 then NoQuestions
      else Asking(idx)
    }

    /** The verdict shown for the current question. */
    function Shown(): Verdict
      requires Valid() && Render().Asking?
      reads this
    {
      VerdictFor(bank[idx], submitted, choice, attempts)
    }

    constructor()
      ensures Valid()
      ensures loading && bank == [] && idx == 0
      ensures choice.None? && !submitted && attempts == 0
    {
      bank, loading, idx := [], true, 0;
      choice, submitted, attempts := None, false, 0;
    }

    /** The bank arrives; a failed load or a null result leaves it empty. */
    method Loaded(questions: Option<seq<BankQuestion>>)
      requires Valid() && loading && idx == 0
      modifies this
      ensures Valid()
      ensures !loading
      ensures bank == (if questions.Some? then questions.value else [])
      ensures idx == 0 && choice == old(choice) && submitted == old(submitted) && attempts == old(attempts)
    {
      bank := if questions.Some? then questions.value else [];
      loading := false;
    }

    /** Picking a radio button; it stays enabled after a submission. */
    method Choose(i: int)
      requires Valid() && Render().Asking? && 0 <= i < |bank[idx].choices|
      modifies this
      ensures Valid()
      ensures choice == Some(i)
      ensures bank == old(bank) && idx == old(idx) && submitted == old(submitted) && attempts == old(attempts)
    {
      choice := Some(i);
    }

    /**
     * The primary button. Check records a wrong pick as one attempt and
     * submits; Next moves to the following question with its state cleared;
     * Done on the last question asks to leave and changes nothing.
     */
    method Press() returns (back: bool)
      requires Valid() && Render().Asking? && !PrimaryDisabled(choice, submitted)
      modifies this
      ensures Valid()
      ensures bank == old(bank) && loading == old(loading)
      ensures !old(submitted) ==>
        !back && submitted && idx == old(idx) && choice == old(choice) &&
        attempts == old(attempts) + (if IsCorrect(submitted, choice, bank[idx]) then 0 else 1) &&
        Shown() == (if choice == Some(bank[idx].correct) then Correct else NotQuite(HintText(bank[idx], attempts)))
      ensures old(submitted) && old(idx) + 1 < |bank| ==>
        !back && idx == old(idx) + 1 && choice.None? && !submitted && attempts == 0
      ensures old(submitted) && old(idx) + 1 >= |bank| ==>
        back && idx == old(idx) && choice == old(choice) && submitted && attempts == old(attempts)
    {
      back := false;
      if !submitted {
        if choice.Some? && choice != Some(bank[idx].correct) {
          attempts := attempts + 1;
        }
        submitted := true;
      } else if idx < |bank| - 1 {
        idx := MinInt(idx + 1, |bank| - 1);
        submitted, choice, attempts := false, None, 0;
      } else {
        back := true;
      }
    }

    /**
     * Restart: back to the first question. The reset of the answer state
     * hangs on a change of `idx`, so on the first question nothing changes.
     */
    method Restart()
      requires Valid()
      modifies this
      ensures Valid()
      ensures idx == 0 && bank == old(bank) && loading == old(loading)
      ensures old(idx) != 0 ==> choice.None? && !submitted && attempts == 0
      ensures old(idx) == 0 ==> choice == old(choice) && submitted == old(submitted) && attempts == old(attempts)
    {
      if idx != 0 {
        idx := 0;
        choice, submitted, attempts := None, false, 0;
      }
    }

    /** Whatever happened before, the hint shown after a wrong check is the first one. */
    lemma HintIsFirst()
      requires Valid() && Render().Asking?
      ensures HintIndex(attempts, |bank[idx].hints|) == 0
    {
    }
  }
}
