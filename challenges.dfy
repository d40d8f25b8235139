/**
 * The per-challenge sub-machines of a learning session: a quiz, a branching
 * scenario and a budget calculator. Each reports one XP award when the user
 * presses Continue at its end. The challenge data arrive as generated JSON;
 * here they are given as typed values, where `None` in an array field stands
 * for "not an array".
 */
module Challenges {
  import opened Common

  datatype Question = Question(text: string, options: seq<string>, correctAnswer: string)

  datatype Outcome = Outcome(text: string, xp: int)

  /** The follow-up question attached to one scenario choice. */
  datatype Probe = Probe(question: string, options: seq<string>, correctAnswer: string)

  /**
   * One scenario branch as the component reads it: `challenge` is `None` when
   * the branch has no follow-up question object, and `onCorrect` /
   * `onIncorrect` are `None` when `outcomes` (or that one outcome) is missing.
   * A branch in the shape the generation prompt asks for, `{text, outcome, xp}`
   * (frontend/src/App.jsx:65), has none of the three.
   */
  datatype Choice = Choice(
    id: string, text: string,
    challenge: Option<Probe>, onCorrect: Option<Outcome>, onIncorrect: Option<Outcome>)

  datatype Input = Input(id: string, caption: string, value: real)

  datatype Challenge =
    | Quiz(questions: Option<seq<Question>>)
    | Scenario(title: string, description: string, choices: Option<seq<Choice>>)
    | Calculator(title: string, description: string, inputs: Option<seq<Input>>)
    | Unknown(simulationType: string)

  /** What the session shows for its current challenge. */
  datatype ChallengeView =
    | Live          // an interactive sub-machine that can report completion
    | Placeholder   // "Loading quiz..." / "Loading scenario..." / "Loading calculator..."
    | UnknownType   // "Unknown challenge type."
    | RenderFault   // the render throws

  /**
   * The calculator's view as the source evaluates it: the initial values are
   * computed with `data.inputs.forEach` before the `Array.isArray` guard, so a
   * non-array `inputs` throws instead of reaching the placeholder.
   */
  function CalculatorViewAsWritten(inputs: Option<seq<Input>>): (v: ChallengeView)
    ensures v == RenderFault <==> inputs.None?
    ensures v != Placeholder
  {
    if inputs.None? then RenderFault else Live
  }

  /** The placeholder that the guard is written for is never shown. */
  lemma CalculatorPlaceholderUnreachable()
    ensures CalculatorViewAsWritten(None) == RenderFault
    ensures forall inputs :: CalculatorViewAsWritten(inputs) != Placeholder
  {
  }

  /** The calculator's view with the guard evaluated first, as evidently intended. */
  function CalculatorView(inputs: Option<seq<Input>>): (v: ChallengeView)
    ensures v == Placeholder <==> inputs.None?
    ensures v != RenderFault
  {
    if inputs.None? then Placeholder else Live
  }

  /**
   * The view of one challenge as the source renders it: a quiz needs a
   * non-empty question array, a scenario a choice array, a calculator an input
   * array (and throws without one); any other `simulationType` shows a notice.
   */
  function View(c: Challenge): (v: ChallengeView)
    ensures v == RenderFault <==> c.Calculator? && c.inputs.None?
    ensures v == Live <==>
      (c.Quiz? && c.questions.Some? && |c.questions.value| > 0) ||
      (c.Scenario? && c.choices.Some?) ||
      (c.Calculator? && c.inputs.Some?)
    ensures v == UnknownType <==> c.Unknown?
    ensures CanReport(c) ==> v == Live
  {
    match c
    case Quiz(qs) => if qs.Some? && |qs.value| > 0 then Live else Placeholder
    case Scenario(_, _, cs) => if cs.Some? then Live else Placeholder
    case Calculator(_, _, ins) => CalculatorViewAsWritten(ins)
    case Unknown(_) => UnknownType
  }

  /** The view with the calculator guarded first: it differs only where the source throws. */
  function IntendedView(c: Challenge): (v: ChallengeView)
    ensures v != RenderFault
    ensures v != View(c) <==> c.Calculator? && c.inputs.None?
  {
    match c
    case Calculator(_, _, ins) => CalculatorView(ins)
    case _ => View(c)
  }

  /**
   * Branch `ch` can be played to its Continue button: its question renders, and
   * some answer button leads to an outcome that exists.
   */
  predicate Finishable(ch: Choice)
  {
    ch.challenge.Some? &&
    ((ch.onCorrect.Some? && ch.challenge.value.correctAnswer in ch.challenge.value.options) ||
     (ch.onIncorrect.Some? && exists o :: o in ch.challenge.value.options && o != ch.challenge.value.correctAnswer))
  }

  /**
   * Some sequence of user actions brings the challenge to a Continue button
   * that reports: every quiz question offers an answer button
   * (`question.options || []`, frontend/src/App.jsx:306), some scenario branch
   * is finishable, a calculator has its input array.
   */
  predicate CanReport(c: Challenge)
  {
    match c
    case Quiz(qs) => qs.Some? && |qs.value| > 0 && forall i :: 0 <= i < |qs.value| ==> |qs.value[i].options| > 0
    case Scenario(_, _, cs) => cs.Some? && exists i :: 0 <= i < |cs.value| && Finishable(cs.value[i])
    case Calculator(_, _, ins) => ins.Some?
    case Unknown(_) => false
  }

  // ---------------------------------------------------------------------------
  // Quiz

  function CountTrue(bs: seq<bool>): (n: nat)
    ensures n <= |bs|
  {
    if bs == [] then 0 else (if bs[|bs| - 1] then 1 else 0) + CountTrue(bs[..|bs| - 1])
  }

  /** `Math.round(score / questions.length * 50)`: between 0 and 50, 50 for a perfect quiz. */
  function QuizAward(score: nat, count: nat): (r: int)
    requires 0 < count && score <= count
    ensures 0 <= r <= 50
    ensures score == count ==> r == 50
    ensures score == 0 ==> r == 0
  {
    var f := score as real / count as real;
    UnitFraction(score as real, count as real);
    assert score == count ==> f == 1.0;
    var x := f * 50.0;
    RoundMonotone(0.0, x); RoundWhole(0);
    RoundMonotone(x, 50.0); RoundWhole(50);
    Round(x)
  }

  /** More correct answers never earn less. */
  lemma QuizAwardMonotone(s1: nat, s2: nat, count: nat)
    requires 0 < count && s1 <= s2 <= count
    ensures QuizAward(s1, count) <= QuizAward(s2, count)
  {
    var c := count as real;
    DivMonotone(s1 as real, s2 as real, c);
    RoundMonotone(s1 as real / c * 50.0, s2 as real / c * 50.0);
  }

  /** One right answer out of two earns 25. */
  lemma QuizAwardHalf()
    ensures QuizAward(1, 2) == 25
  {
    assert 1.0 / 2.0 * 50.0 == 25.0;
    RoundWhole(25);
  }

  /** `QuizSimulation`: one question at a time; the first answer to a question is locked in. */
  class QuizSim {
    const questions: seq<Question>
    var qIndex: nat
    var score: nat
    var isAnswered: bool
    var answer: Option<string>
    var answerCorrect: bool
    /** Whether the locked answer of each question reached so far was right. */
    ghost var firstAnswers: seq<bool>

    ghost predicate Valid()
      reads this
    {
      |questions| > 0 && qIndex < |questions| &&
      |firstAnswers| == qIndex + (if isAnswered then 1 else 0) &&
      score == CountTrue(firstAnswers) &&
      (isAnswered ==>
        answer.Some? &&
        answerCorrect == (answer.value == questions[qIndex].correctAnswer) &&
        firstAnswers[qIndex] == answerCorrect) &&
      (!isAnswered ==> answer == None && !answerCorrect)
    }

    constructor(questions: seq<Question>)
      requires |questions| > 0
      ensures Valid()
      ensures this.questions == questions
      ensures qIndex == 0 && score == 0 && !isAnswered && firstAnswers == []
    {
      this.questions := questions;
      qIndex, score, isAnswered, answer, answerCorrect := 0, 0, false, None, false;
      firstAnswers := [];
    }

    /**
     * `handleAnswer`: ignored once the question is answered; otherwise locks the
     * answer in and scores one point iff it equals `correctAnswer` exactly.
     */
    method Answer(option: string)
      requires Valid()
      requires option in questions[qIndex].options
      modifies this
      ensures Valid()
      ensures qIndex == old(qIndex)
      ensures old(isAnswered) ==>
        score == old(score) && answer == old(answer) && firstAnswers == old(firstAnswers)
      ensures !old(isAnswered) ==>
        isAnswered && answer == Some(option) &&
        answerCorrect == (option == questions[qIndex].correctAnswer) &&
        score == old(score) + (if answerCorrect then 1 else 0) &&
        firstAnswers == old(firstAnswers) + [answerCorrect]
    {
      if isAnswered {
        return;
      }
      var correct := option == questions[qIndex].correctAnswer;
      answer, answerCorrect := Some(option), correct;
      isAnswered := true;
      firstAnswers := firstAnswers + [correct];
      assert firstAnswers[..|firstAnswers| - 1] == old(firstAnswers);
      if correct {
        score := score + 1;
      }
    }

    /**
     * `handleNext` (Continue, shown once answered): the next question with the
     * answer state cleared, or after the last question the award for the
     * share of first answers that were right.
     */
    method Next() returns (award: Option<int>)
      requires Valid() && isAnswered
      modifies this
      ensures Valid()
      ensures old(qIndex) < |questions| - 1 ==>
        award == None && qIndex == old(qIndex) + 1 && !isAnswered &&
        score == old(score) && firstAnswers == old(firstAnswers)
      ensures old(qIndex) == |questions| - 1 ==>
        |firstAnswers| == |questions| &&
        award == Some(QuizAward(CountTrue(firstAnswers), |questions|)) &&
        qIndex == old(qIndex) && isAnswered && score == old(score)
    {
      if qIndex < |questions| - 1 {
        qIndex := qIndex + 1;
        isAnswered := false;
        answer, answerCorrect := None, false;
        award := None;
      } else {
        award := Some(QuizAward(score, |questions|));
      }
    }
  }

  // ---------------------------------------------------------------------------
  // Scenario

  datatype ScenarioStep = Choosing | Challenged | Revealed

  /** The outcome shown for a locked answer, when the branch has one. */
  function OutcomeFor(ch: Choice, correct: bool): (o: Option<Outcome>)
    ensures o.Some? <==> (correct && ch.onCorrect.Some?) || (!correct && ch.onIncorrect.Some?)
  {
    if correct then ch.onCorrect else ch.onIncorrect
  }

  /**
   * `ScenarioSimulation`: pick a branch, answer its question (locked on first
   * pick), see the outcome once the reveal timer fires, Continue for its XP.
   * A branch without a question object throws when its question is rendered,
   * and a missing outcome throws when the outcome is rendered.
   */
  class ScenarioSim {
    const choices: seq<Choice>
    var step: ScenarioStep
    var selectedChoice: Option<Choice>
    var isCorrect: bool
    var isAnswered: bool
    var selection: Option<string>
    /** The 1.5 s reveal timer has been started and has not fired yet. */
    var timerPending: bool

    ghost predicate Valid()
      reads this
    {
      (step != Choosing ==> selectedChoice.Some?) &&
      (step == Choosing ==> !isAnswered) &&
      (isAnswered ==>
        selection.Some? && selectedChoice.Some? && selectedChoice.value.challenge.Some? &&
        isCorrect == (selection.value == selectedChoice.value.challenge.value.correctAnswer)) &&
      (!isAnswered ==> selection == None && !isCorrect && !timerPending) &&
      (timerPending ==> step == Challenged) &&
      (step == Revealed ==> isAnswered)
    }

    /** What the current step renders. */
    function Render(): (v: ChallengeView)
      requires Valid()
      reads this
      ensures v == Live || v == RenderFault
      ensures v == RenderFault <==>
        (step == Challenged && selectedChoice.value.challenge.None?) ||
        (step == Revealed && OutcomeFor(selectedChoice.value, isCorrect).None?)
    {
      match step
      case Choosing => Live
      case Challenged => if selectedChoice.value.challenge.None? then RenderFault else Live
      case Revealed => if OutcomeFor(selectedChoice.value, isCorrect).None? then RenderFault else Live
    }

    constructor(choices: seq<Choice>)
      ensures Valid()
      ensures this.choices == choices
      ensures step == Choosing && selectedChoice == None && !isAnswered && !timerPending
    {
      this.choices := choices;
      step, selectedChoice := Choosing, None;
      isCorrect, isAnswered, selection, timerPending := false, false, None, false;
    }

    /**
     * `handleChoiceSelect`: remember the branch and show its question, which
     * throws for a branch without one.
     */
    method SelectChoice(c: Choice)
      requires Valid() && step == Choosing && c in choices
      modifies this
      ensures Valid()
      ensures step == Challenged && selectedChoice == Some(c)
      ensures !isAnswered && !timerPending
      ensures Render() == RenderFault <==> c.challenge.None?
    {
      selectedChoice := Some(c);
      step := Challenged;
    }

    /**
     * `handleChallengeAnswer` on one of the question's buttons: ignored once
     * answered; otherwise locks the answer, decides correctness by exact
     * match, and starts the reveal timer.
     */
    method Answer(a: string)
      requires Valid() && step == Challenged && selectedChoice.value.challenge.Some?
      requires a in selectedChoice.value.challenge.value.options
      modifies this
      ensures Valid()
      ensures step == Challenged && selectedChoice == old(selectedChoice)
      ensures old(isAnswered) ==>
        selection == old(selection) && isCorrect == old(isCorrect) && timerPending == old(timerPending)
      ensures !old(isAnswered) ==>
        isAnswered && selection == Some(a) && timerPending &&
        isCorrect == (a == selectedChoice.value.challenge.value.correctAnswer)
    {
      if isAnswered {
        return;
      }
      var correct := a == selectedChoice.value.challenge.value.correctAnswer;
      selection := Some(a);
      isCorrect := correct;
      isAnswered := true;
      timerPending := true;
    }

    /** The reveal timer fires: show the outcome, which throws when it is missing. */
    method TimerFired()
      requires Valid() && timerPending
      modifies this
      ensures Valid()
      ensures step == Revealed && !timerPending
      ensures isCorrect == old(isCorrect) && selection == old(selection) && selectedChoice == old(selectedChoice)
      ensures Render() == RenderFault <==> OutcomeFor(selectedChoice.value, isCorrect).None?
    {
      step := Revealed;
      timerPending := false;
    }

    /**
     * Continue on the rendered outcome: exactly the XP of the outcome the
     * locked answer earned.
     */
    method Continue() returns (xp: int)
      requires Valid() && step == Revealed && Render() == Live
      ensures var c := selectedChoice.value;
        var o := if selection.value == c.challenge.value.correctAnswer then c.onCorrect else c.onIncorrect;
        o.Some? && xp == o.value.xp
    {
      var outcome := OutcomeFor(selectedChoice.value, isCorrect);
      xp := outcome.value.xp;
    }
  }

  /**
   * A branch is finishable exactly when, after picking it, some answer button
   * leads to a rendered outcome.
   */
  lemma FinishableIffOutcome(ch: Choice)
    ensures Finishable(ch) <==>
      ch.challenge.Some? &&
      exists a :: a in ch.challenge.value.options &&
        OutcomeFor(ch, a == ch.challenge.value.correctAnswer).Some?
  {
    if Finishable(ch) {
      var p := ch.challenge.value;
      if ch.onCorrect.Some? && p.correctAnswer in p.options {
        assert OutcomeFor(ch, p.correctAnswer == p.correctAnswer).Some?;
      } else {
        var o :| o in p.options && o != p.correctAnswer;
        assert OutcomeFor(ch, o == p.correctAnswer).Some?;
      }
    }
  }

  /**
   * A branch in the shape the generation prompt asks for, `{text, outcome, xp}`
   * (frontend/src/App.jsx:65): none of the fields the component reads.
   */
  function PromptShapedChoice(id: string, text: string): (ch: Choice)
    ensures ch.id == id && ch.text == text
    ensures ch.challenge.None? && ch.onCorrect.None? && ch.onIncorrect.None?
  {
    Choice(id, text, None, None, None)
  }

  /**
   * A scenario made of prompt-shaped branches can never report: every branch
   * throws once picked, so the session cannot get past it.
   */
  lemma PromptShapedScenarioStuck(title: string, description: string, ids: seq<string>, texts: seq<string>)
    requires |ids| == |texts|
    ensures var cs := seq(|ids|, i requires 0 <= i < |ids| => PromptShapedChoice(ids[i], texts[i]));
      View(Scenario(title, description, Some(cs))) == Live &&
      !CanReport(Scenario(title, description, Some(cs)))
  {
    var cs := seq(|ids|, i requires 0 <= i < |ids| => PromptShapedChoice(ids[i], texts[i]));
    forall i | 0 <= i < |cs|
      ensures !Finishable(cs[i])
    {
      assert cs[i].challenge.None?;
    }
  }

  /**
   * A branch in the shape the component reads: `challenge` with its
   * `correctAnswer` among its `options`, and both `outcomes`.
   */
  predicate ReadableChoice(ch: Choice)
  {
    ch.challenge.Some? && ch.onCorrect.Some? && ch.onIncorrect.Some? &&
    ch.challenge.value.correctAnswer in ch.challenge.value.options
  }

  /**
   * With branches in the shape the component reads, every branch can be played
   * to its Continue button, and a non-empty scenario can report.
   */
  lemma ReadableScenarioReports(c: Challenge)
    requires c.Scenario? && c.choices.Some?
    requires forall i :: 0 <= i < |c.choices.value| ==> ReadableChoice(c.choices.value[i])
    ensures forall i :: 0 <= i < |c.choices.value| ==> Finishable(c.choices.value[i])
    ensures |c.choices.value| > 0 ==> CanReport(c)
  {
    if |c.choices.value| > 0 {
      assert Finishable(c.choices.value[0]);
    }
  }

  // ---------------------------------------------------------------------------
  // Calculator

  /** The fixed award of the calculator. */
  const CalculatorAward: int := 50

  /** `values[id] || dflt`: a missing or zero value falls back to the default. */
  function ValueOr(values: map<string, real>, id: string, dflt: real): (r: real)
    ensures id in values && values[id] != 0.0 ==> r == values[id]
    ensures id !in values || values[id] == 0.0 ==> r == dflt
  {
    if id in values && values[id] != 0.0 then values[id] else dflt
  }

  datatype Split = Split(needsPct: int, wantsPct: int, savingsPct: int)

  /**
   * The live percentages: needs and wants as rounded percentages of income
   * (a missing or zero income counts as 1), savings what remains, never negative.
   */
  function Percentages(values: map<string, real>): (s: Split)
    ensures s.savingsPct >= 0
    ensures s.needsPct + s.wantsPct <= 100 ==> s.needsPct + s.wantsPct + s.savingsPct == 100
    ensures s.needsPct + s.wantsPct >= 100 ==> s.savingsPct == 0
  {
    var income := ValueOr(values, "income", 1.0);
    var needs := ValueOr(values, "needs", 0.0);
    var wants := ValueOr(values, "wants", 0.0);
    var needsPct := Round(needs / income * 100.0);
    var wantsPct := Round(wants / income * 100.0);
    Split(needsPct, wantsPct, MaxInt(0, 100 - needsPct - wantsPct))
  }

  /** An income of 0 is treated exactly like an income of 1. */
  lemma ZeroIncomeCountsAsOne(values: map<string, real>)
    ensures Percentages(values["income" := 0.0]) == Percentages(values["income" := 1.0])
    ensures Percentages(values["income" := 0.0]) == Percentages(values - {"income"})
  {
    var a, b, c := values["income" := 0.0], values["income" := 1.0], values - {"income"};
    assert ValueOr(a, "needs", 0.0) == ValueOr(b, "needs", 0.0) == ValueOr(c, "needs", 0.0);
    assert ValueOr(a, "wants", 0.0) == ValueOr(b, "wants", 0.0) == ValueOr(c, "wants", 0.0);
  }

  /** The 50/30/20 rule itself: 1000 income, 500 needs, 300 wants. */
  lemma BudgetRuleSplit()
    ensures Percentages(map["income" := 1000.0, "needs" := 500.0, "wants" := 300.0]) == Split(50, 30, 20)
    ensures Feedback(20) == PerfectBalance
  {
    RoundWhole(50);
    RoundWhole(30);
    assert 500.0 / 1000.0 * 100.0 == 50.0;
    assert 300.0 / 1000.0 * 100.0 == 30.0;
  }

  datatype Band = PerfectBalance | TrimWants | AmazingSaver | AimForTwenty

  /** `getFeedback`: the bands are tested in order 18-22, below 10, above 25, otherwise. */
  function Feedback(savingsPct: int): (b: Band)
    ensures b == PerfectBalance <==> 18 <= savingsPct <= 22
    ensures b == TrimWants <==> savingsPct < 10
    ensures b == AmazingSaver <==> savingsPct > 25
    ensures b == AimForTwenty <==> (10 <= savingsPct < 18 || 22 < savingsPct <= 25)
  {
    if savingsPct >= 18 && savingsPct <= 22 then PerfectBalance
    else if savingsPct < 10 then TrimWants
    else if savingsPct > 25 then AmazingSaver
    else AimForTwenty
  }

  /** The message under the results bar: each band has its own. */
  function FeedbackText(b: Band): (t: string)
    ensures |t| > 0
  {
    match b
    case PerfectBalance => "Perfect balance! \U{1F3C6}"
    case TrimWants => "Good start! Trim some 'Wants' to boost savings."
    case AmazingSaver => "Amazing saver! \U{1F525}"
    case AimForTwenty => "Aim for 20% savings."
  }

  /** No two bands share a message. */
  lemma FeedbackTextDistinct(b1: Band, b2: Band)
    requires FeedbackText(b1) == FeedbackText(b2)
    ensures b1 == b2
  {
  }

  /** Among the first n inputs, the last one with id k has value v. */
  ghost predicate LastValue(inputs: seq<Input>, n: nat, k: string, v: real)
    requires n <= |inputs|
  {
    exists i :: 0 <= i < n && inputs[i].id == k && inputs[i].value == v &&
      forall j :: i < j < n ==> inputs[j].id != k
  }

  /**
   * The initial slider values: one entry per input id, holding the value of
   * the last input with that id.
   */
  method InitialValues(inputs: seq<Input>) returns (m: map<string, real>)
    ensures forall i :: 0 <= i < |inputs| ==> inputs[i].id in m
    ensures forall k :: k in m ==> LastValue(inputs, |inputs|, k, m[k])
  {
    m := map[];
    var i := 0;
    while i < |inputs|
      invariant 0 <= i <= |inputs|
      invariant forall j :: 0 <= j < i ==> inputs[j].id in m
      invariant forall k :: k in m ==> LastValue(inputs, i, k, m[k])
    {
      m := m[inputs[i].id := inputs[i].value];
      i := i + 1;
    }
  }

  /** `CalculatorSimulation`: the slider values, keyed by input id. */
  class CalculatorSim {
    const inputs: seq<Input>
    var values: map<string, real>

    constructor(inputs: seq<Input>)
      ensures this.inputs == inputs
      ensures forall i :: 0 <= i < |inputs| ==> inputs[i].id in values
      ensures forall k :: k in values ==> LastValue(inputs, |inputs|, k, values[k])
    {
      var initial := InitialValues(inputs);
      this.inputs := inputs;
      values := initial;
    }

    /** `handleInputChange`: only the moved slider's value changes. */
    method InputChange(id: string, v: real)
      modifies this
      ensures values == old(values)[id := v]
      ensures forall k :: k != id && k in old(values) ==> k in values && values[k] == old(values)[k]
    {
      values := values[id := v];
    }

    /** Continue: always the fixed award. */
    method Continue() returns (xp: int)
      ensures xp == CalculatorAward
    {
      xp := CalculatorAward;
    }
  }
}
