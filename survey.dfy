/**
 * The onboarding survey (src/pages/Survey.tsx): four steps (intro, goal,
 * knowledge, persona), the answers collected in `formData`, the segment
 * derived from the goal, and the three browser-storage entries written on
 * submission before the page moves to the dashboard.
 *
 * Each timer (`setTimeout`) is modelled as firing at once, before the next
 * click; the closure it runs is the one captured when it was set.
 */
module Survey {
  const TotalSteps := 4

  /** The keys of `formData`. */
  datatype Field = FinancialGoal | KnowledgeLevel | PreferredPersona

  datatype FormData = FormData(financialGoal: string, knowledgeLevel: string, preferredPersona: string)

  const EmptyForm := FormData("", "", "")

  const SegmentKey := "fin_user_segment"
  const PersonaKey := "fin_preferred_persona"
  const OnboardingKey := "fin_onboarding_completed"

  /** `{ ...prev, [key]: value }` */
  function SetField(d: FormData, key: Field, value: string): (r: FormData)
    ensures key == FinancialGoal ==> r == d.(financialGoal := value)
    ensures key == KnowledgeLevel ==> r == d.(knowledgeLevel := value)
    ensures key == PreferredPersona ==> r == d.(preferredPersona := value)
  {
    match key
    case FinancialGoal => d.(financialGoal := value)
    case KnowledgeLevel => d.(knowledgeLevel := value)
    case PreferredPersona => d.(preferredPersona := value)
  }

  /** The value a field holds. */
  function Get(d: FormData, key: Field): string {
    match key
    case FinancialGoal => d.financialGoal
    case KnowledgeLevel => d.knowledgeLevel
    case PreferredPersona => d.preferredPersona
  }

  /** Setting a field gives it the new value and leaves the other two as they were. */
  lemma SetFieldOnly(d: FormData, key: Field, value: string)
    ensures Get(SetField(d, key, value), key) == value
    ensures forall other :: other != key ==> Get(SetField(d, key, value), other) == Get(d, other)
  {
    forall other | other != key
      ensures Get(SetField(d, key, value), other) == Get(d, other)
    {
      match key
      case FinancialGoal =>
      case KnowledgeLevel =>
      case PreferredPersona =>
    }
  }

  /** The segment `handleSubmit` derives from the financial goal. */
  function Segment(goal: string): (r: string)
    ensures r == "Investor" || r == "Saver" || r == "Learner" || r == "General"
  {
    if goal == "invest" then "Investor"
    else if goal == "save" then "Saver"
    else if goal == "learn" then "Learner"
    else "General"
  }

  /** Each segment comes from exactly one goal, and every other goal is General. */
  lemma SegmentIff(goal: string)
    ensures Segment(goal) == "Investor" <==> goal == "invest"
    ensures Segment(goal) == "Saver" <==> goal == "save"
    ensures Segment(goal) == "Learner" <==> goal == "learn"
    ensures Segment(goal) == "General" <==> goal != "invest" && goal != "save" && goal != "learn"
  {
  }

  /** The "manage" option and an unanswered goal both fall to General. */
  lemma ManageAndEmptyAreGeneral()
    ensures Segment("manage") == "General" && Segment("") == "General"
  {
    SegmentIff("manage");
    SegmentIff("");
  }

  /** The storage after a submission of `d`. */
  function Stored(storage: map<string, string>, d: FormData): (r: map<string, string>)
    ensures SegmentKey in r && PersonaKey in r && OnboardingKey in r
    ensures r[SegmentKey] == Segment(d.financialGoal)
    ensures r[PersonaKey] == d.preferredPersona
    ensures r[OnboardingKey] == "true"
    ensures r.Keys == storage.Keys + {SegmentKey, PersonaKey, OnboardingKey}
    ensures forall k :: k in storage && k != SegmentKey && k != PersonaKey && k != OnboardingKey ==> r[k] == storage[k]
  {
    storage[SegmentKey := Segment(d.financialGoal)][PersonaKey := d.preferredPersona][OnboardingKey := "true"]
  }

  /** The width of the progress bar, in percent. */
  function ProgressPercent(step: int): real {
    (step as real / TotalSteps as real) * 100.0
  }

  /** On every step the survey shows, the bar is partly filled, and it is full exactly at the last step. */
  lemma ProgressEnds(step: int)
    requires 1 <= step <= TotalSteps
    ensures 0.0 < ProgressPercent(step) <= 100.0
    ensures ProgressPercent(step) == 100.0 <==> step == TotalSteps
  {
  }

  class SurveyFlow {
    var step: int
    var formData: FormData
    /** `localStorage`. */
    var storage: map<string, string>
    /** Whether `navigate('/dashboard')` has run. */
    var navigated: bool

    ghost predicate Valid()
      reads this
    {
      1 <= step <= TotalSteps
    }

    constructor(storage0: map<string, string>)
      ensures Valid()
      ensures step == 1 && formData == EmptyForm && storage == storage0 && !navigated
    {
      step := 1;
      formData := EmptyForm;
      storage := storage0;
      navigated := false;
    }

    /** `handleSubmit` as a closure over `data`, with its one-second timer fired. */
    method Submit(data: FormData)
      modifies this
      ensures storage == Stored(old(storage), data) && navigated
      ensures step == old(step) && formData == old(formData)
    {
      var segment := "General";
      if data.financialGoal == "invest" {
        segment := "Investor";
      } else if data.financialGoal == "save" {
        segment := "Saver";
      } else if data.financialGoal == "learn" {
        segment := "Learner";
      }
      storage := storage[SegmentKey := segment];
      storage := storage[PersonaKey := data.preferredPersona];
      storage := storage[OnboardingKey := "true"];
      navigated := true;
    }

    /** `handleNext` as rendered with the current step and answers. */
    method HandleNext()
      requires Valid()
      modifies this
      ensures Valid()
      ensures old(step) < TotalSteps ==>
        step == old(step) + 1 && storage == old(storage) && navigated == old(navigated)
      ensures old(step) == TotalSteps ==>
        step == TotalSteps && storage == Stored(old(storage), old(formData)) && navigated
      ensures formData == old(formData)
    {
      if step < TotalSteps {
        step := step + 1;
      } else {
        Submit(formData);
      }
    }

    /**
     * `handleOptionSelect` as written: the answer is stored, but the timer
     * runs the `handleNext` of the render the click happened in, so on the
     * last step it submits the answers as they were before the click.
     */
    method HandleOptionSelectAsWritten(key: Field, value: string)
      requires Valid()
      modifies this
      ensures Valid()
      ensures formData == SetField(old(formData), key, value)
      ensures old(step) < TotalSteps ==>
        step == old(step) + 1 && storage == old(storage) && navigated == old(navigated)
      ensures old(step) == TotalSteps ==>
        step == TotalSteps && storage == Stored(old(storage), old(formData)) && navigated
    {
      var rendered := formData;
      formData := SetField(formData, key, value);
      if step < TotalSteps {
        step := step + 1;
      } else {
        Submit(rendered);
      }
    }

    /** `handleOptionSelect` with the submission reading the answers the click produced. */
    method HandleOptionSelect(key: Field, value: string)
      requires Valid()
      modifies this
      ensures Valid()
      ensures formData == SetField(old(formData), key, value)
      ensures old(step) < TotalSteps ==>
        step == old(step) + 1 && storage == old(storage) && navigated == old(navigated)
      ensures old(step) == TotalSteps ==>
        step == TotalSteps && storage == Stored(old(storage), formData) && navigated
    {
      formData := SetField(formData, key, value);
      HandleNext();
    }
  }

  /**
   * A first run through the survey as written, picking `persona` on the last
   * step: the stored persona is the empty answer the form held before the click.
   */
  method FirstRunAsWritten(storage0: map<string, string>, goal: string, level: string, persona: string)
    returns (stored: map<string, string>)
    ensures stored == Stored(storage0, FormData(goal, level, ""))
    ensures stored[PersonaKey] == ""
    ensures stored[SegmentKey] == Segment(goal) && stored[OnboardingKey] == "true"
  {
    var s := new SurveyFlow(storage0);
    s.HandleNext();
    s.HandleOptionSelectAsWritten(FinancialGoal, goal);
    s.HandleOptionSelectAsWritten(KnowledgeLevel, level);
    s.HandleOptionSelectAsWritten(PreferredPersona, persona);
    stored := s.storage;
  }

  /**
   * A first run through the corrected survey: every answer reaches the
   * storage, and the page moves on to the dashboard.
   */
  method FirstRun(storage0: map<string, string>, goal: string, level: string, persona: string)
    returns (stored: map<string, string>, step: int, navigated: bool)
    ensures stored == Stored(storage0, FormData(goal, level, persona))
    ensures stored[PersonaKey] == persona
    ensures stored[SegmentKey] == Segment(goal) && stored[OnboardingKey] == "true"
    ensures step == TotalSteps && navigated
  {
    var s := new SurveyFlow(storage0);
    s.HandleNext();
    s.HandleOptionSelect(FinancialGoal, goal);
    s.HandleOptionSelect(KnowledgeLevel, level);
    s.HandleOptionSelect(PreferredPersona, persona);
    stored, step, navigated := s.storage, s.step, s.navigated;
  }
}
