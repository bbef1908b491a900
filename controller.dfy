/** The wizard controller of `App` (src/App.jsx:213-270) as a pure state
    machine: the ten `useState` cells as one record, one function per handler
    giving the cells after it, and the laws those functions keep. The class
    `App.Wizard` runs the same handlers in place and is proved against these
    functions. */
module Controller {
  import opened Values
  import opened Selection

  const FirstStep := 1
  const LastStep := 5

  /** The state cells of `App`; `form` groups the five answer cells. */
  datatype State = State(
    isSearching: bool,
    foundMatch: Option<Match>,
    showQuestions: bool,
    step: int,
    form: Form,
    error: string)

  /** The initial values of the cells (src/App.jsx:214-223). */
  const Init := State(false, None, false, FirstStep, DefaultForm, "")

  /** What every handler preserves: the step is within 1..5, and the
      controller is never searching while it shows the questions. */
  predicate Inv(s: State)
  {
    FirstStep <= s.step <= LastStep && !(s.isSearching && s.showQuestions)
  }

  /** JavaScript's `Math.min` and `Math.max` on two integers. */
  function Min(a: int, b: int): int { if a <= b then a else b }
  function Max(a: int, b: int): int { if a >= b then a else b }

  /** `handleFindBuddy`: starts a new session. The questions are shown at
      step 1, nothing is searched for, the previous match and error are
      cleared, and the answers are kept. */
  function AfterFindBuddy(s: State): (t: State)
    ensures t.showQuestions && !t.isSearching
    ensures t.foundMatch == None && t.step == FirstStep && t.error == ""
    ensures t.form == s.form
  {
    s.(showQuestions := true, foundMatch := None, isSearching := false, step := FirstStep, error := "")
  }

  /** `handleNext`: one step forward below the last step, the last step at
      or above it; only the step changes. */
  function AfterNext(s: State): (t: State)
    ensures s.step < LastStep ==> t.step == s.step + 1
    ensures s.step >= LastStep ==> t.step == LastStep
    ensures t.step <= LastStep
    ensures t == s.(step := t.step)
  {
    s.(step := Min(s.step + 1, LastStep))
  }

  /** `handleBack`: one step back above the first step, the first step at
      or below it; only the step changes. */
  function AfterBack(s: State): (t: State)
    ensures s.step > FirstStep ==> t.step == s.step - 1
    ensures s.step <= FirstStep ==> t.step == FirstStep
    ensures t.step >= FirstStep
    ensures t == s.(step := t.step)
  {
    s.(step := Max(s.step - 1, FirstStep))
  }

  /** An `onChange` setter: field `f` now holds `v`; the other answers and
      every other cell are unchanged. */
  function AfterEdit(s: State, f: Field, v: string): (t: State)
    ensures FieldOf(t.form, f) == v
    ensures forall g :: g != f ==> FieldOf(t.form, g) == FieldOf(s.form, g)
    ensures t == s.(form := t.form)
  {
    s.(form := WithField(s.form, f, v))
  }

  /** The synchronous start of `handleSubmit`: searching, questions hidden,
      error cleared; the step, the answers and the match are unchanged. */
  function AfterSubmitBegin(s: State): (t: State)
    ensures t.isSearching && !t.showQuestions && t.error == ""
    ensures t.step == s.step && t.form == s.form && t.foundMatch == s.foundMatch
  {
    s.(isSearching := true, showQuestions := false, error := "")
  }

  /** The end of `handleSubmit` after a successful response carrying
      `data.match = m`: the match is stored, the search is over and the
      wizard is back at step 1; the error, the answers and the visibility
      of the questions are unchanged. */
  function AfterSucceed(s: State, m: Option<Match>): (t: State)
    ensures t.foundMatch == m && !t.isSearching && t.step == FirstStep
    ensures t.error == s.error && t.form == s.form && t.showQuestions == s.showQuestions
  {
    s.(foundMatch := m, isSearching := false, step := FirstStep)
  }

  /** The end of `handleSubmit` after a failure: the error is the non-empty
      message `ErrorMessage` chooses, the search is over and the wizard is
      back at step 1; the match, the answers and the visibility of the
      questions are unchanged. */
  function AfterFail(s: State, f: Failure): (t: State)
    ensures t.error == ErrorMessage(f) && t.error != ""
    ensures !t.isSearching && t.step == FirstStep
    ensures t.foundMatch == s.foundMatch && t.form == s.form && t.showQuestions == s.showQuestions
  {
    s.(error := ErrorMessage(f), isSearching := false, step := FirstStep)
  }

  /** The handlers, and the two ways a submission ends. */
  datatype Event =
    | FindBuddy
    | Next
    | Back
    | Edit(field: Field, value: string)
    | SubmitBegin
    | SubmitSucceed(found: Option<Match>)
    | SubmitFail(failure: Failure)

  function Apply(s: State, e: Event): State
  {
    match e
    case FindBuddy => AfterFindBuddy(s)
    case Next => AfterNext(s)
    case Back => AfterBack(s)
    case Edit(f, v) => AfterEdit(s, f, v)
    case SubmitBegin => AfterSubmitBegin(s)
    case SubmitSucceed(m) => AfterSucceed(s, m)
    case SubmitFail(f) => AfterFail(s, f)
  }

  /** The state after a sequence of events, each applied atomically. */
  function Run(s: State, es: seq<Event>): State
    decreases |es|
  {
    if es == [] then s else Run(Apply(s, es[0]), es[1..])
  }

  /** One unfolding of `Run`. */
  lemma RunStep(s: State, es: seq<Event>)
    ensures es == [] ==> Run(s, es) == s
    ensures es != [] ==> Run(s, es) == Run(Apply(s, es[0]), es[1..])
  {
  }

  /** Every handler keeps the step in range and never lets searching and
      showing the questions hold together. */
  lemma ApplyKeepsInv(s: State, e: Event)
    requires Inv(s)
    ensures Inv(Apply(s, e))
  {
  }

  /** The same holds after any sequence of events. */
  lemma {:induction false} RunKeepsInv(s: State, es: seq<Event>)
    requires Inv(s)
    ensures Inv(Run(s, es))
    decreases |es|
  {
    if es != [] {
      ApplyKeepsInv(s, es[0]);
      RunKeepsInv(Apply(s, es[0]), es[1..]);
    }
  }

  /** From the initial state, in any order of handlers and responses, the
      step stays within 1..5 and the two flags never hold together. */
  lemma ReachableStatesKeepInv(es: seq<Event>)
    ensures FirstStep <= Run(Init, es).step <= LastStep
    ensures !(Run(Init, es).isSearching && Run(Init, es).showQuestions)
  {
    RunKeepsInv(Init, es);
  }

  /** The answers persist: a sequence of events without an edit leaves all
      five of them as they were, whatever steps it moves through. */
  lemma {:induction false} AnswersPersist(s: State, es: seq<Event>)
    requires forall i :: 0 <= i < |es| ==> !es[i].Edit?
    ensures Run(s, es).form == s.form
    decreases |es|
  {
    if es != [] {
      AnswersPersist(Apply(s, es[0]), es[1..]);
    }
  }

  /** The handlers carry no session token: a failure of a request started
      before the user began a new session lands in the new session, setting
      its error and sending it back to step 1 while it shows the questions. */
  lemma StaleFailureOverwrites(s: State, f: Failure)
    ensures var t := Run(s, [SubmitBegin, Next, FindBuddy, Next, SubmitFail(f)]);
      t.showQuestions && t.error == ErrorMessage(f) && t.error != "" && t.step == FirstStep
  {
    var s1 := Apply(s, SubmitBegin);
    var s2 := Apply(s1, Next);
    var s3 := Apply(s2, FindBuddy);
    var s4 := Apply(s3, Next);
    RunStep(s, [SubmitBegin, Next, FindBuddy, Next, SubmitFail(f)]);
    RunStep(s1, [Next, FindBuddy, Next, SubmitFail(f)]);
    RunStep(s2, [FindBuddy, Next, SubmitFail(f)]);
    RunStep(s3, [Next, SubmitFail(f)]);
    RunStep(s4, [SubmitFail(f)]);
    RunStep(Apply(s4, SubmitFail(f)), []);
  }

  /** Likewise a stale success puts the old match back into a session that
      `AfterFindBuddy` had just cleared. */
  lemma StaleSuccessOverwrites(s: State, m: Option<Match>)
    ensures var t := Run(s, [SubmitBegin, FindBuddy, SubmitSucceed(m)]);
      t.showQuestions && t.foundMatch == m && t.step == FirstStep
  {
    var s1 := Apply(s, SubmitBegin);
    var s2 := Apply(s1, FindBuddy);
    RunStep(s, [SubmitBegin, FindBuddy, SubmitSucceed(m)]);
    RunStep(s1, [FindBuddy, SubmitSucceed(m)]);
    RunStep(s2, [SubmitSucceed(m)]);
    RunStep(Apply(s2, SubmitSucceed(m)), []);
  }

  /** After a success the results page shows the new match whether it reads
      it from the navigation (which carries `m`) or, when that state is
      lost, from the match held in memory. */
  lemma SuccessIsShown(s: State, m: Option<Match>)
    ensures FinalMatch(Navigation(ResultsPath, m).stateMatch, AfterSucceed(s, m).foundMatch) == m
    ensures FinalMatch(None, AfterSucceed(s, m).foundMatch) == m
  {
  }
}
