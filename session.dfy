/** The controller as the home page lets a user drive it. `HomePage`
    (src/App.jsx:51-211) decides which handler a user can reach: the
    find button is disabled while searching, the questions (with Back, Next,
    Submit and the field inputs) are rendered only while `showQuestions`
    holds, Back is disabled at step 1, Next is rendered below step 5 and
    Submit otherwise, each input only at its own step, and the two selects
    offer fixed options. A response can only arrive for a request in
    flight. */
module Session {
  import opened Values
  import opened Selection
  import opened Controller

  /** The controller's cells and the number of requests in flight. */
  datatype Session = Session(app: State, pending: nat)

  const Start := Session(Init, 0)

  /** The `<option>` values of the two selects (src/App.jsx:153-156, 165-167). */
  const GroupSizeOptions: set<string> := {"1", "2", "3", "4"}
  const DifficultyOptions: set<string> := {"intro", "intermediate", "advanced"}

  /** The step at which each input is rendered (src/App.jsx:113-170). */
  function FieldStep(f: Field): int
  {
    match f
    case Name => 1
    case Schedule => 2
    case Courses => 3
    case GroupSize => 4
    case Difficulty => 5
  }

  /** The values an input can deliver to its setter. */
  predicate Offered(f: Field, v: string)
  {
    (f == GroupSize ==> v in GroupSizeOptions) && (f == Difficulty ==> v in DifficultyOptions)
  }

  /** Whether the page lets event `e` happen now. The find button works
      exactly when no search runs; Back, Next, Submit and the inputs need the
      questions shown; each input its own step and an offered value; Back a
      step other than the first; Next a step below the last and Submit one
      at or above it; a response a request in flight. */
  function Enabled(ss: Session, e: Event): (enabled: bool)
    ensures e.FindBuddy? ==> (enabled <==> !ss.app.isSearching)
    ensures enabled && (e.Next? || e.Back? || e.Edit? || e.SubmitBegin?) ==> ss.app.showQuestions
    ensures enabled && e.Edit? ==> ss.app.step == FieldStep(e.field) && Offered(e.field, e.value)
    ensures enabled && e.Back? ==> ss.app.step != FirstStep
    ensures enabled && e.Next? ==> ss.app.step < LastStep
    ensures enabled && e.SubmitBegin? ==> ss.app.step >= LastStep
    ensures (e.SubmitSucceed? || e.SubmitFail?) ==> (enabled <==> ss.pending > 0)
  {
    var s := ss.app;
    match e
    case FindBuddy => !s.isSearching
    case Next => s.showQuestions && s.step < LastStep
    case Back => s.showQuestions && s.step != FirstStep
    case Edit(f, v) => s.showQuestions && s.step == FieldStep(f) && Offered(f, v)
    case SubmitBegin => s.showQuestions && !(s.step < LastStep)
    case SubmitSucceed(_) => ss.pending > 0
    case SubmitFail(_) => ss.pending > 0
  }

  /** One event: the handler's effect, and a request sent or answered. */
  function Perform(ss: Session, e: Event): Session
  {
    var pending :=
      match e
      case SubmitBegin => ss.pending + 1
      case SubmitSucceed(_) => if ss.pending > 0 then ss.pending - 1 else 0
      case SubmitFail(_) => if ss.pending > 0 then ss.pending - 1 else 0
      case _ => ss.pending;
    Session(Apply(ss.app, e), pending)
  }

  /** Every event of `es` is enabled when it happens. */
  predicate UiRun(ss: Session, es: seq<Event>)
    decreases |es|
  {
    es == [] || (Enabled(ss, es[0]) && UiRun(Perform(ss, es[0]), es[1..]))
  }

  function RunUi(ss: Session, es: seq<Event>): Session
    decreases |es|
  {
    if es == [] then ss else RunUi(Perform(ss, es[0]), es[1..])
  }

  /** The invariant of user-driven runs: the controller's own invariant; one
      request in flight exactly while searching; no match and no error while
      the questions are shown or a search runs; the select answers among
      their options. */
  predicate UiInv(ss: Session)
  {
    var s := ss.app;
    && Inv(s)
    && ss.pending == (if s.isSearching then 1 else 0)
    && (s.showQuestions || s.isSearching ==> s.foundMatch == None && s.error == "")
    && s.form.groupSize in GroupSizeOptions
    && s.form.difficulty in DifficultyOptions
  }

  lemma StartUiInv()
    ensures UiInv(Start)
  {
  }

  /** Every enabled event keeps the invariant. */
  lemma PerformKeepsUiInv(ss: Session, e: Event)
    requires UiInv(ss) && Enabled(ss, e)
    ensures UiInv(Perform(ss, e))
  {
  }

  lemma {:induction false} UiRunKeepsUiInv(ss: Session, es: seq<Event>)
    requires UiInv(ss) && UiRun(ss, es)
    ensures UiInv(RunUi(ss, es))
    decreases |es|
  {
    if es != [] {
      PerformKeepsUiInv(ss, es[0]);
      UiRunKeepsUiInv(Perform(ss, es[0]), es[1..]);
    }
  }

  /** Every state a user can reach from the start satisfies the invariant. */
  lemma ReachableUiInv(es: seq<Event>)
    requires UiRun(Start, es)
    ensures UiInv(RunUi(Start, es))
  {
    StartUiInv();
    UiRunKeepsUiInv(Start, es);
  }

  /** While the questions are shown the page offers exactly one of Next and
      Submit, never both. */
  lemma NextOrSubmit(ss: Session)
    requires ss.app.showQuestions
    ensures Enabled(ss, Next) <==> !Enabled(ss, SubmitBegin)
  {
  }

  /** Submit is reachable only at the last step. */
  lemma SubmitOnlyAtLastStep(ss: Session)
    requires UiInv(ss) && Enabled(ss, SubmitBegin)
    ensures ss.app.step == LastStep
  {
  }

  /** The clamps of Next and Back are never exercised from the page: an
      enabled Next moves exactly one step forward, an enabled Back exactly
      one step back. */
  lemma EnabledMovesAreExact(ss: Session)
    requires UiInv(ss)
    ensures Enabled(ss, Next) ==> Perform(ss, Next).app.step == ss.app.step + 1
    ensures Enabled(ss, Back) ==> Perform(ss, Back).app.step == ss.app.step - 1
  {
  }

  /** Because the find button is disabled while searching, a response always
      arrives for the current session: it finds the controller searching,
      with the questions hidden, and it ends the only request in flight. */
  lemma ResponsesNeverStale(ss: Session, e: Event)
    requires UiInv(ss) && (e.SubmitSucceed? || e.SubmitFail?) && Enabled(ss, e)
    ensures ss.app.isSearching && !ss.app.showQuestions
    ensures Perform(ss, e).pending == 0
  {
  }

  /** In a user-driven run a failure leaves no match behind and its message
      is the one `ErrorMessage` chooses; a success leaves the error empty. */
  lemma ResponseOutcomes(ss: Session, e: Event)
    requires UiInv(ss) && Enabled(ss, e)
    ensures e.SubmitFail? ==>
              Perform(ss, e).app.foundMatch == None && Perform(ss, e).app.error == ErrorMessage(e.failure)
    ensures e.SubmitSucceed? ==>
              Perform(ss, e).app.foundMatch == e.found && Perform(ss, e).app.error == ""
  {
  }

  /** The error text is rendered only inside the questions section
      (src/App.jsx:97, 172), and every way to show the questions clears it:
      in no reachable state is an error message on screen. */
  lemma ErrorNeverShown(es: seq<Event>)
    requires UiRun(Start, es)
    ensures var s := RunUi(Start, es).app; !(s.showQuestions && s.error != "")
  {
    ReachableUiInv(es);
  }

  /** The answers a user can give keep the selects within their options. */
  lemma SelectsStayOffered(es: seq<Event>)
    requires UiRun(Start, es)
    ensures RunUi(Start, es).app.form.groupSize in GroupSizeOptions
    ensures RunUi(Start, es).app.form.difficulty in DifficultyOptions
  {
    ReachableUiInv(es);
  }
}
