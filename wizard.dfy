/** The `App` component's handlers (src/App.jsx:213-270) as a class whose
    fields are its `useState` cells. Each method updates the cells in the
    order the handler calls their setters, and is proved to leave exactly
    the state the matching `Controller` function describes. */
module App {
  import opened Values
  import opened Selection
  import opened Payload
  import Controller

  class Wizard {
    var isSearching: bool
    var foundMatch: Option<Match>
    var showQuestions: bool
    var step: int
    var name: string
    var schedule: string
    var courses: string
    var groupSize: string
    var difficulty: string
    var error: string

    /** The five answer cells. */
    function Answers(): Form
      reads this
    {
      Form(name, schedule, courses, groupSize, difficulty)
    }

    /** All the cells, as the controller's state. */
    function Snapshot(): Controller.State
      reads this
    {
      Controller.State(isSearching, foundMatch, showQuestions, step, Answers(), error)
    }

    ghost predicate Valid()
      reads this
    {
      Controller.Inv(Snapshot())
    }

    constructor ()
      ensures Valid() && Snapshot() == Controller.Init
    {
      isSearching := false;
      foundMatch := None;
      showQuestions := false;
      step := Controller.FirstStep;
      name := "";
      schedule := "";
      courses := "";
      groupSize := "2";
      difficulty := "intro";
      error := "";
    }

    /** `handleFindBuddy`. */
    method FindBuddy()
      requires Valid()
      modifies this
      ensures Valid() && Snapshot() == Controller.AfterFindBuddy(old(Snapshot()))
    {
      showQuestions := true;
      foundMatch := None;
      isSearching := false;
      step := Controller.FirstStep;
      error := "";
    }

    /** `handleNext`. */
    method Next()
      requires Valid()
      modifies this
      ensures Valid() && Snapshot() == Controller.AfterNext(old(Snapshot()))
    {
      step := Controller.Min(step + 1, Controller.LastStep);
    }

    /** `handleBack`. */
    method Back()
      requires Valid()
      modifies this
      ensures Valid() && Snapshot() == Controller.AfterBack(old(Snapshot()))
    {
      step := Controller.Max(step - 1, Controller.FirstStep);
    }

    /** The `onChange` setter of the name input. */
    method SetName(v: string)
      requires Valid()
      modifies this
      ensures Valid() && Snapshot() == Controller.AfterEdit(old(Snapshot()), Name, v)
    {
      name := v;
    }

    /** The `onChange` setter of the schedule input. */
    method SetSchedule(v: string)
      requires Valid()
      modifies this
      ensures Valid() && Snapshot() == Controller.AfterEdit(old(Snapshot()), Schedule, v)
    {
      schedule := v;
    }

    /** The `onChange` setter of the courses input. */
    method SetCourses(v: string)
      requires Valid()
      modifies this
      ensures Valid() && Snapshot() == Controller.AfterEdit(old(Snapshot()), Courses, v)
    {
      courses := v;
    }

    /** The `onChange` setter of the group-size select. */
    method SetGroupSize(v: string)
      requires Valid()
      modifies this
      ensures Valid() && Snapshot() == Controller.AfterEdit(old(Snapshot()), GroupSize, v)
    {
      groupSize := v;
    }

    /** The `onChange` setter of the difficulty select. */
    method SetDifficulty(v: string)
      requires Valid()
      modifies this
      ensures Valid() && Snapshot() == Controller.AfterEdit(old(Snapshot()), Difficulty, v)
    {
      difficulty := v;
    }

    /** The synchronous start of `handleSubmit`; returns the request body
      built from the answers as they are when the submit is pressed. */
    method SubmitBegin() returns (body: map<string, string>)
      requires Valid()
      modifies this
      ensures Valid() && Snapshot() == Controller.AfterSubmitBegin(old(Snapshot()))
      ensures body == RequestPayload(old(Answers()))
    {
      isSearching := true;
      showQuestions := false;
      error := "";
      body := RequestPayload(Answers());
    }

    /** The end of `handleSubmit` after a successful response whose `match`
      is `m`; returns the navigation to the results page, carrying `m`. */
    method SubmitSucceed(m: Option<Match>) returns (nav: Navigation)
      requires Valid()
      modifies this
      ensures Valid() && Snapshot() == Controller.AfterSucceed(old(Snapshot()), m)
      ensures nav == Navigation(ResultsPath, m)
    {
      foundMatch := m;
      nav := Navigation(ResultsPath, m);
      isSearching := false;
      step := Controller.FirstStep;
    }

    /** The end of `handleSubmit` after failure `f`. */
    method SubmitFail(f: Failure)
      requires Valid()
      modifies this
      ensures Valid() && Snapshot() == Controller.AfterFail(old(Snapshot()), f)
    {
      error := ErrorMessage(f);
      isSearching := false;
      step := Controller.FirstStep;
    }
  }
}
