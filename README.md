# StudyPals wizard controller, in Dafny

This project models the non-rendering logic of the study-pal finder, a
single-page React app. The `App` component holds ten state cells:
- `isSearching`, `showQuestions` and `step`, where `step` runs from 1 to 5;
- the five answers: name, schedule, courses, group size and difficulty;
- `error` and `foundMatch`.

Its handlers change these cells:
- `handleFindBuddy`, `handleNext` and `handleBack`;
- the five `onChange` setters;
- `handleSubmit`, which builds a request body, waits for the matching
  service, and then either stores the match and navigates to the results page
  or stores an error message.

The results page shows the match carried by the navigation if there is one,
else the one held in memory. With neither, it shows an empty state.

Modules:
- `Values`: the answers (`Form`), the match record, and `Option`.
- `Selection`: the two pure selections. `ErrorMessage` picks the failure
  message. `FinalMatch` and `ResultsView` pick what the results page shows.
- `Payload`: the request body, modelled as the JSON object it encodes, and a
  decoder that is its partner.
- `Controller`: the cells as one `State` record, with one function per
  handler giving the state after it. Also `Apply` and `Run` over a sequence of
  events, and the invariants they keep.
- `Session`: which handlers the home page actually lets a user reach (the
  disabled and conditionally rendered buttons and inputs), plus the number of
  requests in flight. It proves the invariant of every user-driven run.
- `App`: the class `Wizard`. Its fields are the state cells and its methods
  are the handlers. It updates fields in place in the order the handler calls
  its setters. Each method is proved to produce exactly the state given by the
  matching `Controller` function.

The async `handleSubmit` is split in two. `SubmitBegin` is the synchronous
start and returns the request body. `SubmitSucceed(m)` or `SubmitFail(f)` is
the completion. Its input is what the service answered:
- on success, the response's `match` field (which may be missing);
- on failure, `NotOk(data?.error)` for a non-success status, or
  `Rejected(err.message)` when the request or the body parse threw.

Where the code and the design description differ, the model follows the code.
The differences:
- The design says the failure message is the service's reason, else the
  generic fallback. The code puts a second fallback in between: a non-success
  response with no usable reason gives `Unable to find a match right now.`
  (`Selection.ErrorMessage`).
- The design says the failure message is shown again on the questions screen.
  In the code it never appears. The error text is rendered only inside the
  questions section, and the only handler that shows that section clears the
  error (`Session.ErrorNeverShown`).
- The design says a transport failure shows the generic fallback. In the
  code a rejected request (a failed `fetch`, an unparsable body) shows its
  own `err.message` when that is non-empty, so the generic fallback
  `Something went wrong. Please try again.` is reached only for an error
  with an empty or missing message (`Selection.ErrorMessage`).
- The design says `submit` is valid only at step 5. The handler itself has no
  guard. Only the page enforces this, by rendering the submit button at the
  last step (`Session.SubmitOnlyAtLastStep`).
- The design asks for a session token against stale responses. The code has
  none, and the raw handlers do let a stale response overwrite a new session
  (`Controller.StaleFailureOverwrites`, `Controller.StaleSuccessOverwrites`).
  From the page this cannot happen, because the find button is disabled while
  a search runs (`Session.ResponsesNeverStale`).
- The design says a failure sets no match. The code leaves `foundMatch`
  unchanged. In user-driven runs it is already empty at that point
  (`Session.ResponseOutcomes`).
- The design treats the group size as a number 1 to 4. The code keeps it as a
  string, `'2'` by default. The select offers only `"1"` to `"4"`
  (`Session.SelectsStayOffered`).

## Model

| member | source | states |
|---|---|---|
| `Values.WithField` | src/App.jsx:293-297 | a setter writes its own answer and leaves the other four as they were |
| `Selection.ErrorMessage` | src/App.jsx:259-265 | the failure message is never empty; a non-empty server reason is used verbatim; a non-success response without one gives the non-success fallback; a rejected request with a non-empty `err.message` shows that message; one without gives the generic fallback |
| `Selection.ErrorMessageIsFirstNonEmpty` | src/App.jsx:260-265 | the chosen message is the first non-empty value among the server reason, the non-success fallback (non-success only) and the error's message, with the generic fallback last |
| `Selection.FinalMatch` | src/App.jsx:5-7 | the navigation's match is preferred, else the in-memory match; the result is missing exactly when both are |
| `Selection.ResultsView` | src/App.jsx:12-41 | the results page is total: it shows the empty state exactly when both sources are missing, and otherwise the card of the preferred match |
| `Payload.RequestPayload` | src/App.jsx:250-256 | the body has exactly the keys name, schedule, courses, group_size and difficulty; the group size goes under `group_size`, not `groupSize`; each value is the current answer |
| `Payload.DecodeForm` | src/App.jsx:250-256 | a body decodes to the answers exactly when it has all five request keys |
| `Payload.DecodeRequestPayload` | src/App.jsx:250-256 | decoding the request body gives back the answers it was built from |
| `Payload.RequestPayloadOfDecoded` | src/App.jsx:250-256 | a body with exactly the request keys is the request body of the answers it decodes to |
| `Controller.AfterFindBuddy` | src/App.jsx:226-232 | starting a search shows the questions at step 1, is not searching, and clears the match and the error, keeping all five answers |
| `Controller.AfterNext` | src/App.jsx:234-236 | Next adds one below step 5, gives step 5 at or above it (so no effect at 5), and changes nothing but the step |
| `Controller.AfterBack` | src/App.jsx:238-240 | Back subtracts one above step 1, gives step 1 at or below it (so no effect at 1), and changes nothing but the step |
| `Controller.AfterEdit` | src/App.jsx:293-297 | a setter writes its answer; the other answers and every other cell are unchanged |
| `Controller.AfterSubmitBegin` | src/App.jsx:242-245 | submitting sets searching, hides the questions and clears the error; the step, answers and match are unchanged |
| `Controller.AfterSucceed` | src/App.jsx:262-268 | a success stores the response's match, ends the search and returns to step 1; the error, answers and question visibility are unchanged |
| `Controller.AfterFail` | src/App.jsx:264-268 | a failure sets the error to the non-empty chosen message, ends the search and returns to step 1; the match, answers and question visibility are unchanged |
| `Controller.ApplyKeepsInv` | src/App.jsx:214-269 | every handler and completion keeps the step in 1..5 and never lets searching and showing the questions hold together |
| `Controller.RunKeepsInv` | src/App.jsx:214-269 | that invariant holds after any sequence of events |
| `Controller.ReachableStatesKeepInv` | src/App.jsx:214-269 | from the initial cells, any order of handlers and completions keeps the step in 1..5 and the two flags exclusive |
| `Controller.AnswersPersist` | src/App.jsx:226-269 | any sequence of events without an edit leaves all five answers unchanged |
| `Controller.StaleFailureOverwrites` | src/App.jsx:226-268 | a failure for a request started before a new session sets that session's error and resets its step while it shows the questions |
| `Controller.StaleSuccessOverwrites` | src/App.jsx:226-268 | a success for a request started before a new session puts its match back into the session that had just cleared it |
| `Controller.SuccessIsShown` | src/App.jsx:262-263 | after a success the results page shows the new match, whether it is read from the navigation or, with that state lost, from memory |
| `Session.Enabled` | src/App.jsx:85-190 | which handler the page lets a user fire in each state: find exactly when not searching; Back, Next, Submit and the inputs only with the questions shown; each input only at its own step and with an offered value; Back not at step 1; Next below step 5 and Submit at or above it; a response only while a request is in flight |
| `Session.NextOrSubmit` | src/App.jsx:182-190 | while the questions are shown, exactly one of Next and Submit is offered |
| `Session.StartUiInv` | src/App.jsx:214-223 | the initial cells satisfy the user-run invariant |
| `Session.PerformKeepsUiInv` | src/App.jsx:85-190 | every event the page enables keeps: the controller invariant; exactly one request in flight while searching; no match and no error while the questions show or a search runs; both select answers among their options |
| `Session.UiRunKeepsUiInv` | src/App.jsx:85-190 | the user-run invariant holds after any sequence of enabled events |
| `Session.ReachableUiInv` | src/App.jsx:85-190 | every state a user can reach from the start satisfies the user-run invariant |
| `Session.SubmitOnlyAtLastStep` | src/App.jsx:182-190 | the page offers Submit only at step 5 |
| `Session.EnabledMovesAreExact` | src/App.jsx:175-185 | an enabled Next moves exactly one step forward and an enabled Back exactly one back; the clamps are never hit from the page |
| `Session.ResponsesNeverStale` | src/App.jsx:85-91 | since the find button is disabled while searching, any response finds the controller searching with the questions hidden and ends the only request in flight |
| `Session.ResponseOutcomes` | src/App.jsx:242-269 | in a user-driven run a failure leaves no match and sets the chosen message; a success stores its match and leaves the error empty |
| `Session.ErrorNeverShown` | src/App.jsx:97-172 | in no reachable state is the error text on screen: it is rendered only with the questions, and showing them clears it |
| `Session.SelectsStayOffered` | src/App.jsx:152-168 | in every reachable state the group size and difficulty are among the options their selects offer |
| `App.Wizard.constructor` | src/App.jsx:214-223 | the cells start at their initial values and satisfy the invariant |
| `App.Wizard.FindBuddy` | src/App.jsx:226-232 | updates the cells in place to exactly `AfterFindBuddy` of the old cells and keeps the invariant |
| `App.Wizard.Next` | src/App.jsx:234-236 | updates the step in place to exactly `AfterNext` of the old cells |
| `App.Wizard.Back` | src/App.jsx:238-240 | updates the step in place to exactly `AfterBack` of the old cells |
| `App.Wizard.SetName` | src/App.jsx:293 | writes the name in place, as `AfterEdit` with `Name` describes |
| `App.Wizard.SetSchedule` | src/App.jsx:294 | writes the schedule in place, as `AfterEdit` with `Schedule` describes |
| `App.Wizard.SetCourses` | src/App.jsx:295 | writes the courses in place, as `AfterEdit` with `Courses` describes |
| `App.Wizard.SetGroupSize` | src/App.jsx:296 | writes the group size in place, as `AfterEdit` with `GroupSize` describes |
| `App.Wizard.SetDifficulty` | src/App.jsx:297 | writes the difficulty in place, as `AfterEdit` with `Difficulty` describes |
| `App.Wizard.SubmitBegin` | src/App.jsx:242-256 | updates the cells to `AfterSubmitBegin` and returns the request body of the answers at submit time |
| `App.Wizard.SubmitSucceed` | src/App.jsx:262-268 | updates the cells to `AfterSucceed` and returns the navigation to `/results` carrying the match |
| `App.Wizard.SubmitFail` | src/App.jsx:264-268 | updates the cells to `AfterFail`, with the message chosen as `ErrorMessage` chooses it |

## Left out

- Rendering: the JSX, CSS classes, labels and placeholders are presentation only. The page is modelled only through which handlers it lets a user reach (`Session.Enabled`) and where the error text and results card appear.
- Transport: the `fetch` call, `JSON.stringify`, `response.json()` and HTTP status handling are I/O. Their outcome is an input to `SubmitSucceed` or `SubmitFail`.
- The order of keys in the serialized request body is not modelled. The body is a map from key to value.
- A non-string truthy `error` field in a failure body is not modelled. `new Error(x)` would turn it into a string. The reason is modelled as an optional string.
- Routing: the router's internals (`useNavigate`, `useLocation`, `Routes`, `Link`) are a foreign library. Navigation is the `Navigation` value that `SubmitSucceed` returns. The results page's input is modelled as that value's optional match. Moving between the two routes is not modelled.
- Asynchrony: the `await` is not modelled. Each handler and each completion is one atomic update. React's batching of `setState` is not modelled either, so two submit clicks landing before the page re-renders are outside the model.
- Stale responses: the source has no session token, so the model has none. `Controller.StaleFailureOverwrites` and `Controller.StaleSuccessOverwrites` show what a stale completion does to the raw handlers.
