/** Values shared by the wizard controller, the request payload and the
    results view of the study-pal finder (src/App.jsx). */
module Values {

  /** A JavaScript value that may be missing (`undefined` or `null`). */
  datatype Option<+T> = None | Some(value: T)

  /** A pairing returned by the matching service; its fields are shown verbatim. */
  datatype Match = Match(name: string, course: string, time: string, vibe: string)

  /** The five answers the wizard collects, one per step. */
  datatype Form = Form(name: string, schedule: string, courses: string, groupSize: string, difficulty: string)

  /** The names of the five answers, in step order. */
  datatype Field = Name | Schedule | Courses | GroupSize | Difficulty

  /** The initial values of the five `useState` cells (src/App.jsx:218-222). */
  const DefaultForm := Form("", "", "", "2", "intro")

  /** The value of one answer. */
  function FieldOf(form: Form, f: Field): string
  {
    match f
    case Name => form.name
    case Schedule => form.schedule
    case Courses => form.courses
    case GroupSize => form.groupSize
    case Difficulty => form.difficulty
  }

  /** The form after one `onChange` setter wrote `v` into field `f`:
      that field holds `v`, every other field keeps its value. */
  function WithField(form: Form, f: Field, v: string): (r: Form)
    ensures FieldOf(r, f) == v
    ensures forall g :: g != f ==> FieldOf(r, g) == FieldOf(form, g)
  {
    match f
    case Name => form.(name := v)
    case Schedule => form.(schedule := v)
    case Courses => form.(courses := v)
    case GroupSize => form.(groupSize := v)
    case Difficulty => form.(difficulty := v)
  }
}
