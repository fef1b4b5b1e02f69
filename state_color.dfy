/**
 * `getStateColor`, the badge classes for a work-item state. The root component
 * and the detail view carry identical copies of it.
 */
module StateColors {
  import opened JsText

  const ClosedColor: string := "bg-green-800 text-green-100 dark:bg-green-900 dark:text-green-200"
  const TestingColor: string := "bg-yellow-400 text-yellow-900 dark:bg-yellow-600 dark:text-yellow-100"
  const ToDoColor: string := "bg-green-500 text-white dark:bg-green-700 dark:text-green-100"
  const ReviewColor: string := "bg-red-600 text-white dark:bg-red-800 dark:text-red-100"
  const ActiveColor: string := "bg-blue-100 text-blue-700 dark:bg-blue-900/40 dark:text-blue-300"
  const RemovedColor: string := "bg-red-100 text-red-700 dark:bg-red-900/40 dark:text-red-300"
  const DefaultColor: string := "bg-gray-100 text-gray-800 dark:bg-slate-700 dark:text-slate-300"

  /** The lower-case states that get a colour of their own. */
  const ColoredStates: set<string> :=
    {"closed", "fechado", "testes", "testing", "resolved", "para fazer", "to do", "new", "revisão", "review", "active", "removed"}

  /** The colour of a state, compared in lower case. */
  function StateColor(state: string): (color: string)
    ensures color in {ClosedColor, TestingColor, ToDoColor, ReviewColor, ActiveColor, RemovedColor, DefaultColor}
    ensures color == ClosedColor <==> ToLower(state) == "closed" || ToLower(state) == "fechado"
    ensures color == DefaultColor <==> ToLower(state) !in ColoredStates
  {
    ColorOfLower(ToLower(state))
  }

  /** The comparisons of `getStateColor`, on the already lower-cased state. */
  function ColorOfLower(s: string): string
  {
    if s == "closed" || s == "fechado" then ClosedColor
    else if s == "testes" || s == "testing" || s == "resolved" then TestingColor
    else if s == "para fazer" || s == "to do" || s == "new" then ToDoColor
    else if s == "revisão" || s == "review" then ReviewColor
    else if s == "active" then ActiveColor
    else if s == "removed" then RemovedColor
    else DefaultColor
  }

  /** Only the lower-case form of the state matters. */
  lemma StateColorIgnoresCase(state: string)
    ensures StateColor(state) == StateColor(ToLower(state))
  {
    ToLowerIdempotent(state);
  }

  /** `resolved` shares the testing colour, while its Portuguese form `resolvido` falls back to the default. */
  lemma ResolvedColors(a: string, b: string)
    requires ToLower(a) == "resolved" && ToLower(b) == "resolvido"
    ensures StateColor(a) == TestingColor && StateColor(b) == DefaultColor
  {
  }
}
