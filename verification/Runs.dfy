/** Quantities and conditions over the steps of a run. */
module Runs {
  import opened Machine

  // A quantity added up over the steps of a run.
  function Total(measure: (State, Action) -> int, s: State, actions: seq<Action>): int
    decreases |actions|
  {
    if actions == [] then 0
    else
      var earlier, last := actions[..|actions| - 1], actions[|actions| - 1];
      Total(measure, s, earlier) + measure(Run(s, earlier), last)
  }

  // The condition holds of every step the run takes.
  ghost predicate Throughout(holds: (State, Action) -> bool, s: State, actions: seq<Action>)
    decreases |actions|
  {
    actions == [] ||
    var earlier, last := actions[..|actions| - 1], actions[|actions| - 1];
    Throughout(holds, s, earlier) && holds(Run(s, earlier), last)
  }
}
