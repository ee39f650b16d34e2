/** `with_confirmation` (src/main.rs): run the yes branch or the no branch. */
module Confirm {
  import opened Results

  /** What the user does at the prompt: answer yes or no, or press Enter to take the default. */
  datatype Reply = Answer(yes: bool) | Enter

  /** The prompt returns: it is skipped, answered, or has a default that Enter takes.
      (Enter at a prompt with no default is ignored, and the prompt keeps waiting.) */
  predicate Answered(assumeYes: bool, default: Option<bool>, reply: Reply) {
    assumeYes || reply.Answer? || default.Some?
  }

  function WithConfirmation<T>(assumeYes: bool, default: Option<bool>, reply: Reply, yes: T, no: T): (r: T)
    requires Answered(assumeYes, default, reply)
    ensures assumeYes ==> r == yes
    ensures !assumeYes && reply.Answer? ==> r == if reply.yes then yes else no
    ensures !assumeYes && reply.Enter? ==> r == if default.value then yes else no
  {
    if !assumeYes then
      var confirmation := match reply case Answer(b) => b case Enter => default.value;
      if confirmation then yes else no
    else yes
  }
}
