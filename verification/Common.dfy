/** Small shared datatypes. */
module Common {

  datatype Option<+T> = None | Some(value: T)

  type ActionId = nat
  type ResourceId = nat
  type RunnerId = nat
  type TaskId = nat
  type RunId = nat
  type PlanStepId = nat
  type CompletionId = nat
  type Token = nat
  type Time = int
}
