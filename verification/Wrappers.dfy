/** Result types shared by the whole model: optional values and the outcome of a call that may throw. */
module Wrappers {

  datatype Option<+T> = None | Some(value: T)

  /** The std::runtime_errors thrown by the containers and the scheduler, by message constant. */
  datatype Refusal =
    | StoreFull            // ABSTRACT_POINTER_ARRAY_ILLEGAL_STORE_FULL
    | ConsumeEmpty         // ABSTRACT_POINTER_ARRAY_ILLEGAL_CONSUMPTION_EMPTY
    | RemoveAbsent         // CONSTANT_SIZED_POINTER_LIST_ILLEGAL_REMOVAL_OF_POINTER
    | AlreadyLinked        // DATA_PROCESSING_SCHEDULER_ILLEGAL_LINKING_OF_ALREADY_LINKED_BUFFER_MESSAGE
    | SchedulerStopped     // DATA_PROCESSING_SCHEDULER_ILLEGAL_LINKING_SCHEDULER_HAS_BEEN_STOPPED
    | TooManyInputs        // DATA_PROCESSING_SCHEDULER_ILLEGAL_NUMBER_OF_INPUT_BUFFER_MESSAGE
    | IllegalActivation    // DATA_PROCESSING_SCHEDULER_ILLEGAL_ACTIVATION_MESSAGE
    | IllegalDeactivation  // DATA_PROCESSING_SCHEDULER_ILLEGAL_DEACTIVATION_MESSAGE

  /** A call either returns a value or throws. */
  datatype Outcome<+V> = Returned(value: V) | Thrown(reason: Refusal)

  /** What a state-changing operation leaves behind: the new state and the outcome seen by the caller. */
  datatype Reply<+S, +V> = Reply(state: S, outcome: Outcome<V>)

  lemma Associate<T>(a: seq<T>, b: seq<T>, c: seq<T>)
    ensures a + b + c == a + (b + c)
  {
  }
}
