/** One command sent to Redis, as its sender experiences it. */
module RedisCommands {

  /** The command ran and was answered; it never ran; it ran but its answer was lost.  The sender sees
      the same error in the last two cases. */
  datatype Network = Answered | NeverRan | AnswerLost
}
