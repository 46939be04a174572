/** What becomes of a command to a store the gateway shares with others. */
module Commands {

  /** Answered; taken effect with the answer lost; or never carried out. */
  datatype Fate = Answered | ReplyLost | NotSent
}
