/**
 * The Slack Web API calls the app makes (slack.go: getMessage,
 * createMessage, updateMessage, publishView, openView) as recorded
 * actions. What the platform answers is given by an `Io` value, so every
 * decision the code takes on an answer is modelled while no call is made.
 */
module Calls {
  import opened Types
  import opened Errors

  datatype Call =
    | GetMessage(teamID: string, channelID: string, messageTS: string)
    | CreateMessage(msg: Msg, opts: MessageOptions)
    | UpdateMessage(msg: Msg, opts: MessageOptions)
    | PublishView(msg: Msg, opts: MessageOptions)
    | OpenView(msg: Msg, modal: ModalConfig, triggerID: string, opts: MessageOptions)

  /** The platform's answer to each call: a message timestamp, a message, or failure. */
  datatype Io = Io(
    getMessage: (string, string, string) -> Result<Msg>,
    createMessage: (Msg, MessageOptions) -> Result<string>,
    updateMessage: (Msg, MessageOptions) -> Outcome,
    publishView: (Msg, MessageOptions) -> Outcome,
    openView: (Msg, ModalConfig, string, MessageOptions) -> Outcome)

  /** The calls one operation made, in order, and what it returned. */
  datatype Run = Run(calls: seq<Call>, outcome: Outcome)

  /** The result of a call that is the last thing an operation does. */
  function Answer(c: Call, io: Io): Outcome {
    match c
    case GetMessage(t, ch, ts) => if io.getMessage(t, ch, ts).Ok? then Pass else Fail(io.getMessage(t, ch, ts).error)
    case CreateMessage(m, o) => if io.createMessage(m, o).Ok? then Pass else Fail(io.createMessage(m, o).error)
    case UpdateMessage(m, o) => io.updateMessage(m, o)
    case PublishView(m, o) => io.publishView(m, o)
    case OpenView(m, cfg, trigger, o) => io.openView(m, cfg, trigger, o)
  }

  /** An operation that ends with exactly one call. */
  function Final(c: Call, io: Io): Run {
    Run([c], Answer(c, io))
  }

  /** An operation that stopped before calling anything. */
  function Stopped(e: Error): Run {
    Run([], Fail(e))
  }

  /** The options every `prepareMessage` starts with: blocks, metadata, unescaped text. */
  function LeadingOptions(msg: Msg): (r: seq<MsgOption>)
    ensures |r| == 3
  {
    [OptionBlocks(msg.blocks), OptionMetadata(msg.metadata), OptionText(msg.text, false)]
  }

  /** 1 for a set flag, 0 otherwise: how many options a flag adds. */
  function Flag(b: bool): nat {
    if b then 1 else 0
  }
}
