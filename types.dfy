/**
 * Values the jet package and the Slack client library exchange: JSON
 * fragments, the message metadata channel, message and routing options.
 * Only the fields the modelled code reads or writes are kept.
 */
module Types {
  import opened Wrappers

  newtype byte = b: int | 0 <= b < 256

  /** `json.RawMessage`; the nil slice is the empty sequence. */
  type Raw = seq<byte>

  /** `FlowProps`: caller properties, each value kept as its JSON text. */
  type Props = map<string, Raw>

  /** `slackMetadataHook`: one ledger entry as it travels on the wire ("k", "d", "cb"). */
  datatype MetadataHook = MetadataHook(kind: string, data: Raw, callbackID: string)

  /** The wire part of `slackMetadataJet` ("f", "h", "p"); `Original` is not serialized. */
  datatype Envelope = Envelope(flow: string, hooks: seq<MetadataHook>, props: Props)

  /**
   * An `interface{}` value in an event payload: either the envelope struct that
   * serializeMetadata stores, or whatever JSON the platform echoed back.
   */
  datatype Value = EnvelopeValue(envelope: Envelope) | Foreign(json: Raw)

  /** `slack.SlackMetadata`. */
  datatype SlackMetadata = SlackMetadata(eventType: string, eventPayload: map<string, Value>)

  const NoMetadata := SlackMetadata("", map[])

  /** `SourceInfo`: who triggered the render. */
  datatype SourceInfo = SourceInfo(teamID: string, userID: string)

  /** `messageOptions`: where a message is posted, updated or published. */
  datatype MessageOptions = MessageOptions(
    teamID: string, channelID: string, messageTS: string, responseURL: string, userID: string)

  const NoOptions := MessageOptions("", "", "", "", "")

  /** `asyncStateData`: the continuation descriptor of a deferred update. */
  datatype AsyncStateData = AsyncStateData(
    teamID: string, userID: string, channelID: string, messageTS: string,
    responseURL: string, isHome: bool, metadata: Option<SlackMetadata>, hookID: nat)

  datatype Block = Block(id: nat)

  const ResponseTypeInChannel := "in_channel"
  const ResponseTypeEphemeral := "ephemeral"

  /** `slack.Msg`, restricted to the fields jet uses. */
  datatype Msg = Msg(
    msgType: string, responseType: string, text: string, timestamp: string, blocks: seq<Block>,
    metadata: SlackMetadata, replaceOriginal: bool, deleteOriginal: bool)

  const EmptyMsg := Msg("", "", "", "", [], NoMetadata, false, false)

  datatype ModalConfig = ModalConfig(title: string, submit: string, close: string)

  /** `Message`: a rendered `slack.Msg` and, when it is a modal, its configuration. */
  datatype Message = Message(msg: Msg, modal: Option<ModalConfig>)

  /** `slack.BlockAction`: one button or input event of an interaction. */
  datatype BlockAction = BlockAction(actionID: string, value: string)

  /** `slack.MsgOption`: the options handed to the Slack client when posting or updating. */
  datatype MsgOption =
    | OptionBlocks(blocks: seq<Block>)
    | OptionMetadata(metadata: SlackMetadata)
    | OptionText(text: string, escape: bool)
    | OptionReplaceOriginal(responseURL: string)
    | OptionDeleteOriginal(responseURL: string)
    | OptionResponseURL(responseURL: string, responseType: string)
    | OptionPost
}
