/**
 * slack.go: `prepareMessage`, the option list handed to the Slack client
 * for a message and its target. A reply through a response URL carries
 * the replace/delete flags and the URL; any other message does not.
 */
module SlackApi {
  import opened Types
  import opened Calls

  method PrepareMessage(msg: Msg, opts: MessageOptions) returns (options: seq<MsgOption>)
    ensures |options| >= 3 && options[..3] == LeadingOptions(msg)
    ensures opts.responseURL == "" ==> options == LeadingOptions(msg)
    ensures opts.responseURL != "" ==>
      && |options| == 4 + Flag(msg.replaceOriginal) + Flag(msg.deleteOriginal)
      && (options[3] == OptionReplaceOriginal(opts.responseURL) <==> msg.replaceOriginal)
      && (options[|options| - 2] == OptionDeleteOriginal(opts.responseURL) <==> msg.deleteOriginal)
      && options[|options| - 1] == OptionResponseURL(opts.responseURL, msg.responseType)
    ensures OptionPost !in options
  {
    options := [OptionBlocks(msg.blocks), OptionMetadata(msg.metadata), OptionText(msg.text, false)];
    if opts.responseURL == "" {
      return;
    }
    if msg.replaceOriginal {
      options := options + [OptionReplaceOriginal(opts.responseURL)];
    }
    if msg.deleteOriginal {
      options := options + [OptionDeleteOriginal(opts.responseURL)];
    }
    options := options + [OptionResponseURL(opts.responseURL, msg.responseType)];
  }
}
