/**
 * app_api.go: the older `prepareMessage`. The replace/delete flags and
 * the response-URL option are always added, and a message with no
 * response URL is marked to be posted.
 */
module AppApi {
  import opened Types
  import opened Calls
  import SlackApi

  method PrepareMessage(msg: Msg, opts: MessageOptions) returns (options: seq<MsgOption>)
    ensures |options| == 4 + Flag(msg.replaceOriginal) + Flag(msg.deleteOriginal) + Flag(opts.responseURL == "")
    ensures options[..3] == LeadingOptions(msg)
    ensures (options[3] == OptionReplaceOriginal(opts.responseURL) <==> msg.replaceOriginal)
    ensures (options[2 + Flag(msg.replaceOriginal) + Flag(msg.deleteOriginal)] == OptionDeleteOriginal(opts.responseURL)) <==> msg.deleteOriginal
    ensures options[3 + Flag(msg.replaceOriginal) + Flag(msg.deleteOriginal)] == OptionResponseURL(opts.responseURL, msg.responseType)
    ensures (OptionPost in options <==> opts.responseURL == "")
    ensures opts.responseURL == "" ==> options[|options| - 1] == OptionPost
  {
    options := [OptionBlocks(msg.blocks), OptionMetadata(msg.metadata), OptionText(msg.text, false)];
    if msg.replaceOriginal {
      options := options + [OptionReplaceOriginal(opts.responseURL)];
    }
    if msg.deleteOriginal {
      options := options + [OptionDeleteOriginal(opts.responseURL)];
    }
    options := options + [OptionResponseURL(opts.responseURL, msg.responseType)];
    if opts.responseURL == "" {
      options := options + [OptionPost];
    }
  }

  /**
   * With a response URL the two builders agree; without one the older
   * builder still adds the flags and the (empty) URL and asks for a post,
   * where the newer one stops after the leading three.
   */
  method CompareBuilders(msg: Msg, opts: MessageOptions) returns (older: seq<MsgOption>, newer: seq<MsgOption>)
    ensures opts.responseURL != "" ==> older == newer
    ensures opts.responseURL == "" ==> |newer| == 3 && |older| >= 5 && older[..3] == newer
  {
    older := PrepareMessage(msg, opts);
    newer := SlackApi.PrepareMessage(msg, opts);
    if opts.responseURL != "" {
      assert |older| == |newer|;
      forall k | 0 <= k < |older|
        ensures older[k] == newer[k]
      {
        if k < 3 {
          assert older[k] == older[..3][k] && newer[k] == newer[..3][k];
        }
      }
    }
  }
}
