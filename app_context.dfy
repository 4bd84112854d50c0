/**
 * context.go: the context a handler runs in. It starts flows (posting
 * the first message itself when the flow may update without an
 * interaction), opens modals, and hands a post-create step to a
 * background continuation whose descriptor says which message to update.
 */
module AppContext {
  import opened Wrappers
  import opened Types
  import opened Errors
  import opened Flows
  import opened Builder
  import opened Calls
  import Metadata

  /** A `postCreateFlowFn` (the effect-at-start step); its code is outside the model. */
  datatype PostCreate = PostCreate(id: nat)

  /** What `Flow.renderFresh` returns on success: the message and an optional post-create step. */
  datatype Rendered = Rendered(msg: Message, post: Option<PostCreate>)

  /** `Flow.renderFresh`, which is not part of this model. */
  type FreshRenderer = (Flow, Props, SourceInfo, MessageOptions, bool) -> Result<Rendered>

  /** `post(ctx, meta, async)`, which is not part of this model. */
  type PostRunner = (PostCreate, Metadata.JetMetadata, AsyncStateData) -> Result<Message>

  /**
   * The goroutine createWithPost starts: the step to run, the message it
   * was rendered with, and the descriptor of where the result goes.
   */
  datatype Continuation = Continuation(post: PostCreate, orig: Message, async: AsyncStateData)

  /**
   * The descriptor of the message just created. When the platform gives no
   * timestamp (a reply through a response URL), the message's metadata and
   * the response URL travel in the descriptor instead.
   */
  function PostDescriptor(opts: MessageOptions, ts: string, meta: SlackMetadata): (a: AsyncStateData)
    ensures a.teamID == opts.teamID && a.userID == opts.userID && a.channelID == opts.channelID
    ensures a.messageTS == ts && !a.isHome && a.hookID == 0
    ensures a.metadata.Some? <==> ts == ""
    ensures ts == "" ==> a.metadata == Some(meta) && a.responseURL == opts.responseURL
    ensures ts != "" ==> a.responseURL == ""
  {
    if ts == "" then AsyncStateData(opts.teamID, opts.userID, opts.channelID, ts, opts.responseURL, false, Some(meta), 0)
    else AsyncStateData(opts.teamID, opts.userID, opts.channelID, ts, "", false, None, 0)
  }

  /**
   * `createWithPost` for the options `opts`: one create call, whose failure
   * is the result; a continuation is started exactly when there is a
   * post-create step and the create succeeded.
   */
  function CreateWithPost(opts: MessageOptions, m: Message, post: Option<PostCreate>, io: Io): (r: (Run, Option<Continuation>))
    ensures r.0 == Final(CreateMessage(m.msg, opts), io)
    ensures r.1.Some? <==> post.Some? && io.createMessage(m.msg, opts).Ok?
    ensures r.1.Some? ==> r.1.value == Continuation(post.value, m, PostDescriptor(opts, io.createMessage(m.msg, opts).value, m.msg.metadata))
  {
    var run := Final(CreateMessage(m.msg, opts), io);
    match io.createMessage(m.msg, opts)
    case Err(_) => (run, None)
    case Ok(ts) =>
      if post.None? then (run, None)
      else (run, Some(Continuation(post.value, m, PostDescriptor(opts, ts, m.msg.metadata))))
  }

  /** Where the continuation's update goes. */
  function PostTarget(a: AsyncStateData): MessageOptions {
    MessageOptions(a.teamID, a.channelID, a.messageTS, a.responseURL, "")
  }

  /**
   * `processPostFlow`: decodes the original message's metadata, runs the
   * post-create step and updates the message of the descriptor with its
   * result; the first error stops it.
   */
  function ProcessPostFlow(cont: Continuation, codec: Metadata.Codec, runPost: PostRunner, io: Io): (r: Run)
    ensures Metadata.Deserialize(cont.orig.msg.metadata, "", codec).Err? ==>
      r == Stopped(Metadata.Deserialize(cont.orig.msg.metadata, "", codec).error)
    ensures Metadata.Deserialize(cont.orig.msg.metadata, "", codec).Ok? ==>
      var posted := runPost(cont.post, Metadata.Deserialize(cont.orig.msg.metadata, "", codec).value, cont.async);
      && (posted.Err? ==> r == Stopped(posted.error))
      && (posted.Ok? ==> r == Final(UpdateMessage(posted.value.msg, PostTarget(cont.async)), io))
  {
    match Metadata.Deserialize(cont.orig.msg.metadata, "", codec)
    case Err(e) => Stopped(e)
    case Ok(meta) =>
      match runPost(cont.post, meta, cont.async)
      case Err(e) => Stopped(e)
      case Ok(m) => Final(UpdateMessage(m.msg, PostTarget(cont.async)), io)
  }

  /**
   * The continuation updates the very message it followed: by channel and
   * timestamp when the platform returned one, otherwise through the
   * response URL the message was created with.
   */
  lemma PostUpdatesCreatedMessage(opts: MessageOptions, m: Message, post: PostCreate, io: Io)
    requires io.createMessage(m.msg, opts).Ok?
    ensures var cont := CreateWithPost(opts, m, Some(post), io).1;
      var ts := io.createMessage(m.msg, opts).value;
      && cont.Some?
      && PostTarget(cont.value.async).teamID == opts.teamID
      && PostTarget(cont.value.async).channelID == opts.channelID
      && (ts != "" ==> PostTarget(cont.value.async) == MessageOptions(opts.teamID, opts.channelID, ts, "", ""))
      && (ts == "" ==> PostTarget(cont.value.async) == MessageOptions(opts.teamID, opts.channelID, "", opts.responseURL, ""))
  {
  }

  /** `appContext`. */
  class AppContext {
    const app: App
    var msgOpts: MessageOptions
    const source: SourceInfo
    const isHome: bool

    constructor (app: App, msgOpts: MessageOptions, source: SourceInfo, isHome: bool)
      ensures this.app == app && this.msgOpts == msgOpts && this.source == source && this.isHome == isHome
    {
      this.app := app;
      this.msgOpts := msgOpts;
      this.source := source;
      this.isHome := isHome;
    }

    /** `renderFlow`: "unknown flow" for an unregistered handle, else the flow and what it rendered. */
    function RenderFlow(handle: FlowHandle, props: Props, renderFresh: FreshRenderer): (r: Result<(Flow, Rendered)>)
      reads this
      ensures handle !in app.flows ==> r == Err(UnknownFlow)
      ensures r.Ok? <==> handle in app.flows && renderFresh(app.flows[handle], props, source, msgOpts, isHome).Ok?
      ensures r.Ok? ==> r.value == (app.flows[handle], renderFresh(app.flows[handle], props, source, msgOpts, isHome).value)
      ensures handle in app.flows && r.Err? ==> r.error == renderFresh(app.flows[handle], props, source, msgOpts, isHome).error
    {
      if handle !in app.flows then Err(UnknownFlow)
      else
        var f := app.flows[handle];
        match renderFresh(f, props, source, msgOpts, isHome)
        case Err(e) => Err(e)
        case Ok(x) => Ok((f, x))
    }

    /**
     * `StartFlow`. A flow that may update on its own is posted here (which
     * needs a channel, and never through the response URL, which is cleared
     * for the rest of this context); otherwise the message is returned to be
     * sent as the handler's reply, which cannot carry a post-create step.
     */
    method StartFlow(handle: FlowHandle, props: Props, renderFresh: FreshRenderer, io: Io)
      returns (msg: Option<Message>, run: Run, cont: Option<Continuation>)
      modifies this
      ensures var rendered := old(RenderFlow(handle, props, renderFresh));
        && (rendered.Err? ==> msg.None? && run == Stopped(rendered.error) && cont.None? && msgOpts == old(msgOpts))
        && (rendered.Ok? && rendered.value.0.canUpdateWithoutInteraction && old(msgOpts).channelID == "" ==>
              msg.None? && run == Stopped(MissingChannelID) && cont.None? && msgOpts == old(msgOpts))
        && (rendered.Ok? && rendered.value.0.canUpdateWithoutInteraction && old(msgOpts).channelID != "" ==>
              && msgOpts == old(msgOpts).(responseURL := "")
              && msg.None?
              && (run, cont) == CreateWithPost(msgOpts, rendered.value.1.msg, rendered.value.1.post, io))
        && (rendered.Ok? && !rendered.value.0.canUpdateWithoutInteraction && rendered.value.1.post.Some? ==>
              msg.None? && run == Stopped(EffectWithoutUpdate) && cont.None? && msgOpts == old(msgOpts))
        && (rendered.Ok? && !rendered.value.0.canUpdateWithoutInteraction && rendered.value.1.post.None? ==>
              msg == Some(rendered.value.1.msg) && run == Run([], Pass) && cont.None? && msgOpts == old(msgOpts))
      ensures msg.Some? ==> run == Run([], Pass) && cont.None?
      ensures cont.Some? ==> cont.value.async.responseURL == ""
    {
      var rendered := RenderFlow(handle, props, renderFresh);
      if rendered.Err? {
        return None, Stopped(rendered.error), None;
      }
      var (f, x) := rendered.value;
      if f.canUpdateWithoutInteraction {
        if msgOpts.channelID == "" {
          return None, Stopped(MissingChannelID), None;
        }
        msgOpts := msgOpts.(responseURL := "");
        run, cont := CreateWithPost(msgOpts, x.msg, x.post, io).0, CreateWithPost(msgOpts, x.msg, x.post, io).1;
        msg := None;
      } else if x.post.Some? {
        return None, Stopped(EffectWithoutUpdate), None;
      } else {
        msg, run, cont := Some(x.msg), Run([], Pass), None;
      }
    }

    /** `OpenModal`: "message is not a modal" unless it carries a modal configuration. */
    function OpenModal(m: Message, triggerID: string, io: Io): (r: Run)
      reads this
      ensures m.modal.None? ==> r == Stopped(NotAModal)
      ensures m.modal.Some? ==> r == Final(OpenView(m.msg, m.modal.value, triggerID, msgOpts), io)
    {
      if m.modal.None? then Stopped(NotAModal)
      else Final(OpenView(m.msg, m.modal.value, triggerID, msgOpts), io)
    }

    /**
     * `StartFlowAndPost`: always posts, whatever the flow's update policy,
     * with the context's options as they are.
     */
    function StartFlowAndPost(handle: FlowHandle, props: Props, renderFresh: FreshRenderer, io: Io): (r: (Run, Option<Continuation>))
      reads this
      ensures RenderFlow(handle, props, renderFresh).Err? ==> r == (Stopped(RenderFlow(handle, props, renderFresh).error), None)
      ensures RenderFlow(handle, props, renderFresh).Ok? ==>
        var x := RenderFlow(handle, props, renderFresh).value.1;
        r == CreateWithPost(msgOpts, x.msg, x.post, io)
    {
      match RenderFlow(handle, props, renderFresh)
      case Err(e) => (Stopped(e), None)
      case Ok((_, x)) => CreateWithPost(msgOpts, x.msg, x.post, io)
    }
  }

  /**
   * Starting a flow that may update on its own posts the same message as
   * StartFlowAndPost would, but with the response URL cleared.
   */
  method StartFlowPostsWithoutResponseURL(app: App, opts: MessageOptions, source: SourceInfo, isHome: bool,
                                          handle: FlowHandle, props: Props, renderFresh: FreshRenderer, io: Io)
    returns (started: Run, posted: Run)
    requires handle in app.flows && app.flows[handle].canUpdateWithoutInteraction && opts.channelID != ""
    requires renderFresh(app.flows[handle], props, source, opts, isHome).Ok?
    ensures var x := renderFresh(app.flows[handle], props, source, opts, isHome).value;
      && started.calls == [CreateMessage(x.msg.msg, opts.(responseURL := ""))]
      && posted.calls == [CreateMessage(x.msg.msg, opts)]
  {
    var a := new AppContext(app, opts, source, isHome);
    var b := new AppContext(app, opts, source, isHome);
    var msg, cont;
    msg, started, cont := a.StartFlow(handle, props, renderFresh, io);
    posted := b.StartFlowAndPost(handle, props, renderFresh, io).0;
  }
}
