/**
 * context_handlers.go: the older handler context. Flows render a bare
 * `slack.Msg` with no post-create step; a flow that may update on its own
 * is posted by the context, any other is returned as the reply.
 */
module ContextHandlers {
  import opened Wrappers
  import opened Types
  import opened Errors
  import opened Flows
  import opened Builder
  import opened Calls

  /** `Flow.renderFresh(ctx)`, which is not part of this model. */
  type FreshRenderer = Flow -> Result<Msg>

  /** The older `appContext`. */
  class AppContext {
    const app: App
    var msgOpts: MessageOptions

    constructor (app: App, msgOpts: MessageOptions)
      ensures this.app == app && this.msgOpts == msgOpts
    {
      this.app := app;
      this.msgOpts := msgOpts;
    }

    /** `renderFlow`: "unknown flow" for an unregistered handle, else the flow and its message. */
    function RenderFlow(handle: FlowHandle, renderFresh: FreshRenderer): (r: Result<(Flow, Msg)>)
      ensures handle !in app.flows ==> r == Err(UnknownFlow)
      ensures r.Ok? <==> handle in app.flows && renderFresh(app.flows[handle]).Ok?
      ensures r.Ok? ==> r.value == (app.flows[handle], renderFresh(app.flows[handle]).value)
      ensures handle in app.flows && r.Err? ==> r.error == renderFresh(app.flows[handle]).error
    {
      if handle !in app.flows then Err(UnknownFlow)
      else
        var f := app.flows[handle];
        match renderFresh(f)
        case Err(e) => Err(e)
        case Ok(m) => Ok((f, m))
    }

    /**
     * `StartFlow`: a flow that may update on its own is created here, in
     * the channel and not through the response URL, which is cleared;
     * any other flow's message is returned and nothing is created.
     */
    method StartFlow(handle: FlowHandle, renderFresh: FreshRenderer, io: Io) returns (msg: Option<Msg>, run: Run)
      modifies this
      ensures var rendered := RenderFlow(handle, renderFresh);
        && (rendered.Err? ==> msg.None? && run == Stopped(rendered.error) && msgOpts == old(msgOpts))
        && (rendered.Ok? && rendered.value.0.canUpdateWithoutInteraction && old(msgOpts).channelID == "" ==>
              msg.None? && run == Stopped(MissingChannelID) && msgOpts == old(msgOpts))
        && (rendered.Ok? && rendered.value.0.canUpdateWithoutInteraction && old(msgOpts).channelID != "" ==>
              msg.None? && msgOpts == old(msgOpts).(responseURL := "") &&
              run == Final(CreateMessage(rendered.value.1, msgOpts), io))
        && (rendered.Ok? && !rendered.value.0.canUpdateWithoutInteraction ==>
              msg == Some(rendered.value.1) && run == Run([], Pass) && msgOpts == old(msgOpts))
      ensures forall c :: c in run.calls ==> c.CreateMessage? && c.opts.responseURL == ""
    {
      var rendered := RenderFlow(handle, renderFresh);
      if rendered.Err? {
        return None, Stopped(rendered.error);
      }
      var (f, m) := rendered.value;
      if f.canUpdateWithoutInteraction {
        if msgOpts.channelID == "" {
          return None, Stopped(MissingChannelID);
        }
        msgOpts := msgOpts.(responseURL := "");
        return None, Final(CreateMessage(m, msgOpts), io);
      }
      return Some(m), Run([], Pass);
    }

    /** `StartFlowWithPost`: creates the message whatever the flow's policy, with the options unchanged. */
    function StartFlowWithPost(handle: FlowHandle, renderFresh: FreshRenderer, io: Io): (r: Run)
      reads this
      ensures RenderFlow(handle, renderFresh).Err? ==> r == Stopped(RenderFlow(handle, renderFresh).error)
      ensures RenderFlow(handle, renderFresh).Ok? ==> r == Final(CreateMessage(RenderFlow(handle, renderFresh).value.1, msgOpts), io)
    {
      match RenderFlow(handle, renderFresh)
      case Err(e) => Stopped(e)
      case Ok((_, m)) => Final(CreateMessage(m, msgOpts), io)
    }
  }

  /**
   * A flow rendered by both entry points: StartFlowWithPost sends it with
   * the context's response URL, StartFlow on a self-updating flow without.
   */
  method StartFlowClearsResponseURL(app: App, opts: MessageOptions, handle: FlowHandle, renderFresh: FreshRenderer, io: Io)
    returns (started: Run, posted: Run)
    requires handle in app.flows && app.flows[handle].canUpdateWithoutInteraction && opts.channelID != ""
    requires renderFresh(app.flows[handle]).Ok?
    ensures started.calls == [CreateMessage(renderFresh(app.flows[handle]).value, opts.(responseURL := ""))]
    ensures posted.calls == [CreateMessage(renderFresh(app.flows[handle]).value, opts)]
  {
    var a := new AppContext(app, opts);
    var b := new AppContext(app, opts);
    var msg;
    msg, started := a.StartFlow(handle, renderFresh, io);
    posted := b.StartFlowWithPost(handle, renderFresh, io);
  }
}
