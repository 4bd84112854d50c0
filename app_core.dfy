/**
 * app.go: how the app routes slash commands, shortcuts, interactions and
 * async values to handlers and flows, and where the rendered result goes.
 * Handlers and the flow bodies are user code or not part of this model:
 * what they return is a parameter. Platform calls are recorded (`Calls`).
 */
module AppCore {
  import opened Wrappers
  import opened Types
  import opened Errors
  import opened Flows
  import opened Builder
  import opened Calls
  import Metadata
  import Stages

  /** The `appContext` a handler runs with: where replies go and who asked. */
  datatype Invocation = Invocation(msgOpts: MessageOptions, source: SourceInfo, isHome: bool)

  /** `slack.SlashCommand`, the fields the app reads. */
  datatype SlashCommand = SlashCommand(command: string, teamID: string, channelID: string, userID: string, responseURL: string)

  /** A handler's reply: a message (or none) or an error. */
  type SlashRunner = (SlashHandler, Invocation, SlashCommand) -> Result<Option<Message>>

  function SlashInvocation(slash: SlashCommand): Invocation {
    Invocation(
      MessageOptions(slash.teamID, slash.channelID, "", slash.responseURL, ""),
      SourceInfo(slash.teamID, slash.userID),
      false)
  }

  /** The registered handler, else the fallback handler, else "unknown command". */
  function ResolveSlash(app: App, slash: SlashCommand, run: SlashRunner): (r: Result<Option<Message>>)
    ensures slash.command in app.slashes ==> r == run(app.slashes[slash.command], SlashInvocation(slash), slash)
    ensures slash.command !in app.slashes && app.unknownSlash.Some? ==> r == run(app.unknownSlash.value, SlashInvocation(slash), slash)
    ensures slash.command !in app.slashes && app.unknownSlash.None? ==> r == Err(UnknownCommand)
  {
    if slash.command in app.slashes then run(app.slashes[slash.command], SlashInvocation(slash), slash)
    else if app.unknownSlash.Some? then run(app.unknownSlash.value, SlashInvocation(slash), slash)
    else Err(UnknownCommand)
  }

  /** The reply an error turns into: the app's formatter, or an ephemeral message with the error's text. */
  function ErrorReply(opts: Options, e: Error): (m: Message)
    ensures opts.errorFormatter.Some? ==> m == Message(opts.errorFormatter.value(e), None)
    ensures opts.errorFormatter.None? ==> m.msg.responseType == ResponseTypeEphemeral && m.msg.text == Text(e) && m.modal == None
    ensures opts.errorFormatter.None? ==> m.msg.blocks == [] && !m.msg.replaceOriginal && !m.msg.deleteOriginal
  {
    match opts.errorFormatter
    case Some(format) => Message(format(e), None)
    case None => Message(EmptyMsg.(responseType := ResponseTypeEphemeral, text := Text(e)), None)
  }

  /**
   * `HandleSlashCommand`: the handler's reply, or the error reply when it
   * failed; an error never goes unanswered.
   */
  function HandleSlashCommand(app: App, slash: SlashCommand, run: SlashRunner): (r: Option<Message>)
    ensures ResolveSlash(app, slash, run).Ok? ==> r == ResolveSlash(app, slash, run).value
    ensures ResolveSlash(app, slash, run).Err? ==> r == Some(ErrorReply(app.opts, ResolveSlash(app, slash, run).error))
  {
    match ResolveSlash(app, slash, run)
    case Ok(res) => res
    case Err(e) => Some(ErrorReply(app.opts, e))
  }

  /** An unregistered command with no fallback is answered with the "unknown command" reply. */
  lemma UnknownCommandReply(app: App, slash: SlashCommand, run: SlashRunner)
    requires slash.command !in app.slashes && app.unknownSlash.None? && app.opts.errorFormatter.None?
    ensures HandleSlashCommand(app, slash, run).Some?
    ensures HandleSlashCommand(app, slash, run).value.msg.text == "unknown command"
    ensures HandleSlashCommand(app, slash, run).value.msg.responseType == ResponseTypeEphemeral
  {
  }

  const VTHomeTab := "home"

  datatype InteractionType =
    | DialogCancellation | DialogSubmission | DialogSuggestion | InteractionMessage
    | MessageAction | BlockActions | BlockSuggestion | ViewSubmission | ViewClosed
    | ShortcutInteraction | WorkflowStepEdit
    | OtherInteraction(name: string)

  /** One entry of `ResponseURLs`. */
  datatype ResponseURLEntry = ResponseURLEntry(responseURL: string, channelID: string)

  /** `slack.InteractionCallback`, the fields the app reads. */
  datatype Interaction = Interaction(
    interactionType: InteractionType,
    teamID: string, userID: string, callbackID: string,
    responseURL: string, responseURLs: seq<ResponseURLEntry>,
    messageMetadata: SlackMetadata, messageTS: string, channelID: string,
    viewType: string, privateMetadata: string,
    actions: seq<BlockAction>)

  datatype Route =
    | MessageShortcutRoute
    | GlobalShortcutRoute
    | BlockActionsRoute
    | ViewSubmissionRoute
    | NotImplemented
    | Rejected(error: Error)

  /** The switch of `HandleInteraction`; `NotImplemented` marks the branches that panic. */
  function RouteInteraction(t: InteractionType): (r: Route)
    ensures r.Rejected? <==> t.OtherInteraction?
    ensures r.Rejected? ==> r.error == UnknownInteractionType
    ensures r == MessageShortcutRoute <==> t == MessageAction
    ensures r == GlobalShortcutRoute <==> t == ShortcutInteraction
    ensures r == BlockActionsRoute <==> t == BlockActions
    ensures r == ViewSubmissionRoute <==> t == ViewSubmission
  {
    match t
    case MessageAction => MessageShortcutRoute
    case BlockActions => BlockActionsRoute
    case ViewSubmission => ViewSubmissionRoute
    case ShortcutInteraction => GlobalShortcutRoute
    case OtherInteraction(_) => Rejected(UnknownInteractionType)
    case _ => NotImplemented
  }

  type ShortcutRunner = (ShortcutHandler, Invocation, Interaction) -> Outcome

  function ShortcutInvocation(i: Interaction): Invocation {
    Invocation(MessageOptions(i.teamID, "", "", i.responseURL, ""), SourceInfo(i.teamID, i.userID), false)
  }

  /** `handleShortcut`: the registered handler, else the fallback, else "unknown shortcut". */
  function HandleShortcut(app: App, shortcuts: map<string, ShortcutHandler>, i: Interaction, run: ShortcutRunner): (r: Outcome)
    ensures i.callbackID in shortcuts ==> r == run(shortcuts[i.callbackID], ShortcutInvocation(i), i)
    ensures i.callbackID !in shortcuts && app.unknownShortcut.Some? ==> r == run(app.unknownShortcut.value, ShortcutInvocation(i), i)
    ensures i.callbackID !in shortcuts && app.unknownShortcut.None? ==> r == Fail(UnknownShortcut)
  {
    if i.callbackID in shortcuts then run(shortcuts[i.callbackID], ShortcutInvocation(i), i)
    else if app.unknownShortcut.Some? then run(app.unknownShortcut.value, ShortcutInvocation(i), i)
    else Fail(UnknownShortcut)
  }

  /** `multiStageOptions`. */
  datatype MultiStageOptions = MultiStageOptions(
    meta: Metadata.JetMetadata, src: SourceInfo, isHome: bool, msgOpts: MessageOptions,
    async: AsyncStateData, betweenStages: Stages.BetweenStages)

  /**
   * `Flow.multiStageRender`, which is not part of this model: the message it
   * renders for a flow, the decoded metadata, the source, the async
   * descriptor and the between-stages mutation.
   */
  type StageRenderer = (Flow, Metadata.JetMetadata, SourceInfo, AsyncStateData, Stages.BetweenStages) -> Result<Message>

  /** The async descriptor multiStageRender hands the flow: the hook index is not carried over. */
  function StageAsync(opts: MultiStageOptions): (a: AsyncStateData)
    ensures a.teamID == opts.src.teamID && a.userID == opts.src.userID && a.isHome == opts.isHome
    ensures a.channelID == opts.async.channelID && a.messageTS == opts.async.messageTS
    ensures a.responseURL == opts.async.responseURL && a.metadata == opts.async.metadata
    ensures a.hookID == 0
  {
    AsyncStateData(opts.src.teamID, opts.src.userID, opts.async.channelID, opts.async.messageTS,
                   opts.async.responseURL, opts.isHome, opts.async.metadata, 0)
  }

  /** Where a rendered result goes: the Home tab of (team, user), or the message of `msgOpts`. */
  function Delivery(opts: MultiStageOptions, m: Message): (c: Call)
    ensures opts.isHome ==> c == PublishView(m.msg, MessageOptions(opts.src.teamID, "", "", "", opts.src.userID))
    ensures !opts.isHome ==> c == UpdateMessage(m.msg, opts.msgOpts)
  {
    if opts.isHome then PublishView(m.msg, MessageOptions(opts.src.teamID, "", "", "", opts.src.userID))
    else UpdateMessage(m.msg, opts.msgOpts)
  }

  /**
   * `multiStageRender`: "unknown flow" for a flow name not registered, the
   * flow's error with nothing delivered, otherwise exactly one delivery.
   */
  function MultiStageRender(app: App, opts: MultiStageOptions, render: StageRenderer, io: Io): (r: Run)
    ensures FlowHandle(opts.meta.flow) !in app.flows ==> r == Stopped(UnknownFlow)
    ensures FlowHandle(opts.meta.flow) in app.flows ==>
      var rendered := render(app.flows[FlowHandle(opts.meta.flow)], opts.meta, opts.src, StageAsync(opts), opts.betweenStages);
      && (rendered.Err? ==> r == Stopped(rendered.error))
      && (rendered.Ok? ==> r == Final(Delivery(opts, rendered.value), io))
  {
    var handle := FlowHandle(opts.meta.flow);
    if handle !in app.flows then Stopped(UnknownFlow)
    else
      match render(app.flows[handle], opts.meta, opts.src, StageAsync(opts), opts.betweenStages)
      case Err(e) => Stopped(e)
      case Ok(m) => Final(Delivery(opts, m), io)
  }

  /** A multi-stage render touches at most one message or view, and never both. */
  lemma AtMostOneDelivery(app: App, opts: MultiStageOptions, render: StageRenderer, io: Io)
    ensures |MultiStageRender(app, opts, render, io).calls| <= 1
    ensures forall c :: c in MultiStageRender(app, opts, render, io).calls ==>
      (c.PublishView? <==> opts.isHome) && (c.UpdateMessage? <==> !opts.isHome)
  {
  }

  /**
   * `handleBlockActions`: a metadata error stops before rendering; otherwise
   * the flow renders with the actions' callbacks triggered between passes.
   */
  function HandleBlockActions(app: App, i: Interaction, codec: Metadata.Codec, render: StageRenderer, io: Io): (r: Run)
    ensures Metadata.Deserialize(i.messageMetadata, i.privateMetadata, codec).Err? ==>
      r == Stopped(Metadata.Deserialize(i.messageMetadata, i.privateMetadata, codec).error)
    ensures Metadata.Deserialize(i.messageMetadata, i.privateMetadata, codec).Ok? ==>
      r == MultiStageRender(app, BlockActionsOptions(i, Metadata.Deserialize(i.messageMetadata, i.privateMetadata, codec).value), render, io)
  {
    match Metadata.Deserialize(i.messageMetadata, i.privateMetadata, codec)
    case Err(e) => Stopped(e)
    case Ok(meta) => MultiStageRender(app, BlockActionsOptions(i, meta), render, io)
  }

  /**
   * The options of a block-actions render: the reply goes through the
   * interaction's response URL, the Home tab when the view is one, and the
   * mutation is the actions' callbacks in order.
   */
  function BlockActionsOptions(i: Interaction, meta: Metadata.JetMetadata): (o: MultiStageOptions)
    ensures o.meta == meta && o.src == SourceInfo(i.teamID, i.userID) && o.isHome == (i.viewType == VTHomeTab)
    ensures o.msgOpts == MessageOptions(i.teamID, "", "", i.responseURL, "")
    ensures o.async.channelID == i.channelID && o.async.messageTS == i.messageTS
    ensures o.betweenStages == Stages.TriggerCallbacks(i.actions)
  {
    MultiStageOptions(
      meta, SourceInfo(i.teamID, i.userID), i.viewType == VTHomeTab,
      MessageOptions(i.teamID, "", "", i.responseURL, ""),
      AsyncStateData("", "", i.channelID, i.messageTS, "", false, None, 0),
      Stages.TriggerCallbacks(i.actions))
  }

  /** The reply target of a view submission: the first `ResponseURLs` entry, else the interaction's URL and no channel. */
  function ResponseTarget(i: Interaction): (string, string) {
    if |i.responseURLs| > 0 then (i.responseURLs[0].responseURL, i.responseURLs[0].channelID)
    else (i.responseURL, "")
  }

  /** The loop of handleViewSubmission over `ResponseURLs`, which stops after its first entry. */
  method FirstResponseTarget(i: Interaction) returns (url: string, channelID: string)
    ensures (url, channelID) == ResponseTarget(i)
    ensures |i.responseURLs| == 0 ==> url == i.responseURL && channelID == ""
  {
    url := i.responseURL;
    channelID := "";
    var k := 0;
    var found := false;
    while k < |i.responseURLs| && !found
      invariant k <= |i.responseURLs|
      invariant found <==> k == 1
      invariant !found ==> k == 0 && url == i.responseURL && channelID == ""
      invariant found ==> (url, channelID) == (i.responseURLs[0].responseURL, i.responseURLs[0].channelID)
      decreases |i.responseURLs| - k
    {
      url := i.responseURLs[k].responseURL;
      channelID := i.responseURLs[k].channelID;
      k := k + 1;
      found := true;
    }
  }

  type ViewRunner = (ViewSubmittedHandler, Invocation, Interaction) -> Outcome

  function ViewInvocation(i: Interaction): Invocation {
    var (url, channelID) := ResponseTarget(i);
    Invocation(MessageOptions(i.teamID, channelID, "", url, ""), SourceInfo(i.teamID, i.userID), false)
  }

  /** What handleViewSubmission returns. */
  function ViewSubmissionOutcome(app: App, i: Interaction, codec: Metadata.Codec, run: ViewRunner): Outcome {
    match Metadata.Deserialize(i.messageMetadata, i.privateMetadata, codec)
    case Err(e) => Fail(e)
    case Ok(meta) =>
      if meta.flow !in app.viewSubmitted then Fail(UnknownViewSubmission)
      else run(app.viewSubmitted[meta.flow], ViewInvocation(i), i)
  }

  /**
   * `handleViewSubmission`: the metadata error, or "unknown view submission"
   * when no handler is registered for the flow, or the handler's outcome
   * with the reply target of `ResponseTarget`.
   */
  method HandleViewSubmission(app: App, i: Interaction, codec: Metadata.Codec, run: ViewRunner) returns (r: Outcome)
    ensures r == ViewSubmissionOutcome(app, i, codec, run)
    ensures Metadata.Deserialize(i.messageMetadata, i.privateMetadata, codec).Ok? &&
            Metadata.Deserialize(i.messageMetadata, i.privateMetadata, codec).value.flow !in app.viewSubmitted ==>
            r == Fail(UnknownViewSubmission)
  {
    var meta := Metadata.Deserialize(i.messageMetadata, i.privateMetadata, codec);
    if meta.Err? {
      return Fail(meta.error);
    }
    if meta.value.flow !in app.viewSubmitted {
      return Fail(UnknownViewSubmission);
    }
    var handler := app.viewSubmitted[meta.value.flow];
    var url, channelID := FirstResponseTarget(i);
    r := run(handler, Invocation(MessageOptions(i.teamID, channelID, "", url, ""), SourceInfo(i.teamID, i.userID), false), i);
  }

  /** An app made by the builder has no view-submission handler, so every view submission fails. */
  lemma BuiltAppRejectsViewSubmissions(b: AppBuilder, opts: Options, i: Interaction, codec: Metadata.Codec, run: ViewRunner)
    ensures ViewSubmissionOutcome(b.Build(opts), i, codec, run).Fail?
    ensures Metadata.Deserialize(i.messageMetadata, i.privateMetadata, codec).Ok? ==>
      ViewSubmissionOutcome(b.Build(opts), i, codec, run) == Fail(UnknownViewSubmission)
  {
  }

  /**
   * The metadata an async value resumes: the fetched message's, or on a
   * failed fetch the descriptor's own copy when it carries one, else the
   * fetch error.
   */
  function AsyncMetadata(data: AsyncStateData, fetched: Result<Msg>, codec: Metadata.Codec): (r: Result<Metadata.JetMetadata>)
    ensures fetched.Ok? ==> r == Metadata.Deserialize(fetched.value.metadata, "", codec)
    ensures fetched.Err? && data.metadata.Some? ==> r == Metadata.Deserialize(data.metadata.value, "", codec)
    ensures fetched.Err? && data.metadata.None? ==> r == Err(fetched.error)
  {
    match fetched
    case Ok(msg) => Metadata.Deserialize(msg.metadata, "", codec)
    case Err(e) => if data.metadata.Some? then Metadata.Deserialize(data.metadata.value, "", codec) else Err(e)
  }

  /** The options of an async resumption: the descriptor says where, the mutation stores the value. */
  function AsyncOptions(data: AsyncStateData, meta: Metadata.JetMetadata, value: Raw): (o: MultiStageOptions)
    ensures o.meta == meta && o.src == SourceInfo(data.teamID, data.userID) && o.isHome == data.isHome
    ensures o.msgOpts == MessageOptions(data.teamID, data.channelID, data.messageTS, data.responseURL, "")
    ensures o.async == data && o.betweenStages == Stages.SetState(data.hookID, value)
  {
    MultiStageOptions(
      meta, SourceInfo(data.teamID, data.userID), data.isHome,
      MessageOptions(data.teamID, data.channelID, data.messageTS, data.responseURL, ""),
      data, Stages.SetState(data.hookID, value))
  }

  /**
   * `handleAsyncData`: fetches the message, picks the metadata by
   * `AsyncMetadata`, and renders with the value stored into hook `hookID`.
   */
  function HandleAsyncData(app: App, data: AsyncStateData, value: Raw, codec: Metadata.Codec, render: StageRenderer, io: Io): (r: Run)
    ensures |r.calls| >= 1 && r.calls[0] == GetMessage(data.teamID, data.channelID, data.messageTS)
    ensures AsyncMetadata(data, io.getMessage(data.teamID, data.channelID, data.messageTS), codec).Err? ==>
      r == Run([r.calls[0]], Fail(AsyncMetadata(data, io.getMessage(data.teamID, data.channelID, data.messageTS), codec).error))
    ensures AsyncMetadata(data, io.getMessage(data.teamID, data.channelID, data.messageTS), codec).Ok? ==>
      var rest := MultiStageRender(app, AsyncOptions(data, AsyncMetadata(data, io.getMessage(data.teamID, data.channelID, data.messageTS), codec).value, value), render, io);
      r == Run([r.calls[0]] + rest.calls, rest.outcome)
  {
    var fetch := GetMessage(data.teamID, data.channelID, data.messageTS);
    match AsyncMetadata(data, io.getMessage(data.teamID, data.channelID, data.messageTS), codec)
    case Err(e) => Run([fetch], Fail(e))
    case Ok(meta) =>
      var rest := MultiStageRender(app, AsyncOptions(data, meta, value), render, io);
      Run([fetch] + rest.calls, rest.outcome)
  }

  /** The descriptor's copy of the metadata is not consulted when the fetch succeeds. */
  lemma FetchedMetadataPreferred(data: AsyncStateData, other: Option<SlackMetadata>, msg: Msg, codec: Metadata.Codec)
    ensures AsyncMetadata(data, Ok(msg), codec) == AsyncMetadata(data.(metadata := other), Ok(msg), codec)
  {
  }

  /** `UpdateHome`: the updater runs as a Home context; its message is published to (team, user). */
  function UpdateHome(app: App, workspaceID: string, userID: string, updater: Invocation -> Result<Option<Message>>, io: Io): (r: Run)
    ensures updater(HomeInvocation(workspaceID, userID)).Err? ==> r == Stopped(updater(HomeInvocation(workspaceID, userID)).error)
    ensures updater(HomeInvocation(workspaceID, userID)) == Ok(None) ==> r == Stopped(HomeWithoutMessage)
    ensures updater(HomeInvocation(workspaceID, userID)).Ok? && updater(HomeInvocation(workspaceID, userID)).value.Some? ==>
      r == Final(PublishView(updater(HomeInvocation(workspaceID, userID)).value.value.msg, HomeInvocation(workspaceID, userID).msgOpts), io)
  {
    var inv := HomeInvocation(workspaceID, userID);
    match updater(inv)
    case Err(e) => Stopped(e)
    case Ok(None) => Stopped(HomeWithoutMessage)
    case Ok(Some(m)) => Final(PublishView(m.msg, inv.msgOpts), io)
  }

  function HomeInvocation(workspaceID: string, userID: string): Invocation {
    Invocation(MessageOptions(workspaceID, "", "", "", userID), SourceInfo(workspaceID, userID), true)
  }

  /**
   * `HandleInteraction` for a routed type: shortcuts, block actions and
   * view submissions go to their handlers; an unknown type is refused.
   * The types whose branch panics are not accepted.
   */
  method HandleInteraction(app: App, i: Interaction, codec: Metadata.Codec,
                           shortcut: ShortcutRunner, render: StageRenderer, view: ViewRunner, io: Io) returns (r: Run)
    requires RouteInteraction(i.interactionType) != NotImplemented
    ensures i.interactionType.OtherInteraction? ==> r == Stopped(UnknownInteractionType)
    ensures i.interactionType == MessageAction ==> r == Run([], HandleShortcut(app, app.messageShortcuts, i, shortcut))
    ensures i.interactionType == ShortcutInteraction ==> r == Run([], HandleShortcut(app, app.globalShortcuts, i, shortcut))
    ensures i.interactionType == BlockActions ==> r == HandleBlockActions(app, i, codec, render, io)
    ensures i.interactionType == ViewSubmission ==> r == Run([], ViewSubmissionOutcome(app, i, codec, view))
  {
    match RouteInteraction(i.interactionType)
    case MessageShortcutRoute =>
      r := Run([], HandleShortcut(app, app.messageShortcuts, i, shortcut));
    case GlobalShortcutRoute =>
      r := Run([], HandleShortcut(app, app.globalShortcuts, i, shortcut));
    case BlockActionsRoute =>
      r := HandleBlockActions(app, i, codec, render, io);
    case ViewSubmissionRoute =>
      var o := HandleViewSubmission(app, i, codec, view);
      r := Run([], o);
    case Rejected(e) =>
      r := Stopped(e);
  }
}
