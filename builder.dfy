/**
 * builder.go: the registry an app is built from, and the `app` value it
 * builds (the struct of app.go). Handlers are user code and stay opaque.
 */
module Builder {
  import opened Wrappers
  import opened Types
  import opened Errors
  import opened Flows

  /**
   * A registered flow, as builder.go, context.go and app.go use it: its name,
   * its update policy, and bodies (`renderFresh`, `multiStageRender`) that
   * are not part of this model and are named by `bodies` only.
   */
  datatype Flow = Flow(name: string, canUpdateWithoutInteraction: bool, bodies: nat)

  datatype SlashHandler = SlashHandler(id: nat)
  datatype ShortcutHandler = ShortcutHandler(id: nat)
  datatype ViewSubmittedHandler = ViewSubmittedHandler(id: nat)

  /** `Options`, reduced to the error formatter the routing code consults. */
  datatype Options = Options(errorFormatter: Option<Error -> Msg>)

  /** The `app` struct. */
  datatype App = App(
    flows: map<FlowHandle, Flow>,
    slashes: map<string, SlashHandler>,
    unknownSlash: Option<SlashHandler>,
    globalShortcuts: map<string, ShortcutHandler>,
    messageShortcuts: map<string, ShortcutHandler>,
    viewSubmitted: map<string, ViewSubmittedHandler>,
    unknownShortcut: Option<ShortcutHandler>,
    opts: Options)

  /** Every registered flow is filed under its own name. */
  ghost predicate FlowsKeyed(flows: map<FlowHandle, Flow>) {
    forall h :: h in flows ==> h.id == flows[h].name
  }

  class AppBuilder {
    var flows: map<FlowHandle, Flow>
    var slashes: map<string, SlashHandler>
    var unknownSlash: Option<SlashHandler>
    var globalShortcuts: map<string, ShortcutHandler>
    var messageShortcuts: map<string, ShortcutHandler>
    var unknownShortcut: Option<ShortcutHandler>

    ghost predicate Valid()
      reads this
    {
      FlowsKeyed(flows)
    }

    /** `NewBuilder`: empty registries and no fallback handlers. */
    constructor ()
      ensures Valid()
      ensures flows == map[] && slashes == map[] && globalShortcuts == map[] && messageShortcuts == map[]
      ensures unknownSlash == None && unknownShortcut == None
    {
      flows := map[];
      slashes := map[];
      unknownSlash := None;
      globalShortcuts := map[];
      messageShortcuts := map[];
      unknownShortcut := None;
    }

    /** `AddFlow`: a second flow of the same name is refused and changes nothing. */
    method AddFlow(f: Flow) returns (r: Result<FlowHandle>)
      requires Valid()
      modifies this
      ensures Valid()
      ensures FlowHandle(f.name) in old(flows) ==> r == Err(DuplicateFlowHandle) && flows == old(flows)
      ensures FlowHandle(f.name) !in old(flows) ==> r == Ok(FlowHandle(f.name)) && flows == old(flows)[FlowHandle(f.name) := f]
      ensures slashes == old(slashes) && unknownSlash == old(unknownSlash) && unknownShortcut == old(unknownShortcut)
      ensures globalShortcuts == old(globalShortcuts) && messageShortcuts == old(messageShortcuts)
    {
      var fh := FlowHandle(f.name);
      if fh in flows {
        return Err(DuplicateFlowHandle);
      }
      flows := flows[fh := f];
      return Ok(fh);
    }

    /** `AddSlash`: the last registration of a command wins. */
    method AddSlash(cmd: string, handler: SlashHandler) returns (b: AppBuilder)
      modifies this
      ensures b == this
      ensures slashes == old(slashes)[cmd := handler]
      ensures flows == old(flows) && unknownSlash == old(unknownSlash) && unknownShortcut == old(unknownShortcut)
      ensures globalShortcuts == old(globalShortcuts) && messageShortcuts == old(messageShortcuts)
    {
      slashes := slashes[cmd := handler];
      return this;
    }

    method HandleUnknownSlash(handler: SlashHandler) returns (b: AppBuilder)
      modifies this
      ensures b == this
      ensures unknownSlash == Some(handler)
      ensures flows == old(flows) && slashes == old(slashes) && unknownShortcut == old(unknownShortcut)
      ensures globalShortcuts == old(globalShortcuts) && messageShortcuts == old(messageShortcuts)
    {
      unknownSlash := Some(handler);
      return this;
    }

    method AddGlobalShortcut(cmd: string, handler: ShortcutHandler) returns (b: AppBuilder)
      modifies this
      ensures b == this
      ensures globalShortcuts == old(globalShortcuts)[cmd := handler]
      ensures flows == old(flows) && slashes == old(slashes) && unknownSlash == old(unknownSlash)
      ensures messageShortcuts == old(messageShortcuts) && unknownShortcut == old(unknownShortcut)
    {
      globalShortcuts := globalShortcuts[cmd := handler];
      return this;
    }

    method AddMessageShortcut(cmd: string, handler: ShortcutHandler) returns (b: AppBuilder)
      modifies this
      ensures b == this
      ensures messageShortcuts == old(messageShortcuts)[cmd := handler]
      ensures flows == old(flows) && slashes == old(slashes) && unknownSlash == old(unknownSlash)
      ensures globalShortcuts == old(globalShortcuts) && unknownShortcut == old(unknownShortcut)
    {
      messageShortcuts := messageShortcuts[cmd := handler];
      return this;
    }

    method HandleUnknownShortcut(handler: ShortcutHandler) returns (b: AppBuilder)
      modifies this
      ensures b == this
      ensures unknownShortcut == Some(handler)
      ensures flows == old(flows) && slashes == old(slashes) && unknownSlash == old(unknownSlash)
      ensures globalShortcuts == old(globalShortcuts) && messageShortcuts == old(messageShortcuts)
    {
      unknownShortcut := Some(handler);
      return this;
    }

    /**
     * `Build`: the registries and options pass into the app unchanged. The
     * builder has no view-submission registry, so the app's is empty.
     */
    function Build(opts: Options): (a: App)
      reads this
      ensures a.flows == flows && a.slashes == slashes && a.unknownSlash == unknownSlash
      ensures a.globalShortcuts == globalShortcuts && a.messageShortcuts == messageShortcuts
      ensures a.unknownShortcut == unknownShortcut && a.opts == opts
      ensures a.viewSubmitted == map[]
    {
      App(flows, slashes, unknownSlash, globalShortcuts, messageShortcuts, map[], unknownShortcut, opts)
    }
  }

  /** Registering the same flow name twice: the second is refused and the first stays. */
  method DuplicateFlowKept(first: Flow, second: Flow, opts: Options) returns (h: Result<FlowHandle>, again: Result<FlowHandle>, app: App)
    requires first.name == second.name
    ensures h == Ok(FlowHandle(first.name)) && again == Err(DuplicateFlowHandle)
    ensures app.flows == map[FlowHandle(first.name) := first]
  {
    var b := new AppBuilder();
    h := b.AddFlow(first);
    again := b.AddFlow(second);
    app := b.Build(opts);
  }

  /** Two registrations of one command: the later handler is the one built in, other commands untouched. */
  method LastSlashWins(cmd: string, other: string, h1: SlashHandler, h2: SlashHandler, h3: SlashHandler, opts: Options)
    returns (app: App)
    requires cmd != other
    ensures app.slashes == map[cmd := h2, other := h3]
    ensures app.slashes[cmd] == h2
  {
    var b := new AppBuilder();
    var _ := b.AddSlash(cmd, h1);
    var _ := b.AddSlash(other, h3);
    var _ := b.AddSlash(cmd, h2);
    app := b.Build(opts);
  }
}
