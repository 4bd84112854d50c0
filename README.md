# jet: hook ledger, render contexts and routing, in Dafny

jet is a Go framework for interactive Slack messages. A flow's render
function declares hooks (state, callbacks, start effects) in program order.
The render context records them in a ledger. The ledger travels inside the
message metadata under the payload key `"__jet"`. When the user clicks a
button or an async value arrives, the app decodes that ledger and runs two
render passes. The first pass rebinds the callbacks to the stored hooks, a
mutation is applied (the callbacks fire, or a state is updated), and the
second pass renders the new message. Every non-initial pass must declare the
same kinds of hooks in the same order.

This project models:

- the render context of `jet/render_context.go` (module `RenderContext`) as a class over the
  cursor, the expected and added ledgers and the pending effects;
- its older variant `jet/context_render.go` (module `ContextRender`);
- the shared hook objects and the callback identifier format (`Ledger`, `Format`);
- the metadata envelope of `jet/metadata.go` over an abstract JSON codec (`Metadata`);
- the typed hooks of `jet/hooks.go` (`Hooks`);
- the between-stages mutations of `jet/app.go` (`Stages`);
- whole passes and chains of passes driven through the context (`Passes`), which is
  where the two-pass guarantee is proved;
- the routing and policy code of `jet/app.go`, `jet/context.go`,
  `jet/context_handlers.go`, `jet/builder.go` and `jet/flow.go` (`AppCore`, `AppContext`,
  `ContextHandlers`, `Builder`, `Flows`);
- the two versions of `prepareMessage` in `jet/slack.go` and `jet/app_api.go` (`SlackApi`,
  `AppApi`).

Slack Web API calls are never made. An operation returns the calls it would
make, as `Calls.Call` values in order, together with its result. What the
platform answers is given by an `Calls.Io` value of functions. The same holds
for the JSON library (`Metadata.Codec`, with the round-trip assumption
`Metadata.RoundTrips`) and for user code: handlers, callbacks, effects and
the Flow bodies `renderFresh`/`multiStageRender` are opaque values, and what
they return is a parameter.

Three behaviours of the code a reader may not expect:

- `addEffect` queues the effect on resumption passes too (`jet/render_context.go:155-163`);
- `serializeMetadata` drops the props (`jet/metadata.go:54-57`), so a resumed context starts
  with empty props (`Metadata.DeserializeResumed`);
- `Build` sets no view-submission registry, so every view submission fails
  (`AppCore.BuiltAppRejectsViewSubmissions`).

Some functions are definitions that the contracts below are stated in, and
have no contract of their own:

- `Ledger.Views` is the wire form of a ledger (what `serializeHooks` writes) and `Ledger.Kinds`
  its kind list (what `finish` prints on a mismatch). `Passes.DeclKinds` is the kind list a
  script declares.
- `Hooks.StateRaw` is what `addState` yields to `UseState`. `Hooks.Decoded` is what `UseState`
  makes of it: the initial value with the error, or the decoded value.
- `Calls.Final` is an operation that ends with one platform call and returns its answer.
  `Calls.Stopped` is one that stops with an error before any call.
- `Ledger.WriteState` is one setter write. `Ledger.Fire` is one `triggerCallback` on a ledger
  and its handlers. `Stages.FireAll` is the block-actions loop over them. `Passes.ScriptFireAll`
  is the same loop stated from a script's declarations instead of the bound handlers.
- `Ledger.CallbackID` is the identifier `addCallback` formats on a fresh pass
  (`jet/render_context.go:139`, `jet/context_render.go:117`). `Ledger.MismatchAt` is the error
  `nextHook` returns at the hook index it checks (`jet/render_context.go:172-177`).
- `Errors.Text` is the text `err.Error()` returns for each error the core produces, as formatted
  by the `fmt.Errorf` and `errors.New` calls it models.
- `AppCore.SlashInvocation` (`jet/app.go:50-62`), `AppCore.ShortcutInvocation`
  (`jet/app.go:126-137`), `AppCore.ViewInvocation` (`jet/app.go:209-221`) and
  `AppCore.HomeInvocation` (`jet/app.go:341-353`) are the `appContext` values these handlers
  build: their message options and source. `AppCore.ResponseTarget` is the reply target of a
  view submission (`jet/app.go:200-206`). `AppCore.ViewSubmissionOutcome` is what
  `handleViewSubmission` returns (`jet/app.go:189-221`).
- `AppContext.PostTarget` is the message options a post flow updates with
  (`jet/context.go:134-139`).
- `Flows.CanUpdateWithoutInteraction` is the flag accessor of `jet/flow.go:36-38`.

## Model

| member | source | states |
|---|---|---|
| Format.Hex | jet/render_context.go:139 | `%x` of a non-negative index: at least one lower-case hex digit; read back exactly by `ParseHex` (see ParseHexOfHex) |
| Format.ParseHexOfHex | jet/render_context.go:139 | reading a `%x` rendering back gives the number that was written |
| Format.HexInjective | jet/render_context.go:139 | two indices with the same `%x` rendering are equal |
| Format.Decimal | jet/render_context.go:173 | `%d` of a non-negative count: at least one digit; read back exactly by `ParseDecimal` (see ParseDecimalOfDecimal) |
| Format.ParseDecimalOfDecimal | jet/render_context.go:173 | reading a `%d` rendering back gives the count that was written |
| Ledger.HookData.constructor | jet/render_context.go:25-32 | a new hook holds the given kind, data and callback identifier; no handler is bound |
| Ledger.HookData.SetData | jet/render_context.go:115-117 | the setter writes only the hook's data; the handler and identifier stay |
| Ledger.CallbackIDInjective | jet/render_context.go:139 | within one flow, a callback identifier determines the index it was made from |
| Ledger.FirstCallback | jet/render_context.go:146-152 | finds the first callback hook in ledger order with the identifier; none earlier matches; None exactly when no hook matches |
| Ledger.WriteStates | jet/render_context.go:115-117 | setter writes made in order change no hook's kind or identifier and leave the length as it was |
| Ledger.WriteStatesAppend | jet/render_context.go:115-117 | writes made in two batches give the ledger the writes made in one |
| Ledger.UnwrittenKept | jet/render_context.go:115-117 | a hook no write targets, and any hook that is not a state, keeps its entry |
| Ledger.LastWriteWins | jet/hooks.go:26-33 | a state hook holds the value of the last setter write that targets it |
| Ledger.FirstCallbackShape | jet/render_context.go:146-152 | two ledgers with the same kinds and identifiers give every callback lookup the same answer, whatever the state data |
| Ledger.FireShape | jet/render_context.go:145-153 | triggering on two ledgers of one shape runs the same handler, with the same result and writes |
| Ledger.WriteHooks | jet/render_context.go:115-117 | the setter calls write the hook objects so that the ledger's wire form is the written ledger; no handler changes |
| Ledger.KindList | jet/render_context.go:185-192 | the loops of `finish` build the kind list of a ledger, position by position |
| RenderContext.RenderCtx.constructor | jet/render_context.go:55-77 | the context is initial iff no metadata is given; with metadata, the expected ledger mirrors `metadata.Hooks` and the props are `metadata.Props`; cursor 0, nothing added |
| RenderContext.RenderCtx.FetchHook | jet/render_context.go:165-180 | the cursor moves on by exactly one, even on failure; a fresh pass returns the old index and a new hook of the kind; a resumption pass succeeds iff the position exists and holds the kind, and it returns the stored hook; otherwise a count or kind mismatch error |
| RenderContext.RenderCtx.AddState | jet/render_context.go:103-118 | the initializer is used (and its error returned) only on a fresh pass; a resumption pass returns the stored data and hook unchanged; on success the hook is appended to the added ledger |
| RenderContext.RenderCtx.UpdateState | jet/render_context.go:120-130 | fails "unknown state" past the ledger and "not a state" for another kind; succeeds iff the position holds a state, and then only that hook's data changes |
| RenderContext.RenderCtx.AddCallback | jet/render_context.go:132-143 | binds the handler; a fresh pass names the hook `jet_<name>_cb_<hex of its own index>`; a resumption pass keeps the stored identifier and fails on a mismatch |
| RenderContext.RenderCtx.TriggerCallback | jet/render_context.go:145-153 | runs the handler of the first callback hook in ledger order with the identifier and returns its result; the state writes the handler makes land in the expected ledger; "unknown callback", with nothing written, when none matches; no handler changes |
| RenderContext.RenderCtx.AddEffect | jet/render_context.go:155-163 | declares an effect-start hook; on success the effect is queued after those already pending, on resumption passes too |
| RenderContext.RenderCtx.SerializeHooks | jet/render_context.go:85-95 | the wire ledger has the same length and order, with kind, data and identifier at each position |
| RenderContext.RenderCtx.Finish | jet/render_context.go:182-200 | fails, changing nothing, iff a resumption pass added a different number of hooks; otherwise the added ledger becomes the expected one, the added ledger empties, the cursor is 0 and the context is no longer initial |
| ContextRender.RenderCtx.constructor | jet/context_render.go:47-68 | initial iff no metadata; the expected ledger mirrors `metadata.Hooks` element by element |
| ContextRender.RenderCtx.FetchHook | jet/context_render.go:133-148 | the cursor is incremented before the check; a resumption pass rejects a position out of range or of another kind, and otherwise returns the stored hook |
| ContextRender.RenderCtx.AddState | jet/context_render.go:93-108 | a resumption pass returns the stored data without consulting the initializer; the hook returned is the setter's target and is appended to the added ledger |
| ContextRender.RenderCtx.AddCallback | jet/context_render.go:110-121 | a fresh pass names the hook `jet_<name>_cb_<hex of position+1>`, from the cursor after the increment; a resumption pass keeps the stored identifier |
| ContextRender.RenderCtx.TriggerCallback | jet/context_render.go:123-131 | the result of the first matching callback hook's handler, whose state writes land in the expected ledger, or "unknown callback" with nothing written |
| ContextRender.RenderCtx.Serialize | jet/context_render.go:76-86 | same length and order; kind, data and identifier per position |
| ContextRender.RenderCtx.Finish | jet/context_render.go:150-169 | rejects a length mismatch on resumption and changes nothing; on success promotes the added ledger and resets the cursor to 0 |
| Metadata.DecodeEntry | jet/metadata.go:40-50 | a marshal failure and an unmarshal failure give their own errors; otherwise flow, ledger and props are the decoded envelope's, with the given original |
| Metadata.Deserialize | jet/metadata.go:22-51 | with the `"__jet"` entry in the event payload, the decoding of that entry; without it, "missing jet metadata" for no private metadata, the parse error of the private metadata, "missing jet metadata" when that has no entry either, else the decoding of its entry; a result's original holds the entry and is the event metadata or the parsed private metadata |
| Metadata.Serialize | jet/metadata.go:53-69 | the payload holds the new envelope (flow, hooks, no props) under `"__jet"`; with no previous metadata the event type is `"jet"` and that is the only key; otherwise the event type and every other key are kept |
| Metadata.PayloadEntryWins | jet/metadata.go:22-50 | when the entry is in the event payload, the private metadata does not matter and the original is the event metadata |
| Metadata.PrivateMetadataFallback | jet/metadata.go:29-38 | without the entry, a private-metadata parse failure, or a parse without the entry, is an error; on success the original is the parsed metadata |
| Metadata.DeserializeFresh | jet/metadata.go:40-68 | if the codec round-trips, decoding a freshly written envelope gives back the flow name and ledger, with no props |
| Metadata.DeserializeResumed | jet/metadata.go:54-62 | if the codec round-trips, writing over decoded metadata and decoding again gives the new flow and ledger, loses the props, and keeps the rest of the metadata |
| Hooks.UseState | jet/hooks.go:13-35 | the initializer is exactly the encoding of the initial value; value and error are as in `Decoded`; a setter is returned iff there is no error, and it targets the hook just appended (the stored one on resumption); the props are unchanged; whenever `addState` succeeds, even if decoding then fails, exactly one hook is appended: a fresh state hook holding the initializer, or the stored one on resumption; when `addState` fails nothing is appended |
| Hooks.Set | jet/hooks.go:26-33 | an encode error is returned and nothing is written; otherwise the hook's data becomes the encoding |
| Hooks.UseCallback | jet/hooks.go:39-41 | the contract of `ContextRender.RenderCtx.AddCallback` passed through: the index advances by one and only that hook's handler changes; on a fresh pass the identifier is `CallbackID` of the new index and a fresh callback hook is appended; on resumption it fails iff the index is past the stored ledger or the stored kind is not a callback (with the `MismatchAt` error, nothing appended) and otherwise returns the stored identifier and appends the stored hook; the new hook's handler is the callback given |
| Hooks.FreshStateIsInitial | jet/hooks.go:13-25 | on a fresh pass a faithful codec reads back the initial value with no error |
| Hooks.ResumedStateIsLastSet | jet/hooks.go:26-33 | a value written by the setter is what the next resumption pass reads, whatever the initial value |
| Hooks.SetThenResume | jet/hooks.go:13-35 | fresh pass, `finish`, set, second pass: the first pass reads the initial value and the second the value set |
| Stages.TriggerAll | jet/app.go:176-185 | the callbacks of the actions are triggered in order and the first failure is the result (`FireAll`); the context's ledger then holds every setter write the handlers made, in order |
| Stages.FireStep | jet/app.go:176-185 | one turn of the loop: a failing action ends it with its own writes; otherwise its writes come before those of the rest |
| Stages.FireAllPasses | jet/app.go:176-185 | all the actions pass iff each one's callback does; a failure is the failure of one of them |
| Stages.Apply | jet/app.go:299-301 | triggering callbacks gives their outcome and leaves their setter writes in the ledger; a state update succeeds iff the hook index holds a state, changes only that hook's data, and changes nothing on failure; no handler changes |
| Passes.ScriptEffectsSnoc | jet/render_context.go:161 | the effects of a longer script are those of its prefix followed by the new ones |
| Passes.DeclareFreshOne | jet/render_context.go:103-163 | one declaration on a fresh pass succeeds iff its initializer does and appends its fresh hook at the cursor |
| Passes.DeclareResumedOne | jet/render_context.go:165-180 | one declaration on a resumption pass succeeds iff the stored kind at the cursor is its own |
| Passes.FreshStep | jet/render_context.go:103-163 | one step of a fresh pass keeps the prefix invariant; a failure is the initializer's error |
| Passes.DeclareFresh | jet/render_context.go:103-163 | a fresh pass succeeds iff every initializer does; a failure is some initializer's error |
| Passes.ResumedStep | jet/render_context.go:165-180 | one step of a resumption pass keeps the prefix invariant; a failure is a count or kind mismatch |
| Passes.DeclareResumed | jet/render_context.go:165-180 | the declarations of a resumption pass succeed iff the script is no longer than the ledger and matches it kind for kind |
| Passes.RenderPass | jet/render_context.go:165-200 | a fresh pass plus `finish` succeeds iff every initializer does, and records the fresh ledger; a resumption pass succeeds iff the kinds agree with the stored ledger, keeps the same hooks, and otherwise reports a ledger mismatch; the effects queue in script order; every callback hook is bound |
| Passes.KindsAgree | jet/render_context.go:172-184 | the kind lists agree iff the lengths agree and each position does |
| Passes.FinishFresh | jet/render_context.go:182-200 | `finish` after a fresh pass always succeeds and installs the fresh ledger |
| Passes.FinishResumed | jet/render_context.go:182-200 | `finish` after a resumption pass succeeds iff as many hooks were declared as stored |
| Passes.FreshCallbackLookup | jet/render_context.go:139-153 | in a fresh ledger, the callback identifier made at position i is found first at position i |
| Passes.FreshPass | jet/render_context.go:182-200 | a fresh context's pass succeeds iff the initializers do, and yields the fresh ledger in wire form |
| Passes.Resume | jet/render_context.go:55-77 | a context resuming stored metadata passes iff the script's kinds equal the stored kinds; the ledger stays exactly as stored |
| Passes.FreshLedgerKinds | jet/render_context.go:165-170 | the fresh ledger of a script has the script's kinds |
| Passes.FreshThenResume | jet/render_context.go:182-200 | if the codec round-trips, a fresh pass whose ledger is written to metadata and read back is resumed by the same script, with the ledger, identifiers included, unchanged |
| Passes.ResumeWith | jet/app.go:285-301 | a stored ledger, a first pass, the mutation, a second pass: a kind mismatch fails as a ledger mismatch; a state update succeeds iff the kinds agree and the index holds a state, and then lands in the ledger; triggering yields the callbacks' outcome, and on success the second pass renders the stored ledger with the handlers' setter writes made |
| Passes.Rerender | jet/app.go:176-185 | the second pass runs against the ledger the mutation left: the matched ledger with an updated state, or with the setter writes of the triggered callbacks |
| Passes.BoundActions | jet/render_context.go:145-153 | after a pass of the script every action's callback lookup reaches a bound handler |
| Passes.ShapeKinds | jet/render_context.go:115-117 | state writes keep the kind list, so the second pass still matches the ledger |
| Passes.TriggerAllAgrees | jet/app.go:176-185 | triggering actions with the handlers a pass bound equals triggering them with the script's declarations (`ScriptFireAll`), outcome and writes |
| Passes.ClickSetsState | jet/app.go:176-185 | a click whose handler calls one state setter passes, and the ledger of the second pass holds the new value in that hook and everything else as stored |
| Calls.LeadingOptions | jet/slack.go:25-29 | the three leading client options |
| Flows.NewFlow | jet/flow.go:25-34 | the render function is kept; the flag is the first option's, and false without options |
| Flows.OnlyFirstOption | jet/flow.go:27-29 | options after the first change nothing |
| Flows.DefaultNeedsInteraction | jet/flow.go:26-31 | with no options the flow cannot update without interaction |
| Flows.Render | jet/flow.go:40-50 | the renderer's error passes through with no message; otherwise an in-channel message that replaces the original and holds exactly the rendered blocks |
| Builder.AppBuilder.constructor | jet/builder.go:29-36 | empty registries and no fallback handlers |
| Builder.AppBuilder.AddFlow | jet/builder.go:38-48 | a new name adds exactly one entry keyed by it and returns a handle with that id; a duplicate returns "duplicate flow name" and changes nothing |
| Builder.AppBuilder.AddSlash | jet/builder.go:50-53 | the command's entry is overwritten, other keys and registries are untouched, and the builder itself is returned |
| Builder.AppBuilder.HandleUnknownSlash | jet/builder.go:55-58 | sets the fallback slash handler only |
| Builder.AppBuilder.AddGlobalShortcut | jet/builder.go:60-63 | overwrites that global shortcut's entry only |
| Builder.AppBuilder.AddMessageShortcut | jet/builder.go:65-68 | overwrites that message shortcut's entry only |
| Builder.AppBuilder.HandleUnknownShortcut | jet/builder.go:70-73 | sets the fallback shortcut handler only |
| Builder.AppBuilder.Build | jet/builder.go:75-85 | every registry and the options pass into the app unchanged; the view-submission registry is empty |
| Builder.DuplicateFlowKept | jet/builder.go:42-45 | registering a name twice: the second is refused and the first flow is the one built |
| Builder.LastSlashWins | jet/builder.go:50-53 | of two registrations of one command the later is built in; other commands are untouched |
| AppCore.ResolveSlash | jet/app.go:67-76 | the registered handler, else the fallback handler, else "unknown command" |
| AppCore.ErrorReply | jet/app.go:78-90 | with a formatter, its message; otherwise an ephemeral message whose text is the error's text |
| AppCore.HandleSlashCommand | jet/app.go:48-93 | a handler's reply is returned; any error is replaced by the error reply |
| AppCore.UnknownCommandReply | jet/app.go:67-90 | an unregistered command with no fallback and no formatter gets the ephemeral text "unknown command" |
| AppCore.RouteInteraction | jet/app.go:95-123 | message actions and shortcuts go to their shortcut maps, block actions and view submissions to their handlers; exactly the unlisted types are "unknown interaction type" |
| AppCore.HandleShortcut | jet/app.go:125-151 | the registered handler, else the fallback, else "unknown shortcut", each run with the team and response URL |
| AppCore.HandleInteraction | jet/app.go:95-123 | each routed type reaches its handler; an unlisted type fails with "unknown interaction type" before any call |
| AppCore.StageAsync | jet/app.go:242-250 | the async descriptor passed to the flow takes team and user from the source and channel, timestamp, URL and metadata from the options; the hook index is not carried over |
| AppCore.Delivery | jet/app.go:255-261 | a Home render is published to (team, user); any other render updates the message of the options |
| AppCore.MultiStageRender | jet/app.go:232-262 | an unregistered flow is "unknown flow" with no call; a render error makes no call; otherwise exactly one delivery |
| AppCore.AtMostOneDelivery | jet/app.go:251-261 | at most one call, a publish iff the render is for Home, an update otherwise |
| AppCore.HandleBlockActions | jet/app.go:153-187 | a metadata error stops before rendering; otherwise the render uses the block-actions options |
| AppCore.BlockActionsOptions | jet/app.go:159-185 | the reply goes through the response URL, the Home flag is the view type, and the mutation triggers the actions in order |
| AppCore.FirstResponseTarget | jet/app.go:200-206 | the URL and channel of the first `ResponseURLs` entry; otherwise the interaction's URL and no channel |
| AppCore.HandleViewSubmission | jet/app.go:189-221 | the metadata error, or "unknown view submission" without a handler for the flow, or the handler's outcome with the first response target |
| AppCore.BuiltAppRejectsViewSubmissions | jet/builder.go:75-85 | an app made by the builder fails every view submission, with "unknown view submission" once the metadata decodes |
| AppCore.AsyncMetadata | jet/app.go:267-283 | the fetched message's metadata; on a failed fetch the descriptor's own copy if it has one, else the fetch error |
| AppCore.FetchedMetadataPreferred | jet/app.go:278-283 | after a successful fetch the descriptor's copy of the metadata is irrelevant |
| AppCore.AsyncOptions | jet/app.go:285-302 | the descriptor says where the message is; the mutation stores the value into hook `HookID` |
| AppCore.HandleAsyncData | jet/app.go:264-303 | the message is fetched first; a metadata error stops there; otherwise the render with the state update follows |
| AppCore.UpdateHome | jet/app.go:340-364 | an updater error is returned; no message is an error; otherwise the message is published to (workspace, user) |
| AppContext.PostDescriptor | jet/context.go:102-116 | team, user and channel come from the options and the timestamp is the one returned; metadata and response URL are carried iff the timestamp is empty |
| AppContext.CreateWithPost | jet/context.go:96-123 | exactly one create call, whose error is the result; a continuation starts iff there is a post-create step and the create succeeded |
| AppContext.ProcessPostFlow | jet/context.go:125-140 | a metadata or post-create error stops before the update; the update target comes entirely from the descriptor |
| AppContext.PostUpdatesCreatedMessage | jet/context.go:102-139 | the continuation updates the created message: by channel and timestamp, or by the response URL when no timestamp came back |
| AppContext.AppContext.constructor | jet/context.go:51-57 | the context holds the app, options, source and Home flag given |
| AppContext.AppContext.RenderFlow | jet/context.go:70-77 | "unknown flow", with nothing rendered, for an unregistered handle; otherwise the flow and what it rendered |
| AppContext.AppContext.StartFlow | jet/context.go:79-94 | a self-updating flow needs a channel, clears the response URL and is created here with no message returned; any other flow fails if it has a post-create step, and otherwise its message is returned with no call |
| AppContext.AppContext.OpenModal | jet/context.go:142-147 | "message is not a modal" without a modal configuration; otherwise one open-view call with the context's options |
| AppContext.AppContext.StartFlowAndPost | jet/context.go:149-155 | renders and creates the message whatever the flow's policy, with the options as they are |
| AppContext.StartFlowPostsWithoutResponseURL | jet/context.go:84-89 | StartFlow on a self-updating flow creates the same message as StartFlowAndPost, minus the response URL |
| ContextHandlers.AppContext.constructor | jet/context_handlers.go:17-21 | the context holds the app and options given |
| ContextHandlers.AppContext.RenderFlow | jet/context_handlers.go:34-41 | "unknown flow" for an unregistered handle; otherwise the flow and its message |
| ContextHandlers.AppContext.StartFlow | jet/context_handlers.go:43-57 | a render error creates nothing; a self-updating flow needs a channel, clears the response URL and is created with no message returned; any other flow's message is returned with no call |
| ContextHandlers.AppContext.StartFlowWithPost | jet/context_handlers.go:59-66 | creates the message whatever the flag, with the response URL as it is |
| ContextHandlers.StartFlowClearsResponseURL | jet/context_handlers.go:48-66 | the two entry points create the same message, and only StartFlowWithPost keeps the response URL |
| SlackApi.PrepareMessage | jet/slack.go:24-44 | the list starts with blocks, metadata and text; an empty URL gives exactly those three; otherwise replace iff its flag, then delete iff its flag, then the response-URL option last, 4 to 6 options, never a post |
| AppApi.PrepareMessage | jet/app_api.go:24-44 | the list starts with blocks, metadata and text; replace and delete follow their flags whatever the URL; the response-URL option is always added; a post option is added last iff the URL is empty; 4 to 7 options |
| AppApi.CompareBuilders | jet/app_api.go:24-44 | with a response URL the two builders agree; without one the newer stops at three options where the older gives at least five |

## Left out

- I/O: Slack Web API calls, `makeClientFor`, OAuth (`FinalizeOAuth`, `tokenExchange`) and
  logging are not executed. The calls an operation makes are recorded as `Calls.Call` values and
  their answers come from `Calls.Io`.
- The HTTP integrations (`integrations/jet-echo/http.go`, `integrations/jet-http/http.go`):
  transport plumbing over library code.
- JSON and mapstructure (`json.Marshal`/`Unmarshal`, `MarshalProps`, `UnmarshalProps`) are the
  abstract `Metadata.Codec` and `Hooks.StateCodec`, and their round trip is a hypothesis.
- Callback and effect closure bodies are opaque handler values. What a callback does is the
  parameter `run` (a `Ledger.Handler`): its result and the state setters it calls, as
  `Ledger.StateWrite` positions of the expected ledger, which `Ledger.WriteHooks` makes on the
  hook objects. Anything else a callback does (platform calls, other methods of the context it
  receives) is not modelled. A write to a position that holds no state is dropped; a setter in
  Go always targets the state hook it came from, so no such write occurs.
- The Flow bodies `renderFresh` and `multiStageRender` (`jet/context.go:75`, `jet/app.go:242`)
  are outside `jet/flow.go`. They are function parameters, and their semantics are not invented.
  Instead, `Passes` composes render-context calls with `finish` to state the two-pass guarantee.
- Metadata.Serialize: the code writes the new entry into the payload map it shares with
  `prev.Original` (`jet/metadata.go:59-60`). The model returns a new value, so the aliasing write
  is not captured.
- The goroutine in `createWithPost` (`jet/context.go:108-120`) is returned as an
  `AppContext.Continuation` value. `AppContext.ProcessPostFlow` is what it would run. Logging of
  its error is left out.
- AppCore.HandleInteraction: the types whose branch panics ("not implemented",
  `jet/app.go:98-119`) are excluded by its precondition. An unlisted type is modelled as
  `OtherInteraction`.
- Go's panics on a nil handler are preconditions:
  - `RenderContext.RenderCtx.TriggerCallback`, `ContextRender.RenderCtx.TriggerCallback` and
    `Stages.Apply` require a bound handler;
  - Stages.TriggerAll and Stages.Apply require every action's identifier to be bound, while
    Go looks handlers up only until the first failing callback (`jet/app.go:179-182`). After a
    render pass every identifier it declared is bound (`Passes.BoundActions`), so the
    difference only concerns identifiers no pass declared;
  - `updateState` with a negative index would panic, and its index is a `nat`.
- `Options` keeps only the error formatter. Credentials and the logger are left out.
- The `Message` type is not defined in the files modelled. It is modelled as a `slack.Msg`
  plus an optional modal configuration. `ErrorFormatter` returns a `slack.Msg`, which
  `AppCore.ErrorReply` wraps with no modal.
- The files mix two generations of the `Flow` type. `jet/flow.go` has an interface with
  `Render`. `jet/builder.go`, `jet/context.go` and `jet/app.go` use a `*Flow` with
  `renderFresh`, `multiStageRender` and `canUpdateWithoutInteraction`. These are modelled
  separately: `Flows.FlowImpl` is the first, `Builder.Flow` the second.
- Registering view-submission handlers: no builder method does it, so the model has none.
- Builder.AppBuilder.Build: the app receives the builder's own maps (`jet/builder.go:77-81`).
  Go maps are shared references, so a registration made on the builder after `Build` also
  reaches the app already built. The model copies the registries as values and does not
  capture that sharing.
- Metadata.RoundTrips: the codec hypothesis covers every envelope, including hook data that is
  not valid, compact JSON, which `json.Marshal` of a `json.RawMessage` would reject or compact.
  `Metadata.DeserializeFresh`, `Metadata.DeserializeResumed` and `Passes.FreshThenResume` hold for
  such an idealised codec; for real `encoding/json` they hold for ledgers whose data came from
  the state codec. The hypothesis is about decoding the in-memory `EnvelopeValue` only. On the
  interaction paths the platform echoes the metadata back as decoded JSON (`Foreign`,
  `jet/app.go:154`, `jet/app.go:191`, `jet/app.go:278-283`), and that re-encoding is not
  covered: the freshness and resumption lemmas state the in-process decode.
- `Source()` and `getAsyncData()` are plain field reads. They are modelled but state nothing.
- The contexts' embedded `context.Context` (cancellation, deadlines) is left out.
