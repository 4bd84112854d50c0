/**
 * What the render context guarantees to the code that drives it. A render
 * function declares its hooks in program order; `Decl` is one such
 * declaration and a script is the sequence one pass makes. `RenderPass`
 * drives one pass of a script through a context and finishes it; the
 * methods after it chain passes the way an operation resumes a stored
 * ledger: through the metadata codec, and with the between-stages
 * mutations of an interaction or an async resumption in the middle.
 */
module Passes {
  import opened Wrappers
  import opened Types
  import opened Errors
  import opened Ledger
  import opened RenderContext
  import Metadata
  import Stages

  /** One hook declaration of a render function. */
  datatype Decl =
    | StateDecl(initial: () -> Result<Raw>)
    | CallbackDecl(callback: Callback)
    | EffectDecl(effect: Effect)

  function DeclKind(d: Decl): string {
    match d
    case StateDecl(_) => HookState
    case CallbackDecl(_) => HookCallback
    case EffectDecl(_) => HookEffectStart
  }

  /** The kinds a script declares, in order. */
  function DeclKinds(script: seq<Decl>): seq<string> {
    seq(|script|, i requires 0 <= i < |script| => DeclKind(script[i]))
  }

  /** The declaration can be made on a fresh pass: a state's initializer succeeds. */
  predicate DeclInit(d: Decl) {
    d.StateDecl? ==> d.initial().Ok?
  }

  predicate InitsSucceed(script: seq<Decl>) {
    forall i :: 0 <= i < |script| ==> DeclInit(script[i])
  }

  /** The hook a fresh pass records for declaration `d` at position `i`. */
  function FreshHook(name: string, d: Decl, i: nat): MetadataHook
    requires DeclInit(d)
  {
    match d
    case StateDecl(initial) => MetadataHook(HookState, initial().value, "")
    case CallbackDecl(_) => MetadataHook(HookCallback, [], CallbackID(name, i))
    case EffectDecl(_) => MetadataHook(HookEffectStart, [], "")
  }

  /** The ledger a fresh pass of `script` records. */
  function FreshLedger(name: string, script: seq<Decl>): (r: seq<MetadataHook>)
    requires InitsSucceed(script)
  {
    seq(|script|, i requires 0 <= i < |script| => FreshHook(name, script[i], i))
  }

  /** The effects a pass of `script` queues, in declaration order. */
  function ScriptEffects(script: seq<Decl>): seq<Effect> {
    if |script| == 0 then []
    else ScriptEffects(script[..|script| - 1]) + (if script[|script| - 1].EffectDecl? then [script[|script| - 1].effect] else [])
  }

  lemma ScriptEffectsSnoc(script: seq<Decl>, d: Decl)
    ensures ScriptEffects(script + [d]) == ScriptEffects(script) + ScriptEffects([d])
  {
    assert (script + [d])[..|script|] == script;
    assert [d][..0] == [];
  }

  /** Each callback hook of the ledger carries the handler its declaration bound. */
  ghost predicate BoundTo(hs: seq<HookData>, script: seq<Decl>)
    reads hs
  {
    && |hs| == |script|
    && forall k :: 0 <= k < |script| && script[k].CallbackDecl? ==> hs[k].callback == Some(script[k].callback)
  }

  /** The errors a resumption pass reports when its declarations do not follow the ledger. */
  predicate IsLedgerMismatch(e: Error) {
    e.HookCountMismatch? || e.HookKindMismatch? || e.LedgerLengthMismatch?
  }

  /** One declaration on a fresh pass, made through addState, addCallback or addEffect. */
  method DeclareFreshOne(ctx: RenderCtx, d: Decl) returns (r: Outcome)
    requires ctx.Valid() && ctx.isInitial
    modifies ctx
    ensures ctx.Valid() && ctx.isInitial && ctx.hookIdx == old(ctx.hookIdx) + 1
    ensures ctx.expectedHooks == old(ctx.expectedHooks) && ctx.props == old(ctx.props)
    ensures r.Pass? <==> DeclInit(d)
    ensures r.Fail? ==> r.error == d.initial().error
    ensures r.Pass? ==>
      && ctx.pendingStartEffects == old(ctx.pendingStartEffects) + ScriptEffects([d])
      && |ctx.addedHooks| == |old(ctx.addedHooks)| + 1 && ctx.addedHooks[..|old(ctx.addedHooks)|] == old(ctx.addedHooks)
      && ctx.Added() == old(ctx.Added()) + [FreshHook(ctx.name, d, old(ctx.hookIdx))]
      && (d.CallbackDecl? ==> ctx.addedHooks[|old(ctx.addedHooks)|].callback == Some(d.callback))
  {
    assert ScriptEffects([d]) == if d.EffectDecl? then [d.effect] else [];
    match d
    case StateDecl(initial) =>
      var s := ctx.AddState(initial);
      r := if s.Ok? then Pass else Fail(s.error);
    case CallbackDecl(callback) =>
      var c := ctx.AddCallback(callback);
      r := Pass;
    case EffectDecl(effect) =>
      r := ctx.AddEffect(effect);
  }

  /** One declaration on a resumption pass: it must find its own kind at the cursor. */
  method DeclareResumedOne(ctx: RenderCtx, d: Decl) returns (r: Outcome)
    requires ctx.Valid() && !ctx.isInitial
    modifies ctx, ctx.expectedHooks
    ensures ctx.Valid() && !ctx.isInitial && ctx.hookIdx == old(ctx.hookIdx) + 1
    ensures ctx.expectedHooks == old(ctx.expectedHooks) && ctx.Expected() == old(ctx.Expected()) && ctx.props == old(ctx.props)
    ensures forall k :: 0 <= k < |ctx.expectedHooks| && k != old(ctx.hookIdx) ==>
      ctx.expectedHooks[k].callback == old(ctx.expectedHooks[k].callback)
    ensures r.Pass? <==> Matches(ctx.Expected(), old(ctx.hookIdx), DeclKind(d))
    ensures r.Fail? ==> r.error == MismatchAt(ctx.Expected(), old(ctx.hookIdx), DeclKind(d))
    ensures r.Pass? ==>
      && ctx.pendingStartEffects == old(ctx.pendingStartEffects) + ScriptEffects([d])
      && ctx.addedHooks == old(ctx.addedHooks) + [ctx.expectedHooks[old(ctx.hookIdx)]]
      && (d.CallbackDecl? ==> ctx.expectedHooks[old(ctx.hookIdx)].callback == Some(d.callback))
  {
    assert ScriptEffects([d]) == if d.EffectDecl? then [d.effect] else [];
    match d
    case StateDecl(initial) =>
      var s := ctx.AddState(initial);
      r := if s.Ok? then Pass else Fail(s.error);
    case CallbackDecl(callback) =>
      var c := ctx.AddCallback(callback);
      r := if c.Ok? then Pass else Fail(c.error);
    case EffectDecl(effect) =>
      r := ctx.AddEffect(effect);
  }

  /** A fresh pass after the first `i` declarations of `script`, all of them made. */
  ghost predicate FreshPrefix(ctx: RenderCtx, script: seq<Decl>, i: nat, pending: seq<Effect>, props: Props)
    reads ctx, ctx.addedHooks
  {
    && ctx.Valid() && ctx.isInitial && ctx.hookIdx == i && i <= |script|
    && ctx.expectedHooks == [] && ctx.props == props && |ctx.addedHooks| == i
    && ctx.pendingStartEffects == pending + ScriptEffects(script[..i])
    && (forall k :: 0 <= k < i ==> DeclInit(script[k]) && ctx.Added()[k] == FreshHook(ctx.name, script[k], k))
    && (forall k :: 0 <= k < i && script[k].CallbackDecl? ==> ctx.addedHooks[k].callback == Some(script[k].callback))
  }

  /** Declaration `i` of a fresh pass. */
  method FreshStep(ctx: RenderCtx, script: seq<Decl>, i: nat, ghost pending: seq<Effect>, ghost props: Props) returns (r: Outcome)
    requires FreshPrefix(ctx, script, i, pending, props) && i < |script|
    modifies ctx
    ensures r.Pass? ==> FreshPrefix(ctx, script, i + 1, pending, props)
    ensures r.Fail? ==> ctx.Valid() && ctx.isInitial && ctx.expectedHooks == [] && ctx.props == props
    ensures r.Fail? ==> script[i].StateDecl? && script[i].initial() == Err(r.error)
  {
    var d := DeclareFreshOne(ctx, script[i]);
    if d.Fail? {
      return d;
    }
    assert script[..i + 1] == script[..i] + [script[i]];
    ScriptEffectsSnoc(script[..i], script[i]);
    r := Pass;
  }

  /** The declarations of a fresh pass, stopping at the first failing initializer. */
  method DeclareFresh(ctx: RenderCtx, script: seq<Decl>) returns (r: Outcome)
    requires ctx.Valid() && ctx.isInitial && ctx.hookIdx == 0 && ctx.addedHooks == []
    modifies ctx
    ensures ctx.Valid() && ctx.isInitial && ctx.expectedHooks == [] && ctx.props == old(ctx.props)
    ensures r.Pass? <==> InitsSucceed(script)
    ensures r.Fail? ==> exists k :: 0 <= k < |script| && script[k].StateDecl? && script[k].initial() == Err(r.error)
    ensures r.Pass? ==> FreshPrefix(ctx, script, |script|, old(ctx.pendingStartEffects), old(ctx.props))
  {
    ghost var pending := ctx.pendingStartEffects;
    ghost var props := ctx.props;
    var i := 0;
    while i < |script|
      invariant 0 <= i <= |script|
      invariant FreshPrefix(ctx, script, i, pending, props)
    {
      r := FreshStep(ctx, script, i, pending, props);
      if r.Fail? {
        return;
      }
      i := i + 1;
    }
    r := Pass;
  }

  /** A resumption pass after the first `i` declarations of `script`, all of them matched. */
  ghost predicate ResumedPrefix(ctx: RenderCtx, script: seq<Decl>, i: nat, hooks: seq<HookData>, view: seq<MetadataHook>,
                                pending: seq<Effect>, props: Props)
    reads ctx, ctx.expectedHooks
  {
    && ctx.Valid() && !ctx.isInitial && ctx.hookIdx == i && i <= |script|
    && ctx.expectedHooks == hooks && ctx.Expected() == view && ctx.props == props
    && i <= |hooks| && ctx.addedHooks == hooks[..i]
    && ctx.pendingStartEffects == pending + ScriptEffects(script[..i])
    && (forall k :: 0 <= k < i ==> view[k].kind == DeclKind(script[k]))
    && (forall k :: 0 <= k < i && script[k].CallbackDecl? ==> hooks[k].callback == Some(script[k].callback))
  }

  /** Declaration `i` of a resumption pass. */
  method ResumedStep(ctx: RenderCtx, script: seq<Decl>, i: nat, ghost hooks: seq<HookData>, ghost view: seq<MetadataHook>,
                     ghost pending: seq<Effect>, ghost props: Props) returns (r: Outcome)
    requires ResumedPrefix(ctx, script, i, hooks, view, pending, props) && i < |script|
    modifies ctx, ctx.expectedHooks
    ensures r.Pass? ==> ResumedPrefix(ctx, script, i + 1, hooks, view, pending, props)
    ensures r.Fail? ==> ctx.Valid() && !ctx.isInitial && ctx.expectedHooks == hooks && ctx.Expected() == view && ctx.props == props
    ensures r.Fail? ==> !Matches(view, i, DeclKind(script[i])) && (r.error.HookCountMismatch? || r.error.HookKindMismatch?)
  {
    r := DeclareResumedOne(ctx, script[i]);
    if r.Fail? {
      return;
    }
    assert ctx.expectedHooks[..i + 1] == ctx.expectedHooks[..i] + [ctx.expectedHooks[i]];
    assert script[..i + 1] == script[..i] + [script[i]];
    ScriptEffectsSnoc(script[..i], script[i]);
  }

  /** The declarations of a resumption pass, stopping at the first one the ledger does not expect. */
  method DeclareResumed(ctx: RenderCtx, script: seq<Decl>) returns (r: Outcome)
    requires ctx.Valid() && !ctx.isInitial && ctx.hookIdx == 0 && ctx.addedHooks == []
    modifies ctx, ctx.expectedHooks
    ensures ctx.Valid() && !ctx.isInitial && ctx.props == old(ctx.props)
    ensures ctx.expectedHooks == old(ctx.expectedHooks) && ctx.Expected() == old(ctx.Expected())
    ensures r.Pass? <==> |script| <= |ctx.expectedHooks| && forall k :: 0 <= k < |script| ==> ctx.Expected()[k].kind == DeclKind(script[k])
    ensures r.Fail? ==> r.error.HookCountMismatch? || r.error.HookKindMismatch?
    ensures r.Pass? ==>
      ResumedPrefix(ctx, script, |script|, old(ctx.expectedHooks), old(ctx.Expected()), old(ctx.pendingStartEffects), old(ctx.props))
  {
    ghost var hooks := ctx.expectedHooks;
    ghost var view := ctx.Expected();
    ghost var pending := ctx.pendingStartEffects;
    ghost var props := ctx.props;
    var i := 0;
    while i < |script|
      invariant 0 <= i <= |script|
      invariant ResumedPrefix(ctx, script, i, hooks, view, pending, props)
    {
      r := ResumedStep(ctx, script, i, hooks, view, pending, props);
      if r.Fail? {
        return;
      }
      i := i + 1;
    }
    r := Pass;
  }

  /**
   * One render pass of `script` followed by `finish`. A fresh pass succeeds
   * exactly when every initializer does and records the fresh ledger; a
   * resumption pass succeeds exactly when the declarations follow the
   * stored ledger kind for kind, and then keeps the very same hooks. Either
   * way the handlers of this pass are bound to the callback hooks.
   */
  method RenderPass(ctx: RenderCtx, script: seq<Decl>) returns (r: Outcome)
    requires ctx.Valid() && ctx.hookIdx == 0 && ctx.addedHooks == []
    modifies ctx, ctx.expectedHooks
    ensures ctx.Valid() && ctx.props == old(ctx.props)
    ensures old(ctx.isInitial) ==> (r.Pass? <==> InitsSucceed(script))
    ensures old(ctx.isInitial) && r.Pass? ==> ctx.Expected() == FreshLedger(ctx.name, script)
    ensures old(ctx.isInitial) && r.Fail? ==>
      exists k :: 0 <= k < |script| && script[k].StateDecl? && script[k].initial() == Err(r.error)
    ensures !old(ctx.isInitial) ==> (r.Pass? <==> Kinds(old(ctx.Expected())) == DeclKinds(script))
    ensures !old(ctx.isInitial) && r.Pass? ==> ctx.expectedHooks == old(ctx.expectedHooks) && ctx.Expected() == old(ctx.Expected())
    ensures !old(ctx.isInitial) && r.Fail? ==> IsLedgerMismatch(r.error)
    ensures r.Pass? ==> !ctx.isInitial && ctx.hookIdx == 0 && ctx.addedHooks == []
    ensures r.Pass? ==> ctx.pendingStartEffects == old(ctx.pendingStartEffects) + ScriptEffects(script)
    ensures r.Pass? ==> BoundTo(ctx.expectedHooks, script) && ctx.HandlersBound()
  {
    ghost var pending := ctx.pendingStartEffects;
    ghost var props := ctx.props;
    if ctx.isInitial {
      r := DeclareFresh(ctx, script);
      if r.Fail? {
        return;
      }
      r := FinishFresh(ctx, script, pending, props);
    } else {
      ghost var hooks := ctx.expectedHooks;
      ghost var view := ctx.Expected();
      KindsAgree(view, script);
      r := DeclareResumed(ctx, script);
      if r.Fail? {
        return;
      }
      r := FinishResumed(ctx, script, hooks, view, pending, props);
    }
  }

  /** The kind lists agree exactly when the lengths do and each position does. */
  lemma KindsAgree(hooks: seq<MetadataHook>, script: seq<Decl>)
    ensures Kinds(hooks) == DeclKinds(script) <==>
      |script| == |hooks| && forall k :: 0 <= k < |script| ==> hooks[k].kind == DeclKind(script[k])
  {
    if Kinds(hooks) == DeclKinds(script) {
      forall k | 0 <= k < |script|
        ensures hooks[k].kind == DeclKind(script[k])
      {
        assert Kinds(hooks)[k] == DeclKinds(script)[k];
      }
    }
  }

  /** `finish` after a fresh pass: the fresh ledger becomes the expected one. */
  method FinishFresh(ctx: RenderCtx, script: seq<Decl>, ghost pending: seq<Effect>, ghost props: Props) returns (r: Outcome)
    requires FreshPrefix(ctx, script, |script|, pending, props)
    modifies ctx
    ensures r == Pass && ctx.Valid() && ctx.props == props
    ensures !ctx.isInitial && ctx.hookIdx == 0 && ctx.addedHooks == []
    ensures InitsSucceed(script) && ctx.Expected() == FreshLedger(ctx.name, script)
    ensures ctx.pendingStartEffects == pending + ScriptEffects(script)
    ensures BoundTo(ctx.expectedHooks, script) && ctx.HandlersBound()
  {
    assert script[..|script|] == script;
    r := ctx.Finish();
    forall k | 0 <= k < |ctx.expectedHooks| && ctx.expectedHooks[k].kind == HookCallback
      ensures ctx.expectedHooks[k].callback.Some?
    {
      assert ctx.Expected()[k].kind == HookCallback;
    }
  }

  /** `finish` after a resumption pass: it fails when the pass declared fewer hooks than stored. */
  method FinishResumed(ctx: RenderCtx, script: seq<Decl>, ghost hooks: seq<HookData>, ghost view: seq<MetadataHook>,
                       ghost pending: seq<Effect>, ghost props: Props) returns (r: Outcome)
    requires ResumedPrefix(ctx, script, |script|, hooks, view, pending, props)
    modifies ctx
    ensures ctx.Valid() && ctx.props == props
    ensures r.Pass? <==> |hooks| == |script|
    ensures r.Fail? ==> r.error.LedgerLengthMismatch?
    ensures r.Pass? ==> ctx.expectedHooks == hooks && ctx.Expected() == view
    ensures r.Pass? ==> !ctx.isInitial && ctx.hookIdx == 0 && ctx.addedHooks == []
    ensures r.Pass? ==> ctx.pendingStartEffects == pending + ScriptEffects(script)
    ensures r.Pass? ==> BoundTo(ctx.expectedHooks, script) && ctx.HandlersBound()
  {
    assert script[..|script|] == script;
    r := ctx.Finish();
    if r.Pass? {
      assert hooks[..|script|] == hooks;
      forall k | 0 <= k < |ctx.expectedHooks| && ctx.expectedHooks[k].kind == HookCallback
        ensures ctx.expectedHooks[k].callback.Some?
      {
        assert view[k].kind == HookCallback;
      }
    }
  }

  /** A fresh ledger's callback hooks are found at their own positions. */
  lemma FreshCallbackLookup(name: string, script: seq<Decl>, i: nat)
    requires InitsSucceed(script) && i < |script| && script[i].CallbackDecl?
    ensures FirstCallback(FreshLedger(name, script), CallbackID(name, i)) == Some(i)
  {
    var ledger := FreshLedger(name, script);
    var f := FirstCallback(ledger, CallbackID(name, i));
    assert IsCallbackFor(ledger[i], CallbackID(name, i));
    if f.Some? && f.value != i {
      assert ledger[f.value] == FreshHook(name, script[f.value], f.value);
      CallbackIDInjective(name, f.value, i);
    }
  }

  /** The ledger of a fresh pass, in wire form. */
  method FreshPass(name: string, props: Props, source: SourceInfo, script: seq<Decl>)
    returns (r: Outcome, ledger: seq<MetadataHook>)
    ensures r.Pass? <==> InitsSucceed(script)
    ensures r.Pass? ==> ledger == FreshLedger(name, script)
  {
    var ctx := new RenderCtx(name, props, None, source, None);
    r := RenderPass(ctx, script);
    ledger := ctx.SerializeHooks();
  }

  /** A context resuming `meta`, after a first pass of `script` has rebound the handlers. */
  method Resume(meta: Metadata.JetMetadata, source: SourceInfo, script: seq<Decl>) returns (ctx: RenderCtx, r: Outcome)
    ensures fresh(ctx) && ctx.Valid()
    ensures r.Pass? <==> Kinds(meta.hooks) == DeclKinds(script)
    ensures r.Fail? ==> IsLedgerMismatch(r.error)
    ensures r.Pass? ==> !ctx.isInitial && ctx.hookIdx == 0 && ctx.addedHooks == []
    ensures r.Pass? ==> ctx.Expected() == meta.hooks && BoundTo(ctx.expectedHooks, script)
    ensures r.Pass? ==> forall k :: 0 <= k < |ctx.expectedHooks| ==> fresh(ctx.expectedHooks[k])
  {
    ctx := new RenderCtx(meta.flow, meta.props, Some(meta), source, None);
    r := RenderPass(ctx, script);
  }

  lemma FreshLedgerKinds(name: string, script: seq<Decl>)
    requires InitsSucceed(script)
    ensures Kinds(FreshLedger(name, script)) == DeclKinds(script)
  {
  }

  /**
   * A fresh pass, its ledger written into message metadata and read back,
   * and a resumption pass of the same script: the resumption succeeds and
   * keeps the ledger, callback identifiers included, unchanged.
   */
  method FreshThenResume(name: string, props: Props, source: SourceInfo, script: seq<Decl>, codec: Metadata.Codec)
    returns (first: seq<MetadataHook>, resumed: Outcome, second: seq<MetadataHook>)
    requires InitsSucceed(script) && Metadata.RoundTrips(codec)
    ensures first == FreshLedger(name, script)
    ensures resumed == Pass && second == first
  {
    var r;
    r, first := FreshPass(name, props, source, script);
    var meta := Metadata.Serialize(None, name, first);
    Metadata.DeserializeFresh(name, first, codec);
    var decoded := Metadata.Deserialize(meta, "", codec);
    FreshLedgerKinds(name, script);
    var ctx;
    ctx, resumed := Resume(decoded.value, source, script);
    second := ctx.SerializeHooks();
  }

  /**
   * A stored ledger resumed for one operation: a first pass rebinds the
   * handlers, the between-stages mutation is applied, and a second pass
   * renders the outcome. It succeeds exactly when the script follows the
   * ledger and the mutation succeeds; an async state update lands in the
   * ledger and nothing else changes.
   */
  method ResumeWith(meta: Metadata.JetMetadata, source: SourceInfo, script: seq<Decl>,
                    between: Stages.BetweenStages, run: Handler)
    returns (r: Outcome, ledger: seq<MetadataHook>)
    ensures Kinds(meta.hooks) != DeclKinds(script) ==> r.Fail? && IsLedgerMismatch(r.error)
    ensures between.SetState? ==>
      (r.Pass? <==> Kinds(meta.hooks) == DeclKinds(script) && Matches(meta.hooks, between.hookID, HookState))
    ensures between.SetState? && r.Pass? ==>
      ledger == meta.hooks[between.hookID := MetadataHook(HookState, between.value, meta.hooks[between.hookID].callbackID)]
    ensures between.TriggerCallbacks? && Kinds(meta.hooks) == DeclKinds(script) ==>
      r == ScriptFireAll(meta.hooks, script, between.actions, run).outcome
    ensures between.TriggerCallbacks? && Kinds(meta.hooks) == DeclKinds(script) && r.Pass? ==>
      ledger == WriteStates(meta.hooks, ScriptFireAll(meta.hooks, script, between.actions, run).writes)
  {
    ledger := [];
    var ctx;
    ctx, r := Resume(meta, source, script);
    if r.Fail? {
      return;
    }
    r, ledger := Rerender(ctx, script, between, run);
  }

  /** The between-stages mutation and the second pass of a resumed operation. */
  method Rerender(ctx: RenderCtx, script: seq<Decl>, between: Stages.BetweenStages, run: Handler)
    returns (r: Outcome, ledger: seq<MetadataHook>)
    requires ctx.Valid() && !ctx.isInitial && ctx.hookIdx == 0 && ctx.addedHooks == []
    requires BoundTo(ctx.expectedHooks, script) && Kinds(ctx.Expected()) == DeclKinds(script)
    modifies ctx, ctx.expectedHooks
    ensures between.SetState? ==> (r.Pass? <==> Matches(old(ctx.Expected()), between.hookID, HookState))
    ensures between.SetState? && r.Pass? ==>
      ledger == old(ctx.Expected())[between.hookID := MetadataHook(HookState, between.value, old(ctx.Expected())[between.hookID].callbackID)]
    ensures between.TriggerCallbacks? ==> r == ScriptFireAll(old(ctx.Expected()), script, between.actions, run).outcome
    ensures between.TriggerCallbacks? && r.Pass? ==>
      ledger == WriteStates(old(ctx.Expected()), ScriptFireAll(old(ctx.Expected()), script, between.actions, run).writes)
  {
    ledger := [];
    ghost var before := ctx.Expected();
    if between.TriggerCallbacks? {
      BoundHandlers(ctx.expectedHooks, script);
      BoundActions(before, Handlers(ctx.expectedHooks), script, between.actions);
      TriggerAllAgrees(before, Handlers(ctx.expectedHooks), script, between.actions, run);
    }
    r := Stages.Apply(ctx, between, run);
    if r.Fail? {
      return;
    }
    if between.SetState? {
      assert Kinds(ctx.Expected()) == Kinds(before);
    } else {
      ShapeKinds(ctx.Expected(), before);
    }
    r := RenderPass(ctx, script);
    ledger := ctx.SerializeHooks();
  }

  /**
   * Triggering `actions` against a ledger the script's pass has bound: for
   * each action in turn, the first callback hook with its identifier runs
   * the handler the script declared there; the first failure stops it, and
   * the setter writes of every handler that ran are made in order.
   */
  function ScriptFireAll(ledger: seq<MetadataHook>, script: seq<Decl>, actions: seq<BlockAction>, run: Handler): Fired
    requires Kinds(ledger) == DeclKinds(script)
    decreases |actions|
  {
    if |actions| == 0 then Fired(Pass, [])
    else
      var f := match FirstCallback(ledger, actions[0].actionID)
        case None => Fired(Fail(UnknownCallback(actions[0].actionID)), [])
        case Some(k) =>
          assert Kinds(ledger)[k] == HookCallback;
          assert DeclKind(script[k]) == DeclKinds(script)[k];
          run(script[k].callback, actions[0]);
      if f.outcome.Fail? then f else Stages.After(f.writes, ScriptFireAll(ledger, script, actions[1..], run))
  }

  /** Each callback declaration's handler, at its own position. */
  predicate HandlersOf(handlers: seq<Option<Callback>>, script: seq<Decl>) {
    && |handlers| == |script|
    && forall k :: 0 <= k < |script| && script[k].CallbackDecl? ==> handlers[k] == Some(script[k].callback)
  }

  lemma BoundHandlers(hs: seq<HookData>, script: seq<Decl>)
    requires BoundTo(hs, script)
    ensures HandlersOf(Handlers(hs), script)
  {
  }

  /** Ledgers of one shape have the same kinds. */
  lemma ShapeKinds(a: seq<MetadataHook>, b: seq<MetadataHook>)
    requires SameShape(a, b)
    ensures Kinds(a) == Kinds(b)
  {
    assert forall i :: 0 <= i < |a| ==> Kinds(a)[i] == Kinds(b)[i];
  }

  /** After a pass of the script, every action's lookup reaches a bound handler. */
  lemma BoundActions(ledger: seq<MetadataHook>, handlers: seq<Option<Callback>>, script: seq<Decl>, actions: seq<BlockAction>)
    requires HandlersOf(handlers, script) && Kinds(ledger) == DeclKinds(script)
    ensures Stages.AllBound(ledger, handlers, actions)
  {
    forall i | 0 <= i < |actions|
      ensures BoundFor(ledger, handlers, actions[i].actionID)
    {
      var f := FirstCallback(ledger, actions[i].actionID);
      if f.Some? {
        assert Kinds(ledger)[f.value] == HookCallback;
        assert DeclKind(script[f.value]) == DeclKinds(script)[f.value];
      }
    }
  }

  /**
   * Triggering against the handlers a pass bound is triggering against the
   * script's declarations.
   */
  lemma {:induction false} TriggerAllAgrees(ledger: seq<MetadataHook>, handlers: seq<Option<Callback>>, script: seq<Decl>,
                                            actions: seq<BlockAction>, run: Handler)
    requires HandlersOf(handlers, script) && Kinds(ledger) == DeclKinds(script)
    requires Stages.AllBound(ledger, handlers, actions)
    ensures Stages.FireAll(ledger, handlers, actions, run) == ScriptFireAll(ledger, script, actions, run)
    decreases |actions|
  {
    if |actions| > 0 {
      var f := FirstCallback(ledger, actions[0].actionID);
      if f.Some? {
        assert Kinds(ledger)[f.value] == HookCallback;
        assert DeclKind(script[f.value]) == DeclKinds(script)[f.value];
      }
      assert Stages.AllBound(ledger, handlers, actions[1..]) by {
        forall i | 0 <= i < |actions[1..]|
          ensures BoundFor(ledger, handlers, actions[1..][i].actionID)
        {
          assert actions[1..][i] == actions[i + 1];
        }
      }
      TriggerAllAgrees(ledger, handlers, script, actions[1..], run);
    }
  }

  /**
   * A click whose handler calls the setter of state `k` once: the actions
   * pass, and the ledger the second pass renders holds the new value in that
   * hook and everything else as it was.
   */
  lemma ClickSetsState(ledger: seq<MetadataHook>, script: seq<Decl>, action: BlockAction, run: Handler, c: nat, k: nat, v: Raw)
    requires Kinds(ledger) == DeclKinds(script) && Matches(ledger, k, HookState)
    requires FirstCallback(ledger, action.actionID) == Some(c) && c < |script| && script[c].CallbackDecl?
    requires run(script[c].callback, action) == Fired(Pass, [StateWrite(k, v)])
    ensures ScriptFireAll(ledger, script, [action], run) == Fired(Pass, [StateWrite(k, v)])
    ensures WriteStates(ledger, [StateWrite(k, v)])[k] == ledger[k].(data := v)
    ensures forall j :: 0 <= j < |ledger| && j != k ==> WriteStates(ledger, [StateWrite(k, v)])[j] == ledger[j]
  {
    assert [action][1..] == [];
    LastWriteWins(ledger, [StateWrite(k, v)], k, 0);
    forall j | 0 <= j < |ledger| && j != k
      ensures WriteStates(ledger, [StateWrite(k, v)])[j] == ledger[j]
    {
      UnwrittenKept(ledger, [StateWrite(k, v)], j);
    }
  }
}
