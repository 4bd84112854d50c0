/**
 * The mutations app.go applies to a render context between the two passes
 * of one operation: the callbacks named by the block actions of an
 * interaction (app.go:176-185), or one state update carrying an async
 * value (app.go:299-301). A callback's handler is outside the model: what
 * it returns and the state setters it calls are given by a `Handler`.
 */
module Stages {
  import opened Wrappers
  import opened Types
  import opened Errors
  import opened Ledger
  import opened RenderContext

  datatype BetweenStages =
    | TriggerCallbacks(actions: seq<BlockAction>)
    | SetState(hookID: nat, value: Raw)

  /** Every action names a callback whose first matching hook has a handler. */
  predicate AllBound(hooks: seq<MetadataHook>, handlers: seq<Option<Callback>>, actions: seq<BlockAction>) {
    forall i :: 0 <= i < |actions| ==> BoundFor(hooks, handlers, actions[i].actionID)
  }

  /** Writes already made, followed by what remains to be fired. */
  function After(writes: seq<StateWrite>, rest: Fired): Fired {
    Fired(rest.outcome, writes + rest.writes)
  }

  /**
   * The actions are triggered in order and the first failure is the result;
   * the setter writes of every handler that ran, the failing one included,
   * are made in that order. Writes change no kind and no identifier, so each
   * lookup runs against the ledger's shape as it was at the start.
   */
  function FireAll(hooks: seq<MetadataHook>, handlers: seq<Option<Callback>>, actions: seq<BlockAction>, run: Handler): Fired
    requires AllBound(hooks, handlers, actions)
    decreases |actions|
  {
    if |actions| == 0 then Fired(Pass, [])
    else
      var f := Fire(hooks, handlers, actions[0].actionID, actions[0], run);
      if f.outcome.Fail? then f
      else After(f.writes, FireAll(hooks, handlers, actions[1..], run))
  }

  /**
   * The loop of the block-actions closure: stops at the first failing
   * callback; the context's ledger ends up holding every write made.
   */
  method TriggerAll(ctx: RenderCtx, actions: seq<BlockAction>, run: Handler) returns (r: Outcome)
    requires ctx.Valid() && AllBound(ctx.Expected(), Handlers(ctx.expectedHooks), actions)
    modifies ctx.expectedHooks
    ensures var f := old(FireAll(ctx.Expected(), Handlers(ctx.expectedHooks), actions, run));
      r == f.outcome && ctx.Expected() == WriteStates(old(ctx.Expected()), f.writes)
    ensures Handlers(ctx.expectedHooks) == old(Handlers(ctx.expectedHooks))
  {
    ghost var hooks := ctx.Expected();
    ghost var handlers := Handlers(ctx.expectedHooks);
    ghost var written: seq<StateWrite> := [];
    var i := 0;
    while i < |actions|
      invariant 0 <= i <= |actions|
      invariant ctx.Valid() && Handlers(ctx.expectedHooks) == handlers
      invariant ctx.Expected() == WriteStates(hooks, written)
      invariant FireAll(hooks, handlers, actions, run) == After(written, FireAll(hooks, handlers, actions[i..], run))
    {
      var id := actions[i].actionID;
      FireShape(ctx.Expected(), hooks, handlers, id, actions[i], run);
      ghost var f := Fire(hooks, handlers, id, actions[i], run);
      FireStep(hooks, handlers, actions, i, written, run);
      r := ctx.TriggerCallback(id, actions[i], run);
      WriteStatesAppend(hooks, written, f.writes);
      written := written + f.writes;
      if r.Fail? {
        return;
      }
      i := i + 1;
    }
    assert actions[i..] == [] && written + [] == written;
    r := Pass;
  }

  /** One turn of the loop: the action at `i` fires, and the rest follow it unless it failed. */
  lemma FireStep(hooks: seq<MetadataHook>, handlers: seq<Option<Callback>>, actions: seq<BlockAction>, i: nat,
                 written: seq<StateWrite>, run: Handler)
    requires AllBound(hooks, handlers, actions) && i < |actions|
    ensures BoundFor(hooks, handlers, actions[i].actionID)
    ensures var f := Fire(hooks, handlers, actions[i].actionID, actions[i], run);
      && (f.outcome.Fail? ==> After(written, FireAll(hooks, handlers, actions[i..], run)) == Fired(f.outcome, written + f.writes))
      && (f.outcome.Pass? ==>
            After(written, FireAll(hooks, handlers, actions[i..], run)) == After(written + f.writes, FireAll(hooks, handlers, actions[i + 1..], run)))
  {
    assert actions[i..][0] == actions[i] && actions[i..][1..] == actions[i + 1..];
    var f := Fire(hooks, handlers, actions[i].actionID, actions[i], run);
    if f.outcome.Pass? {
      var rest := FireAll(hooks, handlers, actions[i + 1..], run);
      assert written + (f.writes + rest.writes) == written + f.writes + rest.writes;
    }
  }

  /**
   * The actions as a whole pass exactly when each one does, and a failure
   * is the failure of one of them.
   */
  lemma {:induction false} FireAllPasses(hooks: seq<MetadataHook>, handlers: seq<Option<Callback>>, actions: seq<BlockAction>, run: Handler)
    requires AllBound(hooks, handlers, actions)
    ensures FireAll(hooks, handlers, actions, run).outcome.Pass? <==>
      forall i :: 0 <= i < |actions| ==> Fire(hooks, handlers, actions[i].actionID, actions[i], run).outcome.Pass?
    ensures FireAll(hooks, handlers, actions, run).outcome.Fail? ==>
      exists i :: 0 <= i < |actions| && FireAll(hooks, handlers, actions, run).outcome == Fire(hooks, handlers, actions[i].actionID, actions[i], run).outcome
    decreases |actions|
  {
    if |actions| > 0 {
      assert AllBound(hooks, handlers, actions[1..]) by {
        forall i | 0 <= i < |actions[1..]|
          ensures BoundFor(hooks, handlers, actions[1..][i].actionID)
        {
          assert actions[1..][i] == actions[i + 1];
        }
      }
      FireAllPasses(hooks, handlers, actions[1..], run);
      var first := Fire(hooks, handlers, actions[0].actionID, actions[0], run);
      if FireAll(hooks, handlers, actions, run).outcome.Fail? && first.outcome.Pass? {
        var j :| 0 <= j < |actions[1..]| && FireAll(hooks, handlers, actions[1..], run).outcome == Fire(hooks, handlers, actions[1..][j].actionID, actions[1..][j], run).outcome;
        assert actions[1..][j] == actions[j + 1];
      }
      if first.outcome.Pass? {
        forall i | 0 < i < |actions|
          ensures actions[i] == actions[1..][i - 1]
        {
        }
      }
    }
  }

  /** Applies one between-stages mutation to the context. */
  method Apply(ctx: RenderCtx, between: BetweenStages, run: Handler) returns (r: Outcome)
    requires ctx.Valid()
    requires between.TriggerCallbacks? ==> AllBound(ctx.Expected(), Handlers(ctx.expectedHooks), between.actions)
    modifies ctx.expectedHooks
    ensures between.TriggerCallbacks? ==>
      var f := old(FireAll(ctx.Expected(), Handlers(ctx.expectedHooks), between.actions, run));
      r == f.outcome && ctx.Expected() == WriteStates(old(ctx.Expected()), f.writes)
    ensures between.SetState? ==> (r.Pass? <==> Matches(old(ctx.Expected()), between.hookID, HookState))
    ensures between.SetState? && r.Pass? ==>
      ctx.Expected() == old(ctx.Expected())[between.hookID := MetadataHook(HookState, between.value, old(ctx.Expected())[between.hookID].callbackID)]
    ensures between.SetState? && r.Fail? ==> ctx.Expected() == old(ctx.Expected())
    ensures forall k :: 0 <= k < |ctx.expectedHooks| ==> ctx.expectedHooks[k].callback == old(ctx.expectedHooks[k].callback)
  {
    match between
    case TriggerCallbacks(actions) =>
      r := TriggerAll(ctx, actions, run);
      forall k | 0 <= k < |ctx.expectedHooks|
        ensures ctx.expectedHooks[k].callback == old(ctx.expectedHooks[k].callback)
      {
        assert Handlers(ctx.expectedHooks)[k] == old(Handlers(ctx.expectedHooks))[k];
      }
    case SetState(hookID, value) =>
      r := ctx.UpdateState(hookID, value);
  }
}
