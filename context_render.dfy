/**
 * context_render.go: the older render context. Same cursor and ledgers as
 * render_context.go, but fetchHook and addState return no index, there is
 * no updateState and no effect hook, and a fresh callback identifier is
 * made from the cursor AFTER it has moved on.
 */
module ContextRender {
  import opened Wrappers
  import opened Types
  import opened Errors
  import opened Ledger
  import Metadata

  class RenderCtx {
    const name: string
    var isInitial: bool
    var hookIdx: nat
    var expectedHooks: seq<HookData>
    var addedHooks: seq<HookData>
    var props: Props
    const source: SourceInfo

    /**
     * A fresh pass has no expected ledger; no hook object occurs twice in a
     * ledger; and on a resumption pass no hook already added is one the
     * cursor has still to reach, so each hook is added at most once.
     */
    ghost predicate Valid()
      reads this
    {
      && (isInitial ==> expectedHooks == [])
      && Distinct(expectedHooks)
      && Distinct(addedHooks)
      && (forall j, k :: 0 <= j < |addedHooks| && hookIdx <= k < |expectedHooks| ==> addedHooks[j] != expectedHooks[k])
    }

    ghost function Expected(): seq<MetadataHook>
      reads this, expectedHooks
    {
      Views(expectedHooks)
    }

    ghost function Added(): seq<MetadataHook>
      reads this, addedHooks
    {
      Views(addedHooks)
    }

    /** The hook a callback lookup for `id` would run has a handler (Go panics on a nil func). */
    ghost predicate Bound(id: string)
      reads this, expectedHooks
    {
      BoundFor(Expected(), Handlers(expectedHooks), id)
    }

    function Source(): SourceInfo {
      source
    }

    /** `newRenderContext`: a resumption context exactly when metadata is given. */
    constructor (name: string, props: Props, metadata: Option<Metadata.JetMetadata>, source: SourceInfo)
      ensures Valid()
      ensures this.name == name && this.source == source
      ensures isInitial <==> metadata.None?
      ensures hookIdx == 0 && addedHooks == []
      ensures metadata.None? ==> expectedHooks == [] && this.props == props
      ensures metadata.Some? ==> Expected() == metadata.value.hooks && this.props == metadata.value.props
      ensures forall i :: 0 <= i < |expectedHooks| ==> fresh(expectedHooks[i]) && expectedHooks[i].callback == None
    {
      var hooks: seq<HookData> := [];
      var p := props;
      if metadata.Some? {
        var src := metadata.value.hooks;
        var i := 0;
        while i < |src|
          invariant 0 <= i <= |src|
          invariant |hooks| == i
          invariant Distinct(hooks)
          invariant forall k :: 0 <= k < i ==> fresh(hooks[k]) && hooks[k].callback == None && View(hooks[k]) == src[k]
        {
          var h := new HookData(src[i].kind, src[i].data, src[i].callbackID);
          hooks := hooks + [h];
          i := i + 1;
        }
        p := metadata.value.props;
      }
      this.name := name;
      this.isInitial := metadata.None?;
      this.hookIdx := 0;
      this.expectedHooks := hooks;
      this.addedHooks := [];
      this.props := p;
      this.source := source;
    }

    /**
     * `fetchHook(kind)`: moves the cursor on by one whatever happens. A fresh
     * pass accepts any kind with a new hook; a resumption pass returns the
     * stored hook at the cursor, or fails when the position is out of range or
     * holds another kind.
     */
    method FetchHook(kind: string) returns (r: Result<HookData>)
      requires Valid()
      modifies this
      ensures Valid()
      ensures hookIdx == old(hookIdx) + 1
      ensures isInitial == old(isInitial) && expectedHooks == old(expectedHooks) && addedHooks == old(addedHooks)
      ensures props == old(props)
      ensures old(isInitial) ==> r.Ok? && fresh(r.value)
      ensures old(isInitial) ==> View(r.value) == MetadataHook(kind, [], "") && r.value.callback == None
      ensures !old(isInitial) ==> (r.Ok? <==> Matches(Expected(), old(hookIdx), kind))
      ensures !old(isInitial) && r.Ok? ==> r.value == expectedHooks[old(hookIdx)]
      ensures r.Err? ==> r.error == MismatchAt(Expected(), old(hookIdx), kind)
      ensures r.Ok? ==> r.value !in addedHooks
      ensures r.Ok? ==> forall k :: hookIdx <= k < |expectedHooks| ==> r.value != expectedHooks[k]
    {
      var currentIdx := hookIdx;
      hookIdx := hookIdx + 1;
      if isInitial {
        var h := new HookData(kind, [], "");
        return Ok(h);
      }
      if currentIdx >= |expectedHooks| {
        return Err(HookCountMismatch(currentIdx + 1, |expectedHooks|));
      }
      var expected := expectedHooks[currentIdx];
      if expected.kind != kind {
        return Err(HookKindMismatch(currentIdx + 1, expected.kind, kind));
      }
      return Ok(expected);
    }

    /**
     * `addState(initial)`: the initializer is consulted only on a fresh pass;
     * a resumption pass returns the stored data. The returned hook is the
     * setter's target (`SetData`) and is appended to the added ledger.
     */
    method AddState(initial: () -> Result<Raw>) returns (r: Result<(Raw, HookData)>)
      requires Valid()
      modifies this
      ensures Valid()
      ensures hookIdx == old(hookIdx) + 1
      ensures isInitial == old(isInitial) && expectedHooks == old(expectedHooks)
      ensures props == old(props)
      ensures Expected() == old(Expected())
      ensures r.Err? ==> addedHooks == old(addedHooks)
      ensures r.Ok? ==> addedHooks == old(addedHooks) + [r.value.1] && r.value.1.kind == HookState
      ensures old(isInitial) ==> (r.Ok? <==> initial().Ok?)
      ensures old(isInitial) && r.Err? ==> r.error == initial().error
      ensures old(isInitial) && r.Ok? ==>
        && r.value.0 == initial().value && fresh(r.value.1)
        && r.value.1.callback == None
        && Added() == old(Added()) + [MetadataHook(HookState, initial().value, "")]
      ensures !old(isInitial) ==> (r.Ok? <==> Matches(Expected(), old(hookIdx), HookState))
      ensures !old(isInitial) && r.Err? ==> r.error == MismatchAt(Expected(), old(hookIdx), HookState)
      ensures !old(isInitial) && r.Ok? ==>
        && r.value == (expectedHooks[old(hookIdx)].data, expectedHooks[old(hookIdx)])
        && Added() == old(Added()) + [Expected()[old(hookIdx)]]
    {
      var f := FetchHook(HookState);
      if f.Err? {
        return Err(f.error);
      }
      var prev := f.value;
      if isInitial {
        var v := initial();
        if v.Err? {
          return Err(v.error);
        }
        prev.SetData(v.value);
      }
      addedHooks := addedHooks + [prev];
      assert Views(addedHooks) == Views(old(addedHooks)) + [View(prev)];
      return Ok((prev.data, prev));
    }

    /**
     * `addCallback(callback)`: a fresh pass names the callback after the flow
     * and the cursor as it stands after fetchHook, one past the hook's own
     * position; a resumption pass keeps the stored identifier and only
     * rebinds the handler.
     */
    method AddCallback(callback: Callback) returns (r: Result<string>)
      requires Valid()
      modifies this, expectedHooks
      ensures Valid()
      ensures hookIdx == old(hookIdx) + 1
      ensures isInitial == old(isInitial) && expectedHooks == old(expectedHooks)
      ensures props == old(props)
      ensures Expected() == old(Expected())
      ensures forall k :: 0 <= k < |expectedHooks| && k != old(hookIdx) ==> expectedHooks[k].callback == old(expectedHooks[k].callback)
      ensures r.Err? ==> addedHooks == old(addedHooks)
      ensures r.Ok? ==> |addedHooks| == |old(addedHooks)| + 1 && addedHooks[..|old(addedHooks)|] == old(addedHooks)
      ensures r.Ok? ==> addedHooks[|old(addedHooks)|].callback == Some(callback)
      ensures old(isInitial) ==> r == Ok(CallbackID(name, old(hookIdx) + 1))
      ensures old(isInitial) ==> fresh(addedHooks[|old(addedHooks)|])
      ensures old(isInitial) ==> Added() == old(Added()) + [MetadataHook(HookCallback, [], CallbackID(name, old(hookIdx) + 1))]
      ensures !old(isInitial) ==> (r.Ok? <==> Matches(Expected(), old(hookIdx), HookCallback))
      ensures !old(isInitial) && r.Err? ==> r.error == MismatchAt(Expected(), old(hookIdx), HookCallback)
      ensures !old(isInitial) && r.Ok? ==>
        && r.value == Expected()[old(hookIdx)].callbackID
        && addedHooks == old(addedHooks) + [expectedHooks[old(hookIdx)]]
        && Added() == old(Added()) + [Expected()[old(hookIdx)]]
    {
      var f := FetchHook(HookCallback);
      if f.Err? {
        return Err(f.error);
      }
      var prev := f.value;
      prev.callback := Some(callback);
      if isInitial {
        prev.callbackID := CallbackID(name, hookIdx);
      }
      addedHooks := addedHooks + [prev];
      assert Views(addedHooks) == Views(old(addedHooks)) + [View(prev)];
      assert Views(expectedHooks) == old(Views(expectedHooks));
      return Ok(prev.callbackID);
    }

    /**
     * `triggerCallback(id, action)`: runs the handler of the first callback
     * hook, in ledger order, whose identifier is `id`; "unknown callback" when
     * there is none. `run` stands for executing the handler; the state
     * setters it calls write into the hooks of the expected ledger.
     */
    method TriggerCallback(callbackID: string, action: BlockAction, run: Handler) returns (r: Outcome)
      requires Valid() && Bound(callbackID)
      modifies expectedHooks
      ensures FirstCallback(old(Expected()), callbackID).None? ==> r == Fail(UnknownCallback(callbackID)) && Expected() == old(Expected())
      ensures var f := old(Fire(Expected(), Handlers(expectedHooks), callbackID, action, run));
        r == f.outcome && Expected() == WriteStates(old(Expected()), f.writes)
      ensures Handlers(expectedHooks) == old(Handlers(expectedHooks))
    {
      var i := 0;
      while i < |expectedHooks|
        invariant 0 <= i <= |expectedHooks|
        invariant forall j :: 0 <= j < i ==> !IsCallbackFor(Expected()[j], callbackID)
      {
        var hook := expectedHooks[i];
        if hook.kind == HookCallback && hook.callbackID == callbackID {
          assert IsCallbackFor(Expected()[i], callbackID);
          assert Handlers(expectedHooks)[i] == hook.callback;
          var f := run(hook.callback.value, action);
          WriteHooks(expectedHooks, f.writes);
          return f.outcome;
        }
        i := i + 1;
      }
      r := Fail(UnknownCallback(callbackID));
    }

    /** `serialize()`: the expected ledger in wire form, position by position. */
    method Serialize() returns (hooks: seq<MetadataHook>)
      ensures |hooks| == |expectedHooks|
      ensures forall i :: 0 <= i < |hooks| ==>
        hooks[i] == MetadataHook(expectedHooks[i].kind, expectedHooks[i].data, expectedHooks[i].callbackID)
      ensures hooks == Expected()
    {
      hooks := [];
      var i := 0;
      while i < |expectedHooks|
        invariant 0 <= i <= |expectedHooks|
        invariant hooks == Expected()[..i]
      {
        var hook := expectedHooks[i];
        hooks := hooks + [MetadataHook(hook.kind, hook.data, hook.callbackID)];
        i := i + 1;
      }
    }

    /**
     * `finish()`: a resumption pass that added a different number of hooks
     * than expected fails and changes nothing; otherwise the added ledger
     * becomes the expected one and the cursor restarts, as a resumption.
     */
    method Finish() returns (r: Outcome)
      requires Valid()
      modifies this
      ensures Valid()
      ensures r.Fail? <==> !old(isInitial) && |old(expectedHooks)| != |old(addedHooks)|
      ensures r.Fail? ==> r.error == LedgerLengthMismatch(Kinds(old(Expected())), Kinds(old(Added())))
      ensures r.Fail? ==>
        isInitial == old(isInitial) && expectedHooks == old(expectedHooks) && addedHooks == old(addedHooks) && hookIdx == old(hookIdx)
      ensures r.Pass? ==> !isInitial && expectedHooks == old(addedHooks) && addedHooks == [] && hookIdx == 0
      ensures r.Pass? ==> Expected() == old(Added())
      ensures props == old(props)
    {
      if !isInitial {
        if |expectedHooks| != |addedHooks| {
          var expected := KindList(expectedHooks);
          var added := KindList(addedHooks);
          return Fail(LedgerLengthMismatch(expected, added));
        }
      }
      isInitial := false;
      expectedHooks := addedHooks;
      addedHooks := [];
      hookIdx := 0;
      return Pass;
    }
  }
}
