/**
 * The hook ledger shared by both render-context variants: `hookData`
 * objects (shared by pointer between the expected ledger, the added
 * ledger and the state setters), the hook kinds and the callback
 * identifier format.
 */
module Ledger {
  import opened Wrappers
  import opened Types
  import opened Errors
  import Format

  const HookState := "state"
  const HookCallback := "callback"
  const HookEffectStart := "effect-start"

  /** A callback closure `Callback`; its code is outside the model. */
  datatype Callback = Callback(handler: nat)

  /** An effect closure `Effect`; its code is outside the model. */
  datatype Effect = Effect(id: nat)

  /** `hookData`. Its kind is fixed when it is created. */
  class HookData {
    const kind: string
    var data: Raw
    var callback: Option<Callback>
    var callbackID: string

    constructor (kind: string, data: Raw, callbackID: string)
      ensures this.kind == kind && this.data == data && this.callbackID == callbackID
      ensures callback == None
    {
      this.kind := kind;
      this.data := data;
      this.callbackID := callbackID;
      callback := None;
    }

    /** The setter closure returned by addState: `prev.data = newValue`. */
    method SetData(newValue: Raw)
      modifies this
      ensures data == newValue
      ensures callback == old(callback) && callbackID == old(callbackID)
    {
      data := newValue;
    }
  }

  /** What of a hook is serialized: kind, data and callback identifier. */
  ghost function View(h: HookData): MetadataHook
    reads h
  {
    MetadataHook(h.kind, h.data, h.callbackID)
  }

  /** The wire form of a ledger, position by position. */
  ghost function Views(hs: seq<HookData>): seq<MetadataHook>
    reads hs
  {
    seq(|hs|, i reads hs requires 0 <= i < |hs| => View(hs[i]))
  }

  /** The handler bound to each hook of a ledger. */
  ghost function Handlers(hs: seq<HookData>): seq<Option<Callback>>
    reads hs
  {
    seq(|hs|, i reads hs requires 0 <= i < |hs| => hs[i].callback)
  }

  function Kinds(hooks: seq<MetadataHook>): seq<string> {
    seq(|hooks|, i requires 0 <= i < |hooks| => hooks[i].kind)
  }

  /** No hook object occurs twice in a ledger. */
  ghost predicate Distinct(hs: seq<HookData>) {
    forall i, j :: 0 <= i < j < |hs| ==> hs[i] != hs[j]
  }

  /** Every callback hook of the ledger has a handler bound. */
  ghost predicate CallbacksBound(hs: seq<HookData>)
    reads hs
  {
    forall k :: 0 <= k < |hs| && hs[k].kind == HookCallback ==> hs[k].callback.Some?
  }

  /** `fmt.Sprintf("jet_%s_cb_%x", name, index)`. */
  function CallbackID(name: string, index: nat): string {
    "jet_" + name + "_cb_" + Format.Hex(index)
  }

  /** Within one flow the identifier determines the index it was made from. */
  lemma CallbackIDInjective(name: string, m: nat, n: nat)
    requires CallbackID(name, m) == CallbackID(name, n)
    ensures m == n
  {
    var prefix := "jet_" + name + "_cb_";
    assert CallbackID(name, m)[|prefix|..] == Format.Hex(m);
    assert CallbackID(name, n)[|prefix|..] == Format.Hex(n);
    Format.HexInjective(m, n);
  }

  /** The entry a callback lookup for `id` accepts. */
  predicate IsCallbackFor(h: MetadataHook, id: string) {
    h.kind == HookCallback && h.callbackID == id
  }

  /** The first callback entry, in ledger order, whose identifier is `id`. */
  function FirstCallback(hooks: seq<MetadataHook>, id: string): (r: Option<nat>)
    ensures r.Some? ==> r.value < |hooks| && IsCallbackFor(hooks[r.value], id)
    ensures r.Some? ==> forall j :: 0 <= j < r.value ==> !IsCallbackFor(hooks[j], id)
    ensures r.None? ==> forall j :: 0 <= j < |hooks| ==> !IsCallbackFor(hooks[j], id)
  {
    if |hooks| == 0 then None
    else if IsCallbackFor(hooks[0], id) then Some(0)
    else
      match FirstCallback(hooks[1..], id)
      case Some(i) => Some(i + 1)
      case None => None
  }

  /** A resumption pass accepts a declaration of `kind` at position `idx`. */
  predicate Matches(hooks: seq<MetadataHook>, idx: nat, kind: string) {
    idx < |hooks| && hooks[idx].kind == kind
  }

  /** The error fetchHook reports when a declaration does not match (position counted from 1). */
  function MismatchAt(hooks: seq<MetadataHook>, idx: nat, kind: string): Error {
    if idx >= |hooks| then HookCountMismatch(idx + 1, |hooks|)
    else HookKindMismatch(idx + 1, hooks[idx].kind, kind)
  }

  /** The kind list finish builds for its error message (the loops of finish). */
  method KindList(hs: seq<HookData>) returns (ks: seq<string>)
    ensures |ks| == |hs|
    ensures forall i :: 0 <= i < |hs| ==> ks[i] == hs[i].kind
  {
    ks := [];
    var i := 0;
    while i < |hs|
      invariant 0 <= i <= |hs|
      invariant |ks| == i
      invariant forall k :: 0 <= k < i ==> ks[k] == hs[k].kind
    {
      ks := ks + [hs[i].kind];
      i := i + 1;
    }
  }
  /**
   * A call a state setter makes while a callback runs: the setter returned
   * by addState for the hook at `hookID` writes `value` into that hook.
   */
  datatype StateWrite = StateWrite(hookID: nat, value: Raw)

  /** What running a callback's handler does: its result, and the setter writes it made, in order. */
  datatype Fired = Fired(outcome: Outcome, writes: seq<StateWrite>)

  /** Running a handler on a block action; the handler's code is outside the model. */
  type Handler = (Callback, BlockAction) -> Fired

  /** Two ledgers with the same kinds and identifiers: a callback lookup cannot tell them apart. */
  predicate SameShape(a: seq<MetadataHook>, b: seq<MetadataHook>) {
    && |a| == |b|
    && forall i :: 0 <= i < |a| ==> a[i].kind == b[i].kind && a[i].callbackID == b[i].callbackID
  }

  /**
   * One setter write. A setter exists only for a state hook, so a write
   * anywhere else is no write at all; a state hook only gets new data.
   */
  function WriteState(hooks: seq<MetadataHook>, w: StateWrite): seq<MetadataHook> {
    if Matches(hooks, w.hookID, HookState) then hooks[w.hookID := hooks[w.hookID].(data := w.value)] else hooks
  }

  /** The ledger after `writes`, made in order; no kind and no identifier changes. */
  function WriteStates(hooks: seq<MetadataHook>, writes: seq<StateWrite>): (r: seq<MetadataHook>)
    ensures SameShape(r, hooks)
    decreases |writes|
  {
    if |writes| == 0 then hooks
    else WriteState(WriteStates(hooks, writes[..|writes| - 1]), writes[|writes| - 1])
  }

  /** Writes made in two batches are the writes made in one. */
  lemma {:induction false} WriteStatesAppend(hooks: seq<MetadataHook>, first: seq<StateWrite>, second: seq<StateWrite>)
    ensures WriteStates(WriteStates(hooks, first), second) == WriteStates(hooks, first + second)
    decreases |second|
  {
    if |second| > 0 {
      assert (first + second)[..|first + second| - 1] == first + second[..|second| - 1];
      assert (first + second)[|first + second| - 1] == second[|second| - 1];
      WriteStatesAppend(hooks, first, second[..|second| - 1]);
    } else {
      assert first + second == first;
    }
  }

  /** A hook no write targets, and any hook that is not a state, keeps what it held. */
  lemma {:induction false} UnwrittenKept(hooks: seq<MetadataHook>, writes: seq<StateWrite>, k: nat)
    requires k < |hooks|
    requires hooks[k].kind != HookState || forall j :: 0 <= j < |writes| ==> writes[j].hookID != k
    ensures WriteStates(hooks, writes)[k] == hooks[k]
    decreases |writes|
  {
    if |writes| > 0 {
      UnwrittenKept(hooks, writes[..|writes| - 1], k);
    }
  }

  /** A state hook holds the value of the last write that targets it. */
  lemma {:induction false} LastWriteWins(hooks: seq<MetadataHook>, writes: seq<StateWrite>, k: nat, j: nat)
    requires Matches(hooks, k, HookState)
    requires j < |writes| && writes[j].hookID == k
    requires forall j' :: j < j' < |writes| ==> writes[j'].hookID != k
    ensures WriteStates(hooks, writes)[k] == hooks[k].(data := writes[j].value)
    decreases |writes|
  {
    var before := WriteStates(hooks, writes[..|writes| - 1]);
    if j < |writes| - 1 {
      LastWriteWins(hooks, writes[..|writes| - 1], k, j);
    } else {
      UnwrittenKept(hooks, [], k);
      assert before[k].kind == HookState;
    }
  }

  /** Ledgers of one shape answer every callback lookup alike. */
  lemma {:induction false} FirstCallbackShape(a: seq<MetadataHook>, b: seq<MetadataHook>, id: string)
    requires SameShape(a, b)
    ensures FirstCallback(a, id) == FirstCallback(b, id)
    decreases |a|
  {
    if |a| > 0 {
      FirstCallbackShape(a[1..], b[1..], id);
    }
  }

  /** The handler a lookup for `id` reaches is bound (Go panics on a nil func). */
  predicate BoundFor(hooks: seq<MetadataHook>, handlers: seq<Option<Callback>>, id: string) {
    && |handlers| == |hooks|
    && (FirstCallback(hooks, id).Some? ==> handlers[FirstCallback(hooks, id).value].Some?)
  }

  /** Triggering `id`: the bound handler of the first matching callback hook, or "unknown callback". */
  function Fire(hooks: seq<MetadataHook>, handlers: seq<Option<Callback>>, id: string, action: BlockAction, run: Handler): Fired
    requires BoundFor(hooks, handlers, id)
  {
    match FirstCallback(hooks, id)
    case None => Fired(Fail(UnknownCallback(id)), [])
    case Some(i) => run(handlers[i].value, action)
  }

  /** Triggering on ledgers of one shape runs the same handler. */
  lemma FireShape(a: seq<MetadataHook>, b: seq<MetadataHook>, handlers: seq<Option<Callback>>, id: string, action: BlockAction, run: Handler)
    requires SameShape(a, b) && BoundFor(b, handlers, id)
    ensures BoundFor(a, handlers, id) && Fire(a, handlers, id, action, run) == Fire(b, handlers, id, action, run)
  {
    FirstCallbackShape(a, b, id);
  }

  /**
   * The setter calls of a callback, made on the hook objects of a ledger:
   * each write sets the data of one state hook and nothing else.
   */
  method WriteHooks(hs: seq<HookData>, writes: seq<StateWrite>)
    requires Distinct(hs)
    modifies hs
    ensures Views(hs) == WriteStates(old(Views(hs)), writes)
    ensures Handlers(hs) == old(Handlers(hs))
  {
    var i := 0;
    while i < |writes|
      invariant 0 <= i <= |writes|
      invariant Views(hs) == WriteStates(old(Views(hs)), writes[..i])
      invariant Handlers(hs) == old(Handlers(hs))
    {
      var w := writes[i];
      ghost var before := Views(hs);
      if w.hookID < |hs| && hs[w.hookID].kind == HookState {
        hs[w.hookID].SetData(w.value);
        assert Views(hs) == before[w.hookID := before[w.hookID].(data := w.value)];
      }
      assert writes[..i + 1][..i] == writes[..i];
      i := i + 1;
    }
    assert writes[..|writes|] == writes;
  }
}
