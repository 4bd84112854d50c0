/**
 * hooks.go: the typed hooks a render function calls. `UseState` wraps the
 * raw state of `addState` in a value codec and hands out a setter that
 * re-encodes; `UseCallback` is `addCallback` itself. Their signatures are
 * those of the older render context of context_render.go.
 */
module Hooks {
  import opened Wrappers
  import opened Types
  import opened Errors
  import opened Ledger
  import opened ContextRender

  /** `json.Marshal` and `json.Unmarshal` for one state type. */
  datatype StateCodec<!T> = StateCodec(encode: T -> Result<Raw>, decode: Raw -> Result<T>)

  /** The codec reads back whatever it managed to write. */
  ghost predicate Decodes<T(!new)>(c: StateCodec<T>) {
    forall v: T :: c.encode(v).Ok? ==> c.decode(c.encode(v).value) == Ok(v)
  }

  /** The setter `UseState` returns: it writes the encoding of a new value into its hook. */
  datatype Setter<-T> = Setter(hook: HookData, encode: T -> Result<Raw>)

  /**
   * What `addState` yields for a state hook declared at position `idx`: on
   * a fresh pass the initializer's result, on a resumption pass the stored
   * data, or the mismatch error when the ledger holds no state there.
   */
  function StateRaw(isInitial: bool, expected: seq<MetadataHook>, idx: nat, init: Result<Raw>): Result<Raw> {
    if isInitial then init
    else if Matches(expected, idx, HookState) then Ok(expected[idx].data)
    else Err(MismatchAt(expected, idx, HookState))
  }

  /**
   * The value and error `UseState` returns for what `addState` yielded:
   * the initial value and the error when it failed or when the raw value
   * does not decode, the decoded value otherwise.
   */
  function Decoded<T>(raw: Result<Raw>, initialValue: T, c: StateCodec<T>): (T, Outcome) {
    match raw
    case Err(e) => (initialValue, Fail(e))
    case Ok(bytes) =>
      match c.decode(bytes)
      case Err(e) => (initialValue, Fail(InvalidStateType(e)))
      case Ok(v) => (v, Pass)
  }

  /**
   * `UseState(ctx, initialValue)`: declares a state hook whose initializer
   * is the encoding of `initialValue`, and decodes what it holds. A setter
   * is handed out exactly when there is no error; it writes the hook just
   * added to the ledger. The hook is added whenever `addState` succeeds,
   * even when its data then fails to decode.
   */
  method UseState<T>(ctx: RenderCtx, initialValue: T, codec: StateCodec<T>) returns (value: T, setter: Option<Setter<T>>, err: Outcome)
    requires ctx.Valid()
    modifies ctx
    ensures ctx.Valid() && ctx.hookIdx == old(ctx.hookIdx) + 1
    ensures ctx.isInitial == old(ctx.isInitial) && ctx.expectedHooks == old(ctx.expectedHooks) && ctx.Expected() == old(ctx.Expected())
    ensures ctx.props == old(ctx.props)
    ensures StateRaw(old(ctx.isInitial), old(ctx.Expected()), old(ctx.hookIdx), codec.encode(initialValue)).Err? ==>
      ctx.addedHooks == old(ctx.addedHooks)
    ensures StateRaw(old(ctx.isInitial), old(ctx.Expected()), old(ctx.hookIdx), codec.encode(initialValue)).Ok? ==>
      && |ctx.addedHooks| == |old(ctx.addedHooks)| + 1 && ctx.addedHooks[..|old(ctx.addedHooks)|] == old(ctx.addedHooks)
      && ctx.Added() == old(ctx.Added()) +
           [if old(ctx.isInitial) then MetadataHook(HookState, codec.encode(initialValue).value, "") else old(ctx.Expected())[old(ctx.hookIdx)]]
    ensures (value, err) == Decoded(StateRaw(old(ctx.isInitial), old(ctx.Expected()), old(ctx.hookIdx), codec.encode(initialValue)), initialValue, codec)
    ensures setter.Some? <==> err.Pass?
    ensures setter.Some? ==> setter.value.encode == codec.encode && setter.value.hook.kind == HookState
    ensures setter.Some? ==> ctx.addedHooks == old(ctx.addedHooks) + [setter.value.hook]
    ensures setter.Some? && old(ctx.isInitial) ==> fresh(setter.value.hook)
    ensures setter.Some? && !old(ctx.isInitial) ==> setter.value.hook == ctx.expectedHooks[old(ctx.hookIdx)]
  {
    var a := ctx.AddState(() => codec.encode(initialValue));
    if a.Err? {
      return initialValue, None, Fail(a.error);
    }
    var (raw, hook) := a.value;
    var decoded := codec.decode(raw);
    if decoded.Err? {
      return initialValue, None, Fail(InvalidStateType(decoded.error));
    }
    return decoded.value, Some(Setter(hook, codec.encode)), Pass;
  }

  /** The setter: an encoding error is returned and nothing is written. */
  method Set<T>(s: Setter<T>, newValue: T) returns (r: Outcome)
    modifies s.hook
    ensures s.encode(newValue).Err? ==> r == Fail(s.encode(newValue).error) && s.hook.data == old(s.hook.data)
    ensures s.encode(newValue).Ok? ==> r == Pass && s.hook.data == s.encode(newValue).value
    ensures s.hook.callback == old(s.hook.callback) && s.hook.callbackID == old(s.hook.callbackID)
  {
    var raw := s.encode(newValue);
    if raw.Err? {
      return Fail(raw.error);
    }
    s.hook.SetData(raw.value);
    return Pass;
  }

  /** `UseCallback(ctx, callback)` delegates to `addCallback` and keeps all of its contract. */
  method UseCallback(ctx: RenderCtx, callback: Callback) returns (r: Result<string>)
    requires ctx.Valid()
    modifies ctx, ctx.expectedHooks
    ensures ctx.Valid() && ctx.hookIdx == old(ctx.hookIdx) + 1
    ensures ctx.isInitial == old(ctx.isInitial) && ctx.expectedHooks == old(ctx.expectedHooks)
    ensures ctx.props == old(ctx.props) && ctx.Expected() == old(ctx.Expected())
    ensures forall k :: 0 <= k < |ctx.expectedHooks| && k != old(ctx.hookIdx) ==>
      ctx.expectedHooks[k].callback == old(ctx.expectedHooks[k].callback)
    ensures r.Err? ==> ctx.addedHooks == old(ctx.addedHooks)
    ensures r.Ok? ==> |ctx.addedHooks| == |old(ctx.addedHooks)| + 1 && ctx.addedHooks[..|old(ctx.addedHooks)|] == old(ctx.addedHooks)
    ensures r.Ok? ==> ctx.addedHooks[|old(ctx.addedHooks)|].callback == Some(callback)
    ensures old(ctx.isInitial) ==> r == Ok(CallbackID(ctx.name, old(ctx.hookIdx) + 1))
    ensures old(ctx.isInitial) ==> fresh(ctx.addedHooks[|old(ctx.addedHooks)|])
    ensures old(ctx.isInitial) ==>
      ctx.Added() == old(ctx.Added()) + [MetadataHook(HookCallback, [], CallbackID(ctx.name, old(ctx.hookIdx) + 1))]
    ensures !old(ctx.isInitial) ==> (r.Ok? <==> Matches(ctx.Expected(), old(ctx.hookIdx), HookCallback))
    ensures !old(ctx.isInitial) && r.Err? ==> r.error == MismatchAt(ctx.Expected(), old(ctx.hookIdx), HookCallback)
    ensures !old(ctx.isInitial) && r.Ok? ==>
      && r.value == ctx.Expected()[old(ctx.hookIdx)].callbackID
      && ctx.addedHooks == old(ctx.addedHooks) + [ctx.expectedHooks[old(ctx.hookIdx)]]
      && ctx.Added() == old(ctx.Added()) + [ctx.Expected()[old(ctx.hookIdx)]]
  {
    r := ctx.AddCallback(callback);
  }

  /** A fresh pass gives back the initial value when the codec is faithful. */
  lemma FreshStateIsInitial<T(!new)>(expected: seq<MetadataHook>, idx: nat, initialValue: T, c: StateCodec<T>)
    requires Decodes(c) && c.encode(initialValue).Ok?
    ensures Decoded(StateRaw(true, expected, idx, c.encode(initialValue)), initialValue, c) == (initialValue, Pass)
  {
  }

  /**
   * A value the setter wrote into the state hook at `idx` is what the next
   * resumption pass reads there, whatever the initial value.
   */
  lemma ResumedStateIsLastSet<T(!new)>(expected: seq<MetadataHook>, idx: nat, initialValue: T, newValue: T, c: StateCodec<T>)
    requires Decodes(c) && c.encode(newValue).Ok? && Matches(expected, idx, HookState)
    ensures var written := expected[idx := MetadataHook(HookState, c.encode(newValue).value, expected[idx].callbackID)];
      Decoded(StateRaw(false, written, idx, c.encode(initialValue)), initialValue, c) == (newValue, Pass)
  {
  }

  /**
   * A fresh pass declaring one state, `finish`, the setter, and a second
   * pass: the first pass reads the initial value and the second the value
   * set, because the setter writes the very hook `finish` promoted.
   */
  method SetThenResume<T(!new)>(name: string, props: Props, source: SourceInfo, initialValue: T, newValue: T, codec: StateCodec<T>)
    returns (first: T, second: T, err: Outcome)
    requires Decodes(codec) && codec.encode(initialValue).Ok? && codec.encode(newValue).Ok?
    ensures first == initialValue && second == newValue && err == Pass
  {
    var ctx := new RenderCtx(name, props, None, source);
    var setter, e;
    first, setter, e := UseState(ctx, initialValue, codec);
    var f := ctx.Finish();
    var hook := setter.value.hook;
    assert ctx.expectedHooks == [hook];
    var s := Set(setter.value, newValue);
    assert ctx.Expected() == [MetadataHook(HookState, codec.encode(newValue).value, hook.callbackID)];
    second, setter, err := UseState(ctx, initialValue, codec);
  }
}
