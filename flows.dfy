/**
 * flow.go: a flow built from a block renderer. The renderer itself is user
 * code; its result is a parameter of `Render`.
 */
module Flows {
  import opened Types
  import opened Errors

  /** `FlowHandle`: names a registered flow. */
  datatype FlowHandle = FlowHandle(id: string)

  /** A `FlowRenderer`; its code is outside the model. */
  datatype FlowRenderer = FlowRenderer(id: nat)

  datatype FlowOptions = FlowOptions(canUpdateWithoutInteraction: bool)

  datatype FlowImpl = FlowImpl(canUpdateWithoutInteraction: bool, render: FlowRenderer)

  /** `NewFlow(render, opts...)`: only the first option counts; without one the defaults hold. */
  function NewFlow(render: FlowRenderer, opts: seq<FlowOptions>): (f: FlowImpl)
    ensures f.render == render
    ensures f.canUpdateWithoutInteraction <==> |opts| > 0 && opts[0].canUpdateWithoutInteraction
  {
    var opt := if |opts| > 0 then opts[0] else FlowOptions(false);
    FlowImpl(opt.canUpdateWithoutInteraction, render)
  }

  function CanUpdateWithoutInteraction(f: FlowImpl): bool {
    f.canUpdateWithoutInteraction
  }

  /** Options after the first change nothing. */
  lemma OnlyFirstOption(render: FlowRenderer, opts: seq<FlowOptions>, more: seq<FlowOptions>)
    requires |opts| > 0
    ensures NewFlow(render, opts + more) == NewFlow(render, opts[..1])
  {
  }

  lemma DefaultNeedsInteraction(render: FlowRenderer)
    ensures !CanUpdateWithoutInteraction(NewFlow(render, []))
  {
  }

  /**
   * `Render`: the renderer's error is passed on with no message; otherwise an
   * in-channel message that replaces the original and holds exactly the
   * rendered blocks.
   */
  function Render(f: FlowImpl, rendered: Result<seq<Block>>): (r: Result<Msg>)
    ensures rendered.Err? ==> r == Err(rendered.error)
    ensures rendered.Ok? ==> r.Ok? && r.value.msgType == ResponseTypeInChannel && r.value.replaceOriginal
    ensures rendered.Ok? ==> r.value.blocks == rendered.value
    ensures rendered.Ok? ==> r.value.text == "" && !r.value.deleteOriginal && r.value.metadata == NoMetadata
  {
    match rendered
    case Err(e) => Err(e)
    case Ok(blocks) => Ok(EmptyMsg.(msgType := ResponseTypeInChannel, replaceOriginal := true, blocks := blocks))
  }
}
