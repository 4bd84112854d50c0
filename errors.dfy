/**
 * The errors the jet package returns, one constructor per `errors.New` /
 * `fmt.Errorf` site, with the text Go's `err.Error()` would print.
 */
module Errors {
  import Format

  datatype Error =
    /** fetchHook: "must use the same amount and type of hooks in all renders, %d vs %d" */
    | HookCountMismatch(position: nat, expectedCount: nat)
    /** fetchHook: "must use the same amount and type of hooks in all renders, %d is different: %+v vs %+v" */
    | HookKindMismatch(position: nat, expectedKind: string, declaredKind: string)
    /** finish: "must use the same amount and type of hooks in all renders: %+v vs %+v" */
    | LedgerLengthMismatch(expectedKinds: seq<string>, addedKinds: seq<string>)
    | UnknownState(index: nat)
    | NotAState(index: nat)
    | UnknownCallback(callbackID: string)
    | MissingMetadata
    | UnmarshalMetadataFailed(cause: Error)
    | MarshalMetadataFailed(cause: Error)
    | InvalidStateType(cause: Error)
    | UnknownFlow
    | UnknownCommand
    | UnknownShortcut
    | UnknownInteractionType
    | UnknownViewSubmission
    | MissingChannelID
    | EffectWithoutUpdate
    | NotAModal
    | HomeWithoutMessage
    | DuplicateFlowHandle
    /** an error produced by code outside the model (a handler, the JSON codec, the Slack API) */
    | External(text: string)

  datatype Result<+T> = Ok(value: T) | Err(error: Error)

  datatype Outcome = Pass | Fail(error: Error)

  /** `%+v` of a `[]string`: the elements separated by spaces, in brackets. */
  function Bracketed(items: seq<string>): string {
    "[" + Joined(items) + "]"
  }

  function Joined(items: seq<string>): string {
    if |items| == 0 then ""
    else if |items| == 1 then items[0]
    else items[0] + " " + Joined(items[1..])
  }

  const MismatchPrefix := "must use the same amount and type of hooks in all renders"

  /** What `err.Error()` returns. */
  function Text(e: Error): string {
    match e
    case HookCountMismatch(p, n) => MismatchPrefix + ", " + Format.Decimal(p) + " vs " + Format.Decimal(n)
    case HookKindMismatch(p, k, d) => MismatchPrefix + ", " + Format.Decimal(p) + " is different: " + k + " vs " + d
    case LedgerLengthMismatch(ek, ak) => MismatchPrefix + ": " + Bracketed(ek) + " vs " + Bracketed(ak)
    case UnknownState(i) => "unknown state: " + Format.Decimal(i)
    case NotAState(i) => "hook " + Format.Decimal(i) + " is not a state"
    case UnknownCallback(id) => "unknown callback: " + id
    case MissingMetadata => "missing jet metadata"
    case UnmarshalMetadataFailed(c) => "failed to unmarshal jet metadata: " + Text(c)
    case MarshalMetadataFailed(c) => "failed to marshal jet metadata: " + Text(c)
    case InvalidStateType(c) => "invalid state type: " + Text(c)
    case UnknownFlow => "unknown flow"
    case UnknownCommand => "unknown command"
    case UnknownShortcut => "unknown shortcut"
    case UnknownInteractionType => "unknown interaction type"
    case UnknownViewSubmission => "unknown view submission"
    case MissingChannelID => "missing ChannelID when using CanUpdateWithoutInteraction"
    case EffectWithoutUpdate => "cannot use UseEffectAtStart without CanUpdateWithoutInteraction"
    case NotAModal => "message is not a modal"
    case HomeWithoutMessage => "cannot update Home with a CanUpdateWithoutInteraction flow"
    case DuplicateFlowHandle => "duplicate flow name"
    case External(t) => t
  }
}
