/**
 * metadata.go: the jet envelope inside the Slack message metadata. It lives
 * under the reserved payload key "__jet"; a view's private metadata string
 * carries the same `slack.SlackMetadata` as JSON when the event payload
 * does not echo it back.
 */
module Metadata {
  import opened Types
  import opened Errors

  const JetMetadataEntry := "__jet"
  const JetEventType := "jet"

  /** `slackMetadataJet`: the decoded envelope and the metadata it was found in. */
  datatype JetMetadata = JetMetadata(flow: string, hooks: seq<MetadataHook>, props: Props, original: SlackMetadata)

  /**
   * The JSON library, outside the model: `json.Marshal` of a payload value,
   * `json.Unmarshal` of that text into the envelope, and `json.Unmarshal` of a
   * private-metadata string into a `slack.SlackMetadata`.
   */
  datatype Codec = Codec(
    marshalValue: Value -> Result<Raw>,
    unmarshalEnvelope: Raw -> Result<Envelope>,
    unmarshalMetadata: string -> Result<SlackMetadata>)

  /** The assumption about the JSON library: an envelope survives marshal then unmarshal. */
  ghost predicate RoundTrips(c: Codec) {
    forall e: Envelope ::
      c.marshalValue(EnvelopeValue(e)).Ok? &&
      c.unmarshalEnvelope(c.marshalValue(EnvelopeValue(e)).value) == Ok(e)
  }

  /**
   * Re-encodes a payload entry and decodes it as the envelope: a failure of
   * either step is reported as such; otherwise the flow, ledger and props are
   * the decoded envelope's, tagged with the metadata the entry came from.
   */
  function DecodeEntry(entry: Value, original: SlackMetadata, c: Codec): (r: Result<JetMetadata>)
    ensures c.marshalValue(entry).Err? ==> r == Err(MarshalMetadataFailed(c.marshalValue(entry).error))
    ensures c.marshalValue(entry).Ok? && c.unmarshalEnvelope(c.marshalValue(entry).value).Err? ==>
      r == Err(UnmarshalMetadataFailed(c.unmarshalEnvelope(c.marshalValue(entry).value).error))
    ensures r.Ok? <==> c.marshalValue(entry).Ok? && c.unmarshalEnvelope(c.marshalValue(entry).value).Ok?
    ensures r.Ok? ==>
      var env := c.unmarshalEnvelope(c.marshalValue(entry).value).value;
      r.value == JetMetadata(env.flow, env.hooks, env.props, original)
  {
    match c.marshalValue(entry)
    case Err(e) => Err(MarshalMetadataFailed(e))
    case Ok(text) =>
      match c.unmarshalEnvelope(text)
      case Err(e) => Err(UnmarshalMetadataFailed(e))
      case Ok(env) => Ok(JetMetadata(env.flow, env.hooks, env.props, original))
  }

  /**
   * `deserializeMetadata(meta, privMeta)`: the `"__jet"` entry of the event
   * payload is decoded when present; otherwise the private metadata string
   * is parsed as metadata and its entry decoded. A missing entry, and a
   * missing private metadata string, are "missing jet metadata".
   */
  function Deserialize(meta: SlackMetadata, privMeta: string, c: Codec): (r: Result<JetMetadata>)
    ensures JetMetadataEntry in meta.eventPayload ==> r == DecodeEntry(meta.eventPayload[JetMetadataEntry], meta, c)
    ensures JetMetadataEntry !in meta.eventPayload && privMeta == "" ==> r == Err(MissingMetadata)
    ensures JetMetadataEntry !in meta.eventPayload && privMeta != "" && c.unmarshalMetadata(privMeta).Err? ==>
      r == Err(UnmarshalMetadataFailed(c.unmarshalMetadata(privMeta).error))
    ensures JetMetadataEntry !in meta.eventPayload && privMeta != "" && c.unmarshalMetadata(privMeta).Ok? ==>
      var wrapped := c.unmarshalMetadata(privMeta).value;
      r == if JetMetadataEntry in wrapped.eventPayload then DecodeEntry(wrapped.eventPayload[JetMetadataEntry], wrapped, c)
           else Err(MissingMetadata)
    ensures r.Ok? ==> JetMetadataEntry in r.value.original.eventPayload
    ensures r.Ok? ==>
      || r.value.original == meta
      || (JetMetadataEntry !in meta.eventPayload && c.unmarshalMetadata(privMeta) == Ok(r.value.original))
  {
    if JetMetadataEntry in meta.eventPayload then
      DecodeEntry(meta.eventPayload[JetMetadataEntry], meta, c)
    else if privMeta == "" then
      Err(MissingMetadata)
    else
      match c.unmarshalMetadata(privMeta)
      case Err(e) => Err(UnmarshalMetadataFailed(e))
      case Ok(wrapped) =>
        if JetMetadataEntry in wrapped.eventPayload then
          DecodeEntry(wrapped.eventPayload[JetMetadataEntry], wrapped, c)
        else
          Err(MissingMetadata)
  }

  /** `serializeMetadata(prev, name, hooks)`; `prev == nil` is `None`. */
  function Serialize(prev: Wrappers.Option<JetMetadata>, name: string, hooks: seq<MetadataHook>): (m: SlackMetadata)
    ensures m.eventPayload.Keys == (if prev.Some? then prev.value.original.eventPayload.Keys else {}) + {JetMetadataEntry}
    ensures m.eventPayload[JetMetadataEntry] == EnvelopeValue(Envelope(name, hooks, map[]))
    ensures prev.None? ==> m.eventType == JetEventType
    ensures prev.Some? ==> m.eventType == prev.value.original.eventType
    ensures prev.Some? ==> forall k :: k in prev.value.original.eventPayload && k != JetMetadataEntry ==>
      m.eventPayload[k] == prev.value.original.eventPayload[k]
  {
    var meta := Envelope(name, hooks, map[]);
    match prev
    case Some(p) => p.original.(eventPayload := p.original.eventPayload[JetMetadataEntry := EnvelopeValue(meta)])
    case None => SlackMetadata(JetEventType, map[JetMetadataEntry := EnvelopeValue(meta)])
  }

  /** The event payload wins: the private metadata is not even parsed when the entry is present. */
  lemma PayloadEntryWins(meta: SlackMetadata, privMeta: string, privMeta': string, c: Codec)
    requires JetMetadataEntry in meta.eventPayload
    ensures Deserialize(meta, privMeta, c) == Deserialize(meta, privMeta', c)
    ensures Deserialize(meta, privMeta, c).Ok? ==> Deserialize(meta, privMeta, c).value.original == meta
  {
  }

  /**
   * Without the entry, the private metadata is parsed: a parse failure and a
   * parse without the entry are errors, and a success records the parsed
   * metadata as the original.
   */
  lemma PrivateMetadataFallback(meta: SlackMetadata, privMeta: string, c: Codec)
    requires JetMetadataEntry !in meta.eventPayload && privMeta != ""
    ensures c.unmarshalMetadata(privMeta).Err? ==>
      Deserialize(meta, privMeta, c) == Err(UnmarshalMetadataFailed(c.unmarshalMetadata(privMeta).error))
    ensures c.unmarshalMetadata(privMeta).Ok? && JetMetadataEntry !in c.unmarshalMetadata(privMeta).value.eventPayload ==>
      Deserialize(meta, privMeta, c) == Err(MissingMetadata)
    ensures Deserialize(meta, privMeta, c).Ok? ==>
      Deserialize(meta, privMeta, c).value.original == c.unmarshalMetadata(privMeta).value
  {
  }

  /** A fresh envelope decodes to the flow name and ledger that were written, with no props. */
  lemma {:induction false} DeserializeFresh(name: string, hooks: seq<MetadataHook>, c: Codec)
    requires RoundTrips(c)
    ensures Deserialize(Serialize(Wrappers.None, name, hooks), "", c)
         == Ok(JetMetadata(name, hooks, map[], Serialize(Wrappers.None, name, hooks)))
  {
    var e := Envelope(name, hooks, map[]);
    assert c.marshalValue(EnvelopeValue(e)).Ok?;
  }

  /**
   * Writing over a decoded envelope and decoding again gives the new flow
   * name and ledger, keeps every other payload key, and loses the props:
   * serializeMetadata never writes them.
   */
  lemma {:induction false} DeserializeResumed(prev: JetMetadata, name: string, hooks: seq<MetadataHook>, privMeta: string, c: Codec)
    requires RoundTrips(c)
    ensures var m := Serialize(Wrappers.Some(prev), name, hooks);
      Deserialize(m, privMeta, c) == Ok(JetMetadata(name, hooks, map[], m))
  {
    var e := Envelope(name, hooks, map[]);
    assert c.marshalValue(EnvelopeValue(e)).Ok?;
  }
}
