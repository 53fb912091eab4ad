/** Raw stream messages and the envelopes served from them, shared by the bounded read
    (internal/service/stream_read.go) and the live tail (internal/service/tail_stream.go).
    JSON decoding, protobuf encoding and the jq filter are parameters: partial functions on
    what they are given. */
module Envelopes {
  import opened Text
  import opened Lists

  datatype RawMessage = RawMessage(subject: string, sequence: nat, timestamp: int, data: string)

  /** What a stream delivers; the metadata of a delivery may fail to parse. */
  datatype Delivery = Delivery(raw: RawMessage, metaOk: bool)

  datatype Envelope<+B> = Envelope(subject: string, sequence: nat, timestamp: int, body: B)

  /** decode: json.Unmarshal; encode: structpb.NewStruct; accept: the compiled filter, if one
      was given, None when its evaluation fails. */
  datatype Codec<!O, !B> = Codec(
    decode: string -> Option<O>, encode: O -> Option<B>, accept: Option<O -> Option<bool>>)

  function BuildEnvelope<O, B>(c: Codec<O, B>, m: RawMessage): Option<Envelope<B>> {
    var obj := c.decode(m.data);
    if obj.None? then None
    else if c.accept.Some? && c.accept.value(obj.value) != Some(true) then None
    else
      var body := c.encode(obj.value);
      if body.None? then None else Some(Envelope(m.subject, m.sequence, m.timestamp, body.value))
  }

  /** The envelopes of the messages that have one, in order. */
  function AllEnvelopes<O, B>(c: Codec<O, B>, ms: seq<RawMessage>): seq<Envelope<B>> {
    if ms == [] then []
    else
      var e := BuildEnvelope(c, ms[|ms| - 1]);
      AllEnvelopes(c, ms[..|ms| - 1]) + (if e.Some? then [e.value] else [])
  }

  lemma EnvelopesAppend<O, B>(c: Codec<O, B>, ms: seq<RawMessage>, m: RawMessage)
    ensures AllEnvelopes(c, ms + [m])
            == AllEnvelopes(c, ms) + (if BuildEnvelope(c, m).Some? then [BuildEnvelope(c, m).value] else [])
  {
    assert (ms + [m])[..|ms|] == ms;
  }

  lemma {:induction false} EnvelopesConcat<O, B>(c: Codec<O, B>, a: seq<RawMessage>, b: seq<RawMessage>)
    ensures AllEnvelopes(c, a + b) == AllEnvelopes(c, a) + AllEnvelopes(c, b)
  {
    if b == [] {
      assert a + b == a;
    } else {
      EnvelopesConcat(c, a, b[..|b| - 1]);
      assert a + b == (a + b[..|b| - 1]) + [b[|b| - 1]];
      EnvelopesAppend(c, a + b[..|b| - 1], b[|b| - 1]);
    }
  }

  // ---- what an envelope says of its message ------------------------------------------------------

  /** The message is one that the caller is to get: it decodes, the filter, if there is one,
      answers yes, and the decoded object encodes. */
  predicate Qualifies<O, B>(c: Codec<O, B>, m: RawMessage) {
    && c.decode(m.data).Some?
    && (c.accept.Some? ==> c.accept.value(c.decode(m.data).value) == Some(true))
    && c.encode(c.decode(m.data).value).Some?
  }

  /** e carries m: its subject, sequence and time, and the encoding of what it decodes to. */
  predicate Carries<O, B(==)>(c: Codec<O, B>, e: Envelope<B>, m: RawMessage) {
    && (e.subject, e.sequence, e.timestamp) == (m.subject, m.sequence, m.timestamp)
    && c.decode(m.data).Some? && c.encode(c.decode(m.data).value) == Some(e.body)
  }

  function QualifiesFor<O, B>(c: Codec<O, B>): RawMessage -> bool {
    (m: RawMessage) => Qualifies(c, m)
  }

  function Qualifying<O, B>(c: Codec<O, B>, ms: seq<RawMessage>): seq<RawMessage> {
    Filter(ms, QualifiesFor(c))
  }

  /** The envelopes carry, one by one, these messages. */
  ghost predicate CarryAll<O, B>(c: Codec<O, B>, es: seq<Envelope<B>>, ms: seq<RawMessage>) {
    |es| == |ms| && forall i :: 0 <= i < |es| ==> Carries(c, es[i], ms[i])
  }

  lemma BuildsWhatQualifies<O, B>(c: Codec<O, B>, m: RawMessage)
    ensures BuildEnvelope(c, m).Some? <==> Qualifies(c, m)
    ensures Qualifies(c, m) ==> Carries(c, BuildEnvelope(c, m).value, m)
  {
  }

  /** Each qualifying message has its envelope, in order, and nothing else has one. */
  lemma {:induction false} EnvelopesCarry<O, B>(c: Codec<O, B>, ms: seq<RawMessage>)
    ensures CarryAll(c, AllEnvelopes(c, ms), Qualifying(c, ms))
  {
    if ms != [] {
      EnvelopesCarry(c, ms[..|ms| - 1]);
      BuildsWhatQualifies(c, ms[|ms| - 1]);
    }
  }

  /** What qualifies among them: those messages of the list that do, as often and in the order they
      occur. */
  lemma QualifyingIs<O, B>(c: Codec<O, B>, ms: seq<RawMessage>)
    ensures forall m :: m in Qualifying(c, ms) <==> m in ms && Qualifies(c, m)
    ensures Subsequence(Qualifying(c, ms), ms)
    ensures forall m :: Qualifies(c, m) ==> multiset(Qualifying(c, ms))[m] == multiset(ms)[m]
  {
    FilterMembers(ms, QualifiesFor(c));
    FilterIsSubsequence(ms, QualifiesFor(c));
    FilterCounts(ms, QualifiesFor(c));
  }

  /** The messages of the deliveries whose metadata parses. */
  function Parsed(ds: seq<Delivery>): seq<RawMessage> {
    if ds == [] then []
    else Parsed(ds[..|ds| - 1]) + (if ds[|ds| - 1].metaOk then [ds[|ds| - 1].raw] else [])
  }

  /** They are the deliveries' own messages, in order. */
  lemma {:induction false} ParsedIs(ds: seq<Delivery>)
    ensures var good := Filter(ds, (d: Delivery) => d.metaOk);
            |Parsed(ds)| == |good| && forall i :: 0 <= i < |good| ==> Parsed(ds)[i] == good[i].raw
  {
    if ds != [] {
      ParsedIs(ds[..|ds| - 1]);
    }
  }

  lemma ParsedAppend(ds: seq<Delivery>, d: Delivery)
    ensures Parsed(ds + [d]) == Parsed(ds) + (if d.metaOk then [d.raw] else [])
  {
    assert (ds + [d])[..|ds|] == ds;
  }

  lemma {:induction false} ParsedConcat(a: seq<Delivery>, b: seq<Delivery>)
    ensures Parsed(a + b) == Parsed(a) + Parsed(b)
  {
    if b == [] {
      assert a + b == a;
    } else {
      ParsedConcat(a, b[..|b| - 1]);
      assert a + b == (a + b[..|b| - 1]) + [b[|b| - 1]];
      ParsedAppend(a + b[..|b| - 1], b[|b| - 1]);
    }
  }
}
