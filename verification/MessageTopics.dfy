/**
 Message properties on MQTT topics: encode_properties and extract_properties_from_topic.
 */
module MessageTopics {
  import opened Options
  import opened UrlCodec
  import opened Dicts

  /** The attributes of a message that travel on the topic. */
  datatype Properties = Properties(
    outputName: Option<string>,
    messageId: Option<string>,
    correlationId: Option<string>,
    userId: Option<string>,
    to: Option<string>,
    contentType: Option<string>,
    contentEncoding: Option<string>,
    expiry: Option<string>,          // expiry_time_utc, already rendered as text
    custom: Dict)

  /** A message as it is constructed from a payload. */
  const BLANK := Properties(None, None, None, None, None, None, None, None, [])

  datatype TopicError = BadFormat | IndexOutOfRange | MissingKey | BadNumber

  /** The message after an extraction, and the exception that ended it, if any. */
  datatype Extraction = Extraction(message: Properties, error: Option<TopicError>)

  // ----- encoding -----

  function Field(key: string, value: Option<string>): Pairs {
    if value.Some? && value.value != "" then [(key, value.value)] else []
  }

  function SystemPairs(p: Properties): Pairs {
    Field("$.on", p.outputName) + Field("$.mid", p.messageId) + Field("$.cid", p.correlationId) +
    Field("$.uid", p.userId) + Field("$.to", p.to) + Field("$.ct", p.contentType) +
    Field("$.ce", p.contentEncoding) + Field("$.exp", p.expiry)
  }

  function AllPairs(p: Properties): Pairs {
    SystemPairs(p) + p.custom
  }

  /** encode_properties: the system properties, then the custom ones. */
  function Encode(p: Properties, topic: string): string {
    var system := SystemPairs(p);
    var start := topic + UrlEncode(system);
    if p.custom == [] then start
    else (if system == [] then start else start + "&") + UrlEncode(p.custom)
  }

  /** The two lists encoded one after the other read as one list. */
  lemma EncodeIsOneList(p: Properties, topic: string)
    ensures Encode(p, topic) == topic + UrlEncode(AllPairs(p))
  {
    var system := SystemPairs(p);
    if p.custom == [] {
      assert AllPairs(p) == system;
    } else if system == [] {
      assert AllPairs(p) == p.custom && topic + UrlEncode(system) == topic;
    } else {
      UrlEncodeAppend(system, p.custom);
      var u, c := UrlEncode(system), UrlEncode(p.custom);
      assert topic + u + "&" + c == topic + (u + "&" + c);
    }
  }

  // ----- extraction -----

  /** One key and value of the topic, assigned to the message. */
  function Assign(p: Properties, key: string, value: string): Properties {
    if key == "$.mid" then p.(messageId := Some(value))
    else if key == "$.cid" then p.(correlationId := Some(value))
    else if key == "$.uid" then p.(userId := Some(value))
    else if key == "$.to" then p.(to := Some(value))
    else if key == "$.ct" then p.(contentType := Some(value))
    else if key == "$.ce" then p.(contentEncoding := Some(value))
    else p.(custom := DictSet(p.custom, key, value))
  }

  function AssignAll(p: Properties, pairs: Pairs): Properties
    decreases |pairs|
  {
    if pairs == [] then p else AssignAll(Assign(p, pairs[0].0, pairs[0].1), pairs[1..])
  }

  /** The loop over key=value entries. */
  function ReadEntries(p: Properties, entries: seq<string>): Extraction
    decreases |entries|
  {
    if entries == [] then Extraction(p, None)
    else
      var pair := Split(entries[0], '=');
      if |pair| < 2 then Extraction(p, Some(IndexOutOfRange))
      else ReadEntries(Assign(p, Unquote(pair[0]), Unquote(pair[1])), entries[1..])
  }

  /** The part of the topic that holds the properties; `Some("")` and `None` both mean there are none. */
  function PropertiesPart(topic: string): Result<Option<string>, TopicError> {
    var parts := Split(topic, '/');
    if |parts| > 4 && parts[4] == "inputs" then
      Ok(if |parts| > 6 then Some(parts[6]) else None)
    else if |parts| > 3 && parts[3] == "devicebound" then
      Ok(if |parts| > 4 then Some(parts[4]) else None)
    else
      Err(BadFormat)
  }

  /** extract_properties_from_topic. */
  function Extract(topic: string, p: Properties): Extraction {
    match PropertiesPart(topic)
    case Err(error) => Extraction(p, Some(error))
    case Ok(part) =>
      if part.Some? && part.value != "" then ReadEntries(p, Split(part.value, '&')) else Extraction(p, None)
  }

  /** A message whose attributes the extraction assigns one after the other. */
  class Message {
    var properties: Properties

    constructor ()
      ensures properties == BLANK
    {
      properties := BLANK;
    }

    method ExtractProperties(topic: string) returns (error: Option<TopicError>)
      modifies this
      ensures Extraction(properties, error) == Extract(topic, old(properties))
    {
      var parts := Split(topic, '/');
      var part: Option<string> := None;
      if |parts| > 4 && parts[4] == "inputs" {
        if |parts| > 6 {
          part := Some(parts[6]);
        }
      } else if |parts| > 3 && parts[3] == "devicebound" {
        if |parts| > 4 {
          part := Some(parts[4]);
        }
      } else {
        return Some(BadFormat);
      }
      if part.None? || part.value == "" {
        return None;
      }
      var entries := Split(part.value, '&');
      var i := 0;
      while i < |entries|
        invariant i <= |entries|
        invariant ReadEntries(properties, entries[i..]) == ReadEntries(old(properties), entries)
      {
        var pair := Split(entries[i], '=');
        assert entries[i..][1..] == entries[i + 1..];
        if |pair| < 2 {
          return Some(IndexOutOfRange);
        }
        var key, value := Unquote(pair[0]), Unquote(pair[1]);
        properties := Assign(properties, key, value);
        i := i + 1;
      }
      return None;
    }

    method EncodeProperties(topic: string) returns (encoded: string)
      ensures encoded == Encode(properties, topic)
    {
      var system: Pairs := [];
      system := system + Field("$.on", properties.outputName);
      system := system + Field("$.mid", properties.messageId);
      system := system + Field("$.cid", properties.correlationId);
      system := system + Field("$.uid", properties.userId);
      system := system + Field("$.to", properties.to);
      system := system + Field("$.ct", properties.contentType);
      system := system + Field("$.ce", properties.contentEncoding);
      system := system + Field("$.exp", properties.expiry);
      assert system == SystemPairs(properties);
      encoded := topic + UrlEncode(system);
      if |properties.custom| > 0 {
        if |system| > 0 {
          encoded := encoded + "&";
        }
        encoded := encoded + UrlEncode(properties.custom);
      }
    }
  }

  // ----- the alphabet of the suffix -----

  lemma SeparatorFree(pairs: Pairs)
    ensures '/' !in UrlEncode(pairs) && '#' !in UrlEncode(pairs) && '?' !in UrlEncode(pairs)
  {
    UrlEncodeAlphabet(pairs);
  }

  /**
   What encoding adds to a topic contains neither a level separator nor the multi-level wildcard, and it
   contains the single-level wildcard `+` exactly when some key or value has a space in it.
   */
  lemma SuffixAlphabet(p: Properties, topic: string, suffix: string)
    requires Encode(p, topic) == topic + suffix
    ensures '/' !in suffix && '#' !in suffix && '?' !in suffix
    ensures '+' in suffix <==> HasSpace(AllPairs(p))
  {
    var pairs := AllPairs(p);
    EncodeIsOneList(p, topic);
    assert suffix == UrlEncode(pairs) by { SameTail(topic, suffix, UrlEncode(pairs)); }
    SeparatorFree(pairs);
    UrlEncodeAlphabet(pairs);
  }

  lemma SameTail(head: string, tail: string, other: string)
    requires head + tail == head + other
    ensures tail == other
  {
    assert tail == (head + tail)[|head|..] == (head + other)[|head|..] == other;
  }

  // ----- the round trip -----

  predicate BytesPairs(pairs: Pairs) {
    forall pair <- pairs :: IsBytes(pair.0) && IsBytes(pair.1)
  }

  lemma {:induction false} ReadEncodedEntries(p: Properties, pairs: Pairs)
    requires BytesPairs(pairs)
    ensures ReadEntries(p, Entries(pairs)) == Extraction(AssignAll(p, pairs), None)
    decreases |pairs|
  {
    if pairs != [] {
      var pair := pairs[0];
      PairSplits(pair);
      UnquoteQuote(pair.0);
      UnquoteQuote(pair.1);
      assert Entries(pairs)[1..] == Entries(pairs[1..]);
      ReadEncodedEntries(Assign(p, pair.0, pair.1), pairs[1..]);
    }
  }

  /** Wherever a topic puts an encoded list, extraction assigns exactly that list, in order. */
  lemma ExtractEncoded(topic: string, pairs: Pairs, p: Properties)
    requires BytesPairs(pairs) && PropertiesPart(topic) == Ok(Some(UrlEncode(pairs)))
    ensures Extract(topic, p) == Extraction(AssignAll(p, pairs), None)
  {
    if pairs != [] {
      UrlEncodeAlphabet(pairs);
      UrlEncodeSplits(pairs);
      ReadEncodedEntries(p, pairs);
    }
  }

  /** Where a message arrives. */
  datatype Channel = C2d(device: string) | Input(device: string, mod: string, input: string)

  /** The levels of the topic below which the properties of a message stand. */
  function Levels(channel: Channel): seq<string> {
    match channel
    case C2d(device) => ["devices", device, "messages", "devicebound"]
    case Input(device, mod, input) => ["devices", device, "modules", mod, "inputs", input]
  }

  /** The topic up to and including the slash in front of the properties. */
  function Base(channel: Channel): string {
    Join(Levels(channel) + [""], '/')
  }

  predicate SlashFree(channel: Channel) {
    '/' !in channel.device && (channel.Input? ==> '/' !in channel.mod && '/' !in channel.input)
  }

  lemma SplitChannel(channel: Channel, last: string)
    requires SlashFree(channel) && '/' !in last
    ensures Split(Base(channel) + last, '/') == Levels(channel) + [last]
  {
    JoinExtend(Levels(channel), last, '/');
    SplitJoin(Levels(channel) + [last], '/');
  }

  lemma PartOfChannel(channel: Channel, last: string)
    requires SlashFree(channel) && '/' !in last && (channel.C2d? ==> last != "inputs")
    ensures PropertiesPart(Base(channel) + last) == Ok(Some(last))
  {
    SplitChannel(channel, last);
  }

  lemma EncodedIsNotInputs(pairs: Pairs)
    ensures UrlEncode(pairs) != "inputs"
  {
    UrlEncodeAlphabet(pairs);
    if pairs != [] {
      assert '=' in UrlEncode(pairs) && '=' !in "inputs";
    }
  }

  lemma PartOfEncoded(channel: Channel, pairs: Pairs)
    requires SlashFree(channel)
    ensures PropertiesPart(Base(channel) + UrlEncode(pairs)) == Ok(Some(UrlEncode(pairs)))
  {
    SeparatorFree(pairs);
    EncodedIsNotInputs(pairs);
    PartOfChannel(channel, UrlEncode(pairs));
  }

  // ----- when the round trip is the identity -----

  const RECOGNISED_KEYS: set<string> := {"$.mid", "$.cid", "$.uid", "$.to", "$.ct", "$.ce"}

  /** What a caller can check before sending. */
  predicate Faithful(p: Properties) {
    p.outputName.None? && p.expiry.None? &&
    p.messageId != Some("") && p.correlationId != Some("") && p.userId != Some("") &&
    p.to != Some("") && p.contentType != Some("") && p.contentEncoding != Some("") &&
    forall pair <- p.custom :: pair.0 !in RECOGNISED_KEYS
  }

  lemma {:induction false} AssignAllAppend(p: Properties, pairs: Pairs, more: Pairs)
    ensures AssignAll(p, pairs + more) == AssignAll(AssignAll(p, pairs), more)
    decreases |pairs|
  {
    if pairs == [] {
      assert pairs + more == more;
    } else {
      assert (pairs + more)[1..] == pairs[1..] + more;
      AssignAllAppend(Assign(p, pairs[0].0, pairs[0].1), pairs[1..], more);
    }
  }

  lemma {:induction false} AssignCustom(p: Properties, custom: Dict)
    requires forall pair <- custom :: pair.0 !in RECOGNISED_KEYS
    requires DistinctKeys(p.custom + custom)
    ensures AssignAll(p, custom) == p.(custom := p.custom + custom)
    decreases |custom|
  {
    if custom == [] {
      assert p.custom + custom == p.custom;
    } else {
      var (key, value) := custom[0];
      assert !HasKey(p.custom, key) by {
        forall i | 0 <= i < |p.custom|
          ensures p.custom[i].0 != key
        {
          assert (p.custom + custom)[i] == p.custom[i] && (p.custom + custom)[|p.custom|] == custom[0];
        }
      }
      DictSetNew(p.custom, key, value);
      var q := Assign(p, key, value);
      assert custom[0].0 !in RECOGNISED_KEYS && q == p.(custom := p.custom + [(key, value)]);
      assert q.custom + custom[1..] == p.custom + custom;
      AssignCustom(q, custom[1..]);
    }
  }

  lemma AssignField(p: Properties, key: string, value: Option<string>)
    ensures AssignAll(p, Field(key, value)) ==
            if value.Some? && value.value != "" then Assign(p, key, value.value) else p
  {
    if value.Some? && value.value != "" {
      assert Field(key, value)[1..] == [];
    }
  }

  /** What arrives of an attribute: an empty text is not sent. */
  function Sent(value: Option<string>): Option<string> {
    if value == Some("") then None else value
  }

  lemma AssignIds(p: Properties, mid: Option<string>, cid: Option<string>, uid: Option<string>)
    requires p.messageId.None? && p.correlationId.None? && p.userId.None?
    ensures AssignAll(p, Field("$.mid", mid) + Field("$.cid", cid) + Field("$.uid", uid)) ==
            p.(messageId := Sent(mid), correlationId := Sent(cid), userId := Sent(uid))
  {
    AssignAllAppend(p, Field("$.mid", mid) + Field("$.cid", cid), Field("$.uid", uid));
    AssignAllAppend(p, Field("$.mid", mid), Field("$.cid", cid));
    AssignField(p, "$.mid", mid);
    var q := p.(messageId := Sent(mid));
    AssignField(q, "$.cid", cid);
    AssignField(q.(correlationId := Sent(cid)), "$.uid", uid);
  }

  lemma AssignContent(p: Properties, to: Option<string>, ct: Option<string>, ce: Option<string>)
    requires p.to.None? && p.contentType.None? && p.contentEncoding.None?
    ensures AssignAll(p, Field("$.to", to) + Field("$.ct", ct) + Field("$.ce", ce)) ==
            p.(to := Sent(to), contentType := Sent(ct), contentEncoding := Sent(ce))
  {
    AssignAllAppend(p, Field("$.to", to) + Field("$.ct", ct), Field("$.ce", ce));
    AssignAllAppend(p, Field("$.to", to), Field("$.ct", ct));
    AssignField(p, "$.to", to);
    var q := p.(to := Sent(to));
    AssignField(q, "$.ct", ct);
    AssignField(q.(contentType := Sent(ct)), "$.ce", ce);
  }

  lemma SystemPairsInTwo(p: Properties)
    requires p.outputName.None? && p.expiry.None?
    ensures SystemPairs(p) ==
            (Field("$.mid", p.messageId) + Field("$.cid", p.correlationId) + Field("$.uid", p.userId)) +
            (Field("$.to", p.to) + Field("$.ct", p.contentType) + Field("$.ce", p.contentEncoding))
  {
  }

  lemma AssignSystem(p: Properties)
    requires p.outputName.None? && p.expiry.None?
    ensures AssignAll(BLANK, SystemPairs(p)) ==
            BLANK.(messageId := Sent(p.messageId), correlationId := Sent(p.correlationId), userId := Sent(p.userId),
                   to := Sent(p.to), contentType := Sent(p.contentType), contentEncoding := Sent(p.contentEncoding))
  {
    var ids := Field("$.mid", p.messageId) + Field("$.cid", p.correlationId) + Field("$.uid", p.userId);
    var content := Field("$.to", p.to) + Field("$.ct", p.contentType) + Field("$.ce", p.contentEncoding);
    SystemPairsInTwo(p);
    AssignAllAppend(BLANK, ids, content);
    AssignIds(BLANK, p.messageId, p.correlationId, p.userId);
    AssignContent(AssignAll(BLANK, ids), p.to, p.contentType, p.contentEncoding);
  }

  lemma {:induction false} AssignedKeys(p: Properties, pairs: Pairs)
    requires p.outputName.None? && p.expiry.None? && forall pair <- p.custom :: pair.0 !in RECOGNISED_KEYS
    ensures var q := AssignAll(p, pairs);
            q.outputName.None? && q.expiry.None? && forall pair <- q.custom :: pair.0 !in RECOGNISED_KEYS
    decreases |pairs|
  {
    if pairs != [] {
      DictSetKeys(p.custom, pairs[0].0, pairs[0].1);
      AssignedKeys(Assign(p, pairs[0].0, pairs[0].1), pairs[1..]);
    }
  }

  /** Nothing in the message is lost on the way, or mistaken for something else, except empty texts. */
  lemma AssignAllPairs(p: Properties)
    requires p.outputName.None? && p.expiry.None? && DistinctKeys(p.custom)
    requires forall pair <- p.custom :: pair.0 !in RECOGNISED_KEYS
    ensures AssignAll(BLANK, AllPairs(p)) ==
            p.(messageId := Sent(p.messageId), correlationId := Sent(p.correlationId), userId := Sent(p.userId),
               to := Sent(p.to), contentType := Sent(p.contentType), contentEncoding := Sent(p.contentEncoding))
  {
    AssignAllAppend(BLANK, SystemPairs(p), p.custom);
    AssignSystem(p);
    var q := AssignAll(BLANK, SystemPairs(p));
    assert q.custom + p.custom == p.custom;
    AssignCustom(q, p.custom);
  }

  lemma ExtractOfEncode(channel: Channel, p: Properties)
    requires SlashFree(channel) && BytesPairs(AllPairs(p))
    ensures Extract(Encode(p, Base(channel)), BLANK) == Extraction(AssignAll(BLANK, AllPairs(p)), None)
  {
    var pairs := AllPairs(p);
    EncodeIsOneList(p, Base(channel));
    PartOfEncoded(channel, pairs);
    ExtractEncoded(Base(channel) + UrlEncode(pairs), pairs, BLANK);
  }

  /**
   Extracting what was encoded gives back the very same message if and only if the message is faithful,
   on either kind of topic.
   */
  lemma RoundTripIff(channel: Channel, p: Properties)
    requires SlashFree(channel) && BytesPairs(AllPairs(p)) && DistinctKeys(p.custom)
    ensures Extract(Encode(p, Base(channel)), BLANK) == Extraction(p, None) <==> Faithful(p)
  {
    ExtractOfEncode(channel, p);
    AssignedKeys(BLANK, AllPairs(p));
    if p.outputName.None? && p.expiry.None? && forall pair <- p.custom :: pair.0 !in RECOGNISED_KEYS {
      AssignAllPairs(p);
    }
  }
}
