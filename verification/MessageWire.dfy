/**
 The properties of a message on the wire: which key stands for which attribute, read off the text of a topic
 by a reader of form data that knows nothing of messages.
 */
module MessageWire {
  import opened Options
  import opened UrlCodec
  import opened Dicts
  import opened MessageTopics

  // ----- which key stands for which attribute -----

  /** The value that a list of pairs leaves under a key. */
  function LastValue(pairs: Pairs, key: string): Option<string> {
    if pairs == [] then None
    else if LastValue(pairs[1..], key).Some? then LastValue(pairs[1..], key)
    else if pairs[0].0 == key then Some(pairs[0].1)
    else None
  }

  lemma {:induction false} LastValueConcat(pairs: Pairs, more: Pairs, key: string)
    ensures LastValue(pairs + more, key) ==
            if LastValue(more, key).Some? then LastValue(more, key) else LastValue(pairs, key)
    decreases |pairs|
  {
    if pairs == [] {
      assert pairs + more == more;
    } else {
      assert (pairs + more)[0] == pairs[0] && (pairs + more)[1..] == pairs[1..] + more;
      LastValueConcat(pairs[1..], more, key);
    }
  }

  lemma LastValueOfField(name: string, value: Option<string>, key: string)
    ensures LastValue(Field(name, value), key) == if name == key then Sent(value) else None
  {
    if value.Some? && value.value != "" {
      assert Field(name, value)[1..] == [];
    }
  }

  lemma {:induction false} LastValueIsLookup(d: Dict, key: string)
    requires DistinctKeys(d)
    ensures LastValue(d, key) == Lookup(d, key)
    decreases |d|
  {
    if d != [] {
      assert forall i, j :: 0 <= i < j < |d| - 1 ==> d[1..][i] == d[i + 1] && d[1..][j] == d[j + 1];
      LastValueIsLookup(d[1..], key);
      if d[0].0 == key && Lookup(d[1..], key).Some? {
        LookupFinds(d[1..], key);
      }
    }
  }

  lemma {:induction false} LookupFinds(d: Dict, key: string)
    requires Lookup(d, key).Some?
    ensures exists i | 0 <= i < |d| :: d[i].0 == key
    decreases |d|
  {
    if d[0].0 != key {
      LookupFinds(d[1..], key);
      var i :| 0 <= i < |d| - 1 && d[1..][i].0 == key;
      assert d[i + 1].0 == key;
    }
  }

  /** What a reader of form data makes of a text, whatever the keys mean. */
  function ReadForm(entries: seq<string>): Pairs {
    if entries == [] then []
    else
      var pair := Split(entries[0], '=');
      [(Unquote(pair[0]), if |pair| > 1 then Unquote(pair[1]) else "")] + ReadForm(entries[1..])
  }

  function FormPairs(text: string): Pairs {
    if text == "" then [] else ReadForm(Split(text, '&'))
  }

  lemma {:induction false} ReadFormOfEntries(pairs: Pairs)
    requires BytesPairs(pairs)
    ensures ReadForm(Entries(pairs)) == pairs
    decreases |pairs|
  {
    if pairs != [] {
      PairSplits(pairs[0]);
      UnquoteQuote(pairs[0].0);
      UnquoteQuote(pairs[0].1);
      assert Entries(pairs)[0] == EncodePair(pairs[0]) && Entries(pairs)[1..] == Entries(pairs[1..]);
      ReadFormOfEntries(pairs[1..]);
      assert ReadForm(Entries(pairs)) == [(pairs[0].0, pairs[0].1)] + pairs[1..];
    }
  }

  lemma FormPairsOfUrlEncode(pairs: Pairs)
    requires BytesPairs(pairs)
    ensures FormPairs(UrlEncode(pairs)) == pairs
  {
    if pairs != [] {
      UrlEncodeAlphabet(pairs);
      UrlEncodeSplits(pairs);
      ReadFormOfEntries(pairs);
    }
  }

  predicate BytesOption(value: Option<string>) {
    value.Some? ==> IsBytes(value.value)
  }

  predicate BytesMessage(p: Properties) {
    BytesOption(p.outputName) && BytesOption(p.messageId) && BytesOption(p.correlationId) && BytesOption(p.userId) &&
    BytesOption(p.to) && BytesOption(p.contentType) && BytesOption(p.contentEncoding) && BytesOption(p.expiry) &&
    forall pair <- p.custom :: IsBytes(pair.0) && IsBytes(pair.1)
  }

  lemma BytesField(name: string, value: Option<string>)
    requires IsBytes(name) && BytesOption(value)
    ensures BytesPairs(Field(name, value))
  {
  }

  lemma BytesConcat(pairs: Pairs, more: Pairs)
    requires BytesPairs(pairs) && BytesPairs(more)
    ensures BytesPairs(pairs + more)
  {
  }

  /** The keys of the attributes, as the service knows them. */
  const SYSTEM_KEYS: set<string> := {"$.on", "$.mid", "$.cid", "$.uid", "$.to", "$.ct", "$.ce", "$.exp"}

  /** The attribute a key stands for. */
  function Attribute(p: Properties, key: string): Option<string> {
    if key == "$.on" then p.outputName
    else if key == "$.mid" then p.messageId
    else if key == "$.cid" then p.correlationId
    else if key == "$.uid" then p.userId
    else if key == "$.to" then p.to
    else if key == "$.ct" then p.contentType
    else if key == "$.ce" then p.contentEncoding
    else if key == "$.exp" then p.expiry
    else None
  }

  lemma SystemValue(p: Properties, key: string)
    ensures LastValue(SystemPairs(p), key) == Sent(Attribute(p, key))
  {
    var on, mid, cid, uid := Field("$.on", p.outputName), Field("$.mid", p.messageId),
                             Field("$.cid", p.correlationId), Field("$.uid", p.userId);
    var to, ct, ce, exp := Field("$.to", p.to), Field("$.ct", p.contentType),
                           Field("$.ce", p.contentEncoding), Field("$.exp", p.expiry);
    LastValueConcat(on, mid, key);
    LastValueConcat(on + mid, cid, key);
    LastValueConcat(on + mid + cid, uid, key);
    LastValueConcat(on + mid + cid + uid, to, key);
    LastValueConcat(on + mid + cid + uid + to, ct, key);
    LastValueConcat(on + mid + cid + uid + to + ct, ce, key);
    LastValueConcat(on + mid + cid + uid + to + ct + ce, exp, key);
    LastValueOfField("$.on", p.outputName, key);
    LastValueOfField("$.mid", p.messageId, key);
    LastValueOfField("$.cid", p.correlationId, key);
    LastValueOfField("$.uid", p.userId, key);
    LastValueOfField("$.to", p.to, key);
    LastValueOfField("$.ct", p.contentType, key);
    LastValueOfField("$.ce", p.contentEncoding, key);
    LastValueOfField("$.exp", p.expiry, key);
  }

  lemma BytesOfMessage(p: Properties)
    requires BytesMessage(p)
    ensures BytesPairs(AllPairs(p))
  {
    BytesField("$.on", p.outputName);
    BytesField("$.mid", p.messageId);
    BytesField("$.cid", p.correlationId);
    BytesField("$.uid", p.userId);
    BytesField("$.to", p.to);
    BytesField("$.ct", p.contentType);
    BytesField("$.ce", p.contentEncoding);
    BytesField("$.exp", p.expiry);
  }

  lemma WireValue(p: Properties, topic: string, suffix: string, key: string)
    requires BytesMessage(p) && DistinctKeys(p.custom) && Encode(p, topic) == topic + suffix
    ensures LastValue(FormPairs(suffix), key) ==
            if Lookup(p.custom, key).Some? then Lookup(p.custom, key) else Sent(Attribute(p, key))
  {
    BytesOfMessage(p);
    EncodeIsOneList(p, topic);
    SameTail(topic, suffix, UrlEncode(AllPairs(p)));
    FormPairsOfUrlEncode(AllPairs(p));
    LastValueConcat(SystemPairs(p), p.custom, key);
    SystemValue(p, key);
    LastValueIsLookup(p.custom, key);
  }

  /** The attributes of `p`, read off the value each key has. */
  lemma AttributesAre(p: Properties)
    ensures Attribute(p, "$.on") == p.outputName && Attribute(p, "$.mid") == p.messageId
    ensures Attribute(p, "$.cid") == p.correlationId && Attribute(p, "$.uid") == p.userId
    ensures Attribute(p, "$.to") == p.to && Attribute(p, "$.ct") == p.contentType
    ensures Attribute(p, "$.ce") == p.contentEncoding && Attribute(p, "$.exp") == p.expiry
  {
  }

  predicate NoSystemKeys(d: Dict) {
    forall pair <- d :: pair.0 !in SYSTEM_KEYS
  }

  lemma NotCustom(d: Dict, key: string)
    requires NoSystemKeys(d) && key in SYSTEM_KEYS
    ensures Lookup(d, key).None?
  {
    if Lookup(d, key).Some? { LookupFinds(d, key); }
  }

  lemma WireAttribute(p: Properties, topic: string, suffix: string, key: string)
    requires BytesMessage(p) && DistinctKeys(p.custom) && Encode(p, topic) == topic + suffix
    requires NoSystemKeys(p.custom) && key in SYSTEM_KEYS
    ensures LastValue(FormPairs(suffix), key) == Sent(Attribute(p, key))
  {
    WireValue(p, topic, suffix, key);
    NotCustom(p.custom, key);
  }

  /** The form holds every attribute under its own key, an empty or absent one under none. */
  predicate HoldsAttributes(form: Pairs, p: Properties) {
    LastValue(form, "$.on") == Sent(p.outputName) && LastValue(form, "$.mid") == Sent(p.messageId) &&
    LastValue(form, "$.cid") == Sent(p.correlationId) && LastValue(form, "$.uid") == Sent(p.userId) &&
    LastValue(form, "$.to") == Sent(p.to) && LastValue(form, "$.ct") == Sent(p.contentType) &&
    LastValue(form, "$.ce") == Sent(p.contentEncoding) && LastValue(form, "$.exp") == Sent(p.expiry)
  }

  lemma HoldsFromValues(form: Pairs, p: Properties)
    requires forall key <- SYSTEM_KEYS :: LastValue(form, key) == Sent(Attribute(p, key))
    ensures HoldsAttributes(form, p)
  {
    AttributesAre(p);
    assert {"$.on", "$.mid", "$.cid", "$.uid", "$.to", "$.ct", "$.ce", "$.exp"} == SYSTEM_KEYS;
  }

  /**
   Read as form data, what encoding adds to a topic holds the attributes and the custom properties of the
   message, when no custom key is that of an attribute; otherwise `WireValue` says which one wins.
   */
  lemma WireCarriesMessage(p: Properties, topic: string, suffix: string)
    requires BytesMessage(p) && DistinctKeys(p.custom) && Encode(p, topic) == topic + suffix
    requires NoSystemKeys(p.custom)
    ensures HoldsAttributes(FormPairs(suffix), p)
    ensures forall key | key !in SYSTEM_KEYS :: LastValue(FormPairs(suffix), key) == Lookup(p.custom, key)
  {
    forall key | key in SYSTEM_KEYS
      ensures LastValue(FormPairs(suffix), key) == Sent(Attribute(p, key))
    {
      WireAttribute(p, topic, suffix, key);
    }
    HoldsFromValues(FormPairs(suffix), p);
    forall key | key !in SYSTEM_KEYS
      ensures LastValue(FormPairs(suffix), key) == Lookup(p.custom, key)
    {
      WireValue(p, topic, suffix, key);
    }
  }

  // ----- what an extraction takes from the wire -----

  function Or(value: Option<string>, otherwise: Option<string>): Option<string> {
    if value.Some? then value else otherwise
  }

  /** `q` is `p` after taking over these pairs: six keys set attributes, all others custom properties. */
  predicate TakesOver(q: Properties, p: Properties, pairs: Pairs) {
    q.outputName == p.outputName && q.expiry == p.expiry &&
    q.messageId == Or(LastValue(pairs, "$.mid"), p.messageId) &&
    q.correlationId == Or(LastValue(pairs, "$.cid"), p.correlationId) &&
    q.userId == Or(LastValue(pairs, "$.uid"), p.userId) &&
    q.to == Or(LastValue(pairs, "$.to"), p.to) &&
    q.contentType == Or(LastValue(pairs, "$.ct"), p.contentType) &&
    q.contentEncoding == Or(LastValue(pairs, "$.ce"), p.contentEncoding)
  }

  lemma AssignSets(p: Properties, first: string, value: string, key: string)
    ensures Attribute(Assign(p, first, value), key) ==
            if first == key && key in RECOGNISED_KEYS then Some(value) else Attribute(p, key)
  {
  }

  lemma {:induction false} AssignAllSets(p: Properties, pairs: Pairs, key: string)
    ensures Attribute(AssignAll(p, pairs), key) ==
            if key in RECOGNISED_KEYS then Or(LastValue(pairs, key), Attribute(p, key)) else Attribute(p, key)
    decreases |pairs|
  {
    if pairs != [] {
      AssignSets(p, pairs[0].0, pairs[0].1, key);
      AssignAllSets(Assign(p, pairs[0].0, pairs[0].1), pairs[1..], key);
    }
  }

  lemma AssignAllTakesOver(p: Properties, pairs: Pairs)
    ensures TakesOver(AssignAll(p, pairs), p, pairs)
  {
    AttributesAre(p);
    AttributesAre(AssignAll(p, pairs));
    AssignAllSets(p, pairs, "$.on");
    AssignAllSets(p, pairs, "$.mid");
    AssignAllSets(p, pairs, "$.cid");
    AssignAllSets(p, pairs, "$.uid");
    AssignAllSets(p, pairs, "$.to");
    AssignAllSets(p, pairs, "$.ct");
    AssignAllSets(p, pairs, "$.ce");
    AssignAllSets(p, pairs, "$.exp");
  }

  lemma {:induction false} DictSetSets(d: Dict, key: string, value: string)
    ensures Lookup(DictSet(d, key, value), key) == Some(value)
  {
    if d != [] && d[0].0 != key {
      DictSetSets(d[1..], key, value);
    }
  }

  lemma {:induction false} AssignAllCustom(p: Properties, pairs: Pairs, key: string)
    ensures Lookup(AssignAll(p, pairs).custom, key) ==
            if key in RECOGNISED_KEYS then Lookup(p.custom, key) else Or(LastValue(pairs, key), Lookup(p.custom, key))
    decreases |pairs|
  {
    if pairs != [] {
      var (first, value) := pairs[0];
      AssignAllCustom(Assign(p, first, value), pairs[1..], key);
      if first == key {
        DictSetSets(p.custom, first, value);
      } else {
        DictSetKeepsOthers(p.custom, first, value, key);
      }
    }
  }

  lemma {:induction false} ReadEntriesIsForm(p: Properties, entries: seq<string>)
    ensures ReadEntries(p, entries).error ==
            if forall entry <- entries :: '=' in entry then None else Some(IndexOutOfRange)
    ensures ReadEntries(p, entries).error.None? ==>
              ReadEntries(p, entries).message == AssignAll(p, ReadForm(entries))
    decreases |entries|
  {
    if entries != [] {
      var pair := Split(entries[0], '=');
      assert |pair| == 1 <==> '=' !in entries[0];
      if |pair| > 1 {
        ReadEntriesIsForm(Assign(p, Unquote(pair[0]), Unquote(pair[1])), entries[1..]);
      }
    }
  }

  /** The extraction raises if and only if some entry has no equals sign; otherwise it takes the form over. */
  lemma ExtractReadsForm(topic: string, text: string, p: Properties)
    requires PropertiesPart(topic) == Ok(Some(text))
    ensures Extract(topic, p).error.None? <==> text == "" || forall entry <- Split(text, '&') :: '=' in entry
    ensures Extract(topic, p).error.None? ==> Extract(topic, p).message == AssignAll(p, FormPairs(text))
  {
    if text != "" {
      ReadEntriesIsForm(p, Split(text, '&'));
    }
  }

  /** All keys but the six of the attributes set custom properties. */
  ghost predicate TakesOverCustom(custom: Dict, before: Dict, form: Pairs) {
    forall key :: Lookup(custom, key) ==
      if key in {"$.mid", "$.cid", "$.uid", "$.to", "$.ct", "$.ce"} then Lookup(before, key)
      else Or(LastValue(form, key), Lookup(before, key))
  }

  lemma AssignAllTakesOverCustom(p: Properties, form: Pairs)
    ensures TakesOverCustom(AssignAll(p, form).custom, p.custom, form)
  {
    forall key
      ensures Lookup(AssignAll(p, form).custom, key) ==
              if key in {"$.mid", "$.cid", "$.uid", "$.to", "$.ct", "$.ce"} then Lookup(p.custom, key)
              else Or(LastValue(form, key), Lookup(p.custom, key))
    {
      AssignAllCustom(p, form, key);
    }
  }

  /**
   Whatever properties a topic carries: an extraction that does not raise sets six attributes from their own
   keys and the custom properties from all others.
   */
  lemma ExtractTakesOver(topic: string, text: string, p: Properties)
    requires PropertiesPart(topic) == Ok(Some(text)) && Extract(topic, p).error.None?
    ensures TakesOver(Extract(topic, p).message, p, FormPairs(text))
    ensures TakesOverCustom(Extract(topic, p).message.custom, p.custom, FormPairs(text))
  {
    var form := FormPairs(text);
    ExtractReadsForm(topic, text, p);
    AssignAllTakesOver(p, form);
    AssignAllTakesOverCustom(p, form);
  }

  /** The six attributes that arrive as attributes, as they were sent. */
  predicate AttributesArrive(q: Properties, p: Properties) {
    q.messageId == Sent(p.messageId) && q.correlationId == Sent(p.correlationId) && q.userId == Sent(p.userId) &&
    q.to == Sent(p.to) && q.contentType == Sent(p.contentType) && q.contentEncoding == Sent(p.contentEncoding)
  }

  lemma TakenOverFromBlank(q: Properties, p: Properties, form: Pairs)
    requires TakesOver(q, BLANK, form) && HoldsAttributes(form, p)
    ensures AttributesArrive(q, p)
  {
  }

  lemma CustomFromBlank(pairs: Pairs, key: string)
    requires key !in RECOGNISED_KEYS
    ensures Lookup(AssignAll(BLANK, pairs).custom, key) == LastValue(pairs, key)
  {
    AssignAllCustom(BLANK, pairs, key);
  }

  /** The custom properties that arrive: those sent, and the output name and the expiry. */
  ghost predicate CustomAgrees(custom: Dict, p: Properties) {
    Lookup(custom, "$.on") == Sent(p.outputName) && Lookup(custom, "$.exp") == Sent(p.expiry) &&
    forall key | key !in SYSTEM_KEYS :: Lookup(custom, key) == Lookup(p.custom, key)
  }

  lemma CustomArrives(p: Properties, pairs: Pairs)
    requires HoldsAttributes(pairs, p)
    requires forall key | key !in SYSTEM_KEYS :: LastValue(pairs, key) == Lookup(p.custom, key)
    ensures CustomAgrees(AssignAll(BLANK, pairs).custom, p)
  {
    CustomFromBlank(pairs, "$.on");
    CustomFromBlank(pairs, "$.exp");
    forall key | key !in SYSTEM_KEYS
      ensures Lookup(AssignAll(BLANK, pairs).custom, key) == Lookup(p.custom, key)
    {
      CustomFromBlank(pairs, key);
    }
  }

  /**
   What arrives of any message, with or without an output name or an expiry: the six attributes as they were
   sent, the output name and the expiry as custom properties under their keys, and every other custom
   property as it was.
   */
  lemma EncodedMessageArrives(channel: Channel, p: Properties)
    requires SlashFree(channel) && BytesMessage(p) && DistinctKeys(p.custom) && NoSystemKeys(p.custom)
    ensures var e := Extract(Encode(p, Base(channel)), BLANK);
            e.error.None? && AttributesArrive(e.message, p) && CustomAgrees(e.message.custom, p)
  {
    var pairs := AllPairs(p);
    BytesOfMessage(p);
    ExtractOfEncode(channel, p);
    EncodeIsOneList(p, Base(channel));
    FormPairsOfUrlEncode(pairs);
    WireCarriesMessage(p, Base(channel), UrlEncode(pairs));
    AssignAllTakesOver(BLANK, pairs);
    TakenOverFromBlank(AssignAll(BLANK, pairs), p, pairs);
    CustomArrives(p, pairs);
  }

  // ----- topics without properties -----

  /** A topic that ends in front of the properties carries none. */
  lemma NoPropertiesLevel(channel: Channel, p: Properties)
    requires SlashFree(channel)
    ensures Extract(Join(Levels(channel), '/'), p) == Extraction(p, None)
  {
    SplitJoin(Levels(channel), '/');
  }

  /** A topic of fewer than four levels is in no format that carries properties. */
  lemma ShortTopicRaises(levels: seq<string>, p: Properties)
    requires 0 < |levels| < 4 && forall level <- levels :: '/' !in level
    ensures Extract(Join(levels, '/'), p) == Extraction(p, Some(BadFormat))
  {
    SplitJoin(levels, '/');
  }
}
