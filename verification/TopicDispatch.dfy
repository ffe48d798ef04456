/**
 IoTHubMQTTConverterStage._handle_pipeline_event: which kind of event an incoming topic becomes, and
 what is read off the topic.  Topics are written as the list of their levels.
 */
module TopicDispatch {
  import opened Options
  import opened UrlCodec
  import opened Dicts
  import opened TopicLevels
  import opened MessageTopics
  import Decimal

  // ----- classifiers -----

  function C2dPattern(device: string): seq<string> {
    ["devices", device, "messages", "devicebound"]
  }

  /** A device without modules formats its module id as `None`. */
  function ModuleText(mod: Option<string>): string {
    if mod.Some? then mod.value else "None"
  }

  function InputPattern(device: string, mod: Option<string>): seq<string> {
    ["devices", device, "modules", ModuleText(mod), "inputs", ""]
  }

  const METHOD_PATTERN := ["$iothub", "methods", "POST"]
  const TWIN_RESPONSE_PATTERN := ["$iothub", "twin", "res", ""]
  const TWIN_PATCH_PATTERN := ["$iothub", "twin", "PATCH", "properties", "desired"]

  predicate IsC2dTopic(topic: string, device: string) {
    Contains(topic, Topic(C2dPattern(device)))
  }

  predicate IsInputTopic(topic: string, device: string, mod: Option<string>) {
    Contains(topic, Topic(InputPattern(device, mod)))
  }

  predicate IsMethodTopic(topic: string) {
    Contains(topic, Topic(METHOD_PATTERN))
  }

  predicate IsTwinResponseTopic(topic: string) {
    StartsWith(topic, Topic(TWIN_RESPONSE_PATTERN))
  }

  predicate IsTwinPatchTopic(topic: string) {
    StartsWith(topic, Topic(TWIN_PATCH_PATTERN))
  }

  // ----- extractors -----

  function StripDollars(s: string): string {
    if s != [] && s[0] == '$' then StripDollars(s[1..]) else s
  }

  /** _extract_properties. */
  function ExtractPairs(entries: seq<string>, d: Dict): Result<Dict, TopicError>
    decreases |entries|
  {
    if entries == [] then Ok(d)
    else
      var pair := Split(entries[0], '=');
      if |pair| < 2 then Err(IndexOutOfRange)
      else ExtractPairs(entries[1..], DictSet(d, StripDollars(Unquote(pair[0])), Unquote(pair[1])))
  }

  /** The request id among the entries of a query part. */
  function RequestIdIn(part: string): Result<string, TopicError> {
    match ExtractPairs(Split(part, '&'), [])
    case Err(error) => Err(error)
    case Ok(d) => if Lookup(d, "rid").Some? then Ok(Lookup(d, "rid").value) else Err(MissingKey)
  }

  /** The request id in what follows the first question mark of a method or twin topic, up to the second. */
  function RequestIdOf(topic: string): Result<string, TopicError> {
    var parts := Split(topic, '?');
    if |parts| < 2 then Err(IndexOutOfRange) else RequestIdIn(parts[1])
  }

  function InputNameOf(topic: string): Result<string, TopicError> {
    var parts := Split(topic, '/');
    if |parts| > 5 && parts[4] == "inputs" then Ok(parts[5]) else Err(BadFormat)
  }

  // ----- the chain of branches -----

  datatype Incoming =
    | C2dMessage(message: Properties)
    | InputMessage(input: string, message: Properties)
    | MethodCall(request: string, name: string)
    | TwinResponse(request: string, status: nat)
    | DesiredPatch
    | PassedUp
    | Failed(error: TopicError)

  function Dispatch(topic: string, device: string, mod: Option<string>): Incoming {
    var levels := Split(topic, '/');
    if IsC2dTopic(topic, device) then
      var e := Extract(topic, BLANK);
      if e.error.Some? then Failed(e.error.value) else C2dMessage(e.message)
    else if IsInputTopic(topic, device, mod) then
      var e := Extract(topic, BLANK);
      if e.error.Some? then Failed(e.error.value)
      else
        match InputNameOf(topic)
        case Err(error) => Failed(error)
        case Ok(name) => InputMessage(name, e.message)
    else if IsMethodTopic(topic) then
      if |levels| < 4 then Failed(BadFormat)
      else
        match RequestIdOf(topic)
        case Err(error) => Failed(error)
        case Ok(request) => MethodCall(request, levels[3])
    else if IsTwinResponseTopic(topic) then
      if |levels| < 4 then Failed(BadFormat)
      else
        match RequestIdOf(topic)
        case Err(error) => Failed(error)
        case Ok(request) =>
          if Decimal.Parse(levels[3]).Some? then TwinResponse(request, Decimal.Parse(levels[3]).value)
          else Failed(BadNumber)
    else if IsTwinPatchTopic(topic) then DesiredPatch
    else PassedUp
  }

  // ----- the topics the service sends -----

  /** `$rid=<request id>`, followed by whatever entries the service adds. */
  function RequestPart(request: string, more: seq<string>): string {
    Join(["$rid=" + Quote(request)] + more, '&')
  }

  function MethodLevels(name: string, request: string, more: seq<string>): seq<string> {
    ["$iothub", "methods", "POST", name, "?" + RequestPart(request, more)]
  }

  function TwinLevels(status: nat, request: string, more: seq<string>): seq<string> {
    ["$iothub", "twin", "res", Decimal.ToDecimal(status), "?" + RequestPart(request, more)]
  }

  function PatchLevels(last: string): seq<string> {
    ["$iothub", "twin", "PATCH", "properties", "desired", last]
  }

  /** An entry such as `$version=4`: it has a value and does not name the request id again. */
  predicate IsExtra(entry: string) {
    '/' !in entry && '?' !in entry && '&' !in entry && '=' in entry &&
    StripDollars(Unquote(Split(entry, '=')[0])) != "rid"
  }

  // ----- no branch is taken by accident -----

  lemma IotHubTopicsAreNotC2d(levels: seq<string>, device: string)
    requires AreLevels(levels) && '/' !in device && 4 <= |levels| <= 6 && levels[0] == "$iothub"
    requires levels[1] == "methods" || levels[1] == "twin"
    requires |levels| == 6 ==> levels[2] == "PATCH"
    ensures !IsC2dTopic(Topic(levels), device)
  {
    var pattern := C2dPattern(device);
    assert "$iothub"[0] == '$' && "methods"[0] == 'm' && "devices"[0] == 'd';
    forall i | 0 <= i < |levels|
      ensures !MatchesAt(levels, pattern, i)
    {
    }
    ContainsIffMatches(levels, pattern);
  }

  lemma IotHubTopicsAreNotInput(levels: seq<string>, device: string, mod: Option<string>)
    requires AreLevels(levels) && '/' !in device && '/' !in ModuleText(mod) && |levels| <= 6 && levels[0] == "$iothub"
    ensures !IsInputTopic(Topic(levels), device, mod)
  {
    var pattern := InputPattern(device, mod);
    assert "$iothub"[0] == '$' && "devices"[0] == 'd';
    forall i | 0 <= i < |levels|
      ensures !MatchesAt(levels, pattern, i)
    {
    }
    ContainsIffMatches(levels, pattern);
  }

  lemma TwinTopicsAreNotMethods(levels: seq<string>)
    requires AreLevels(levels) && 5 <= |levels| <= 6 && levels[0] == "$iothub" && levels[1] == "twin"
    requires |levels| == 5 ==> levels[2] == "res"
    requires |levels| == 6 ==> levels[2] == "PATCH" && levels[4] == "desired"
    ensures !IsMethodTopic(Topic(levels))
  {
    assert "twin"[0] == 't' && "methods"[0] == 'm' && "desired"[0] == 'd';
    forall i | 0 <= i < |levels| - 2
      ensures !MatchesAt(levels, METHOD_PATTERN, i)
    {
      assert levels[i + 1..i + 2] == [levels[i + 1]] && METHOD_PATTERN[1..2] == ["methods"];
    }
    ContainsIffMatches(levels, METHOD_PATTERN);
  }

  // ----- reading the request id -----

  lemma {:induction false} ExtrasKeepRequestId(entries: seq<string>, d: Dict)
    requires forall entry <- entries :: IsExtra(entry)
    ensures ExtractPairs(entries, d).Ok? && Lookup(ExtractPairs(entries, d).value, "rid") == Lookup(d, "rid")
    decreases |entries|
  {
    if entries != [] {
      var entry := entries[0];
      assert IsExtra(entry);
      var pair := Split(entry, '=');
      var key, value := StripDollars(Unquote(pair[0])), Unquote(pair[1]);
      DictSetKeepsOthers(d, key, value, "rid");
      ExtrasKeepRequestId(entries[1..], DictSet(d, key, value));
    }
  }

  lemma RequestEntryAlphabet(request: string)
    ensures var entry := "$rid=" + Quote(request);
            '&' !in entry && '?' !in entry && '/' !in entry
  {
    QuoteAlphabet(request);
    var head := "$rid=";
    assert '&' !in head && '?' !in head && '/' !in head;
  }

  lemma RequestEntrySplits(request: string)
    ensures Split("$rid=" + Quote(request), '=') == ["$rid", Quote(request)]
  {
    QuoteAlphabet(request);
    SplitEntry("$rid", Quote(request), '=');
    assert "$rid=" == "$rid" + ['='];
  }

  lemma UnquoteDollarRid()
    ensures StripDollars(Unquote("$rid")) == "rid"
  {
    assert "$rid"[1..] == "rid" && "rid"[1..] == "id" && "id"[1..] == "d" && "d"[1..] == "";
    assert Unquote("d") == "d";
    assert Unquote("id") == "id";
    assert Unquote("rid") == "rid";
    assert Unquote("$rid") == "$rid";
    assert "rid"[0] == 'r' && StripDollars("rid") == "rid";
  }

  /** The query part of a canonical topic yields the request id it was built with. */
  lemma RequestPartYieldsId(request: string, more: seq<string>)
    requires IsBytes(request) && forall entry <- more :: IsExtra(entry)
    ensures var part := RequestPart(request, more);
            '/' !in part && '?' !in part &&
            var d := ExtractPairs(Split(part, '&'), []);
            d.Ok? && Lookup(d.value, "rid") == Some(request)
  {
    var entry := "$rid=" + Quote(request);
    var entries := [entry] + more;
    RequestEntryAlphabet(request);
    RequestEntrySplits(request);
    UnquoteQuote(request);
    UnquoteDollarRid();
    assert forall e <- more :: IsExtra(e);
    JoinAvoids(entries, '&', '/');
    JoinAvoids(entries, '&', '?');
    SplitJoin(entries, '&');
    assert entries[0] == entry && entries[1..] == more;
    ExtrasKeepRequestId(more, [("rid", request)]);
    assert ExtractPairs(entries, []) == ExtractPairs(more, [("rid", request)]);
  }

  lemma RequestIdOfTopic(head: seq<string>, request: string, more: seq<string>)
    requires AreLevels(head) && forall level <- head :: '?' !in level
    requires IsBytes(request) && forall entry <- more :: IsExtra(entry)
    ensures var levels := head + ["?" + RequestPart(request, more)];
            AreLevels(levels) && RequestIdOf(Topic(levels)) == Ok(request)
  {
    var part := RequestPart(request, more);
    RequestPartYieldsId(request, more);
    var start := Topic(head + [""]);
    JoinAvoids(head + [""], '/', '?');
    JoinExtend(head, "?" + part, '/');
    assert start + "?" + part == start + ("?" + part);
    SplitFirst(start, '?', part);
    SplitWhole(part, '?');
  }

  // ----- every canonical topic takes its own branch -----

  lemma LevelsSplit(levels: seq<string>)
    requires AreLevels(levels)
    ensures Split(Topic(levels), '/') == levels
  {
    SplitJoin(levels, '/');
  }

  lemma MethodClass(levels: seq<string>, device: string, mod: Option<string>)
    requires AreLevels(levels) && |levels| == 5 && levels[0] == "$iothub" && levels[1] == "methods" && levels[2] == "POST"
    requires '/' !in device && '/' !in ModuleText(mod)
    ensures var topic := Topic(levels);
            !IsC2dTopic(topic, device) && !IsInputTopic(topic, device, mod) && IsMethodTopic(topic)
  {
    IotHubTopicsAreNotC2d(levels, device);
    IotHubTopicsAreNotInput(levels, device, mod);
    assert levels[1..2] == ["methods"] == METHOD_PATTERN[1..2];
    assert MatchesAt(levels, METHOD_PATTERN, 0);
    ContainsIffMatches(levels, METHOD_PATTERN);
  }

  function CallOrFailure(request: Result<string, TopicError>, name: string): Incoming {
    match request
    case Err(error) => Failed(error)
    case Ok(id) => MethodCall(id, name)
  }

  lemma MethodBranch(levels: seq<string>, device: string, mod: Option<string>)
    requires AreLevels(levels) && |levels| > 3
    requires var topic := Topic(levels);
             !IsC2dTopic(topic, device) && !IsInputTopic(topic, device, mod) && IsMethodTopic(topic)
    ensures Dispatch(Topic(levels), device, mod) == CallOrFailure(RequestIdOf(Topic(levels)), levels[3])
  {
    LevelsSplit(levels);
  }

  /** The text the request id of a method topic is read from: a question mark in the name comes first. */
  function MethodQuery(name: string, request: string, more: seq<string>): string {
    if '?' in name then Split(name + "/", '?')[1] else RequestPart(request, more)
  }

  lemma SecondPartOfName(head: string, text: string, part: string)
    requires '?' !in head && '?' in text
    ensures var parts := Split(head + text + "?" + part, '?');
            |parts| > 1 && parts[1] == Split(text, '?')[1]
  {
    SplitWhole(head, '?');
    SplitConcat(head, text, '?');
    assert Glue([head], Split(text, '?'))[1..] == Split(text, '?')[1..];
    SplitAround(head + text, '?', part);
  }

  lemma MethodTopicText(name: string, request: string, more: seq<string>)
    ensures Topic(MethodLevels(name, request, more)) ==
            Topic(["$iothub", "methods", "POST", ""]) + (name + "/") + "?" + RequestPart(request, more)
    ensures '?' !in Topic(["$iothub", "methods", "POST", ""])
  {
    var part := RequestPart(request, more);
    var start := ["$iothub", "methods", "POST"];
    JoinExtend(start + [name], "?" + part, '/');
    JoinAppend(start + [name], [""], '/');
    JoinExtend(start, name, '/');
    JoinAvoids(start + [""], '/', '?');
    assert start + [name] + ["?" + part] == MethodLevels(name, request, more);
    assert start + [""] == ["$iothub", "methods", "POST", ""];
    var base := Topic(start + [""]);
    assert Topic(start + [name] + [""]) == base + name + "/" + "";
    assert base + name + "/" + "" + ("?" + part) == base + (name + "/") + "?" + part;
  }

  lemma MarkedNameReads(name: string, request: string, more: seq<string>)
    requires '?' in name
    ensures RequestIdOf(Topic(MethodLevels(name, request, more))) == RequestIdIn(Split(name + "/", '?')[1])
  {
    MethodTopicText(name, request, more);
    var head, text := Topic(["$iothub", "methods", "POST", ""]), name + "/";
    assert '?' in text;
    SecondPartOfName(head, text, RequestPart(request, more));
  }

  lemma PlainNameReads(name: string, request: string, more: seq<string>)
    requires '/' !in name && '?' !in name && IsBytes(request) && forall entry <- more :: IsExtra(entry)
    ensures RequestIdOf(Topic(MethodLevels(name, request, more))) == Ok(request)
  {
    var head := ["$iothub", "methods", "POST", name];
    RequestIdOfTopic(head, request, more);
    assert MethodLevels(name, request, more) == head + ["?" + RequestPart(request, more)];
  }

  lemma RequestIdInPart(request: string, more: seq<string>)
    requires IsBytes(request) && forall entry <- more :: IsExtra(entry)
    ensures RequestIdIn(RequestPart(request, more)) == Ok(request)
  {
    RequestPartYieldsId(request, more);
  }

  lemma MethodIncoming(name: string, request: string, more: seq<string>, device: string, mod: Option<string>)
    requires '/' !in name && IsBytes(request) && forall entry <- more :: IsExtra(entry)
    requires '/' !in device && '/' !in ModuleText(mod)
    ensures var topic := Topic(MethodLevels(name, request, more));
            Dispatch(topic, device, mod) == CallOrFailure(RequestIdOf(topic), name)
  {
    var levels := MethodLevels(name, request, more);
    assert AreLevels(levels) by { RequestPartYieldsId(request, more); }
    MethodClass(levels, device, mod);
    MethodBranch(levels, device, mod);
  }

  /**
   A direct method call is recognised as such, whatever the device is called, and its name is read off.  The
   request id comes back if and only if the name has no question mark or, by chance, the text behind the
   question mark yields the same id.
   */
  lemma MethodTopicDispatches(name: string, request: string, more: seq<string>, device: string, mod: Option<string>)
    requires '/' !in name && IsBytes(request) && forall entry <- more :: IsExtra(entry)
    requires '/' !in device && '/' !in ModuleText(mod)
    ensures var incoming := Dispatch(Topic(MethodLevels(name, request, more)), device, mod);
            incoming == CallOrFailure(RequestIdIn(MethodQuery(name, request, more)), name) &&
            (incoming == MethodCall(request, name) <==>
             '?' !in name || RequestIdIn(Split(name + "/", '?')[1]) == Ok(request))
  {
    MethodIncoming(name, request, more, device, mod);
    if '?' in name {
      MarkedNameReads(name, request, more);
    } else {
      PlainNameReads(name, request, more);
      RequestIdInPart(request, more);
    }
  }

  lemma {:induction false} PartsAvoid(s: string, separator: char, c: char)
    requires c !in s
    ensures forall part <- Split(s, separator) :: c !in part
  {
    if s != [] {
      PartsAvoid(s[1..], separator, c);
    }
  }

  /** A name with a question mark and no equals sign makes the call fail: there is no value to read. */
  lemma QuestionMarkInNameFails(
      name: string, request: string, more: seq<string>, device: string, mod: Option<string>)
    requires '/' !in name && '?' in name && '=' !in name
    requires IsBytes(request) && forall entry <- more :: IsExtra(entry)
    requires '/' !in device && '/' !in ModuleText(mod)
    ensures Dispatch(Topic(MethodLevels(name, request, more)), device, mod) == Failed(IndexOutOfRange)
  {
    MethodTopicDispatches(name, request, more, device, mod);
    PartsAvoid(name + "/", '?', '=');
    var part := Split(name + "/", '?')[1];
    PartsAvoid(part, '&', '=');
    SplitWhole(Split(part, '&')[0], '=');
  }

  lemma TwinResponseClass(levels: seq<string>, device: string, mod: Option<string>)
    requires AreLevels(levels) && |levels| == 5 && levels[0] == "$iothub" && levels[1] == "twin" && levels[2] == "res"
    requires '/' !in device && '/' !in ModuleText(mod)
    ensures var topic := Topic(levels);
            !IsC2dTopic(topic, device) && !IsInputTopic(topic, device, mod) && !IsMethodTopic(topic) &&
            IsTwinResponseTopic(topic)
  {
    IotHubTopicsAreNotC2d(levels, device);
    IotHubTopicsAreNotInput(levels, device, mod);
    TwinTopicsAreNotMethods(levels);
    StartsWithIffBegins(levels, TWIN_RESPONSE_PATTERN);
    assert levels[..3] == Init(TWIN_RESPONSE_PATTERN);
  }

  lemma PatchClass(levels: seq<string>, device: string, mod: Option<string>)
    requires AreLevels(levels) && |levels| == 6 && levels[..5] == TWIN_PATCH_PATTERN
    requires '/' !in device && '/' !in ModuleText(mod)
    ensures var topic := Topic(levels);
            !IsC2dTopic(topic, device) && !IsInputTopic(topic, device, mod) && !IsMethodTopic(topic) &&
            !IsTwinResponseTopic(topic) && IsTwinPatchTopic(topic)
  {
    IotHubTopicsAreNotC2d(levels, device);
    IotHubTopicsAreNotInput(levels, device, mod);
    TwinTopicsAreNotMethods(levels);
    StartsWithIffBegins(levels, TWIN_RESPONSE_PATTERN);
    StartsWithIffBegins(levels, TWIN_PATCH_PATTERN);
    assert levels[..3][2] == "PATCH" && Init(TWIN_RESPONSE_PATTERN)[2] == "res";
  }

  lemma TwinResponseBranch(levels: seq<string>, request: string, status: nat, device: string, mod: Option<string>)
    requires AreLevels(levels) && |levels| > 3 && RequestIdOf(Topic(levels)) == Ok(request)
    requires Decimal.Parse(levels[3]) == Some(status)
    requires var topic := Topic(levels);
             !IsC2dTopic(topic, device) && !IsInputTopic(topic, device, mod) && !IsMethodTopic(topic) &&
             IsTwinResponseTopic(topic)
    ensures Dispatch(Topic(levels), device, mod) == TwinResponse(request, status)
  {
    LevelsSplit(levels);
  }

  /** A twin response is recognised as such, with its status and request id. */
  lemma TwinResponseDispatches(status: nat, request: string, more: seq<string>, device: string, mod: Option<string>)
    requires IsBytes(request) && forall entry <- more :: IsExtra(entry)
    requires '/' !in device && '/' !in ModuleText(mod)
    ensures Dispatch(Topic(TwinLevels(status, request, more)), device, mod) == TwinResponse(request, status)
  {
    var levels := TwinLevels(status, request, more);
    var code := Decimal.ToDecimal(status);
    var head := ["$iothub", "twin", "res", code];
    Decimal.ParseToDecimal(status);
    assert '/' !in code && '?' !in code by { assert !Decimal.IsDigit('/') && !Decimal.IsDigit('?'); }
    RequestIdOfTopic(head, request, more);
    assert levels == head + ["?" + RequestPart(request, more)];
    TwinResponseClass(levels, device, mod);
    TwinResponseBranch(levels, request, status, device, mod);
  }

  /** A desired-properties patch is recognised as such. */
  lemma PatchDispatches(last: string, device: string, mod: Option<string>)
    requires '/' !in last && '/' !in device && '/' !in ModuleText(mod)
    ensures Dispatch(Topic(PatchLevels(last)), device, mod) == DesiredPatch
  {
    PatchClass(PatchLevels(last), device, mod);
  }

  /** A message from the cloud is recognised as such and carries exactly the encoded properties. */
  lemma C2dDispatches(device: string, pairs: Pairs, mod: Option<string>)
    requires '/' !in device && BytesPairs(pairs)
    ensures Dispatch(Base(C2d(device)) + UrlEncode(pairs), device, mod) == C2dMessage(AssignAll(BLANK, pairs))
  {
    var levels := Levels(C2d(device)) + [UrlEncode(pairs)];
    SeparatorFree(pairs);
    JoinExtend(Levels(C2d(device)), UrlEncode(pairs), '/');
    assert MatchesAt(levels, C2dPattern(device), 0);
    ContainsIffMatches(levels, C2dPattern(device));
    PartOfEncoded(C2d(device), pairs);
    ExtractEncoded(Base(C2d(device)) + UrlEncode(pairs), pairs, BLANK);
  }

  /**
   The one accidental match: a device called `inputs` whose module ends in `devices` receives, on an
   input called `messages`, properties that begin with `devicebound`.
   */
  predicate LooksLikeC2d(device: string, mod: string, input: string, pairs: Pairs) {
    device == "inputs" && EndsWith(mod, "devices") && input == "messages" &&
    StartsWith(UrlEncode(pairs), "devicebound")
  }

  lemma OnlyTheModuleLevelMatches(levels: seq<string>, device: string, i: nat)
    requires |levels| == 7 && levels[2] == "modules" && levels[4] == "inputs"
    requires MatchesAt(levels, C2dPattern(device), i)
    ensures i == 3
  {
    assert levels[i + 1..i + 3][1] == levels[i + 2] && C2dPattern(device)[1..3][1] == "messages";
    assert "modules"[1] == 'o' && "messages"[1] == 'e' && "inputs"[0] == 'i' && "devicebound"[0] == 'd';
    assert levels[i + 2] == "messages" && StartsWith(levels[i + 3], "devicebound");
  }

  lemma InputLevelsLookLikeC2dIff(device: string, mod: string, input: string, last: string)
    requires '/' !in device && '/' !in mod && '/' !in input && '/' !in last
    ensures IsC2dTopic(Topic(Levels(Input(device, mod, input)) + [last]), device) <==>
            device == "inputs" && EndsWith(mod, "devices") && input == "messages" && StartsWith(last, "devicebound")
  {
    var levels := ["devices", device, "modules", mod, "inputs", input, last];
    var pattern := C2dPattern(device);
    assert Levels(Input(device, mod, input)) + [last] == levels;
    ContainsIffMatches(levels, pattern);
    if Matches(levels, pattern) {
      var i: nat :| i < |levels| && MatchesAt(levels, pattern, i);
      OnlyTheModuleLevelMatches(levels, device, i);
    }
    assert levels[4..6] == ["inputs", input] && pattern[1..3] == [device, "messages"];
    assert MatchesAt(levels, pattern, 3) <==> EndsWith(mod, "devices") && StartsWith(last, "devicebound") &&
                                               ["inputs", input] == [device, "messages"];
  }

  lemma InputLooksLikeC2dIff(device: string, mod: string, input: string, pairs: Pairs)
    requires '/' !in device && '/' !in mod && '/' !in input
    ensures IsC2dTopic(Base(Input(device, mod, input)) + UrlEncode(pairs), device) <==>
            LooksLikeC2d(device, mod, input, pairs)
  {
    SeparatorFree(pairs);
    InputLevelsLookLikeC2dIff(device, mod, input, UrlEncode(pairs));
    JoinExtend(Levels(Input(device, mod, input)), UrlEncode(pairs), '/');
  }

  lemma InputLevelsAreInput(device: string, mod: string, input: string, last: string)
    requires '/' !in device && '/' !in mod && '/' !in input && '/' !in last
    ensures IsInputTopic(Topic(["devices", device, "modules", mod, "inputs", input, last]), device, Some(mod))
  {
    var levels := ["devices", device, "modules", mod, "inputs", input, last];
    var pattern := InputPattern(device, Some(mod));
    assert levels[1..5] == pattern[1..5] && levels[5][..0] == "";
    assert MatchesAt(levels, pattern, 0);
    ContainsIffMatches(levels, pattern);
  }

  lemma InputTopicIsInput(device: string, mod: string, input: string, last: string)
    requires '/' !in device && '/' !in mod && '/' !in input && '/' !in last
    ensures var topic := Base(Input(device, mod, input)) + last;
            IsInputTopic(topic, device, Some(mod)) && InputNameOf(topic) == Ok(input)
  {
    var channel := Input(device, mod, input);
    SplitChannel(channel, last);
    JoinExtend(Levels(channel), last, '/');
    InputLevelsAreInput(device, mod, input, last);
    assert Levels(channel) + [last] == ["devices", device, "modules", mod, "inputs", input, last];
  }

  /** A message for an input is recognised as such, with its input name and properties, except in that one case. */
  lemma InputDispatchesIff(device: string, mod: string, input: string, pairs: Pairs)
    requires '/' !in device && '/' !in mod && '/' !in input && BytesPairs(pairs)
    ensures Dispatch(Base(Input(device, mod, input)) + UrlEncode(pairs), device, Some(mod)) ==
            InputMessage(input, AssignAll(BLANK, pairs))
            <==> !LooksLikeC2d(device, mod, input, pairs)
  {
    var channel := Input(device, mod, input);
    SeparatorFree(pairs);
    InputLooksLikeC2dIff(device, mod, input, pairs);
    InputTopicIsInput(device, mod, input, UrlEncode(pairs));
    PartOfEncoded(channel, pairs);
    ExtractEncoded(Base(channel) + UrlEncode(pairs), pairs, BLANK);
  }

  lemma {:induction false} QuoteKeepsLetters(s: string)
    requires forall c <- s :: IsUnreserved(c)
    ensures Quote(s) == s
  {
    if s != [] {
      QuoteKeepsLetters(s[1..]);
      assert s == [s[0]] + s[1..];
    }
  }

  lemma EncodingStartsWithKey(key: string, value: string)
    requires forall c <- key :: IsUnreserved(c)
    ensures StartsWith(UrlEncode([(key, value)]), key)
  {
    QuoteKeepsLetters(key);
    assert Entries([(key, value)]) == [EncodePair((key, value))];
  }

  /** The case exists: whatever its value, such a property makes the message arrive as one from the cloud. */
  lemma DeviceboundPropertyMisleads(value: string)
    ensures LooksLikeC2d("inputs", "devices", "messages", [("devicebound", value)])
  {
    EncodingStartsWithKey("devicebound", value);
  }
}
