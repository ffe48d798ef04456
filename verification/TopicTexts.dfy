/** The topics of the service written out, as the library and its documentation spell them. */
module TopicTexts {
  import opened Options
  import opened UrlCodec
  import opened TopicLevels
  import opened MessageTopics
  import opened TopicDispatch
  import Decimal
  import PollingModel
  import PollingTopics

  lemma TopicFirst(first: string, rest: seq<string>)
    requires rest != []
    ensures Topic([first] + rest) == first + "/" + Topic(rest)
  {
    assert ([first] + rest)[1..] == rest;
  }

  lemma FiveLevels(a: string, b: string, c: string, d: string, e: string)
    ensures Topic([a, b, c, d, e]) == a + "/" + b + "/" + c + "/" + d + "/" + e
  {
    assert [a, b, c, d, e] == [a] + ([b] + ([c] + ([d] + [e])));
    TopicFirst(a, [b] + ([c] + ([d] + [e])));
    TopicFirst(b, [c] + ([d] + [e]));
    TopicFirst(c, [d] + [e]);
    TopicFirst(d, [e]);
    assert a + "/" + (b + "/" + (c + "/" + (d + "/" + e))) == a + "/" + b + "/" + c + "/" + d + "/" + e;
  }

  lemma MoreLevels(a: string, b: string, rest: seq<string>)
    requires rest != []
    ensures Topic([a, b] + rest) == a + "/" + b + "/" + Topic(rest)
  {
    assert [a, b] + rest == [a] + ([b] + rest);
    TopicFirst(a, [b] + rest);
    TopicFirst(b, rest);
    assert a + "/" + (b + "/" + Topic(rest)) == a + "/" + b + "/" + Topic(rest);
  }

  /** devices/{device}/messages/devicebound/ */
  lemma C2dText(device: string)
    ensures Base(C2d(device)) == "devices" + "/" + device + "/" + "messages" + "/" + "devicebound" + "/" + ""
  {
    assert Levels(C2d(device)) + [""] == ["devices", device, "messages", "devicebound", ""];
    FiveLevels("devices", device, "messages", "devicebound", "");
  }

  /** devices/{device}/modules/{module}/inputs/{input}/ */
  lemma InputText(device: string, mod: string, input: string)
    ensures Base(Input(device, mod, input)) ==
            "devices" + "/" + device + "/" + ("modules" + "/" + mod + "/" + "inputs" + "/" + input + "/" + "")
  {
    var rest := ["modules", mod, "inputs", input, ""];
    assert Levels(Input(device, mod, input)) + [""] == ["devices", device] + rest;
    MoreLevels("devices", device, rest);
    FiveLevels("modules", mod, "inputs", input, "");
  }

  lemma RidText(request: string)
    ensures RequestPart(request, []) == "$rid=" + Quote(request)
  {
    assert ["$rid=" + Quote(request)] + [] == ["$rid=" + Quote(request)];
  }

  /** $iothub/methods/POST/{name}/?$rid={request} */
  lemma MethodText(name: string, request: string)
    ensures Topic(MethodLevels(name, request, [])) ==
            "$iothub" + "/" + "methods" + "/" + "POST" + "/" + name + "/" + ("?" + ("$rid=" + Quote(request)))
  {
    RidText(request);
    FiveLevels("$iothub", "methods", "POST", name, "?" + RequestPart(request, []));
  }

  /** $iothub/twin/res/{status}/?$rid={request} */
  lemma TwinResponseText(status: nat, request: string)
    ensures Topic(TwinLevels(status, request, [])) ==
            "$iothub" + "/" + "twin" + "/" + "res" + "/" + Decimal.ToDecimal(status) + "/" +
            ("?" + ("$rid=" + Quote(request)))
  {
    RidText(request);
    FiveLevels("$iothub", "twin", "res", Decimal.ToDecimal(status), "?" + RequestPart(request, []));
  }

  /** $iothub/twin/PATCH/properties/desired/{last} */
  lemma PatchText(last: string)
    ensures Topic(PatchLevels(last)) ==
            "$iothub" + "/" + ("twin" + "/" + "PATCH" + "/" + "properties" + "/" + "desired" + "/" + last)
  {
    assert PatchLevels(last) == ["$iothub"] + ["twin", "PATCH", "properties", "desired", last];
    TopicFirst("$iothub", ["twin", "PATCH", "properties", "desired", last]);
    FiveLevels("twin", "PATCH", "properties", "desired", last);
  }

  /** The two topics on which the provisioning client publishes: `$` and `&` set off the parts. */
  lemma ProvisioningTexts(request: string, operation: string)
    ensures PollingModel.RegisterTopic(request) == "$dps/registrations/PUT/iotdps-register/?$rid=" + request
    ensures PollingTopics.QueryTopic(request, operation) ==
            "$" + ("dps/registrations" + "/GET/" + "iotdps-get-" + "operationstatus/?" +
                   "$" + (("rid=" + request) + "&" + ("operationId=" + operation)))
  {
  }

  // ----- what is not recognised -----

  /** A text of a single level belongs to none of the topics and is passed up as it is. */
  lemma OneLevelPassedUp(topic: string, device: string, mod: Option<string>)
    requires '/' !in topic
    ensures Dispatch(topic, device, mod) == PassedUp
  {
    NotThePattern(topic, C2dPattern(device));
    NotThePattern(topic, InputPattern(device, mod));
    NotThePattern(topic, METHOD_PATTERN);
    NotThePattern(topic, TWIN_RESPONSE_PATTERN);
    NotThePattern(topic, TWIN_PATCH_PATTERN);
  }

  lemma NotThePattern(topic: string, pattern: seq<string>)
    requires '/' !in topic && |pattern| > 1
    ensures !Contains(topic, Topic(pattern)) && !StartsWith(topic, Topic(pattern))
  {
    assert pattern == [pattern[0]] + pattern[1..];
    PatternHasSlash(pattern[0], pattern[1..]);
    NoSlashNotContained(topic, Topic(pattern));
  }

  lemma PatternHasSlash(first: string, rest: seq<string>)
    requires rest != []
    ensures '/' in Topic([first] + rest)
  {
    TopicFirst(first, rest);
  }

  lemma ContainedSlash(s: string, t: string)
    requires Contains(s, t) && '/' in t
    ensures '/' in s
  {
    var i :| 0 <= i <= |s| && StartsWith(s[i..], t);
    var k :| 0 <= k < |t| && t[k] == '/';
    assert s[i..][k] == s[i..][..|t|][k];
    assert s[i + k] == '/';
  }

  lemma StartsWithSlash(s: string, t: string)
    requires StartsWith(s, t) && '/' in t
    ensures '/' in s
  {
    var k :| 0 <= k < |t| && t[k] == '/';
    assert s[..|t|][k] == s[k];
  }

  lemma NoSlashNotContained(s: string, t: string)
    requires '/' !in s && '/' in t
    ensures !Contains(s, t) && !StartsWith(s, t)
  {
    if Contains(s, t) { ContainedSlash(s, t); }
    if StartsWith(s, t) { StartsWithSlash(s, t); }
  }

  /** A device without modules listens as if its module were called `None`. */
  lemma NoModuleIsNone(topic: string, device: string)
    ensures Dispatch(topic, device, None) == Dispatch(topic, device, Some("None"))
  {
  }

  /** A twin response whose status is not a number raises, even with a request id. */
  lemma TwinStatusMustBeNumber(
      code: string, request: string, more: seq<string>, device: string, mod: Option<string>)
    requires '/' !in code && '?' !in code && Decimal.Parse(code).None?
    requires IsBytes(request) && forall entry <- more :: IsExtra(entry)
    requires '/' !in device && '/' !in ModuleText(mod)
    ensures Dispatch(Topic(["$iothub", "twin", "res", code, "?" + RequestPart(request, more)]), device, mod) ==
            Failed(BadNumber)
  {
    var levels := ["$iothub", "twin", "res", code, "?" + RequestPart(request, more)];
    var head := ["$iothub", "twin", "res", code];
    RequestIdOfTopic(head, request, more);
    assert levels == head + ["?" + RequestPart(request, more)];
    TwinResponseClass(levels, device, mod);
    LevelsSplit(levels);
  }

  lemma NoQueryNoId(levels: seq<string>)
    requires forall level <- levels :: '?' !in level
    ensures RequestIdOf(Topic(levels)) == Err(IndexOutOfRange)
  {
    JoinAvoids(levels, '/', '?');
    SplitWhole(Topic(levels), '?');
  }

  /** A method call without a query part raises. */
  lemma MethodWithoutQueryFails(levels: seq<string>, device: string, mod: Option<string>)
    requires AreLevels(levels) && |levels| == 5 && levels[0] == "$iothub" && levels[1] == "methods" && levels[2] == "POST"
    requires (forall level <- levels :: '?' !in level) && '/' !in device && '/' !in ModuleText(mod)
    ensures Dispatch(Topic(levels), device, mod) == Failed(IndexOutOfRange)
  {
    MethodClass(levels, device, mod);
    MethodBranch(levels, device, mod);
    NoQueryNoId(levels);
  }

  /** A query part whose entries do not name a request id raises. */
  lemma NoRequestIdRaises(more: seq<string>)
    requires more != [] && forall entry <- more :: IsExtra(entry)
    ensures RequestIdIn(Join(more, '&')) == Err(MissingKey)
  {
    forall i | 0 <= i < |more|
      ensures '&' !in more[i]
    {
      assert IsExtra(more[i]);
    }
    SplitJoin(more, '&');
    ExtrasKeepRequestId(more, []);
  }
}
