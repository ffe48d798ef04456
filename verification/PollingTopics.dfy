/**
 The status-query topic of the provisioning service, and the way the polling machine recovers an
 operation id from it: split at `$`, parse the third part as a query string, take the first value.
 */
module PollingTopics {
  import opened Options
  import opened UrlCodec
  import TopicLevels

  const QUERY_HEAD := "dps/registrations" + "/GET/" + "iotdps-get-" + "operationstatus/?"

  /** PUBLISH_TOPIC_QUERYING.format(request, operation) */
  function QueryTopic(request: string, operation: string): string {
    "$" + (QUERY_HEAD + "$" + (("rid=" + request) + "&" + ("operationId=" + operation)))
  }

  /** parse_qs separates entries at `&` and at `;`. */
  function Separated(s: string): string {
    if s == [] then [] else [if s[0] == ';' then '&' else s[0]] + Separated(s[1..])
  }

  /** The value of an entry for the key `operationId`; blank values are dropped. */
  function OperationIn(entry: string): Option<string> {
    var parts := Split(entry, '=');
    if |parts| >= 2 && Unquote(parts[0]) == "operationId" && Join(parts[1..], '=') != "" then
      Some(Unquote(Join(parts[1..], '=')))
    else
      None
  }

  function FirstOperation(entries: seq<string>): Option<string> {
    if entries == [] then None
    else if OperationIn(entries[0]).Some? then OperationIn(entries[0])
    else FirstOperation(entries[1..])
  }

  /** The operation id the throttled path recovers; `None` stands for the KeyError or IndexError it raises. */
  function Recover(topic: string): Option<string> {
    var parts := Split(topic, '$');
    if |parts| < 3 then None else FirstOperation(Split(Separated(parts[2]), '&'))
  }

  // ----- which ids survive -----

  predicate NoEscape(s: string) {
    forall i | 0 <= i < |s| :: !OpensEscape(s[i..])
  }

  /** Not empty, no separator, no plus sign and no well-formed escape. */
  predicate PlainId(id: string) {
    id != "" && '$' !in id && '&' !in id && ';' !in id && '+' !in id && NoEscape(id)
  }

  predicate PlainRequest(request: string) {
    '$' !in request && '&' !in request && ';' !in request
  }

  lemma {:induction false} UnquoteIsShorter(s: string)
    ensures |Unquote(s)| <= |s|
    decreases |s|
  {
    if s != [] {
      if s[0] != '+' && OpensEscape(s) {
        UnquoteIsShorter(s[3..]);
      } else {
        UnquoteIsShorter(s[1..]);
      }
    }
  }

  /** Decoding leaves a text alone if and only if it holds neither a plus sign nor an escape. */
  lemma {:induction false} UnquoteIsIdentityIff(s: string)
    ensures Unquote(s) == s <==> '+' !in s && NoEscape(s)
    decreases |s|
  {
    if s != [] {
      assert s == [s[0]] + s[1..];
      assert s[0..] == s;
      if s[0] == '+' {
        assert Unquote(s)[0] == ' ';
      } else if OpensEscape(s) {
        UnquoteIsShorter(s[3..]);
        assert !NoEscape(s);
      } else {
        UnquoteIsIdentityIff(s[1..]);
        assert forall i | 0 <= i < |s| - 1 :: s[1..][i..] == s[i + 1..];
        assert NoEscape(s) <==> NoEscape(s[1..]) by {
          if NoEscape(s[1..]) {
            forall i | 0 <= i < |s| ensures !OpensEscape(s[i..]) {
              if i > 0 { assert s[i..] == s[1..][i - 1..]; }
            }
          }
        }
        assert Unquote(s) == [s[0]] + Unquote(s[1..]);
        assert Unquote(s)[1..] == Unquote(s[1..]);
      }
    }
  }

  lemma {:induction false} SeparatedFacts(s: string)
    ensures |Separated(s)| == |s|
    ensures ';' !in s ==> Separated(s) == s
    ensures Separated(s) == s ==> ';' !in s
    ensures '&' in Separated(s) <==> '&' in s || ';' in s
  {
    if s != [] {
      SeparatedFacts(s[1..]);
      assert s == [s[0]] + s[1..];
      assert Separated(s)[1..] == Separated(s[1..]);
    }
  }

  lemma {:induction false} SeparatedConcat(s: string, t: string)
    ensures Separated(s + t) == Separated(s) + Separated(t)
  {
    if s == [] {
      assert s + t == t;
    } else {
      assert (s + t)[1..] == s[1..] + t;
      SeparatedConcat(s[1..], t);
    }
  }

  lemma {:induction false} PartsAreShort(s: string, separator: char)
    ensures forall part <- Split(s, separator) :: |part| <= |s|
    ensures forall i | 1 <= i < |Split(s, separator)| :: |Split(s, separator)[i]| < |s|
  {
    if s != [] {
      PartsAreShort(s[1..], separator);
    }
  }

  lemma {:induction false} JoinLength(parts: seq<string>, separator: char)
    requires |parts| >= 2
    ensures |Join(parts[1..], separator)| < |Join(parts, separator)|
  {
  }

  /** A recovered value is shorter than the entry it was found in. */
  lemma OperationIsShort(entry: string)
    ensures OperationIn(entry).Some? ==> |OperationIn(entry).value| < |entry|
  {
    var parts := Split(entry, '=');
    if OperationIn(entry).Some? {
      JoinSplit(entry, '=');
      JoinLength(parts, '=');
      UnquoteIsShorter(Join(parts[1..], '='));
    }
  }

  lemma {:induction false} FirstOperationIsShort(entries: seq<string>, bound: nat)
    requires forall entry <- entries :: |entry| <= bound
    ensures FirstOperation(entries).Some? ==> |FirstOperation(entries).value| < bound
  {
    if entries != [] {
      OperationIsShort(entries[0]);
      FirstOperationIsShort(entries[1..], bound);
    }
  }

  lemma FirstPartIsShorter(s: string, separator: char)
    ensures |Split(s, separator)[0]| <= |s|
    ensures |Split(s, separator)[0]| == |s| ==> separator !in s
    ensures separator !in s ==> Split(s, separator) == [s]
  {
    PartsAreShort(s, separator);
    JoinSplit(s, separator);
    if separator !in s {
      SplitWhole(s, separator);
    }
  }

  // ----- what the recovery reads -----

  /** The part of the id in front of the first `$`, and of that the part in front of the first separator. */
  function Kept(id: string): string {
    Split(Separated(Split(id, '$')[0]), '&')[0]
  }

  function Dropped(id: string): seq<string> {
    Split(Separated(Split(id, '$')[0]), '&')[1..]
  }

  lemma SplitPrefixed(head: string, s: string, separator: char)
    requires separator !in head
    ensures Split(head + s, separator) == [head + Split(s, separator)[0]] + Split(s, separator)[1..]
  {
    SplitWhole(head, separator);
    TopicLevels.SplitConcat(head, s, separator);
  }

  lemma SplitLeading(separator: char, s: string)
    ensures Split([separator] + s, separator) == [[]] + Split(s, separator)
  {
    assert ([separator] + s)[1..] == s;
  }

  lemma SplitThird(head: string, entry: string, name: string, rest: string)
    requires '$' !in head && '$' !in entry && '$' !in name
    ensures var parts := Split("$" + (head + "$" + (entry + "&" + (name + rest))), '$');
            |parts| >= 3 && parts[2] == entry + "&" + (name + Split(rest, '$')[0])
  {
    SplitPrefixed(name, rest, '$');
    SplitPrefixed(entry + "&", name + rest, '$');
    SplitFirst(head, '$', entry + "&" + (name + rest));
    SplitLeading('$', head + "$" + (entry + "&" + (name + rest)));
  }

  lemma QueryHeadHasNoDollar()
    ensures '$' !in QUERY_HEAD
  {
    assert '$' !in "dps/registrations" && '$' !in "/GET/" && '$' !in "iotdps-get-" && '$' !in "operationstatus/?";
  }

  lemma ThirdPart(request: string, operation: string)
    requires PlainRequest(request)
    ensures var parts := Split(QueryTopic(request, operation), '$');
            |parts| >= 3 && parts[2] == ("rid=" + request) + "&" + ("operationId=" + Split(operation, '$')[0])
  {
    QueryHeadHasNoDollar();
    assert '$' !in "rid=" && '$' !in "operationId=";
    SplitThird(QUERY_HEAD, "rid=" + request, "operationId=", operation);
  }

  lemma SeparatedEntry(head: string, name: string, rest: string)
    requires ';' !in head && ';' !in name
    ensures Separated(head + "&" + (name + rest)) == head + "&" + (name + Separated(rest))
  {
    SeparatedFacts(head + "&");
    SeparatedFacts(name);
    SeparatedConcat(head + "&", name + rest);
    SeparatedConcat(name, rest);
  }

  lemma SeparatedEntries(head: string, name: string, rest: string)
    requires ';' !in head && '&' !in head && ';' !in name && '&' !in name
    ensures var pieces := Split(Separated(rest), '&');
            Split(Separated(head + "&" + (name + rest)), '&') == [head] + ([name + pieces[0]] + pieces[1..])
  {
    SeparatedEntry(head, name, rest);
    SplitFirst(head, '&', name + Separated(rest));
    SplitPrefixed(name, Separated(rest), '&');
  }

  lemma OperationInEntry(value: string)
    ensures OperationIn("operationId=" + value) == if value != "" then Some(Unquote(value)) else None
  {
    var entry, key := "operationId=" + value, "operationId";
    assert entry == key + ['='] + value;
    SplitEntryAtFirst(key, value);
    KeyIsPlain(key);
  }

  lemma SplitEntryAtFirst(key: string, value: string)
    requires '=' !in key
    ensures var parts := Split(key + ['='] + value, '=');
            |parts| > 1 && parts[0] == key && Join(parts[1..], '=') == value
  {
    SplitFirst(key, '=', value);
    JoinSplit(value, '=');
    assert ([key] + Split(value, '='))[1..] == Split(value, '=');
  }

  lemma KeyIsPlain(key: string)
    requires '+' !in key && '%' !in key
    ensures Unquote(key) == key
  {
    UnquoteIsIdentityIff(key);
    forall i | 0 <= i < |key|
      ensures !OpensEscape(key[i..])
    {
      assert key[i..][0] == key[i];
    }
  }

  lemma RequestEntryIsNoOperation(request: string)
    ensures OperationIn("rid=" + request) == None
  {
    assert "rid=" + request == "rid" + ['='] + request;
    SplitFirst("rid", '=', request);
    KeyIsPlain("rid");
    assert |"rid"| != |"operationId"|;
  }

  lemma SecondEntryDecides(first: string, second: string, others: seq<string>)
    requires OperationIn(first).None?
    ensures FirstOperation([first] + ([second] + others)) ==
            if OperationIn(second).Some? then OperationIn(second) else FirstOperation(others)
  {
    var rest := [second] + others;
    assert ([first] + rest)[1..] == rest && rest[1..] == others;
  }

  lemma RecoverReads(request: string, operation: string)
    requires PlainRequest(request)
    ensures Recover(QueryTopic(request, operation)) ==
            if Kept(operation) != "" then Some(Unquote(Kept(operation))) else FirstOperation(Dropped(operation))
  {
    var head, name := "rid=" + request, "operationId=";
    assert ';' !in head && '&' !in head && ';' !in name && '&' !in name;
    ThirdPart(request, operation);
    SeparatedEntries(head, name, Split(operation, '$')[0]);
    RequestEntryIsNoOperation(request);
    OperationInEntry(Kept(operation));
    SecondEntryDecides(head, name + Kept(operation), Dropped(operation));
  }

  lemma KeptIsShort(id: string)
    ensures |Kept(id)| <= |id|
    ensures |Kept(id)| == |id| ==> '$' !in id && '&' !in id && ';' !in id
    ensures '$' !in id && '&' !in id && ';' !in id ==> Kept(id) == id
    ensures forall entry <- Dropped(id) :: |entry| <= |id|
  {
    var x := Split(id, '$')[0];
    FirstPartIsShorter(id, '$');
    SeparatedFacts(x);
    FirstPartIsShorter(Separated(x), '&');
    PartsAreShort(Separated(x), '&');
    if |Kept(id)| == |id| {
      assert x == id by { assert Split(id, '$') == [id]; }
    }
  }

  /** The throttled path recovers the operation id it polled with if and only if that id is plain. */
  lemma RecoverIff(request: string, operation: string)
    requires PlainRequest(request)
    ensures Recover(QueryTopic(request, operation)) == Some(operation) <==> PlainId(operation)
  {
    RecoverReads(request, operation);
    KeptIsShort(operation);
    UnquoteIsIdentityIff(operation);
    UnquoteIsShorter(Kept(operation));
    if Kept(operation) == "" {
      FirstOperationIsShort(Dropped(operation), |operation|);
    }
  }
}
