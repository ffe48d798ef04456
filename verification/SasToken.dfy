/** Shared access signatures: the token that a renewable provider prints and the parser that reads it. */
module SasToken {
  import opened Options
  import opened UrlCodec
  import opened Dicts
  import Decimal
  import TopicLevels

  datatype Identity = Identity(hostname: string, device: string, mod: Option<string>)

  /** Every one of these is a ValueError. */
  datatype SasError = Malformed | WrongPartCount | DuplicateKey | InvalidKey | MissingField | BadResource

  // ----- generate_new_sas_token -----

  /** An empty text counts as absent. */
  predicate Present(value: Option<string>) {
    value.Some? && value.value != ""
  }

  function ResourceLevels(id: Identity): seq<string> {
    [id.hostname, "devices", id.device] + if Present(id.mod) then ["modules", id.mod.value] else []
  }

  /** hostname/devices/device and, for a module, /modules/module */
  function Resource(id: Identity): string {
    Join(ResourceLevels(id), '/')
  }

  function Argument(key: string, value: string): string {
    key + "=" + value
  }

  function Arguments(id: Identity, signature: string, expiry: nat): seq<string> {
    [Argument("sr", Quote(Resource(id))), Argument("sig", signature), Argument("se", Decimal.ToDecimal(expiry))]
  }

  function KeyNameArgument(keyName: Option<string>): seq<string> {
    if Present(keyName) then [Argument("skn", keyName.value)] else []
  }

  function Generate(id: Identity, signature: string, expiry: nat, keyName: Option<string>): string {
    "SharedAccessSignature" + " " + Join(Arguments(id, signature, expiry) + KeyNameArgument(keyName), '&')
  }

  // ----- parse -----

  /** s.split(separator, 1), when it yields two parts. */
  function SplitOnce(s: string, separator: char): Option<(string, string)> {
    if s == [] then None
    else if s[0] == separator then Some(([], s[1..]))
    else
      match SplitOnce(s[1..], separator)
      case None => None
      case Some((head, tail)) => Some(([s[0]] + head, tail))
  }

  function ReadArguments(args: seq<string>, d: Dict): Option<Dict>
    decreases |args|
  {
    if args == [] then Some(d)
    else
      match SplitOnce(args[0], '=')
      case None => None
      case Some((key, value)) => ReadArguments(args[1..], DictSet(d, key, value))
  }

  const VALID_KEYS: set<string> := {"sig", "skn", "sr", "se"}

  function ReadResource(uri: string): Result<Identity, SasError> {
    var segments := Split(uri, '/');
    if |segments| < 3 then Err(BadResource)
    else Ok(Identity(segments[0], segments[2], if |segments| > 4 then Some(segments[4]) else None))
  }

  function Parse(token: string): Result<Identity, SasError> {
    var parts := Split(token, ' ');
    if |parts| < 2 then Err(Malformed)
    else
      var args := Split(parts[1], '&');
      match ReadArguments(args, [])
      case None => Err(Malformed)
      case Some(d) =>
        if |parts| != 2 then Err(WrongPartCount)
        else if |args| != |d| then Err(DuplicateKey)
        else if exists pair <- d :: pair.0 !in VALID_KEYS then Err(InvalidKey)
        else if !Present(Lookup(d, "sr")) || !Present(Lookup(d, "sig")) || !Present(Lookup(d, "se")) then
          Err(MissingField)
        else ReadResource(Unquote(Lookup(d, "sr").value))
  }

  // ----- the resource -----

  predicate SlashFree(id: Identity) {
    '/' !in id.hostname && '/' !in id.device && (id.mod.Some? ==> '/' !in id.mod.value)
  }

  /** The identity can be read back from its resource if and only if no part of it holds a slash or is an empty module. */
  lemma ResourceRoundTripIff(id: Identity)
    ensures ReadResource(Resource(id)) == Ok(id) <==> SlashFree(id) && id.mod != Some("")
  {
    if SlashFree(id) {
      SplitJoin(ResourceLevels(id), '/');
    }
  }

  // ----- the arguments -----

  lemma {:induction false} SplitOnceFirst(head: string, separator: char, tail: string)
    requires separator !in head
    ensures SplitOnce(head + [separator] + tail, separator) == Some((head, tail))
  {
    var s := head + [separator] + tail;
    if head == [] {
      assert s[1..] == tail;
    } else {
      assert s[1..] == head[1..] + [separator] + tail;
      SplitOnceFirst(head[1..], separator, tail);
      assert head == [head[0]] + head[1..];
    }
  }

  lemma {:induction false} ArgumentsAreDistinct(args: seq<string>, d: Dict)
    requires DistinctKeys(d)
    ensures ReadArguments(args, d).Some? ==> DistinctKeys(ReadArguments(args, d).value)
    decreases |args|
  {
    if args != [] && SplitOnce(args[0], '=').Some? {
      var (key, value) := SplitOnce(args[0], '=').value;
      DictSetDistinct(d, key, value);
      ArgumentsAreDistinct(args[1..], DictSet(d, key, value));
    }
  }

  /** More than four arguments never make a valid token. */
  lemma TooManyArguments(token: string)
    requires |Split(token, ' ')| == 2 && |Split(Split(token, ' ')[1], '&')| > 4
    ensures Parse(token).Err?
  {
    var args := Split(Split(token, ' ')[1], '&');
    ArgumentsAreDistinct(args, []);
    var read := ReadArguments(args, []);
    if read.Some? && forall pair <- read.value :: pair.0 in VALID_KEYS {
      DistinctKeysBound(read.value, VALID_KEYS);
      assert |VALID_KEYS| == 4;
    }
  }

  lemma ReadArgument(args: seq<string>, d: Dict, key: string, value: string)
    requires args != [] && args[0] == Argument(key, value) && '=' !in key
    ensures ReadArguments(args, d) == ReadArguments(args[1..], DictSet(d, key, value))
  {
    SplitOnceFirst(key, '=', value);
  }

  function ArgumentDict(uri: string, signature: string, expiry: string, keyName: Option<string>): Dict {
    [("sr", uri), ("sig", signature), ("se", expiry)] + if Present(keyName) then [("skn", keyName.value)] else []
  }

  lemma Readable(uri: string, signature: string, expiry: string, keyName: Option<string>)
    ensures ReadArguments([Argument("sr", uri), Argument("sig", signature), Argument("se", expiry)] +
                          KeyNameArgument(keyName), []) ==
            Some(ArgumentDict(uri, signature, expiry, keyName))
  {
    var last := KeyNameArgument(keyName);
    var args := [Argument("sr", uri), Argument("sig", signature), Argument("se", expiry)] + last;
    ReadArgument(args, [], "sr", uri);
    DictSetNew([("sr", uri)], "sig", signature);
    ReadArgument(args[1..], [("sr", uri)], "sig", signature);
    DictSetNew([("sr", uri), ("sig", signature)], "se", expiry);
    ReadArgument(args[1..][1..], [("sr", uri), ("sig", signature)], "se", expiry);
    var d := [("sr", uri), ("sig", signature), ("se", expiry)];
    assert args[1..][1..][1..] == last && [("sr", uri), ("sig", signature)] + [("se", expiry)] == d;
    assert ReadArguments(args, []) == ReadArguments(last, d);
    if Present(keyName) {
      DictSetNew(d, "skn", keyName.value);
      ReadArgument(last, d, "skn", keyName.value);
      assert last[1..] == [];
    } else {
      assert d + [] == d;
    }
  }

  lemma ArgumentDictIsValid(uri: string, signature: string, expiry: string, keyName: Option<string>)
    ensures var d := ArgumentDict(uri, signature, expiry, keyName);
            (forall pair <- d :: pair.0 in VALID_KEYS) &&
            Lookup(d, "sr") == Some(uri) && Lookup(d, "sig") == Some(signature) && Lookup(d, "se") == Some(expiry)
  {
    var d := ArgumentDict(uri, signature, expiry, keyName);
    assert Lookup(d[1..], "sig") == Some(signature) && Lookup(d[1..][1..], "se") == Some(expiry);
    assert "sr" != "sig" && "sr" != "se" && "sig" != "se";
  }

  // ----- the round trip -----

  predicate Clean(text: string) {
    ' ' !in text && '&' !in text
  }

  predicate BytesIdentity(id: Identity) {
    IsBytes(Resource(id))
  }

  lemma ArgumentIsClean(key: string, value: string)
    requires Clean(key) && Clean(value)
    ensures Clean(Argument(key, value))
  {
    assert Clean("=");
  }

  lemma ArgumentsAreClean(id: Identity, signature: string, expiry: nat)
    requires Clean(signature)
    ensures forall arg <- Arguments(id, signature, expiry) :: Clean(arg)
  {
    QuoteAlphabet(Resource(id));
    Decimal.ParseToDecimal(expiry);
    assert !Decimal.IsDigit(' ') && !Decimal.IsDigit('&');
    assert Clean("sr") && Clean("sig") && Clean("se");
    ArgumentIsClean("sr", Quote(Resource(id)));
    ArgumentIsClean("sig", signature);
    ArgumentIsClean("se", Decimal.ToDecimal(expiry));
  }

  lemma KeyNameIsClean(keyName: Option<string>)
    requires Present(keyName) ==> Clean(keyName.value)
    ensures forall arg <- KeyNameArgument(keyName) :: Clean(arg)
  {
    if Present(keyName) {
      assert Clean("skn");
      ArgumentIsClean("skn", keyName.value);
    }
  }

  lemma CleanArgumentsSplit(args: seq<string>)
    requires args != [] && forall arg <- args :: Clean(arg)
    ensures Split("SharedAccessSignature" + " " + Join(args, '&'), ' ') == ["SharedAccessSignature", Join(args, '&')]
    ensures Split(Join(args, '&'), '&') == args
  {
    JoinAvoids(args, '&', ' ');
    SplitFirst("SharedAccessSignature", ' ', Join(args, '&'));
    SplitWhole(Join(args, '&'), ' ');
    SplitJoin(args, '&');
  }

  lemma ParseArguments(token: string, uri: string, signature: string, expiry: string, keyName: Option<string>)
    requires uri != "" && signature != "" && expiry != ""
    requires |Split(token, ' ')| == 2
    requires Split(Split(token, ' ')[1], '&') ==
             [Argument("sr", uri), Argument("sig", signature), Argument("se", expiry)] + KeyNameArgument(keyName)
    ensures Parse(token) == ReadResource(Unquote(uri))
  {
    Readable(uri, signature, expiry, keyName);
    ArgumentDictIsValid(uri, signature, expiry, keyName);
  }

  lemma ResourceIsNotEmpty(id: Identity)
    ensures Resource(id) != ""
  {
    assert |ResourceLevels(id)| > 1;
  }

  lemma CleanTokenParses(id: Identity, signature: string, expiry: nat, keyName: Option<string>)
    requires BytesIdentity(id) && signature != "" && Clean(signature)
    requires Present(keyName) ==> Clean(keyName.value)
    ensures Parse(Generate(id, signature, expiry, keyName)) == ReadResource(Resource(id))
  {
    var uri, se := Quote(Resource(id)), Decimal.ToDecimal(expiry);
    var first := Arguments(id, signature, expiry);
    ArgumentsAreClean(id, signature, expiry);
    KeyNameIsClean(keyName);
    CleanArgumentsSplit(first + KeyNameArgument(keyName));
    ResourceIsNotEmpty(id);
    QuoteAlphabet(Resource(id));
    UnquoteQuote(Resource(id));
    Decimal.ParseToDecimal(expiry);
    ParseArguments(Generate(id, signature, expiry, keyName), uri, signature, se, keyName);
  }

  lemma UncleanTokenFails(id: Identity, signature: string, expiry: nat, keyName: Option<string>)
    requires Clean(signature) && Present(keyName) && !Clean(keyName.value)
    ensures Parse(Generate(id, signature, expiry, keyName)).Err?
  {
    var first, last := Arguments(id, signature, expiry), Argument("skn", keyName.value);
    var text := Join(first + [last], '&');
    ArgumentsAreClean(id, signature, expiry);
    JoinAppend(first, [last], '&');
    assert text == Join(first, '&') + ['&'] + last;
    SplitFirst("SharedAccessSignature", ' ', text);
    var token := Generate(id, signature, expiry, keyName);
    if ' ' in last {
      assert ' ' in text;
    } else {
      JoinAvoids(first, '&', ' ');
      SplitWhole(text, ' ');
      TopicLevels.SplitAround(Join(first, '&'), '&', last);
      SplitJoin(first, '&');
      assert '&' in last;
      TooManyArguments(token);
    }
  }

  /**
   For a signature as the signing functions deliver it, a generated token parses to the identity it was
   generated for if and only if no part of the identity holds a slash, the module is not the empty
   text, and the key name holds neither a space nor an ampersand.
   */
  lemma TokenRoundTripIff(id: Identity, signature: string, expiry: nat, keyName: Option<string>)
    requires BytesIdentity(id) && signature != "" && Clean(signature)
    ensures Parse(Generate(id, signature, expiry, keyName)) == Ok(id) <==>
            SlashFree(id) && id.mod != Some("") && (Present(keyName) ==> Clean(keyName.value))
  {
    if Present(keyName) && !Clean(keyName.value) {
      UncleanTokenFails(id, signature, expiry, keyName);
    } else {
      CleanTokenParses(id, signature, expiry, keyName);
      ResourceRoundTripIff(id);
    }
  }
}
