/**
 The text of a shared access signature: what exactly is printed, what a reader finds under each key, and which
 texts the parser accepts.
 */
module SasText {
  import opened Options
  import opened UrlCodec
  import opened Dicts
  import opened SasToken
  import Decimal

  // ----- what is printed -----

  lemma ResourceText(id: Identity)
    ensures Resource(id) ==
            id.hostname + "/devices/" + id.device + if Present(id.mod) then "/modules/" + id.mod.value else ""
  {
    var levels := ResourceLevels(id);
    var tail := if Present(id.mod) then ["modules", id.mod.value] else [];
    assert levels == [id.hostname] + (["devices"] + ([id.device] + tail));
    assert "/devices/" == "/" + "devices" + "/";
    if Present(id.mod) {
      JoinFirst(id.hostname, ["devices"] + ([id.device] + tail));
      JoinFirst("devices", [id.device] + tail);
      JoinFirst(id.device, tail);
      JoinFirst("modules", [id.mod.value]);
      assert tail == ["modules"] + [id.mod.value] && "/modules/" == "/" + "modules" + "/";
    } else {
      JoinFirst(id.hostname, ["devices"] + [id.device]);
      JoinFirst("devices", [id.device]);
      assert [id.device] + tail == [id.device];
    }
  }

  lemma JoinFirst(first: string, rest: seq<string>)
    requires rest != []
    ensures Join([first] + rest, '/') == first + "/" + Join(rest, '/')
  {
    assert ([first] + rest)[1..] == rest;
  }

  lemma JoinArguments(first: string, rest: seq<string>)
    requires rest != []
    ensures Join([first] + rest, '&') == first + "&" + Join(rest, '&')
  {
    assert ([first] + rest)[1..] == rest;
  }

  /** The key name part of a token. */
  function KeyNameText(keyName: Option<string>): string {
    if Present(keyName) then "&skn=" + keyName.value else ""
  }

  lemma KeyNameIsLast(last: string, keyName: Option<string>)
    ensures Join([last] + KeyNameArgument(keyName), '&') == last + KeyNameText(keyName)
  {
    if Present(keyName) {
      JoinArguments(last, KeyNameArgument(keyName));
      assert last + "&" + ("skn" + "=" + keyName.value) == last + "&skn=" + keyName.value;
    } else {
      assert [last] + [] == [last];
    }
  }

  /** The two formats of the library: with a key name and without one. */
  lemma TokenText(id: Identity, signature: string, expiry: nat, keyName: Option<string>)
    ensures Generate(id, signature, expiry, keyName) ==
            "SharedAccessSignature sr=" + Quote(Resource(id)) + "&sig=" + signature +
            "&se=" + Decimal.ToDecimal(expiry) + KeyNameText(keyName)
  {
    var sr, sig := Argument("sr", Quote(Resource(id))), Argument("sig", signature);
    var se, rest := Argument("se", Decimal.ToDecimal(expiry)), KeyNameArgument(keyName);
    KeyNameIsLast(se, keyName);
    JoinArguments(sig, [se] + rest);
    JoinArguments(sr, [sig] + ([se] + rest));
    assert Arguments(id, signature, expiry) + rest == [sr] + ([sig] + ([se] + rest));
    TextsMeet(Quote(Resource(id)), signature, Decimal.ToDecimal(expiry), KeyNameText(keyName));
  }

  lemma TextsMeet(uri: string, signature: string, expiry: string, tail: string)
    ensures "SharedAccessSignature" + " " +
            (("sr" + "=" + uri) + "&" + (("sig" + "=" + signature) + "&" + (("se" + "=" + expiry) + tail))) ==
            "SharedAccessSignature sr=" + uri + "&sig=" + signature + "&se=" + expiry + tail
  {
    assert "SharedAccessSignature sr=" == "SharedAccessSignature" + " " + "sr" + "=";
    assert "&sig=" == "&" + "sig" + "=" && "&se=" == "&" + "se" + "=";
  }

  /**
   Split at the space and at the ampersands and read, a token for a clean signature and key name holds exactly
   the quoted resource, the signature, the expiry in decimal, and the key name if there is one.
   */
  lemma TokenFields(id: Identity, signature: string, expiry: nat, keyName: Option<string>)
    requires Clean(signature) && (Present(keyName) ==> Clean(keyName.value))
    ensures var parts := Split(Generate(id, signature, expiry, keyName), ' ');
            |parts| == 2 && parts[0] == "SharedAccessSignature" &&
            var read := ReadArguments(Split(parts[1], '&'), []);
            read.Some? && HoldsFields(read.value, id, signature, expiry, keyName)
  {
    var first, rest := Arguments(id, signature, expiry), KeyNameArgument(keyName);
    var uri, se := Quote(Resource(id)), Decimal.ToDecimal(expiry);
    ArgumentsAreClean(id, signature, expiry);
    KeyNameIsClean(keyName);
    CleanArgumentsSplit(first + rest);
    Readable(uri, signature, se, keyName);
    FieldsOfDict(id, signature, expiry, keyName);
  }

  predicate HoldsFields(d: Dict, id: Identity, signature: string, expiry: nat, keyName: Option<string>) {
    |d| == (if Present(keyName) then 4 else 3) &&
    Lookup(d, "sr") == Some(Quote(Resource(id))) && Lookup(d, "sig") == Some(signature) &&
    Lookup(d, "se").Some? && Decimal.Parse(Lookup(d, "se").value) == Some(expiry) &&
    Lookup(d, "skn") == if Present(keyName) then keyName else None
  }

  lemma FieldsOfDict(id: Identity, signature: string, expiry: nat, keyName: Option<string>)
    ensures HoldsFields(
              ArgumentDict(Quote(Resource(id)), signature, Decimal.ToDecimal(expiry), keyName),
              id, signature, expiry, keyName)
  {
    var d := ArgumentDict(Quote(Resource(id)), signature, Decimal.ToDecimal(expiry), keyName);
    ArgumentDictIsValid(Quote(Resource(id)), signature, Decimal.ToDecimal(expiry), keyName);
    Decimal.ParseToDecimal(expiry);
    assert "sr" != "skn" && "sig" != "skn" && "se" != "skn";
    var key := if Present(keyName) then [("skn", keyName.value)] else [];
    assert d == [d[0]] + ([d[1]] + ([d[2]] + key));
    LookupSkips(d[0], [d[1]] + ([d[2]] + key), "skn");
    LookupSkips(d[1], [d[2]] + key, "skn");
    LookupSkips(d[2], key, "skn");
  }

  lemma LookupSkips(pair: (string, string), rest: Dict, key: string)
    requires pair.0 != key
    ensures Lookup([pair] + rest, key) == Lookup(rest, key)
  {
    assert ([pair] + rest)[1..] == rest;
  }

  // ----- what the parser accepts -----

  function KeyOf(arg: string): string {
    Split(arg, '=')[0]
  }

  /** Everything behind the first equals sign. */
  function ValueOf(arg: string): string {
    Join(Split(arg, '=')[1..], '=')
  }

  lemma SplitOnceIsFirst(arg: string)
    ensures SplitOnce(arg, '=') == if '=' in arg then Some((KeyOf(arg), ValueOf(arg))) else None
  {
    var parts := Split(arg, '=');
    if '=' in arg {
      JoinSplit(arg, '=');
      assert arg == parts[0] + ['='] + Join(parts[1..], '=');
      SplitOnceFirst(parts[0], '=', ValueOf(arg));
    } else {
      SplitOnceWhole(arg);
    }
  }

  lemma {:induction false} SplitOnceWhole(arg: string)
    requires '=' !in arg
    ensures SplitOnce(arg, '=').None?
  {
    if arg != [] {
      SplitOnceWhole(arg[1..]);
    }
  }

  predicate KeysDiffer(args: seq<string>) {
    forall i, j :: 0 <= i < j < |args| ==> KeyOf(args[i]) != KeyOf(args[j])
  }

  /** The arguments read as they stand, when no key comes twice. */
  function AsDict(args: seq<string>): Dict {
    seq(|args|, i requires 0 <= i < |args| => (KeyOf(args[i]), ValueOf(args[i])))
  }

  lemma {:induction false} ReadKeepsAll(args: seq<string>, d: Dict)
    requires forall arg <- args :: '=' in arg
    requires DistinctKeys(d + AsDict(args))
    ensures ReadArguments(args, d) == Some(d + AsDict(args))
    decreases |args|
  {
    if args == [] {
      assert d + AsDict(args) == d;
    } else {
      var key, value := KeyOf(args[0]), ValueOf(args[0]);
      var all := d + AsDict(args);
      SplitOnceIsFirst(args[0]);
      assert all[|d|] == (key, value);
      assert !HasKey(d, key) by {
        forall i | 0 <= i < |d|
          ensures d[i].0 != key
        {
          assert all[i] == d[i];
        }
      }
      DictSetNew(d, key, value);
      assert d + [(key, value)] + AsDict(args[1..]) == all;
      ReadKeepsAll(args[1..], d + [(key, value)]);
    }
  }

  lemma {:induction false} DictSetSize(d: Dict, key: string, value: string)
    ensures |DictSet(d, key, value)| == if HasKey(d, key) then |d| else |d| + 1
  {
    if d != [] {
      assert d == [d[0]] + d[1..];
      DictSetSize(d[1..], key, value);
    }
  }

  lemma {:induction false} DictSetHas(d: Dict, key: string, value: string, other: string)
    ensures HasKey(DictSet(d, key, value), other) <==> other == key || HasKey(d, other)
  {
    if d != [] {
      assert d == [d[0]] + d[1..];
      DictSetHas(d[1..], key, value, other);
      assert DictSet(d, key, value) ==
             [DictSet(d, key, value)[0]] + DictSet(d, key, value)[1..];
    }
  }

  /** A key that comes twice, or is there already, leaves fewer pairs than arguments. */
  lemma {:induction false} ReadSize(args: seq<string>, d: Dict)
    requires ReadArguments(args, d).Some?
    ensures var size := |ReadArguments(args, d).value|;
            size <= |d| + |args| &&
            (size == |d| + |args| ==> KeysDiffer(args) && forall arg <- args :: !HasKey(d, KeyOf(arg)))
    decreases |args|
  {
    if args != [] {
      SplitOnceIsFirst(args[0]);
      var key, value := KeyOf(args[0]), ValueOf(args[0]);
      var e := DictSet(d, key, value);
      DictSetSize(d, key, value);
      ReadSize(args[1..], e);
      if |ReadArguments(args, d).value| == |d| + |args| {
        forall i | 1 <= i < |args|
          ensures KeyOf(args[i]) != key && !HasKey(d, KeyOf(args[i]))
        {
          assert args[i] == args[1..][i - 1];
          DictSetHas(d, key, value, KeyOf(args[i]));
        }
        forall i, j | 0 <= i < j < |args|
          ensures KeyOf(args[i]) != KeyOf(args[j])
        {
          if i > 0 { assert args[i] == args[1..][i - 1] && args[j] == args[1..][j - 1]; }
        }
      }
    }
  }

  lemma {:induction false} ReadsIff(args: seq<string>, d: Dict)
    ensures ReadArguments(args, d).Some? <==> forall arg <- args :: '=' in arg
    decreases |args|
  {
    if args != [] {
      SplitOnceIsFirst(args[0]);
      if '=' in args[0] {
        ReadsIff(args[1..], DictSet(d, KeyOf(args[0]), ValueOf(args[0])));
        assert args == [args[0]] + args[1..];
      }
    }
  }

  /** The arguments are `key=value` with different keys out of the four that are known. */
  predicate WellFormed(args: seq<string>) {
    (forall arg <- args :: '=' in arg && KeyOf(arg) in {"sr", "sig", "se", "skn"}) && KeysDiffer(args)
  }

  lemma AsDictDistinct(args: seq<string>)
    requires KeysDiffer(args)
    ensures DistinctKeys(AsDict(args))
  {
    var d := AsDict(args);
    forall i, j | 0 <= i < j < |d|
      ensures d[i].0 != d[j].0
    {
      assert KeyOf(args[i]) != KeyOf(args[j]);
    }
  }

  lemma NothingInFront(d: Dict)
    ensures [] + d == d
  {
  }

  lemma ReadsAsDict(args: seq<string>)
    requires (forall arg <- args :: '=' in arg) && KeysDiffer(args)
    ensures ReadArguments(args, []) == Some(AsDict(args)) && |AsDict(args)| == |args|
  {
    AsDictDistinct(args);
    NothingInFront(AsDict(args));
    ReadKeepsAll(args, []);
  }

  lemma WellFormedReads(args: seq<string>)
    requires WellFormed(args)
    ensures ReadArguments(args, []) == Some(AsDict(args)) && |AsDict(args)| == |args|
    ensures forall pair <- AsDict(args) :: pair.0 in VALID_KEYS
  {
    ReadsAsDict(args);
    forall i | 0 <= i < |args|
      ensures AsDict(args)[i].0 in VALID_KEYS
    {
      assert args[i] in args;
    }
  }

  lemma ReadsWellFormed(args: seq<string>)
    requires ReadArguments(args, []).Some? && |ReadArguments(args, []).value| == |args|
    requires forall pair <- ReadArguments(args, []).value :: pair.0 in VALID_KEYS
    ensures WellFormed(args)
  {
    ReadsIff(args, []);
    ReadSize(args, []);
    ReadsAsDict(args);
    forall i | 0 <= i < |args|
      ensures KeyOf(args[i]) in VALID_KEYS
    {
      assert AsDict(args)[i].0 == KeyOf(args[i]) && AsDict(args)[i] in AsDict(args);
    }
  }

  lemma WellFormedIff(args: seq<string>)
    ensures WellFormed(args) <==>
            var read := ReadArguments(args, []);
            read.Some? && |read.value| == |args| && forall pair <- read.value :: pair.0 in VALID_KEYS
  {
    if WellFormed(args) { WellFormedReads(args); }
    var read := ReadArguments(args, []);
    if read.Some? && |read.value| == |args| && forall pair <- read.value :: pair.0 in VALID_KEYS {
      ReadsWellFormed(args);
    }
  }

  predicate HasValue(d: Dict, key: string) {
    Lookup(d, key).Some? && Lookup(d, key).value != ""
  }

  /**
   The parser accepts a text if and only if it has one space, well-formed arguments behind it, a resource, a
   signature and an expiry that are not empty, and a resource of at least three segments; the identity is
   then made of the first, the third and, if there are five, the fifth segment.
   */
  lemma ParseAcceptsIff(token: string)
    ensures var parts := Split(token, ' ');
            (Parse(token).Ok? <==>
             |parts| == 2 && WellFormed(Split(parts[1], '&')) && Acceptable(AsDict(Split(parts[1], '&')))) &&
            (Parse(token).Ok? ==> Parse(token).value == IdentityIn(AsDict(Split(parts[1], '&'))))
  {
    var parts := Split(token, ' ');
    if |parts| == 2 {
      var args := Split(parts[1], '&');
      WellFormedIff(args);
      if WellFormed(args) {
        ReadsAsDict(args);
      }
    }
  }

  predicate Acceptable(d: Dict) {
    HasValue(d, "sr") && HasValue(d, "sig") && HasValue(d, "se") &&
    |Split(Unquote(Lookup(d, "sr").value), '/')| >= 3
  }

  function IdentityIn(d: Dict): Identity {
    if !Acceptable(d) then Identity("", "", None)
    else
      var segments := Split(Unquote(Lookup(d, "sr").value), '/');
      Identity(segments[0], segments[2], if |segments| > 4 then Some(segments[4]) else None)
  }
}
