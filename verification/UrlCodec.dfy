/**
 Percent-encoding as urllib does it for forms (section 2.1 of RFC 3986, with a space written `+`), and
 the string splitting that the topic and token parsers rely on.

 A text stands for its UTF-8 bytes, one character below 256 for each byte.  All separators are ASCII
 and no ASCII byte occurs inside a multi-byte UTF-8 sequence, so splitting bytes splits characters.
 */
module UrlCodec {
  import opened Options

  predicate IsBytes(s: string) {
    forall c <- s :: c as int < 256
  }

  // ----- splitting and joining -----

  /** str.split(separator): never empty, and one longer than the number of separators. */
  function Split(s: string, separator: char): (parts: seq<string>)
    ensures |parts| > 0
    ensures forall part <- parts :: separator !in part
    ensures |parts| == 1 <==> separator !in s
  {
    if s == [] then [[]]
    else
      var rest := Split(s[1..], separator);
      if s[0] == separator then [[]] + rest
      else
        var head := [s[0]] + rest[0];
        [head] + rest[1..]
  }

  function Join(parts: seq<string>, separator: char): string {
    if parts == [] then []
    else if |parts| == 1 then parts[0]
    else parts[0] + [separator] + Join(parts[1..], separator)
  }

  lemma {:induction false} SplitWhole(s: string, separator: char)
    requires separator !in s
    ensures Split(s, separator) == [s]
  {
    if s != [] {
      SplitWhole(s[1..], separator);
      assert s == [s[0]] + s[1..];
    }
  }

  lemma {:induction false} SplitFirst(head: string, separator: char, tail: string)
    requires separator !in head
    ensures Split(head + [separator] + tail, separator) == [head] + Split(tail, separator)
  {
    var s := head + [separator] + tail;
    if head == [] {
      assert s[1..] == tail;
    } else {
      assert s[1..] == head[1..] + [separator] + tail;
      SplitFirst(head[1..], separator, tail);
      assert head == [head[0]] + head[1..];
    }
  }

  lemma SplitEntry(head: string, tail: string, separator: char)
    requires separator !in head && separator !in tail
    ensures Split(head + [separator] + tail, separator) == [head, tail]
  {
    SplitFirst(head, separator, tail);
    SplitWhole(tail, separator);
  }

  /** Splitting undoes joining, for parts that do not contain the separator. */
  lemma {:induction false} SplitJoin(parts: seq<string>, separator: char)
    requires parts != [] && forall part <- parts :: separator !in part
    ensures Split(Join(parts, separator), separator) == parts
    decreases |parts|
  {
    if |parts| == 1 {
      SplitWhole(parts[0], separator);
    } else {
      SplitFirst(parts[0], separator, Join(parts[1..], separator));
      SplitJoin(parts[1..], separator);
      assert parts == [parts[0]] + parts[1..];
    }
  }

  lemma JoinGrow(c: char, parts: seq<string>, separator: char)
    requires parts != []
    ensures Join([[c] + parts[0]] + parts[1..], separator) == [c] + Join(parts, separator)
  {
    if |parts| > 1 {
      var tail := [separator] + Join(parts[1..], separator);
      assert Join(parts, separator) == parts[0] + tail;
      assert ([c] + parts[0]) + tail == [c] + (parts[0] + tail);
    }
  }

  /** Joining undoes splitting. */
  lemma {:induction false} JoinSplit(s: string, separator: char)
    ensures Join(Split(s, separator), separator) == s
  {
    if s != [] {
      var rest := Split(s[1..], separator);
      JoinSplit(s[1..], separator);
      assert s == [s[0]] + s[1..];
      if s[0] == separator {
        assert ([[]] + rest)[1..] == rest;
      } else {
        JoinGrow(s[0], rest, separator);
      }
    }
  }

  lemma SplitInjective(s: string, t: string, separator: char)
    requires Split(s, separator) == Split(t, separator)
    ensures s == t
  {
    JoinSplit(s, separator);
    JoinSplit(t, separator);
  }

  lemma {:induction false} JoinAppend(parts: seq<string>, more: seq<string>, separator: char)
    requires parts != [] && more != []
    ensures Join(parts + more, separator) == Join(parts, separator) + [separator] + Join(more, separator)
    decreases |parts|
  {
    if |parts| == 1 {
      assert (parts + more)[1..] == more;
    } else {
      assert (parts + more)[1..] == parts[1..] + more;
      JoinAppend(parts[1..], more, separator);
    }
  }

  /** Appending to a joined text extends its last part. */
  lemma {:induction false} JoinExtend(parts: seq<string>, tail: string, separator: char)
    ensures Join(parts + [""], separator) + tail == Join(parts + [tail], separator)
    decreases |parts|
  {
    if parts != [] {
      assert (parts + [""])[1..] == parts[1..] + [""] && (parts + [tail])[1..] == parts[1..] + [tail];
      JoinExtend(parts[1..], tail, separator);
    }
  }

  lemma {:induction false} JoinAvoids(parts: seq<string>, separator: char, c: char)
    requires c != separator && forall part <- parts :: c !in part
    ensures c !in Join(parts, separator)
    decreases |parts|
  {
    if |parts| > 1 {
      JoinAvoids(parts[1..], separator, c);
    }
  }

  // ----- quote_plus and unquote_plus -----

  predicate IsUnreserved(c: char) {
    'a' <= c <= 'z' || 'A' <= c <= 'Z' || '0' <= c <= '9' || c == '_' || c == '.' || c == '-' || c == '~'
  }

  function HexDigit(n: int): char
    requires 0 <= n < 16
  {
    "0123456789ABCDEF"[n]
  }

  function HexValue(c: char): int {
    if '0' <= c <= '9' then c as int - '0' as int
    else if 'A' <= c <= 'F' then c as int - 'A' as int + 10
    else if 'a' <= c <= 'f' then c as int - 'a' as int + 10
    else -1
  }

  function QuoteChar(c: char): string {
    if IsUnreserved(c) then [c]
    else if c == ' ' then "+"
    else ['%', HexDigit(c as int / 16 % 16), HexDigit(c as int % 16)]
  }

  function Quote(s: string): string {
    if s == [] then [] else QuoteChar(s[0]) + Quote(s[1..])
  }

  /** The text opens with an escape that denotes one byte. */
  predicate OpensEscape(s: string) {
    |s| >= 3 && s[0] == '%' && HexValue(s[1]) >= 0 && HexValue(s[2]) >= 0
  }

  lemma HexRange(c: char)
    ensures -1 <= HexValue(c) < 16
  {
  }

  function Unquote(s: string): string {
    if s == [] then []
    else if s[0] == '+' then [' '] + Unquote(s[1..])
    else if OpensEscape(s) then
      HexRange(s[1]); HexRange(s[2]);
      [(16 * HexValue(s[1]) + HexValue(s[2])) as char] + Unquote(s[3..])
    else [s[0]] + Unquote(s[1..])
  }

  lemma HexRoundTrip(n: int)
    requires 0 <= n < 16
    ensures HexValue(HexDigit(n)) == n
  {
  }

  lemma UnquoteQuoteChar(c: char, rest: string)
    requires c as int < 256
    ensures Unquote(QuoteChar(c) + rest) == [c] + Unquote(rest)
  {
    var n, s := c as int, QuoteChar(c) + rest;
    assert s[|QuoteChar(c)|..] == rest;
    if !IsUnreserved(c) && c != ' ' {
      HexRoundTrip(n / 16 % 16);
      HexRoundTrip(n % 16);
      assert OpensEscape(s) && 16 * HexValue(s[1]) + HexValue(s[2]) == n;
    }
  }

  /** Decoding undoes encoding. */
  lemma {:induction false} UnquoteQuote(s: string)
    requires IsBytes(s)
    ensures Unquote(Quote(s)) == s
  {
    if s != [] {
      assert s[0] in s && forall c <- s[1..] :: c in s;
      UnquoteQuoteChar(s[0], Quote(s[1..]));
      UnquoteQuote(s[1..]);
    }
  }

  /** The alphabet of encoded text: no separator of any topic or token is in it. */
  predicate IsQuoted(c: char) {
    IsUnreserved(c) || c == '+' || c == '%'
  }

  lemma QuoteCharAlphabet(c: char)
    ensures QuoteChar(c) != [] && forall d <- QuoteChar(c) :: IsQuoted(d)
    ensures '+' in QuoteChar(c) <==> c == ' '
  {
    assert forall n | 0 <= n < 16 :: IsUnreserved(HexDigit(n)) && HexDigit(n) != '+';
  }

  lemma {:induction false} QuoteAlphabet(s: string)
    ensures forall c <- Quote(s) :: IsQuoted(c)
    ensures '+' in Quote(s) <==> ' ' in s
    ensures Quote(s) == [] <==> s == []
  {
    if s != [] {
      QuoteAlphabet(s[1..]);
      QuoteCharAlphabet(s[0]);
      assert s == [s[0]] + s[1..];
    }
  }

  /** The value of a hex digit, in either case. */
  lemma HexValueIff(c: char, n: int)
    requires 0 <= n < 16
    ensures HexValue(c) == n <==> c == "0123456789ABCDEF"[n] || c == "0123456789abcdef"[n]
  {
  }

  predicate IsHexDigit(c: char, n: int)
    requires 0 <= n < 16
  {
    c == "0123456789ABCDEF"[n] || c == "0123456789abcdef"[n]
  }

  /** Any two hex digits behind a percent sign denote one byte, whoever wrote them. */
  lemma UnquoteEscape(high: char, low: char, m: int, n: int, rest: string)
    requires 0 <= m < 16 && 0 <= n < 16 && IsHexDigit(high, m) && IsHexDigit(low, n)
    ensures Unquote(['%', high, low] + rest) == [(16 * m + n) as char] + Unquote(rest)
  {
    var s := ['%', high, low] + rest;
    HexValueIff(high, m);
    HexValueIff(low, n);
    assert OpensEscape(s) && s[3..] == rest;
  }

  /** A plus sign denotes a space, and every other character that opens no escape denotes itself. */
  lemma UnquoteOthers(c: char, rest: string)
    requires c != '%'
    ensures Unquote([c] + rest) == [if c == '+' then ' ' else c] + Unquote(rest)
  {
    assert ([c] + rest)[1..] == rest;
  }

  lemma UpperIff(c: char)
    ensures 'A' <= c <= 'Z' <==> c in "ABCDEFGHIJKLMNOPQRSTUVWXYZ"
  {
    var text := "ABCDEFGHIJKLMNOPQRSTUVWXYZ";
    if 'A' <= c <= 'Z' { assert text[c as int - 'A' as int] == c; }
  }

  lemma LowerIff(c: char)
    ensures 'a' <= c <= 'z' <==> c in "abcdefghijklmnopqrstuvwxyz"
  {
    var text := "abcdefghijklmnopqrstuvwxyz";
    if 'a' <= c <= 'z' { assert text[c as int - 'a' as int] == c; }
  }

  lemma DigitIff(c: char)
    ensures '0' <= c <= '9' <==> c in "0123456789"
  {
    var text := "0123456789";
    if '0' <= c <= '9' { assert text[c as int - '0' as int] == c; }
  }

  /** The characters that quoting keeps. */
  lemma UnreservedIff(c: char)
    ensures IsUnreserved(c) <==>
            c in "ABCDEFGHIJKLMNOPQRSTUVWXYZ" || c in "abcdefghijklmnopqrstuvwxyz" || c in "0123456789" || c in "_.-~"
  {
    UpperIff(c);
    LowerIff(c);
    DigitIff(c);
  }

  /** Quoting writes a space as `+`, keeps unreserved characters, and writes all others with capital hex digits. */
  lemma QuoteWrites(c: char, s: string)
    requires c as int < 256
    ensures Quote([c] + s) ==
            (if c == ' ' then "+"
             else if IsUnreserved(c) then [c]
             else ['%', "0123456789ABCDEF"[c as int / 16], "0123456789ABCDEF"[c as int % 16]]) + Quote(s)
  {
    assert ([c] + s)[1..] == s && c as int / 16 % 16 == c as int / 16;
  }

  // ----- urlencode -----

  type Pairs = seq<(string, string)>

  function EncodePair(pair: (string, string)): string {
    Quote(pair.0) + "=" + Quote(pair.1)
  }

  function Entries(pairs: Pairs): seq<string> {
    seq(|pairs|, i requires 0 <= i < |pairs| => EncodePair(pairs[i]))
  }

  function UrlEncode(pairs: Pairs): string {
    Join(Entries(pairs), '&')
  }

  lemma PairAlphabet(pair: (string, string))
    ensures forall c <- EncodePair(pair) :: IsQuoted(c) || c == '='
    ensures '+' in EncodePair(pair) <==> ' ' in pair.0 || ' ' in pair.1
    ensures EncodePair(pair) != [] && '=' in EncodePair(pair)
  {
    QuoteAlphabet(pair.0);
    QuoteAlphabet(pair.1);
    assert EncodePair(pair)[|Quote(pair.0)|] == '=';
  }

  lemma PairSplits(pair: (string, string))
    ensures Split(EncodePair(pair), '=') == [Quote(pair.0), Quote(pair.1)]
  {
    QuoteAlphabet(pair.0);
    QuoteAlphabet(pair.1);
    SplitEntry(Quote(pair.0), Quote(pair.1), '=');
  }

  predicate HasSpace(pairs: Pairs) {
    exists pair <- pairs :: ' ' in pair.0 || ' ' in pair.1
  }

  lemma {:induction false} UrlEncodeAlphabet(pairs: Pairs)
    ensures forall c <- UrlEncode(pairs) :: IsQuoted(c) || c == '=' || c == '&'
    ensures '+' in UrlEncode(pairs) <==> HasSpace(pairs)
    ensures pairs != [] ==> '=' in UrlEncode(pairs)
    decreases |pairs|
  {
    if pairs != [] {
      PairAlphabet(pairs[0]);
      UrlEncodeAlphabet(pairs[1..]);
      assert Entries(pairs)[1..] == Entries(pairs[1..]);
    }
  }

  lemma EntryHasNoAmpersand(pair: (string, string))
    ensures '&' !in EncodePair(pair)
  {
    PairAlphabet(pair);
  }

  /** The entries of an encoded list can be read off again. */
  lemma UrlEncodeSplits(pairs: Pairs)
    requires pairs != []
    ensures Split(UrlEncode(pairs), '&') == Entries(pairs)
  {
    forall i | 0 <= i < |pairs|
      ensures '&' !in Entries(pairs)[i]
    {
      EntryHasNoAmpersand(pairs[i]);
    }
    SplitJoin(Entries(pairs), '&');
  }

  lemma UrlEncodeAppend(pairs: Pairs, more: Pairs)
    requires pairs != [] && more != []
    ensures UrlEncode(pairs + more) == UrlEncode(pairs) + "&" + UrlEncode(more)
  {
    assert Entries(pairs + more) == Entries(pairs) + Entries(more);
    JoinAppend(Entries(pairs), Entries(more), '&');
  }
}
