/**
 Substring tests on topics.  The library classifies a topic by asking whether some text with slashes in
 it occurs anywhere inside; these lemmas say exactly which lists of levels pass such a test.
 */
module TopicLevels {
  import opened UrlCodec

  predicate StartsWith(s: string, t: string) {
    |t| <= |s| && s[..|t|] == t
  }

  predicate EndsWith(s: string, t: string) {
    |t| <= |s| && s[|s| - |t|..] == t
  }

  /** `t in s` */
  predicate Contains(s: string, t: string) {
    exists i | 0 <= i <= |s| :: StartsWith(s[i..], t)
  }

  predicate AreLevels(levels: seq<string>) {
    levels != [] && forall level <- levels :: '/' !in level
  }

  function Topic(levels: seq<string>): string {
    Join(levels, '/')
  }

  function Last(parts: seq<string>): string
    requires parts != []
  {
    parts[|parts| - 1]
  }

  function Init(parts: seq<string>): seq<string>
    requires parts != []
  {
    parts[..|parts| - 1]
  }

  /** Where two texts meet, the last part of the one and the first part of the other grow together. */
  function Glue(parts: seq<string>, more: seq<string>): seq<string>
    requires parts != [] && more != []
  {
    Init(parts) + [Last(parts) + more[0]] + more[1..]
  }

  lemma GluePrepend(part: string, parts: seq<string>, more: seq<string>)
    requires parts != [] && more != []
    ensures Glue([part] + parts, more) == [part] + Glue(parts, more)
  {
  }

  lemma GlueGrow(c: char, parts: seq<string>, more: seq<string>)
    requires parts != [] && more != []
    ensures var glued := Glue(parts, more);
            Glue([[c] + parts[0]] + parts[1..], more) == [[c] + glued[0]] + glued[1..]
  {
    if |parts| == 1 {
      assert ([c] + parts[0]) + more[0] == [c] + (parts[0] + more[0]);
    }
  }

  lemma GlueEmpty(parts: seq<string>)
    requires parts != []
    ensures Glue([[]], parts) == parts
  {
    assert [] + parts[0] == parts[0];
  }

  lemma {:induction false} SplitConcat(s: string, t: string, separator: char)
    ensures Split(s + t, separator) == Glue(Split(s, separator), Split(t, separator))
  {
    var right := Split(t, separator);
    if s == [] {
      assert s + t == t;
      GlueEmpty(right);
    } else {
      var rest := Split(s[1..], separator);
      SplitConcat(s[1..], t, separator);
      assert (s + t)[0] == s[0] && (s + t)[1..] == s[1..] + t;
      GluePrepend([], rest, right);
      GlueGrow(s[0], rest, right);
    }
  }

  lemma SplitSeparator(t: string, separator: char)
    ensures Split([separator] + t, separator) == [[]] + Split(t, separator)
  {
    assert ([separator] + t)[1..] == t;
  }

  lemma GlueEmptyFirst(left: seq<string>, right: seq<string>)
    requires left != []
    ensures Glue(left, [[]] + right) == left + right
  {
    assert Last(left) + [] == Last(left) && Init(left) + [Last(left)] == left;
    assert ([[]] + right)[1..] == right;
  }

  lemma SplitAround(s: string, separator: char, t: string)
    ensures Split(s + [separator] + t, separator) == Split(s, separator) + Split(t, separator)
  {
    SplitSeparator(t, separator);
    SplitConcat(s, [separator] + t, separator);
    assert s + [separator] + t == s + ([separator] + t);
    GlueEmptyFirst(Split(s, separator), Split(t, separator));
  }

  /** `pattern` occurs in `levels` at level i, its first level as a suffix and its last as a prefix. */
  predicate MatchesAt(levels: seq<string>, pattern: seq<string>, i: nat)
    requires |pattern| >= 2
  {
    var k := |pattern| - 1;
    i + k < |levels| &&
    EndsWith(levels[i], pattern[0]) && StartsWith(levels[i + k], pattern[k]) &&
    levels[i + 1..i + k] == pattern[1..k]
  }

  predicate Matches(levels: seq<string>, pattern: seq<string>)
    requires |pattern| >= 2
  {
    exists i: nat | i < |levels| :: MatchesAt(levels, pattern, i)
  }

  lemma GluedMatches(left: seq<string>, pattern: seq<string>, right: seq<string>)
    requires left != [] && |pattern| >= 2 && right != []
    ensures MatchesAt(Glue(left, Glue(pattern, right)), pattern, |left| - 1)
  {
    var k := |pattern| - 1;
    var middle := Glue(pattern, right);
    assert middle == Init(pattern) + [Last(pattern) + right[0]] + right[1..];
    assert middle[0] == pattern[0] && middle[k] == pattern[k] + right[0];
    var levels := Glue(left, middle);
    assert levels[|left| - 1] == Last(left) + pattern[0];
    assert levels[|left| - 1 + k] == middle[k];
    assert levels[|left|..|left| - 1 + k] == middle[1..k] == pattern[1..k];
  }

  lemma MatchIsGlue(levels: seq<string>, pattern: seq<string>, i: nat)
    returns (left: seq<string>, right: seq<string>)
    requires AreLevels(levels) && AreLevels(pattern) && |pattern| >= 2 && MatchesAt(levels, pattern, i)
    ensures AreLevels(left) && AreLevels(right) && Glue(left, Glue(pattern, right)) == levels
  {
    var k := |pattern| - 1;
    var first, last := levels[i], levels[i + k];
    left := levels[..i] + [first[..|first| - |pattern[0]|]];
    right := [last[|pattern[k]|..]] + levels[i + k + 1..];
    assert first == Last(left) + pattern[0] && last == pattern[k] + right[0];
    assert '/' !in first && '/' !in last;
    var middle := Glue(pattern, right);
    assert middle == [pattern[0]] + pattern[1..k] + [last] + levels[i + k + 1..];
    assert middle[1..] == pattern[1..k] + [last] + levels[i + k + 1..];
    assert levels == levels[..i] + [first] + levels[i + 1..i + k] + [last] + levels[i + k + 1..];
  }

  lemma SplitAroundPattern(a: string, t: string, b: string)
    ensures Split(a + (t + b), '/') == Glue(Split(a, '/'), Glue(Split(t, '/'), Split(b, '/')))
  {
    SplitConcat(t, b, '/');
    SplitConcat(a, t + b, '/');
  }

  lemma OccurrenceMatches(levels: seq<string>, pattern: seq<string>, a: string, b: string)
    requires AreLevels(levels) && AreLevels(pattern) && |pattern| >= 2
    requires Topic(levels) == a + (Topic(pattern) + b)
    ensures Matches(levels, pattern)
  {
    SplitJoin(levels, '/');
    SplitJoin(pattern, '/');
    SplitAroundPattern(a, Topic(pattern), b);
    GluedMatches(Split(a, '/'), pattern, Split(b, '/'));
    assert MatchesAt(levels, pattern, |Split(a, '/')| - 1);
  }

  lemma MatchOccurs(levels: seq<string>, pattern: seq<string>, i: nat) returns (a: string, b: string)
    requires AreLevels(levels) && AreLevels(pattern) && |pattern| >= 2 && MatchesAt(levels, pattern, i)
    ensures Topic(levels) == a + (Topic(pattern) + b)
  {
    var left, right := MatchIsGlue(levels, pattern, i);
    a, b := Topic(left), Topic(right);
    SplitJoin(left, '/');
    SplitJoin(right, '/');
    SplitJoin(pattern, '/');
    SplitJoin(levels, '/');
    SplitAroundPattern(a, Topic(pattern), b);
    SplitInjective(Topic(levels), a + (Topic(pattern) + b), '/');
  }

  lemma OccursAt(s: string, t: string, a: string, b: string)
    requires s == a + (t + b)
    ensures Contains(s, t)
  {
    assert s[|a|..] == t + b;
    assert StartsWith(s[|a|..], t);
  }

  /** The substring test on topics is a test on their levels. */
  lemma ContainsIffMatches(levels: seq<string>, pattern: seq<string>)
    requires AreLevels(levels) && AreLevels(pattern) && |pattern| >= 2
    ensures Contains(Topic(levels), Topic(pattern)) <==> Matches(levels, pattern)
  {
    var s, t := Topic(levels), Topic(pattern);
    if Contains(s, t) {
      var i :| 0 <= i <= |s| && StartsWith(s[i..], t);
      assert s == s[..i] + (t + s[i + |t|..]);
      OccurrenceMatches(levels, pattern, s[..i], s[i + |t|..]);
    }
    if Matches(levels, pattern) {
      var i: nat :| i < |levels| && MatchesAt(levels, pattern, i);
      var a, b := MatchOccurs(levels, pattern, i);
      OccursAt(s, t, a, b);
    }
  }

  /** `levels` begins with `pattern`, whose last level may be cut short. */
  predicate Begins(levels: seq<string>, pattern: seq<string>)
    requires pattern != []
  {
    |pattern| <= |levels| && levels[..|pattern| - 1] == Init(pattern) &&
    StartsWith(levels[|pattern| - 1], Last(pattern))
  }

  lemma BeginsIsGlue(levels: seq<string>, pattern: seq<string>) returns (right: seq<string>)
    requires AreLevels(levels) && AreLevels(pattern) && Begins(levels, pattern)
    ensures AreLevels(right) && Glue(pattern, right) == levels
  {
    var k := |pattern| - 1;
    right := [levels[k][|Last(pattern)|..]] + levels[k + 1..];
    assert '/' !in levels[k] && levels[k] == Last(pattern) + right[0];
    assert levels == levels[..k] + [levels[k]] + levels[k + 1..];
  }

  /** The prefix test on topics is a test on their levels. */
  lemma StartsWithIffBegins(levels: seq<string>, pattern: seq<string>)
    requires AreLevels(levels) && AreLevels(pattern)
    ensures StartsWith(Topic(levels), Topic(pattern)) <==> Begins(levels, pattern)
  {
    var s, t := Topic(levels), Topic(pattern);
    SplitJoin(levels, '/');
    SplitJoin(pattern, '/');
    if StartsWith(s, t) {
      var b := s[|t|..];
      assert s == t + b;
      SplitConcat(t, b, '/');
      GlueBegins(pattern, Split(b, '/'));
    }
    if Begins(levels, pattern) {
      var right := BeginsIsGlue(levels, pattern);
      SplitJoin(right, '/');
      SplitConcat(t, Topic(right), '/');
      SplitInjective(s, t + Topic(right), '/');
    }
  }

  lemma GlueBegins(pattern: seq<string>, right: seq<string>)
    requires pattern != [] && right != []
    ensures Begins(Glue(pattern, right), pattern)
  {
  }
}
