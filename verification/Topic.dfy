/** Topic names and filters: '/'-separated levels, their parser, printer,
    validators and matcher (section 4.7 of MQTT 3.1.1). */
module Topic {
  import opened Types

  const SLASH: byte := 0x2F
  const PLUS: Str := [0x2B]
  const HASH: Str := [0x23]
  const MAX_TOPIC_LEN: nat := 65535

  /** A level of a registered path. */
  datatype PathPattern = Literal(text: Str) | Any | Regex(expr: Str) | AnyPath

  predicate HasWildcard(s: Str) { PLUS[0] in s || HASH[0] in s }

  // ---- split and join -----------------------------------------------------------

  function Split(s: Str): (levels: seq<Str>)
    ensures |levels| >= 1
  {
    if s == [] then [[]]
    else
      var more := Split(s[1..]);
      if s[0] == SLASH then [[]] + more else [[s[0]] + more[0]] + more[1..]
  }

  function Join(levels: seq<Str>): Str {
    if levels == [] then []
    else if |levels| == 1 then levels[0]
    else levels[0] + [SLASH] + Join(levels[1..])
  }

  ghost predicate SlashFree(levels: seq<Str>) {
    forall i :: 0 <= i < |levels| ==> SLASH !in levels[i]
  }

  lemma {:induction false} JoinSplit(s: Str)
    ensures Join(Split(s)) == s
    ensures SlashFree(Split(s))
  {
    if s != [] {
      var more := Split(s[1..]);
      JoinSplit(s[1..]);
      if s[0] == SLASH {
        assert ([[]] + more)[1..] == more;
      } else {
        var levels := [[s[0]] + more[0]] + more[1..];
        assert levels[1..] == more[1..];
        if |more| == 1 {
          assert Join(levels) == [s[0]] + more[0];
        } else {
          assert Join(levels) == [s[0]] + (more[0] + [SLASH] + Join(more[1..]));
        }
      }
    }
  }

  lemma {:induction false} SplitJoin(levels: seq<Str>)
    requires levels != [] && SlashFree(levels)
    ensures Split(Join(levels)) == levels
  {
    if |levels| == 1 {
      SplitPrepend(levels[0], []);
      assert levels[0] + [] == levels[0];
    } else {
      var rest := Join(levels[1..]);
      SplitJoin(levels[1..]);
      var tail := [SLASH] + rest;
      assert Split(tail) == [[]] + levels[1..] by {
        assert tail[1..] == rest;
      }
      SplitPrepend(levels[0], tail);
      assert levels[0] + [SLASH] + rest == levels[0] + tail;
      assert levels[0] + [] == levels[0];
      assert [levels[0]] + levels[1..] == levels;
    }
  }

  /** Text without a separator goes to the first level. */
  lemma {:induction false} SplitPrepend(text: Str, s: Str)
    requires SLASH !in text
    ensures Split(text + s) == [text + Split(s)[0]] + Split(s)[1..]
  {
    if text == [] {
      assert text + s == s;
      assert text + Split(s)[0] == Split(s)[0];
    } else {
      assert (text + s)[1..] == text[1..] + s;
      SplitPrepend(text[1..], s);
      assert [text[0]] + (text[1..] + Split(s)[0]) == text + Split(s)[0];
    }
  }

  // ---- filters ------------------------------------------------------------------

  function LevelError(level: Str, last: bool): Option<Violation> {
    if level == PLUS then None
    else if level == HASH then (if last then None else Some(HashWildcardNotTerminal))
    else if HasWildcard(level) then Some(WildcardMixedWithLiteral)
    else None
  }

  /** What makes a level bad: `#` before the last level, or a wildcard with anything
      beside it. */
  lemma LevelErrorMeaning(level: Str, last: bool)
    ensures LevelError(level, last) == Some(HashWildcardNotTerminal) <==> level == [0x23] && !last
    ensures LevelError(level, last) == Some(WildcardMixedWithLiteral) <==>
              |level| != 1 && (0x2B in level || 0x23 in level)
    ensures LevelError(level, last) in {None, Some(HashWildcardNotTerminal), Some(WildcardMixedWithLiteral)}
  {
    if |level| == 1 {
      assert level == [level[0]];
    }
  }

  /** The violation of the leftmost bad level. */
  function FirstError(levels: seq<Str>): Option<Violation> {
    if levels == [] then None
    else
      var e := LevelError(levels[0], |levels| == 1);
      if e.Some? then e else FirstError(levels[1..])
  }

  function FilterError(filter: Str): Option<Violation> {
    if filter == [] then Some(EmptyTopic)
    else if |filter| > MAX_TOPIC_LEN then Some(TopicTooLong)
    else FirstError(Split(filter))
  }

  function PatternOf(level: Str): PathPattern {
    if level == PLUS then Any else if level == HASH then AnyPath else Literal(level)
  }

  function PatternsOf(levels: seq<Str>): (ps: seq<PathPattern>)
    ensures |ps| == |levels|
    ensures forall i :: 0 <= i < |ps| ==> ps[i] == PatternOf(levels[i])
  {
    seq(|levels|, i requires 0 <= i < |levels| => PatternOf(levels[i]))
  }

  function ParsedFilter(filter: Str): Result<seq<PathPattern>> {
    match FilterError(filter)
    case Some(v) => Err(Protocol(v))
    case None => Ok(PatternsOf(Split(filter)))
  }

  method ParseSubscribeFilter(filter: Str) returns (r: Result<seq<PathPattern>>)
    ensures r == ParsedFilter(filter)
  {
    if filter == [] {
      return Err(Protocol(EmptyTopic));
    }
    if |filter| > MAX_TOPIC_LEN {
      return Err(Protocol(TopicTooLong));
    }
    var segments := Split(filter);
    var lastIdx := |segments| - 1;
    var patterns: seq<PathPattern> := [];
    for i := 0 to |segments|
      invariant patterns == PatternsOf(segments[..i])
      invariant FirstError(segments) == FirstError(segments[i..])
    {
      var seg := segments[i];
      assert segments[i..][1..] == segments[i + 1..];
      if seg == PLUS {
        patterns := patterns + [Any];
      } else if seg == HASH {
        if i != lastIdx {
          return Err(Protocol(HashWildcardNotTerminal));
        }
        patterns := patterns + [AnyPath];
      } else if HasWildcard(seg) {
        return Err(Protocol(WildcardMixedWithLiteral));
      } else {
        patterns := patterns + [Literal(seg)];
      }
    }
    assert segments[..|segments|] == segments;
    return Ok(patterns);
  }

  /** The validator's verdict is the parser's. */
  method ValidateSubscribeFilter(filter: Str) returns (r: Result<()>)
    ensures r == match FilterError(filter) case None => Ok(()) case Some(v) => Err(Protocol(v))
  {
    if filter == [] {
      return Err(Protocol(EmptyTopic));
    }
    if |filter| > MAX_TOPIC_LEN {
      return Err(Protocol(TopicTooLong));
    }
    var segments := Split(filter);
    var lastIdx := |segments| - 1;
    for i := 0 to |segments|
      invariant FirstError(segments) == FirstError(segments[i..])
    {
      assert segments[i..][1..] == segments[i + 1..];
      var seg := segments[i];
      if seg == PLUS {
      } else if seg == HASH {
        if i != lastIdx {
          return Err(Protocol(HashWildcardNotTerminal));
        }
      } else if HasWildcard(seg) {
        return Err(Protocol(WildcardMixedWithLiteral));
      }
    }
    return Ok(());
  }

  /** A level list passes exactly when each level does, and otherwise is refused
      for its leftmost bad level. */
  lemma {:induction false} FirstErrorMeaning(levels: seq<Str>)
    ensures FirstError(levels).None? <==>
              forall i :: 0 <= i < |levels| ==> LevelError(levels[i], i == |levels| - 1).None?
    ensures FirstError(levels).Some? ==>
              exists i :: 0 <= i < |levels| && FirstError(levels) == LevelError(levels[i], i == |levels| - 1)
                && forall j :: 0 <= j < i ==> LevelError(levels[j], false).None?
  {
    if levels != [] {
      var rest := levels[1..];
      FirstErrorMeaning(rest);
      assert forall i :: 0 < i < |levels| ==> levels[i] == rest[i - 1];
      if LevelError(levels[0], |levels| == 1).None? && FirstError(rest).Some? {
        var i :| 0 <= i < |rest| && FirstError(rest) == LevelError(rest[i], i == |rest| - 1)
          && forall j :: 0 <= j < i ==> LevelError(rest[j], false).None?;
        assert levels[i + 1] == rest[i];
      }
    }
  }

  // ---- printing -----------------------------------------------------------------

  function WireLevel(p: PathPattern): Str {
    match p
    case Literal(s) => s
    case Any => PLUS
    case Regex(_) => PLUS
    case AnyPath => HASH
  }

  function WireLevels(path: seq<PathPattern>): (levels: seq<Str>)
    ensures |levels| == |path|
    ensures forall i :: 0 <= i < |path| ==> levels[i] == WireLevel(path[i])
  {
    seq(|path|, i requires 0 <= i < |path| => WireLevel(path[i]))
  }

  function PathToWireFilter(path: seq<PathPattern>): Str {
    Join(WireLevels(path))
  }

  /** Printing a parsed filter gives the filter back. */
  lemma PrintParsed(filter: Str)
    requires ParsedFilter(filter).Ok?
    ensures PathToWireFilter(ParsedFilter(filter).value) == filter
  {
    JoinSplit(filter);
    assert WireLevels(PatternsOf(Split(filter))) == Split(filter);
  }

  /** The paths the wire grammar can say. */
  ghost predicate Canonical(path: seq<PathPattern>) {
    && path != []
    && (forall i :: 0 <= i < |path| ==>
          match path[i]
          case Literal(s) => SLASH !in s && !HasWildcard(s)
          case Any => true
          case Regex(_) => false
          case AnyPath => i == |path| - 1)
    && 1 <= |PathToWireFilter(path)| <= MAX_TOPIC_LEN
  }

  /** A path survives printing and parsing exactly when it is canonical. */
  lemma ParsePrinted(path: seq<PathPattern>)
    ensures ParsedFilter(PathToWireFilter(path)) == Ok(path) <==> Canonical(path)
  {
    if Canonical(path) {
      CanonicalParses(path);
    } else if ParsedFilter(PathToWireFilter(path)) == Ok(path) {
      ParsedIsCanonical(PathToWireFilter(path));
      assert false;
    }
  }

  lemma CanonicalParses(path: seq<PathPattern>)
    requires Canonical(path)
    ensures ParsedFilter(PathToWireFilter(path)) == Ok(path)
  {
    var levels := WireLevels(path);
    forall i | 0 <= i < |path|
      ensures SLASH !in levels[i] && PatternOf(levels[i]) == path[i]
      ensures LevelError(levels[i], i == |path| - 1).None?
    {
    }
    SplitJoin(levels);
    FirstErrorMeaning(levels);
    assert PatternsOf(levels) == path;
  }

  lemma ParsedIsCanonical(filter: Str)
    requires ParsedFilter(filter).Ok?
    ensures Canonical(ParsedFilter(filter).value)
  {
    JoinSplit(filter);
    FirstErrorMeaning(Split(filter));
    PrintParsed(filter);
  }

  /** A path with every regex level replaced by a plain single-level wildcard. */
  function Degraded(path: seq<PathPattern>): (r: seq<PathPattern>)
    ensures |r| == |path|
    ensures forall i :: 0 <= i < |path| ==> r[i] == if path[i].Regex? then Any else path[i]
  {
    seq(|path|, i requires 0 <= i < |path| => if path[i].Regex? then Any else path[i])
  }

  /** A regex has no wire form: it is printed, and comes back, as `+`. */
  lemma RegexDegrades(path: seq<PathPattern>)
    ensures PathToWireFilter(path) == PathToWireFilter(Degraded(path))
    ensures Canonical(Degraded(path)) ==> ParsedFilter(PathToWireFilter(path)) == Ok(Degraded(path))
  {
    assert WireLevels(path) == WireLevels(Degraded(path));
    ParsePrinted(Degraded(path));
  }

  // ---- published topics -----------------------------------------------------------

  function PublishTopicError(topic: Str): Option<Violation> {
    if topic == [] then Some(EmptyTopic)
    else if |topic| > MAX_TOPIC_LEN then Some(TopicTooLong)
    else if HasWildcard(topic) then Some(WildcardInPublishTopic)
    else None
  }

  /** A topic is refused exactly when it is empty, longer than 65535 bytes or contains
      `+` or `#` anywhere, and for the first of these that applies. */
  lemma PublishTopicRefusals(topic: Str)
    ensures PublishTopicError(topic).None? <==> 1 <= |topic| <= 65535 && 0x2B !in topic && 0x23 !in topic
    ensures topic == [] <==> PublishTopicError(topic) == Some(EmptyTopic)
    ensures |topic| > 65535 <==> PublishTopicError(topic) == Some(TopicTooLong)
    ensures 1 <= |topic| <= 65535 && (0x2B in topic || 0x23 in topic) <==>
              PublishTopicError(topic) == Some(WildcardInPublishTopic)
  {
  }

  function Literals(levels: seq<Str>): (ps: seq<PathPattern>)
    ensures |ps| == |levels|
    ensures forall i :: 0 <= i < |ps| ==> ps[i] == Literal(levels[i])
  {
    seq(|levels|, i requires 0 <= i < |levels| => Literal(levels[i]))
  }

  lemma {:induction false} SplitKeepsWildcards(s: Str)
    ensures HasWildcard(s) <==> exists i :: 0 <= i < |Split(s)| && HasWildcard(Split(s)[i])
  {
    if s != [] {
      var more := Split(s[1..]);
      SplitKeepsWildcards(s[1..]);
      assert s == [s[0]] + s[1..];
      assert HasWildcard(s) <==> HasWildcard([s[0]]) || HasWildcard(s[1..]);
      var levels := Split(s);
      if s[0] == SLASH {
        assert forall i :: 0 <= i < |more| ==> levels[i + 1] == more[i];
      } else {
        assert HasWildcard(levels[0]) <==> HasWildcard([s[0]]) || HasWildcard(more[0]);
        assert forall i :: 1 <= i < |more| ==> levels[i] == more[i];
      }
    }
  }

  /** Looking level by level finds a wildcard exactly when the topic has one. */
  method ParsePublishTopic(topic: Str) returns (r: Result<seq<PathPattern>>)
    ensures r == match PublishTopicError(topic)
                 case None => Ok(Literals(Split(topic)))
                 case Some(v) => Err(Protocol(v))
    ensures r.Ok? ==> PathToWireFilter(r.value) == topic
  {
    if topic == [] {
      return Err(Protocol(EmptyTopic));
    }
    if |topic| > MAX_TOPIC_LEN {
      return Err(Protocol(TopicTooLong));
    }
    SplitKeepsWildcards(topic);
    var segments := Split(topic);
    var patterns: seq<PathPattern> := [];
    for i := 0 to |segments|
      invariant patterns == Literals(segments[..i])
      invariant forall j :: 0 <= j < i ==> !HasWildcard(segments[j])
    {
      if HasWildcard(segments[i]) {
        return Err(Protocol(WildcardInPublishTopic));
      }
      patterns := patterns + [Literal(segments[i])];
    }
    assert segments[..|segments|] == segments;
    JoinSplit(topic);
    assert WireLevels(Literals(segments)) == segments;
    return Ok(patterns);
  }

  method ValidatePublishTopic(topic: Str) returns (r: Result<()>)
    ensures r == match PublishTopicError(topic) case None => Ok(()) case Some(v) => Err(Protocol(v))
  {
    if topic == [] {
      return Err(Protocol(EmptyTopic));
    }
    if |topic| > MAX_TOPIC_LEN {
      return Err(Protocol(TopicTooLong));
    }
    SplitKeepsWildcards(topic);
    var segments := Split(topic);
    for i := 0 to |segments|
      invariant forall j :: 0 <= j < i ==> !HasWildcard(segments[j])
    {
      if HasWildcard(segments[i]) {
        return Err(Protocol(WildcardInPublishTopic));
      }
    }
    return Ok(());
  }

  // ---- matching -------------------------------------------------------------------

  function LevelsMatch(filter: seq<Str>, topic: seq<Str>): bool {
    if filter == [] then topic == []
    else if filter[0] == HASH then true
    else topic != [] && (filter[0] == PLUS || filter[0] == topic[0]) && LevelsMatch(filter[1..], topic[1..])
  }

  method FilterMatches(filter: Str, topicSegs: seq<Str>) returns (b: bool)
    ensures b == LevelsMatch(Split(filter), topicSegs)
  {
    var filterSegs := Split(filter);
    var t, f := 0, 0;
    while f < |filterSegs|
      invariant f <= |filterSegs| && t <= |topicSegs|
      invariant LevelsMatch(filterSegs, topicSegs) == LevelsMatch(filterSegs[f..], topicSegs[t..])
    {
      assert filterSegs[f..][1..] == filterSegs[f + 1..];
      var seg := filterSegs[f];
      if seg == HASH {
        return true;
      } else if seg == PLUS {
        if t >= |topicSegs| {
          return false;
        }
        assert topicSegs[t..][1..] == topicSegs[t + 1..];
        t := t + 1;
        f := f + 1;
      } else {
        if t >= |topicSegs| || seg != topicSegs[t] {
          return false;
        }
        assert topicSegs[t..][1..] == topicSegs[t + 1..];
        t := t + 1;
        f := f + 1;
      }
    }
    return t == |topicSegs|;
  }

  predicate LevelMatches(p: PathPattern, level: Str) {
    p.Any? || p == Literal(level)
  }

  /** Section 4.7.1: every level but a closing "#" matches its own topic level;
      "#" covers any number of further levels, none included. */
  ghost predicate Matches(filter: seq<PathPattern>, topic: seq<Str>)
    requires filter != []
  {
    var n := |filter| - 1;
    if filter[n].AnyPath? then
      |topic| >= n && forall i :: 0 <= i < n ==> LevelMatches(filter[i], topic[i])
    else
      |topic| == |filter| && forall i :: 0 <= i < |filter| ==> LevelMatches(filter[i], topic[i])
  }

  /** On every valid filter and every topic the matcher computes the standard's
      relation on the parsed filter. */
  lemma MatcherMeaning(filter: Str, topic: seq<Str>)
    requires ParsedFilter(filter).Ok?
    ensures ParsedFilter(filter).value != []
    ensures LevelsMatch(Split(filter), topic) <==> Matches(ParsedFilter(filter).value, topic)
  {
    LevelsMeaning(Split(filter), topic);
  }

  lemma {:induction false} LevelsMeaning(levels: seq<Str>, topic: seq<Str>)
    requires levels != [] && FirstError(levels).None?
    ensures LevelsMatch(levels, topic) <==> Matches(PatternsOf(levels), topic)
  {
    var ps := PatternsOf(levels);
    if |levels| == 1 {
      if topic != [] {
        assert LevelsMatch([], topic[1..]) <==> |topic| == 1;
      }
    } else {
      LevelsMeaning(levels[1..], if topic == [] then [] else topic[1..]);
      var qs := PatternsOf(levels[1..]);
      assert forall i :: 0 < i < |ps| ==> ps[i] == qs[i - 1];
      if topic != [] {
        assert forall i :: 0 < i < |topic| ==> topic[i] == topic[1..][i - 1];
        assert forall i :: 0 <= i < |qs| ==> qs[i] == ps[i + 1];
      }
    }
  }

  /** Without wildcards, matching is equality of the two strings. */
  lemma LiteralFilter(filter: Str, topic: Str)
    requires !HasWildcard(filter)
    ensures LevelsMatch(Split(filter), Split(topic)) <==> filter == topic
  {
    SplitKeepsWildcards(filter);
    JoinSplit(filter);
    JoinSplit(topic);
    LiteralLevels(Split(filter), Split(topic));
  }

  lemma {:induction false} LiteralLevels(filter: seq<Str>, topic: seq<Str>)
    requires forall i :: 0 <= i < |filter| ==> !HasWildcard(filter[i])
    ensures LevelsMatch(filter, topic) <==> filter == topic
  {
    if filter != [] {
      assert !HasWildcard(filter[0]) && filter[0] != HASH && filter[0] != PLUS;
      if topic != [] {
        LiteralLevels(filter[1..], topic[1..]);
        assert filter == [filter[0]] + filter[1..] && topic == [topic[0]] + topic[1..];
      }
    }
  }
}
