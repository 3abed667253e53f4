/**
 The topic scan of lib/utils.js against the grammar of section 4.7.1 of MQTT 3.1.1.

 The grammar is level-wise: a filter is split on '/', "+" and "#" must fill a whole
 level, and a "#" level must be the last one. The program never splits; it looks at
 single characters and at their neighbours.
 */
module TopicScan {

  // ---------- The reference grammar ----------

  /** The levels of a topic: what splitting it on '/' gives. */
  function Split(topic: string): (levels: seq<string>)
    ensures levels != []
  {
    if topic == "" then
      [""]
    else if topic[0] == '/' then
      [""] + Split(topic[1..])
    else
      var rest := Split(topic[1..]);
      [[topic[0]] + rest[0]] + rest[1..]
  }

  predicate ValidLevel(level: string, last: bool) {
    && ('+' in level ==> level == "+")
    && ('#' in level ==> level == "#" && last)
  }

  predicate ValidLevels(levels: seq<string>) {
    forall i | 0 <= i < |levels| :: ValidLevel(levels[i], i == |levels| - 1)
  }

  predicate ValidFilter(topic: string) {
    topic != "" && ValidLevels(Split(topic))
  }

  // ---------- The scan ----------

  datatype ScanError = EmptyTopic | TooManyLevels | BadHash | BadPlus

  datatype Verdict = Accepted | Rejected(error: ScanError)

  /** What the program asks of the character at one position. */
  predicate PositionPasses(topic: string, i: nat)
    requires i < |topic|
  {
    var end := |topic| - 1;
    match topic[i]
    case '#' => i == end && (end - 1 > 0 ==> topic[end - 1] == '/')
    case '+' => (i < end - 1 ==> topic[i + 1] == '/') && (i > 1 ==> topic[i - 1] == '/')
    case _ => true
  }

  predicate ScanPasses(topic: string) {
    forall i | 0 <= i < |topic| :: PositionPasses(topic, i)
  }

  /** The wildcards that the bounds of the neighbour tests let through unchecked:
      one at index 1 whose left neighbour is not '/', or a "+" just before the last
      character when that character is not '/'. */
  predicate UncheckedWildcard(topic: string) {
    && |topic| >= 2
    && (|| ((topic[1] == '+' || topic[1] == '#') && topic[0] != '/')
        || (topic[|topic| - 2] == '+' && topic[|topic| - 1] != '/'))
  }

  // ---------- From levels to positions ----------

  /** What the grammar asks of one position; atStart says whether position 0 opens a level. */
  predicate GrammarAt(topic: string, i: nat, atStart: bool)
    requires i < |topic|
  {
    var opens := if i == 0 then atStart else topic[i - 1] == '/';
    match topic[i]
    case '+' => opens && (i + 1 < |topic| ==> topic[i + 1] == '/')
    case '#' => opens && i + 1 == |topic|
    case _ => true
  }

  predicate GrammarEverywhere(topic: string, atStart: bool) {
    forall i | 0 <= i < |topic| :: GrammarAt(topic, i, atStart)
  }

  /** ValidLevels for a suffix of a filter: when the suffix starts inside a level,
      the rest of that level may hold no wildcard. */
  predicate ValidSuffixLevels(levels: seq<string>, atStart: bool)
    requires levels != []
  {
    && (if atStart then ValidLevel(levels[0], |levels| == 1) else '+' !in levels[0] && '#' !in levels[0])
    && ValidLevels(levels[1..])
  }

  lemma GrammarTail(topic: string, atStart: bool)
    requires topic != ""
    ensures GrammarEverywhere(topic, atStart)
       <==> GrammarAt(topic, 0, atStart) && GrammarEverywhere(topic[1..], topic[0] == '/')
  {
    forall i | 1 <= i < |topic|
      ensures GrammarAt(topic, i, atStart) == GrammarAt(topic[1..], i - 1, topic[0] == '/')
    {}
    if GrammarAt(topic, 0, atStart) && GrammarEverywhere(topic[1..], topic[0] == '/') {
      forall i | 0 <= i < |topic| ensures GrammarAt(topic, i, atStart) {
        if i > 0 {
          assert GrammarAt(topic[1..], i - 1, topic[0] == '/');
        }
      }
    }
    if GrammarEverywhere(topic, atStart) {
      var tail, opens := topic[1..], topic[0] == '/';
      forall i | 0 <= i < |tail| ensures GrammarAt(tail, i, opens) {
        assert GrammarAt(topic, i + 1, atStart);
      }
    }
  }

  lemma ValidLevelsSplitFirst(levels: seq<string>)
    requires levels != []
    ensures ValidLevels(levels) <==> ValidSuffixLevels(levels, true)
  {
    if ValidLevels(levels) {
      forall i | 0 <= i < |levels[1..]| ensures ValidLevel(levels[1..][i], i == |levels[1..]| - 1) {
        assert ValidLevel(levels[i + 1], i + 1 == |levels| - 1);
      }
    }
    if ValidSuffixLevels(levels, true) {
      forall i | 0 <= i < |levels| ensures ValidLevel(levels[i], i == |levels| - 1) {
        if i > 0 {
          assert ValidLevel(levels[1..][i - 1], i - 1 == |levels[1..]| - 1);
        }
      }
    }
  }

  lemma {:induction false} LevelsArePositions(topic: string, atStart: bool)
    ensures ValidSuffixLevels(Split(topic), atStart) <==> GrammarEverywhere(topic, atStart)
  {
    if topic == "" {
    } else {
      var rest := Split(topic[1..]);
      GrammarTail(topic, atStart);
      LevelsArePositions(topic[1..], topic[0] == '/');
      if topic[0] == '/' {
        assert Split(topic)[1..] == rest;
        ValidLevelsSplitFirst(rest);
      } else {
        var first := [topic[0]] + rest[0];
        assert Split(topic)[0] == first && Split(topic)[1..] == rest[1..];
        FirstLevelEmpty(topic[1..]);
        assert forall c :: c in first <==> c == topic[0] || c in rest[0];
        assert first == "+" || first == "#" ==> rest[0] == "" && first[0] == topic[0];
        if rest[0] == "" { assert first == [topic[0]]; }
      }
    }
  }

  lemma FirstLevelEmpty(topic: string)
    ensures Split(topic)[0] == "" <==> topic == "" || topic[0] == '/'
    ensures Split(topic) == [""] <==> topic == ""
  {}

  /** The level-wise grammar, read off single positions. */
  lemma ValidFilterByPosition(topic: string)
    ensures ValidFilter(topic) <==> topic != "" && GrammarEverywhere(topic, true)
  {
    ValidLevelsSplitFirst(Split(topic));
    LevelsArePositions(topic, true);
  }

  // ---------- The scan against the grammar ----------

  /** Exactly how far the scan is from the standard: it passes every valid filter, and
      what it passes is valid unless a wildcard sits where the scan does not look. */
  lemma ScanAgainstGrammar(topic: string)
    requires topic != ""
    ensures ValidFilter(topic) <==> ScanPasses(topic) && !UncheckedWildcard(topic)
  {
    ValidFilterByPosition(topic);
    if GrammarEverywhere(topic, true) {
      forall i | 0 <= i < |topic| ensures PositionPasses(topic, i) {
        assert GrammarAt(topic, i, true);
      }
      if |topic| >= 2 {
        assert GrammarAt(topic, 1, true) && GrammarAt(topic, |topic| - 2, true);
      }
    }
    if ScanPasses(topic) && !UncheckedWildcard(topic) {
      forall i | 0 <= i < |topic| ensures GrammarAt(topic, i, true) {
        assert PositionPasses(topic, i);
      }
    }
  }

  /** The gap is real: "a#" and "+a" pass the scan and are not valid filters. */
  lemma ScanAcceptsInvalidFilters()
    ensures ScanPasses("a#") && !ValidFilter("a#")
    ensures ScanPasses("+a") && !ValidFilter("+a")
  {
    ScanAgainstGrammar("a#");
    ScanAgainstGrammar("+a");
  }

  // ---------- The program's loops ----------

  lemma {:induction false} SplitAppend(topic: string, c: char)
    ensures |Split(topic + [c])| == |Split(topic)| + if c == '/' then 1 else 0
  {
    if topic == "" {
      assert topic + [c] == [c];
      assert [c][1..] == "";
    } else {
      assert (topic + [c])[1..] == topic[1..] + [c];
      SplitAppend(topic[1..], c);
    }
  }

  method TopicLevelCount(topic: string) returns (levels: nat)
    ensures levels == |Split(topic)|
  {
    levels := 1;
    var i := 0;
    while i < |topic|
      invariant 0 <= i <= |topic|
      invariant levels == |Split(topic[..i])|
    {
      SplitAppend(topic[..i], topic[i]);
      assert topic[..i + 1] == topic[..i] + [topic[i]];
      if topic[i] == '/' {
        levels := levels + 1;
      }
      i := i + 1;
    }
    assert topic[..i] == topic;
  }

  /** maxTopicLevels == 0 stands for an absent limit. On a rejection by the scan the
      error names the first character that fails. */
  method ValidateTopic(topic: string, maxTopicLevels: nat) returns (verdict: Verdict)
    ensures verdict == Accepted
       <==> topic != "" && (maxTopicLevels == 0 || |Split(topic)| <= maxTopicLevels) && ScanPasses(topic)
    ensures topic != "" && (maxTopicLevels == 0 || |Split(topic)| <= maxTopicLevels) ==>
              (ValidFilter(topic) <==> verdict == Accepted && !UncheckedWildcard(topic))
    ensures verdict == Rejected(EmptyTopic) <==> topic == ""
    ensures verdict == Rejected(TooManyLevels)
       <==> topic != "" && maxTopicLevels != 0 && |Split(topic)| > maxTopicLevels
    ensures verdict == Rejected(BadHash) || verdict == Rejected(BadPlus) ==>
              exists i | 0 <= i < |topic| ::
                && !PositionPasses(topic, i)
                && (forall j | 0 <= j < i :: PositionPasses(topic, j))
                && (topic[i] == '#' <==> verdict == Rejected(BadHash))
  {
    if |topic| == 0 {
      return Rejected(EmptyTopic);
    }
    ScanAgainstGrammar(topic);
    if maxTopicLevels != 0 {
      var count := TopicLevelCount(topic);
      if count > maxTopicLevels {
        return Rejected(TooManyLevels);
      }
    }
    var end := |topic| - 1;
    var endMinus := end - 1;
    var slashInPreEnd := endMinus > 0 && topic[endMinus] != '/';
    var i := 0;
    while i < |topic|
      invariant 0 <= i <= |topic|
      invariant forall j | 0 <= j < i :: PositionPasses(topic, j)
    {
      if topic[i] == '#' {
        var notAtTheEnd := i != end;
        if notAtTheEnd || slashInPreEnd {
          assert !PositionPasses(topic, i);
          return Rejected(BadHash);
        }
      } else if topic[i] == '+' {
        var pastChar := i < end - 1 && topic[i + 1] != '/';
        var preChar := i > 1 && topic[i - 1] != '/';
        if pastChar || preChar {
          assert !PositionPasses(topic, i);
          return Rejected(BadPlus);
        }
      }
      i := i + 1;
    }
    verdict := Accepted;
  }
}
