/** Limits and text budgets of the context manager. */
module ContextConfig {
  import opened Text
  import opened Messages
  import opened ContextLayers
  import opened Pairing

  datatype Config = Config(
    maxInputTokens: int,
    targetRatio: real,
    compactionThreshold: real,
    hardLimitRatio: real,
    outputReserveRatio: real,
    toolOutputRatio: real,
    maxToolOutputChars: int,
    microcompactThresholdChars: int,
    microcompactMaxChars: int,
    recentMessageGroups: int)
  {
    predicate Valid() {
      && 0.0 < targetRatio < 1.0
      && 0.0 < compactionThreshold <= hardLimitRatio <= 1.0
      && 0.0 <= outputReserveRatio < 1.0
      && 0.0 < toolOutputRatio < 1.0
      && 0 <= maxToolOutputChars
      && 0 < microcompactMaxChars <= microcompactThresholdChars
      && 0 < recentMessageGroups
    }

    function WithDefaults(): (r: Config)
      ensures r.Valid()
    {
      var hard := if hardLimitRatio <= 0.0 || hardLimitRatio > 1.0 then 0.90 else hardLimitRatio;
      var threshold := OpenRatio(compactionThreshold, 0.80);
      var microThreshold := if microcompactThresholdChars <= 0 then 8192 else microcompactThresholdChars;
      var microMax := if microcompactMaxChars <= 0 then 4096 else microcompactMaxChars;
      Config(
        maxInputTokens,
        OpenRatio(targetRatio, 0.70),
        if threshold > hard then hard else threshold,
        hard,
        if outputReserveRatio < 0.0 || outputReserveRatio >= 1.0 then 0.15 else outputReserveRatio,
        OpenRatio(toolOutputRatio, 0.10),
        if maxToolOutputChars < 0 then 0 else maxToolOutputChars,
        microThreshold,
        if microMax > microThreshold then microThreshold else microMax,
        if recentMessageGroups <= 0 then 2 else recentMessageGroups)
    }

    /** effectiveRatioLimit: the greatest count within the ratio's share of the capacity and within what the output reserve leaves. */
    function RatioLimit(ratio: real): (limit: int)
      requires Valid() && ratio > 0.0
      ensures limit >= 0 && (maxInputTokens <= 0 ==> limit == 0)
      ensures maxInputTokens > 0 ==> Greatest(limit, Share(maxInputTokens, ratio), Share(maxInputTokens, 1.0 - outputReserveRatio))
    {
      if maxInputTokens <= 0 then 0
      else
        var usable := 1.0 - outputReserveRatio;
        GreatestWithin(maxInputTokens, ratio, usable);
        var r := if ratio > usable then usable else ratio;
        Share(maxInputTokens, r).Floor
    }

    function TargetLimit(): int requires Valid() { RatioLimit(targetRatio) }

    function CompactionLimit(): int requires Valid() { RatioLimit(compactionThreshold) }

    function HardLimit(): int requires Valid() { RatioLimit(hardLimitRatio) }

    /** toolOutputLimitChars */
    function ToolOutputChars(): (chars: int)
      ensures chars > 0
    {
      if maxToolOutputChars > 0 then maxToolOutputChars
      else if maxInputTokens > 0 && (maxInputTokens as real * toolOutputRatio * 4.0).Floor > 0 then
        (maxInputTokens as real * toolOutputRatio * 4.0).Floor
      else 64 * 1024
    }
  }

  function OpenRatio(ratio: real, fallback: real): (r: real)
    requires 0.0 < fallback < 1.0
    ensures 0.0 < r < 1.0
  {
    if ratio <= 0.0 || ratio >= 1.0 then fallback else ratio
  }

  function Share(capacity: int, ratio: real): real {
    capacity as real * ratio
  }

  lemma ShareIsPositive(capacity: int, r: real)
    requires capacity > 0 && r > 0.0
    ensures Share(capacity, r) >= 0.0
  {
  }

  lemma ShareMonotone(capacity: int, r: real, s: real)
    requires capacity > 0 && r <= s
    ensures Share(capacity, r) <= Share(capacity, s)
  {
    assert capacity as real * (s - r) >= 0.0;
  }

  /** The greatest whole number within both bounds. */
  predicate Greatest(n: int, a: real, b: real) {
    n as real <= a && n as real <= b && !((n + 1) as real <= a && (n + 1) as real <= b)
  }

  lemma GreatestWithin(capacity: int, ratio: real, usable: real)
    requires capacity > 0 && ratio > 0.0 && usable > 0.0
    ensures var limit := Share(capacity, if ratio > usable then usable else ratio).Floor;
            limit >= 0 && Greatest(limit, Share(capacity, ratio), Share(capacity, usable))
  {
    hide Share;
    var r := if ratio > usable then usable else ratio;
    ShareIsPositive(capacity, r);
    ShareMonotone(capacity, r, ratio);
    ShareMonotone(capacity, r, usable);
  }

  /** Compaction starts no later than the hard limit is reached. */
  lemma CompactionBeforeHardLimit(config: Config)
    requires config.Valid()
    ensures config.CompactionLimit() <= config.HardLimit()
  {
    hide Share;
    if config.maxInputTokens > 0 { ShareMonotone(config.maxInputTokens, config.compactionThreshold, config.hardLimitRatio); }
  }

  // Microcompaction of one tool result.

  function Lines(s: string): (lines: seq<string>)
    ensures lines != []
  {
    if s == "" then [""]
    else if s[0] == '\n' then [""] + Lines(s[1..])
    else var rest := Lines(s[1..]); [[s[0]] + rest[0]] + rest[1..]
  }

  function JoinLines(lines: seq<string>): string {
    if lines == [] then "" else if |lines| == 1 then lines[0] else lines[0] + "\n" + JoinLines(lines[1..])
  }

  /** microcompactToolContent */
  function MicroText(toolName: string, content: string, config: Config): (r: string)
    requires config.Valid()
    ensures |content| <= config.microcompactThresholdChars ==> r == content
    ensures |content| > config.microcompactThresholdChars ==> |r| <= config.microcompactMaxChars
  {
    if |content| <= config.microcompactThresholdChars then content
    else
      var limit := config.microcompactMaxChars;
      var lines := Lines(content);
      var budget := if limit / 120 < 2 then 2 else limit / 120;
      if |lines| <= 4 || budget * 2 >= |lines| then Truncate(content, limit)
      else
        var name := if toolName == "" then "Tool" else toolName;
        Truncate("[" + name + " result microcompacted]\n" + JoinLines(lines[..budget]) + MIDDLE
                 + JoinLines(lines[|lines| - budget..]), limit)
  }

  /** The breaks in a text: one less than its lines. */
  function Breaks(text: string): nat {
    if text == "" then 0 else (if text[0] == '\n' then 1 else 0) + Breaks(text[1..])
  }

  ghost predicate Unbroken(lines: seq<string>) {
    forall i :: 0 <= i < |lines| ==> Breaks(lines[i]) == 0
  }

  lemma {:induction false} BreaksConcat(a: string, b: string)
    ensures Breaks(a + b) == Breaks(a) + Breaks(b)
  {
    if a == "" {
      assert a + b == b;
    } else {
      assert (a + b)[1..] == a[1..] + b;
      BreaksConcat(a[1..], b);
    }
  }

  lemma {:induction false} LinesJoin(text: string)
    ensures JoinLines(Lines(text)) == text && Unbroken(Lines(text))
  {
    if text != "" {
      var rest := Lines(text[1..]);
      LinesJoin(text[1..]);
      assert text == [text[0]] + text[1..];
      if text[0] == '\n' {
        assert ([""] + rest)[1..] == rest;
      } else {
        BreaksConcat([text[0]], rest[0]);
        assert ([[text[0]] + rest[0]] + rest[1..])[1..] == rest[1..];
      }
    }
  }

  lemma {:induction false} JoinSplit(lines: seq<string>, n: nat)
    requires 0 < n < |lines|
    ensures JoinLines(lines) == JoinLines(lines[..n]) + "\n" + JoinLines(lines[n..])
  {
    if n > 1 {
      JoinSplit(lines[1..], n - 1);
      assert lines[1..][..n - 1] == lines[..n][1..] && lines[1..][n - 1..] == lines[n..];
    } else {
      assert lines[..1] == [lines[0]];
    }
  }

  lemma {:induction false} JoinBreaks(lines: seq<string>)
    requires lines != [] && Unbroken(lines)
    ensures Breaks(JoinLines(lines)) == |lines| - 1
  {
    if |lines| > 1 {
      JoinBreaks(lines[1..]);
      BreaksConcat(lines[0], "\n");
      BreaksConcat(lines[0] + "\n", JoinLines(lines[1..]));
    }
  }

  const MIDDLE: string := "\n...\n"

  /** A long output with many lines shows a beginning and an end of as many lines each, which do not overlap; any other its beginning. */
  lemma {:induction false} MicroShowsEnds(toolName: string, content: string, config: Config) returns (j: nat, k: nat)
    requires config.Valid() && |content| > config.microcompactThresholdChars
    ensures var limit, lines := config.microcompactMaxChars, Breaks(content) + 1;
            var shown := if limit < 240 then 2 else limit / 120;
            if lines <= 4 || lines <= shown * 2 then MicroText(toolName, content, config) == Truncate(content, limit)
            else
              && j < k <= |content| && Breaks(content[..j]) == Breaks(content[k..]) == shown - 1
              && content[j] == content[k - 1] == '\n'
              && MicroText(toolName, content, config) ==
                   Truncate("[" + (if toolName == "" then "Tool" else toolName) + " result microcompacted]\n"
                            + content[..j] + MIDDLE + content[k..], limit)
  {
    hide Truncate, JoinLines, Lines, Breaks, Unbroken;
    var lines := Lines(content);
    var n := if config.microcompactMaxChars / 120 < 2 then 2 else config.microcompactMaxChars / 120;
    LinesJoin(content);
    JoinBreaks(lines);
    j, k := 0, 0;
    if 4 < |lines| && n * 2 < |lines| {
      var head, tail := JoinLines(lines[..n]), JoinLines(lines[|lines| - n..]);
      EndsOfLines(content, lines, n);
      j, k := |head|, |content| - |tail|;
      assert content[..j] == head && content[k..] == tail;
    }
  }

  lemma EndsOfLines(content: string, lines: seq<string>, n: nat)
    requires 0 < n && n * 2 < |lines| && content == JoinLines(lines) && Unbroken(lines)
    ensures var head, tail := JoinLines(lines[..n]), JoinLines(lines[|lines| - n..]);
            && |head| + |tail| + 1 < |content| && content[..|head|] == head && content[|content| - |tail|..] == tail
            && content[|head|] == content[|content| - |tail| - 1] == '\n'
            && Breaks(head) == Breaks(tail) == n - 1
  {
    hide JoinLines, Breaks;
    var rest := lines[n..];
    var m := |rest| - n;
    JoinSplit(lines, n);
    JoinSplit(rest, m);
    assert rest[m..] == lines[|lines| - n..];
    var head, middle, tail := JoinLines(lines[..n]), JoinLines(rest[..m]), JoinLines(lines[|lines| - n..]);
    assert content == head + "\n" + (middle + "\n" + tail);
    forall i | 0 <= i < n ensures Breaks(lines[..n][i]) == 0 { assert lines[..n][i] == lines[i]; }
    var back, at := lines[|lines| - n..], |lines| - n;
    forall i | 0 <= i < n ensures Breaks(back[i]) == 0 { assert back[i] == lines[at + i]; }
    JoinBreaks(lines[..n]);
    JoinBreaks(lines[|lines| - n..]);
  }

  function MicroMessage(m: Message, config: Config): (r: Message)
    requires config.Valid()
    ensures SameShape(m, r)
  {
    if m.role == Tool then m.WithContent(MicroText(m.toolName, m.content, config)) else m
  }

  function MicroGroup(group: Group, config: Config): (r: Group)
    requires config.Valid()
    ensures SameShapes(group, r)
  {
    seq(|group|, i requires 0 <= i < |group| => MicroMessage(group[i], config))
  }

  /** microcompactGroups: the groups before `before`, counted from the oldest, are rewritten. */
  function MicroGroups(groups: seq<Group>, before: int, config: Config): (r: seq<Group>)
    requires config.Valid()
    ensures SameGroupShapes(groups, r)
  {
    seq(|groups|, i requires 0 <= i < |groups| => if i < before then MicroGroup(groups[i], config) else groups[i])
  }

  lemma MicroMessageIs(m: Message, config: Config)
    requires config.Valid()
    ensures MicroMessage(m, config) == if m.role == Tool then m.WithContent(MicroText(m.toolName, m.content, config)) else m
    ensures MicroMessage(m, config) != m <==> m.role == Tool && MicroText(m.toolName, m.content, config) != m.content
  {
    hide MicroText;
  }

  lemma SamePrefix<T>(a: seq<T>, b: seq<T>, j: nat, x: T)
    requires |a| == j < |b|
    ensures a + [x] == b[..j + 1] <==> a == b[..j] && x == b[j]
  {
    assert b[..j + 1] == b[..j] + [b[j]];
    if a + [x] == b[..j + 1] { assert a == (a + [x])[..j] && x == (a + [x])[j]; }
  }

  method MicrocompactGroup(group: Group, config: Config, count: nat) returns (result: Group, total: nat)
    requires config.Valid()
    ensures result == MicroGroup(group, config)
    ensures total >= count && (total == count <==> result == group)
  {
    hide MicroText, MicroMessage;
    result, total := [], count;
    for j := 0 to |group|
      invariant |result| == j && total >= count
      invariant forall k :: 0 <= k < j ==> result[k] == MicroMessage(group[k], config)
      invariant total == count <==> result == group[..j]
    {
      var message := group[j];
      MicroMessageIs(message, config);
      if message.role == Tool {
        var compacted := MicroText(message.toolName, message.content, config);
        if compacted != message.content { total := total + 1; }
        message := message.WithContent(compacted);
      }
      SamePrefix(result, group, j, message);
      result := result + [message];
    }
    assert group[..|group|] == group;
  }

  method MicrocompactGroups(groups: seq<Group>, before: int, config: Config, count: nat)
    returns (result: seq<Group>, total: nat)
    requires config.Valid()
    ensures result == MicroGroups(groups, before, config)
    ensures total >= count && (total == count <==> result == groups)
  {
    result, total := [], count;
    for i := 0 to |groups|
      invariant |result| == i && total >= count
      invariant forall k :: 0 <= k < i ==> result[k] == if k < before then MicroGroup(groups[k], config) else groups[k]
      invariant total == count <==> result == groups[..i]
    {
      hide MicroGroup;
      var group := groups[i];
      if i < before { group, total := MicrocompactGroup(group, config, total); }
      SamePrefix(result, groups, i, group);
      result := result + [group];
    }
  }
}
