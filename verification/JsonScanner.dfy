/** Finding the JSON objects and arrays in a model's reply. */
module JsonScanner {
  import opened JsonSyntax

  datatype Mode = Outside | InString | Escaped

  /** The scanner behind an opening bracket; it stops at depth 0, at the bracket that balances that one. */
  datatype State = State(depth: nat, mode: Mode)

  predicate IsOpen(c: char) {
    c == '{' || c == '['
  }

  predicate IsClose(c: char) {
    c == '}' || c == ']'
  }

  function Step(s: State, c: char): State {
    if s.depth == 0 then s
    else
      match s.mode
      case Escaped => s.(mode := InString)
      case InString => if c == '\\' then s.(mode := Escaped) else if c == '"' then s.(mode := Outside) else s
      case Outside =>
        if c == '"' then s.(mode := InString)
        else if IsOpen(c) then s.(depth := s.depth + 1)
        else if IsClose(c) then s.(depth := s.depth - 1)
        else s
  }

  function Run(s: State, text: string): State
    decreases text
  {
    if text == "" then s else Run(Step(s, text[0]), text[1..])
  }

  lemma {:induction false} RunConcat(s: State, a: string, b: string)
    ensures Run(s, a + b) == Run(Run(s, a), b)
    decreases a
  {
    if a == "" {
      assert a + b == b;
    } else {
      assert (a + b)[1..] == a[1..] + b;
      RunConcat(Step(s, a[0]), a[1..], b);
    }
  }

  /** The candidates of a text whose scanner is in state `s`, with `taken` the candidate begun so far. */
  function Within(taken: string, s: State, rest: string): seq<string>
    decreases |rest|
  {
    if rest == "" then []
    else
      var t := Step(s, rest[0]);
      if t.depth == 0 then [taken + [rest[0]]] + Candidates(rest[1..])
      else Within(taken + [rest[0]], t, rest[1..])
  }

  /** balancedJSONCandidates as a function of the text. */
  function Candidates(text: string): seq<string>
    decreases |text|
  {
    if text == "" then []
    else if IsOpen(text[0]) then Within([text[0]], State(1, Outside), text[1..])
    else Candidates(text[1..])
  }

  /** balancedJSONCandidates, in its own loop. */
  method BalancedJsonCandidates(text: string) returns (candidates: seq<string>)
    ensures candidates == Candidates(text)
  {
    candidates := [];
    var start, depth, inString, escaped := -1, 0, false, false;
    for index := 0 to |text|
      invariant -1 <= start < index || start == -1
      invariant start >= 0 ==> depth > 0 && (escaped ==> inString)
      invariant candidates + Ahead(text, start, depth, inString, escaped, index) == Candidates(text)
    {
      hide Within, Candidates;
      var c := text[index];
      AheadNext(text, start, depth, inString, escaped, index);
      if start < 0 {
        if IsOpen(c) { start, depth, inString, escaped := index, 1, false, false; }
        continue;
      }
      if inString {
        if escaped {
          escaped := false;
        } else if c == '\\' {
          escaped := true;
        } else if c == '"' {
          inString := false;
        }
        continue;
      }
      if c == '"' {
        inString := true;
      } else if IsOpen(c) {
        depth := depth + 1;
      } else if IsClose(c) {
        depth := depth - 1;
        if depth == 0 {
          candidates := candidates + [text[start..index + 1]];
          start := -1;
        }
      }
    }
    assert text[|text|..] == "";
  }

  function ModeOf(inString: bool, escaped: bool): Mode {
    if !inString then Outside else if escaped then Escaped else InString
  }

  /** What the loop will still find from `index` on. */
  function Ahead(text: string, start: int, depth: int, inString: bool, escaped: bool, index: nat): seq<string>
    requires index <= |text| && start < index && (start >= 0 ==> depth > 0)
  {
    if start < 0 then Candidates(text[index..])
    else Within(text[start..index], State(depth, ModeOf(inString, escaped)), text[index..])
  }

  lemma AheadNext(text: string, start: int, depth: int, inString: bool, escaped: bool, index: nat)
    requires index < |text| && start < index && (start >= 0 ==> depth > 0)
    ensures Ahead(text, start, depth, inString, escaped, index) ==
      if start < 0 then
        if IsOpen(text[index]) then Within(text[index..index + 1], State(1, Outside), text[index + 1..])
        else Candidates(text[index + 1..])
      else
        var t := Step(State(depth, ModeOf(inString, escaped)), text[index]);
        if t.depth == 0 then [text[start..index + 1]] + Candidates(text[index + 1..])
        else Within(text[start..index + 1], t, text[index + 1..])
  {
    var rest := text[index..];
    assert rest[0] == text[index] && rest[1..] == text[index + 1..];
    assert text[index..index + 1] == [text[index]];
    if start >= 0 { assert text[start..index] + [text[index]] == text[start..index + 1]; }
  }

  // What the scanner makes of printed JSON.

  /** Text that leaves a scanner outside strings just as it was. */
  ghost predicate Neutral(text: string) {
    forall d: nat :: d > 0 ==> Run(State(d, Outside), text) == State(d, Outside)
  }

  lemma NeutralConcat(a: string, b: string)
    requires Neutral(a) && Neutral(b)
    ensures Neutral(a + b)
  {
    hide Run;
    forall d: nat | d > 0 ensures Run(State(d, Outside), a + b) == State(d, Outside) {
      RunConcat(State(d, Outside), a, b);
    }
  }

  predicate Calm(c: char) {
    c != '"' && !IsOpen(c) && !IsClose(c)
  }

  lemma {:induction false} CalmIsNeutral(text: string)
    requires forall i :: 0 <= i < |text| ==> Calm(text[i])
    ensures Neutral(text)
    decreases text
  {
    if text != "" {
      forall i | 0 <= i < |text| - 1 ensures Calm(text[1..][i]) { assert text[1..][i] == text[i + 1]; }
      CalmIsNeutral(text[1..]);
      forall d: nat | d > 0 ensures Run(State(d, Outside), text) == State(d, Outside) {
        assert Step(State(d, Outside), text[0]) == State(d, Outside);
      }
    }
  }

  /** Inside brackets, neutral text is neutral again. */
  lemma BracketsAreNeutral(open: char, body: string, close: char)
    requires IsOpen(open) && IsClose(close) && Neutral(body)
    ensures Neutral([open] + body + [close])
  {
    forall d: nat | d > 0 ensures Run(State(d, Outside), [open] + body + [close]) == State(d, Outside) {
      RunConcat(State(d, Outside), [open], body);
      RunConcat(State(d, Outside), [open] + body, [close]);
      RunOne(State(d, Outside), open);
      RunOne(State(d + 1, Outside), close);
    }
  }

  lemma RunOne(s: State, c: char)
    ensures Run(s, [c]) == Step(s, c)
  {
    assert [c][1..] == "";
  }

  lemma {:induction false} RunInString(d: nat, text: string)
    requires forall i :: 0 <= i < |text| ==> text[i] != '"' && text[i] != '\\'
    ensures Run(State(d, InString), text) == State(d, InString)
    decreases text
  {
    if text != "" {
      forall i | 0 <= i < |text| - 1 ensures text[1..][i] != '"' && text[1..][i] != '\\' { assert text[1..][i] == text[i + 1]; }
      RunInString(d, text[1..]);
    }
  }

  lemma RunPiece(d: nat, p: Piece)
    requires p.Valid()
    ensures Run(State(d, InString), p.Print()) == State(d, InString)
  {
    hide Run, HEX;
    match p
    case Plain(c) => RunInString(d, [c]);
    case Escape(c) =>
      RunEscape(d, c, "");
      assert ['\\', c] + "" == ['\\', c];
    case Unicode(digits) =>
      forall i | 0 <= i < |digits| ensures digits[i] != '"' && digits[i] != '\\' { HexIsPlain(digits[i]); }
      RunEscape(d, 'u', digits);
  }

  lemma HexIsPlain(c: char)
    requires c in HEX
    ensures c != '"' && c != '\\'
  {
  }

  lemma RunEscape(d: nat, c: char, rest: string)
    requires forall i :: 0 <= i < |rest| ==> rest[i] != '"' && rest[i] != '\\'
    ensures Run(State(d, InString), ['\\', c] + rest) == State(d, InString)
  {
    RunConcat(State(d, InString), ['\\', c], rest);
    RunConcat(State(d, InString), ['\\'], [c]);
    assert ['\\'] + [c] == ['\\', c];
    RunOne(State(d, InString), '\\');
    RunOne(State(d, Escaped), c);
    RunInString(d, rest);
  }

  lemma {:induction false} RunPieces(d: nat, pieces: seq<Piece>)
    requires ValidPieces(pieces)
    ensures Run(State(d, InString), PrintPieces(pieces)) == State(d, InString)
    decreases pieces
  {
    if pieces != [] {
      RunPiece(d, pieces[0]);
      RunPieces(d, pieces[1..]);
      RunConcat(State(d, InString), pieces[0].Print(), PrintPieces(pieces[1..]));
    }
  }

  /** A printed string is neutral: brackets, quotes and backslashes inside it are all seen through. */
  lemma StringIsNeutral(pieces: seq<Piece>)
    requires ValidPieces(pieces)
    ensures Neutral(PrintString(pieces))
  {
    hide Run;
    var body := PrintPieces(pieces);
    forall d: nat | d > 0 ensures Run(State(d, Outside), PrintString(pieces)) == State(d, Outside) {
      RunPieces(d, pieces);
      RunConcat(State(d, Outside), "\"", body);
      RunConcat(State(d, Outside), "\"" + body, "\"");
      RunOne(State(d, Outside), '"');
      RunOne(State(d, InString), '"');
    }
  }

  lemma BlankIsNeutral(ws: string)
    requires Blank(ws)
    ensures Neutral(ws)
  {
    forall i | 0 <= i < |ws| ensures Calm(ws[i]) { assert ws[i] in " \t\n\r"; }
    CalmIsNeutral(ws);
  }

  lemma DigitsAreNeutral(s: string)
    requires AllDigits(s)
    ensures Neutral(s)
  {
    forall i | 0 <= i < |s| ensures Calm(s[i]) { assert s[i] in DIGITS; }
    CalmIsNeutral(s);
  }

  lemma NumberIsNeutral(n: Number)
    requires n.Valid()
    ensures Neutral(n.Print())
  {
    hide Neutral;
    var minus := if n.minus then "-" else "";
    var fraction := if n.fraction == "" then "" else "." + n.fraction;
    var exponent := if n.exponent == "" then "" else [n.mark] + n.sign + n.exponent;
    CalmIsNeutral(minus);
    DigitsAreNeutral(n.whole);
    CalmIsNeutral("");
    if n.fraction != "" {
      CalmIsNeutral(".");
      DigitsAreNeutral(n.fraction);
      NeutralConcat(".", n.fraction);
    }
    if n.exponent != "" {
      assert Calm(n.mark);
      CalmIsNeutral([n.mark]);
      CalmIsNeutral(n.sign);
      DigitsAreNeutral(n.exponent);
      NeutralConcat([n.mark], n.sign);
      NeutralConcat([n.mark] + n.sign, n.exponent);
    }
    NeutralConcat(minus, n.whole);
    NeutralConcat(minus + n.whole, fraction);
    NeutralConcat(minus + n.whole + fraction, exponent);
  }

  lemma LiteralIsNeutral(text: string)
    requires text in {"true", "false", "null"}
    ensures Neutral(text)
  {
    hide Neutral;
    CalmIsNeutral("true");
    CalmIsNeutral("false");
    CalmIsNeutral("null");
  }

  /** Every printed value is neutral. */
  lemma {:induction false} ValueIsNeutral(v: Value)
    requires ValidValue(v)
    ensures Neutral(Print(v))
    decreases v, 1
  {
    hide Neutral;
    match v
    case Literal(text) => LiteralIsNeutral(text);
    case Num(number) => NumberIsNeutral(number);
    case Str(pieces) => StringIsNeutral(pieces);
    case Arr(items, inner) =>
      BodyIsNeutral(v);
      BracketsAreNeutral('[', Body(v), ']');
    case Obj(members, inner) =>
      BodyIsNeutral(v);
      BracketsAreNeutral('{', Body(v), '}');
  }

  /** What stands between the brackets. */
  function Body(v: Value): string
    requires v.Arr? || v.Obj?
  {
    if v.Arr? then if v.items == [] then v.inner else PrintItems(v.items)
    else if v.members == [] then v.inner else PrintMembers(v.members)
  }

  lemma {:induction false} BodyIsNeutral(v: Value)
    requires ValidValue(v) && (v.Arr? || v.Obj?)
    ensures Neutral(Body(v))
    decreases v, 0
  {
    hide Neutral;
    BlankIsNeutral(v.inner);
    if v.Arr? && v.items != [] { ItemsAreNeutral(v.items); }
    if v.Obj? && v.members != [] { MembersAreNeutral(v.members); }
  }

  lemma {:induction false} ItemIsNeutral(item: Item)
    requires ValidItem(item)
    ensures Neutral(PrintItem(item))
    decreases item, 1
  {
    hide Neutral;
    BlankIsNeutral(item.before);
    BlankIsNeutral(item.after);
    ValueIsNeutral(item.value);
    NeutralConcat(item.before, Print(item.value));
    NeutralConcat(item.before + Print(item.value), item.after);
  }

  lemma {:induction false} ItemsAreNeutral(items: seq<Item>)
    requires forall i :: 0 <= i < |items| ==> ValidItem(items[i])
    ensures Neutral(PrintItems(items))
    decreases items, 2
  {
    hide Neutral;
    CalmIsNeutral("");
    if items != [] {
      ItemIsNeutral(items[0]);
      ItemsAreNeutral(items[1..]);
      CalmIsNeutral(",");
      NeutralConcat(",", PrintItems(items[1..]));
      var tail := if |items| == 1 then "" else "," + PrintItems(items[1..]);
      NeutralConcat(PrintItem(items[0]), tail);
    }
  }

  lemma {:induction false} MemberIsNeutral(m: Member)
    requires ValidMember(m)
    ensures Neutral(PrintMember(m))
    decreases m, 2
  {
    hide Neutral;
    BlankIsNeutral(m.lead);
    StringIsNeutral(m.name);
    BlankIsNeutral(m.beforeColon);
    CalmIsNeutral(":");
    ItemIsNeutral(m.item);
    NeutralConcat(m.lead, PrintString(m.name));
    NeutralConcat(m.lead + PrintString(m.name), m.beforeColon);
    NeutralConcat(m.lead + PrintString(m.name) + m.beforeColon, ":");
    NeutralConcat(m.lead + PrintString(m.name) + m.beforeColon + ":", PrintItem(m.item));
  }

  lemma {:induction false} MembersAreNeutral(members: seq<Member>)
    requires forall i :: 0 <= i < |members| ==> ValidMember(members[i])
    ensures Neutral(PrintMembers(members))
    decreases members, 3
  {
    hide Neutral;
    CalmIsNeutral("");
    if members != [] {
      MemberIsNeutral(members[0]);
      MembersAreNeutral(members[1..]);
      CalmIsNeutral(",");
      NeutralConcat(",", PrintMembers(members[1..]));
      var tail := if |members| == 1 then "" else "," + PrintMembers(members[1..]);
      NeutralConcat(PrintMember(members[0]), tail);
    }
  }

  // What the scanner finds.

  lemma {:induction false} StoppedStays(s: State, text: string)
    requires s.depth == 0
    ensures Run(s, text) == s
    decreases text
  {
    if text != "" { StoppedStays(s, text[1..]); }
  }

  /** Text that does not balance the candidate only makes it longer. */
  lemma {:induction false} WithinRun(taken: string, s: State, a: string, b: string)
    requires Run(s, a).depth > 0
    ensures Within(taken, s, a + b) == Within(taken + a, Run(s, a), b)
    decreases a
  {
    if a == "" {
      assert a + b == b && taken + a == taken;
    } else {
      var t := Step(s, a[0]);
      assert (a + b)[1..] == a[1..] + b;
      assert taken + [a[0]] + a[1..] == taken + a;
      if t.depth == 0 { StoppedStays(t, a[1..]); }
      WithinRun(taken + [a[0]], t, a[1..], b);
    }
  }

  predicate NoOpening(text: string) {
    forall i :: 0 <= i < |text| ==> !IsOpen(text[i])
  }

  lemma {:induction false} ProseIsSkipped(prose: string, rest: string)
    requires NoOpening(prose)
    ensures Candidates(prose + rest) == Candidates(rest)
    decreases prose
  {
    if prose == "" {
      assert prose + rest == rest;
    } else {
      assert (prose + rest)[1..] == prose[1..] + rest;
      ProseIsSkipped(prose[1..], rest);
    }
  }

  /** Behind any prose, a printed object or array is found whole, and the search goes on right behind it. */
  lemma PrintedIsFound(prose: string, v: Value, rest: string)
    requires NoOpening(prose) && ValidValue(v) && (v.Arr? || v.Obj?)
    ensures Candidates(prose + Print(v) + rest) == [Print(v)] + Candidates(rest)
  {
    hide Candidates, Within, ValidValue, Body;
    var open, body, close := if v.Arr? then '[' else '{', Body(v), if v.Arr? then ']' else '}';
    BodyIsNeutral(v);
    PrintIsBracketed(v);
    assert prose + Print(v) + rest == prose + (Print(v) + rest);
    ProseIsSkipped(prose, Print(v) + rest);
    BracketedIsFound(open, body, close, rest);
    assert Print(v) + rest == [open] + (body + ([close] + rest));
  }

  lemma PrintIsBracketed(v: Value)
    requires v.Arr? || v.Obj?
    ensures Print(v) == [if v.Arr? then '[' else '{'] + Body(v) + [if v.Arr? then ']' else '}']
  {
  }

  lemma BracketedIsFound(open: char, body: string, close: char, rest: string)
    requires IsOpen(open) && IsClose(close) && Neutral(body)
    ensures Candidates([open] + (body + ([close] + rest))) == [[open] + body + [close]] + Candidates(rest)
  {
    hide Run;
    var text, tail := [open] + (body + ([close] + rest)), [close] + rest;
    assert text[0] == open && text[1..] == body + tail;
    assert Run(State(1, Outside), body) == State(1, Outside);
    WithinRun([open], State(1, Outside), body, tail);
    assert tail[0] == close && tail[1..] == rest;
  }

  /** A reply of printed values, with prose before each and behind the last, yields exactly those values. */
  datatype Chunk = Chunk(prose: string, value: Value)

  function Reply(chunks: seq<Chunk>, tail: string): string {
    if chunks == [] then tail else chunks[0].prose + Print(chunks[0].value) + Reply(chunks[1..], tail)
  }

  function Values(chunks: seq<Chunk>): (texts: seq<string>)
    ensures |texts| == |chunks|
  {
    seq(|chunks|, i requires 0 <= i < |chunks| => Print(chunks[i].value))
  }

  predicate ValidChunk(chunk: Chunk) {
    NoOpening(chunk.prose) && ValidValue(chunk.value) && (chunk.value.Arr? || chunk.value.Obj?)
  }

  lemma {:induction false} AllPrintedAreFound(chunks: seq<Chunk>, tail: string)
    requires NoOpening(tail) && forall i :: 0 <= i < |chunks| ==> ValidChunk(chunks[i])
    ensures Candidates(Reply(chunks, tail)) == Values(chunks)
    decreases chunks
  {
    hide Print, ValidValue, Within;
    if chunks == [] {
      ProseIsSkipped(tail, "");
      assert tail + "" == tail;
    } else {
      assert ValidChunk(chunks[0]);
      forall i | 0 <= i < |chunks| - 1 ensures ValidChunk(chunks[1..][i]) { assert chunks[1..][i] == chunks[i + 1]; }
      AllPrintedAreFound(chunks[1..], tail);
      PrintedIsFound(chunks[0].prose, chunks[0].value, Reply(chunks[1..], tail));
      assert Values(chunks) == [Print(chunks[0].value)] + Values(chunks[1..]);
    }
  }

  // What a candidate is, in any text.

  /** A candidate opens, and balances at its last character and not before. */
  ghost predicate Balanced(candidate: string) {
    && |candidate| >= 2 && IsOpen(candidate[0])
    && Run(State(1, Outside), candidate[1..]).depth == 0
    && Run(State(1, Outside), candidate[1..|candidate| - 1]).depth > 0
  }

  /** The text, put together again from what lies between the candidates and the candidates themselves. */
  function Woven(gaps: seq<string>, candidates: seq<string>): string
    requires |gaps| == |candidates| + 1
  {
    if candidates == [] then gaps[0] else gaps[0] + candidates[0] + Woven(gaps[1..], candidates[1..])
  }

  ghost predicate Splits(text: string, gaps: seq<string>, candidates: seq<string>) {
    && |gaps| == |candidates| + 1 && Woven(gaps, candidates) == text
    && (forall i :: 0 <= i < |candidates| ==> Balanced(candidates[i]) && NoOpening(gaps[i]))
  }

  lemma SplitsCons(gap: string, candidate: string, rest: string, gaps: seq<string>, candidates: seq<string>)
    requires Splits(rest, gaps, candidates) && Balanced(candidate) && NoOpening(gap)
    ensures Splits(gap + candidate + rest, [gap] + gaps, [candidate] + candidates)
  {
    hide Balanced, NoOpening;
    assert ([gap] + gaps)[1..] == gaps && ([candidate] + candidates)[1..] == candidates;
  }

  lemma SplitsLonger(gap: string, rest: string, gaps: seq<string>, candidates: seq<string>)
    requires Splits(rest, gaps, candidates) && NoOpening(gap)
    ensures Splits(gap + rest, [gap + gaps[0]] + gaps[1..], candidates)
  {
    hide Balanced;
    var longer := [gap + gaps[0]] + gaps[1..];
    assert longer[1..] == gaps[1..];
    if candidates != [] { assert NoOpening(gaps[0]); }
  }

  /** The candidates are disjoint pieces of the text, in their order; only the tail may hold an unbalanced bracket. */
  lemma {:induction false} CandidatesSplit(text: string) returns (gaps: seq<string>)
    ensures Splits(text, gaps, Candidates(text))
    decreases |text|, 1
  {
    hide Balanced, Woven;
    if text == "" {
      gaps := [""];
      NothingFound("");
    } else if IsOpen(text[0]) {
      gaps := WithinSplits([text[0]], State(1, Outside), text[1..]);
      assert [text[0]] + text[1..] == text;
    } else {
      var rest := CandidatesSplit(text[1..]);
      assert [text[0]] + text[1..] == text;
      SplitsLonger([text[0]], text[1..], rest, Candidates(text[1..]));
      gaps := [[text[0]] + rest[0]] + rest[1..];
    }
  }

  lemma NothingFound(text: string)
    ensures Splits(text, [text], [])
  {
  }

  lemma {:induction false} WithinSplits(taken: string, s: State, rest: string) returns (gaps: seq<string>)
    requires taken != "" && IsOpen(taken[0]) && s.depth > 0 && Run(State(1, Outside), taken[1..]) == s
    ensures Splits(taken + rest, gaps, Within(taken, s, rest))
    decreases |rest|, 0
  {
    hide Woven;
    if rest == "" {
      gaps := [taken];
      assert taken + rest == taken;
      NothingFound(taken);
    } else {
      var c, tail, more := rest[0], rest[1..], taken + [rest[0]];
      var t := Step(s, c);
      assert rest == [c] + tail && taken + rest == more + tail;
      assert more[1..] == taken[1..] + [c] && more[1..|more| - 1] == taken[1..];
      RunConcat(State(1, Outside), taken[1..], [c]);
      RunOne(s, c);
      if t.depth == 0 {
        var later := CandidatesSplit(tail);
        assert Balanced(more);
        SplitsCons("", more, tail, later, Candidates(tail));
        assert "" + more + tail == more + tail;
        gaps := [""] + later;
      } else {
        gaps := WithinSplits(more, t, tail);
      }
    }
  }
}
