/** Reading the JSON document out of a model's reply. */
module StructuredOutput {
  import opened Wrappers
  import opened Text
  import opened JsonScanner
  import Json = JsonSyntax

  const FENCE: string := "```"

  /** The next fenced block: where its body begins, behind the fence's first line, and where the next fence ends it. */
  function NextBlock(text: string, offset: nat): (block: Option<(nat, nat)>)
    requires offset <= |text|
    ensures block.Some? ==> offset < block.value.0 <= block.value.1 && block.value.1 + 3 <= |text|
  {
    var start := IndexFrom(text, FENCE, offset);
    if start < 0 then None
    else
      var headerEnd := IndexFrom(text, "\n", start + 3);
      if headerEnd < 0 then None
      else
        var end := IndexFrom(text, FENCE, headerEnd + 1);
        if end < 0 then None else Some((headerEnd + 1, end))
  }

  /** fencedJSONCandidates, from `offset` on. */
  function Fenced(text: string, offset: nat): seq<string>
    requires offset <= |text|
    decreases |text| - offset
  {
    match NextBlock(text, offset)
    case None => []
    case Some((start, end)) => [text[start..end]] + Fenced(text, end + 3)
  }

  method FencedJsonCandidates(text: string) returns (candidates: seq<string>)
    ensures candidates == Fenced(text, 0)
  {
    hide NextBlock;
    candidates := [];
    var offset := 0;
    while true
      invariant 0 <= offset <= |text| && candidates + Fenced(text, offset) == Fenced(text, 0)
      decreases |text| - offset
    {
      var block := FindBlock(text, offset);
      if block.None? { break; }
      var start, end := block.value.0, block.value.1;
      candidates := candidates + [text[start..end]];
      offset := end + 3;
    }
  }

  method FindBlock(text: string, offset: nat) returns (block: Option<(nat, nat)>)
    requires offset <= |text|
    ensures block == NextBlock(text, offset)
  {
    hide IndexFrom, OccursAt;
    var start := IndexFrom(text, FENCE, offset);
    if start < 0 { return None; }
    var headerEnd := IndexFrom(text, "\n", start + 3);
    if headerEnd < 0 { return None; }
    var end := IndexFrom(text, FENCE, headerEnd + 1);
    block := if end < 0 then None else Some((headerEnd + 1, end));
  }

  lemma {:induction false} FirstOccurrence(head: string, sub: string, tail: string, from: nat)
    requires sub != "" && from <= |head| && forall i :: from <= i < |head| ==> head[i] != sub[0]
    ensures IndexFrom(head + sub + tail, sub, from) == |head|
  {
    var text := head + sub + tail;
    assert OccursAt(text, sub, |head|);
    var j := IndexFrom(text, sub, from);
    assert text[j..j + |sub|][0] == text[j];
  }

  /** Prose, and then a block between two fences. */
  datatype Block = Block(prose: string, header: string, body: string)
  {
    predicate Plain() {
      '`' !in prose && '\n' !in header && '`' !in body
    }

    function Opening(): string {
      prose + FENCE + header
    }

    function Written(): string {
      Opening() + "\n" + body + FENCE
    }
  }

  function AllWritten(blocks: seq<Block>): string {
    if blocks == [] then "" else blocks[0].Written() + AllWritten(blocks[1..])
  }

  function Bodies(blocks: seq<Block>): seq<string> {
    if blocks == [] then [] else [blocks[0].body] + Bodies(blocks[1..])
  }

  lemma BlockIsNext(front: string, b: Block, rest: string)
    requires b.Plain()
    ensures var text, start := front + b.Written() + rest, |front| + |b.Opening()| + 1;
            NextBlock(text, |front|) == Some((start, start + |b.body|)) && text[start..start + |b.body|] == b.body
  {
    hide IndexFrom, OccursAt;
    var text := front + b.Written() + rest;
    var opening := front + b.prose + FENCE + b.header;
    var block := opening + "\n" + b.body;
    assert text == (front + b.prose) + FENCE + (b.header + "\n" + b.body + FENCE + rest);
    FirstOccurrence(front + b.prose, FENCE, b.header + "\n" + b.body + FENCE + rest, |front|);
    assert text == opening + "\n" + (b.body + FENCE + rest);
    FirstOccurrence(opening, "\n", b.body + FENCE + rest, |front| + |b.prose| + 3);
    assert text == block + FENCE + rest;
    FirstOccurrence(block, FENCE, rest, |opening| + 1);
    assert text[|opening| + 1..|block|] == b.body;
  }

  lemma {:induction false} FencedBehind(front: string, blocks: seq<Block>, rest: string)
    requires (forall i :: 0 <= i < |blocks| ==> blocks[i].Plain()) && '`' !in rest
    ensures Fenced(front + AllWritten(blocks) + rest, |front|) == Bodies(blocks)
    decreases blocks
  {
    hide NextBlock, Block.Plain, Block.Written;
    var text := front + AllWritten(blocks) + rest;
    if blocks == [] {
      assert text == front + rest;
      NoBlockLeft(front, rest);
    } else {
      var b, more := blocks[0], AllWritten(blocks[1..]);
      assert text == front + b.Written() + (more + rest) && text == (front + b.Written()) + more + rest;
      BlockIsNext(front, b, more + rest);
      BlockLength(b);
      FencedBehind(front + b.Written(), blocks[1..], rest);
    }
  }

  lemma BlockLength(b: Block)
    ensures |b.Written()| == |b.Opening()| + 1 + |b.body| + 3
  {
  }

  lemma NoBlockLeft(front: string, rest: string)
    requires '`' !in rest
    ensures NextBlock(front + rest, |front|) == None
  {
    var text, start := front + rest, IndexFrom(front + rest, FENCE, |front|);
    forall i | |front| <= i <= |text| ensures !OccursAt(text, FENCE, i) {
      if i + 3 <= |text| { assert text[i..i + 3][0] == rest[i - |front|]; }
    }
  }

  /** The candidates of a reply with fenced blocks are just their bodies, in order. */
  lemma FencedBlocksAreFound(blocks: seq<Block>, rest: string)
    requires (forall i :: 0 <= i < |blocks| ==> blocks[i].Plain()) && '`' !in rest
    ensures Fenced(AllWritten(blocks) + rest, 0) == Bodies(blocks)
  {
    hide Fenced, AllWritten, Bodies;
    FencedBehind("", blocks, rest);
    assert "" + AllWritten(blocks) + rest == AllWritten(blocks) + rest;
  }

  // The document.

  /** The first piece that decodes, trimmed; blank pieces do not count. */
  function FirstDecoded<J>(decode: string -> Option<J>, pieces: seq<string>): Option<J> {
    if pieces == [] then None
    else if Trim(pieces[0]) != "" && decode(Trim(pieces[0])).Some? then decode(Trim(pieces[0]))
    else FirstDecoded(decode, pieces[1..])
  }

  lemma {:induction false} FirstDecodedConcat<J>(decode: string -> Option<J>, a: seq<string>, b: seq<string>)
    ensures FirstDecoded(decode, a + b) == if FirstDecoded(decode, a).Some? then FirstDecoded(decode, a) else FirstDecoded(decode, b)
  {
    if a == [] {
      assert a + b == b;
    } else {
      assert (a + b)[1..] == a[1..] + b;
      FirstDecodedConcat(decode, a[1..], b);
    }
  }

  /** A piece that was tried before adds nothing. */
  lemma {:induction false} TriedBefore<J>(decode: string -> Option<J>, pieces: seq<string>, piece: string)
    requires piece in pieces && Trim(piece) == piece
    ensures FirstDecoded(decode, pieces + [piece]) == FirstDecoded(decode, pieces)
  {
    FirstDecodedConcat(decode, pieces, [piece]);
    if decode(piece).Some? && piece != "" { DecodesSome(decode, pieces, piece); }
    assert [piece][1..] == [];
  }

  lemma {:induction false} DecodesSome<J>(decode: string -> Option<J>, pieces: seq<string>, piece: string)
    requires piece in pieces && Trim(piece) == piece != "" && decode(piece).Some?
    ensures FirstDecoded(decode, pieces).Some?
  {
    if pieces[0] != piece {
      assert piece in pieces[1..];
      DecodesSome(decode, pieces[1..], piece);
    }
  }

  /** appendCandidate: trimmed, not blank, not listed before. */
  method AppendCandidate(candidates: seq<string>, piece: string) returns (result: seq<string>)
    requires forall i :: 0 <= i < |candidates| ==> Trim(candidates[i]) == candidates[i]
    ensures forall i :: 0 <= i < |result| ==> Trim(result[i]) == result[i]
    ensures result == if Trim(piece) == "" || Trim(piece) in candidates then candidates else candidates + [Trim(piece)]
  {
    TrimIdempotent(piece);
    var candidate := Trim(piece);
    result := if candidate == "" || candidate in candidates then candidates else candidates + [candidate];
  }

  lemma {:induction false} AppendedDecodes<J>(decode: string -> Option<J>, candidates: seq<string>, piece: string)
    ensures var trimmed := Trim(piece);
            FirstDecoded(decode, if trimmed == "" || trimmed in candidates then candidates else candidates + [trimmed])
            == FirstDecoded(decode, candidates + [piece])
  {
    TrimIdempotent(piece);
    var trimmed := Trim(piece);
    FirstDecodedConcat(decode, candidates, [piece]);
    FirstDecodedConcat(decode, candidates, [trimmed]);
    assert [piece][1..] == [] && [trimmed][1..] == [];
    if trimmed in candidates { TriedBefore(decode, candidates, trimmed); }
  }

  lemma DecodesAlike<J>(decode: string -> Option<J>, candidates: seq<string>, pieces: seq<string>, i: nat)
    requires i < |pieces| && FirstDecoded(decode, candidates) == FirstDecoded(decode, pieces[..i])
    ensures var trimmed := Trim(pieces[i]);
            FirstDecoded(decode, if trimmed == "" || trimmed in candidates then candidates else candidates + [trimmed])
            == FirstDecoded(decode, pieces[..i + 1])
  {
    hide FirstDecoded, Trim;
    AppendedDecodes(decode, candidates, pieces[i]);
    FirstDecodedConcat(decode, candidates, [pieces[i]]);
    FirstDecodedConcat(decode, pieces[..i], [pieces[i]]);
    assert pieces[..i + 1] == pieces[..i] + [pieces[i]];
  }

  /** The candidates of a reply, in the order they are tried. */
  function Pieces(text: string): seq<string> {
    [text] + Fenced(text, 0) + Candidates(text)
  }

  /** parseJSONDocument: leaving out repeated candidates does not change what is found. */
  method ParseJsonDocument<J>(raw: string, decode: string -> Option<J>) returns (document: Option<J>)
    ensures document == if Trim(raw) == "" then None else FirstDecoded(decode, Pieces(Trim(raw)))
  {
    hide Candidates, Fenced, FirstDecoded, Trim;
    var text := Trim(raw);
    if text == "" { return None; }
    var fenced := FencedJsonCandidates(text);
    var balanced := BalancedJsonCandidates(text);
    var pieces := [text] + fenced + balanced;
    var candidates := [];
    assert pieces[..0] == [];
    for i := 0 to |pieces|
      invariant forall k :: 0 <= k < |candidates| ==> Trim(candidates[k]) == candidates[k]
      invariant FirstDecoded(decode, candidates) == FirstDecoded(decode, pieces[..i])
    {
      DecodesAlike(decode, candidates, pieces, i);
      candidates := AppendCandidate(candidates, pieces[i]);
    }
    assert pieces[..|pieces|] == pieces;
    document := TryAll(candidates, decode);
  }

  method TryAll<J>(candidates: seq<string>, decode: string -> Option<J>) returns (document: Option<J>)
    requires forall k :: 0 <= k < |candidates| ==> Trim(candidates[k]) == candidates[k]
    ensures document == FirstDecoded(decode, candidates)
  {
    assert candidates[0..] == candidates;
    for i := 0 to |candidates|
      invariant FirstDecoded(decode, candidates) == FirstDecoded(decode, candidates[i..])
    {
      assert candidates[i..][1..] == candidates[i + 1..];
      if candidates[i] != "" && decode(candidates[i]).Some? { return decode(candidates[i]); }
    }
    document := None;
  }

  // JSON in the middle of a reply.

  lemma {:induction false} TrimLeftBefore(a: string, x: string)
    requires x != "" && !IsSpace(x[0])
    ensures TrimLeft(a + x) == TrimLeft(a) + x
  {
    if a == "" {
      assert a + x == x;
    } else if IsSpace(a[0]) {
      assert (a + x)[1..] == a[1..] + x;
      TrimLeftBefore(a[1..], x);
    }
  }

  lemma {:induction false} TrimRightBehind(x: string, b: string)
    requires x != "" && !IsSpace(x[|x| - 1])
    ensures TrimRight(x + b) == x + TrimRight(b)
  {
    if b == "" {
      assert x + b == x;
    } else if IsSpace(b[|b| - 1]) {
      assert (x + b)[..|x + b| - 1] == x + b[..|b| - 1];
      TrimRightBehind(x, b[..|b| - 1]);
    }
  }

  lemma TrimAround(a: string, x: string, b: string)
    requires x != "" && !IsSpace(x[0]) && !IsSpace(x[|x| - 1])
    ensures Trim(a + x + b) == TrimLeft(a) + x + TrimRight(b)
  {
    assert a + x + b == a + (x + b);
    TrimLeftBefore(a, x + b);
    assert TrimLeft(a) + (x + b) == TrimLeft(a) + x + b;
    TrimRightBehind(TrimLeft(a) + x, b);
  }

  lemma PrintHasNoMargin(v: Json.Value)
    requires v.Arr? || v.Obj?
    ensures var text := Json.Print(v);
            |text| >= 2 && !IsSpace(text[0]) && !IsSpace(text[|text| - 1])
  {
    PrintIsBracketed(v);
  }

  /**
   * A reply that says something around a JSON document is read as that document, as long as the reply
   * as a whole is not another document and holds no code fence.
   */
  lemma SurroundedDocumentIsRead<J>(prose: string, v: Json.Value, rest: string, decode: string -> Option<J>, document: J)
    requires NoOpening(prose) && Json.ValidValue(v) && (v.Arr? || v.Obj?)
    requires decode(Json.Print(v)) == Some(document)
    requires var text := Trim(prose + Json.Print(v) + rest);
             !Contains(text, FENCE) && (decode(text) == None || decode(text) == Some(document))
    ensures var text := Trim(prose + Json.Print(v) + rest);
            text != "" && FirstDecoded(decode, Pieces(text)) == Some(document)
  {
    hide Candidates, Json.Print, Json.ValidValue, Trim;
    var printed := Json.Print(v);
    var text := Trim(prose + printed + rest);
    PrintHasNoMargin(v);
    TrimAround(prose, printed, rest);
    var k := TrimLeftIsSuffix(prose);
    forall i | 0 <= i < |TrimLeft(prose)| ensures !IsOpen(TrimLeft(prose)[i]) { assert TrimLeft(prose)[i] == prose[k + i]; }
    PrintedIsFound(TrimLeft(prose), v, TrimRight(rest));
    assert Fenced(text, 0) == [];
    PrintedStaysTrimmed(printed);
    TrimIdempotent(prose + printed + rest);
    var found := Candidates(text);
    assert Pieces(text) == [text] + found && ([text] + found)[1..] == found && found[0] == printed;
  }

  lemma PrintedStaysTrimmed(text: string)
    requires text != "" && !IsSpace(text[0]) && !IsSpace(text[|text| - 1])
    ensures Trim(text) == text
  {
    TrimAround("", text, "");
    assert "" + text + "" == text;
  }
}
