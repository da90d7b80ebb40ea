/** JSON texts as RFC 8259 writes them (sections 2 to 7), with the freedom of white space and escapes kept. */
module JsonSyntax {

  /** A character of a string: itself, a two-character escape, or four hexadecimal digits. */
  datatype Piece = Plain(c: char) | Escape(c: char) | Unicode(digits: string)
  {
    predicate Valid() {
      match this
      case Plain(c) => c >= ' ' && c != '"' && c != '\\'
      case Escape(c) => c in "\"\\/bfnrt"
      case Unicode(digits) => |digits| == 4 && forall d :: d in digits ==> d in HEX
    }

    function Print(): string {
      match this
      case Plain(c) => [c]
      case Escape(c) => ['\\', c]
      case Unicode(digits) => ['\\', 'u'] + digits
    }
  }

  const HEX: string := "0123456789abcdefABCDEF"
  const DIGITS: string := "0123456789"

  predicate Blank(ws: string) {
    forall c :: c in ws ==> c in " \t\n\r"
  }

  predicate AllDigits(s: string) {
    s != "" && forall c :: c in s ==> c in DIGITS
  }

  /** section 6: minus, integer part, fraction and exponent, each with its punctuation. */
  datatype Number = Number(minus: bool, whole: string, fraction: string, mark: char, sign: string, exponent: string)
  {
    predicate Valid() {
      && AllDigits(whole) && (|whole| > 1 ==> whole[0] != '0')
      && (fraction != "" ==> AllDigits(fraction))
      && (exponent != "" ==> AllDigits(exponent) && mark in "eE" && sign in {"", "+", "-"})
    }

    function Print(): string {
      (if minus then "-" else "") + whole + (if fraction == "" then "" else "." + fraction)
      + if exponent == "" then "" else [mark] + sign + exponent
    }
  }

  /** `before` and `after` are the white space around a value, `beforeColon` the one behind a member's name. */
  datatype Value =
    | Literal(text: string)
    | Num(number: Number)
    | Str(pieces: seq<Piece>)
    | Arr(items: seq<Item>, inner: string)
    | Obj(members: seq<Member>, inner: string)

  datatype Item = Item(before: string, value: Value, after: string)

  datatype Member = Member(lead: string, name: seq<Piece>, beforeColon: string, item: Item)

  predicate ValidPieces(pieces: seq<Piece>) {
    forall i :: 0 <= i < |pieces| ==> pieces[i].Valid()
  }

  predicate ValidItem(item: Item)
    decreases item
  {
    Blank(item.before) && Blank(item.after) && ValidValue(item.value)
  }

  predicate ValidMember(m: Member)
    decreases m
  {
    Blank(m.lead) && ValidPieces(m.name) && Blank(m.beforeColon) && ValidItem(m.item)
  }

  predicate ValidValue(v: Value)
    decreases v
  {
    match v
    case Literal(text) => text in {"true", "false", "null"}
    case Num(number) => number.Valid()
    case Str(pieces) => ValidPieces(pieces)
    case Arr(items, inner) => Blank(inner) && forall i :: 0 <= i < |items| ==> ValidItem(items[i])
    case Obj(members, inner) => Blank(inner) && forall i :: 0 <= i < |members| ==> ValidMember(members[i])
  }

  function PrintPieces(pieces: seq<Piece>): string {
    if pieces == [] then "" else pieces[0].Print() + PrintPieces(pieces[1..])
  }

  function PrintString(pieces: seq<Piece>): string {
    "\"" + PrintPieces(pieces) + "\""
  }

  function PrintItem(item: Item): string
    decreases item, 0
  {
    item.before + Print(item.value) + item.after
  }

  function PrintItems(items: seq<Item>): string
    decreases items, 0
  {
    if items == [] then ""
    else PrintItem(items[0]) + if |items| == 1 then "" else "," + PrintItems(items[1..])
  }

  function PrintMember(m: Member): string
    decreases m, 0
  {
    m.lead + PrintString(m.name) + m.beforeColon + ":" + PrintItem(m.item)
  }

  function PrintMembers(members: seq<Member>): string
    decreases members, 0
  {
    if members == [] then ""
    else PrintMember(members[0]) + if |members| == 1 then "" else "," + PrintMembers(members[1..])
  }

  function Print(v: Value): string
    decreases v, 0
  {
    match v
    case Literal(text) => text
    case Num(number) => number.Print()
    case Str(pieces) => PrintString(pieces)
    case Arr(items, inner) => "[" + (if items == [] then inner else PrintItems(items)) + "]"
    case Obj(members, inner) => "{" + (if members == [] then inner else PrintMembers(members)) + "}"
  }
}
