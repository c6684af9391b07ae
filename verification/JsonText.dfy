/** JSON texts as RFC 8259 writes them, with every choice of insignificant whitespace. */
module JsonText {

  predicate IsSpace(c: char) {
    c in {' ', '\t', '\n', '\r'}
  }

  predicate IsHex(c: char) {
    '0' <= c <= '9' || 'a' <= c <= 'f' || 'A' <= c <= 'F'
  }

  type Space = s: string | forall i :: 0 <= i < |s| ==> IsSpace(s[i])

  /** A superset of the number texts of section 6: any non-empty text of their characters. */
  predicate IsNumberChar(c: char) {
    '0' <= c <= '9' || c in {'+', '-', '.', 'e', 'E'}
  }

  type NumberText = s: string | |s| > 0 && forall i :: 0 <= i < |s| ==> IsNumberChar(s[i])
    witness "0"

  /** One character of a string, literal or escaped (section 7). */
  datatype Raw = Plain(c: char) | Escape(c: char) | Unicode(hex: string)

  predicate RawOk(r: Raw) {
    match r
    case Plain(c) => c >= ' ' && c != '"' && c != '\\'
    case Escape(c) => c in {'"', '\\', '/', 'b', 'f', 'n', 'r', 't'}
    case Unicode(hex) => |hex| == 4 && forall i :: 0 <= i < 4 ==> IsHex(hex[i])
  }

  type Unit = r: Raw | RawOk(r) witness Plain('x')

  /** Values (section 3), objects (section 4) and arrays (section 5). */
  datatype Json =
    | Null | True | False
    | Number(text: NumberText)
    | Text(chars: seq<Unit>)
    | Array(blank: Space, items: seq<Item>)
    | Object(blank: Space, members: seq<Member>)

  datatype Item = Item(before: Space, value: Json, after: Space)

  datatype Member = Member(before: Space, key: seq<Unit>, gap: Space, gap2: Space, value: Json, after: Space)

  predicate IsContainer(v: Json) {
    v.Array? || v.Object?
  }

  function PrintUnit(u: Unit): string {
    match u
    case Plain(c) => [c]
    case Escape(c) => ['\\', c]
    case Unicode(hex) => ['\\', 'u'] + hex
  }

  function PrintUnits(chars: seq<Unit>): string {
    if chars == [] then "" else PrintUnit(chars[0]) + PrintUnits(chars[1..])
  }

  function PrintText(chars: seq<Unit>): string {
    "\"" + PrintUnits(chars) + "\""
  }

  /** What stands between the brackets of an array or object. */
  function PrintInside(v: Json): string
    requires IsContainer(v)
    decreases v, 0
  {
    match v
    case Array(blank, items) => if items == [] then blank else PrintItems(items)
    case Object(blank, members) => if members == [] then blank else PrintMembers(members)
  }

  function Open(v: Json): char
    requires IsContainer(v)
  {
    if v.Array? then '[' else '{'
  }

  function Close(v: Json): char
    requires IsContainer(v)
  {
    if v.Array? then ']' else '}'
  }

  function Print(v: Json): string
    decreases v, 1
  {
    match v
    case Null => "null"
    case True => "true"
    case False => "false"
    case Number(text) => text
    case Text(chars) => PrintText(chars)
    case _ => [Open(v)] + PrintInside(v) + [Close(v)]
  }

  function PrintItem(item: Item): string
    decreases item
  {
    item.before + Print(item.value) + item.after
  }

  function PrintItems(items: seq<Item>): string
    requires items != []
    decreases items
  {
    if |items| == 1 then PrintItem(items[0]) else PrintItem(items[0]) + "," + PrintItems(items[1..])
  }

  function PrintMember(m: Member): string
    decreases m
  {
    m.before + PrintText(m.key) + m.gap + ":" + m.gap2 + Print(m.value) + m.after
  }

  function PrintMembers(members: seq<Member>): string
    requires members != []
    decreases members
  {
    if |members| == 1 then PrintMember(members[0]) else PrintMember(members[0]) + "," + PrintMembers(members[1..])
  }
}
