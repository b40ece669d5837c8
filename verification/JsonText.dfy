/** JSON texts as RFC 8259 spells them (sections 2 to 7), with any white space and any escapes. */
module JsonText {

  /** Section 2: white space. */
  predicate IsWs(text: string) {
    forall i :: 0 <= i < |text| ==> text[i] in " \t\n\r"
  }

  predicate IsHex(c: char) {
    '0' <= c <= '9' || 'a' <= c <= 'f' || 'A' <= c <= 'F'
  }

  /** Section 7: a character of a string, plain or escaped. */
  datatype Char = Plain(c: char) | Escaped(e: char) | Unicode(h1: char, h2: char, h3: char, h4: char)
  {
    predicate Valid() {
      match this
      case Plain(c) => c != '"' && c != '\\' && c >= ' '
      case Escaped(e) => e in "\"\\/bfnrt"
      case Unicode(h1, h2, h3, h4) => IsHex(h1) && IsHex(h2) && IsHex(h3) && IsHex(h4)
    }

    function Text(): string {
      match this
      case Plain(c) => [c]
      case Escaped(e) => ['\\', e]
      case Unicode(h1, h2, h3, h4) => ['\\', 'u', h1, h2, h3, h4]
    }
  }

  /** Sections 3 to 6. `Number` takes any text of the characters that occur in numbers. */
  datatype Json =
    | Literal(name: string)
    | Number(digits: string)
    | String(chars: seq<Char>)
    | Array(ws: string, items: Items)
    | Object(ws: string, members: Members)

  /** The elements of an array, with the white space around each. */
  datatype Items = NoItems | Item(before: string, value: Json, after: string, rest: Items)

  /** The members of an object: name, colon, value, and the white space around them. */
  datatype Members =
    | NoMembers
    | Member(before: string, name: seq<Char>, beforeColon: string, afterColon: string, value: Json, after: string,
      rest: Members)

  predicate ValidChars(chars: seq<Char>) {
    forall i :: 0 <= i < |chars| ==> chars[i].Valid()
  }

  predicate ValidJson(j: Json) {
    match j
    case Literal(name) => name == "null" || name == "true" || name == "false"
    case Number(digits) => forall i :: 0 <= i < |digits| ==> digits[i] in "0123456789+-.eE"
    case String(chars) => ValidChars(chars)
    case Array(ws, items) => IsWs(ws) && ValidItems(items)
    case Object(ws, members) => IsWs(ws) && ValidMembers(members)
  }

  predicate ValidItems(items: Items) {
    items.Item? ==> IsWs(items.before) && ValidJson(items.value) && IsWs(items.after) && ValidItems(items.rest)
  }

  predicate ValidMembers(members: Members) {
    members.Member? ==>
      && IsWs(members.before) && ValidChars(members.name) && IsWs(members.beforeColon) && IsWs(members.afterColon)
      && ValidJson(members.value) && IsWs(members.after) && ValidMembers(members.rest)
  }

  // ----- the text of a value, in front of whatever follows it

  function CharsThen(chars: seq<Char>, next: string): string {
    if chars == [] then next else chars[0].Text() + CharsThen(chars[1..], next)
  }

  function StringThen(chars: seq<Char>, next: string): string {
    "\"" + CharsThen(chars, "\"" + next)
  }

  function JsonThen(j: Json, next: string): string {
    match j
    case Literal(name) => name + next
    case Number(digits) => digits + next
    case String(chars) => StringThen(chars, next)
    case Array(ws, items) => "[" + (ws + ItemsThen(items, "]" + next))
    case Object(ws, members) => "{" + (ws + MembersThen(members, "}" + next))
  }

  function ItemsThen(items: Items, next: string): string {
    match items
    case NoItems => next
    case Item(before, value, after, rest) =>
      before + JsonThen(value, after + if rest.NoItems? then next else "," + ItemsThen(rest, next))
  }

  function MembersThen(members: Members, next: string): string {
    match members
    case NoMembers => next
    case Member(before, name, beforeColon, afterColon, value, after, rest) =>
      before + StringThen(name, beforeColon + (":" + (afterColon
        + JsonThen(value, after + if rest.NoMembers? then next else "," + MembersThen(rest, next)))))
  }

  function Text(j: Json): string {
    JsonThen(j, "")
  }

  // ----- what follows does not change the text

  lemma {:induction false} CharsInFront(chars: seq<Char>, a: string, b: string)
    ensures CharsThen(chars, a + b) == CharsThen(chars, a) + b
  {
    if chars != [] {
      CharsInFront(chars[1..], a, b);
    }
  }

  lemma StringInFront(chars: seq<Char>, a: string, b: string)
    ensures StringThen(chars, a + b) == StringThen(chars, a) + b
  {
    CharsInFront(chars, "\"" + a, b);
    assert "\"" + (a + b) == "\"" + a + b;
  }

  lemma {:induction false} JsonInFront(j: Json, a: string, b: string)
    ensures JsonThen(j, a + b) == JsonThen(j, a) + b
    decreases j
  {
    match j
    case Literal(name) => assert name + (a + b) == name + a + b;
    case Number(digits) => assert digits + (a + b) == digits + a + b;
    case String(chars) => StringInFront(chars, a, b);
    case Array(ws, items) =>
      ItemsInFront(items, "]" + a, b);
      assert "]" + (a + b) == "]" + a + b;
    case Object(ws, members) =>
      MembersInFront(members, "}" + a, b);
      assert "}" + (a + b) == "}" + a + b;
  }

  lemma {:induction false} ItemsInFront(items: Items, a: string, b: string)
    ensures ItemsThen(items, a + b) == ItemsThen(items, a) + b
    decreases items
  {
    if items.Item? {
      var tail := if items.rest.NoItems? then a else "," + ItemsThen(items.rest, a);
      ItemsInFront(items.rest, a, b);
      Regroup(",", ItemsThen(items.rest, a), b);
      Regroup(items.after, tail, b);
      JsonInFront(items.value, items.after + tail, b);
      Regroup(items.before, JsonThen(items.value, items.after + tail), b);
    }
  }

  lemma Regroup(a: string, b: string, c: string)
    ensures a + (b + c) == a + b + c
  {
  }

  lemma {:induction false} MembersInFront(members: Members, a: string, b: string)
    ensures MembersThen(members, a + b) == MembersThen(members, a) + b
    decreases members
  {
    if members.Member? {
      var tail := if members.rest.NoMembers? then a else "," + MembersThen(members.rest, a);
      MembersInFront(members.rest, a, b);
      Regroup(",", MembersThen(members.rest, a), b);
      Regroup(members.after, tail, b);
      JsonInFront(members.value, members.after + tail, b);
      var value := JsonThen(members.value, members.after + tail);
      Regroup(members.afterColon, value, b);
      Regroup(":", members.afterColon + value, b);
      Regroup(members.beforeColon, ":" + (members.afterColon + value), b);
      StringInFront(members.name, members.beforeColon + (":" + (members.afterColon + value)), b);
      Regroup(members.before, StringThen(members.name, members.beforeColon + (":" + (members.afterColon + value))), b);
    }
  }

  lemma TextInFront(j: Json, b: string)
    ensures JsonThen(j, b) == Text(j) + b
  {
    JsonInFront(j, "", b);
    assert "" + b == b;
  }
}
