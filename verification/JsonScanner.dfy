/** The scanner that cuts the JSON object after a marker out of an HTML page by counting braces outside strings. */
module JsonScanner {
  import opened Names
  import opened JsonText
  import opened GameScoring

  const YT_INITIAL_DATA_MARKER: string := "var ytInitialData = "

  /** Where the scanner is in the text. */
  datatype Mode = Mode(depth: int, inString: bool, escaped: bool)

  function Next(m: Mode, c: char): Mode {
    if m.inString then
      if m.escaped then m.(escaped := false)
      else if c == '\\' then m.(escaped := true)
      else if c == '"' then m.(inString := false)
      else m
    else if c == '"' then m.(inString := true)
    else if c == '{' then m.(depth := m.depth + 1)
    else if c == '}' then m.(depth := m.depth - 1)
    else m
  }

  /** The brace that takes the scanner back to depth 0. */
  predicate Closes(m: Mode, c: char) {
    !m.inString && c == '}' && m.depth == 1
  }

  /** The text after the closing brace, if there is one. */
  function Remainder(text: string, m: Mode): (rest: Option<string>)
    ensures rest.Some? ==> |rest.value| < |text|
  {
    if text == "" then None
    else if Closes(m, text[0]) then Some(text[1..])
    else Remainder(text[1..], Next(m, text[0]))
  }

  function Outside(depth: int): Mode {
    Mode(depth, false, false)
  }

  /** The first occurrence at `from` or later. */
  function FirstFrom(hay: string, needle: string, from: nat): (i: Option<nat>)
    ensures i.Some? ==>
      && i.value >= from && OccursAt(hay, needle, i.value)
      && forall k :: from <= k < i.value ==> !OccursAt(hay, needle, k)
    ensures i.None? ==> forall k :: from <= k ==> !OccursAt(hay, needle, k)
    decreases |hay| - from
  {
    if from + |needle| > |hay| then None
    else if OccursAt(hay, needle, from) then Some(from)
    else FirstFrom(hay, needle, from + 1)
  }

  /**
    The text from the first brace to the one that closes it; nothing when the text begins otherwise or never closes.
   */
  function Cut(text: string): Option<string> {
    if text == "" || text[0] != '{' || Remainder(text, Outside(0)).None? then None
    else Some(text[..|text| - |Remainder(text, Outside(0)).value|])
  }

  /** What is handed to the JSON parser. */
  function Extracted(html: string): Option<string> {
    var i := FirstFrom(html, YT_INITIAL_DATA_MARKER, 0);
    if i.None? then None else Cut(html[i.value + |YT_INITIAL_DATA_MARKER|..])
  }

  /** `extractYtInitialData` up to the call of the parser, with the source's flags and counters. */
  method ExtractYtInitialData(html: string) returns (json: Option<string>)
    ensures json == Extracted(html)
  {
    var markerIndex := IndexOfMarker(html);
    if markerIndex == -1 {
      return None;
    }
    var jsonStart := markerIndex + |YT_INITIAL_DATA_MARKER|;
    if jsonStart == |html| || html[jsonStart] != '{' {
      return None;
    }
    var jsonEnd := FindJsonEnd(html, jsonStart);
    if jsonEnd == -1 {
      return None;
    }
    json := Some(html[jsonStart..jsonEnd + 1]);
    ghost var text := html[jsonStart..];
    assert text[..|text| - |html[jsonEnd + 1..]|] == html[jsonStart..jsonEnd + 1];
  }

  /** The loop over `depth`, `inString` and `escaped`. */
  method FindJsonEnd(html: string, jsonStart: nat) returns (jsonEnd: int)
    requires jsonStart < |html| && html[jsonStart] == '{'
    ensures jsonEnd == -1 <==> Remainder(html[jsonStart..], Outside(0)).None?
    ensures jsonEnd != -1 ==>
      jsonStart <= jsonEnd < |html| && Remainder(html[jsonStart..], Outside(0)) == Some(html[jsonEnd + 1..])
  {
    var depth, inString, escaped := 0, false, false;
    jsonEnd := -1;
    for i := jsonStart to |html|
      invariant jsonEnd == -1
      invariant Remainder(html[jsonStart..], Outside(0)) == Remainder(html[i..], Mode(depth, inString, escaped))
      invariant if i == jsonStart then depth == 0 && !inString else depth >= 1
    {
      var c := html[i];
      assert html[i..][0] == c && html[i..][1..] == html[i + 1..];
      if inString {
        if escaped {
          escaped := false;
        } else if c == '\\' {
          escaped := true;
        } else if c == '"' {
          inString := false;
        }
      } else if c == '"' {
        inString := true;
      } else if c == '{' {
        depth := depth + 1;
      } else if c == '}' {
        depth := depth - 1;
        if depth == 0 {
          jsonEnd := i;
          return;
        }
      }
    }
  }

  method IndexOfMarker(html: string) returns (i: int)
    ensures i == -1 <==> FirstFrom(html, YT_INITIAL_DATA_MARKER, 0).None?
    ensures i != -1 ==> FirstFrom(html, YT_INITIAL_DATA_MARKER, 0) == Some(i)
  {
    i := 0;
    while i + |YT_INITIAL_DATA_MARKER| <= |html|
      invariant 0 <= i && FirstFrom(html, YT_INITIAL_DATA_MARKER, 0) == FirstFrom(html, YT_INITIAL_DATA_MARKER, i)
    {
      if OccursAt(html, YT_INITIAL_DATA_MARKER, i) {
        return;
      }
      i := i + 1;
    }
    i := -1;
  }

  // ----- inside an object, every value leaves the scanner as it was

  /** Neither a quote nor a brace. */
  predicate IsNeutral(text: string) {
    forall i :: 0 <= i < |text| ==> text[i] != '"' && text[i] != '{' && text[i] != '}'
  }

  lemma {:induction false} NeutralSkipped(text: string, rest: string, depth: int)
    requires IsNeutral(text)
    ensures Remainder(text + rest, Outside(depth)) == Remainder(rest, Outside(depth))
  {
    if text == "" {
      assert text + rest == rest;
    } else {
      NeutralSkipped(text[1..], rest, depth);
      assert (text + rest)[1..] == text[1..] + rest;
    }
  }

  lemma WsSkipped(ws: string, rest: string, depth: int)
    requires IsWs(ws)
    ensures Remainder(ws + rest, Outside(depth)) == Remainder(rest, Outside(depth))
  {
    NeutralSkipped(ws, rest, depth);
  }

  lemma OneSkipped(c: char, rest: string, m: Mode)
    ensures Remainder([c] + rest, m) == if Closes(m, c) then Some(rest) else Remainder(rest, Next(m, c))
  {
    assert ([c] + rest)[1..] == rest;
  }

  /** An escape of two characters hides the second one. */
  lemma EscapeSkipped(e: char, rest: string, depth: int)
    ensures Remainder(['\\', e] + rest, Mode(depth, true, false)) == Remainder(rest, Mode(depth, true, false))
  {
    OneSkipped('\\', [e] + rest, Mode(depth, true, false));
    OneSkipped(e, rest, Mode(depth, true, true));
    assert ['\\', e] + rest == ['\\'] + ([e] + rest);
  }

  /** Characters that are neither a quote nor a backslash. */
  lemma {:induction false} PlainSkipped(text: string, rest: string, depth: int)
    requires forall i :: 0 <= i < |text| ==> text[i] != '"' && text[i] != '\\'
    ensures Remainder(text + rest, Mode(depth, true, false)) == Remainder(rest, Mode(depth, true, false))
  {
    if text == "" {
      assert text + rest == rest;
    } else {
      PlainSkipped(text[1..], rest, depth);
      assert (text + rest)[1..] == text[1..] + rest;
    }
  }

  lemma CharSkipped(c: Char, rest: string, depth: int)
    requires c.Valid()
    ensures Remainder(c.Text() + rest, Mode(depth, true, false)) == Remainder(rest, Mode(depth, true, false))
  {
    match c
    case Plain(p) => PlainSkipped([p], rest, depth);
    case Escaped(e) => EscapeSkipped(e, rest, depth);
    case Unicode(h1, h2, h3, h4) =>
      var hex := [h1, h2, h3, h4];
      EscapeSkipped('u', hex + rest, depth);
      PlainSkipped(hex, rest, depth);
      assert c.Text() + rest == ['\\', 'u'] + (hex + rest);
  }

  lemma {:induction false} CharsSkipped(chars: seq<Char>, rest: string, depth: int)
    requires ValidChars(chars)
    ensures Remainder(CharsThen(chars, rest), Mode(depth, true, false)) == Remainder(rest, Mode(depth, true, false))
  {
    if chars != [] {
      CharSkipped(chars[0], CharsThen(chars[1..], rest), depth);
      CharsSkipped(chars[1..], rest, depth);
    }
  }

  lemma StringSkipped(chars: seq<Char>, rest: string, depth: int)
    requires ValidChars(chars)
    ensures Remainder(StringThen(chars, rest), Outside(depth)) == Remainder(rest, Outside(depth))
  {
    OneSkipped('"', CharsThen(chars, "\"" + rest), Outside(depth));
    CharsSkipped(chars, "\"" + rest, depth);
    OneSkipped('"', rest, Mode(depth, true, false));
  }

  lemma {:induction false} JsonSkipped(j: Json, rest: string, depth: int)
    requires ValidJson(j) && depth >= 1
    ensures Remainder(JsonThen(j, rest), Outside(depth)) == Remainder(rest, Outside(depth))
    decreases j, 1
  {
    match j
    case Literal(name) => NeutralSkipped(name, rest, depth);
    case Number(digits) => NeutralSkipped(digits, rest, depth);
    case String(chars) => StringSkipped(chars, rest, depth);
    case Array(ws, items) => ArraySkipped(ws, items, rest, depth);
    case Object(ws, members) =>
      ObjectSkipped(ws, members, rest, depth);
      OneSkipped('}', rest, Outside(depth + 1));
  }

  lemma {:induction false} ArraySkipped(ws: string, items: Items, rest: string, depth: int)
    requires IsWs(ws) && ValidItems(items) && depth >= 1
    ensures Remainder(JsonThen(Array(ws, items), rest), Outside(depth)) == Remainder(rest, Outside(depth))
    decreases items, 1
  {
    OneSkipped('[', ws + ItemsThen(items, "]" + rest), Outside(depth));
    WsSkipped(ws, ItemsThen(items, "]" + rest), depth);
    ItemsSkipped(items, "]" + rest, depth);
    OneSkipped(']', rest, Outside(depth));
  }

  /** From the opening brace to the point before the closing one. */
  lemma {:induction false} ObjectSkipped(ws: string, members: Members, rest: string, depth: int)
    requires IsWs(ws) && ValidMembers(members) && depth >= 0
    ensures Remainder(JsonThen(Object(ws, members), rest), Outside(depth)) == Remainder("}" + rest, Outside(depth + 1))
    decreases members, 1
  {
    OneSkipped('{', ws + MembersThen(members, "}" + rest), Outside(depth));
    WsSkipped(ws, MembersThen(members, "}" + rest), depth + 1);
    MembersSkipped(members, "}" + rest, depth + 1);
  }

  lemma {:induction false} ItemsSkipped(items: Items, rest: string, depth: int)
    requires ValidItems(items) && depth >= 1
    ensures Remainder(ItemsThen(items, rest), Outside(depth)) == Remainder(rest, Outside(depth))
    decreases items, 0
  {
    if items.Item? {
      var tail := if items.rest.NoItems? then rest else "," + ItemsThen(items.rest, rest);
      WsSkipped(items.before, JsonThen(items.value, items.after + tail), depth);
      JsonSkipped(items.value, items.after + tail, depth);
      WsSkipped(items.after, tail, depth);
      OneSkipped(',', ItemsThen(items.rest, rest), Outside(depth));
      ItemsSkipped(items.rest, rest, depth);
    }
  }

  lemma {:induction false} MembersSkipped(members: Members, rest: string, depth: int)
    requires ValidMembers(members) && depth >= 1
    ensures Remainder(MembersThen(members, rest), Outside(depth)) == Remainder(rest, Outside(depth))
    decreases members, 0
  {
    if members.Member? {
      var tail := if members.rest.NoMembers? then rest else "," + MembersThen(members.rest, rest);
      var value := JsonThen(members.value, members.after + tail);
      var colon := ":" + (members.afterColon + value);
      WsSkipped(members.before, StringThen(members.name, members.beforeColon + colon), depth);
      StringSkipped(members.name, members.beforeColon + colon, depth);
      WsSkipped(members.beforeColon, colon, depth);
      OneSkipped(':', members.afterColon + value, Outside(depth));
      WsSkipped(members.afterColon, value, depth);
      JsonSkipped(members.value, members.after + tail, depth);
      WsSkipped(members.after, tail, depth);
      OneSkipped(',', MembersThen(members.rest, rest), Outside(depth));
      MembersSkipped(members.rest, rest, depth);
    }
  }

  // ----- the theorems

  /** An object in front of any text: exactly that text remains. */
  lemma ObjectCloses(j: Json, rest: string)
    requires j.Object? && ValidJson(j)
    ensures Remainder(JsonThen(j, rest), Outside(0)) == Some(rest)
  {
    ObjectSkipped(j.ws, j.members, rest, 0);
    OneSkipped('}', rest, Outside(1));
  }

  /**
    Exactness: when the first marker of the page is followed by the text of a JSON object, whatever strings, escapes
    and nested values it holds and whatever follows it, exactly that object is cut out.
   */
  lemma ScannerIsExact(before: string, j: Json, rest: string)
    requires j.Object? && ValidJson(j)
    requires FirstFrom(before + YT_INITIAL_DATA_MARKER + Text(j) + rest, YT_INITIAL_DATA_MARKER, 0) == Some(|before|)
    ensures Extracted(before + YT_INITIAL_DATA_MARKER + Text(j) + rest) == Some(Text(j))
  {
    var html := before + YT_INITIAL_DATA_MARKER + Text(j) + rest;
    var text := Text(j) + rest;
    assert html[|before| + |YT_INITIAL_DATA_MARKER|..] == text;
    TextInFront(j, rest);
    ObjectCloses(j, rest);
    assert text[..|text| - |rest|] == Text(j);
    assert text[0] == '{';
  }

  /** A text whose closing brace is its last character never closes before. */
  lemma {:induction false} NoEarlierEnd(text: string, n: nat, m: Mode)
    requires n < |text| && Remainder(text, m) == Some("")
    ensures Remainder(text[..n], m) == None
  {
    if n > 0 {
      assert !Closes(m, text[0]);
      NoEarlierEnd(text[1..], n - 1, Next(m, text[0]));
      assert text[..n][1..] == text[1..][..n - 1];
    }
  }

  /** A page that breaks off within the object gives nothing. */
  lemma TruncatedPageGivesNothing(before: string, j: Json, n: nat)
    requires j.Object? && ValidJson(j) && n < |Text(j)|
    requires FirstFrom(before + YT_INITIAL_DATA_MARKER + Text(j)[..n], YT_INITIAL_DATA_MARKER, 0) == Some(|before|)
    ensures Extracted(before + YT_INITIAL_DATA_MARKER + Text(j)[..n]) == None
  {
    var html := before + YT_INITIAL_DATA_MARKER + Text(j)[..n];
    assert html[|before| + |YT_INITIAL_DATA_MARKER|..] == Text(j)[..n];
    ObjectCloses(j, "");
    NoEarlierEnd(Text(j), n, Outside(0));
  }
}
