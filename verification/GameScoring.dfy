/** Points, and the comparison of chat messages with answers. */
module GameScoring {

  /** Points of the correct answer number `rank`, counted from 0. */
  function PointsForRank(rank: nat): (points: nat)
    ensures 1 <= points <= 6
  {
    if rank == 0 then 6 else if rank == 1 then 4 else if rank == 2 then 3 else 1
  }

  /** The characters that the regular expression class `\\s` and `trim` remove. */
  predicate IsSpace(c: char) {
    || c == ' ' || c == '\t' || c == '\n' || c == '\r' || c == '\U{0b}' || c == '\U{0c}' || c == '\U{a0}'
      || c == '\U{feff}'
    || c == '\U{1680}' || '\U{2000}' <= c <= '\U{200a}' || c == '\U{2028}' || c == '\U{2029}' || c == '\U{202f}'
    || c == '\U{205f}' || c == '\U{3000}'
  }

  /** Case folding of the ASCII letters. */
  function Lower(c: char): (l: char)
    ensures IsSpace(l) <==> IsSpace(c)
    ensures !('A' <= l <= 'Z')
  {
    if 'A' <= c <= 'Z' then c - 'A' + 'a' else c
  }

  function TrimStart(text: string): (t: string) {
    if text != "" && IsSpace(text[0]) then TrimStart(text[1..]) else text
  }

  function TrimEnd(text: string): (t: string) {
    if text != "" && IsSpace(text[|text| - 1]) then TrimEnd(text[..|text| - 1]) else text
  }

  function LowerAll(text: string): (t: string) {
    if text == "" then "" else [Lower(text[0])] + LowerAll(text[1..])
  }

  function RemoveSpaces(text: string): (t: string)
    ensures forall c :: c in t ==> !IsSpace(c)
  {
    if text == "" then "" else if IsSpace(text[0]) then RemoveSpaces(text[1..]) else [text[0]] + RemoveSpaces(text[1..])
  }

  /** Trim, lower case, drop all white space. */
  function NormalizeAnswer(text: string): (t: string) {
    RemoveSpaces(LowerAll(TrimEnd(TrimStart(text))))
  }

  /** Removing white space distributes over concatenation, and so does lower case. */
  lemma {:induction false} NormalJoin(a: string, b: string)
    ensures RemoveSpaces(LowerAll(a + b)) == RemoveSpaces(LowerAll(a)) + RemoveSpaces(LowerAll(b))
  {
    if a == "" {
      assert a + b == b;
    } else {
      NormalJoin(a[1..], b);
      assert (a + b)[1..] == a[1..] + b;
    }
  }

  /** The leading and trailing white space would go anyway. */
  lemma TrimIsRedundant(text: string)
    ensures NormalizeAnswer(text) == RemoveSpaces(LowerAll(text))
  {
    TrimStartIsRedundant(text);
    TrimEndIsRedundant(TrimStart(text));
  }

  lemma {:induction false} TrimStartIsRedundant(text: string)
    ensures RemoveSpaces(LowerAll(TrimStart(text))) == RemoveSpaces(LowerAll(text))
  {
    if text != "" && IsSpace(text[0]) {
      TrimStartIsRedundant(text[1..]);
    }
  }

  lemma {:induction false} TrimEndIsRedundant(text: string)
    ensures RemoveSpaces(LowerAll(TrimEnd(text))) == RemoveSpaces(LowerAll(text))
  {
    if text != "" && IsSpace(text[|text| - 1]) {
      var front := text[..|text| - 1];
      TrimEndIsRedundant(front);
      assert text == front + [text[|text| - 1]];
      NormalJoin(front, [text[|text| - 1]]);
    }
  }

  lemma SpaceVanishes(space: char)
    requires IsSpace(space)
    ensures RemoveSpaces(LowerAll([space])) == ""
  {
    assert LowerAll([space]) == [Lower(space)];
  }

  /** White space and letter case never decide: inserting a white space character anywhere changes nothing. */
  lemma SpacingIsIgnored(a: string, space: char, b: string)
    requires IsSpace(space)
    ensures NormalizeAnswer(a + [space] + b) == NormalizeAnswer(a + b)
  {
    TrimIsRedundant(a + [space] + b);
    TrimIsRedundant(a + b);
    NormalJoin(a + [space], b);
    NormalJoin(a, [space]);
    SpaceVanishes(space);
    NormalJoin(a, b);
  }

  /** Normalising twice is normalising once. */
  lemma {:induction false} NormalizeIsIdempotent(text: string)
    ensures NormalizeAnswer(NormalizeAnswer(text)) == NormalizeAnswer(text)
  {
    TrimIsRedundant(text);
    TrimIsRedundant(NormalizeAnswer(text));
    NormalFormIsStable(text);
  }

  lemma {:induction false} NormalFormIsStable(text: string)
    ensures var n := RemoveSpaces(LowerAll(text)); RemoveSpaces(LowerAll(n)) == n
  {
    if text != "" {
      NormalFormIsStable(text[1..]);
    }
  }

  predicate OccursAt(hay: string, needle: string, i: nat) {
    i + |needle| <= |hay| && hay[i..i + |needle|] == needle
  }

  /** `hay.includes(needle)`. */
  ghost predicate Includes(hay: string, needle: string) {
    exists i :: OccursAt(hay, needle, i)
  }

  datatype Verdict = Unrelated | Spoiler | Exact

  /** The message is this answer up to case and white space; an answer that normalises to nothing never counts. */
  predicate Equals(answer: string, message: string) {
    NormalizeAnswer(answer) != "" && NormalizeAnswer(answer) == NormalizeAnswer(message)
  }

  /** The message gives this answer away. */
  ghost predicate GivesAway(answer: string, message: string) {
    NormalizeAnswer(answer) != "" && Includes(NormalizeAnswer(message), NormalizeAnswer(answer))
  }

  ghost predicate IsExact(answers: seq<string>, message: string) {
    exists k :: 0 <= k < |answers| && Equals(answers[k], message)
  }

  ghost predicate Spoils(answers: seq<string>, message: string) {
    exists k :: 0 <= k < |answers| && GivesAway(answers[k], message)
  }

  ghost function Judge(answers: seq<string>, message: string): Verdict {
    if IsExact(answers, message) then Exact else if Spoils(answers, message) then Spoiler else Unrelated
  }

  /** A message that is the answer gives it away. */
  lemma EqualGivesAway(answer: string, message: string)
    requires Equals(answer, message)
    ensures GivesAway(answer, message)
  {
    assert OccursAt(NormalizeAnswer(message), NormalizeAnswer(answer), 0);
  }

  /** Whatever stands before and after it, an answer that is not blank is given away by a message that contains it. */
  lemma ContainedIsGivenAway(before: string, answer: string, after: string)
    requires NormalizeAnswer(answer) != ""
    ensures GivesAway(answer, before + answer + after)
  {
    TrimIsRedundant(answer);
    TrimIsRedundant(before + answer + after);
    NormalJoin(before + answer, after);
    NormalJoin(before, answer);
    assert OccursAt(NormalizeAnswer(before + answer + after), NormalizeAnswer(answer),
                    |RemoveSpaces(LowerAll(before))|);
  }

  /** The three verdicts in terms of the single answers. */
  lemma JudgeDecides(answers: seq<string>, message: string)
    ensures Judge(answers, message).Exact? <==> exists k :: 0 <= k < |answers| && Equals(answers[k], message)
    ensures Judge(answers, message).Unrelated? <==>
      forall k :: 0 <= k < |answers| ==> !GivesAway(answers[k], message)
  {
    forall k | 0 <= k < |answers| && Equals(answers[k], message) ensures GivesAway(answers[k], message) {
      EqualGivesAway(answers[k], message);
    }
  }

  method ComputeIncludes(hay: string, needle: string) returns (found: bool)
    ensures found == Includes(hay, needle)
  {
    found := false;
    var i := 0;
    while i + |needle| <= |hay| && !found
      invariant !found ==> forall k :: 0 <= k < i ==> !OccursAt(hay, needle, k)
      invariant found ==> Includes(hay, needle)
    {
      found := OccursAt(hay, needle, i);
      i := i + 1;
    }
  }

  method JudgeMessage(answers: seq<string>, message: string) returns (v: Verdict)
    ensures v == Judge(answers, message)
  {
    var exact, contains := false, false;
    for i := 0 to |answers|
      invariant exact == IsExact(answers[..i], message)
      invariant contains == Spoils(answers[..i], message)
    {
      var equal, included := CompareAnswer(answers[i], message);
      OneMoreAnswer(answers[..i], answers[i], message);
      assert answers[..i + 1] == answers[..i] + [answers[i]];
      exact, contains := exact || equal, contains || included;
    }
    assert answers[..|answers|] == answers;
    return if exact then Exact else if contains then Spoiler else Unrelated;
  }

  lemma OneMoreAnswer(answers: seq<string>, answer: string, message: string)
    ensures IsExact(answers + [answer], message) == (IsExact(answers, message) || Equals(answer, message))
    ensures Spoils(answers + [answer], message) == (Spoils(answers, message) || GivesAway(answer, message))
  {
    var more := answers + [answer];
    assert more[|answers|] == answer;
    assert forall k :: 0 <= k < |answers| ==> more[k] == answers[k];
  }

  method CompareAnswer(answer: string, message: string) returns (equal: bool, included: bool)
    ensures equal == Equals(answer, message) && included == GivesAway(answer, message)
  {
    var normalized := NormalizeAnswer(answer);
    if normalized == "" {
      return false, false;
    }
    included := ComputeIncludes(NormalizeAnswer(message), normalized);
    equal := normalized == NormalizeAnswer(message);
  }
}
