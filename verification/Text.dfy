/** Strings as the C# and Python code compares them: ordinal, with case folding
    on the ASCII letters. */
module Text {
  function LowerChar(c: char): (r: char)
    ensures !('A' <= r <= 'Z')
  {
    if 'A' <= c <= 'Z' then (c as int + 32) as char else c
  }

  function Lower(s: string): (r: string)
    ensures |r| == |s|
    ensures forall i | 0 <= i < |s| :: r[i] == LowerChar(s[i])
  {
    seq(|s|, i requires 0 <= i < |s| => LowerChar(s[i]))
  }

  predicate IsLower(s: string) {
    forall i | 0 <= i < |s| :: !('A' <= s[i] <= 'Z')
  }

  /** String.Equals(a, b, OrdinalIgnoreCase). */
  predicate EqualsIgnoreCase(a: string, b: string) {
    Lower(a) == Lower(b)
  }

  /** Unicode white space, as char.IsWhiteSpace reports it. */
  predicate IsSpace(c: char) {
    '\t' <= c <= '\r' || c == ' ' || c == '\U{85}' || c == '\U{A0}' || c == '\U{1680}'
    || '\U{2000}' <= c <= '\U{200A}' || c == '\U{2028}' || c == '\U{2029}' || c == '\U{202F}'
    || c == '\U{205F}' || c == '\U{3000}'
  }

  /** string.IsNullOrWhiteSpace on a string that is present. */
  predicate IsBlank(s: string) {
    forall i | 0 <= i < |s| :: IsSpace(s[i])
  }

  function TrimStart(s: string): string {
    if s != [] && IsSpace(s[0]) then TrimStart(s[1..]) else s
  }

  function TrimEnd(s: string): string {
    if s != [] && IsSpace(s[|s| - 1]) then TrimEnd(s[..|s| - 1]) else s
  }

  function Trim(s: string): string {
    TrimEnd(TrimStart(s))
  }

  predicate OccursAt(text: string, term: string, at: int) {
    0 <= at <= |text| - |term| && text[at..at + |term|] == term
  }

  predicate Contains(text: string, term: string) {
    exists at | 0 <= at <= |text| :: OccursAt(text, term, at)
  }

  /** text.Contains(term, OrdinalIgnoreCase). */
  predicate ContainsIgnoreCase(text: string, term: string) {
    Contains(Lower(text), Lower(term))
  }

  predicate ContainsAny(text: string, terms: seq<string>) {
    exists k | 0 <= k < |terms| :: Contains(text, terms[k])
  }

  predicate ContainsAnyIgnoreCase(text: string, terms: seq<string>) {
    exists k | 0 <= k < |terms| :: ContainsIgnoreCase(text, terms[k])
  }

  lemma LowerFixesLower(s: string)
    requires IsLower(s)
    ensures Lower(s) == s
  {
  }

  /** A term inside a part of the text is inside the text. */
  lemma ContainsTransitive(text: string, part: string, term: string)
    requires Contains(text, part) && Contains(part, term)
    ensures Contains(text, term)
  {
    var i :| 0 <= i <= |text| && OccursAt(text, part, i);
    var j :| 0 <= j <= |part| && OccursAt(part, term, j);
    forall k | 0 <= k < |term|
      ensures text[i + j + k] == term[k]
    {
      assert part[j..j + |term|][k] == part[j + k] == text[i..i + |part|][j + k];
    }
    assert OccursAt(text, term, i + j);
  }

  /** The capital letters move to their small counterparts, every other character stays. */
  lemma LowerCharMeaning(c: char)
    ensures 'A' <= c <= 'Z' ==> 'a' <= LowerChar(c) <= 'z' && LowerChar(c) as int - 'a' as int == c as int - 'A' as int
    ensures !('A' <= c <= 'Z') ==> LowerChar(c) == c
  {
  }

  lemma {:induction false} TrimStartMeaning(s: string) returns (i: nat)
    ensures i <= |s| && TrimStart(s) == s[i..] && IsBlank(s[..i])
    ensures TrimStart(s) != "" ==> !IsSpace(TrimStart(s)[0])
  {
    if s != [] && IsSpace(s[0]) {
      var j := TrimStartMeaning(s[1..]);
      i := j + 1;
      assert s[1..][j..] == s[i..];
      assert s[..i] == [s[0]] + s[1..][..j];
    } else {
      i := 0;
    }
  }

  lemma {:induction false} TrimEndMeaning(s: string) returns (j: nat)
    ensures j <= |s| && TrimEnd(s) == s[..j] && IsBlank(s[j..])
    ensures TrimEnd(s) != "" ==> !IsSpace(TrimEnd(s)[|TrimEnd(s)| - 1])
  {
    if s != [] && IsSpace(s[|s| - 1]) {
      j := TrimEndMeaning(s[..|s| - 1]);
      assert s[..|s| - 1][..j] == s[..j];
      assert s[j..] == s[..|s| - 1][j..] + [s[|s| - 1]];
    } else {
      j := |s|;
    }
  }

  /** Trim cuts white space off both ends, all of it, and nothing else. */
  lemma TrimMeaning(s: string) returns (i: nat, j: nat)
    ensures i <= j <= |s| && Trim(s) == s[i..j]
    ensures IsBlank(s[..i]) && IsBlank(s[j..])
    ensures Trim(s) != "" ==> !IsSpace(Trim(s)[0]) && !IsSpace(Trim(s)[|Trim(s)| - 1])
    ensures Trim(s) == "" <==> IsBlank(s)
  {
    i := TrimStartMeaning(s);
    var rest := TrimStart(s);
    var k := TrimEndMeaning(rest);
    j := i + k;
    assert rest[..k] == s[i..j] && rest[k..] == s[j..];
    if Trim(s) == "" {
      assert s == s[..i] + s[j..];
    } else {
      assert rest[0] == s[i..j][0] && s[i] == rest[0];
    }
  }

  lemma BlankHoldsNotAt(text: string, term: string, at: nat)
    requires IsBlank(text) && term != "" && !IsSpace(LowerChar(term[0]))
    ensures !OccursAt(Lower(text), Lower(term), at)
  {
    if at + |term| <= |text| {
      assert IsSpace(text[at]);
      assert LowerChar(text[at]) != LowerChar(term[0]);
      assert Lower(text)[at..at + |term|][0] != Lower(term)[0];
    }
  }

  /** A blank text holds no term that starts with a visible character. */
  lemma BlankHoldsNothing(text: string, term: string)
    requires IsBlank(text) && term != "" && !IsSpace(LowerChar(term[0]))
    ensures !ContainsIgnoreCase(text, term)
  {
    forall at | 0 <= at <= |Lower(text)|
      ensures !OccursAt(Lower(text), Lower(term), at)
    {
      BlankHoldsNotAt(text, term, at);
    }
  }
}
