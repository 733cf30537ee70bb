/** What the deployment can do about a remembered contact channel
    (src/application/ContactChannelPolicy.cs). Case folding is that of Text; which
    characters count as letters or digits is a parameter, so nothing here depends on it. */
module ContactChannel {
  import opened Wrappers
  import opened Text

  datatype ChannelStatus = NoneStated | Supported | KnownUnavailable | Unsupported

  datatype ChannelDefinition = ChannelDefinition(channel: string, status: ChannelStatus, aliases: seq<string>)

  datatype Assessment = Assessment(status: ChannelStatus, channel: Option<string>)

  type WordChar = char -> bool

  const CONTACT_INTENT_TERMS := [
    "contact", "contacted", "reach me", "reached", "notify", "notified", "notification",
    "update me", "updates", "get in touch", "message me", "let me know"]

  function NormalizeChar(c: char): char {
    if c == '\U{2019}' then '\'' else LowerChar(c)
  }

  function Normalize(value: string): (r: string)
    ensures |r| == |value|
  {
    seq(|value|, i requires 0 <= i < |value| => NormalizeChar(value[i]))
  }

  predicate IsApostrophe(c: char) {
    c == '\'' || c == '\U{2019}'
  }

  /** The same character, up to the case of a letter and the shape of an apostrophe. */
  predicate SameChar(c: char, d: char) {
    c == d || (IsApostrophe(c) && IsApostrophe(d))
    || ('A' <= c <= 'Z' && d as int == c as int + 32) || ('A' <= d <= 'Z' && c as int == d as int + 32)
  }

  lemma CharsFold(c: char, d: char)
    ensures NormalizeChar(c) == NormalizeChar(d) <==> SameChar(c, d)
    ensures 'a' <= c <= 'z' || c == '\'' ==> NormalizeChar(c) == c
  {
  }

  /** Normalisation forgets case and the shape of apostrophes, and nothing else. */
  lemma NormalizeMeaning(one: string, other: string)
    ensures Normalize(one) == Normalize(other) <==> |one| == |other| && forall i | 0 <= i < |one| :: SameChar(one[i], other[i])
    ensures Normalize(Normalize(one)) == Normalize(one)
  {
    forall i | 0 <= i < |one| && |one| == |other|
      ensures Normalize(one)[i] == Normalize(other)[i] <==> SameChar(one[i], other[i])
    {
      CharsFold(one[i], other[i]);
    }
  }

  // ---- ContainsTerm ----

  /** This occurrence has no letter or digit on either side. */
  predicate CleanAt(haystack: string, needle: string, at: int, isWord: WordChar) {
    && OccursAt(haystack, needle, at)
    && (at == 0 || !isWord(haystack[at - 1]))
    && (at + |needle| == |haystack| || !isWord(haystack[at + |needle|]))
  }

  predicate HasWholeTerm(haystack: string, needle: string, isWord: WordChar) {
    needle != "" && exists at | 0 <= at <= |haystack| :: CleanAt(haystack, needle, at, isWord)
  }

  /** haystack.IndexOf(needle, from, Ordinal); -1 when there is none. */
  function IndexOf(haystack: string, needle: string, from: nat): (index: int)
    requires from <= |haystack|
    ensures index == -1 || (from <= index && OccursAt(haystack, needle, index))
    ensures forall at | from <= at && OccursAt(haystack, needle, at) :: 0 <= index <= at
    decreases |haystack| - from
  {
    if OccursAt(haystack, needle, from) then from
    else if from == |haystack| then -1
    else IndexOf(haystack, needle, from + 1)
  }

  /** Whole-word containment. Overlapping occurrences are all tried. */
  method ContainsTerm(haystack: string, needle: string, isWord: WordChar) returns (found: bool)
    ensures found <==> HasWholeTerm(haystack, needle, isWord)
  {
    if |needle| == 0 {
      return false;
    }
    var index := IndexOf(haystack, needle, 0);
    while index >= 0
      invariant index == -1 || OccursAt(haystack, needle, index)
      invariant forall at | CleanAt(haystack, needle, at, isWord) :: 0 <= index <= at
      decreases if index >= 0 then |haystack| - index else -1
    {
      var startsCleanly := index == 0 || !isWord(haystack[index - 1]);
      var endIndex := index + |needle|;
      var endsCleanly := endIndex == |haystack| || !isWord(haystack[endIndex]);
      if startsCleanly && endsCleanly {
        assert CleanAt(haystack, needle, index, isWord);
        return true;
      }
      index := IndexOf(haystack, needle, index + 1);
    }
    return false;
  }

  // ---- Assess ----

  predicate MatchesAlias(preference: string, channel: ChannelDefinition, isWord: WordChar) {
    exists a | 0 <= a < |channel.aliases| ::
      HasWholeTerm(Normalize(preference), Normalize(channel.aliases[a]), isWord)
  }

  /** A non-blank preference that names the channel. */
  predicate Names(preference: string, channel: ChannelDefinition, isWord: WordChar) {
    !IsBlank(preference) && MatchesAlias(preference, channel, isWord)
  }

  predicate MentionsContact(preference: string, isWord: WordChar) {
    !IsBlank(preference)
    && exists t | 0 <= t < |CONTACT_INTENT_TERMS| ::
         HasWholeTerm(Normalize(preference), CONTACT_INTENT_TERMS[t], isWord)
  }

  /** A whole word or phrase of the preference, in any spelling of Normalize. */
  predicate Speaks(preference: string, term: string, isWord: WordChar) {
    HasWholeTerm(Normalize(preference), term, isWord)
  }

  lemma ContactWords(preference: string, isWord: WordChar)
    ensures MentionsContact(preference, isWord) <==>
              && !IsBlank(preference)
              && (|| Speaks(preference, "contact", isWord) || Speaks(preference, "contacted", isWord)
                  || Speaks(preference, "reach me", isWord) || Speaks(preference, "reached", isWord)
                  || Speaks(preference, "notify", isWord) || Speaks(preference, "notified", isWord)
                  || Speaks(preference, "notification", isWord) || Speaks(preference, "update me", isWord)
                  || Speaks(preference, "updates", isWord) || Speaks(preference, "get in touch", isWord)
                  || Speaks(preference, "message me", isWord) || Speaks(preference, "let me know", isWord))
  {
    var t := CONTACT_INTENT_TERMS;
    assert t[0] == "contact" && t[1] == "contacted" && t[2] == "reach me" && t[3] == "reached" && t[4] == "notify";
    assert t[5] == "notified" && t[6] == "notification" && t[7] == "update me" && t[8] == "updates";
    assert t[9] == "get in touch" && t[10] == "message me" && t[11] == "let me know";
  }

  /** The first channel the preference names, in configuration order. */
  function FirstNamed(preference: string, channels: seq<ChannelDefinition>, isWord: WordChar): Option<ChannelDefinition> {
    if channels == [] then None
    else if Names(preference, channels[0], isWord) then Some(channels[0])
    else FirstNamed(preference, channels[1..], isWord)
  }

  /** The assessment, preference by preference. */
  function AssessFrom(preferences: seq<string>, channels: seq<ChannelDefinition>, mentioned: bool, isWord: WordChar): Assessment {
    if preferences == [] then
      if mentioned then Assessment(Unsupported, None) else Assessment(NoneStated, None)
    else
      var named := FirstNamed(preferences[0], channels, isWord);
      if named.Some? then Assessment(named.value.status, Some(named.value.channel))
      else AssessFrom(preferences[1..], channels, mentioned || MentionsContact(preferences[0], isWord), isWord)
  }

  function AssessOf(preferences: seq<string>, channels: seq<ChannelDefinition>, isWord: WordChar): Assessment {
    AssessFrom(preferences, channels, false, isWord)
  }

  method FindAlias(normalized: string, channel: ChannelDefinition, isWord: WordChar) returns (found: bool)
    ensures found <==> exists a | 0 <= a < |channel.aliases| ::
              HasWholeTerm(normalized, Normalize(channel.aliases[a]), isWord)
  {
    for a := 0 to |channel.aliases|
      invariant forall b | 0 <= b < a :: !HasWholeTerm(normalized, Normalize(channel.aliases[b]), isWord)
    {
      var hit := ContainsTerm(normalized, Normalize(channel.aliases[a]), isWord);
      if hit {
        return true;
      }
    }
    return false;
  }

  method FindIntent(normalized: string, isWord: WordChar) returns (found: bool)
    ensures found <==> exists t | 0 <= t < |CONTACT_INTENT_TERMS| ::
              HasWholeTerm(normalized, CONTACT_INTENT_TERMS[t], isWord)
  {
    var terms := CONTACT_INTENT_TERMS;
    for t := 0 to |terms|
      invariant forall u | 0 <= u < t :: !HasWholeTerm(normalized, terms[u], isWord)
    {
      var hit := ContainsTerm(normalized, terms[t], isWord);
      if hit {
        return true;
      }
    }
    return false;
  }

  method Assess(preferences: seq<string>, channels: seq<ChannelDefinition>, isWord: WordChar) returns (assessment: Assessment)
    ensures assessment == AssessOf(preferences, channels, isWord)
  {
    var mentionsContact := false;
    for p := 0 to |preferences|
      invariant AssessOf(preferences, channels, isWord)
             == AssessFrom(preferences[p..], channels, mentionsContact, isWord)
    {
      var preference := preferences[p];
      if !IsBlank(preference) {
        var normalized := Normalize(preference);
        var intent := FindIntent(normalized, isWord);
        for c := 0 to |channels|
          invariant FirstNamed(preference, channels, isWord) == FirstNamed(preference, channels[c..], isWord)
        {
          var hit := FindAlias(normalized, channels[c], isWord);
          if hit {
            return Assessment(channels[c].status, Some(channels[c].channel));
          }
        }
        mentionsContact := mentionsContact || intent;
      } else {
        NoneNamed(preference, channels, isWord);
      }
    }
    assessment := if mentionsContact then Assessment(Unsupported, None) else Assessment(NoneStated, None);
  }

  // ---- what the assessment means ----

  lemma {:induction false} NoneNamed(preference: string, channels: seq<ChannelDefinition>, isWord: WordChar)
    requires IsBlank(preference)
    ensures FirstNamed(preference, channels, isWord) == None
  {
    if channels != [] {
      NoneNamed(preference, channels[1..], isWord);
    }
  }

  /** FirstNamed is the least index that matches. */
  lemma {:induction false} FirstNamedIsLeast(preference: string, channels: seq<ChannelDefinition>, isWord: WordChar)
    ensures FirstNamed(preference, channels, isWord).None?
            <==> forall c | 0 <= c < |channels| :: !Names(preference, channels[c], isWord)
    ensures forall c | 0 <= c < |channels| && Names(preference, channels[c], isWord)
                       && (forall b | 0 <= b < c :: !Names(preference, channels[b], isWord)) ::
              FirstNamed(preference, channels, isWord) == Some(channels[c])
  {
    if channels != [] {
      FirstNamedIsLeast(preference, channels[1..], isWord);
      forall c | 0 <= c < |channels| && Names(preference, channels[c], isWord)
                 && (forall b | 0 <= b < c :: !Names(preference, channels[b], isWord))
        ensures FirstNamed(preference, channels, isWord) == Some(channels[c])
      {
        if c > 0 {
          assert channels[1..][c - 1] == channels[c];
          forall b | 0 <= b < c - 1
            ensures !Names(preference, channels[1..][b], isWord)
          {
            assert channels[1..][b] == channels[b + 1];
          }
        }
      }
      if FirstNamed(preference, channels, isWord).None? {
        forall c | 0 <= c < |channels|
          ensures !Names(preference, channels[c], isWord)
        {
          if c > 0 {
            assert channels[1..][c - 1] == channels[c];
          }
        }
      }
    }
  }

  /** (p, c) is the first match in preference order, then channel order. */
  ghost predicate IsFirstMatch(preferences: seq<string>, channels: seq<ChannelDefinition>, isWord: WordChar, p: nat, c: nat) {
    && p < |preferences| && c < |channels|
    && Names(preferences[p], channels[c], isWord)
    && (forall q, d | 0 <= q < p && 0 <= d < |channels| :: !Names(preferences[q], channels[d], isWord))
    && (forall d | 0 <= d < c :: !Names(preferences[p], channels[d], isWord))
  }

  ghost predicate NothingNamed(preferences: seq<string>, channels: seq<ChannelDefinition>, isWord: WordChar) {
    forall p, c | 0 <= p < |preferences| && 0 <= c < |channels| :: !Names(preferences[p], channels[c], isWord)
  }

  /** The first match in (preference, channel) order decides. */
  lemma {:induction false} FirstMatchDecides(preferences: seq<string>, channels: seq<ChannelDefinition>, mentioned: bool, isWord: WordChar, p: nat, c: nat)
    requires IsFirstMatch(preferences, channels, isWord, p, c)
    ensures AssessFrom(preferences, channels, mentioned, isWord) == Assessment(channels[c].status, Some(channels[c].channel))
    decreases |preferences|
  {
    FirstNamedIsLeast(preferences[0], channels, isWord);
    if p > 0 {
      var rest := preferences[1..];
      assert rest[p - 1] == preferences[p];
      assert forall q | 0 <= q < p - 1 :: rest[q] == preferences[q + 1];
      FirstMatchDecides(rest, channels, mentioned || MentionsContact(preferences[0], isWord), isWord, p - 1, c);
    }
  }

  /** With nothing named, only a preference about contact earns a refusal. */
  lemma {:induction false} NothingNamedDecides(preferences: seq<string>, channels: seq<ChannelDefinition>, mentioned: bool, isWord: WordChar)
    requires NothingNamed(preferences, channels, isWord)
    ensures AssessFrom(preferences, channels, mentioned, isWord)
         == if mentioned || exists p | 0 <= p < |preferences| :: MentionsContact(preferences[p], isWord)
            then Assessment(Unsupported, None) else Assessment(NoneStated, None)
    decreases |preferences|
  {
    if preferences != [] {
      var rest := preferences[1..];
      assert forall q | 0 <= q < |rest| :: rest[q] == preferences[q + 1];
      FirstNamedIsLeast(preferences[0], channels, isWord);
      NothingNamedDecides(rest, channels, mentioned || MentionsContact(preferences[0], isWord), isWord);
      if p :| 0 <= p < |preferences| && MentionsContact(preferences[p], isWord) {
        assert p == 0 || MentionsContact(rest[p - 1], isWord);
      }
      if q :| 0 <= q < |rest| && MentionsContact(rest[q], isWord) {
        assert MentionsContact(preferences[q + 1], isWord);
      }
    }
  }

  /** The code's refusal without a channel name means exactly: nothing named, contact mentioned. */
  lemma UnnamedRefusal(preferences: seq<string>, channels: seq<ChannelDefinition>, isWord: WordChar)
    ensures AssessOf(preferences, channels, isWord) == Assessment(Unsupported, None)
            <==> NothingNamed(preferences, channels, isWord)
                 && exists p | 0 <= p < |preferences| :: MentionsContact(preferences[p], isWord)
  {
    if NothingNamed(preferences, channels, isWord) {
      NothingNamedDecides(preferences, channels, false, isWord);
    } else {
      var p, c := SomeFirstMatch(preferences, channels, isWord);
      FirstMatchDecides(preferences, channels, false, isWord, p, c);
    }
  }

  lemma {:induction false} LeastNamed(preference: string, channels: seq<ChannelDefinition>, isWord: WordChar, upTo: nat) returns (c: nat)
    requires upTo < |channels| && Names(preference, channels[upTo], isWord)
    ensures c <= upTo && Names(preference, channels[c], isWord)
    ensures forall d | 0 <= d < c :: !Names(preference, channels[d], isWord)
    decreases upTo
  {
    if d :| 0 <= d < upTo && Names(preference, channels[d], isWord) {
      c := LeastNamed(preference, channels, isWord, d);
    } else {
      c := upTo;
    }
  }

  lemma {:induction false} SomeFirstMatch(preferences: seq<string>, channels: seq<ChannelDefinition>, isWord: WordChar)
    returns (p: nat, c: nat)
    requires !NothingNamed(preferences, channels, isWord)
    ensures IsFirstMatch(preferences, channels, isWord, p, c)
    decreases |preferences|
  {
    if d :| 0 <= d < |channels| && Names(preferences[0], channels[d], isWord) {
      p := 0;
      c := LeastNamed(preferences[0], channels, isWord, d);
    } else {
      var rest := preferences[1..];
      var q, e :| 0 <= q < |preferences| && 0 <= e < |channels| && Names(preferences[q], channels[e], isWord);
      assert Names(rest[q - 1], channels[e], isWord);
      p, c := SomeFirstMatch(rest, channels, isWord);
      forall r, f | 0 <= r < p + 1 && 0 <= f < |channels|
        ensures !Names(preferences[r], channels[f], isWord)
      {
        assert r == 0 || preferences[r] == rest[r - 1];
      }
      p := p + 1;
    }
  }

  /** Exactly when a preference is refused as unsupported. A channel configured with
      that status refuses too, so a refusal does not by itself mean that no configured
      channel was named. */
  lemma UnsupportedExactly(preferences: seq<string>, channels: seq<ChannelDefinition>, isWord: WordChar)
    ensures AssessOf(preferences, channels, isWord).status == Unsupported
            <==> (NothingNamed(preferences, channels, isWord)
                  && exists p | 0 <= p < |preferences| :: MentionsContact(preferences[p], isWord))
                 || exists p: nat, c: nat :: IsFirstMatch(preferences, channels, isWord, p, c) && channels[c].status == Unsupported
  {
    if NothingNamed(preferences, channels, isWord) {
      NothingNamedDecides(preferences, channels, false, isWord);
    } else {
      var p, c := SomeFirstMatch(preferences, channels, isWord);
      FirstMatchDecides(preferences, channels, false, isWord, p, c);
      if q: nat, d: nat :| IsFirstMatch(preferences, channels, isWord, q, d) && channels[d].status == Unsupported {
        FirstMatchDecides(preferences, channels, false, isWord, q, d);
      }
    }
  }

  /** A refusal although a configured channel is named. */
  lemma ConfiguredRefusal(isWord: WordChar)
    ensures var channels := [ChannelDefinition("fax", Unsupported, ["fax"])];
            AssessOf(["fax"], channels, isWord).status == Unsupported && !NothingNamed(["fax"], channels, isWord)
  {
    var fax := ChannelDefinition("fax", Unsupported, ["fax"]);
    assert Normalize("fax") == "fax";
    assert CleanAt("fax", "fax", 0, isWord);
    assert HasWholeTerm("fax", Normalize(fax.aliases[0]), isWord);
    assert !IsBlank("fax") by { assert !IsSpace("fax"[0]); }
    assert Names("fax", fax, isWord);
    assert IsFirstMatch(["fax"], [fax], isWord, 0, 0);
    FirstMatchDecides(["fax"], [fax], false, isWord, 0, 0);
  }
}
