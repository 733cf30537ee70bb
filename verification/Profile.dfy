/** Reading one customer's remembered preferences
    (src/infrastructure/CustomerProfileClient.cs and the orchestrator's profile step). */
module Profile {
  import opened Wrappers
  import opened Text
  import opened Json

  datatype Memory = Memory(kind: string, content: string, scope: string)

  datatype ProfileReply = ProfileReply(text: seq<string>, tools: seq<string>, memories: seq<Memory>, scope: Option<string>)

  // ---- EnforceScope and SelectPreferences ----

  function Filter<T>(items: seq<T>, keep: T -> bool): (r: seq<T>)
    ensures forall x | x in r :: x in items && keep(x)
    ensures forall x | x in items && keep(x) :: x in r
  {
    if items == [] then []
    else (if keep(items[0]) then [items[0]] else []) + Filter(items[1..], keep)
  }

  /** Drops memories that came back under another scope. */
  function EnforceScope(reply: ProfileReply, scope: string): ProfileReply {
    reply.(memories := Filter(reply.memories, (m: Memory) => m.scope == scope), scope := Some(scope))
  }

  /** Distinct(OrdinalIgnoreCase) over the trimmed contents: the first spelling stays. */
  function DistinctTrimmed(memories: seq<Memory>, seen: seq<string>): (r: seq<string>)
    ensures seen <= r
    decreases |memories|
  {
    if memories == [] then seen
    else
      var content := Trim(memories[0].content);
      DistinctTrimmed(memories[1..],
        if Seen(seen, content) then seen else seen + [content])
  }

  const PROFILE_KIND := "user_profile"

  predicate HasContent(memory: Memory) {
    !IsBlank(memory.content)
  }

  predicate IsProfileEntry(memory: Memory) {
    EqualsIgnoreCase(memory.kind, PROFILE_KIND)
  }

  function SelectPreferences(memories: seq<Memory>): seq<string> {
    var stored := Filter(memories, HasContent);
    var entries := Filter(stored, IsProfileEntry);
    DistinctTrimmed(if |entries| > 0 then entries else stored, [])
  }

  /** What the profile client answers the orchestrator's profile step. */
  datatype ProfileAnswer = NotConfigured | LookupFailed | Replied(reply: ProfileReply)

  /** ExecuteProfileStepAsync, fail-open: the preferences the rest of the run sees. */
  function Recall(customerId: Option<string>, answer: ProfileAnswer): seq<string> {
    if customerId.None? || IsBlank(customerId.value) then []
    else match answer
      case NotConfigured => []
      case LookupFailed => []
      case Replied(reply) => SelectPreferences(EnforceScope(reply, Trim(customerId.value)).memories)
  }

  ghost predicate DistinctIgnoringCase(items: seq<string>) {
    forall i, j | 0 <= i < j < |items| :: !EqualsIgnoreCase(items[i], items[j])
  }

  predicate Seen(items: seq<string>, content: string) {
    exists k | 0 <= k < |items| :: EqualsIgnoreCase(items[k], content)
  }

  lemma {:induction false} DistinctTrimmedIsDistinct(memories: seq<Memory>, seen: seq<string>)
    requires DistinctIgnoringCase(seen)
    ensures DistinctIgnoringCase(DistinctTrimmed(memories, seen))
    decreases |memories|
  {
    if memories != [] {
      var content := Trim(memories[0].content);
      DistinctTrimmedIsDistinct(memories[1..], if Seen(seen, content) then seen else seen + [content]);
    }
  }

  lemma {:induction false} DistinctTrimmedIsSound(memories: seq<Memory>, seen: seq<string>, p: string)
    requires p in DistinctTrimmed(memories, seen)
    ensures p in seen || exists m :: m in memories && p == Trim(m.content)
    decreases |memories|
  {
    if memories != [] {
      var content := Trim(memories[0].content);
      assert memories[0] in memories;
      DistinctTrimmedIsSound(memories[1..], if Seen(seen, content) then seen else seen + [content], p);
    }
  }

  lemma SeenInLonger(short: seq<string>, long: seq<string>, content: string)
    requires short <= long && Seen(short, content)
    ensures Seen(long, content)
  {
    var k :| 0 <= k < |short| && EqualsIgnoreCase(short[k], content);
    assert long[k] == short[k];
  }

  /** Nothing stored is lost: each memory survives in some spelling. */
  lemma {:induction false} DistinctTrimmedIsComplete(memories: seq<Memory>, seen: seq<string>, m: Memory)
    requires m in memories
    ensures Seen(DistinctTrimmed(memories, seen), Trim(m.content))
    decreases |memories|
  {
    var content := Trim(memories[0].content);
    var next := if Seen(seen, content) then seen else seen + [content];
    if m == memories[0] {
      assert next[|next| - 1] == content || Seen(seen, content);
      assert Seen(next, content);
      SeenInLonger(next, DistinctTrimmed(memories[1..], next), content);
    } else {
      DistinctTrimmedIsComplete(memories[1..], next, m);
    }
  }

  /** Two replies that agree on the customer's own scope hand over the same list,
      whatever else either of them carries. */
  lemma RecallIsolated(customerId: string, one: ProfileReply, other: ProfileReply)
    requires !IsBlank(customerId)
    requires Filter(one.memories, (m: Memory) => m.scope == Trim(customerId))
          == Filter(other.memories, (m: Memory) => m.scope == Trim(customerId))
    ensures Recall(Some(customerId), Replied(one)) == Recall(Some(customerId), Replied(other))
  {
    var scope := Trim(customerId);
    assert EnforceScope(one, scope).memories == EnforceScope(other, scope).memories;
  }

  /** Every preference is some memory of exactly that customer, trimmed, and no two
      preferences differ only in case. */
  lemma RecallComesFromScope(customerId: Option<string>, answer: ProfileAnswer)
    ensures DistinctIgnoringCase(Recall(customerId, answer))
    ensures forall p | p in Recall(customerId, answer) ::
              && customerId.Some? && !IsBlank(customerId.value) && answer.Replied?
              && exists m :: m in answer.reply.memories && m.scope == Trim(customerId.value) && p == Trim(m.content)
  {
    if customerId.Some? && !IsBlank(customerId.value) && answer.Replied? {
      var kept := EnforceScope(answer.reply, Trim(customerId.value)).memories;
      var stored := Filter(kept, HasContent);
      var entries := Filter(stored, IsProfileEntry);
      var selected := if |entries| > 0 then entries else stored;
      DistinctTrimmedIsDistinct(selected, []);
      forall p | p in Recall(customerId, answer)
        ensures exists m :: m in answer.reply.memories && m.scope == Trim(customerId.value) && p == Trim(m.content)
      {
        DistinctTrimmedIsSound(selected, [], p);
        var m :| m in selected && p == Trim(m.content);
        assert m in kept;
      }
    }
  }

  // ---- exactly which memories ----

  /** This memory is one of the customer's with something in it, and a profile entry unless
      the customer has none. */
  predicate Taken(memories: seq<Memory>, scope: string, i: nat) {
    && i < |memories| && OwnContent(memories[i], scope)
    && (EqualsIgnoreCase(memories[i].kind, "user_profile")
        || forall j | 0 <= j < |memories| && OwnContent(memories[j], scope) :: !EqualsIgnoreCase(memories[j].kind, "user_profile"))
  }

  /** Taken, and the first of its spellings among the taken ones. */
  predicate Stays(memories: seq<Memory>, scope: string, i: nat) {
    Taken(memories, scope, i)
    && forall h | 0 <= h < i && Taken(memories, scope, h) :: !EqualsIgnoreCase(Trim(memories[h].content), Trim(memories[i].content))
  }

  predicate OwnContent(memory: Memory, scope: string) {
    memory.scope == scope && !IsBlank(memory.content)
  }

  ghost predicate Increasing(ks: seq<nat>) {
    forall i, j | 0 <= i < j < |ks| :: ks[i] < ks[j]
  }

  lemma {:induction false} FilterTwice<T(!new)>(items: seq<T>, one: T -> bool, two: T -> bool, both: T -> bool)
    requires forall x :: both(x) <==> one(x) && two(x)
    ensures Filter(Filter(items, one), two) == Filter(items, both)
  {
    if items != [] {
      FilterTwice(items[1..], one, two, both);
      var rest := Filter(items[1..], one);
      if one(items[0]) {
        assert ([items[0]] + rest)[0] == items[0] && ([items[0]] + rest)[1..] == rest;
      } else {
        assert [] + rest == rest;
      }
    }
  }

  lemma {:induction false} FilterAppend<T(!new)>(items: seq<T>, last: T, keep: T -> bool)
    ensures Filter(items + [last], keep) == Filter(items, keep) + if keep(last) then [last] else []
  {
    if items == [] {
      assert items + [last] == [last] && [last][1..] == [];
    } else {
      assert (items + [last])[1..] == items[1..] + [last];
      FilterAppend(items[1..], last, keep);
    }
  }

  lemma OneMore(ks: seq<nat>, n: nat)
    requires Increasing(ks) && forall j | 0 <= j < |ks| :: ks[j] < n
    ensures Increasing(ks + [n])
    ensures forall i :: i in ks + [n] <==> i in ks || i == n
    ensures n !in ks
  {
  }

  lemma {:induction false} FilterNone<T>(items: seq<T>, keep: T -> bool)
    requires forall x | x in items :: !keep(x)
    ensures Filter(items, keep) == []
  {
    if items != [] {
      FilterNone(items[1..], keep);
    }
  }

  /** Where the kept items stood. */
  lemma {:induction false} FilterIndices<T(!new)>(items: seq<T>, keep: T -> bool) returns (ks: seq<nat>)
    ensures Increasing(ks) && |ks| == |Filter(items, keep)|
    ensures forall j | 0 <= j < |ks| :: ks[j] < |items| && Filter(items, keep)[j] == items[ks[j]]
    ensures forall i | 0 <= i < |items| :: i in ks <==> keep(items[i])
  {
    if items == [] {
      ks := [];
    } else {
      var n := |items| - 1;
      var most, last := items[..n], items[n];
      assert items == most + [last];
      FilterAppend(most, last, keep);
      var before := FilterIndices(most, keep);
      OneMore(before, n);
      assert forall i | 0 <= i < n :: most[i] == items[i];
      ks := if keep(last) then before + [n] else before;
    }
  }

  lemma {:induction false} DistinctAppend(memories: seq<Memory>, last: Memory, seen: seq<string>)
    ensures var kept := DistinctTrimmed(memories, seen);
            DistinctTrimmed(memories + [last], seen) == if Seen(kept, Trim(last.content)) then kept else kept + [Trim(last.content)]
    decreases |memories|
  {
    if memories == [] {
      assert memories + [last] == [last] && [last][1..] == [];
    } else {
      assert (memories + [last])[1..] == memories[1..] + [last];
      var content := Trim(memories[0].content);
      DistinctAppend(memories[1..], last, if Seen(seen, content) then seen else seen + [content]);
    }
  }

  /** This content occurs in some spelling. */
  predicate Occurs(memories: seq<Memory>, content: string) {
    exists h | 0 <= h < |memories| :: EqualsIgnoreCase(Trim(memories[h].content), content)
  }

  lemma KeptIsOccurring(memories: seq<Memory>, content: string)
    ensures Seen(DistinctTrimmed(memories, []), content) <==> Occurs(memories, content)
  {
    var kept := DistinctTrimmed(memories, []);
    if Seen(kept, content) {
      var k :| 0 <= k < |kept| && EqualsIgnoreCase(kept[k], content);
      DistinctTrimmedIsSound(memories, [], kept[k]);
      var m :| m in memories && kept[k] == Trim(m.content);
      var h :| 0 <= h < |memories| && memories[h] == m;
    }
    if Occurs(memories, content) {
      var h :| 0 <= h < |memories| && EqualsIgnoreCase(Trim(memories[h].content), content);
      DistinctTrimmedIsComplete(memories, [], memories[h]);
      var k :| 0 <= k < |kept| && EqualsIgnoreCase(kept[k], Trim(memories[h].content));
    }
  }

  /** No content before this one is the same in another spelling. */
  predicate IsFirst(memories: seq<Memory>, i: nat)
    requires i < |memories|
  {
    forall h | 0 <= h < i :: !EqualsIgnoreCase(Trim(memories[h].content), Trim(memories[i].content))
  }

  lemma FirstOfMore(most: seq<Memory>, last: Memory, i: nat)
    requires i <= |most|
    ensures IsFirst(most + [last], i) <==> if i < |most| then IsFirst(most, i) else !Occurs(most, Trim(last.content))
  {
    var all := most + [last];
    assert forall h | 0 <= h < |most| :: all[h] == most[h];
  }

  /** The contents that stay are the first spellings, in order. */
  lemma {:induction false} DistinctIndices(memories: seq<Memory>) returns (ks: seq<nat>)
    ensures Increasing(ks) && |ks| == |DistinctTrimmed(memories, [])|
    ensures forall j | 0 <= j < |ks| :: ks[j] < |memories| && DistinctTrimmed(memories, [])[j] == Trim(memories[ks[j]].content)
    ensures forall i | 0 <= i < |memories| :: i in ks <==> IsFirst(memories, i)
  {
    if memories == [] {
      ks := [];
    } else {
      var n := |memories| - 1;
      var most, last := memories[..n], memories[n];
      assert memories == most + [last];
      DistinctAppend(most, last, []);
      KeptIsOccurring(most, Trim(last.content));
      var before := DistinctIndices(most);
      OneMore(before, n);
      ks := if Occurs(most, Trim(last.content)) then before else before + [n];
      forall i | 0 <= i < |memories|
        ensures i in ks <==> IsFirst(memories, i)
      {
        FirstOfMore(most, last, i);
      }
    }
  }

  predicate AnyEntry(memories: seq<Memory>, scope: string) {
    exists j | 0 <= j < |memories| :: OwnContent(memories[j], scope) && IsProfileEntry(memories[j])
  }

  function SelectedBy(memories: seq<Memory>, scope: string): Memory -> bool {
    var narrow := AnyEntry(memories, scope);
    (m: Memory) => OwnContent(m, scope) && (narrow ==> IsProfileEntry(m))
  }

  lemma SelectionIsFilter(memories: seq<Memory>, scope: string, keep: Memory -> bool)
    requires keep == SelectedBy(memories, scope)
    ensures SelectPreferences(Filter(memories, (m: Memory) => m.scope == scope)) == DistinctTrimmed(Filter(memories, keep), [])
  {
    var own := (m: Memory) => m.scope == scope;
    var full := (m: Memory) => OwnContent(m, scope);
    var profile := (m: Memory) => OwnContent(m, scope) && IsProfileEntry(m);
    FilterTwice(memories, own, HasContent, full);
    FilterTwice(memories, full, IsProfileEntry, profile);
    FilterAgrees(memories, keep, if AnyEntry(memories, scope) then profile else full);
    if AnyEntry(memories, scope) {
      var j :| 0 <= j < |memories| && OwnContent(memories[j], scope) && IsProfileEntry(memories[j]);
      assert memories[j] in Filter(memories, profile);
    } else {
      FilterNone(memories, profile);
    }
  }

  lemma {:induction false} FilterAgrees<T(!new)>(items: seq<T>, one: T -> bool, two: T -> bool)
    requires forall x :: one(x) <==> two(x)
    ensures Filter(items, one) == Filter(items, two)
  {
    if items != [] {
      FilterAgrees(items[1..], one, two);
    }
  }

  function Composed(a: seq<nat>, b: seq<nat>): (r: seq<nat>)
    requires forall j | 0 <= j < |b| :: b[j] < |a|
    ensures |r| == |b| && forall j | 0 <= j < |b| :: r[j] == a[b[j]]
  {
    seq(|b|, j requires 0 <= j < |b| => a[b[j]])
  }

  /** An index survives both passes exactly when it is taken and the first of its spelling. */
  lemma TakenStays(memories: seq<Memory>, scope: string, keep: Memory -> bool, a: seq<nat>, b: seq<nat>, i: nat)
    requires keep == SelectedBy(memories, scope) && i < |memories|
    requires Increasing(a) && |a| == |Filter(memories, keep)|
    requires forall j | 0 <= j < |a| :: a[j] < |memories| && Filter(memories, keep)[j] == memories[a[j]]
    requires forall k | 0 <= k < |memories| :: k in a <==> keep(memories[k])
    requires forall j | 0 <= j < |b| :: b[j] < |a|
    requires forall k | 0 <= k < |a| :: k in b <==> IsFirst(Filter(memories, keep), k)
    ensures i in Composed(a, b) <==> Stays(memories, scope, i)
  {
    var chosen := Filter(memories, keep);
    assert forall k | 0 <= k < |memories| :: Taken(memories, scope, k) <==> keep(memories[k]);
    if i in a {
      var p :| 0 <= p < |a| && a[p] == i;
      if p in b {
        var j :| 0 <= j < |b| && b[j] == p;
        assert Composed(a, b)[j] == i;
        forall h | 0 <= h < i && Taken(memories, scope, h)
          ensures !EqualsIgnoreCase(Trim(memories[h].content), Trim(memories[i].content))
        {
          var q :| 0 <= q < |a| && a[q] == h;
          assert q < p;
        }
      } else {
        var q :| 0 <= q < p && EqualsIgnoreCase(Trim(chosen[q].content), Trim(chosen[p].content));
        assert a[q] < i && a[q] in a && Taken(memories, scope, a[q]);
        NotComposed(a, b, p);
      }
    }
  }

  lemma NotComposed(a: seq<nat>, b: seq<nat>, p: nat)
    requires Increasing(a) && p < |a| && p !in b && forall j | 0 <= j < |b| :: b[j] < |a|
    ensures a[p] !in Composed(a, b)
  {
  }

  lemma TakenPositions(memories: seq<Memory>, chosen: seq<Memory>, preferences: seq<string>, a: seq<nat>, b: seq<nat>)
    requires Increasing(a) && |a| == |chosen| && forall j | 0 <= j < |a| :: a[j] < |memories| && chosen[j] == memories[a[j]]
    requires Increasing(b) && |b| == |preferences|
    requires forall j | 0 <= j < |b| :: b[j] < |a| && preferences[j] == Trim(chosen[b[j]].content)
    ensures var ks := Composed(a, b);
            Increasing(ks) && forall j | 0 <= j < |ks| :: ks[j] < |memories| && preferences[j] == Trim(memories[ks[j]].content)
  {
  }

  /** The recalled preferences in one piece: the trimmed contents of the customer's taken
      memories, in their order, each in the first spelling that occurs and no other twice. */
  lemma PreferencesExactly(customerId: string, answer: ProfileAnswer) returns (ks: seq<nat>)
    requires !IsBlank(customerId) && answer.Replied?
    ensures var memories, preferences := answer.reply.memories, Recall(Some(customerId), answer);
            && Increasing(ks) && |ks| == |preferences|
            && (forall j | 0 <= j < |ks| :: ks[j] < |memories| && preferences[j] == Trim(memories[ks[j]].content))
            && forall i | 0 <= i < |memories| :: i in ks <==> Stays(memories, Trim(customerId), i)
  {
    var memories, scope := answer.reply.memories, Trim(customerId);
    var keep := SelectedBy(memories, scope);
    SelectionIsFilter(memories, scope, keep);
    var a := FilterIndices(memories, keep);
    var chosen := Filter(memories, keep);
    var b := DistinctIndices(chosen);
    ks := Composed(a, b);
    TakenPositions(memories, chosen, Recall(Some(customerId), answer), a, b);
    forall i | 0 <= i < |memories|
      ensures i in ks <==> Stays(memories, scope, i)
    {
      TakenStays(memories, scope, keep, a, b, i);
    }
  }

  // ---- BuildScopedRequest ----

  datatype ProfileError = NoMemoryTool | NotText | NotAnObject | NoVersions | NoDefinition | Unreadable

  const MEMORY_TOOL := "memory_search_preview"

  function WithField(value: Value, name: string, field: Value): Value
    requires value.Obj?
  {
    Obj(value.fields[name := field])
  }

  predicate IsMemoryTool(entry: Value) {
    Get(entry, "type") == Some(Str(MEMORY_TOOL))
  }

  /** One entry of the tool list after the loop. */
  function ScopedTool(entry: Value, scope: string): Value {
    if IsMemoryTool(entry) then WithField(entry, "scope", Str(scope))
    else if entry.Obj? && ValueAt(entry, "type") == Str("code_interpreter") && ValueAt(entry, "container") == Null
    then WithField(entry, "container", Obj(map["type" := Str("auto")]))
    else entry
  }

  /** A tool whose type is neither missing nor text makes GetValue throw. */
  predicate TypeReadable(entry: Value) {
    !entry.Obj? || ValueAt(entry, "type") == Null || ValueAt(entry, "type").Str?
  }

  function Tools(definition: Value): seq<Value> {
    if ValueAt(definition, "tools").Arr? then ValueAt(definition, "tools").items else []
  }

  method BuildScopedRequest(definition: Value, scope: string, message: string) returns (r: Result<Value, ProfileError>)
    requires definition.Obj?
    ensures r.Ok? <==> (forall t | t in Tools(definition) :: TypeReadable(t)) && exists t :: t in Tools(definition) && IsMemoryTool(t)
    ensures r.Ok? ==>
      && r.value.Obj?
      && "kind" !in r.value.fields
      && ValueAt(r.value, "input") == Str(message)
      && Tools(r.value) == seq(|Tools(definition)|, i requires 0 <= i < |Tools(definition)| => ScopedTool(Tools(definition)[i], scope))
      && forall name | name !in {"kind", "input", "tools"} :: Get(r.value, name) == Get(definition, name)
    ensures r == Err(NoMemoryTool) || r == Err(NotText) || r.Ok?
  {
    var fields := definition.fields - {"kind"};
    var tools := Tools(definition);
    var edited: seq<Value> := [];
    var scoped := 0;
    for i := 0 to |tools|
      invariant |edited| == i
      invariant forall j | 0 <= j < i :: edited[j] == ScopedTool(tools[j], scope) && TypeReadable(tools[j])
      invariant scoped > 0 <==> exists j :: 0 <= j < i && IsMemoryTool(tools[j])
    {
      var tool := tools[i];
      if tool.Obj? {
        var kind := ValueAt(tool, "type");
        if kind != Null && !kind.Str? {
          assert !TypeReadable(tools[i]);
          return Err(NotText);
        }
        if kind == Str(MEMORY_TOOL) {
          assert IsMemoryTool(tools[i]);
          tool := WithField(tool, "scope", Str(scope));
          scoped := scoped + 1;
        } else if kind == Str("code_interpreter") && ValueAt(tool, "container") == Null {
          tool := WithField(tool, "container", Obj(map["type" := Str("auto")]));
        }
      }
      edited := edited + [tool];
    }
    if scoped == 0 {
      return Err(NoMemoryTool);
    }
    assert ValueAt(definition, "tools").Arr?;
    fields := fields["tools" := Arr(edited)]["input" := Str(message)];
    r := Ok(Obj(fields));
  }

  const AUTO_CONTAINER := Obj(map["type" := Str("auto")])

  /** Every memory tool of a scoped request is bound to the customer and otherwise what it
      was; a code interpreter without a container gains the automatic one; every other tool
      is untouched. */
  lemma ScopedToolMeaning(entry: Value, scope: string)
    ensures IsMemoryTool(entry) ==>
              && Get(ScopedTool(entry, scope), "scope") == Some(Str(scope))
              && (forall name | name != "scope" :: Get(ScopedTool(entry, scope), name) == Get(entry, name))
    ensures !IsMemoryTool(entry) && ScopedTool(entry, scope) != entry ==>
              && Get(entry, "type") == Some(Str("code_interpreter")) && ValueAt(entry, "container") == Null
              && Get(ScopedTool(entry, scope), "container") == Some(AUTO_CONTAINER)
              && (forall name | name != "container" :: Get(ScopedTool(entry, scope), name) == Get(entry, name))
    ensures Get(entry, "type") == Some(Str("code_interpreter")) ==> ValueAt(ScopedTool(entry, scope), "container") != Null
    ensures IsMemoryTool(ScopedTool(entry, scope)) <==> IsMemoryTool(entry)
  {
    assert |"type"| == 4 && |"scope"| == 5 && |"container"| == 9;
    assert |MEMORY_TOOL| == 21 && |"code_interpreter"| == 16;
  }

  // ---- ReadLatestDefinition ----

  /** int.TryParse, left to the caller. */
  type ParseInt = string -> Option<int>

  function VersionNumber(entry: Value, parse: ParseInt): (n: int)
  {
    match ValueAt(entry, "version")
    case Int(n) => if IsInt32(n) then n else 0
    case Str(s) => if parse(s).Some? && IsInt32(parse(s).value) then parse(s).value else 0
    case _ => 0
  }

  predicate IsNewest(versions: seq<Value>, parse: ParseInt, at: nat) {
    && at < |versions| && versions[at].Obj?
    && (forall j | 0 <= j < |versions| && versions[j].Obj? ::
          VersionNumber(versions[j], parse) <= VersionNumber(versions[at], parse))
    && (forall j | at < j < |versions| && versions[j].Obj? ::
          VersionNumber(versions[j], parse) < VersionNumber(versions[at], parse))
  }

  /** root["data"] ?? root["value"]. */
  function Listing(root: Value): Value {
    if ValueAt(root, "data") != Null then ValueAt(root, "data") else ValueAt(root, "value")
  }

  /** The listing is "data", or "value" where there is none; a version counts as its number,
      given as a number or as text that parses to one, and as 0 where neither fits in 32 bits. */
  lemma ListingMeaning(root: Value, entry: Value, parse: ParseInt)
    ensures Listing(root) == if ValueAt(root, "data") == Null then ValueAt(root, "value") else ValueAt(root, "data")
    ensures var version, n := ValueAt(entry, "version"), VersionNumber(entry, parse);
            && -0x8000_0000 <= n < 0x8000_0000
            && (n != 0 ==> version == Int(n) || (version.Str? && parse(version.s) == Some(n)))
            && (version.Int? && -0x8000_0000 <= version.n < 0x8000_0000 ==> n == version.n)
            && (version.Str? && parse(version.s).Some? && -0x8000_0000 <= parse(version.s).value < 0x8000_0000 ==>
                  n == parse(version.s).value)
  {
  }

  /** Picks the definition of the highest-numbered version, the last one on a tie. */
  method ReadLatestDefinition(root: Value, parse: ParseInt) returns (r: Result<Value, ProfileError>)
    ensures r == Err(NotAnObject) <==> !root.Obj?
    ensures r == Err(NoVersions) <==> root.Obj? && (!Listing(root).Arr? || Listing(root).items == [])
    ensures r.Ok? ==> exists at: nat :: IsNewest(Listing(root).items, parse, at)
                                         && Get(Listing(root).items[at], "definition") == Some(r.value) && r.value.Obj?
    ensures r == Err(NoDefinition) ==>
              forall at: nat | IsNewest(Listing(root).items, parse, at) :: !ValueAt(Listing(root).items[at], "definition").Obj?
    ensures r.Ok? || r == Err(NotAnObject) || r == Err(NoVersions) || r == Err(NoDefinition)
  {
    if !root.Obj? {
      return Err(NotAnObject);
    }
    if !Listing(root).Arr? || Listing(root).items == [] {
      return Err(NoVersions);
    }
    var versions := Listing(root).items;
    var newest: Option<Value> := None;
    var highest := -0x8000_0000;
    ghost var at: nat := 0;
    for i := 0 to |versions|
      invariant newest.None? ==> forall j | 0 <= j < i :: !versions[j].Obj?
      invariant newest.None? ==> highest == -0x8000_0000
      invariant newest.Some? ==> at < i && IsNewest(versions[..i], parse, at)
                                 && newest.value == versions[at] && highest == VersionNumber(versions[at], parse)
    {
      if versions[i].Obj? {
        var number := VersionNumber(versions[i], parse);
        if number >= highest {
          highest := number;
          newest := Some(versions[i]);
          at := i;
        }
      }
      assert versions[..i + 1][..i] == versions[..i];
    }
    assert versions[..|versions|] == versions;
    if newest.None? || !ValueAt(newest.value, "definition").Obj? {
      return Err(NoDefinition);
    }
    r := Ok(ValueAt(newest.value, "definition"));
  }
}
