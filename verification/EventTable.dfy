/** The event table of one workflow, keyed by the unique index on
    (workflow, sequence), and the mapping between stored rows and the domain. */
module EventTable {
  import opened Wrappers
  import opened Domain

  type Table = map<nat, Event>

  /** Sequences 0..n-1, each once. */
  ghost predicate Dense(table: Table) {
    forall i: nat :: i in table <==> i < |table|
  }

  predicate IsLeast(keys: set<nat>, k: nat) {
    k in keys && forall j | j in keys :: k <= j
  }

  lemma {:induction false} HasMinimum(keys: set<nat>) returns (least: nat)
    requires keys != {}
    ensures IsLeast(keys, least)
  {
    var k :| k in keys;
    if keys == {k} {
      least := k;
    } else {
      var m := HasMinimum(keys - {k});
      least := if k <= m then k else m;
      forall j | j in keys
        ensures least <= j
      {
        assert j == k || j in keys - {k};
      }
    }
  }

  lemma MinimumExists(keys: set<nat>)
    requires keys != {}
    ensures exists k :: IsLeast(keys, k)
  {
    var least := HasMinimum(keys);
  }

  function Minimum(keys: set<nat>): (k: nat)
    requires keys != {}
    ensures k in keys && forall j | j in keys :: k <= j
  {
    MinimumExists(keys);
    var k :| IsLeast(keys, k);
    k
  }

  /** entity.Events.OrderBy(e => e.Sequence). */
  function Log(table: Table): (log: seq<Event>)
    ensures |log| == |table|
  {
    if table == map[] then []
    else
      var k := Minimum(table.Keys);
      assert |table - {k}| == |table| - 1 by {
        assert (table - {k}).Keys == table.Keys - {k};
        assert |(table - {k}).Keys| == |table.Keys| - 1;
      }
      [table[k]] + Log(table - {k})
  }

  ghost predicate IsRun(table: Table, low: nat) {
    forall i: nat :: i in table <==> low <= i < low + |table|
  }

  lemma RunRest(table: Table, low: nat)
    requires IsRun(table, low) && table != map[]
    ensures Minimum(table.Keys) == low
    ensures IsRun(table - {low}, low + 1) && |table - {low}| == |table| - 1
  {
    assert |table| > 0;
    assert low in table.Keys;
    var rest := table - {low};
    assert rest.Keys == table.Keys - {low};
    assert |rest| == |table| - 1 by { assert |rest.Keys| == |table.Keys| - 1; }
  }

  /** Ordering a run of consecutive sequences reads the table off in order. */
  lemma {:induction false} LogOfRun(table: Table, low: nat, i: nat)
    requires IsRun(table, low) && i < |table|
    ensures low + i in table && Log(table)[i] == table[low + i]
    decreases |table|
  {
    RunRest(table, low);
    var rest := table - {low};
    assert Log(table) == [table[low]] + Log(rest);
    if i > 0 {
      LogOfRun(rest, low + 1, i - 1);
      assert Log(table)[i] == Log(rest)[i - 1] == rest[low + 1 + (i - 1)];
    }
  }

  lemma DenseLog(table: Table)
    requires Dense(table)
    ensures forall i | 0 <= i < |table| :: Log(table)[i] == table[i]
  {
    forall i | 0 <= i < |table|
      ensures Log(table)[i] == table[i]
    {
      ReadAt(table, i);
    }
  }

  lemma ReadAt(table: Table, i: nat)
    requires Dense(table) && i < |table|
    ensures i in table && Log(table)[i] == table[i]
  {
    LogOfRun(table, 0, i);
  }

  lemma LogIs(table: Table, log: seq<Event>)
    requires Dense(table) && |log| == |table|
    requires forall i | 0 <= i < |log| :: log[i] == table[i]
    ensures Log(table) == log
  {
    DenseLog(table);
    var read := Log(table);
    assert |read| == |log|;
    assert forall i | 0 <= i < |log| :: read[i] == log[i];
  }

  /** AddNewEvents: insert events[from..] at their own positions. None is the
      unique index on (workflow, sequence) firing, which rolls the transaction back. */
  function Insert(table: Table, events: seq<Event>, from: nat): Option<Table>
    decreases |events| - from
  {
    if from >= |events| then Some(table)
    else if from in table then None
    else Insert(table[from := events[from]], events, from + 1)
  }

  lemma DenseExtends(table: Table, event: Event)
    requires Dense(table)
    ensures |table| !in table
    ensures Dense(table[|table| := event]) && |table[|table| := event]| == |table| + 1
  {
    var n := |table|;
    assert n !in table;
    assert |table[n := event]| == n + 1;
  }

  /** With a count taken from the dense table itself no sequence collides. */
  lemma {:induction false} InsertFills(table: Table, events: seq<Event>, count: nat)
    requires Dense(table) && |table| == count <= |events|
    ensures var filled := Insert(table, events, count);
            && filled.Some?
            && Dense(filled.value) && |filled.value| == |events|
            && forall i | 0 <= i < |events| :: filled.value[i] == if i < count then table[i] else events[i]
    decreases |events| - count
  {
    if count < |events| {
      DenseExtends(table, events[count]);
      InsertFills(table[count := events[count]], events, count + 1);
    }
  }

  lemma GrownAt(table: Table, log: seq<Event>, event: Event, i: nat)
    requires Dense(table) && |table| <= |log|
    requires forall k | 0 <= k < |table| :: log[k] == Log(table)[k]
    requires i < |log| && event == if i < |table| && i in table then table[i] else log[i]
    ensures log[i] == event
  {
    if i < |table| {
      ReadAt(table, i);
    }
  }

  lemma LogGrows(table: Table, filled: Table, events: seq<Event>)
    requires Dense(table) && Dense(filled) && |table| <= |events| == |filled|
    requires forall i: nat | i < |events| :: filled[i] == if i < |table| then table[i] else events[i]
    ensures Log(filled) == Log(table) + events[|table|..]
  {
    var log := Log(table) + events[|table|..];
    forall i: nat | i < |log|
      ensures log[i] == filled[i]
    {
      GrownAt(table, log, filled[i], i);
    }
    LogIs(filled, log);
  }

  lemma AppendOne(table: Table, event: Event)
    requires Dense(table)
    ensures Dense(table[|table| := event]) && Log(table[|table| := event]) == Log(table) + [event]
  {
    DenseExtends(table, event);
    LogGrows(table, table[|table| := event], Log(table) + [event]) by {
      forall i: nat | i < |table| + 1
        ensures table[|table| := event][i] == if i < |table| then table[i] else (Log(table) + [event])[i]
      {
      }
    }
    assert (Log(table) + [event])[|table|..] == [event];
  }

  /** When the count is that of the dense table, the index stays silent and the log
      grows by exactly the events past the count. */
  lemma InsertAppends(table: Table, events: seq<Event>)
    requires Dense(table) && |table| <= |events|
    ensures Insert(table, events, |table|).Some?
    ensures Dense(Insert(table, events, |table|).value)
    ensures Log(Insert(table, events, |table|).value) == Log(table) + events[|table|..]
  {
    InsertFills(table, events, |table|);
    LogGrows(table, Insert(table, events, |table|).value, events);
  }

  /** MapToEntity's event rows. */
  function ToTable(events: seq<Event>): Table {
    map i: nat | i < |events| :: events[i]
  }

  lemma {:induction false} ToTableDense(events: seq<Event>)
    ensures Dense(ToTable(events)) && |ToTable(events)| == |events|
    decreases |events|
  {
    if events == [] {
      assert ToTable(events) == map[];
    } else {
      var n := |events| - 1;
      ToTableDense(events[..n]);
      assert ToTable(events) == ToTable(events[..n])[n := events[n]];
    }
  }

  /** Reading back what was written gives the same event list. */
  lemma RoundTrip(events: seq<Event>)
    ensures Log(ToTable(events)) == events
  {
    ToTableDense(events);
    DenseLog(ToTable(events));
  }
}
