/**
 The events of one block, in borrowed storage of fixed size: an event that does not fit is counted and dropped,
 and the in-place insertion sort keeps events of one frame in the order they were pushed.
 */
module EventLists {
  import opened StableSort

  const NOTE_ON: nat := 1
  const NOTE_OFF: nat := 2
  const PARAM_VALUE: nat := 6
  const PARAM_MODULATION: nat := 7

  const ANY_KEY: int := -1

  /** The fields of an event that host and schedule set; `preview` is the do-not-record flag. */
  datatype PluginEvent = PluginEvent(time: nat, kind: nat, preview: bool, key: int, id: nat, value: real)

  function NoteOn(time: nat, key: int, velocity: real): PluginEvent {
    PluginEvent(time, NOTE_ON, false, key, 0, velocity)
  }

  function NoteOff(time: nat, key: int): PluginEvent {
    PluginEvent(time, NOTE_OFF, false, key, 0, 0.0)
  }

  /** Releases every sounding voice: a note-off with a wildcard key. */
  function AllNotesOff(time: nat): PluginEvent {
    NoteOff(time, ANY_KEY)
  }

  predicate TimeBefore(a: PluginEvent, b: PluginEvent) {
    a.time < b.time
  }

  function Fit(events: seq<PluginEvent>, capacity: nat): seq<PluginEvent> {
    if |events| <= capacity then events else events[..capacity]
  }

  class EventList {
    const events: array<PluginEvent>
    var count: nat
    var overflow: nat

    ghost predicate Valid()
      reads this
    {
      count <= events.Length
    }

    ghost function Contents(): seq<PluginEvent>
      requires Valid()
      reads this, events
    {
      events[..count]
    }

    constructor (storage: array<PluginEvent>)
      ensures events == storage && Valid() && Contents() == [] && overflow == 0
    {
      events, count, overflow := storage, 0, 0;
    }

    method Push(event: PluginEvent) returns (ok: bool)
      requires Valid()
      modifies this, events
      ensures Valid() && ok == (old(count) < events.Length)
      ensures Contents() == if ok then old(Contents()) + [event] else old(Contents())
      ensures overflow == if ok then old(overflow) else old(overflow) + 1
    {
      if count >= events.Length {
        overflow := overflow + 1;
        return false;
      }
      events[count] := event;
      count := count + 1;
      return true;
    }

    /** Insertion sort in place, stable, by time. */
    method SortByTime()
      requires Valid()
      modifies events
      ensures Contents() == Sort(old(Contents()), TimeBefore)
    {
      ghost var given := Contents();
      var index := 1;
      SortOne(given);
      while index < count
        invariant 1 <= index
        invariant Contents() == Sort(given[..Min(index, count)], TimeBefore) + given[Min(index, count)..]
      {
        SortStep(given, index);
        Insert(index);
        index := index + 1;
      }
      assert given[..count] == given;
    }

    /** Moves the event at `index` left past every event before it that comes later than it. */
    method Insert(index: nat)
      requires Valid() && index < count
      modifies events
      ensures Contents() == InsertStable(old(Contents())[..index], old(Contents())[index], TimeBefore)
                            + old(Contents())[index + 1..]
    {
      ghost var given := Contents();
      var key := events[index];
      var position := index;
      while position > 0 && events[position - 1].time > key.time
        invariant position <= index
        invariant forall i | 0 <= i < position :: events[i] == given[i]
        invariant forall i | position < i <= index :: events[i] == given[i - 1]
        invariant forall i | index < i < count :: events[i] == given[i]
        invariant forall i | position <= i < index :: TimeBefore(key, given[i])
      {
        events[position] := events[position - 1];
        position := position - 1;
      }
      events[position] := key;
      Inserted(given, Contents(), index, position);
    }
  }

  function Min(a: nat, b: nat): nat {
    if a < b then a else b
  }

  /** Where stable insertion puts an event: before all that come later, after all others. */
  lemma {:induction false} InsertedAt(s: seq<PluginEvent>, x: PluginEvent, p: nat)
    requires p <= |s| && (forall i | p <= i < |s| :: TimeBefore(x, s[i])) && (p == 0 || !TimeBefore(x, s[p - 1]))
    ensures InsertStable(s, x, TimeBefore) == s[..p] + [x] + s[p..]
  {
    if p < |s| {
      InsertedAt(s[..|s| - 1], x, p);
      assert s[p..] == s[..|s| - 1][p..] + [s[|s| - 1]];
    } else {
      assert s[..p] + [x] + s[p..] == s + [x];
    }
  }

  /** An event moved from `index` to `position`, with everything it passed moved up by one. */
  lemma {:induction false} Inserted(s: seq<PluginEvent>, t: seq<PluginEvent>, index: nat, position: nat)
    requires position <= index < |s| == |t| && t[position] == s[index]
    requires forall i | 0 <= i < position :: t[i] == s[i]
    requires forall i | position < i <= index :: t[i] == s[i - 1]
    requires forall i | index < i < |s| :: t[i] == s[i]
    requires forall i | position <= i < index :: TimeBefore(s[index], s[i])
    requires position == 0 || !TimeBefore(s[index], s[position - 1])
    ensures t == InsertStable(s[..index], s[index], TimeBefore) + s[index + 1..]
  {
    var front := s[..index];
    InsertedAt(front, s[index], position);
    assert t == front[..position] + [s[index]] + front[position..] + s[index + 1..];
  }

  lemma {:induction false} InsertLength(s: seq<PluginEvent>, x: PluginEvent)
    ensures |InsertStable(s, x, TimeBefore)| == |s| + 1
  {
    if s != [] && TimeBefore(x, s[|s| - 1]) {
      InsertLength(s[..|s| - 1], x);
    }
  }

  lemma {:induction false} SortLength(s: seq<PluginEvent>)
    ensures |Sort(s, TimeBefore)| == |s|
  {
    if s != [] {
      SortLength(s[..|s| - 1]);
      InsertLength(Sort(s[..|s| - 1], TimeBefore), s[|s| - 1]);
    }
  }

  lemma {:induction false} SortOne(s: seq<PluginEvent>)
    ensures s == Sort(s[..Min(1, |s|)], TimeBefore) + s[Min(1, |s|)..]
  {
    if s != [] {
      assert s[..1][..0] == [] && s[..1] == [s[0]];
      assert Sort([], TimeBefore) == [];
    }
  }

  lemma {:induction false} SortStep(s: seq<PluginEvent>, k: nat)
    requires k < |s|
    ensures var c := Sort(s[..k], TimeBefore) + s[k..];
      && |Sort(s[..k], TimeBefore)| == k && c[..k] == Sort(s[..k], TimeBefore) && c[k] == s[k] && c[k + 1..] == s[k + 1..]
      && InsertStable(c[..k], c[k], TimeBefore) == Sort(s[..k + 1], TimeBefore)
  {
    SortLength(s[..k]);
    assert s[..k + 1][..k] == s[..k];
  }
}
