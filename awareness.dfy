/**
 * The statistics side of JarvisAwareness (warsim/Awareness.py): `reflect` reads the newest lines
 * of the event log, keeps the recent well-formed records, and `_summarize_events` counts them per
 * event type and lists the five most frequent types; `remember` and `recall` keep an in-memory
 * dictionary of notes. Files, JSON text and the clock are not modelled: the log arrives as a
 * sequence of already-decoded lines, and the current time is a parameter.
 */
module Awareness {
  import opened Wrappers

  // ---------------------------------------------------------------------------------------------
  // Log lines and the recency filter

  /** A record's "ts" field: absent, unusable, or a time in seconds. Unusable covers text
    * datetime.fromisoformat rejects and also a timestamp with a UTC offset, which it accepts but
    * which then cannot be compared with the naive cutoff (a TypeError); either way the line is
    * skipped. */
  datatype Stamp = NoStamp | Unparsable | At(seconds: int)

  /** A decoded record of events.jsonl: its "event" field, if present, and its "ts" field. */
  datatype Record = Record(event: Option<string>, ts: Stamp)

  /** One line of the log: text json.loads rejects (or that is no object), or a record. */
  datatype Line = Unreadable | Entry(record: Record)

  const Window: nat := 500

  /** `splitlines()[-500:]`: the newest 500 lines, or all of them. */
  function Newest(lines: seq<Line>): (w: seq<Line>)
    ensures |w| == if |lines| < Window then |lines| else Window
    ensures w == lines[|lines| - |w|..]
  {
    if |lines| <= Window then lines else lines[|lines| - Window..]
  }

  /** Whether `reflect` keeps a line (warsim/Awareness.py:107-113): an unreadable line or an
    * unparsable timestamp raises and is skipped; a missing timestamp reads as the current time;
    * any other record is kept when it is no older than the cutoff. */
  predicate Keeps(l: Line, now: int, cutoff: int): (k: bool)
    ensures k ==> l.Entry? && !l.record.ts.Unparsable?
    ensures l.Entry? && !l.record.ts.Unparsable? ==>
              (k <==> (if l.record.ts.At? then l.record.ts.seconds else now) >= cutoff)
  {
    match l
    case Unreadable => false
    case Entry(r) =>
      match r.ts
      case NoStamp => now >= cutoff
      case Unparsable => false
      case At(t) => t >= cutoff
  }

  /** The records of the lines that are kept, in log order. */
  function Recent(lines: seq<Line>, now: int, cutoff: int): (rs: seq<Record>)
    ensures |rs| <= |lines|
    ensures forall r :: r in rs <==> Entry(r) in lines && Keeps(Entry(r), now, cutoff)
  {
    if lines == [] then []
    else
      var init := Recent(lines[..|lines| - 1], now, cutoff);
      var last := lines[|lines| - 1];
      assert lines == lines[..|lines| - 1] + [last];
      if Keeps(last, now, cutoff) then init + [last.record] else init
  }

  /** One more line of the window adds its record exactly when it is kept. */
  lemma RecentStep(window: seq<Line>, i: nat, now: int, cutoff: int)
    requires i < |window|
    ensures Recent(window[..i + 1], now, cutoff)
            == Recent(window[..i], now, cutoff) + (if Keeps(window[i], now, cutoff) then [window[i].record] else [])
  {
    assert window[..i + 1][..i] == window[..i];
  }

  /** The cutoff of `reflect`: lookback_hours before now. */
  function Cutoff(now: int, lookbackHours: int): (c: int)
    ensures lookbackHours >= 0 ==> c <= now
    ensures lookbackHours < 0 ==> c > now
  {
    now - lookbackHours * 3600
  }

  /**
   * The filtering loop of `reflect` (warsim/Awareness.py:104-113): of the newest 500 lines, the
   * records that decode and are no older than the cutoff, in log order. So at most 500 records
   * are kept, every one of them has a timestamp at or after the cutoff (or none at all), and
   * every such record among the newest lines is kept.
   */
  method RecentRecords(lines: seq<Line>, now: int, lookbackHours: int) returns (kept: seq<Record>)
    ensures kept == Recent(Newest(lines), now, Cutoff(now, lookbackHours))
    ensures |kept| <= Window
    ensures forall r :: r in kept ==> (r.ts.At? && r.ts.seconds >= Cutoff(now, lookbackHours))
                                      || (r.ts.NoStamp? && lookbackHours >= 0)
  {
    var cutoff := Cutoff(now, lookbackHours);
    var window := Newest(lines);
    kept := [];
    var i := 0;
    while i < |window|
      invariant 0 <= i <= |window|
      invariant kept == Recent(window[..i], now, cutoff)
    {
      var line := window[i];
      RecentStep(window, i, now, cutoff);
      if line.Entry? {
        match line.record.ts
        case NoStamp =>
          if now >= cutoff {
            kept := kept + [line.record];
          }
        case Unparsable =>
        case At(t) =>
          if t >= cutoff {
            kept := kept + [line.record];
          }
      }
      i := i + 1;
    }
    assert window[..i] == window;
    forall r | r in kept
      ensures (r.ts.At? && r.ts.seconds >= cutoff) || (r.ts.NoStamp? && lookbackHours >= 0)
    {
      assert Keeps(Entry(r), now, cutoff);
    }
  }

  // ---------------------------------------------------------------------------------------------
  // Counting per event type

  /** `e.get("event", "unknown")`. */
  function EventName(r: Record): string {
    match r.event
    case Some(e) => e
    case None => "unknown"
  }

  /** How many records carry the given event name. */
  function Occurrences(events: seq<Record>, name: string): nat {
    if events == [] then 0
    else Occurrences(events[..|events| - 1], name) + (if EventName(events[|events| - 1]) == name then 1 else 0)
  }

  predicate Distinct(names: seq<string>) {
    forall i, j :: 0 <= i < j < |names| ==> names[i] != names[j]
  }

  /** The event names in order of first appearance: the key order of the `types` dict. */
  function FirstAppearances(events: seq<Record>): (names: seq<string>)
    ensures Distinct(names)
    ensures forall n :: n in names <==> exists r :: r in events && EventName(r) == n
  {
    if events == [] then []
    else
      var init := FirstAppearances(events[..|events| - 1]);
      var last := events[|events| - 1];
      assert events == events[..|events| - 1] + [last];
      if EventName(last) in init then init else init + [EventName(last)]
  }

  /** The sum of the counts of the given names. */
  function Total(names: seq<string>, events: seq<Record>): (t: nat)
    ensures events == [] ==> t == 0
  {
    if names == [] then 0 else Occurrences(events, names[0]) + Total(names[1..], events)
  }

  /**
   * The counting loop of `_summarize_events` (warsim/Awareness.py:126-128): the dict's keys are
   * the event names in order of first appearance, a record without an event counts as
   * "unknown", and each key maps to the number of records that carry it.
   */
  method CountTypes(events: seq<Record>) returns (order: seq<string>, counts: map<string, nat>)
    ensures order == FirstAppearances(events)
    ensures counts.Keys == set n | n in order
    ensures forall n :: n in counts ==> counts[n] == Occurrences(events, n)
  {
    order := [];
    counts := map[];
    var i := 0;
    while i < |events|
      invariant 0 <= i <= |events|
      invariant order == FirstAppearances(events[..i])
      invariant counts.Keys == set n | n in order
      invariant forall n :: n in counts ==> counts[n] == Occurrences(events[..i], n)
    {
      assert events[..i + 1][..i] == events[..i];
      var name := EventName(events[i]);
      if name !in counts {
        NoOccurrences(events[..i], name);
      }
      if name in counts {
        counts := counts[name := counts[name] + 1];
      } else {
        counts := counts[name := 1];
        order := order + [name];
      }
      i := i + 1;
    }
    assert events[..i] == events;
  }

  /** A name no record carries occurs nowhere. */
  lemma {:induction false} NoOccurrences(events: seq<Record>, name: string)
    requires name !in FirstAppearances(events)
    ensures Occurrences(events, name) == 0
  {
    if events != [] {
      var init := events[..|events| - 1];
      assert events == init + [events[|events| - 1]];
      assert name !in FirstAppearances(init);
      NoOccurrences(init, name);
    }
  }

  /** Every record counts under exactly one name, so the per-type counts add up to the number
    * of records (warsim/Awareness.py:126-129). */
  lemma CountsSumToTotal(events: seq<Record>)
    ensures Total(FirstAppearances(events), events) == |events|
  {
    TotalOverCover(FirstAppearances(events), events);
  }

  lemma {:induction false} TotalOverCover(names: seq<string>, events: seq<Record>)
    requires Distinct(names)
    requires forall r :: r in events ==> EventName(r) in names
    ensures Total(names, events) == |events|
  {
    if events != [] {
      var init := events[..|events| - 1];
      var last := events[|events| - 1];
      assert events == init + [last];
      TotalOverCover(names, init);
      TotalAddsOne(names, init, last);
    }
  }

  /** One more record adds one to the total of distinct names that include its name. */
  lemma {:induction false} TotalAddsOne(names: seq<string>, events: seq<Record>, r: Record)
    requires Distinct(names)
    ensures Total(names, events + [r]) == Total(names, events) + (if EventName(r) in names then 1 else 0)
  {
    assert (events + [r])[..|events + [r]| - 1] == events;
    if names != [] {
      assert Distinct(names[1..]);
      TotalAddsOne(names[1..], events, r);
      assert EventName(r) in names <==> EventName(r) == names[0] || EventName(r) in names[1..];
    }
  }

  // ---------------------------------------------------------------------------------------------
  // Ranking

  /** An item of the `types` dict with its place in the dict's key order. */
  datatype Tally = Tally(name: string, count: nat, position: nat)

  /** `[(k, types[k]) for k in types]`, numbered in key order. */
  function Tallies(order: seq<string>, counts: map<string, nat>, from: nat): (ts: seq<Tally>)
    requires forall n :: n in order ==> n in counts
    ensures |ts| == |order|
    ensures forall i :: 0 <= i < |ts| ==> ts[i] == Tally(order[i], counts[order[i]], from + i)
  {
    if order == [] then [] else [Tally(order[0], counts[order[0]], from)] + Tallies(order[1..], counts, from + 1)
  }

  /** a may stand before b in `sorted(..., key=count, reverse=True)`: a larger count, or an equal
    * one and a place no later in the dict (the sort is stable). */
  predicate NotAfter(a: Tally, b: Tally) {
    a.count > b.count || (a.count == b.count && a.position <= b.position)
  }

  predicate Ranked(ts: seq<Tally>) {
    forall i, j :: 0 <= i < j < |ts| ==> NotAfter(ts[i], ts[j])
  }

  /** Places a tally into a ranked list after every tally that may stand before it. */
  function Insert(t: Tally, ts: seq<Tally>): (r: seq<Tally>)
    ensures multiset(r) == multiset(ts) + multiset{t}
  {
    if ts == [] then [t]
    else if NotAfter(t, ts[0]) then [t] + ts
    else
      assert ts == [ts[0]] + ts[1..];
      [ts[0]] + Insert(t, ts[1..])
  }

  /** Insertion keeps a list ranked. */
  lemma {:induction false} InsertKeepsRanked(t: Tally, ts: seq<Tally>)
    requires Ranked(ts)
    ensures Ranked(Insert(t, ts))
  {
    if ts != [] && !NotAfter(t, ts[0]) {
      var rest := Insert(t, ts[1..]);
      InsertKeepsRanked(t, ts[1..]);
      var r := [ts[0]] + rest;
      assert Insert(t, ts) == r;
      forall j | 1 <= j < |r|
        ensures NotAfter(r[0], r[j])
      {
        assert r[j] in multiset(rest);
        if r[j] != t {
          assert r[j] in multiset(ts[1..]);
          var k :| 0 <= k < |ts[1..]| && ts[1..][k] == r[j];
          assert ts[k + 1] == r[j];
        }
      }
    }
  }

  /** sorted(types.items(), key=lambda x: x[1], reverse=True) (warsim/Awareness.py:130): the
    * same tallies, most frequent first, equal counts in dict order. */
  function Rank(ts: seq<Tally>): (r: seq<Tally>)
    ensures multiset(r) == multiset(ts)
    ensures Ranked(r)
  {
    if ts == [] then []
    else
      assert ts == [ts[0]] + ts[1..];
      var rest := Rank(ts[1..]);
      InsertKeepsRanked(ts[0], rest);
      Insert(ts[0], rest)
  }

  // ---------------------------------------------------------------------------------------------
  // The summary

  /** What the summary sentence reports: the number of events and the top five (name, count). */
  datatype Summary = Summary(total: nat, top: seq<Tally>)

  const TopCount: nat := 5

  /** `top[:5]`. */
  function TopFive(ranked: seq<Tally>): (top: seq<Tally>)
    ensures |top| == if |ranked| < TopCount then |ranked| else TopCount
    ensures top == ranked[..|top|]
  {
    if |ranked| <= TopCount then ranked else ranked[..TopCount]
  }

  /** The five most frequent types of a ranked list: none of the types left out comes before any
    * listed one, and the listed ones keep their rank. */
  lemma TopFiveLeadsTheRest(ranked: seq<Tally>)
    requires Ranked(ranked)
    ensures var top := TopFive(ranked);
            && Ranked(top)
            && forall a, b :: a in top && b in ranked[|top|..] ==> NotAfter(a, b)
  {
    var top := TopFive(ranked);
    forall a, b | a in top && b in ranked[|top|..]
      ensures NotAfter(a, b)
    {
      var i :| 0 <= i < |top| && top[i] == a;
      var j :| 0 <= j < |ranked| - |top| && ranked[|top|..][j] == b;
      assert ranked[i] == a && ranked[|top| + j] == b;
    }
  }

  /** The names a list of tallies reports. */
  function NameSet(ts: seq<Tally>): set<string> {
    set t | t in ts :: t.name
  }

  /** The `types` dict of _summarize_events, on values: each event name with its number of
    * records. */
  function Counts(events: seq<Record>): (counts: map<string, nat>)
    ensures forall n :: n in counts <==> n in FirstAppearances(events)
  {
    map n | n in FirstAppearances(events) :: Occurrences(events, n)
  }

  /** What _summarize_events (warsim/Awareness.py:124-132) reports of a list of events: their
    * number, and the first five of the dict's items sorted by count, most frequent first. */
  function Summarize(events: seq<Record>): (s: Summary)
    ensures s.total == |events|
    ensures |s.top| <= TopCount
  {
    Summary(|events|, TopFive(Rank(Tallies(FirstAppearances(events), Counts(events), 0))))
  }

  /**
   * The summary lists the most frequent event types: the total is the number of events; the
   * listed types are distinct types of the events, each with its count and its place in order
   * of first appearance, most frequent first; five of them, or all when there are fewer; and
   * every type left out is no more frequent than any listed one, and appears later when it is
   * as frequent.
   */
  lemma {:induction false} SummaryListsTheMostFrequent(events: seq<Record>)
    ensures var s := Summarize(events); var names := FirstAppearances(events);
            && s.total == |events|
            && |s.top| == (if |names| < TopCount then |names| else TopCount)
            && Ranked(s.top)
            && (forall t :: t in s.top ==> && t.position < |names| && names[t.position] == t.name
                                           && t.count == Occurrences(events, t.name))
            && (forall i, j :: 0 <= i < j < |s.top| ==> s.top[i].name != s.top[j].name)
            && (forall t, i :: t in s.top && 0 <= i < |names| && names[i] !in NameSet(s.top)
                  ==> NotAfter(t, Tally(names[i], Occurrences(events, names[i]), i)))
  {
    var names := FirstAppearances(events);
    var counts := Counts(events);
    var items := Tallies(names, counts, 0);
    var ranked := Rank(items);
    TopFiveLeadsTheRest(ranked);
    TopOfTallies(names, counts, items, ranked);
  }

  /** The top five of the ranked items of a dict with distinct keys: distinct keys, each with
    * its count, and no key left out ahead of a listed one. */
  lemma TopOfTallies(names: seq<string>, counts: map<string, nat>, items: seq<Tally>, ranked: seq<Tally>)
    requires Distinct(names) && forall n :: n in names ==> n in counts
    requires items == Tallies(names, counts, 0) && ranked == Rank(items)
    requires forall a, b :: a in TopFive(ranked) && b in ranked[|TopFive(ranked)|..] ==> NotAfter(a, b)
    ensures var top := TopFive(ranked);
            && |top| == (if |names| < TopCount then |names| else TopCount)
            && (forall t :: t in top ==> t.position < |names| && names[t.position] == t.name && t.count == counts[t.name])
            && (forall i, j :: 0 <= i < j < |top| ==> top[i].name != top[j].name)
            && (forall t, i :: t in top && 0 <= i < |names| && names[i] !in NameSet(top)
                  ==> NotAfter(t, Tally(names[i], counts[names[i]], i)))
  {
    assert |ranked| == |items| by {
      assert |multiset(ranked)| == |multiset(items)|;
    }
    RankedFromItems(names, counts, items, ranked);
    PermutationKeepsDistinct(items, ranked);
    TopNamesDistinct(names, items, ranked);
    LeftOutTrail(names, counts, items, ranked);
  }

  /** Distinct items with distinct keys keep their keys distinct in any order. */
  lemma TopNamesDistinct(names: seq<string>, items: seq<Tally>, ranked: seq<Tally>)
    requires Distinct(names) && |items| == |names|
    requires forall i :: 0 <= i < |items| ==> items[i].name == names[i] && items[i].position == i
    requires forall t :: t in ranked ==> t.position < |items| && items[t.position] == t
    requires forall i, j :: 0 <= i < j < |ranked| ==> ranked[i] != ranked[j]
    ensures forall i, j :: 0 <= i < j < |TopFive(ranked)| ==> TopFive(ranked)[i].name != TopFive(ranked)[j].name
  {
    var top := TopFive(ranked);
    forall i, j | 0 <= i < j < |top|
      ensures top[i].name != top[j].name
    {
      assert ranked[i] in ranked && ranked[j] in ranked;
    }
  }

  /** An item whose key is not listed lies beyond the top five, so every listed item may stand
    * before it. */
  lemma LeftOutTrail(names: seq<string>, counts: map<string, nat>, items: seq<Tally>, ranked: seq<Tally>)
    requires forall n :: n in names ==> n in counts
    requires items == Tallies(names, counts, 0) && multiset(ranked) == multiset(items)
    requires forall a, b :: a in TopFive(ranked) && b in ranked[|TopFive(ranked)|..] ==> NotAfter(a, b)
    ensures forall t, i :: t in TopFive(ranked) && 0 <= i < |names| && names[i] !in NameSet(TopFive(ranked))
              ==> NotAfter(t, Tally(names[i], counts[names[i]], i))
  {
    var top := TopFive(ranked);
    forall t, i | t in top && 0 <= i < |names| && names[i] !in NameSet(top)
      ensures NotAfter(t, Tally(names[i], counts[names[i]], i))
    {
      assert items[i] in multiset(ranked);
      var k :| 0 <= k < |ranked| && ranked[k] == items[i];
      assert ranked[|top|..][k - |top|] == items[i];
    }
  }

  /** Every ranked item is the item at its own position. */
  lemma RankedFromItems(names: seq<string>, counts: map<string, nat>, items: seq<Tally>, ranked: seq<Tally>)
    requires forall n :: n in names ==> n in counts
    requires items == Tallies(names, counts, 0) && multiset(ranked) == multiset(items)
    ensures forall t :: t in ranked ==> t.position < |items| && items[t.position] == t
  {
    forall t | t in ranked
      ensures t.position < |items| && items[t.position] == t
    {
      assert t in multiset(items);
      var i :| 0 <= i < |items| && items[i] == t;
    }
  }

  /** A reordering of a list without repeats has no repeats. */
  lemma PermutationKeepsDistinct<T>(a: seq<T>, b: seq<T>)
    requires multiset(a) == multiset(b)
    requires forall i, j :: 0 <= i < j < |a| ==> a[i] != a[j]
    ensures forall i, j :: 0 <= i < j < |b| ==> b[i] != b[j]
  {
    forall i, j | 0 <= i < j < |b|
      ensures b[i] != b[j]
    {
      if b[i] == b[j] {
        assert b == b[..j] + b[j..];
        assert b[i] in b[..j] && b[j] in b[j..];
        assert multiset(b)[b[j]] == multiset(b[..j])[b[j]] + multiset(b[j..])[b[j]];
        AtMostOnce(a, b[j]);
        assert false;
      }
    }
  }

  /** A list without repeats holds each value at most once. */
  lemma {:induction false} AtMostOnce<T>(a: seq<T>, x: T)
    requires forall i, j :: 0 <= i < j < |a| ==> a[i] != a[j]
    ensures multiset(a)[x] <= 1
  {
    if a != [] {
      assert a == [a[0]] + a[1..];
      AtMostOnce(a[1..], x);
      if a[0] == x {
        assert x !in a[1..];
      }
    }
  }

  /**
   * _summarize_events (warsim/Awareness.py:124-132): the summary of the events, so it lists the
   * most frequent event types (at most five, most frequent first, ties in first-appearance
   * order), each name with its count.
   */
  method SummarizeEvents(events: seq<Record>) returns (s: Summary)
    ensures s == Summarize(events)
    ensures s.total == |events|
    ensures |s.top| <= TopCount && Ranked(s.top)
    ensures forall t :: t in s.top ==> t.name in FirstAppearances(events) && t.count == Occurrences(events, t.name)
  {
    var order, counts := CountTypes(events);
    assert counts == Counts(events);
    var items := Tallies(order, counts, 0);
    var ranked := Rank(items);
    var top := TopFive(ranked);
    s := Summary(|events|, top);
    SummaryListsTheMostFrequent(events);
  }

  /** Either the reflection found no event log, or no recent event, or it summarises them. */
  datatype Reflection = NoEventsFound | QuietPeriod | Reflected(summary: Summary)

  /**
   * The decision part of `reflect` (warsim/Awareness.py:99-114): without an event log there is
   * nothing to reflect on; with one, a summary is made of the recent records when there are any,
   * and otherwise the period was quiet. Writing the reflection file and self.json is not modelled.
   */
  method Reflect(log: Option<seq<Line>>, now: int, lookbackHours: int) returns (r: Reflection)
    ensures log.None? <==> r == NoEventsFound
    ensures r == QuietPeriod <==> log.Some? && Recent(Newest(log.value), now, Cutoff(now, lookbackHours)) == []
    ensures r.Reflected? ==> && r.summary == Summarize(Recent(Newest(log.value), now, Cutoff(now, lookbackHours)))
                             && 1 <= r.summary.total <= Window
  {
    if log.None? {
      return NoEventsFound;
    }
    var kept := RecentRecords(log.value, now, lookbackHours);
    if kept == [] {
      return QuietPeriod;
    }
    var s := SummarizeEvents(kept);
    r := Reflected(s);
  }

  // ---------------------------------------------------------------------------------------------
  // Memory

  /** The `_memory` dict and its two helpers (warsim/Awareness.py:200-205); saving it to
    * memory.json is not modelled. */
  class Memory {
    var entries: map<string, string>

    constructor (loaded: map<string, string>)
      ensures entries == loaded
    {
      entries := loaded;
    }

    /** recall: the value stored under the key, or None. */
    function Recall(key: string): (r: Option<string>)
      reads this
      ensures r.Some? <==> key in entries
      ensures r.Some? ==> r.value == entries[key]
    {
      if key in entries then Some(entries[key]) else None
    }

    /** remember: afterwards the key recalls the value, and every other key recalls what it did. */
    method Remember(key: string, value: string)
      modifies this
      ensures entries == old(entries)[key := value]
      ensures Recall(key) == Some(value)
      ensures forall k :: k != key ==> Recall(k) == old(Recall(k))
    {
      entries := entries[key := value];
    }
  }
}
