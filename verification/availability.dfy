/** The availability check: given a candidate time, the weekly schedule and
    the appointments of the surrounding days, decide whether the candidate is
    bookable and list up to eight free slots later that day.

    Every time here is in the business-local frame, in minutes. */
module Availability {

  import opened Wrappers
  import opened Clock
  import opened Models

  /** Distance between two consecutive scan points when nothing is in the way. */
  const ScanStep := 30
  /** Most slots ever listed. */
  const MaxSlotsShown := 8
  const FallbackDuration := 30
  const FallbackBuffer := 5
  const DefaultTimezone := "America/Bogota"

  /** A configured number read with JavaScript's `v || fallback`: a missing
      value and a zero both give the fallback, so with a non-zero fallback a
      configured 0 never reaches the arithmetic that uses it. */
  function OrDefault(v: Option<int>, fallback: int): (r: int)
    ensures r == fallback || (v == Some(r) && r != 0)
    ensures v.Some? && v.value != 0 ==> r == v.value
    ensures fallback != 0 ==> r != 0
  {
    if v.Some? && v.value != 0 then v.value else fallback
  }

  /** The slot length used for every availability decision. */
  function SlotDuration(s: Settings): int {
    OrDefault(s.defaultDuration, FallbackDuration)
  }

  /** The idle time required after every appointment. */
  function BufferTime(s: Settings): int {
    OrDefault(s.bufferTime, FallbackBuffer)
  }

  /** The zone name in effect; a missing or empty name gives the default. */
  function TimezoneName(s: Settings): string {
    if s.timezone.Some? && s.timezone.value != "" then s.timezone.value else DefaultTimezone
  }

  // ---------------------------------------------------------------------
  // Busy blocks and the overlap test

  /** The time an existing appointment keeps busy, from its start to the end
      of the buffer that follows it. */
  datatype Block = Block(start: int, end: int)

  /** The half-open interval [t, t + len) meets the block [start, end). */
  predicate Overlaps(b: Block, t: int, len: int) {
    t < b.end && b.start < t + len
  }

  predicate NoConflict(blocks: seq<Block>, t: int, len: int) {
    forall k :: 0 <= k < |blocks| ==> !Overlaps(blocks[k], t, len)
  }

  /** The block of one appointment: its local start, and its local end (or
      start plus the slot length when no end is stored) pushed back by the
      buffer. */
  function BusyBlock(a: Appointment, shift: int -> int, dur: int, buf: int): (b: Block)
    ensures b.start == shift(a.start)
    ensures a.end.Some? ==> b.end == shift(a.end.value) + buf
    ensures a.end.None? ==> b.end == b.start + dur + buf
  {
    var s := shift(a.start);
    var e := match a.end case Some(x) => shift(x) case None => s + dur;
    Block(s, e + buf)
  }

  function BusyBlocks(found: seq<Appointment>, shift: int -> int, dur: int, buf: int): (r: seq<Block>)
    ensures |r| == |found|
    ensures forall i :: 0 <= i < |found| ==> r[i] == BusyBlock(found[i], shift, dur, buf)
  {
    if |found| == 0 then []
    else [BusyBlock(found[0], shift, dur, buf)] + BusyBlocks(found[1..], shift, dur, buf)
  }

  // ---------------------------------------------------------------------
  // Stable sort of blocks by start

  predicate SortedByStart(s: seq<Block>) {
    forall i, j :: 0 <= i < j < |s| ==> s[i].start <= s[j].start
  }

  /** Puts `b` in front of the first block that does not start earlier, so
      that blocks with equal starts keep their relative order. */
  function Insert(b: Block, s: seq<Block>): (r: seq<Block>)
    requires SortedByStart(s)
    ensures SortedByStart(r)
    ensures multiset(r) == multiset(s) + multiset{b}
  {
    if |s| == 0 then [b]
    else if b.start <= s[0].start then [b] + s
    else
      var rest := Insert(b, s[1..]);
      assert s == [s[0]] + s[1..];
      assert forall x :: x in rest ==> x.start >= s[0].start by {
        forall x | x in rest ensures x.start >= s[0].start {
          assert x in multiset(rest);
          assert x == b || x in multiset(s[1..]);
        }
      }
      [s[0]] + rest
  }

  /** Insertion sort by start: a stable sort, as the engine's array sort is. */
  function SortByStart(s: seq<Block>): (r: seq<Block>)
    ensures SortedByStart(r)
    ensures multiset(r) == multiset(s)
  {
    if |s| == 0 then []
    else
      assert s == [s[0]] + s[1..];
      Insert(s[0], SortByStart(s[1..]))
  }

  // ---------------------------------------------------------------------
  // Conflict end

  /** The end of the first block (in list order) that the interval
      [t, t + len) overlaps, or None when it overlaps none. */
  function ConflictEnd(blocks: seq<Block>, t: int, len: int): (r: Option<int>)
    ensures r.None? <==> NoConflict(blocks, t, len)
    ensures r.Some? ==> r.value > t
    ensures r.Some? ==>
      exists i :: 0 <= i < |blocks| && Overlaps(blocks[i], t, len) && blocks[i].end == r.value
        && forall j :: 0 <= j < i ==> !Overlaps(blocks[j], t, len)
  {
    if |blocks| == 0 then None
    else if Overlaps(blocks[0], t, len) then Some(blocks[0].end)
    else
      var r := ConflictEnd(blocks[1..], t, len);
      assert forall j :: 1 <= j < |blocks| ==> blocks[j] == blocks[1..][j - 1];
      r
  }

  /** Sorting keeps exactly the same blocks. */
  lemma SortKeepsMembers(blocks: seq<Block>, c: Block)
    ensures c in blocks <==> c in SortByStart(blocks)
  {
    var sorted := SortByStart(blocks);
    assert c in blocks <==> c in multiset(blocks);
    assert c in sorted <==> c in multiset(sorted);
  }

  /** On blocks sorted by start, the first overlapping block starts no later
      than any other overlapping block. */
  lemma FirstOverlapStartsEarliest(sorted: seq<Block>, t: int, len: int, i: nat)
    requires SortedByStart(sorted)
    requires i < |sorted| && forall j :: 0 <= j < i ==> !Overlaps(sorted[j], t, len)
    ensures forall c :: c in sorted && Overlaps(c, t, len) ==> sorted[i].start <= c.start
  {
    forall c | c in sorted && Overlaps(c, t, len)
      ensures sorted[i].start <= c.start
    {
      var k :| 0 <= k < |sorted| && sorted[k] == c;
      assert i <= k;
    }
  }

  /** On blocks sorted by start, the conflict end belongs to the
      earliest-starting block the interval overlaps. */
  lemma ConflictEndIsEarliest(blocks: seq<Block>, t: int, len: int)
    ensures ConflictEnd(SortByStart(blocks), t, len).Some? ==>
      exists b :: (b in blocks && Overlaps(b, t, len)
        && b.end == ConflictEnd(SortByStart(blocks), t, len).value
        && forall c :: c in blocks && Overlaps(c, t, len) ==> b.start <= c.start)
  {
    var sorted := SortByStart(blocks);
    if ConflictEnd(sorted, t, len).None? { return; }
    var e := ConflictEnd(sorted, t, len).value;
    var i :| 0 <= i < |sorted| && Overlaps(sorted[i], t, len) && sorted[i].end == e
      && forall j :: 0 <= j < i ==> !Overlaps(sorted[j], t, len);
    var b := sorted[i];
    SortKeepsMembers(blocks, b);
    FirstOverlapStartsEarliest(sorted, t, len, i);
    forall c | c in blocks && Overlaps(c, t, len)
      ensures b.start <= c.start
    {
      SortKeepsMembers(blocks, c);
    }
  }

  /** Whether some block overlaps does not depend on the blocks' order. */
  lemma ConflictIgnoresOrder(a: seq<Block>, b: seq<Block>, t: int, len: int)
    requires multiset(a) == multiset(b)
    ensures NoConflict(a, t, len) <==> NoConflict(b, t, len)
  {
    if !NoConflict(a, t, len) {
      var k :| 0 <= k < |a| && Overlaps(a[k], t, len);
      assert a[k] in multiset(b);
      var m :| 0 <= m < |b| && b[m] == a[k];
    }
    if !NoConflict(b, t, len) {
      var k :| 0 <= k < |b| && Overlaps(b[k], t, len);
      assert b[k] in multiset(a);
      var m :| 0 <= m < |a| && a[m] == b[k];
    }
  }

  // ---------------------------------------------------------------------
  // The slot scan

  /** The free-slot scan from `t` up to `close`: a scan point inside some
      busy block jumps to that block's conflict end; otherwise it is listed
      when it lies after `now` and a slot of length `dur` (the buffer not
      counted) ends by `close`, and the scan moves on by one step. Conflicts
      are judged with the slot length plus the buffer. */
  function Scan(blocks: seq<Block>, t: int, close: int, now: int, dur: int, buf: int): (r: seq<int>)
    ensures forall i :: 0 <= i < |r| ==>
      && t <= r[i] < close
      && now < r[i]
      && r[i] + dur <= close
      && NoConflict(blocks, r[i], dur + buf)
    ensures forall i, j :: 0 <= i < j < |r| ==> r[i] < r[j]
    decreases close - t
  {
    if t >= close then []
    else
      match ConflictEnd(blocks, t, dur + buf)
      case Some(e) => Scan(blocks, e, close, now, dur, buf)
      case None =>
        if now < t && t + dur <= close then [t] + Scan(blocks, t + ScanStep, close, now, dur, buf)
        else Scan(blocks, t + ScanStep, close, now, dur, buf)
  }

  /** With no appointments at all, the scan lists exactly the points of the
      30-minute grid from `t` that lie after `now` and leave room for a slot
      before `close`. */
  lemma {:induction false} ScanOnEmptyDay(t: int, close: int, now: int, dur: int, buf: int, x: int)
    ensures x in Scan([], t, close, now, dur, buf) <==>
      t <= x < close && (x - t) % ScanStep == 0 && now < x && x + dur <= close
    decreases close - t
  {
    if t < close {
      assert ConflictEnd([], t, dur + buf).None?;
      ScanOnEmptyDay(t + ScanStep, close, now, dur, buf, x);
      if x != t && t <= x && (x - t) % ScanStep == 0 {
        assert t + ScanStep <= x;
        assert (x - (t + ScanStep)) % ScanStep == 0;
      }
      if t + ScanStep <= x && (x - (t + ScanStep)) % ScanStep == 0 {
        assert (x - t) % ScanStep == 0;
      }
    }
  }

  /** Blocks that end by the scan's start, or start no earlier than the
      closing time plus a slot and its buffer, such as appointments of the
      neighbouring days that the date query also returns, do not change the
      listed slots: the scan then lists exactly what it lists on an empty
      day. */
  lemma {:induction false} ScanIgnoresOtherDays(blocks: seq<Block>, t: int, close: int, now: int, dur: int, buf: int)
    requires forall k :: 0 <= k < |blocks| ==> blocks[k].end <= t || close + dur + buf <= blocks[k].start
    ensures Scan(blocks, t, close, now, dur, buf) == Scan([], t, close, now, dur, buf)
    decreases close - t
  {
    if t < close {
      assert NoConflict(blocks, t, dur + buf);
      assert ConflictEnd([], t, dur + buf).None?;
      ScanIgnoresOtherDays(blocks, t + ScanStep, close, now, dur, buf);
    }
  }

  /** At most `n` leading elements. */
  function Take(s: seq<int>, n: nat): (r: seq<int>)
    ensures |r| <= n && |r| <= |s|
    ensures |r| == if |s| <= n then |s| else n
    ensures r == s[..|r|]
    ensures |s| <= n ==> r == s
  {
    if |s| <= n then s else s[..n]
  }

  // ---------------------------------------------------------------------
  // The decision

  /** The outcome of one availability check. `Busy` and `Free` carry the
      free slots found later that day. */
  datatype Availability =
    | Failed                                   // unknown timezone or unreadable date
    | Closed(day: string)                      // no schedule entry, or closed that day
    | OutsideHours(open: ClockTime, close: ClockTime)
    | Busy(slots: seq<int>)                    // the candidate conflicts
    | Free(slots: seq<int>)                    // the candidate is bookable


  /** The candidate's weekday has an entry in the schedule marked open. */
  predicate OpenOn(hours: map<string, DayHours>, c: int) {
    WeekdayName(c) in hours && hours[WeekdayName(c)].isOpen
  }

  /** Opening and closing instants of `c`'s day. */
  function OpenAt(h: DayHours, c: int): int { At(c, h.open) }
  function CloseAt(h: DayHours, c: int): int { At(c, h.close) }

  predicate WithinHours(h: DayHours, c: int) {
    OpenAt(h, c) <= c < CloseAt(h, c)
  }

  /** What every listed slot satisfies: it lies strictly after `now`, at or
      after opening and before closing, leaves room for a slot of length
      `dur` before closing, and no busy block meets its slot plus buffer; the
      list is strictly ascending and holds at most eight entries. */
  predicate GoodSlots(slots: seq<int>, now: int, open: int, close: int, dur: int, buf: int, blocks: seq<Block>) {
    && |slots| <= MaxSlotsShown
    && (forall i, j :: 0 <= i < j < |slots| ==> slots[i] < slots[j])
    && (forall i :: 0 <= i < |slots| ==>
          && now < slots[i]
          && open <= slots[i] < close
          && slots[i] + dur <= close
          && NoConflict(blocks, slots[i], dur + buf))
  }

  /** The slots listed for a day meet `GoodSlots` against the blocks in any
      order. */
  lemma ListedSlotsAreGood(now: int, open: int, close: int, dur: int, buf: int, blocks: seq<Block>)
    ensures GoodSlots(Take(Scan(SortByStart(blocks), open, close, now, dur, buf), MaxSlotsShown),
                      now, open, close, dur, buf, blocks)
  {
    var sorted := SortByStart(blocks);
    var all := Scan(sorted, open, close, now, dur, buf);
    var slots := Take(all, MaxSlotsShown);
    forall i | 0 <= i < |slots|
      ensures NoConflict(blocks, slots[i], dur + buf)
    {
      assert slots[i] == all[i];
      ConflictIgnoresOrder(sorted, blocks, slots[i], dur + buf);
    }
  }

  /** The decision on local times: `now` and candidate `c` already shifted,
      `blocks` the busy blocks in the order the store listed them. */
  function Decide(now: int, c: int, hours: map<string, DayHours>, dur: int, buf: int, blocks: seq<Block>): (r: Availability)
    ensures !r.Failed?
    ensures r.Closed? <==> !OpenOn(hours, c)
    ensures r.Closed? ==> r.day == WeekdayName(c)
    ensures r.OutsideHours? <==> OpenOn(hours, c) && !WithinHours(hours[WeekdayName(c)], c)
    ensures r.OutsideHours? ==> r.open == hours[WeekdayName(c)].open && r.close == hours[WeekdayName(c)].close
    ensures r.Busy? <==>
      OpenOn(hours, c) && WithinHours(hours[WeekdayName(c)], c) && !NoConflict(blocks, c, dur + buf)
    ensures r.Free? <==>
      OpenOn(hours, c) && WithinHours(hours[WeekdayName(c)], c) && NoConflict(blocks, c, dur + buf)
    ensures r.Busy? || r.Free? ==>
      GoodSlots(r.slots, now, OpenAt(hours[WeekdayName(c)], c), CloseAt(hours[WeekdayName(c)], c), dur, buf, blocks)
  {
    var day := WeekdayName(c);
    if day !in hours || !hours[day].isOpen then Closed(day)
    else
      var h := hours[day];
      var open := OpenAt(h, c);
      var close := CloseAt(h, c);
      if c < open || c >= close then OutsideHours(h.open, h.close)
      else
        var sorted := SortByStart(blocks);
        var conflict := ConflictEnd(sorted, c, dur + buf);
        var slots := Take(Scan(sorted, open, close, now, dur, buf), MaxSlotsShown);
        ConflictIgnoresOrder(sorted, blocks, c, dur + buf);
        ListedSlotsAreGood(now, open, close, dur, buf, blocks);
        if conflict.Some? then Busy(slots) else Free(slots)
  }

  /** The availability check on absolute inputs: the zone named in the
      settings shifts "now", the candidate and every appointment into local
      time; the slot length and buffer come from the settings. `found` is
      what the store's date query returned, in its order. */
  function CheckAvailability(env: Env, persona: Persona, dateTime: string, found: seq<Appointment>): (r: Availability)
    ensures r.Failed? <==> env.zones(TimezoneName(persona.settings)).None? || env.parseDate(dateTime).None?
    ensures !r.Failed? ==>
      var shift := env.zones(TimezoneName(persona.settings)).value;
      var c := shift(env.parseDate(dateTime).value);
      var dur := SlotDuration(persona.settings);
      var buf := BufferTime(persona.settings);
      && (r.Free? <==>
            && OpenOn(persona.hours, c)
            && WithinHours(persona.hours[WeekdayName(c)], c)
            && forall k :: 0 <= k < |found| ==> !Overlaps(BusyBlock(found[k], shift, dur, buf), c, dur + buf))
      && (r.Busy? <==>
            && OpenOn(persona.hours, c)
            && WithinHours(persona.hours[WeekdayName(c)], c)
            && exists k :: 0 <= k < |found| && Overlaps(BusyBlock(found[k], shift, dur, buf), c, dur + buf))
  {
    match env.zones(TimezoneName(persona.settings))
    case None => Failed
    case Some(shift) =>
      match env.parseDate(dateTime)
      case None => Failed
      case Some(instant) =>
        var dur := SlotDuration(persona.settings);
        var buf := BufferTime(persona.settings);
        Decide(shift(env.now), shift(instant), persona.hours, dur, buf, BusyBlocks(found, shift, dur, buf))
  }

  // ---------------------------------------------------------------------
  // Properties of the check

  /** The start and stored end of each appointment, in list order. */
  function Times(a: seq<Appointment>): (r: seq<(int, Option<int>)>)
    ensures |r| == |a|
    ensures forall i :: 0 <= i < |a| ==> r[i] == (a[i].start, a[i].end)
  {
    if |a| == 0 then [] else [(a[0].start, a[0].end)] + Times(a[1..])
  }

  /** Only the appointments' times enter the check: a cancelled (or
      completed, or other owner's) appointment blocks its time exactly as a
      confirmed one does. */
  lemma OnlyTimesMatter(env: Env, persona: Persona, dateTime: string, a: seq<Appointment>, b: seq<Appointment>)
    requires Times(a) == Times(b)
    ensures CheckAvailability(env, persona, dateTime, a) == CheckAvailability(env, persona, dateTime, b)
  {
    var shift := env.zones(TimezoneName(persona.settings));
    if shift.Some? {
      SameTimesSameBlocks(a, b, shift.value, SlotDuration(persona.settings), BufferTime(persona.settings));
    }
  }

  lemma SameTimesSameBlocks(a: seq<Appointment>, b: seq<Appointment>, shift: int -> int, dur: int, buf: int)
    requires Times(a) == Times(b)
    ensures BusyBlocks(a, shift, dur, buf) == BusyBlocks(b, shift, dur, buf)
  {
    assert forall i :: 0 <= i < |a| ==> (a[i].start, a[i].end) == Times(a)[i] == Times(b)[i] == (b[i].start, b[i].end);
  }

  /** A configured slot length or buffer of 0 is read as missing: the check
      then uses 30 and 5 minutes. */
  lemma ZeroSettingsMeanDefaults(env: Env, persona: Persona, dateTime: string, found: seq<Appointment>)
    ensures
      var zeros := persona.(settings := persona.settings.(defaultDuration := Some(0), bufferTime := Some(0)));
      var fallback := persona.(settings := persona.settings.(defaultDuration := Some(30), bufferTime := Some(5)));
      CheckAvailability(env, zeros, dateTime, found) == CheckAvailability(env, fallback, dateTime, found)
  {
  }

  /** Overlap is half-open at both ends: a block that ends exactly at the
      candidate, or starts exactly where the candidate's slot plus buffer
      ends, leaves it free; a block starting one minute earlier makes it
      busy. */
  lemma BoundariesAreHalfOpen(now: int, c: int, hours: map<string, DayHours>, dur: int, buf: int, s: int, e: int)
    requires OpenOn(hours, c) && WithinHours(hours[WeekdayName(c)], c)
    ensures Decide(now, c, hours, dur, buf, [Block(s, c)]).Free?
    ensures Decide(now, c, hours, dur, buf, [Block(c + dur + buf, e)]).Free?
    ensures e > c ==> Decide(now, c, hours, dur, buf, [Block(c + dur + buf - 1, e)]).Busy?
  {
  }

  /** Closed days and times outside the opening hours are refused before
      any slot is computed; the opening minute itself is bookable ground
      and the closing minute is not. */
  lemma OpeningMinuteInClosingMinuteOut(now: int, c: int, hours: map<string, DayHours>, dur: int, buf: int, blocks: seq<Block>)
    requires OpenOn(hours, c)
    ensures c == OpenAt(hours[WeekdayName(c)], c) && c < CloseAt(hours[WeekdayName(c)], c) ==>
      !Decide(now, c, hours, dur, buf, blocks).OutsideHours?
    ensures c == CloseAt(hours[WeekdayName(c)], c) ==> Decide(now, c, hours, dur, buf, blocks).OutsideHours?
  {
  }
}
