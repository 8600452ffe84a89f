/** The popup (popup.js): the compact duration text it displays, the persisted
    session store (the five most recent sessions, newest first, and the running
    total), and the start / stop / reset flows that talk to the background timer.

    `chrome.storage.local` is an in-memory `SessionStore`; the wall clock
    (`new Date()`) is the parameter `now`, in milliseconds. */
module Popup {
  import opened Wrappers
  import opened TimeText
  import opened Background

  // ---------------------------------------------------------------- formatCompactTime

  /** The parts `formatCompactTime` pushes: hours when there are any, minutes when
      there are any or hours were shown, seconds when there are any or nothing else
      was shown. */
  function CompactParts(seconds: int): seq<Part> {
    var hours, minutes, secs := Hours(seconds), Minutes(seconds), Secs(seconds);
    (if hours > 0 then [Part(hours, Hour)] else []) +
    (if minutes > 0 || hours > 0 then [Part(minutes, Minute)] else []) +
    (if secs > 0 || (hours == 0 && minutes == 0) then [Part(secs, Second)] else [])
  }

  /** `formatCompactTime`: the parts joined by single spaces, or "0s" when there are
      none (which happens exactly for a negative count). */
  function FormatCompactTime(seconds: int): (text: string)
    ensures text != []
    ensures seconds <= 0 ==> text == "0s"
  {
    var joined := Join(RenderAll(CompactParts(seconds)), ' ');
    CompactPartsShape(seconds);
    if joined == [] then "0s" else joined
  }

  lemma {:induction false} TotalSecondsConcat(a: seq<Part>, b: seq<Part>)
    ensures TotalSeconds(a + b) == TotalSeconds(a) + TotalSeconds(b)
  {
    if a != [] {
      assert (a + b)[0] == a[0];
      assert (a + b)[1..] == a[1..] + b;
      TotalSecondsConcat(a[1..], b);
      assert TotalSeconds(a + b) == PartSeconds(a[0]) + TotalSeconds(a[1..] + b);
    } else {
      assert a + b == b;
    }
  }

  /** A negative count gives no parts; any other count gives one to three parts
      whose values add up to it, in the order hours, minutes, seconds. */
  lemma CompactPartsShape(seconds: int)
    ensures seconds < 0 ==> CompactParts(seconds) == []
    ensures seconds >= 0 ==> 1 <= |CompactParts(seconds)| <= 3
    ensures seconds >= 0 ==> TotalSeconds(CompactParts(seconds)) == seconds
    ensures seconds == 0 ==> CompactParts(seconds) == [Part(0, Second)]
  {
    if seconds >= 0 {
      Decompose(seconds);
      var hours, minutes, secs := Hours(seconds), Minutes(seconds), Secs(seconds);
      var a := if hours > 0 then [Part(hours, Hour)] else [];
      var b := if minutes > 0 || hours > 0 then [Part(minutes, Minute)] else [];
      var c := if secs > 0 || (hours == 0 && minutes == 0) then [Part(secs, Second)] else [];
      assert CompactParts(seconds) == a + b + c;
      TotalSecondsConcat(a + b, c);
      TotalSecondsConcat(a, b);
      assert TotalSeconds(a) == hours * 3600;
      assert TotalSeconds(b) == minutes * 60;
      assert TotalSeconds(c) == secs;
    }
  }

  /** Reads compact duration text back: space-separated parts, their values summed. */
  function ParseCompactTime(text: string): Option<int> {
    var parts := ParseParts(Split(text, ' '));
    if parts.Some? then Some(TotalSeconds(parts.value)) else None
  }

  /** For a non-negative count there is at least one part, so no fallback is needed. */
  lemma FormatIsJoin(seconds: nat)
    ensures FormatCompactTime(seconds) == Join(RenderAll(CompactParts(seconds)), ' ')
  {
  }

  /** The compact text always denotes the count it was made from; a negative count,
      which has no parts, shows as zero. */
  lemma FormatRoundTrip(seconds: int)
    ensures ParseCompactTime(FormatCompactTime(seconds)) == Some(if seconds < 0 then 0 else seconds)
  {
    CompactPartsShape(seconds);
    if seconds < 0 {
      var zero := Render(Part(0, Second));
      assert FormatCompactTime(seconds) == zero;
      assert Split(zero, ' ') == [zero];
      PartRoundTrip(Part(0, Second));
      assert [zero][1..] == [];
      assert ParseParts([]) == Some([]);
      assert ParsePart([zero][0]) == Some(Part(0, Second));
      assert [Part(0, Second)] + [] == [Part(0, Second)];
      assert ParseParts([zero]) == Some([Part(0, Second)]);
    } else {
      var ps := CompactParts(seconds);
      FormatIsJoin(seconds);
      SplitJoin(RenderAll(ps), ' ');
      ParseRenderAll(ps);
    }
  }

  /** Which units a non-negative count's parts carry. */
  lemma CompactUnits(seconds: nat)
    ensures HasUnit(CompactParts(seconds), Hour) == (seconds >= 3600)
    ensures HasUnit(CompactParts(seconds), Minute) == (seconds >= 60)
    ensures HasUnit(CompactParts(seconds), Second) == (seconds < 60 || seconds % 60 != 0)
  {
    Decompose(seconds);
    var hours, minutes, secs := Hours(seconds), Minutes(seconds), Secs(seconds);
    var a := if hours > 0 then [Part(hours, Hour)] else [];
    var b := if minutes > 0 || hours > 0 then [Part(minutes, Minute)] else [];
    var c := if secs > 0 || (hours == 0 && minutes == 0) then [Part(secs, Second)] else [];
    assert CompactParts(seconds) == (a + b) + c;
    forall u: Unit
      ensures HasUnit(CompactParts(seconds), u) <==> HasUnit(a, u) || HasUnit(b, u) || HasUnit(c, u)
    {
      HasUnitConcat(a + b, c, u);
      HasUnitConcat(a, b, u);
    }
    assert HasUnit(a, Hour) == (hours > 0) by {
      if hours > 0 { assert a[0].unit == Hour; }
    }
    assert HasUnit(b, Minute) == (minutes > 0 || hours > 0) by {
      if minutes > 0 || hours > 0 { assert b[0].unit == Minute; }
    }
    assert HasUnit(c, Second) == (secs > 0 || (hours == 0 && minutes == 0)) by {
      if secs > 0 || (hours == 0 && minutes == 0) { assert c[0].unit == Second; }
    }
  }

  /** The hour part shows exactly from one hour up; the minute part from one minute
      up (so 3600 shows as "1h 0m"); the second part when the count is not a whole
      number of minutes or is under a minute. */
  lemma FormatShowsUnits(seconds: int)
    ensures ('h' in FormatCompactTime(seconds)) == (seconds >= 3600)
    ensures ('m' in FormatCompactTime(seconds)) == (seconds >= 60)
    ensures ('s' in FormatCompactTime(seconds)) == (seconds < 60 || seconds % 60 != 0)
  {
    if seconds >= 0 {
      var ps := CompactParts(seconds);
      FormatIsJoin(seconds);
      CompactUnits(seconds);
      UnitLetterInJoin(ps, Hour);
      UnitLetterInJoin(ps, Minute);
      UnitLetterInJoin(ps, Second);
    } else {
      assert FormatCompactTime(seconds) == "0s";
    }
  }

  // ---------------------------------------------------------------- formatDate

  /** The 12-hour clock of `formatDate`: the hour 0..23 as 1..12 and whether it is PM. */
  function ClockHour(hours: int): (r: (int, bool))
    requires 0 <= hours < 24
    ensures 1 <= r.0 <= 12
    ensures r.1 <==> hours >= 12
    ensures r.0 % 12 + (if r.1 then 12 else 0) == hours
  {
    var h := hours % 12;
    (if h != 0 then h else 12, hours >= 12)
  }

  /** `minutes.toString().padStart(2, '0')`. */
  function PadMinutes(minutes: nat): (text: string)
    requires minutes < 60
    ensures |text| == 2 && AllDigits(text) && DigitsValue(text) == minutes
  {
    var digits := Digits(minutes);
    DigitsRoundTrip(minutes);
    if |digits| < 2 then
      assert digits == [DigitChar(minutes)];
      ['0'] + digits
    else digits
  }

  // ---------------------------------------------------------------- the session store

  /** One finished session as stored: `date` and `timestamp` are both the moment the
      record was made; `timestamp` is what the delete button identifies it by. */
  datatype Record = Record(date: int, duration: int, timestamp: int)

  const MaxRecords: nat := 5

  /** `records.findIndex(r => r.timestamp === timestamp)`. */
  function FindIndex(records: seq<Record>, timestamp: int): (i: int)
    ensures -1 <= i < |records|
    ensures i == -1 <==> forall k :: 0 <= k < |records| ==> records[k].timestamp != timestamp
    ensures i >= 0 ==> records[i].timestamp == timestamp
    ensures i >= 0 ==> forall k :: 0 <= k < i ==> records[k].timestamp != timestamp
  {
    if records == [] then -1
    else if records[0].timestamp == timestamp then 0
    else
      var j := FindIndex(records[1..], timestamp);
      if j == -1 then -1 else j + 1
  }

  /** The durations of the records, in list order. */
  function Durations(records: seq<Record>): (ds: seq<int>)
    ensures |ds| == |records|
    ensures forall k :: 0 <= k < |records| ==> ds[k] == records[k].duration
  {
    seq(|records|, k requires 0 <= k < |records| => records[k].duration)
  }

  function SumDurations(records: seq<Record>): int {
    if records == [] then 0 else records[0].duration + SumDurations(records[1..])
  }

  lemma {:induction false} SumConcat(a: seq<Record>, b: seq<Record>)
    ensures SumDurations(a + b) == SumDurations(a) + SumDurations(b)
  {
    if a == [] {
      assert a + b == b;
    } else {
      assert (a + b)[0] == a[0];
      assert (a + b)[1..] == a[1..] + b;
      SumConcat(a[1..], b);
    }
  }

  /** Taking one record out of the list takes its duration out of the sum. */
  lemma SumWithout(records: seq<Record>, i: nat)
    requires i < |records|
    ensures SumDurations(records[..i] + records[i + 1..]) == SumDurations(records) - records[i].duration
  {
    assert records == records[..i] + ([records[i]] + records[i + 1..]);
    SumConcat(records[..i], [records[i]] + records[i + 1..]);
    SumConcat(records[..i], records[i + 1..]);
    assert SumDurations([records[i]] + records[i + 1..]) == records[i].duration + SumDurations(records[i + 1..]) by {
      assert ([records[i]] + records[i + 1..])[1..] == records[i + 1..];
    }
  }

  /** Newest first: timestamps never increase along the list. */
  predicate NewestFirst(records: seq<Record>) {
    forall i, j :: 0 <= i < j < |records| ==> records[i].timestamp >= records[j].timestamp
  }

  /** What `chrome.storage.local.get` hands back: either key may be missing. */
  datatype Saved = Saved(records: Option<seq<Record>>, totalTime: Option<int>)

  class SessionStore {
    /** The persisted `records`, newest first. */
    var records: seq<Record>
    /** The persisted `totalTime` in seconds; nothing stops it going negative. */
    var totalTime: int
    /** The durations pushed out of `records` by the five-record cap since the last reset. */
    ghost var evicted: int

    /** The total counts every recorded session: those still listed and those evicted. */
    ghost predicate Consistent()
      reads this
    {
      totalTime == SumDurations(records) + evicted
    }

    /** Loading applies the defaults: `data.records || []` and `data.totalTime || 0`. */
    constructor Load(saved: Saved)
      ensures records == (if saved.records.Some? then saved.records.value else [])
      ensures totalTime == (if saved.totalTime.Some? then saved.totalTime.value else 0)
      ensures evicted == 0
    {
      records := if saved.records.Some? then saved.records.value else [];
      totalTime := if saved.totalTime.Some? then saved.totalTime.value else 0;
      evicted := 0;
    }

    /** `addRecord`: `unshift` a record stamped `now`, then `pop` once if that made
        the list longer than five. */
    method AddRecord(duration: int, now: int)
      modifies this
      ensures |records| == if |old(records)| < MaxRecords then |old(records)| + 1 else |old(records)|
      ensures records[0] == Record(now, duration, now)
      ensures records[1..] == old(records)[..|records| - 1]
      ensures |old(records)| <= MaxRecords ==> |records| <= MaxRecords
      ensures |old(records)| >= MaxRecords ==>
        evicted == old(evicted) + old(records)[|old(records)| - 1].duration
      ensures totalTime == old(totalTime)
      ensures SumDurations(records) + evicted == old(SumDurations(records) + evicted) + duration
      ensures (old(NewestFirst(records)) && (old(records) != [] ==> old(records)[0].timestamp <= now)) ==>
        NewestFirst(records)
    {
      var rs := [Record(now, duration, now)] + records;
      assert rs[1..] == records;
      if |rs| > MaxRecords {
        var last := rs[|rs| - 1];
        assert rs == rs[..|rs| - 1] + [last];
        SumConcat(rs[..|rs| - 1], [last]);
        evicted := evicted + last.duration;
        rs := rs[..|rs| - 1];
      }
      records := rs;
    }

    /** `deleteRecord`: remove the first record with exactly this timestamp and take
        its duration off the total; an unknown timestamp changes nothing. */
    method DeleteRecord(timestamp: int)
      modifies this
      ensures var i := FindIndex(old(records), timestamp);
        if i == -1 then records == old(records) && totalTime == old(totalTime)
        else records == old(records)[..i] + old(records)[i + 1..] &&
             totalTime == old(totalTime) - old(records)[i].duration
      ensures evicted == old(evicted)
      ensures old(Consistent()) ==> Consistent()
      ensures old(NewestFirst(records)) ==> NewestFirst(records)
    {
      var recordIndex := FindIndex(records, timestamp);
      if recordIndex != -1 {
        var deleted := records[recordIndex];
        SumWithout(records, recordIndex);
        totalTime := totalTime - deleted.duration;
        records := records[..recordIndex] + records[recordIndex + 1..];
      }
    }

    /** `saveTime`: write the popup's running total. */
    method SaveTime(total: int)
      modifies this
      ensures totalTime == total && records == old(records) && evicted == old(evicted)
    {
      totalTime := total;
    }

    /** The storage half of `resetTimer`: total 0 and no records. */
    method Clear()
      modifies this
      ensures totalTime == 0 && records == [] && Consistent()
    {
      totalTime, records := 0, [];
      evicted := 0;
    }
  }

  // ---------------------------------------------------------------- the popup's flows

  /** `startTimer`: ask the background to start. */
  method StartTimer(timer: Timer, now: int)
    requires timer.Valid()
    modifies timer
    ensures timer.Valid() && timer.isRunning
    ensures old(timer.isRunning) ==> unchanged(timer)
    ensures !old(timer.isRunning) ==>
      timer.startTime == Some(now) && timer.elapsedSeconds == old(timer.elapsedSeconds)
  {
    var reply := HandleMessage(timer, "start", now);
  }

  /** `stopTimer`: ask the background to stop, add the `elapsed` it answers to the
      total and record that same value as the session's duration. Because the
      background answers its accumulated reading, the amount is every run since the
      last reset, not only the one just ended. */
  method StopTimer(timer: Timer, store: SessionStore, now: int) returns (elapsed: int)
    requires timer.Valid() && timer.ClockAfterStart(now)
    modifies timer, store
    ensures elapsed == if old(timer.isRunning) then old(timer.CurrentTime(now)) else 0
    ensures timer.Valid() && !timer.isRunning && timer.startTime == old(timer.startTime)
    ensures old(timer.isRunning) ==> timer.elapsedSeconds == old(timer.CurrentTime(now))
    ensures !old(timer.isRunning) ==> unchanged(timer)
    ensures |store.records| ==
      if |old(store.records)| < MaxRecords then |old(store.records)| + 1 else |old(store.records)|
    ensures store.totalTime == old(store.totalTime) + elapsed &&
      store.records[0] == Record(now, elapsed, now) &&
      store.records[1..] == old(store.records)[..|store.records| - 1]
    ensures |old(store.records)| <= MaxRecords ==> |store.records| <= MaxRecords
    ensures old(store.Consistent()) ==> store.Consistent()
    ensures (old(NewestFirst(store.records)) &&
             (old(store.records) != [] ==> old(store.records)[0].timestamp <= now)) ==>
      NewestFirst(store.records)
  {
    var reply := HandleMessage(timer, "stop", now);
    elapsed := reply.value.elapsed;
    store.SaveTime(store.totalTime + elapsed);
    store.AddRecord(elapsed, now);
  }

  /** `resetTimer`: reset the background timer and clear the stored total and records. */
  method ResetTimer(timer: Timer, store: SessionStore, now: int)
    requires timer.Valid()
    modifies timer, store
    ensures timer.Valid() && !timer.isRunning && timer.startTime == None && timer.elapsedSeconds == 0
    ensures store.totalTime == 0 && store.records == [] && store.Consistent()
  {
    var reply := HandleMessage(timer, "reset", now);
    store.Clear();
  }

  // ---------------------------------------------------------------- whole sessions

  /** A fresh timer started at 0 ms and stopped at 125 000 ms: the popup is told 125,
      keeps exactly one record, of 125 seconds, and shows a total of 125. */
  method OneSession() returns (elapsed: int, total: int, durations: seq<int>)
    ensures elapsed == 125 && total == 125 && durations == [125]
  {
    var timer := new Timer();
    var store := new SessionStore.Load(Saved(None, None));
    StartTimer(timer, 0);
    elapsed := StopTimer(timer, store, 125000);
    total := store.totalTime;
    durations := Durations(store.records);
  }

  /** Two runs of 60 and 40 seconds without a reset in between: the second stop is
      answered with the accumulated 100, so the total becomes 60 + 100 = 160 and the
      list shows 100 then 60, where the sessions themselves lasted 60 and 40. */
  method TwoSessions() returns (replies: seq<int>, total: int, durations: seq<int>)
    ensures replies == [60, 100] && total == 160 && durations == [100, 60]
  {
    var timer := new Timer();
    var store := new SessionStore.Load(Saved(None, None));
    StartTimer(timer, 0);
    var first := StopTimer(timer, store, 60000);
    StartTimer(timer, 100000);
    var second := StopTimer(timer, store, 140000);
    replies := [first, second];
    total := store.totalTime;
    durations := Durations(store.records);
  }
}
