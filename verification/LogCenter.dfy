/** The bounded log: eviction, folding, cursor pages and live watchers. */
module LogCenter {
  import opened Text
  import opened Routing

  datatype Entry = Entry(number: nat, time: int, level: int, source: string, message: string, repeat_: nat)

  datatype Settings = Settings(captureLevel: int, recordDestinations: bool, maxEntries: int, maxBytes: int)

  const DEBUG := 1
  const INFO := 2
  const ERROR := 4
  const DEFAULT_MAX_ENTRIES := 20000
  const DEFAULT_MAX_BYTES := 8388608
  const MAX_MESSAGE := 4096
  const FOLD_WINDOW := 30000000000
  const REPEAT_LIMIT := 0x1_0000_0000
  const MAX_PAGE := 1000
  const WATCH_BUFFER := 512

  function Normalized(s: Settings): (r: Settings)
    ensures r.maxEntries > 0 && r.maxBytes > 0 && DEBUG <= r.captureLevel <= ERROR
  {
    Settings(if DEBUG <= s.captureLevel <= ERROR then s.captureLevel else INFO, s.recordDestinations,
             if s.maxEntries <= 0 then DEFAULT_MAX_ENTRIES else s.maxEntries,
             if s.maxBytes <= 0 then DEFAULT_MAX_BYTES else s.maxBytes)
  }

  function Size(e: Entry): nat { |e.message| + |e.source| + 48 }

  function Sizes(entries: seq<Entry>): nat
  {
    if entries == [] then 0 else Size(entries[0]) + Sizes(entries[1..])
  }

  // ---- filters ----

  datatype Filter = Filter(minLevel: int, sources: seq<string>, contains: string, pattern: Option<string -> bool>,
                           since: Option<int>, until: Option<int>)

  predicate Contains(s: string, part: string)
  {
    part <= s || (s != [] && Contains(s[1..], part))
  }

  predicate Match(f: Filter, e: Entry)
  {
    && e.level >= f.minLevel
    && (f.sources == [] || e.source in f.sources)
    && (f.since.Some? ==> e.time >= f.since.value)
    && (f.until.Some? ==> e.time <= f.until.value)
    && (f.contains == "" || Contains(Lower(e.message), Lower(f.contains)))
    && (f.pattern.Some? ==> f.pattern.value(e.message))
  }

  /** The matching entries, oldest first. */
  function Matching(entries: seq<Entry>, f: Filter): seq<Entry>
  {
    if entries == [] then []
    else
      var front, last := Matching(entries[..|entries| - 1], f), entries[|entries| - 1];
      if Match(f, last) then front + [last] else front
  }

  // ---- state ----

  datatype Watcher = Watcher(filter: Filter, room: nat, queue: seq<Entry>, lost: nat)

  datatype Log = Log(settings: Settings, entries: seq<Entry>, bytes: int, next: nat, dropped: nat, cleared: nat,
                     watchers: map<nat, Watcher>)

  function Opened(s: Settings): Log { Log(Normalized(s), [], 0, 1, 0, 0, map[]) }

  /** How many of the oldest entries have to go. */
  function Excess(s: Settings, entries: seq<Entry>, bytes: int): (n: nat)
    ensures n <= |entries|
  {
    if entries != [] && (|entries| > s.maxEntries || bytes > s.maxBytes) then 1 + Excess(s, entries[1..], bytes - Size(entries[0]))
    else 0
  }

  function Evicted(l: Log): Log
  {
    var n := Excess(l.settings, l.entries, l.bytes);
    l.(entries := l.entries[n..], bytes := l.bytes - Sizes(l.entries[..n]), dropped := l.dropped + n)
  }

  /** A full queue loses the entry and counts it. */
  function Offered(w: Watcher, e: Entry): Watcher
  {
    if !Match(w.filter, e) then w
    else if |w.queue| < w.room then w.(queue := w.queue + [e])
    else w.(lost := w.lost + 1)
  }

  function Notified(watchers: map<nat, Watcher>, e: Entry): map<nat, Watcher>
  {
    map id | id in watchers :: Offered(watchers[id], e)
  }

  function TrimNewlines(s: string): string
  {
    if s != [] && (s[|s| - 1] == '\r' || s[|s| - 1] == '\n') then TrimNewlines(s[..|s| - 1]) else s
  }

  function Shortened(s: string): string
  {
    var t := TrimNewlines(s);
    if |t| > MAX_MESSAGE then t[..MAX_MESSAGE] + " [cut]" else t
  }

  /** What is recorded of a message, if anything; `mask` removes destinations. */
  function Accepted(s: Settings, level: int, source: string, message: string, mask: string -> string): Option<string>
  {
    var text := Shortened(message);
    if text == "" || level < s.captureLevel then None
    else if !s.recordDestinations && source != "core" && source != "subscription" then Some(mask(text))
    else Some(text)
  }

  /** The latest entry says the same and is recent enough. */
  predicate Folds(entries: seq<Entry>, time: int, level: int, source: string, message: string)
  {
    && entries != []
    && var last := entries[|entries| - 1];
       last.source == source && last.level == level && last.message == message && time - last.time < FOLD_WINDOW
  }

  /** The entry a message becomes: the last one repeated, or the next one. */
  function Recorded(l: Log, time: int, level: int, source: string, message: string): Entry
  {
    if Folds(l.entries, time, level, source, message) then
      var last := l.entries[|l.entries| - 1];
      last.(repeat_ := (last.repeat_ + 1) % REPEAT_LIMIT, time := time)
    else Entry(l.next, time, level, source, message, 1)
  }

  function Stored(l: Log, time: int, level: int, source: string, message: string): Log
  {
    var e := Recorded(l, time, level, source, message);
    if Folds(l.entries, time, level, source, message) then l.(entries := l.entries[|l.entries| - 1 := e])
    else Evicted(l.(entries := l.entries + [e], bytes := l.bytes + Size(e), next := l.next + 1))
  }

  function AfterWrite(l: Log, time: int, level: int, source: string, message: string, mask: string -> string): Log
  {
    match Accepted(l.settings, level, source, message, mask)
    case None => l
    case Some(text) =>
      var stored := Stored(l, time, level, source, text);
      stored.(watchers := Notified(l.watchers, Recorded(l, time, level, source, text)))
  }

  function AfterSettings(l: Log, s: Settings): Log { Evicted(l.(settings := Normalized(s))) }

  function AfterClear(l: Log): Log { l.(entries := [], bytes := 0, cleared := l.cleared + |l.entries|) }

  function After(entries: seq<Entry>, cursor: nat): seq<Entry>
  {
    if entries == [] then []
    else
      var front, last := After(entries[..|entries| - 1], cursor), entries[|entries| - 1];
      if last.number > cursor then front + [last] else front
  }

  function Replay(l: Log, f: Filter, cursor: nat): seq<Entry> { Matching(After(l.entries, cursor), f) }

  function AfterWatch(l: Log, id: nat, f: Filter, cursor: nat): Log
  {
    var replay := Replay(l, f, cursor);
    l.(watchers := l.watchers[id := Watcher(f, |replay| + WATCH_BUFFER, replay, 0)])
  }

  function AfterClose(l: Log, id: nat): Log { l.(watchers := l.watchers - {id}) }

  /** A reader takes the head of its queue. */
  function AfterTake(l: Log, id: nat): Log
  {
    if id in l.watchers && l.watchers[id].queue != [] then
      l.(watchers := l.watchers[id := l.watchers[id].(queue := l.watchers[id].queue[1..])])
    else l
  }

  // ---- what every operation keeps ----

  ghost predicate Numbered(l: Log)
  {
    l.next >= 1 + |l.entries| && forall i :: 0 <= i < |l.entries| ==> l.entries[i].number == l.next - |l.entries| + i
  }

  /** The size is right, both bounds hold, numbers run up to the last issued one, and none is unaccounted for. */
  ghost predicate Inv(l: Log)
  {
    && l.bytes == Sizes(l.entries)
    && |l.entries| <= l.settings.maxEntries && l.bytes <= l.settings.maxBytes
    && 0 < l.settings.maxEntries && 0 < l.settings.maxBytes
    && Numbered(l)
    && l.next - 1 == |l.entries| + l.dropped + l.cleared
  }

  lemma {:induction false} SizesSplit(a: seq<Entry>, b: seq<Entry>)
    ensures Sizes(a + b) == Sizes(a) + Sizes(b)
  {
    if a == [] {
      assert a + b == b;
    } else {
      assert (a + b)[0] == a[0] && (a + b)[1..] == a[1..] + b;
      SizesSplit(a[1..], b);
    }
  }

  /** Eviction stops as soon as both bounds hold: one entry fewer would break one of them. */
  lemma {:induction false} EvictionIsLeast(s: Settings, entries: seq<Entry>)
    requires s.maxEntries > 0 && s.maxBytes > 0
    ensures var n := Excess(s, entries, Sizes(entries));
            && |entries| - n <= s.maxEntries && Sizes(entries[n..]) <= s.maxBytes
            && (n > 0 ==> |entries| - (n - 1) > s.maxEntries || Sizes(entries[n - 1..]) > s.maxBytes)
            && Sizes(entries) - Sizes(entries[..n]) == Sizes(entries[n..])
  {
    hide Size;
    var n := Excess(s, entries, Sizes(entries));
    SplitAt(entries, n);
    assert entries[0..] == entries;
    if n > 0 {
      var rest := entries[1..];
      EvictionIsLeast(s, rest);
      hide Sizes;
      assert rest[n - 1..] == entries[n..];
      assert n > 1 ==> rest[n - 2..] == entries[n - 1..];
    }
  }

  lemma SplitAt(entries: seq<Entry>, n: nat)
    requires n <= |entries|
    ensures Sizes(entries) == Sizes(entries[..n]) + Sizes(entries[n..])
  {
    hide Sizes;
    assert entries == entries[..n] + entries[n..];
    SizesSplit(entries[..n], entries[n..]);
  }

  lemma EvictKeepsInv(l: Log)
    requires l.settings.maxEntries > 0 && l.settings.maxBytes > 0 && l.bytes == Sizes(l.entries)
    requires Numbered(l) && l.next - 1 == |l.entries| + l.dropped + l.cleared
    ensures Inv(Evicted(l))
  {
    hide Excess, Sizes;
    EvictionIsLeast(l.settings, l.entries);
  }

  lemma StoreKeepsInv(l: Log, time: int, level: int, source: string, message: string)
    requires Inv(l)
    ensures Inv(Stored(l, time, level, source, message))
  {
    hide Evicted, Sizes;
    var e := Recorded(l, time, level, source, message);
    if Folds(l.entries, time, level, source, message) {
      LastReplaced(l.entries, e);
    } else {
      SizesSplit(l.entries, [e]);
      OneSize(e);
      EvictKeepsInv(l.(entries := l.entries + [e], bytes := l.bytes + Size(e), next := l.next + 1));
    }
  }

  lemma OneSize(e: Entry)
    ensures Sizes([e]) == Size(e)
  {
    assert [e][1..] == [];
  }

  lemma LastReplaced(entries: seq<Entry>, e: Entry)
    requires entries != [] && Size(entries[|entries| - 1]) == Size(e)
    ensures Sizes(entries[|entries| - 1 := e]) == Sizes(entries)
  {
    hide Size, Sizes;
    var front, last := entries[..|entries| - 1], entries[|entries| - 1];
    assert entries == front + [last] && entries[|entries| - 1 := e] == front + [e];
    SizesSplit(front, [last]);
    SizesSplit(front, [e]);
    OneSize(last);
    OneSize(e);
  }

  datatype Event =
    | Write(time: int, level: int, source: string, message: string, mask: string -> string)
    | SetSettings(settings: Settings)
    | Clear
    | Watch(id: nat, filter: Filter, cursor: nat)
    | Take(id: nat)
    | Close(id: nat)

  function Step(l: Log, e: Event): Log
  {
    match e
    case Write(time, level, source, message, mask) => AfterWrite(l, time, level, source, message, mask)
    case SetSettings(s) => AfterSettings(l, s)
    case Clear => AfterClear(l)
    case Watch(id, f, cursor) => AfterWatch(l, id, f, cursor)
    case Take(id) => AfterTake(l, id)
    case Close(id) => AfterClose(l, id)
  }

  function Run(l: Log, events: seq<Event>): Log
  {
    if events == [] then l else Step(Run(l, events[..|events| - 1]), events[|events| - 1])
  }

  lemma StepKeepsInv(l: Log, e: Event)
    requires Inv(l)
    ensures Inv(Step(l, e))
  {
    hide Sizes, Evicted, Stored, Accepted, Recorded, Replay;
    match e
    case Write(time, level, source, message, mask) =>
      match Accepted(l.settings, level, source, message, mask) {
        case None =>
        case Some(text) => StoreKeepsInv(l, time, level, source, text);
      }
    case SetSettings(s) => EvictKeepsInv(l.(settings := Normalized(s)));
    case Clear => NoSize();
    case _ =>
  }

  lemma NoSize()
    ensures Sizes([]) == 0
  {
  }

  /** In every run the counters agree with the entries and every number is accounted for. */
  lemma {:induction false} RunKeepsInv(s: Settings, events: seq<Event>)
    ensures Inv(Run(Opened(s), events))
  {
    hide Step, Inv;
    if events == [] {
      OpenedIsSound(s);
    } else {
      RunKeepsInv(s, events[..|events| - 1]);
      StepKeepsInv(Run(Opened(s), events[..|events| - 1]), events[|events| - 1]);
    }
  }

  lemma OpenedIsSound(s: Settings)
    ensures Inv(Opened(s))
  {
  }

  // ---- watchers ----

  /** What one watcher should see of an event: the entry it records, if the filter takes it. */
  function Due(l: Log, f: Filter, e: Event): seq<Entry>
  {
    if !e.Write? then []
    else match Accepted(l.settings, e.level, e.source, e.message, e.mask)
         case None => []
         case Some(text) =>
           var entry := Recorded(l, e.time, e.level, e.source, text);
           if Match(f, entry) then [entry] else []
  }

  function DueOver(l: Log, f: Filter, events: seq<Event>): seq<Entry>
  {
    if events == [] then []
    else DueOver(l, f, events[..|events| - 1]) + Due(Run(l, events[..|events| - 1]), f, events[|events| - 1])
  }

  /** What a reader has taken from its queue over a run. */
  function Taken(l: Log, id: nat, events: seq<Event>): seq<Entry>
  {
    if events == [] then []
    else
      var before := Run(l, events[..|events| - 1]);
      Taken(l, id, events[..|events| - 1])
      + if events[|events| - 1] == Take(id) && id in before.watchers && before.watchers[id].queue != [] then [before.watchers[id].queue[0]] else []
  }

  /** The watcher neither closes nor is its name used again. */
  predicate Open(id: nat, events: seq<Event>)
  {
    forall i :: 0 <= i < |events| ==> events[i] != Close(id) && !(events[i].Watch? && events[i].id == id)
  }

  ghost predicate InStep(w: Watcher, taken: seq<Entry>, due: seq<Entry>)
  {
    && |taken| + |w.queue| + w.lost == |due|
    && |w.queue| <= w.room
    && (w.lost == 0 ==> taken + w.queue == due)
  }

  lemma OfferKeepsStep(w: Watcher, taken: seq<Entry>, due: seq<Entry>, e: Entry)
    requires InStep(w, taken, due)
    ensures InStep(Offered(w, e), taken, due + if Match(w.filter, e) then [e] else [])
  {
    hide Match;
  }

  lemma StepKeepsWatcher(l: Log, id: nat, e: Event, taken: seq<Entry>, due: seq<Entry>)
    requires id in l.watchers && InStep(l.watchers[id], taken, due)
    requires e != Close(id) && !(e.Watch? && e.id == id)
    ensures var w, after := l.watchers[id], Step(l, e);
            var more := if e == Take(id) && w.queue != [] then [w.queue[0]] else [];
            && id in after.watchers && after.watchers[id].filter == w.filter
            && InStep(after.watchers[id], taken + more, due + Due(l, w.filter, e))
  {
    hide Match, Evicted, Stored, Accepted, Recorded, Replay;
    var w := l.watchers[id];
    match e
    case Write(time, level, source, message, mask) =>
      match Accepted(l.settings, level, source, message, mask) {
        case None => assert taken + [] == taken && due + [] == due;
        case Some(text) =>
          OfferKeepsStep(w, taken, due, Recorded(l, time, level, source, text));
          assert taken + [] == taken;
      }
    case SetSettings(s) =>
      EvictLeavesWatchers(l.(settings := Normalized(s)));
      assert taken + [] == taken && due + [] == due;
    case Take(k) =>
      assert due + [] == due && taken + [] == taken;
      if k == id && w.queue != [] {
        assert taken + w.queue == taken + [w.queue[0]] + w.queue[1..];
      }
    case _ =>
      assert taken + [] == taken && due + [] == due;
  }

  lemma EvictLeavesWatchers(l: Log)
    ensures Evicted(l).watchers == l.watchers
  {
  }

  /**
   * A watcher that lost nothing has been given, in order, the replay and then every later entry
   * its filter takes; otherwise the count of lost entries is exact.
   */
  lemma {:induction false} WatcherSeesEverything(l: Log, id: nat, f: Filter, cursor: nat, events: seq<Event>)
    requires Open(id, events)
    ensures var start := AfterWatch(l, id, f, cursor);
            var end := Run(start, events);
            var due := Replay(l, f, cursor) + DueOver(start, f, events);
            && id in end.watchers && end.watchers[id].filter == f
            && InStep(end.watchers[id], Taken(start, id, events), due)
  {
    hide Step, Replay, Due, InStep;
    var start, replay := AfterWatch(l, id, f, cursor), Replay(l, f, cursor);
    if events == [] {
      ReplayInStep(start.watchers[id], replay);
      assert replay + [] == replay;
    } else {
      var front, last := events[..|events| - 1], events[|events| - 1];
      WatcherSeesEverything(l, id, f, cursor, front);
      var due := replay + DueOver(start, f, front);
      StepKeepsWatcher(Run(start, front), id, last, Taken(start, id, front), due);
      assert due + Due(Run(start, front), f, last) == replay + DueOver(start, f, events);
    }
  }

  lemma ReplayInStep(w: Watcher, replay: seq<Entry>)
    requires w.queue == replay && w.lost == 0 && |replay| <= w.room
    ensures InStep(w, [], replay)
  {
    assert [] + replay == replay;
  }

  // ---- pages ----

  /** The matching entries older than a cursor (zero: all), newest first. */
  function Newest(entries: seq<Entry>, f: Filter, before: nat): seq<Entry>
  {
    if entries == [] then []
    else
      var rest, last := Newest(entries[..|entries| - 1], f, before), entries[|entries| - 1];
      if (before == 0 || last.number < before) && Match(f, last) then [last] + rest else rest
  }

  function Reversed(s: seq<Entry>): seq<Entry>
  {
    if s == [] then [] else [s[|s| - 1]] + Reversed(s[..|s| - 1])
  }

  datatype Page = Page(entries: seq<Entry>, before: nat)

  function Limited(limit: int): nat { if limit <= 0 || limit > MAX_PAGE then MAX_PAGE else limit }

  /** One page of a listing: its head, and a cursor when there is more. */
  function Cut(all: seq<Entry>, limit: nat): Page
    requires limit > 0
  {
    if |all| > limit then Page(all[..limit], all[limit - 1].number) else Page(all, 0)
  }

  ghost predicate Increasing(entries: seq<Entry>)
  {
    && (forall i :: 0 <= i < |entries| ==> entries[i].number > 0)
    && forall i, j :: 0 <= i < j < |entries| ==> entries[i].number < entries[j].number
  }

  lemma SoundLogIncreases(l: Log)
    requires Inv(l)
    ensures Increasing(l.entries)
  {
    hide Sizes;
  }

  lemma {:induction false} NewestReverses(entries: seq<Entry>, f: Filter)
    ensures Newest(entries, f, 0) == Reversed(Matching(entries, f))
  {
    hide Match;
    if entries != [] {
      var front, last := entries[..|entries| - 1], entries[|entries| - 1];
      NewestReverses(front, f);
      assert (Matching(front, f) + [last])[..|Matching(front, f)|] == Matching(front, f);
    }
  }

  /** A cursor above every entry excludes none. */
  lemma {:induction false} AboveAll(entries: seq<Entry>, f: Filter, a: nat, b: nat)
    requires forall i :: 0 <= i < |entries| ==> (a == 0 || entries[i].number < a) && (b == 0 || entries[i].number < b)
    ensures Newest(entries, f, a) == Newest(entries, f, b)
  {
    hide Match;
    if entries != [] { AboveAll(entries[..|entries| - 1], f, a, b); }
  }

  lemma {:induction false} NewestComeFrom(entries: seq<Entry>, f: Filter, before: nat)
    ensures forall e :: e in Newest(entries, f, before) ==> e in entries && (before == 0 || e.number < before)
  {
    hide Match;
    if entries != [] { NewestComeFrom(entries[..|entries| - 1], f, before); }
  }

  /** The cursor of the k-th entry of a listing lists exactly what follows it. */
  lemma {:induction false} CursorContinues(entries: seq<Entry>, f: Filter, before: nat, k: nat)
    requires Increasing(entries) && 0 < k <= |Newest(entries, f, before)|
    ensures var all := Newest(entries, f, before);
            all[k - 1].number > 0 && Newest(entries, f, all[k - 1].number) == all[k..]
  {
    hide Match, Newest, Increasing;
    var all := Newest(entries, f, before);
    NotEmpty(entries, f, before);
    var front, last := entries[..|entries| - 1], entries[|entries| - 1];
    var rest := Newest(front, f, before);
    FrontIncreases(entries);
    NewestUnfolds(entries, f, before);
    if (before == 0 || last.number < before) && Match(f, last) {
      if k == 1 {
        AboveAll(front, f, before, last.number);
        NewestUnfolds(entries, f, last.number);
      } else {
        CursorContinues(front, f, before, k - 1);
        NewestComeFrom(front, f, before);
        assert rest[k - 2] in rest;
        NewestUnfolds(entries, f, rest[k - 2].number);
      }
    } else {
      CursorContinues(front, f, before, k);
      NewestComeFrom(front, f, before);
      assert rest[k - 1] in rest;
      NewestUnfolds(entries, f, rest[k - 1].number);
    }
  }

  lemma NotEmpty(entries: seq<Entry>, f: Filter, before: nat)
    requires Newest(entries, f, before) != []
    ensures entries != []
  {
  }

  lemma FrontIncreases(entries: seq<Entry>)
    requires Increasing(entries) && entries != []
    ensures Increasing(entries[..|entries| - 1]) && entries[|entries| - 1].number > 0
    ensures forall e :: e in entries[..|entries| - 1] ==> e.number < entries[|entries| - 1].number
  {
  }

  lemma NewestUnfolds(entries: seq<Entry>, f: Filter, before: nat)
    requires entries != []
    ensures var rest, last := Newest(entries[..|entries| - 1], f, before), entries[|entries| - 1];
            Newest(entries, f, before) == if (before == 0 || last.number < before) && Match(f, last) then [last] + rest else rest
  {
    hide Match;
  }

  /** All pages of a query, one after the other. */
  ghost function Pages(entries: seq<Entry>, f: Filter, before: nat, limit: nat): seq<Entry>
    requires Increasing(entries) && limit > 0
    decreases |Newest(entries, f, before)|
  {
    var all := Newest(entries, f, before);
    var page := Cut(all, limit);
    if |all| <= limit then page.entries
    else
      CursorContinues(entries, f, before, limit);
      page.entries + Pages(entries, f, page.before, limit)
  }

  /** Following the cursors lists the matching entries, newest first, each exactly once. */
  lemma {:induction false} PagesListEverything(entries: seq<Entry>, f: Filter, before: nat, limit: nat)
    requires Increasing(entries) && limit > 0
    ensures Pages(entries, f, before, limit) == Newest(entries, f, before)
    ensures Pages(entries, f, 0, limit) == Reversed(Matching(entries, f))
    decreases |Newest(entries, f, before)|
  {
    hide Newest, Matching, Reversed;
    FollowPages(entries, f, before, limit);
    FollowPages(entries, f, 0, limit);
    NewestReverses(entries, f);
  }

  lemma {:induction false} FollowPages(entries: seq<Entry>, f: Filter, before: nat, limit: nat)
    requires Increasing(entries) && limit > 0
    ensures Pages(entries, f, before, limit) == Newest(entries, f, before)
    decreases |Newest(entries, f, before)|
  {
    hide Newest, Increasing;
    var all := Newest(entries, f, before);
    if |all| > limit {
      CursorContinues(entries, f, before, limit);
      FollowPages(entries, f, all[limit - 1].number, limit);
      assert all == all[..limit] + all[limit..];
    }
  }

  /** A page with a cursor is full and is followed by a page that is not empty. */
  lemma NoEmptyPageFollows(entries: seq<Entry>, f: Filter, before: nat, limit: nat)
    requires Increasing(entries) && limit > 0
    ensures var page := Cut(Newest(entries, f, before), limit);
            page.before != 0 ==> |page.entries| == limit && Cut(Newest(entries, f, page.before), limit).entries != []
  {
    hide Newest, Increasing;
    var all := Newest(entries, f, before);
    if |all| > limit { CursorContinues(entries, f, before, limit); }
  }

  /** After any run, following the cursors from the newest entry lists exactly the reversed export. */
  lemma PagesOfAnyRun(s: Settings, events: seq<Event>, f: Filter, limit: int)
    ensures var entries := Run(Opened(s), events).entries;
            Increasing(entries) && Pages(entries, f, 0, Limited(limit)) == Reversed(Matching(entries, f))
  {
    hide Run, Inv, Increasing, Pages;
    RunKeepsInv(s, events);
    SoundLogIncreases(Run(Opened(s), events));
    PagesListEverything(Run(Opened(s), events).entries, f, 0, Limited(limit));
  }
}
