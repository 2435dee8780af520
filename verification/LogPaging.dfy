/** Following page cursors while the log is written, trimmed, resized and cleared in between. */
module LogPaging {
  import opened Text
  import opened LogCenter

  /** The number of the oldest entry still held, or the next one to issue when none is. */
  function Oldest(l: Log): int { l.next - |l.entries| }

  lemma {:induction false} RunKeepsInvFrom(l: Log, events: seq<Event>)
    requires Inv(l)
    ensures Inv(Run(l, events))
  {
    hide Step, Inv;
    if events != [] {
      RunKeepsInvFrom(l, events[..|events| - 1]);
      StepKeepsInv(Run(l, events[..|events| - 1]), events[|events| - 1]);
    }
  }

  lemma {:induction false} NewestHas(entries: seq<Entry>, f: Filter, before: nat, e: Entry)
    ensures e in Newest(entries, f, before) <==> e in entries && Match(f, e) && (before == 0 || e.number < before)
  {
    hide Match, Newest;
    if entries == [] {
      NoEntries(f, before);
    } else {
      NewestHas(entries[..|entries| - 1], f, before, e);
      NewestUnfolds(entries, f, before);
      assert entries == entries[..|entries| - 1] + [entries[|entries| - 1]];
    }
  }

  lemma NoEntries(f: Filter, before: nat)
    ensures Newest([], f, before) == []
  {
  }

  /** Dropping the oldest entries only shortens a listing at its end. */
  lemma {:induction false} DroppedFromTheEnd(entries: seq<Entry>, f: Filter, before: nat, n: nat)
    requires n <= |entries|
    ensures Newest(entries[n..], f, before) <= Newest(entries, f, before)
  {
    hide Match, Newest;
    NoEntries(f, before);
    if n < |entries| {
      var front, kept := entries[..|entries| - 1], entries[n..];
      DroppedFromTheEnd(front, f, before, n);
      assert kept[..|kept| - 1] == front[n..] && kept[|kept| - 1] == entries[|entries| - 1];
      NewestUnfolds(entries, f, before);
      NewestUnfolds(kept, f, before);
    } else {
      assert entries[n..] == [];
    }
  }

  /** Entries at or above the cursor are no part of a listing. */
  lemma NewerIsIgnored(entries: seq<Entry>, e: Entry, f: Filter, before: nat)
    requires 0 < before <= e.number
    ensures Newest(entries + [e], f, before) == Newest(entries, f, before)
  {
    hide Match, Newest;
    NewestUnfolds(entries + [e], f, before);
    assert (entries + [e])[..|entries|] == entries;
  }

  /** What one operation leaves of a listing below an issued cursor. */
  ghost predicate Trims(l: Log, v: Log, f: Filter, before: nat)
  {
    && Newest(v.entries, f, before) <= Newest(l.entries, f, before)
    && Oldest(l) <= Oldest(v) && l.next <= v.next
    && forall e :: e in Newest(l.entries, f, before) && e.number >= Oldest(v) ==> e in Newest(v.entries, f, before)
  }

  lemma SameListing(l: Log, v: Log, f: Filter, before: nat)
    requires Newest(v.entries, f, before) == Newest(l.entries, f, before) && Oldest(l) <= Oldest(v) && l.next <= v.next
    ensures Trims(l, v, f, before)
  {
  }

  lemma EvictTrims(l: Log, f: Filter, before: nat)
    requires Numbered(l)
    ensures Trims(l, Evicted(l), f, before)
  {
    hide Newest, Match, Excess, Sizes;
    var n := Excess(l.settings, l.entries, l.bytes);
    DroppedFromTheEnd(l.entries, f, before, n);
    forall e | e in Newest(l.entries, f, before) && e.number >= Oldest(l) + n ensures e in Newest(l.entries[n..], f, before) {
      NewestHas(l.entries, f, before, e);
      NewestHas(l.entries[n..], f, before, e);
      var i :| 0 <= i < |l.entries| && l.entries[i] == e;
      assert l.entries[n..][i - n] == e;
    }
  }

  lemma TrimsChain(l: Log, m: Log, v: Log, f: Filter, before: nat)
    requires Trims(l, m, f, before) && Trims(m, v, f, before)
    ensures Trims(l, v, f, before)
  {
    hide Newest;
  }

  lemma StoreTrims(l: Log, time: int, level: int, source: string, message: string, f: Filter, before: nat)
    requires Inv(l) && 0 < before < l.next
    ensures Trims(l, Stored(l, time, level, source, message), f, before)
  {
    hide Newest, Evicted, Sizes, Trims, Match;
    var e := Recorded(l, time, level, source, message);
    var v := Stored(l, time, level, source, message);
    if Folds(l.entries, time, level, source, message) {
      var front, last := l.entries[..|l.entries| - 1], l.entries[|l.entries| - 1];
      assert l.entries == front + [last] && v.entries == front + [e];
      assert e.number == last.number == l.next - 1;
      NewerIsIgnored(front, last, f, before);
      NewerIsIgnored(front, e, f, before);
      SameListing(l, v, f, before);
    } else {
      var longer := l.(entries := l.entries + [e], bytes := l.bytes + Size(e), next := l.next + 1);
      NewerIsIgnored(l.entries, e, f, before);
      SameListing(l, longer, f, before);
      EvictTrims(longer, f, before);
      TrimsChain(l, longer, v, f, before);
    }
  }

  lemma ClearTrims(l: Log, f: Filter, before: nat)
    requires Numbered(l)
    ensures Trims(l, AfterClear(l), f, before)
  {
    hide Newest, Match;
    NoEntries(f, before);
    forall e | e in Newest(l.entries, f, before) ensures e.number < l.next {
      NewestHas(l.entries, f, before, e);
    }
  }

  lemma StepTrims(l: Log, e: Event, f: Filter, before: nat)
    requires Inv(l) && 0 < before < l.next
    ensures Trims(l, Step(l, e), f, before)
  {
    var v := Step(l, e);
    hide Newest, Evicted, Sizes, Trims, Match, Stored, Accepted, Recorded, Replay;
    match e
    case Write(time, level, source, message, mask) =>
      match Accepted(l.settings, level, source, message, mask) {
        case None => SameListing(l, v, f, before);
        case Some(text) =>
          StoreTrims(l, time, level, source, text, f, before);
          WatchersAside(l, Stored(l, time, level, source, text), v, f, before);
      }
    case SetSettings(s) =>
      var set_ := l.(settings := Normalized(s));
      SameListing(l, set_, f, before);
      EvictTrims(set_, f, before);
      TrimsChain(l, set_, v, f, before);
    case Clear => ClearTrims(l, f, before);
    case _ => SameListing(l, v, f, before);
  }

  lemma WatchersAside(l: Log, m: Log, v: Log, f: Filter, before: nat)
    requires Trims(l, m, f, before) && v.entries == m.entries && v.next == m.next
    ensures Trims(l, v, f, before)
  {
    hide Newest;
  }

  lemma {:induction false} RunTrims(l: Log, events: seq<Event>, f: Filter, before: nat)
    requires Inv(l) && 0 < before < l.next
    ensures Trims(l, Run(l, events), f, before) && before < Run(l, events).next
  {
    hide Step, Inv, Newest;
    if events == [] {
      SameListing(l, l, f, before);
    } else {
      var m := Run(l, events[..|events| - 1]);
      RunTrims(l, events[..|events| - 1], f, before);
      RunKeepsInvFrom(l, events[..|events| - 1]);
      StepTrims(m, events[|events| - 1], f, before);
      TrimsChain(l, m, Run(l, events), f, before);
    }
  }

  // ---- pages with gaps ----

  /** The pages of one query, the log moving on by one run between each page and the next. */
  function Follow(l: Log, f: Filter, before: nat, limit: nat, gaps: seq<seq<Event>>): seq<Entry>
    requires limit > 0
    decreases |gaps|
  {
    var page := Cut(Newest(l.entries, f, before), limit);
    if page.before == 0 || gaps == [] then page.entries
    else page.entries + Follow(Run(l, gaps[0]), f, page.before, limit, gaps[1..])
  }

  /** The log when the last page was read. */
  function LogAtEnd(l: Log, f: Filter, before: nat, limit: nat, gaps: seq<seq<Event>>): Log
    requires limit > 0
    decreases |gaps|
  {
    var page := Cut(Newest(l.entries, f, before), limit);
    if page.before == 0 || gaps == [] then l else LogAtEnd(Run(l, gaps[0]), f, page.before, limit, gaps[1..])
  }

  /** The last page read carries no cursor. */
  predicate Ends(l: Log, f: Filter, before: nat, limit: nat, gaps: seq<seq<Event>>)
    requires limit > 0
    decreases |gaps|
  {
    var page := Cut(Newest(l.entries, f, before), limit);
    page.before == 0 || (gaps != [] && Ends(Run(l, gaps[0]), f, page.before, limit, gaps[1..]))
  }

  /** The cursor of a page is a number the log has issued. */
  lemma CursorIsIssued(l: Log, f: Filter, before: nat, limit: nat)
    requires Inv(l) && limit > 0 && |Newest(l.entries, f, before)| > limit
    ensures var all := Newest(l.entries, f, before);
            && 0 < all[limit - 1].number < l.next
            && Newest(l.entries, f, all[limit - 1].number) == all[limit..]
  {
    hide Newest, Match;
    SoundLogIncreases(l);
    CursorContinues(l.entries, f, before, limit);
    var e := Newest(l.entries, f, before)[limit - 1];
    NewestHas(l.entries, f, before, e);
    hide Sizes;
  }

  /**
   * Whatever is written, evicted, resized or cleared between the pages: together they are a prefix of
   * the listing at the first page - nothing twice, nothing skipped, nothing new - and when the walk
   * ends, an entry of that listing is missing only if the log no longer holds it.
   */
  lemma {:induction false} PagesSurviveChanges(l: Log, f: Filter, before: nat, limit: nat, gaps: seq<seq<Event>>)
    requires Inv(l) && limit > 0
    ensures Follow(l, f, before, limit, gaps) <= Newest(l.entries, f, before)
    ensures Oldest(l) <= Oldest(LogAtEnd(l, f, before, limit, gaps))
    ensures Ends(l, f, before, limit, gaps) ==>
              forall e :: e in Newest(l.entries, f, before) && e.number >= Oldest(LogAtEnd(l, f, before, limit, gaps))
                          ==> e in Follow(l, f, before, limit, gaps)
    decreases |gaps|
  {
    hide Newest, Inv, Run;
    var all := Newest(l.entries, f, before);
    if |all| > limit && gaps != [] {
      CursorIsIssued(l, f, before, limit);
      var cursor, v := all[limit - 1].number, Run(l, gaps[0]);
      RunTrims(l, gaps[0], f, cursor);
      RunKeepsInvFrom(l, gaps[0]);
      PagesSurviveChanges(v, f, cursor, limit, gaps[1..]);
      Joined(all, limit, Follow(v, f, cursor, limit, gaps[1..]), Newest(v.entries, f, cursor));
      assert all == all[..limit] + all[limit..];
    } else if |all| > limit {
      CursorIsIssued(l, f, before, limit);
    }
  }

  lemma Joined(all: seq<Entry>, limit: nat, found: seq<Entry>, listing: seq<Entry>)
    requires limit <= |all| && found <= listing && listing <= all[limit..]
    ensures all[..limit] + found <= all
  {
  }
}
