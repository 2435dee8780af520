/** The log center as the object that appends, evicts, answers queries and feeds watchers. */
module LogStore {
  import opened Text
  import opened LogCenter

  class Center {
    var settings: Settings
    var entries: seq<Entry>
    var bytes: int
    var next: nat
    var dropped: nat
    ghost var cleared: nat
    var watchers: map<nat, Watcher>

    ghost function View(): Log
      reads this
    {
      Log(settings, entries, bytes, next, dropped, cleared, watchers)
    }

    constructor (s: Settings)
      ensures View() == Opened(s)
    {
      settings := Normalized(s);
      entries, bytes, next, dropped, cleared, watchers := [], 0, 1, 0, 0, map[];
    }

    method SetSettings(s: Settings) returns (r: Settings)
      modifies this
      ensures View() == AfterSettings(old(View()), s) && r == Normalized(s)
    {
      settings := Normalized(s);
      Evict();
      r := settings;
    }

    /** Drops the oldest entries until both bounds hold. */
    method Evict()
      modifies this
      ensures View() == Evicted(old(View()))
    {
      hide Size, Sizes, Excess;
      var drop := 0;
      NoSize();
      ghost var held := bytes;
      assert entries[0..] == entries && entries[..0] == [];
      while drop < |entries| && (|entries| - drop > settings.maxEntries || bytes > settings.maxBytes)
        invariant drop <= |entries| && entries == old(entries) && settings == old(settings)
        invariant next == old(next) && dropped == old(dropped) && cleared == old(cleared) && watchers == old(watchers)
        invariant bytes == held - Sizes(entries[..drop])
        invariant Excess(settings, entries, held) == drop + Excess(settings, entries[drop..], bytes)
      {
        OneMoreDropped(settings, entries, drop, bytes);
        bytes := bytes - Size(entries[drop]);
        drop := drop + 1;
      }
      NoExcess(settings, entries[drop..], bytes);
      assert entries[0..] == entries;
      if drop == 0 { return; }
      dropped := dropped + drop;
      entries := entries[drop..];
    }

    method Write(time: int, level: int, source: string, message: string, mask: string -> string)
      modifies this
      ensures View() == AfterWrite(old(View()), time, level, source, message, mask)
    {
      hide Stored, Recorded, Notified, Shortened;
      var text := Shortened(message);
      if text == "" { return; }
      if level < settings.captureLevel { return; }
      if !settings.recordDestinations && source != "core" && source != "subscription" {
        text := mask(text);
      }
      Record(time, level, source, text);
    }

    /** Folds the message into the latest entry or appends a new one, then tells the watchers. */
    method Record(time: int, level: int, source: string, text: string)
      modifies this
      ensures View() == Stored(old(View()), time, level, source, text)
                        .(watchers := Notified(old(watchers), Recorded(old(View()), time, level, source, text)))
    {
      hide Evicted, Notified, Size;
      var n := |entries|;
      if n > 0 {
        var last := entries[n - 1];
        if last.source == source && last.level == level && last.message == text && time - last.time < FOLD_WINDOW {
          last := last.(repeat_ := (last.repeat_ + 1) % REPEAT_LIMIT, time := time);
          entries := entries[n - 1 := last];
          Notify(last);
          return;
        }
      }
      var e := Entry(next, time, level, source, text, 1);
      next := next + 1;
      entries := entries + [e];
      bytes := bytes + Size(e);
      ghost var full := View();
      Evict();
      EvictLeavesWatchers(full);
      Notify(e);
    }

    /** Every watcher is offered the entry; a full queue never blocks the writer. */
    method Notify(e: Entry)
      modifies this`watchers
      ensures watchers == Notified(old(watchers), e)
    {
      hide Offered;
      var todo := watchers.Keys;
      while todo != {}
        invariant watchers.Keys == old(watchers).Keys && todo <= watchers.Keys
        invariant forall id :: id in watchers ==>
                                 watchers[id] == if id in todo then old(watchers)[id] else Offered(old(watchers)[id], e)
        decreases |todo|
      {
        var id :| id in todo;
        todo := todo - {id};
        watchers := watchers[id := Offered(watchers[id], e)];
      }
    }

    method Clear()
      modifies this
      ensures View() == AfterClear(old(View()))
    {
      cleared := cleared + |entries|;
      entries, bytes := [], 0;
    }

    method Query(f: Filter, before: nat, limit: int) returns (page: Page)
      ensures page == Cut(Newest(entries, f, before), Limited(limit))
    {
      hide Match, Newest;
      var size := Limited(limit);
      var found: seq<Entry> := [];
      ghost var all := Newest(entries, f, before);
      Whole(entries);
      Whole(all);
      for i := |entries| downto 0
        invariant |found| <= size && found + Newest(entries[..i], f, before) == all
      {
        var e := entries[i];
        ghost var front := entries[..i + 1];
        assert front[..i] == entries[..i];
        NewestUnfolds(front, f, before);
        Shift(found, e, Newest(entries[..i], f, before));
        if before != 0 && e.number >= before { continue; }
        if !Match(f, e) { continue; }
        if |found| == size {
          assert all[..size] == found;
          return Page(found, found[size - 1].number);
        }
        found := found + [e];
      }
      NoneFound(f, before);
      Whole(found);
      page := Page(found, 0);
    }

    method Export(f: Filter) returns (out: seq<Entry>)
      ensures out == Matching(entries, f)
    {
      hide Match;
      out := [];
      for i := 0 to |entries|
        invariant out == Matching(entries[..i], f)
      {
        assert entries[..i + 1][..i] == entries[..i];
        if Match(f, entries[i]) { out := out + [entries[i]]; }
      }
      assert entries[..|entries|] == entries;
    }

    /** Registers a watcher whose queue starts with the replay. */
    method Watch(id: nat, f: Filter, cursor: nat)
      requires id !in watchers
      modifies this`watchers
      ensures View() == AfterWatch(old(View()), id, f, cursor)
    {
      hide Match;
      var replay: seq<Entry> := [];
      for i := 0 to |entries|
        invariant watchers == old(watchers) && replay == Matching(After(entries[..i], cursor), f)
      {
        assert entries[..i + 1][..i] == entries[..i];
        MatchingAppend(After(entries[..i], cursor), entries[i], f);
        if entries[i].number > cursor && Match(f, entries[i]) { replay := replay + [entries[i]]; }
      }
      assert entries[..|entries|] == entries;
      watchers := watchers[id := Watcher(f, |replay| + WATCH_BUFFER, replay, 0)];
    }

    method Close(id: nat)
      modifies this`watchers
      ensures View() == AfterClose(old(View()), id)
    {
      watchers := watchers - {id};
    }
  }

  lemma NoneFound(f: Filter, before: nat)
    ensures Newest([], f, before) == []
  {
  }

  lemma OneMoreDropped(s: Settings, entries: seq<Entry>, drop: nat, bytes: int)
    requires drop < |entries| && (|entries| - drop > s.maxEntries || bytes > s.maxBytes)
    ensures Sizes(entries[..drop + 1]) == Sizes(entries[..drop]) + Size(entries[drop])
    ensures Excess(s, entries[drop..], bytes) == 1 + Excess(s, entries[drop + 1..], bytes - Size(entries[drop]))
  {
    assert entries[..drop + 1] == entries[..drop] + [entries[drop]];
    SizesSplit(entries[..drop], [entries[drop]]);
    OneSize(entries[drop]);
    assert entries[drop..][1..] == entries[drop + 1..];
  }

  lemma NoExcess(s: Settings, rest: seq<Entry>, bytes: int)
    requires rest == [] || (|rest| <= s.maxEntries && bytes <= s.maxBytes)
    ensures Excess(s, rest, bytes) == 0
  {
  }

  lemma MatchingAppend(entries: seq<Entry>, e: Entry, f: Filter)
    ensures Matching(entries + [e], f) == Matching(entries, f) + if Match(f, e) then [e] else []
  {
    assert (entries + [e])[..|entries|] == entries;
  }
}
