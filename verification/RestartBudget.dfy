/** The sliding-window restart budget of the engine supervisor. */
module RestartBudget {

  /** The attempts younger than the cutoff, in order. */
  function Kept(attempts: seq<int>, cutoff: int): (kept: seq<int>)
    ensures |kept| <= |attempts|
  {
    if attempts == [] then []
    else
      var rest := Kept(attempts[..|attempts| - 1], cutoff);
      var t := attempts[|attempts| - 1];
      if t > cutoff then rest + [t] else rest
  }

  /** Whether Allow grants an attempt; `seen` is the first reading of the clock. */
  predicate Grants(attempts: seq<int>, limit: int, window: int, seen: int)
  {
    limit > 0 && |Kept(attempts, seen - window)| < limit
  }

  /** The attempts Allow leaves; `stamped` is the second reading of the clock. */
  function After(attempts: seq<int>, limit: int, window: int, seen: int, stamped: int): seq<int>
  {
    if limit <= 0 then attempts
    else
      var kept := Kept(attempts, seen - window);
      if |kept| < limit then kept + [stamped] else kept
  }

  class Budget {
    const limit: int
    const window: int
    var slots: array<int>
    var used: nat

    ghost predicate Valid() reads this { used <= slots.Length }

    ghost function Attempts(): seq<int> reads this, slots requires Valid() { slots[..used] }

    constructor (limit: int, window: int)
      ensures Valid() && fresh(slots) && Attempts() == []
      ensures this.limit == limit && this.window == if window <= 0 then 600_000_000_000 else window
    {
      this.limit := limit;
      this.window := if window <= 0 then 600_000_000_000 else window;
      slots, used := new int[4], 0;
    }

    /** Filters the slots in place while reading them, then appends. */
    method Allow(seen: int, stamped: int) returns (ok: bool)
      requires Valid()
      modifies this, slots
      ensures Valid() && (slots == old(slots) || fresh(slots))
      ensures ok == Grants(old(Attempts()), limit, window, seen)
      ensures Attempts() == After(old(Attempts()), limit, window, seen, stamped)
      ensures ok ==> used >= 1
    {
      if limit <= 0 {
        return false;
      }
      var cutoff := seen - window;
      var i, kept := 0, 0;
      while i < used
        invariant 0 <= kept <= i <= used == old(used)
        invariant slots == old(slots)
        invariant slots[..kept] == Kept(old(Attempts())[..i], cutoff)
        invariant slots[i..used] == old(Attempts())[i..]
      {
        ghost var was := old(Attempts());
        assert slots[i] == slots[i..used][0] == was[i];
        assert was[..i + 1][..i] == was[..i];
        assert slots[i + 1..used] == was[i..][1..];
        if slots[i] > cutoff {
          slots[kept] := slots[i];
          kept := kept + 1;
        }
        i := i + 1;
      }
      assert old(Attempts())[..i] == old(Attempts());
      used := kept;
      if used >= limit {
        return false;
      }
      Append(stamped);
      return true;
    }

    method Append(t: int)
      requires Valid()
      modifies this`slots, this`used, slots
      ensures Valid() && (slots == old(slots) || fresh(slots))
      ensures Attempts() == old(Attempts()) + [t]
    {
      if used == slots.Length {
        var grown := new int[2 * used + 1];
        forall k | 0 <= k < used { grown[k] := slots[k]; }
        slots := grown;
        assert slots[..used] == old(slots[..used]);
      }
      slots[used] := t;
      used := used + 1;
    }
  }

  /** One call: the two clock readings it takes. */
  datatype Call = Call(seen: int, stamped: int)

  /** The clock never runs backwards over a run of calls. */
  predicate Monotone(calls: seq<Call>, clock: int)
  {
    calls == [] || (clock <= calls[0].seen <= calls[0].stamped && Monotone(calls[1..], calls[0].stamped))
  }

  /** The times of the granted calls of a run. */
  function Granted(attempts: seq<int>, limit: int, window: int, calls: seq<Call>): seq<int>
    decreases |calls|
  {
    if calls == [] then []
    else
      var c := calls[0];
      var later := Granted(After(attempts, limit, window, c.seen, c.stamped), limit, window, calls[1..]);
      if Grants(attempts, limit, window, c.seen) then [c.stamped] + later else later
  }

  /** How many of the times fall into [from, from + window). */
  function InWindow(times: seq<int>, from: int, window: int): nat
  {
    if times == [] then 0
    else
      var t := times[|times| - 1];
      InWindow(times[..|times| - 1], from, window) + if from <= t < from + window then 1 else 0
  }

  lemma {:induction false} KeptTwice(times: seq<int>, low: int, high: int)
    requires low <= high
    ensures Kept(Kept(times, low), high) == Kept(times, high)
  {
    if times != [] {
      var rest, t := times[..|times| - 1], times[|times| - 1];
      KeptTwice(rest, low, high);
      if t > low {
        assert (Kept(rest, low) + [t])[..|Kept(rest, low)|] == Kept(rest, low);
      }
    }
  }

  lemma KeptAppended(times: seq<int>, t: int, cutoff: int)
    ensures Kept(times + [t], cutoff) == if t > cutoff then Kept(times, cutoff) + [t] else Kept(times, cutoff)
  {
    assert (times + [t])[..|times|] == times;
  }

  lemma InWindowAppended(times: seq<int>, t: int, from: int, window: int)
    ensures InWindow(times + [t], from, window)
         == InWindow(times, from, window) + if from <= t < from + window then 1 else 0
  {
    assert (times + [t])[..|times|] == times;
  }

  lemma {:induction false} WindowWithinKept(times: seq<int>, from: int, window: int, cutoff: int)
    requires cutoff < from
    ensures InWindow(times, from, window) <= |Kept(times, cutoff)|
  {
    if times != [] {
      WindowWithinKept(times[..|times| - 1], from, window, cutoff);
    }
  }

  /** No window of the history holds more grants than the limit. */
  ghost predicate Spaced(history: seq<int>, limit: int, window: int)
  {
    forall from: int :: InWindow(history, from, window) <= if limit > 0 then limit else 0
  }

  lemma GrantKeepsSpacing(history: seq<int>, limit: int, window: int, seen: int, stamped: int)
    requires Spaced(history, limit, window) && seen <= stamped && limit > 0
    requires |Kept(history, seen - window)| < limit
    ensures Spaced(history + [stamped], limit, window)
  {
    hide Kept, InWindow;
    forall from: int
      ensures InWindow(history + [stamped], from, window) <= limit
    {
      InWindowAppended(history, stamped, from, window);
      if from <= stamped < from + window {
        WindowWithinKept(history, from, window, seen - window);
      }
    }
  }

  /** The attempts in memory are the young part of the whole history of grants. */
  lemma CallKeepsHistory(history: seq<int>, floor: int, attempts: seq<int>, limit: int, window: int, c: Call)
    requires window > 0 && limit > 0 && floor <= c.seen - window && c.seen <= c.stamped
    requires attempts == Kept(history, floor)
    ensures var extended := if Grants(attempts, limit, window, c.seen) then history + [c.stamped] else history;
            After(attempts, limit, window, c.seen, c.stamped) == Kept(extended, c.seen - window)
    ensures Kept(attempts, c.seen - window) == Kept(history, c.seen - window)
  {
    hide Kept;
    KeptTwice(history, floor, c.seen - window);
    KeptAppended(history, c.stamped, c.seen - window);
  }

  lemma {:induction false} RunKeepsSpacing(history: seq<int>, floor: int, clock: int, attempts: seq<int>,
                                           limit: int, window: int, calls: seq<Call>)
    requires window > 0 && floor <= clock - window && Monotone(calls, clock)
    requires attempts == Kept(history, floor) && Spaced(history, limit, window)
    ensures Spaced(history + Granted(attempts, limit, window, calls), limit, window)
    decreases |calls|
  {
    hide Kept, InWindow;
    if calls == [] {
      assert history + [] == history;
    } else if limit <= 0 {
      RunKeepsSpacing(history, floor, calls[0].stamped, attempts, limit, window, calls[1..]);
    } else {
      var c := calls[0];
      var next := After(attempts, limit, window, c.seen, c.stamped);
      var later := Granted(next, limit, window, calls[1..]);
      CallKeepsHistory(history, floor, attempts, limit, window, c);
      if Grants(attempts, limit, window, c.seen) {
        GrantKeepsSpacing(history, limit, window, c.seen, c.stamped);
        RunKeepsSpacing(history + [c.stamped], c.seen - window, c.stamped, next, limit, window, calls[1..]);
        assert history + ([c.stamped] + later) == history + [c.stamped] + later;
      } else {
        RunKeepsSpacing(history, c.seen - window, c.stamped, next, limit, window, calls[1..]);
      }
    }
  }

  /** A fresh budget grants at most `limit` attempts in every half-open interval of length `window`. */
  lemma AtMostLimitPerWindow(limit: int, window: int, clock: int, calls: seq<Call>, from: int)
    requires window > 0 && Monotone(calls, clock)
    ensures InWindow(Granted([], limit, window, calls), from, window) <= if limit > 0 then limit else 0
  {
    assert Kept([], clock - window) == [];
    assert Spaced([], limit, window);
    hide Kept, InWindow, Granted;
    RunKeepsSpacing([], clock - window, clock, [], limit, window, calls);
    assert [] + Granted([], limit, window, calls) == Granted([], limit, window, calls);
  }
}
