/** Session events: the bounded journal, and a feed that joins its replay to live delivery. */
module EventFeed {
  import opened Text

  datatype Event = Event(number: nat, payload: string)

  const DEFAULT_CAPACITY := 512
  const STREAM_BUFFER := 128

  /** The newest items that fit. */
  function Trimmed<T>(items: seq<T>, capacity: nat): (r: seq<T>)
    ensures |r| <= capacity
  {
    if |items| > capacity then items[|items| - capacity..] else items
  }

  function Numbers(events: seq<Event>): (r: seq<nat>)
    ensures |r| == |events| && forall i :: 0 <= i < |r| ==> r[i] == events[i].number
  {
    seq(|events|, i requires 0 <= i < |events| => events[i].number)
  }

  /** The retained events after a cursor. */
  function Later(events: seq<Event>, after: nat): seq<Event>
  {
    if events == [] then []
    else
      var front, last := Later(events[..|events| - 1], after), events[|events| - 1];
      if last.number > after then front + [last] else front
  }

  /** Consecutive numbers from one to another. */
  function Range(from: nat, to: nat): (r: seq<nat>)
    ensures from <= to ==> |r| == to - from && forall i :: 0 <= i < |r| ==> r[i] == from + 1 + i
    ensures from >= to ==> r == []
  {
    if from >= to then [] else seq(to - from, i requires 0 <= i => from + 1 + i)
  }

  /** The journal holds the last events issued, without a gap. */
  ghost predicate Contiguous(history: seq<Event>, next: nat)
  {
    |history| <= next && Numbers(history) == Range(next - |history|, next)
  }

  class Journal {
    const capacity: nat
    var next: nat
    var history: seq<Event>

    ghost predicate Valid()
      reads this
    {
      0 < capacity && |history| <= capacity && Contiguous(history, next)
    }

    constructor (capacity: int)
      ensures Valid() && next == 0 && history == []
      ensures this.capacity == if capacity <= 0 then DEFAULT_CAPACITY else capacity
    {
      this.capacity := if capacity <= 0 then DEFAULT_CAPACITY else capacity;
      next, history := 0, [];
    }

    /** The locked half of Append: number, store, trim. */
    method Stamp(payload: string) returns (ev: Event)
      requires Valid()
      modifies this
      ensures Valid() && ev == Event(old(next) + 1, payload) && next == old(next) + 1
      ensures history == Trimmed(old(history) + [ev], capacity)
    {
      next := next + 1;
      ev := Event(next, payload);
      history := history + [ev];
      if |history| > capacity {
        history := history[|history| - capacity..];
      }
      assert Numbers(history) == Range(next - |history|, next);
    }

    /** The first events after the cursor, at most as many as asked for. */
    method Since(after: nat, limit: int) returns (out: seq<Event>)
      requires Valid()
      ensures var most := if limit <= 0 || limit > capacity then capacity else limit;
              var all := Later(history, after);
              out == if |all| > most then all[..most] else all
    {
      var most := if limit <= 0 || limit > capacity then capacity else limit;
      out := [];
      for i := 0 to |history|
        invariant |out| < most && out == Later(history[..i], after)
      {
        assert history[..i + 1][..i] == history[..i];
        if history[i].number <= after { continue; }
        out := out + [history[i]];
        if |out| == most {
          LaterKeeps(history, i + 1, after);
          return;
        }
      }
      assert history[..|history|] == history;
    }

    /** The feed's replay: retained events after the cursor, up to the head it has read. */
    method Replay(after: nat, head: nat) returns (out: seq<Event>)
      requires Valid() && head <= next
      ensures Numbers(out) == Range(Larger(after, next - |history|), head)
    {
      hide Contiguous, Later, Range, Larger, UpTo;
      var events := Since(after, 0);
      LaterIsShort(history, after);
      assert events == Later(history, after);
      out := UpToHead(events, head);
      ReplayRange(history, next, after, head);
    }
  }

  method UpToHead(events: seq<Event>, head: nat) returns (out: seq<Event>)
    ensures out == UpTo(events, head)
  {
    out := [];
    for i := 0 to |events|
      invariant out == UpTo(events[..i], head)
    {
      assert events[..i + 1][..i] == events[..i];
      if events[i].number > head { continue; }
      out := out + [events[i]];
    }
    assert events[..|events|] == events;
  }

  function Larger(a: nat, b: nat): nat { if a < b then b else a }

  function UpTo(events: seq<Event>, head: nat): seq<Event>
  {
    if events == [] then []
    else
      var front, last := UpTo(events[..|events| - 1], head), events[|events| - 1];
      if last.number <= head then front + [last] else front
  }

  lemma {:induction false} LaterKeeps(events: seq<Event>, k: nat, after: nat)
    requires k <= |events|
    ensures Later(events[..k], after) <= Later(events, after)
    decreases |events| - k
  {
    if k < |events| {
      assert events[..k + 1][..k] == events[..k];
      LaterKeeps(events, k + 1, after);
    } else {
      assert events[..k] == events;
    }
  }

  lemma {:induction false} LaterIsShort(events: seq<Event>, after: nat)
    ensures |Later(events, after)| <= |events|
  {
    if events != [] { LaterIsShort(events[..|events| - 1], after); }
  }

  lemma FrontRange(events: seq<Event>, from: nat)
    requires events != [] && Numbers(events) == Range(from, from + |events|)
    ensures Numbers(events[..|events| - 1]) == Range(from, from + |events| - 1)
    ensures events[|events| - 1].number == from + |events|
  {
    var n := |events| - 1;
    assert Numbers(events)[n] == from + 1 + n;
    forall i | 0 <= i < n ensures Numbers(events[..n])[i] == Range(from, from + n)[i] {
      assert Numbers(events[..n])[i] == Numbers(events)[i];
    }
  }

  /** One more number at the end of a list and of a range. */
  lemma OneMore(events: seq<Event>, last: Event, from: nat)
    requires from < last.number && Numbers(events) == Range(from, last.number - 1)
    ensures Numbers(events + [last]) == Range(from, last.number)
  {
  }

  lemma {:induction false} LaterRange(events: seq<Event>, from: nat, after: nat)
    requires Numbers(events) == Range(from, from + |events|)
    ensures Numbers(Later(events, after)) == Range(Larger(after, from), from + |events|)
  {
    if events != [] {
      var front := events[..|events| - 1];
      FrontRange(events, from);
      hide Range, Numbers;
      LaterRange(front, from, after);
      if events[|front|].number > after { OneMore(Later(front, after), events[|front|], Larger(after, from)); }
      else { EmptyRanges(after, from + |front|, from + |events|); }
    } else {
      EmptyRanges(Larger(after, from), from, from);
    }
  }

  lemma {:induction false} UpToRange(events: seq<Event>, from: nat, head: nat)
    requires Numbers(events) == Range(from, from + |events|)
    ensures Numbers(UpTo(events, head)) == Range(from, if head < from + |events| then head else from + |events|)
  {
    if events != [] {
      var front := events[..|events| - 1];
      FrontRange(events, from);
      hide Range, Numbers;
      UpToRange(front, from, head);
      if events[|front|].number <= head { OneMore(UpTo(front, head), events[|front|], from); }
    } else {
      EmptyRanges(from, from, if head < from then head else from);
    }
  }

  lemma EmptyRanges(from: nat, a: nat, b: nat)
    requires a <= from && b <= from
    ensures Range(from, a) == [] && Range(from, b) == [] && Numbers([]) == []
  {
  }

  lemma ReplayRange(history: seq<Event>, next: nat, after: nat, head: nat)
    requires Contiguous(history, next) && head <= next
    ensures Numbers(UpTo(Later(history, after), head)) == Range(Larger(after, next - |history|), head)
  {
    var from := next - |history|;
    LaterRange(history, from, after);
    var later := Later(history, after);
    if Larger(after, from) <= next {
      UpToRange(later, Larger(after, from), head);
    } else {
      assert later == [];
    }
  }

  // ---- one feed beside any number of appending goroutines ----

  datatype Phase = Idle | Subscribed | Headed | Live

  /**
   * The journal's counter and retained count, and one feed: what is stamped but not yet handed to
   * its channel, its queue, what was taken, what was lost, and what went out to the client.
   * `floor` is the last number trimmed away when the replay was read.
   */
  datatype State = State(next: nat, retained: nat, capacity: nat, phase: Phase, after: nat, base: nat, head: nat, floor: nat,
                         pending: set<nat>, queue: seq<nat>, taken: seq<nat>, lost: set<nat>, sent: seq<nat>)

  function Start(capacity: nat, next: nat, retained: nat, after: nat): State
  {
    State(next, retained, capacity, Idle, after, 0, 0, 0, {}, [], [], {}, [])
  }

  datatype Step = Append | Deliver(number: nat) | Subscribe | ReadHead | SendReplay | TakeOne

  predicate Unsent(s: State, number: nat) { number > s.head && number > s.after }

  function Next(s: State, e: Step): State
  {
    match e
    case Append =>
      var n := s.next + 1;
      s.(next := n, retained := if s.retained + 1 > s.capacity then s.capacity else s.retained + 1,
         pending := if s.phase == Idle then s.pending else s.pending + {n})
    case Deliver(n) =>
      if n !in s.pending then s
      else if |s.queue| < STREAM_BUFFER then s.(pending := s.pending - {n}, queue := s.queue + [n])
      else s.(pending := s.pending - {n}, lost := s.lost + {n})
    case Subscribe => if s.phase == Idle then s.(phase := Subscribed, base := s.next) else s
    case ReadHead => if s.phase == Subscribed then s.(phase := Headed, head := s.next) else s
    case SendReplay =>
      if s.phase == Headed && s.retained <= s.next then
        s.(phase := Live, floor := s.next - s.retained, sent := Range(Larger(s.after, s.next - s.retained), s.head))
      else s
    case TakeOne =>
      if s.phase == Live && s.queue != [] then
        s.(queue := s.queue[1..], taken := s.taken + [s.queue[0]],
           sent := if Unsent(s, s.queue[0]) then s.sent + [s.queue[0]] else s.sent)
      else s
  }

  function Run(s: State, steps: seq<Step>): State
  {
    if steps == [] then s else Next(Run(s, steps[..|steps| - 1]), steps[|steps| - 1])
  }

  predicate Distinct(s: seq<nat>)
  {
    forall i, j :: 0 <= i < j < |s| ==> s[i] != s[j]
  }

  /** Events stamped since the subscription are in exactly one place. */
  ghost predicate Placed(s: State)
  {
    && Distinct(s.taken + s.queue)
    && (forall n :: n in s.pending ==> n !in s.lost && n !in s.taken + s.queue)
    && (forall n :: n in s.lost ==> n !in s.taken + s.queue)
    && (forall n :: n in s.pending || n in s.lost || n in s.taken + s.queue <==> s.phase != Idle && s.base < n <= s.next)
  }

  /** The live part of what went out, in the order it was taken. */
  function LivePart(s: State, taken: seq<nat>): seq<nat>
  {
    if taken == [] then []
    else
      var front, last := LivePart(s, taken[..|taken| - 1]), taken[|taken| - 1];
      if Unsent(s, last) then front + [last] else front
  }

  ghost predicate Inv(s: State)
  {
    && s.retained <= s.capacity && s.retained <= s.next
    && (s.phase == Idle ==> s.pending == {} && s.queue == [] && s.lost == {})
    && (s.phase != Idle ==> s.base <= s.next)
    && (s.phase == Headed || s.phase == Live ==> s.base <= s.head <= s.next)
    && SentIs(s)
    && |s.queue| <= STREAM_BUFFER
    && Placed(s)
  }

  lemma AppendKeepsPlaced(s: State)
    requires Inv(s)
    ensures Placed(Next(s, Append))
  {
  }

  lemma DeliverKeepsPlaced(s: State, n: nat)
    requires Inv(s)
    ensures Placed(Next(s, Deliver(n)))
  {
    var t := Next(s, Deliver(n));
    if n in s.pending {
      assert t.taken + (s.queue + [n]) == (s.taken + s.queue) + [n];
      assert n !in s.taken + s.queue;
    }
  }

  lemma TakeKeepsPlaced(s: State)
    requires Inv(s)
    ensures Placed(Next(s, TakeOne))
  {
    if s.phase == Live && s.queue != [] {
      assert (s.taken + [s.queue[0]]) + s.queue[1..] == s.taken + s.queue;
    }
  }

  lemma SubscribeKeepsPlaced(s: State)
    requires Inv(s)
    ensures Placed(Next(s, Subscribe))
  {
  }

  lemma {:induction false} LivePartKept(s: State, t: State, taken: seq<nat>)
    requires s.head == t.head && s.after == t.after
    ensures LivePart(t, taken) == LivePart(s, taken)
  {
    if taken != [] { LivePartKept(s, t, taken[..|taken| - 1]); }
  }

  lemma NextKeepsInv(s: State, e: Step)
    requires Inv(s)
    ensures Inv(Next(s, e))
  {
    NextKeepsPlaced(s, e);
    NextKeepsSent(s, e);
    hide Placed, LivePart, Range, SentIs;
  }

  /** What went out is the replay, then the live part of what was taken. */
  ghost predicate SentIs(s: State)
  {
    if s.phase == Live then s.sent == Range(Larger(s.after, s.floor), s.head) + LivePart(s, s.taken)
    else s.sent == [] && s.taken == []
  }

  lemma NextKeepsSent(s: State, e: Step)
    requires SentIs(s)
    ensures SentIs(Next(s, e))
  {
    hide Range, LivePart;
    var t := Next(s, e);
    NoneTaken(t);
    if s.phase == Live {
      LivePartKept(s, t, t.taken);
      if e == TakeOne && s.queue != [] {
        OneMoreTaken(s, s.taken, s.queue[0]);
        Whole(LivePart(s, s.taken));
        Assoc(Range(Larger(s.after, s.floor), s.head), LivePart(s, s.taken), [s.queue[0]]);
      }
    }
  }

  lemma OneMoreTaken(s: State, taken: seq<nat>, n: nat)
    ensures LivePart(s, taken + [n]) == LivePart(s, taken) + if Unsent(s, n) then [n] else []
  {
    assert (taken + [n])[..|taken|] == taken;
  }

  lemma NoneTaken(s: State)
    ensures LivePart(s, []) == [] && s.sent + [] == s.sent
  {
  }

  lemma NextKeepsPlaced(s: State, e: Step)
    requires Inv(s)
    ensures Placed(Next(s, e))
  {
    match e {
      case Append => AppendKeepsPlaced(s);
      case Deliver(n) => DeliverKeepsPlaced(s, n);
      case Subscribe => SubscribeKeepsPlaced(s);
      case TakeOne => TakeKeepsPlaced(s);
      case _ =>
    }
  }

  lemma {:induction false} RunKeepsInv(capacity: nat, next: nat, retained: nat, after: nat, steps: seq<Step>)
    requires retained <= capacity && retained <= next
    ensures Inv(Run(Start(capacity, next, retained, after), steps))
  {
    var s := Start(capacity, next, retained, after);
    if steps == [] {
      assert s.taken + s.queue == [];
    } else {
      hide Inv, Next;
      RunKeepsInv(capacity, next, retained, after, steps[..|steps| - 1]);
      NextKeepsInv(Run(s, steps[..|steps| - 1]), steps[|steps| - 1]);
    }
  }

  lemma {:induction false} LivePartHas(s: State, taken: seq<nat>)
    ensures forall n :: n in LivePart(s, taken) <==> n in taken && Unsent(s, n)
    ensures Distinct(taken) ==> Distinct(LivePart(s, taken))
  {
    if taken != [] {
      var front, last := taken[..|taken| - 1], taken[|taken| - 1];
      assert taken == front + [last];
      LivePartHas(s, front);
    }
  }

  lemma SentParts(s: State)
    requires Inv(s) && s.phase == Live
    ensures forall n :: n in s.sent <==> (s.after < n <= s.head && n > s.floor) || (n in s.taken && Unsent(s, n))
    ensures Distinct(s.sent)
  {
    hide Placed;
    TakenDistinct(s);
    LivePartHas(s, s.taken);
    var from := Larger(s.after, s.floor);
    var replay, live := Range(from, s.head), LivePart(s, s.taken);
    RangeHas(from, s.head);
    hide Range, LivePart;
    forall i, j | 0 <= i < j < |replay + live| ensures (replay + live)[i] != (replay + live)[j] {
      if i < |replay| {
        assert replay[i] in replay;
        if j >= |replay| { assert live[j - |replay|] in live; }
      }
    }
  }

  lemma RangeHas(from: nat, to: nat)
    ensures Distinct(Range(from, to)) && forall n :: n in Range(from, to) <==> from < n <= to
  {
    var r := Range(from, to);
    forall n | from < n <= to ensures n in r { assert r[n - from - 1] == n; }
  }

  lemma TakenDistinct(s: State)
    requires Placed(s)
    ensures Distinct(s.taken)
  {
    var all := s.taken + s.queue;
    forall i, j | 0 <= i < j < |s.taken| ensures s.taken[i] != s.taken[j] { assert all[i] != all[j]; }
  }

  /** Under every interleaving no event goes out twice. */
  lemma NoEventIsSentTwice(capacity: nat, next: nat, retained: nat, after: nat, steps: seq<Step>)
    requires retained <= capacity && retained <= next
    ensures Distinct(Run(Start(capacity, next, retained, after), steps).sent)
  {
    hide Placed, Run, Start;
    var s := Run(Start(capacity, next, retained, after), steps);
    RunKeepsInv(capacity, next, retained, after, steps);
    if s.phase == Live { SentParts(s); }
  }

  /**
   * Once the replay is out, every event after the cursor has been sent unless it was trimmed before
   * the replay, lost to a full queue, or is still on its way; and nothing else was sent.
   */
  lemma EveryEventIsAccountedFor(capacity: nat, next: nat, retained: nat, after: nat, steps: seq<Step>, n: nat)
    requires retained <= capacity && retained <= next
    ensures var s := Run(Start(capacity, next, retained, after), steps);
            s.phase == Live && s.after < n <= s.next ==>
              (n in s.sent <==> !(n <= s.head && n <= s.floor) && !(n > s.head && (n in s.lost || n in s.pending || n in s.queue)))
    ensures var s := Run(Start(capacity, next, retained, after), steps);
            s.phase == Live && n in s.sent ==> s.after < n <= s.next
  {
    hide Run, Start;
    var s := Run(Start(capacity, next, retained, after), steps);
    RunKeepsInv(capacity, next, retained, after, steps);
    if s.phase == Live {
      SentParts(s);
      hide Distinct;
      OnePlace(s, n);
    }
  }

  lemma OnePlace(s: State, n: nat)
    requires Inv(s) && s.phase == Live
    ensures n in s.taken ==> n <= s.next && n !in s.lost && n !in s.pending && n !in s.queue
    ensures s.head < n <= s.next ==> n in s.taken || n in s.lost || n in s.pending || n in s.queue
  {
    var all := s.taken + s.queue;
    assert n in all <==> n in s.taken || n in s.queue;
    forall i, j | 0 <= i < |s.taken| && 0 <= j < |s.queue| ensures s.taken[i] != s.queue[j] {
      assert all[i] != all[|s.taken| + j];
    }
  }

  /** With history intact and no overflow, a drained feed has sent exactly the events after the cursor. */
  lemma DrainedFeedIsComplete(capacity: nat, next: nat, retained: nat, after: nat, steps: seq<Step>)
    requires retained <= capacity && retained <= next
    requires var s := Run(Start(capacity, next, retained, after), steps);
             s.phase == Live && s.pending == {} && s.queue == [] && s.lost == {} && s.floor <= s.after
    ensures var s := Run(Start(capacity, next, retained, after), steps);
            Distinct(s.sent) && forall n :: n in s.sent <==> s.after < n <= s.next
  {
    hide Run, Start, Distinct;
    NoEventIsSentTwice(capacity, next, retained, after, steps);
    var s := Run(Start(capacity, next, retained, after), steps);
    forall n: nat ensures n in s.sent <==> s.after < n <= s.next {
      EveryEventIsAccountedFor(capacity, next, retained, after, steps, n);
    }
  }
}
