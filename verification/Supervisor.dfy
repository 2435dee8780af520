/**
 * The process supervisor as a state machine. The lifecycle mutex makes each section below one
 * step; children exit at any moment, and watchers of old children fire at any later time.
 */
module Supervisor {
  import opened Text
  import Budget = RestartBudget

  /** What stopping a child achieved: it is gone (the call may still report an error) or it survives. */
  datatype Kill = Gone(failed: bool) | Survives

  datatype Reload = Reloaded | ReloadFails | Unsupported

  /** How a start ends: before there is a child, with a child that never became ready, or running. */
  datatype Launch = NoChild | Unready(kill: Kill, unrouted: bool) | Ready(routes: bool)

  /** A watcher waits for its child, then holds the plan it will restart through the delay. */
  datatype Watch = Waiting | Delaying(plan: nat)

  /** `runs` holds, for every child, the plan it was started with or last reloaded to. */
  datatype Engine = Engine(alive: set<nat>, births: nat, proc: Option<nat>, plan: Option<nat>, stopping: bool,
                           routed: bool, closed: bool, watchers: map<nat, Watch>, runs: map<nat, nat>,
                           attempts: seq<int>)

  datatype Config = Config(limit: int, window: int)

  datatype Event =
    | Exits(p: nat)
    | Apply(plan: nat, admitted: bool, reload: Reload, kill: Kill, launch: Launch)
    | Stop(kill: Kill, unrouted: bool)
    | Close(kill: Kill, unrouted: bool)
    | Wakes(p: nat, canceled: bool, seen: int, stamped: int, unrouted: bool)
    | Fires(p: nat, launch: Launch)

  const IDLE := Engine({}, 0, None, None, false, false, false, map[], map[], [])

  predicate Running(s: Engine) { s.proc.Some? && s.proc.value in s.alive }

  function Killed(s: Engine, p: nat, kill: Kill): Engine
  {
    if p in s.alive && kill.Gone? then s.(alive := s.alive - {p}) else s
  }

  predicate KillFails(s: Engine, p: nat, kill: Kill) { p in s.alive && (kill.Survives? || kill.failed) }

  function Unrouted(s: Engine, unrouted: bool): Engine { if unrouted then s.(routed := false) else s }

  predicate UnrouteFails(s: Engine, unrouted: bool) { s.routed && !unrouted }

  /** start: a child that fails to become ready is stopped, and adopted only when it survives that. */
  function Started(s: Engine, plan: nat, launch: Launch): Engine
  {
    match launch
    case NoChild => s
    case Unready(kill, unrouted) =>
      var q := s.births;
      var born := s.(births := q + 1, alive := s.alive + {q}, runs := s.runs[q := plan]);
      Unrouted(if kill.Survives? then born.(proc := Some(q)) else Killed(born, q, kill), unrouted)
    case Ready(routes) =>
      var q := s.births;
      s.(births := q + 1, alive := s.alive + {q}, proc := Some(q), watchers := s.watchers[q := Waiting],
         runs := s.runs[q := plan], routed := s.routed || routes)
  }

  /** Apply forgets a child it cannot reload before it stops it. */
  function Replaced(s: Engine, plan: nat, kill: Kill, launch: Launch): Engine
    requires Running(s)
  {
    var p := s.proc.value;
    var dropped := Killed(s.(proc := None), p, kill);
    if KillFails(s, p, kill) then dropped else Started(dropped, plan, launch)
  }

  function Halted(s: Engine, kill: Kill, unrouted: bool): Engine
  {
    var off := s.(stopping := true, proc := None, plan := None);
    var quiet :=
      if s.proc.None? then off
      else if s.proc.value in s.alive && kill.Survives? then off.(proc := s.proc)
      else Killed(off, s.proc.value, kill);
    Unrouted(quiet, unrouted)
  }

  predicate HaltSucceeds(s: Engine, kill: Kill, unrouted: bool)
  {
    (s.proc.Some? ==> !KillFails(s, s.proc.value, kill)) && !UnrouteFails(s, unrouted)
  }

  /** A watcher sees its own child exit, uncancelled, while that child is current and a plan is in force. */
  predicate Asks(s: Engine, e: Event)
  {
    && e.Wakes? && e.p in s.watchers && s.watchers[e.p].Waiting? && e.p !in s.alive
    && s.proc == Some(e.p) && !s.stopping && !(s.closed && e.canceled) && s.plan.Some?
  }

  predicate Authorises(c: Config, s: Engine, e: Event)
  {
    Asks(s, e) && Budget.Grants(s.attempts, c.limit, c.window, e.seen)
  }

  function Next(c: Config, s: Engine, e: Event): Engine
  {
    match e
    case Exits(p) => s.(alive := s.alive - {p})
    case Apply(plan, admitted, reload, kill, launch) =>
      if !admitted then s
      else
        var taken := s.(plan := Some(plan), stopping := false);
        if !Running(taken) then Started(taken, plan, launch)
        else if reload.Reloaded? then taken.(runs := s.runs[s.proc.value := plan])
        else if reload.ReloadFails? then taken
        else Replaced(taken, plan, kill, launch)
    case Stop(kill, unrouted) => Halted(s, kill, unrouted)
    case Close(kill, unrouted) => Halted(s, kill, unrouted).(closed := true)
    case Wakes(p, canceled, seen, stamped, unrouted) =>
      if p !in s.watchers || s.watchers[p].Delaying? || (p in s.alive && !s.closed) then s
      else
        var done := s.(watchers := s.watchers - {p});
        if !Asks(s, e) then done
        else
          var asked := s.(attempts := Budget.After(s.attempts, c.limit, c.window, seen, stamped));
          if Budget.Grants(s.attempts, c.limit, c.window, seen) then asked.(watchers := s.watchers[p := Delaying(s.plan.value)])
          else Unrouted(asked.(watchers := s.watchers - {p}), unrouted)
    case Fires(p, launch) =>
      if p !in s.watchers || s.watchers[p].Waiting? then s
      else
        var done := s.(watchers := s.watchers - {p});
        if s.proc != Some(p) || s.stopping || s.closed then done else Started(done, s.watchers[p].plan, launch)
  }

  function Run(c: Config, s: Engine, events: seq<Event>): Engine
  {
    if events == [] then s else Next(c, Run(c, s, events[..|events| - 1]), events[|events| - 1])
  }

  // ---- At most one child ----

  /** The only live child, if any, is the one the supervisor knows. */
  ghost predicate OneChild(s: Engine)
  {
    && (forall p :: p in s.alive ==> s.proc == Some(p))
    && (s.proc.Some? ==> s.proc.value < s.births)
    && (forall p :: p in s.watchers ==> p < s.births && (s.watchers[p].Delaying? ==> p !in s.alive))
  }

  /** Apply loses a child: it cannot reload it and fails to stop it. */
  predicate Leaks(s: Engine, e: Event)
  {
    e.Apply? && e.admitted && Running(s) && e.reload.Unsupported? && e.kill.Survives?
  }

  lemma StartKeepsOneChild(s: Engine, plan: nat, launch: Launch)
    requires OneChild(s) && s.alive == {}
    ensures OneChild(Started(s, plan, launch))
  {
  }

  lemma ApplyAndOneChild(c: Config, s: Engine, e: Event)
    requires OneChild(s) && e.Apply? && e.admitted
    ensures OneChild(Next(c, s, e)) <==> !Leaks(s, e)
  {
    var taken := s.(plan := Some(e.plan), stopping := false);
    if !Running(taken) {
      assert taken.alive == {};
      StartKeepsOneChild(taken, e.plan, e.launch);
    } else if e.reload.Unsupported? {
      var dropped := Killed(taken.(proc := None), s.proc.value, e.kill);
      if e.kill.Survives? {
        assert s.proc.value in Next(c, s, e).alive;
      } else {
        assert dropped.alive == {};
        StartKeepsOneChild(dropped, e.plan, e.launch);
        hide Started;
      }
    }
  }

  lemma FiringKeepsOneChild(c: Config, s: Engine, e: Event)
    requires OneChild(s) && e.Fires?
    ensures OneChild(Next(c, s, e))
  {
    if e.p in s.watchers && s.watchers[e.p].Delaying? {
      var done := s.(watchers := s.watchers - {e.p});
      assert OneChild(done);
      if s.proc == Some(e.p) {
        assert done.alive == {};
        StartKeepsOneChild(done, s.watchers[e.p].plan, e.launch);
        hide Started;
      }
    }
  }

  lemma WakingKeepsOneChild(c: Config, s: Engine, e: Event)
    requires OneChild(s) && e.Wakes?
    ensures OneChild(Next(c, s, e))
  {
    hide Budget.After, Budget.Grants;
  }

  lemma HaltKeepsOneChild(s: Engine, kill: Kill, unrouted: bool)
    requires OneChild(s)
    ensures OneChild(Halted(s, kill, unrouted))
  {
  }

  /** A step keeps the single child exactly when it is not an Apply that fails to stop the one it replaces. */
  lemma OnlyALeakBreaksOneChild(c: Config, s: Engine, e: Event)
    requires OneChild(s)
    ensures OneChild(Next(c, s, e)) <==> !Leaks(s, e)
  {
    if e.Apply? && e.admitted {
      hide Next;
      ApplyAndOneChild(c, s, e);
    } else if e.Fires? {
      hide Next;
      FiringKeepsOneChild(c, s, e);
    } else if e.Wakes? {
      hide Next;
      WakingKeepsOneChild(c, s, e);
    } else if e.Stop? || e.Close? {
      HaltKeepsOneChild(s, e.kill, e.unrouted);
      hide Halted;
    }
  }

  /** No step of the run is a leak. */
  ghost predicate LeakFree(c: Config, s: Engine, events: seq<Event>)
  {
    events == [] || (LeakFree(c, s, events[..|events| - 1])
                     && !Leaks(Run(c, s, events[..|events| - 1]), events[|events| - 1]))
  }

  lemma {:induction false} RunKeepsOneChild(c: Config, events: seq<Event>)
    requires LeakFree(c, IDLE, events)
    ensures OneChild(Run(c, IDLE, events))
  {
    if events != [] {
      hide Next;
      RunKeepsOneChild(c, events[..|events| - 1]);
      OnlyALeakBreaksOneChild(c, Run(c, IDLE, events[..|events| - 1]), events[|events| - 1]);
    }
  }

  lemma AtMostOneChildAlive(c: Config, events: seq<Event>, p: nat, q: nat)
    requires LeakFree(c, IDLE, events)
    requires p in Run(c, IDLE, events).alive && q in Run(c, IDLE, events).alive
    ensures p == q && Run(c, IDLE, events).proc == Some(p)
  {
    RunKeepsOneChild(c, events);
  }

  /** After one leak a second child runs beside the first. */
  lemma ALeakMakesTwoChildren(c: Config) returns (events: seq<Event>)
    ensures Run(c, IDLE, events).alive == {0, 1}
  {
    var first := Apply(1, true, Reloaded, Survives, Ready(false));
    var leak := Apply(1, true, Unsupported, Survives, NoChild);
    events := [first, leak, first];
    assert events[..2] == [first, leak] && [first, leak][..1] == [first] && [first][..0] == [];
    assert Run(c, IDLE, []) == IDLE;
    var one := Run(c, IDLE, [first]);
    assert one == Next(c, IDLE, first);
    assert one.alive == {0} && one.proc == Some(0);
    var two := Run(c, IDLE, [first, leak]);
    assert two == Next(c, one, leak);
    assert two.alive == {0} && two.proc == None && two.births == 1;
  }

  // ---- After Stop ----

  /** A child the supervisor has moved past. */
  predicate Superseded(s: Engine, p: nat) { p < s.births && s.proc != Some(p) }

  /** A start leaves the child as it was or makes a new one current, and asks no budget. */
  lemma StartMoves(s: Engine, plan: nat, launch: Launch)
    ensures var t := Started(s, plan, launch);
            && s.births <= t.births && t.attempts == s.attempts
            && (t.proc == s.proc || (t.proc.Some? && t.proc.value >= s.births))
  {
  }

  lemma ReplaceMoves(s: Engine, plan: nat, kill: Kill, launch: Launch)
    requires Running(s)
    ensures var t := Replaced(s, plan, kill, launch);
            && s.births <= t.births && t.attempts == s.attempts
            && (t.proc == None || (t.proc.Some? && t.proc.value >= s.births))
  {
    var dropped := Killed(s.(proc := None), s.proc.value, kill);
    StartMoves(dropped, plan, launch);
    hide Started;
  }

  lemma HaltMoves(s: Engine, kill: Kill, unrouted: bool)
    ensures var t := Halted(s, kill, unrouted);
            t.births == s.births && t.attempts == s.attempts && (t.proc == None || t.proc == s.proc)
  {
  }

  lemma SupersededStays(c: Config, s: Engine, e: Event, p: nat)
    requires Superseded(s, p)
    ensures Superseded(Next(c, s, e), p)
  {
    hide Budget.After, Budget.Grants, Started, Replaced, Halted, Asks;
    match e
    case Apply(plan, admitted, reload, kill, launch) =>
      var taken := s.(plan := Some(plan), stopping := false);
      StartMoves(taken, plan, launch);
      if Running(taken) { ReplaceMoves(taken, plan, kill, launch); }
    case Stop(kill, unrouted) => HaltMoves(s, kill, unrouted);
    case Close(kill, unrouted) => HaltMoves(s, kill, unrouted);
    case Fires(q, launch) =>
      if q in s.watchers && s.watchers[q].Delaying? {
        StartMoves(s.(watchers := s.watchers - {q}), s.watchers[q].plan, launch);
      }
    case _ =>
  }

  lemma {:induction false} SupersededForever(c: Config, s: Engine, later: seq<Event>, p: nat)
    requires Superseded(s, p)
    ensures Superseded(Run(c, s, later), p)
  {
    if later != [] {
      hide Next;
      SupersededForever(c, s, later[..|later| - 1], p);
      SupersededStays(c, Run(c, s, later[..|later| - 1]), later[|later| - 1], p);
    }
  }

  ghost predicate Reachable(c: Config, s: Engine) { exists events :: Run(c, IDLE, events) == s }

  /** Only children that were born are watched. */
  ghost predicate WatchedWereBorn(s: Engine) { forall p :: p in s.watchers ==> p < s.births }

  lemma StartWatchesBorn(s: Engine, plan: nat, launch: Launch)
    requires WatchedWereBorn(s)
    ensures WatchedWereBorn(Started(s, plan, launch))
  {
  }

  lemma ApplyWatchesBorn(c: Config, s: Engine, e: Event)
    requires WatchedWereBorn(s) && e.Apply?
    ensures WatchedWereBorn(Next(c, s, e))
  {
    hide Started;
    var taken := s.(plan := Some(e.plan), stopping := false);
    StartWatchesBorn(taken, e.plan, e.launch);
    if Running(taken) {
      StartWatchesBorn(Killed(taken.(proc := None), taken.proc.value, e.kill), e.plan, e.launch);
    }
  }

  lemma NextWatchesBorn(c: Config, s: Engine, e: Event)
    requires WatchedWereBorn(s)
    ensures WatchedWereBorn(Next(c, s, e))
  {
    if e.Apply? {
      hide Next;
      ApplyWatchesBorn(c, s, e);
    } else if e.Fires? {
      if e.p in s.watchers && s.watchers[e.p].Delaying? {
        StartWatchesBorn(s.(watchers := s.watchers - {e.p}), s.watchers[e.p].plan, e.launch);
        hide Started;
      }
    } else {
      hide Budget.After, Budget.Grants, Asks;
    }
  }

  lemma {:induction false} RunWatchesBorn(c: Config, events: seq<Event>)
    ensures WatchedWereBorn(Run(c, IDLE, events))
  {
    if events != [] {
      hide Next;
      RunWatchesBorn(c, events[..|events| - 1]);
      NextWatchesBorn(c, Run(c, IDLE, events[..|events| - 1]), events[|events| - 1]);
    }
  }

  /**
   * Watchers left behind by a Stop that returned nil start nothing, ever: not before the next
   * Apply and not after it has cleared the stopping flag. Earlier failed kills make no difference.
   */
  lemma StaleWatchersStartNothing(c: Config, s: Engine, kill: Kill, unrouted: bool, later: seq<Event>, p: nat, launch: Launch)
    requires Reachable(c, s) && HaltSucceeds(s, kill, unrouted) && p in s.watchers
    ensures var v := Run(c, Next(c, s, Stop(kill, unrouted)), later);
            Next(c, v, Fires(p, launch)).births == v.births && Next(c, v, Fires(p, launch)).alive == v.alive
  {
    var events :| Run(c, IDLE, events) == s;
    RunWatchesBorn(c, events);
    var stopped := Next(c, s, Stop(kill, unrouted));
    assert Superseded(stopped, p);
    SupersededForever(c, stopped, later, p);
  }

  /** Nothing is current and no routes are up. */
  predicate Parked(s: Engine) { s.proc == None && !s.routed }

  lemma ParkedStays(c: Config, s: Engine, e: Event)
    requires Parked(s) && !e.Apply?
    ensures Parked(Next(c, s, e)) && Next(c, s, e).births == s.births && Next(c, s, e).alive <= s.alive
  {
    hide Budget.After, Budget.Grants, Started;
  }

  /** After a Stop that returns nil no child is current, routes are down, and none starts until an Apply. */
  lemma {:induction false} SuccessfulStopStartsNothing(c: Config, s: Engine, kill: Kill, unrouted: bool, later: seq<Event>)
    requires HaltSucceeds(s, kill, unrouted)
    requires forall i :: 0 <= i < |later| ==> !later[i].Apply?
    ensures var stopped := Next(c, s, Stop(kill, unrouted));
            var v := Run(c, stopped, later);
            Parked(v) && v.births == stopped.births && v.alive <= stopped.alive
  {
    if later != [] {
      hide HaltSucceeds, Next;
      var stopped := Next(c, s, Stop(kill, unrouted));
      SuccessfulStopStartsNothing(c, s, kill, unrouted, later[..|later| - 1]);
      ParkedStays(c, Run(c, stopped, later[..|later| - 1]), later[|later| - 1]);
    }
  }

  /** Without an earlier leak no child is alive then, either. */
  lemma SuccessfulStopStaysQuiet(c: Config, s: Engine, kill: Kill, unrouted: bool, later: seq<Event>)
    requires OneChild(s) && HaltSucceeds(s, kill, unrouted)
    requires forall i :: 0 <= i < |later| ==> !later[i].Apply?
    ensures Run(c, Next(c, s, Stop(kill, unrouted)), later).alive == {}
  {
    assert s.alive != {} ==> Running(s);
    assert Next(c, s, Stop(kill, unrouted)).alive == {};
    hide Next, Run;
    SuccessfulStopStartsNothing(c, s, kill, unrouted, later);
  }

  // ---- Restart budget ----

  /** The budget calls a run makes, and the times it authorises a restart. */
  function Calls(c: Config, s: Engine, events: seq<Event>): seq<Budget.Call>
    decreases |events|
  {
    if events == [] then []
    else
      var later := Calls(c, Next(c, s, events[0]), events[1..]);
      if Asks(s, events[0]) then [Budget.Call(events[0].seen, events[0].stamped)] + later else later
  }

  function Restarts(c: Config, s: Engine, events: seq<Event>): seq<int>
    decreases |events|
  {
    if events == [] then []
    else
      var later := Restarts(c, Next(c, s, events[0]), events[1..]);
      if Authorises(c, s, events[0]) then [events[0].stamped] + later else later
  }

  lemma {:induction false} RestartsAreGrants(c: Config, s: Engine, events: seq<Event>)
    ensures Restarts(c, s, events) == Budget.Granted(s.attempts, c.limit, c.window, Calls(c, s, events))
    decreases |events|
  {
    if events != [] {
      var e := events[0];
      var v := Next(c, s, e);
      RestartsAreGrants(c, v, events[1..]);
      AttemptsChangeOnlyWhenAsked(c, s, e);
      if Asks(s, e) {
        var later := Calls(c, v, events[1..]);
        assert ([Budget.Call(e.seen, e.stamped)] + later)[1..] == later;
      }
    }
  }

  lemma AttemptsChangeOnlyWhenAsked(c: Config, s: Engine, e: Event)
    ensures Next(c, s, e).attempts == if Asks(s, e) then Budget.After(s.attempts, c.limit, c.window, e.seen, e.stamped)
                                      else s.attempts
  {
    hide Budget.After, Budget.Grants, Started, Replaced, Halted;
    match e
    case Apply(plan, admitted, reload, kill, launch) =>
      var taken := s.(plan := Some(plan), stopping := false);
      StartMoves(taken, plan, launch);
      if Running(taken) { ReplaceMoves(taken, plan, kill, launch); }
    case Stop(kill, unrouted) => HaltMoves(s, kill, unrouted);
    case Close(kill, unrouted) => HaltMoves(s, kill, unrouted);
    case Fires(q, launch) =>
      if q in s.watchers && s.watchers[q].Delaying? {
        StartMoves(s.(watchers := s.watchers - {q}), s.watchers[q].plan, launch);
      }
    case _ =>
  }

  /** With a monotone clock the supervisor authorises at most `limit` automatic restarts per window. */
  lemma RestartsStayWithinBudget(c: Config, events: seq<Event>, clock: int, from: int)
    requires c.window > 0 && Budget.Monotone(Calls(c, IDLE, events), clock)
    ensures Budget.InWindow(Restarts(c, IDLE, events), from, c.window) <= if c.limit > 0 then c.limit else 0
  {
    RestartsAreGrants(c, IDLE, events);
    Budget.AtMostLimitPerWindow(c.limit, c.window, clock, Calls(c, IDLE, events), from);
  }

  // ---- Which plan a restart runs ----

  /** The plan of the last Apply that was let in. */
  function LastApplied(events: seq<Event>, plan: nat): nat
  {
    if events == [] then plan
    else
      var e := events[|events| - 1];
      if e.Apply? && e.admitted then e.plan else LastApplied(events[..|events| - 1], plan)
  }

  /** A dead child whose watcher, if still there, holds `held`; while it is current `latest` is in force. */
  ghost predicate Held(s: Engine, p: nat, held: nat, latest: nat)
  {
    && p < s.births && p !in s.alive
    && (p in s.watchers ==> s.watchers[p] == Delaying(held))
    && (s.proc == Some(p) ==> s.plan == Some(latest))
  }

  /** A start touches neither the old watchers nor the plan in force, and a new current child is another one. */
  lemma StartHolds(s: Engine, plan: nat, launch: Launch, p: nat, held: nat, latest: nat)
    requires Held(s, p, held, latest)
    ensures Held(Started(s, plan, launch), p, held, latest)
  {
  }

  lemma ApplyHolds(c: Config, s: Engine, e: Event, p: nat, held: nat, latest: nat)
    requires Held(s, p, held, latest) && e.Apply? && e.admitted
    ensures Held(Next(c, s, e), p, held, e.plan)
  {
    hide Started;
    var taken := s.(plan := Some(e.plan), stopping := false);
    StartHolds(taken, e.plan, e.launch, p, held, e.plan);
    if Running(taken) {
      StartHolds(Killed(taken.(proc := None), taken.proc.value, e.kill), e.plan, e.launch, p, held, e.plan);
    }
  }

  lemma HaltHolds(s: Engine, kill: Kill, unrouted: bool, p: nat, held: nat, latest: nat)
    requires Held(s, p, held, latest)
    ensures Held(Halted(s, kill, unrouted), p, held, latest)
  {
  }

  lemma WakeHolds(c: Config, s: Engine, e: Event, p: nat, held: nat, latest: nat)
    requires Held(s, p, held, latest) && e.Wakes?
    ensures Held(Next(c, s, e), p, held, latest)
  {
    hide Budget.After, Budget.Grants;
  }

  lemma FireHolds(c: Config, s: Engine, e: Event, p: nat, held: nat, latest: nat)
    requires Held(s, p, held, latest) && e.Fires?
    ensures Held(Next(c, s, e), p, held, latest)
  {
    hide Started;
    if e.p in s.watchers && s.watchers[e.p].Delaying? {
      StartHolds(s.(watchers := s.watchers - {e.p}), s.watchers[e.p].plan, e.launch, p, held, latest);
    }
  }

  lemma NextHolds(c: Config, s: Engine, e: Event, p: nat, held: nat, latest: nat)
    requires Held(s, p, held, latest)
    ensures Held(Next(c, s, e), p, held, if e.Apply? && e.admitted then e.plan else latest)
  {
    if e.Apply? && e.admitted {
      hide Next, Held;
      ApplyHolds(c, s, e, p, held, latest);
    } else if e.Fires? {
      hide Next, Held;
      FireHolds(c, s, e, p, held, latest);
    } else if e.Wakes? {
      hide Next, Held;
      WakeHolds(c, s, e, p, held, latest);
    } else if e.Stop? || e.Close? {
      HaltHolds(s, e.kill, e.unrouted, p, held, latest);
      hide Halted;
    }
  }

  lemma {:induction false} RunHolds(c: Config, s: Engine, events: seq<Event>, p: nat, held: nat, latest: nat)
    requires Held(s, p, held, latest)
    ensures Held(Run(c, s, events), p, held, LastApplied(events, latest))
  {
    if events != [] {
      var before := events[..|events| - 1];
      RunHolds(c, s, before, p, held, latest);
      hide Next, Held;
      NextHolds(c, Run(c, s, before), events[|events| - 1], p, held, LastApplied(before, latest));
    }
  }

  lemma AuthorisedHolds(c: Config, s: Engine, e: Event)
    requires WatchedWereBorn(s) && Authorises(c, s, e)
    ensures Held(Next(c, s, e), e.p, s.plan.value, s.plan.value)
  {
    hide Budget.After, Budget.Grants;
  }

  /** A watcher that starts a child starts it with the plan it holds, and leaves the plan in force alone. */
  lemma FiringRunsTheHeldPlan(c: Config, s: Engine, p: nat, launch: Launch, held: nat, latest: nat)
    requires Held(s, p, held, latest) && Next(c, s, Fires(p, launch)).births > s.births
    ensures var w := Next(c, s, Fires(p, launch));
            s.births in w.runs && w.runs[s.births] == held && w.plan == Some(latest)
  {
  }

  /**
   * The child an automatic restart starts runs the plan that was in force at the exit. That is the
   * plan in force at the restart exactly when the last Apply during the delay, if any, brought it.
   */
  lemma RestartRunsThePlanAtExit(c: Config, s: Engine, e: Event, delay: seq<Event>, launch: Launch)
    requires Reachable(c, s) && Authorises(c, s, e)
    requires var v := Run(c, Next(c, s, e), delay); Next(c, v, Fires(e.p, launch)).births > v.births
    ensures var v := Run(c, Next(c, s, e), delay);
            var q := v.births;
            var w := Next(c, v, Fires(e.p, launch));
            && q in w.runs && w.runs[q] == s.plan.value && w.plan.Some?
            && (w.runs[q] == w.plan.value <==> LastApplied(delay, s.plan.value) == s.plan.value)
  {
    var events :| Run(c, IDLE, events) == s;
    hide Next, Run, Held, WatchedWereBorn, Budget.Grants;
    RunWatchesBorn(c, events);
    AuthorisedHolds(c, s, e);
    RunHolds(c, Next(c, s, e), delay, e.p, s.plan.value, s.plan.value);
    FiringRunsTheHeldPlan(c, Run(c, Next(c, s, e), delay), e.p, launch, s.plan.value, LastApplied(delay, s.plan.value));
  }

  /** A failed Apply during the delay: the watcher brings back the plan that Apply had replaced. */
  lemma OldPlanIsRestarted(c: Config)
    requires c.limit > 0
    ensures var up := Apply(1, true, Reloaded, Survives, Ready(false));
            var failed := Apply(2, true, Reloaded, Survives, NoChild);
            var v := Run(c, IDLE, [up, Exits(0), Wakes(0, false, 0, 0, true), failed, Fires(0, Ready(false))]);
            v.plan == Some(2) && v.proc == Some(1) && v.alive == {1} && 1 in v.runs && v.runs[1] == 1
  {
    var up := Apply(1, true, Reloaded, Survives, Ready(false));
    var failed := Apply(2, true, Reloaded, Survives, NoChild);
    var events := [up, Exits(0), Wakes(0, false, 0, 0, true), failed, Fires(0, Ready(false))];
    var a := Next(c, IDLE, events[0]);
    var b := Next(c, a, events[1]);
    var d := Next(c, b, events[2]);
    var f := Next(c, d, events[3]);
    assert a.proc == Some(0) && a.alive == {0};
    assert b.alive == {};
    assert d.watchers == map[0 := Delaying(1)];
    assert events[..4][..3] == events[..3] && events[..3][..2] == events[..2] && events[..2][..1] == events[..1] && events[..1][..0] == [];
    assert Run(c, IDLE, events[..1]) == a && Run(c, IDLE, events[..2]) == b && Run(c, IDLE, events[..3]) == d && Run(c, IDLE, events[..4]) == f;
  }
}
