/**
 * Who owns the kill switch: manager, sessions and guard as one state machine.
 * Every step is one critical section of one of the locks; the manager's Connect or
 * Disconnect, any number of SetKillSwitch calls and engine events interleave freely.
 */
module KillSwitch {
  import opened Text
  import opened Guard

  datatype State = Disconnected | Connecting | Connected | Reconnecting | Failed

  /** The transition table of the session lifecycle. */
  predicate CanTransition(from: State, to: State)
  {
    match from
    case Disconnected => to == Connecting
    case Connecting => to != Connecting
    case Connected => to == Reconnecting || to == Disconnected || to == Failed
    case Reconnecting => to == Connected || to == Failed || to == Disconnected
    case Failed => to == Connecting || to == Disconnected
  }

  predicate Terminal(s: State) { s == Failed || s == Disconnected }

  function Moved(from: State, to: State): State { if CanTransition(from, to) then to else from }

  datatype Phase = Checking | Applying | Committing

  /** Who holds the guard mutex of a session. */
  datatype Lock = Free | ByCall(enable: bool, phase: Phase) | ByRestore

  /** `owns` is guardApplied, `reported` the kill switch of the status; `published` says the manager once exposed it. */
  datatype Session = Session(state: State, reported: bool, stopping: bool, owns: bool,
                             lock: Lock, published: bool, supervised: bool)

  /** On whose behalf Session.Stop runs. */
  datatype Caller = Replacing(created: nat) | CleaningUp | Disconnecting

  /** What follows restoreGuard. */
  datatype Then = BackToStop(caller: Caller, again: bool, engineFailed: bool) | BackToStart

  datatype Step = Locking | Reading | Calling | Clearing

  /** The position of the one running Connect or Disconnect. */
  datatype Position =
    | Idle
    | Leaving
    | Preparing(kill: bool)
    | StopEntry(s: nat, caller: Caller)
    | StopEngine(s: nat, caller: Caller, again: bool)
    | Restoring(s: nat, step: Step, then_: Then)
    | StopState(s: nat, caller: Caller, failed: bool)
    | StopReturn(s: nat, caller: Caller, failed: bool)
    | Unset(created: nat)
    | StartEntry(s: nat)
    | StartValidate(s: nat)
    | StartMark(s: nat)
    | StartSettings(s: nat)
    | StartApply(s: nat, kill: bool)
    | StartEngine(s: nat)
    | StartUp(s: nat)
    | StartFail(s: nat)
    | Publish(s: nat)

  datatype World = World(block: Block, sessions: seq<Session>, current: Option<nat>, at: Position)

  datatype Event =
    | Connect(kill: bool)
    | Disconnect
    | Manage(fine: bool, answer: Answer)
    | Call(s: nat, enable: bool)
    | CallStep(s: nat, answer: Answer)
    | EngineDown(s: nat)
    | EngineUp(s: nat)
    | EngineFatal(s: nat)
    | NetworkChanged(s: nat)

  const START := World(OFF, [], None, Idle)

  function NewSession(kill: bool): Session { Session(Disconnected, kill, false, false, Free, false, false) }

  /** An event that is not possible in a state changes nothing. */
  function Next(w: World, e: Event): World
  {
    match e
    case Connect(kill) => if w.at.Idle? then w.(at := Preparing(kill)) else w
    case Disconnect =>
      if !w.at.Idle? then w
      else if w.current.None? then w.(at := Leaving)
      else w.(at := StopEntry(w.current.value, Disconnecting))
    case Manage(fine, answer) => Managed(w, fine, answer)
    case Call(s, enable) =>
      if s < |w.sessions| && w.sessions[s].published && w.sessions[s].lock.Free?
      then w.(sessions := w.sessions[s := w.sessions[s].(lock := ByCall(enable, Checking))]) else w
    case CallStep(s, answer) =>
      if s < |w.sessions| && w.sessions[s].lock.ByCall? then Called(w, s, answer) else w
    case EngineDown(s) => Observed(w, s, Reconnecting)
    case EngineUp(s) => Observed(w, s, Connected)
    case EngineFatal(s) => Observed(w, s, Failed)
    case NetworkChanged(s) => w
  }

  function Observed(w: World, s: nat, to: State): World
  {
    if s < |w.sessions| && w.sessions[s].supervised
    then w.(sessions := w.sessions[s := w.sessions[s].(state := Moved(w.sessions[s].state, to))]) else w
  }

  /** SetKillSwitch: check under the session lock, apply to the guard, commit. */
  function Called(w: World, s: nat, answer: Answer): World
    requires s < |w.sessions| && w.sessions[s].lock.ByCall?
  {
    var me := w.sessions[s];
    var enable := me.lock.enable;
    match me.lock.phase
    case Checking =>
      if me.stopping || (enable && Terminal(me.state)) || (!enable && me.state == Disconnected)
      then w.(sessions := w.sessions[s := me.(lock := Free)])
      else w.(sessions := w.sessions[s := me.(lock := ByCall(enable, Applying))])
    case Applying =>
      var next := if ApplySucceeds(w.block, enable, answer) then ByCall(enable, Committing) else Free;
      w.(block := Applied(w.block, enable, answer), sessions := w.sessions[s := me.(lock := next)])
    case Committing =>
      w.(sessions := w.sessions[s := me.(owns := true, reported := enable, lock := Free)])
  }

  /** The session the running Connect or Disconnect is working on. */
  function Handled(at: Position): Option<nat>
  {
    match at
    case Idle | Leaving | Preparing(_) | Unset(_) => None
    case _ => Some(at.s)
  }

  function Managed(w: World, fine: bool, answer: Answer): World
  {
    if Handled(w.at).Some? && w.at.s >= |w.sessions| then w
    else match w.at
      case Idle => w
      case Leaving => w.(at := Idle)
      case Preparing(kill) =>
        if !fine then w.(at := Leaving)
        else
          var created := |w.sessions|;
          var at := if w.current.Some? then StopEntry(w.current.value, Replacing(created)) else Unset(created);
          w.(sessions := w.sessions + [NewSession(kill)], at := at)
      case Unset(created) => w.(current := None, at := StartEntry(created))
      case StopEntry(_, _) | StopEngine(_, _, _) | Restoring(_, _, _) | StopState(_, _, _) | StopReturn(_, _, _) =>
        Stopped(w, fine, answer)
      case _ => Started(w, fine, answer)
  }

  predicate InStop(at: Position)
  {
    at.StopEntry? || at.StopEngine? || at.Restoring? || at.StopState? || at.StopReturn?
  }

  predicate InStart(at: Position)
  {
    at.StartEntry? || at.StartValidate? || at.StartMark? || at.StartSettings? || at.StartApply? ||
    at.StartEngine? || at.StartUp? || at.StartFail? || at.Publish?
  }

  /** Session.Stop and restoreGuard, and what their callers do with the result. */
  function Stopped(w: World, fine: bool, answer: Answer): World
    requires InStop(w.at) && w.at.s < |w.sessions|
  {
    var s := w.at.s;
    var me := w.sessions[s];
    match w.at
    case StopEntry(_, caller) =>
      if me.stopping then w.(at := StopEngine(s, caller, true))
      else w.(sessions := w.sessions[s := me.(stopping := true)], at := StopEngine(s, caller, false))
    case StopEngine(_, caller, again) =>
      if again && !fine then w.(at := StopReturn(s, caller, true))
      else w.(at := Restoring(s, Locking, BackToStop(caller, again, !fine)))
    case Restoring(_, step, then_) =>
      (match step
       case Locking =>
         if me.lock.Free? then w.(sessions := w.sessions[s := me.(lock := ByRestore)], at := Restoring(s, Reading, then_))
         else w
       case Reading =>
         if me.owns then w.(at := Restoring(s, Calling, then_))
         else w.(sessions := w.sessions[s := me.(lock := Free)], at := Continued(s, then_, true))
       case Calling =>
         if RestoreSucceeds(w.block, answer)
         then w.(block := Restored(w.block, answer), at := Restoring(s, Clearing, then_))
         else w.(block := Restored(w.block, answer), sessions := w.sessions[s := me.(lock := Free)],
                 at := Continued(s, then_, false))
       case Clearing =>
         w.(sessions := w.sessions[s := me.(owns := false, lock := Free)], at := Continued(s, then_, true)))
    case StopState(_, caller, failed) =>
      w.(sessions := w.sessions[s := me.(state := Moved(me.state, Disconnected))], at := StopReturn(s, caller, failed))
    case StopReturn(_, caller, failed) =>
      match caller
      case Replacing(created) => if failed then w.(at := Leaving) else w.(at := Unset(created))
      case CleaningUp =>
        if failed then w.(current := Some(s), sessions := w.sessions[s := me.(published := true)], at := Leaving)
        else w.(at := Leaving)
      case Disconnecting => if failed then w.(at := Leaving) else w.(current := None, at := Leaving)
  }

  function Continued(s: nat, then_: Then, restored: bool): Position
  {
    match then_
    case BackToStart => StartFail(s)
    case BackToStop(caller, again, engineFailed) =>
      if again then StopReturn(s, caller, !restored) else StopState(s, caller, engineFailed || !restored)
  }

  /** Session.Start, and Connect around it. */
  function Started(w: World, fine: bool, answer: Answer): World
    requires InStart(w.at) && w.at.s < |w.sessions|
  {
    var s := w.at.s;
    var me := w.sessions[s];
    match w.at
    case StartEntry(_) =>
      if me.state != Disconnected then w.(at := StopEntry(s, CleaningUp))
      else w.(sessions := w.sessions[s := me.(state := Connecting)], at := StartValidate(s))
    case StartValidate(_) => w.(at := if fine then StartMark(s) else StartFail(s))
    case StartMark(_) => w.(sessions := w.sessions[s := me.(owns := true)], at := StartSettings(s))
    case StartSettings(_) => w.(at := StartApply(s, me.reported))
    case StartApply(_, kill) =>
      w.(block := Applied(w.block, kill, answer),
         at := if ApplySucceeds(w.block, kill, answer) then StartEngine(s) else StartFail(s))
    case StartEngine(_) => w.(at := if fine then StartUp(s) else Restoring(s, Locking, BackToStart))
    case StartUp(_) =>
      w.(sessions := w.sessions[s := me.(state := Moved(me.state, Connected), supervised := true)], at := Publish(s))
    case StartFail(_) =>
      w.(sessions := w.sessions[s := me.(state := Moved(me.state, Failed))], at := StopEntry(s, CleaningUp))
    case Publish(_) =>
      w.(current := Some(s), sessions := w.sessions[s := me.(published := true)], at := Leaving)
  }

  function Run(w: World, events: seq<Event>): World
  {
    if events == [] then w else Next(Run(w, events[..|events| - 1]), events[|events| - 1])
  }

  // ---- Invariant ----

  /** The one session that may own the guard. */
  function Holder(w: World): Option<nat>
  {
    if Handled(w.at).Some? then Handled(w.at) else if w.at.Unset? then None else w.current
  }

  /** A call that passed its check is still on its way to the guard. */
  predicate Underway(x: Session) { x.lock.ByCall? && !x.lock.phase.Checking? }

  /** A session that cannot touch the guard: it owns nothing and refuses every call. */
  predicate Inert(x: Session)
  {
    && !x.owns && !Underway(x) && !x.lock.ByRestore?
    && (x.published ==> x.stopping) && (x.lock.ByCall? ==> x.published)
    && (x.stopping ==> x.state == Disconnected)
  }

  predicate Pristine(x: Session)
  {
    x.state == Disconnected && !x.stopping && !x.owns && x.lock.Free? && !x.published && !x.supervised
  }

  /** A session under Start: nobody else can reach it. */
  predicate Private(x: Session)
  {
    !x.stopping && !x.published && !x.lock.ByCall?
  }

  /** What holds of the holder whatever the manager does. */
  predicate Sound(x: Session, block: Block)
  {
    && (Underway(x) ==> x.owns && x.published)
    && (x.lock.ByCall? ==> x.published)
    && (x.published && !x.stopping ==> x.owns)
    && (x.published && !x.stopping ==>
          block.wanted == (if x.lock.ByCall? && x.lock.phase.Committing? then x.lock.enable else x.reported))
  }

  predicate CallerOk(w: World, s: nat, caller: Caller)
    requires s < |w.sessions|
  {
    match caller
    case Replacing(created) =>
      && w.current == Some(s) && w.sessions[s].published
      && created == |w.sessions| - 1 && created != s && Pristine(w.sessions[created])
    case CleaningUp => w.current == None
    case Disconnecting => w.current == Some(s) && w.sessions[s].published
  }

  /** What holds while Stop, or the restore of a failed Start, works on session `s`. */
  predicate StopOk(w: World)
    requires InStop(w.at) && w.at.s < |w.sessions|
  {
    var s := w.at.s;
    var x := w.sessions[s];
    match w.at
    case StopEntry(_, caller) =>
      CallerOk(w, s, caller) && !x.lock.ByRestore? && (x.stopping ==> x.state == Disconnected)
    case StopEngine(_, caller, again) =>
      CallerOk(w, s, caller) && x.stopping && !x.lock.ByRestore? && (again ==> x.state == Disconnected)
    case Restoring(_, step, then_) =>
      && (if then_.BackToStart? then w.current == None && Private(x) && x.state == Connecting && !x.supervised
          else CallerOk(w, s, then_.caller) && x.stopping && (then_.again ==> x.state == Disconnected))
      && (x.lock.ByRestore? <==> step != Locking)
      && (step.Calling? || step.Clearing? ==> x.owns)
      && (step.Clearing? ==> !w.block.wanted)
    case StopState(_, caller, failed) =>
      CallerOk(w, s, caller) && x.stopping && !x.lock.ByRestore? && (!failed ==> !x.owns)
    case StopReturn(_, caller, failed) =>
      CallerOk(w, s, caller) && x.stopping && !x.lock.ByRestore? && (!failed ==> !x.owns) && x.state == Disconnected
  }

  /** What holds while Start works on session `s`: the guard is untouched, then exactly as the session asked. */
  predicate StartOk(w: World)
    requires InStart(w.at) && w.at.s < |w.sessions|
  {
    var x := w.sessions[w.at.s];
    && w.current == None && Private(x) && x.lock.Free?
    && (x.supervised ==> w.at.Publish?)
    && (w.at.StartEntry? || w.at.StartValidate? || w.at.StartMark? ==> !x.owns)
    && (w.at.StartSettings? || w.at.StartApply? || w.at.StartEngine? || w.at.StartUp? || w.at.Publish? ==> x.owns)
    && (w.at.StartEntry? ==> x.state == Disconnected)
    && (!w.at.StartEntry? && !w.at.Publish? ==> x.state == Connecting)
    && (w.at.Publish? ==> x.state != Connecting)
    && (w.at.StartApply? ==> w.at.kill == x.reported)
    && (if w.at.StartEngine? || w.at.StartUp? || w.at.Publish? then w.block == Block(x.reported, x.reported)
        else !w.at.StartFail? ==> !w.block.wanted)
  }

  predicate PositionOk(w: World)
  {
    if InStop(w.at) then w.at.s < |w.sessions| && StopOk(w)
    else if InStart(w.at) then w.at.s < |w.sessions| && StartOk(w)
    else if w.at.Unset? then
      && w.at.created == |w.sessions| - 1 && Pristine(w.sessions[w.at.created]) && !w.block.wanted
      && (w.current.Some? ==> w.current.value < |w.sessions| && w.sessions[w.current.value].stopping)
    else w.current.Some? ==> w.current.value < |w.sessions| && w.sessions[w.current.value].published
                             && !w.sessions[w.current.value].lock.ByRestore?
                             && (w.sessions[w.current.value].stopping ==> w.sessions[w.current.value].state == Disconnected)
  }

  ghost predicate Inv(w: World)
  {
    && (w.block.armed ==> w.block.wanted)
    && PositionOk(w)
    && (Holder(w).Some? ==> Sound(w.sessions[Holder(w).value], w.block))
    && (w.block.wanted ==> Holder(w).Some? && w.sessions[Holder(w).value].owns)
    && (forall i :: 0 <= i < |w.sessions| && Holder(w) != Some(i) ==> Inert(w.sessions[i]))
  }

  /** A step that touches only the holder keeps the invariant when the holder stays sound or lets go for good. */
  lemma HolderMoves(w: World, v: World, s: nat)
    requires Inv(w) && Holder(w) == Some(s) && s < |w.sessions| == |v.sessions|
    requires v.sessions == w.sessions[s := v.sessions[s]]
    requires PositionOk(v) && (v.block.armed ==> v.block.wanted)
    requires if Holder(v) == Some(s) then Sound(v.sessions[s], v.block) && (v.block.wanted ==> v.sessions[s].owns)
             else Holder(v) == None && Inert(v.sessions[s]) && !v.block.wanted
    ensures Inv(v)
  {
  }

  lemma HolderFacts(w: World, s: nat)
    requires Inv(w) && Holder(w) == Some(s)
    ensures s < |w.sessions| && PositionOk(w) && Sound(w.sessions[s], w.block)
    ensures (w.block.armed ==> w.block.wanted) && (w.block.wanted ==> w.sessions[s].owns)
  {
  }

  lemma StopEntryKeepsInv(w: World, fine: bool, answer: Answer)
    requires Inv(w) && w.at.StopEntry?
    ensures Inv(Managed(w, fine, answer))
  {
    hide Inv;
    HolderFacts(w, w.at.s);
    HolderMoves(w, Managed(w, fine, answer), w.at.s);
  }

  lemma StopEngineKeepsInv(w: World, fine: bool, answer: Answer)
    requires Inv(w) && w.at.StopEngine?
    ensures Inv(Managed(w, fine, answer))
  {
    hide Inv;
    HolderFacts(w, w.at.s);
    HolderMoves(w, Managed(w, fine, answer), w.at.s);
  }

  lemma LockingKeepsInv(w: World, fine: bool, answer: Answer)
    requires Inv(w) && w.at.Restoring? && (w.at.step.Locking? || w.at.step.Reading?)
    ensures Inv(Managed(w, fine, answer))
  {
    hide Inv;
    HolderFacts(w, w.at.s);
    HolderMoves(w, Managed(w, fine, answer), w.at.s);
  }

  lemma RestoringKeepsInv(w: World, fine: bool, answer: Answer)
    requires Inv(w) && w.at.Restoring? && (w.at.step.Calling? || w.at.step.Clearing?)
    ensures Inv(Managed(w, fine, answer))
  {
    hide Inv;
    HolderFacts(w, w.at.s);
    HolderMoves(w, Managed(w, fine, answer), w.at.s);
  }

  lemma StopStateKeepsInv(w: World, fine: bool, answer: Answer)
    requires Inv(w) && w.at.StopState?
    ensures Inv(Managed(w, fine, answer))
  {
    hide Inv;
    HolderFacts(w, w.at.s);
    HolderMoves(w, Managed(w, fine, answer), w.at.s);
  }

  lemma StopReturnKeepsInv(w: World, fine: bool, answer: Answer)
    requires Inv(w) && w.at.StopReturn?
    ensures Inv(Managed(w, fine, answer))
  {
    hide Inv;
    HolderFacts(w, w.at.s);
    HolderMoves(w, Managed(w, fine, answer), w.at.s);
  }

  lemma EarlyStartKeepsInv(w: World, fine: bool, answer: Answer)
    requires Inv(w) && (w.at.StartEntry? || w.at.StartValidate? || w.at.StartMark? || w.at.StartSettings? || w.at.StartFail?)
    ensures Inv(Managed(w, fine, answer))
  {
    hide Inv;
    HolderFacts(w, w.at.s);
    HolderMoves(w, Managed(w, fine, answer), w.at.s);
  }

  lemma LateStartKeepsInv(w: World, fine: bool, answer: Answer)
    requires Inv(w) && (w.at.StartApply? || w.at.StartEngine? || w.at.StartUp? || w.at.Publish?)
    ensures Inv(Managed(w, fine, answer))
  {
    hide Inv;
    HolderFacts(w, w.at.s);
    HolderMoves(w, Managed(w, fine, answer), w.at.s);
  }

  lemma IdleKeepsInv(w: World, fine: bool, answer: Answer)
    requires Inv(w) && !InStop(w.at) && !InStart(w.at)
    ensures Inv(Managed(w, fine, answer))
  {
  }

  lemma ManageKeepsInv(w: World, fine: bool, answer: Answer)
    requires Inv(w)
    ensures Inv(Managed(w, fine, answer))
  {
    hide Inv, Managed;
    if w.at.StopEntry? {
      StopEntryKeepsInv(w, fine, answer);
    } else if w.at.StopEngine? {
      StopEngineKeepsInv(w, fine, answer);
    } else if w.at.Restoring? {
      if w.at.step.Locking? || w.at.step.Reading? {
        LockingKeepsInv(w, fine, answer);
      } else {
        RestoringKeepsInv(w, fine, answer);
      }
    } else if w.at.StopState? {
      StopStateKeepsInv(w, fine, answer);
    } else if w.at.StopReturn? {
      StopReturnKeepsInv(w, fine, answer);
    } else if w.at.StartApply? || w.at.StartEngine? || w.at.StartUp? || w.at.Publish? {
      LateStartKeepsInv(w, fine, answer);
    } else if InStart(w.at) {
      EarlyStartKeepsInv(w, fine, answer);
    } else {
      IdleKeepsInv(w, fine, answer);
    }
  }

  /** The manager's position does not depend on a call's progress. */
  lemma CallKeepsPosition(w: World, v: World, s: nat)
    requires PositionOk(w) && Holder(w) == Some(s) && s < |w.sessions| == |v.sessions|
    requires v.sessions == w.sessions[s := v.sessions[s]] && v.at == w.at && v.current == w.current
    requires w.sessions[s].published && !w.sessions[s].lock.ByRestore? && !v.sessions[s].lock.ByRestore?
    requires v.sessions[s] == w.sessions[s].(lock := v.sessions[s].lock, reported := v.sessions[s].reported)
    ensures PositionOk(v)
  {
  }

  lemma HolderCallKeepsInv(w: World, s: nat, answer: Answer)
    requires Inv(w) && Holder(w) == Some(s) && s < |w.sessions| && w.sessions[s].lock.ByCall?
    ensures Inv(Called(w, s, answer))
  {
    hide Inv, PositionOk;
    HolderFacts(w, s);
    var v := Called(w, s, answer);
    CallKeepsPosition(w, v, s);
    HolderMoves(w, v, s);
  }

  lemma OtherCallKeepsInv(w: World, s: nat, answer: Answer)
    requires Inv(w) && Holder(w) != Some(s) && s < |w.sessions| && w.sessions[s].lock.ByCall?
    ensures Inv(Called(w, s, answer))
  {
    assert Inert(w.sessions[s]);
  }

  lemma ObservingKeepsPosition(w: World, s: nat, to: State)
    requires PositionOk(w) && Holder(w) == Some(s) && s < |w.sessions| && to != Connecting && to != Disconnected
    ensures PositionOk(Observed(w, s, to))
  {
  }

  lemma ObservingKeepsInv(w: World, s: nat, to: State)
    requires Inv(w) && to != Connecting && to != Disconnected
    ensures Inv(Observed(w, s, to))
  {
    if Holder(w) == Some(s) {
      hide Inv, PositionOk;
      HolderFacts(w, s);
      ObservingKeepsPosition(w, s, to);
      HolderMoves(w, Observed(w, s, to), s);
    }
  }

  lemma CommandKeepsInv(w: World, e: Event)
    requires Inv(w) && (e.Connect? || e.Disconnect? || e.NetworkChanged?)
    ensures Inv(Next(w, e))
  {
  }

  lemma NewCallKeepsInv(w: World, s: nat, enable: bool)
    requires Inv(w)
    ensures Inv(Next(w, Call(s, enable)))
  {
    if Holder(w) == Some(s) {
      hide Inv, PositionOk;
      HolderFacts(w, s);
      var v := Next(w, Call(s, enable));
      if v != w {
        CallKeepsPosition(w, v, s);
        HolderMoves(w, v, s);
      }
    }
  }

  lemma NextKeepsInv(w: World, e: Event)
    requires Inv(w)
    ensures Inv(Next(w, e))
  {
    hide Inv, Managed, Called, Observed;
    match e
    case Manage(fine, answer) => ManageKeepsInv(w, fine, answer);
    case CallStep(s, answer) =>
      if s < |w.sessions| && w.sessions[s].lock.ByCall? {
        if Holder(w) == Some(s) {
          HolderCallKeepsInv(w, s, answer);
        } else {
          OtherCallKeepsInv(w, s, answer);
        }
      }
    case EngineDown(s) => ObservingKeepsInv(w, s, Reconnecting);
    case EngineUp(s) => ObservingKeepsInv(w, s, Connected);
    case EngineFatal(s) => ObservingKeepsInv(w, s, Failed);
    case Call(s, enable) => NewCallKeepsInv(w, s, enable);
    case _ => CommandKeepsInv(w, e);
  }

  // ---- Runs ----

  ghost predicate Reachable(w: World) { exists events: seq<Event> :: Run(START, events) == w }

  lemma {:induction false} RunKeepsInv(events: seq<Event>)
    ensures Inv(Run(START, events))
  {
    hide Next;
    if events != [] {
      hide Inv;
      RunKeepsInv(events[..|events| - 1]);
      NextKeepsInv(Run(START, events[..|events| - 1]), events[|events| - 1]);
    }
  }

  lemma ReachableKeepsInv(w: World)
    requires Reachable(w)
    ensures Inv(w)
  {
    hide Inv;
    var events: seq<Event> :| Run(START, events) == w;
    RunKeepsInv(events);
  }

  lemma ReachableNext(w: World, e: Event)
    requires Reachable(w)
    ensures Reachable(Next(w, e))
  {
    hide Next;
    var events: seq<Event> :| Run(START, events) == w;
    assert (events + [e])[..|events|] == events;
    assert Run(START, events + [e]) == Next(w, e);
  }

  /** An armed block has an owner, and the manager holds that owner or is working on it. */
  lemma ArmedBlockHasAnOwner(w: World)
    requires Reachable(w) && w.block.armed
    ensures exists s: nat :: s < |w.sessions| && w.sessions[s].owns && (w.current == Some(s) || Handled(w.at) == Some(s))
  {
    ReachableKeepsInv(w);
    var s := Holder(w).value;
    assert w.sessions[s].owns && (w.current == Some(s) || Handled(w.at) == Some(s));
  }

  lemma AtMostOneOwner(w: World, i: nat, j: nat)
    requires Reachable(w) && i < |w.sessions| && j < |w.sessions| && w.sessions[i].owns && w.sessions[j].owns
    ensures i == j
  {
    ReachableKeepsInv(w);
    assert Holder(w) != Some(i) ==> Inert(w.sessions[i]);
    assert Holder(w) != Some(j) ==> Inert(w.sessions[j]);
  }

  /** Stopped for good: it owns nothing, and no call of it is on its way to the guard. */
  predicate Retired(x: Session) { x.stopping && x.state == Disconnected && !x.owns && !Underway(x) }

  /** The session on whose behalf an event runs. */
  function Actor(w: World, e: Event): Option<nat>
  {
    match e
    case Connect(_) | Disconnect => None
    case Manage(_, _) => Handled(w.at)
    case _ => Some(e.s)
  }

  lemma OnlyTheActorChanges(w: World, e: Event, i: nat)
    requires i < |w.sessions|
    ensures i < |Next(w, e).sessions|
    ensures Actor(w, e) != Some(i) ==> Next(w, e).sessions[i] == w.sessions[i]
  {
  }

  lemma RetiredStays(w: World, e: Event, s: nat)
    requires Inv(w) && s < |w.sessions| && Retired(w.sessions[s])
    ensures s < |Next(w, e).sessions| && Retired(Next(w, e).sessions[s])
  {
    OnlyTheActorChanges(w, e, s);
    if Actor(w, e) == Some(s) {
      if e.Manage? {
        HolderFacts(w, s);
      }
      hide Inv;
    } else {
      hide Inv, Next;
    }
  }

  lemma RetiredNeverArms(w: World, e: Event, s: nat)
    requires Inv(w) && s < |w.sessions| && Retired(w.sessions[s]) && Actor(w, e) == Some(s)
    ensures Next(w, e).block.armed ==> w.block.armed
  {
    if e.Manage? {
      hide Inv;
      HolderFacts(w, s);
    }
  }

  lemma {:induction false} RetiredRun(w: World, events: seq<Event>, s: nat)
    requires Inv(w) && s < |w.sessions| && Retired(w.sessions[s])
    ensures Inv(Run(w, events)) && s < |Run(w, events).sessions| && Retired(Run(w, events).sessions[s])
  {
    hide Next, Inv;
    if events != [] {
      var before := Run(w, events[..|events| - 1]);
      RetiredRun(w, events[..|events| - 1], s);
      NextKeepsInv(before, events[|events| - 1]);
      RetiredStays(before, events[|events| - 1], s);
    }
  }

  /** A Stop that reports success leaves the block off, and no later step of that session arms it again. */
  lemma SuccessfulStopIsFinal(w: World, later: seq<Event>, e: Event)
    requires Reachable(w) && w.at.StopReturn? && !w.at.failed
    ensures !w.block.armed
    ensures var s, v := w.at.s, Run(w, later);
            && s < |v.sessions| && Retired(v.sessions[s])
            && (Actor(v, e) == Some(s) ==> (Next(v, e).block.armed ==> v.block.armed))
  {
    hide Next, Inv;
    ReachableKeepsInv(w);
    var s, v := w.at.s, Run(w, later);
    HolderFacts(w, s);
    RetiredRun(w, later, s);
    if Actor(v, e) == Some(s) {
      RetiredNeverArms(v, e, s);
    }
  }

  // ---- Retrying ----

  /** A Disconnect of session `s` that has met no failure so far. */
  predicate OnTrack(w: World, s: nat)
  {
    match w.at
    case StopEntry(o, caller) => o == s && caller.Disconnecting?
    case StopEngine(o, caller, _) => o == s && caller.Disconnecting?
    case Restoring(o, _, then_) => o == s && then_.BackToStop? && then_.caller.Disconnecting? && !then_.engineFailed
    case StopState(o, caller, failed) => o == s && caller.Disconnecting? && !failed
    case StopReturn(o, caller, failed) => o == s && caller.Disconnecting? && !failed
    case _ => false
  }

  /** The manager's own calls succeed; SetKillSwitch calls and engine events do as they like. */
  predicate Smooth(e: Event) { e.Manage? ==> e.fine && e.answer == Done }

  /** Disconnect has reported success: no session is current and nothing is blocked. */
  predicate Finished(w: World) { w.at == Leaving && w.current == None && !w.block.armed }

  lemma SmoothStep(w: World, s: nat, e: Event)
    requires Reachable(w) && OnTrack(w, s) && Smooth(e)
    ensures OnTrack(Next(w, e), s) || Finished(Next(w, e))
  {
    ReachableKeepsInv(w);
    if w.at.StopReturn? {
      SuccessfulStopIsFinal(w, [], e);
    }
    hide Inv, Reachable, Applied, ApplySucceeds, Run;
    match e
    case Manage(fine, answer) =>
    case _ =>
  }

  lemma {:induction false} StaysOnTrack(w: World, s: nat, events: seq<Event>)
    requires Reachable(w) && OnTrack(w, s) && forall i :: 0 <= i < |events| ==> Smooth(events[i])
    ensures OnTrack(Run(w, events), s) || exists k :: 0 <= k <= |events| && Finished(Run(w, events[..k]))
  {
    hide OnTrack, Finished, Next, Reachable;
    if events != [] {
      var front, e := events[..|events| - 1], events[|events| - 1];
      StaysOnTrack(w, s, front);
      assert events[..|events|] == events;
      if OnTrack(Run(w, front), s) {
        ReachableRun(w, front);
        SmoothStep(Run(w, front), s, e);
      } else {
        var k :| 0 <= k <= |front| && Finished(Run(w, front[..k]));
        assert front[..k] == events[..k];
      }
    }
  }

  /**
   * Whatever failed before, a Disconnect whose own calls succeed is under way or has reported success
   * with the block lifted, whatever SetKillSwitch calls and engine events come between.
   */
  lemma RetriedDisconnectSucceeds(w: World, s: nat, events: seq<Event>)
    requires Reachable(w) && w.at.Idle? && w.current == Some(s) && forall i :: 0 <= i < |events| ==> Smooth(events[i])
    ensures var v := Next(w, Disconnect);
            OnTrack(Run(v, events), s) || exists k :: 0 <= k <= |events| && Finished(Run(v, events[..k]))
  {
    var v := Next(w, Disconnect);
    assert OnTrack(v, s);
    ReachableNext(w, Disconnect);
    hide Next, Reachable, OnTrack, Finished, Run;
    StaysOnTrack(v, s, events);
  }

  lemma {:induction false} ReachableRun(w: World, events: seq<Event>)
    requires Reachable(w)
    ensures Reachable(Run(w, events))
  {
    hide Reachable, Next;
    if events != [] {
      ReachableRun(w, events[..|events| - 1]);
      ReachableNext(Run(w, events[..|events| - 1]), events[|events| - 1]);
    }
  }

  /** How far a Disconnect still has to go. */
  function Remaining(w: World): nat
  {
    match w.at
    case StopEntry(_, _) => 8
    case StopEngine(_, _, _) => 7
    case Restoring(_, step, _) => (match step case Locking => 6 case Reading => 5 case Calling => 4 case Clearing => 3)
    case StopState(_, _, _) => 2
    case StopReturn(_, _, _) => 1
    case _ => 0
  }

  /** Each of its steps gets nearer, except that it waits for a call that holds the guard. */
  lemma ManagingAdvances(w: World, s: nat)
    requires Reachable(w) && OnTrack(w, s)
    ensures s < |w.sessions|
    ensures var v := Next(w, Manage(true, Done));
            Remaining(v) < Remaining(w) <==> !(w.at.Restoring? && w.at.step.Locking? && !w.sessions[s].lock.Free?)
  {
    ReachableKeepsInv(w);
    hide Inv, Reachable;
    HandledExists(w, s);
  }

  lemma HandledExists(w: World, s: nat)
    requires Reachable(w) && OnTrack(w, s)
    ensures s < |w.sessions|
  {
    ReachableKeepsInv(w);
  }

  /** Only disabling the switch, stopping, or a failed start lifts the block. */
  lemma OnlyReleaseLiftsTheBlock(w: World, e: Event)
    requires Reachable(w) && w.block.armed && !Next(w, e).block.armed
    ensures (e.CallStep? && e.s < |w.sessions| && w.sessions[e.s].lock == ByCall(false, Applying))
         || (e.Manage? && w.at.Restoring? && w.at.step.Calling?)
  {
    ReachableKeepsInv(w);
    if e.Manage? {
      var s := Holder(w).value;
      HolderFacts(w, s);
      hide Inv;
    }
  }

  ghost predicate Legal(before: State, after: State) { before == after || CanTransition(before, after) }

  lemma StopMovesLegally(w: World, fine: bool, answer: Answer)
    requires InStop(w.at) && w.at.s < |w.sessions|
    ensures Legal(w.sessions[w.at.s].state, Stopped(w, fine, answer).sessions[w.at.s].state)
  {
  }

  lemma StartMovesLegally(w: World, fine: bool, answer: Answer)
    requires InStart(w.at) && w.at.s < |w.sessions|
    ensures Legal(w.sessions[w.at.s].state, Started(w, fine, answer).sessions[w.at.s].state)
  {
  }

  /** The state field moves only along the transition table. */
  lemma StatesMoveLegally(w: World, e: Event, i: nat)
    requires i < |w.sessions|
    ensures i < |Next(w, e).sessions| && Legal(w.sessions[i].state, Next(w, e).sessions[i].state)
  {
    hide Stopped, Started;
    OnlyTheActorChanges(w, e, i);
    if Actor(w, e) == Some(i) && e.Manage? {
      if InStop(w.at) {
        StopMovesLegally(w, e.fine, e.answer);
      } else {
        StartMovesLegally(w, e.fine, e.answer);
      }
    }
  }

  predicate Down(x: Session) { x.stopping && x.state == Disconnected }

  lemma DownStays(w: World, e: Event, s: nat)
    requires Inv(w) && s < |w.sessions| && Down(w.sessions[s])
    ensures s < |Next(w, e).sessions| && Down(Next(w, e).sessions[s])
  {
    OnlyTheActorChanges(w, e, s);
    if Actor(w, e) == Some(s) {
      if e.Manage? {
        HolderFacts(w, s);
      }
      hide Inv;
    } else {
      hide Inv, Next;
    }
  }

  /** Nothing moves a stopped session out of Disconnected, whether or not its cleanup succeeded. */
  lemma {:induction false} StoppedSessionStaysDown(w: World, later: seq<Event>, s: nat)
    requires Reachable(w) && s < |w.sessions| && Down(w.sessions[s])
    ensures s < |Run(w, later).sessions| && Down(Run(w, later).sessions[s]) && Inv(Run(w, later))
  {
    hide Next, Inv;
    if later == [] {
      ReachableKeepsInv(w);
    } else {
      var before := Run(w, later[..|later| - 1]);
      StoppedSessionStaysDown(w, later[..|later| - 1], s);
      NextKeepsInv(before, later[|later| - 1]);
      DownStays(before, later[|later| - 1], s);
    }
  }

  /** A Start that succeeds has put the firewall exactly where the session asked. */
  lemma StartLeavesTheBlockAsAsked(w: World)
    requires Reachable(w) && w.at.Publish?
    ensures w.at.s < |w.sessions|
    ensures w.block.armed == w.sessions[w.at.s].reported == w.block.wanted
  {
    ReachableKeepsInv(w);
  }

  /** With no call in progress, the status of the running session reports the guard's setting. */
  lemma StatusReportsTheGuard(w: World, s: nat)
    requires Reachable(w) && w.current == Some(s) && s < |w.sessions|
    requires !w.sessions[s].stopping && w.sessions[s].lock.Free?
    ensures w.sessions[s].owns && w.sessions[s].reported == w.block.wanted
  {
    ReachableKeepsInv(w);
    assert Holder(w) == Some(s);
  }

  /** The guard wants a block that is not there. */
  predicate Lapsed(b: Block) { b.wanted && !b.armed }

  /** Enabling that reports success leaves traffic blocked exactly when no earlier Disarm had lapsed. */
  lemma EnablingBlocksUnlessLapsed(w: World, s: nat, answer: Answer)
    requires Reachable(w) && s < |w.sessions| && w.sessions[s].lock == ByCall(true, Applying)
    requires Called(w, s, answer).sessions[s].lock == ByCall(true, Committing)
    ensures Called(w, s, answer).block.armed <==> !Lapsed(w.block)
  {
    ReachableKeepsInv(w);
  }

  /** The block lapses only when a Disarm fails after removing it. */
  lemma OnlyAFailedDisarmLapses(w: World, e: Event)
    requires Reachable(w) && !Lapsed(w.block) && Lapsed(Next(w, e).block)
    ensures (e.CallStep? || e.Manage?) && e.answer == Refused(false)
  {
    ReachableKeepsInv(w);
    if e.Manage? {
      HolderFacts(w, Holder(w).value);
      hide Inv;
    }
  }

  /** A lapse is possible: the switch is reported on, the enabling call succeeded, and traffic flows. */
  lemma LapseIsReachable() returns (w: World)
    ensures Reachable(w) && w == World(Block(true, false), [Session(Connected, true, false, true, Free, true, true)], Some(0), Idle)
  {
    hide Run, Stopped, Reachable;
    w := ConnectedWithSwitchOn();
    w := Advance(w, Call(0, false));
    assert w == World(Block(true, true), [Session(Connected, true, false, true, ByCall(false, Checking), true, true)], Some(0), Idle);
    w := Advance(w, CallStep(0, Done));
    assert w == World(Block(true, true), [Session(Connected, true, false, true, ByCall(false, Applying), true, true)], Some(0), Idle);
    w := Advance(w, CallStep(0, Refused(false)));
    assert w == World(Block(true, false), [Session(Connected, true, false, true, Free, true, true)], Some(0), Idle);
    w := Advance(w, Call(0, true));
    assert w == World(Block(true, false), [Session(Connected, true, false, true, ByCall(true, Checking), true, true)], Some(0), Idle);
    w := Advance(w, CallStep(0, Done));
    assert w == World(Block(true, false), [Session(Connected, true, false, true, ByCall(true, Applying), true, true)], Some(0), Idle);
    w := Advance(w, CallStep(0, Done));
    assert w == World(Block(true, false), [Session(Connected, true, false, true, ByCall(true, Committing), true, true)], Some(0), Idle);
    w := Advance(w, CallStep(0, Done));
    assert w == World(Block(true, false), [Session(Connected, true, false, true, Free, true, true)], Some(0), Idle);
  }

  lemma ConnectedWithSwitchOn() returns (w: World)
    ensures Reachable(w) && w == World(Block(true, true), [Session(Connected, true, false, true, Free, true, true)], Some(0), Idle)
  {
    hide Run, Stopped, Reachable;
    w := AboutToArm();
    w := Advance(w, Manage(true, Done));
    assert w == World(Block(true, true), [Session(Connecting, true, false, true, Free, false, false)], None, StartEngine(0));
    w := Advance(w, Manage(true, Done));
    assert w == World(Block(true, true), [Session(Connecting, true, false, true, Free, false, false)], None, StartUp(0));
    w := Advance(w, Manage(true, Done));
    assert w == World(Block(true, true), [Session(Connected, true, false, true, Free, false, true)], None, Publish(0));
    w := Advance(w, Manage(true, Done));
    assert w == World(Block(true, true), [Session(Connected, true, false, true, Free, true, true)], Some(0), Leaving);
    w := Advance(w, Manage(true, Done));
    assert w == World(Block(true, true), [Session(Connected, true, false, true, Free, true, true)], Some(0), Idle);
  }

  lemma AboutToArm() returns (w: World)
    ensures Reachable(w) && w == World(OFF, [Session(Connecting, true, false, true, Free, false, false)], None, StartApply(0, true))
  {
    hide Run, Stopped;
    w := FirstSessionMade();
    w := Advance(w, Manage(true, Done));
    assert w == World(OFF, [Session(Disconnected, true, false, false, Free, false, false)], None, StartEntry(0));
    w := Advance(w, Manage(true, Done));
    assert w == World(OFF, [Session(Connecting, true, false, false, Free, false, false)], None, StartValidate(0));
    w := Advance(w, Manage(true, Done));
    assert w == World(OFF, [Session(Connecting, true, false, false, Free, false, false)], None, StartMark(0));
    w := Advance(w, Manage(true, Done));
    assert w == World(OFF, [Session(Connecting, true, false, true, Free, false, false)], None, StartSettings(0));
    w := Advance(w, Manage(true, Done));
    assert w == World(OFF, [Session(Connecting, true, false, true, Free, false, false)], None, StartApply(0, true));
  }

  lemma FirstSessionMade() returns (w: World)
    ensures Reachable(w)
    ensures w == World(OFF, [Session(Disconnected, true, false, false, Free, false, false)], None, Unset(0))
  {
    assert Run(START, []) == START;
    w := Advance(START, Connect(true));
    w := Advance(w, Manage(true, Done));
    assert w.sessions == [] + [NewSession(true)] == [NewSession(true)];
  }

  lemma Advance(w: World, e: Event) returns (v: World)
    requires Reachable(w)
    ensures v == Next(w, e) && Reachable(v)
  {
    v := Next(w, e);
    ReachableNext(w, e);
  }
}
