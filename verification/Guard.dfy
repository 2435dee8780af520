/** The kill-switch guard over a firewall whose calls can fail. */
module Guard {

  /** The environment's answer to a firewall call; a failed Disarm may still have removed the block. */
  datatype Answer = Done | Refused(stillArmed: bool)

  /** `wanted` is the KillSwitch field of the settings the guard believes in force. */
  datatype Block = Block(wanted: bool, armed: bool)

  const OFF := Block(false, false)

  /** Guard.Apply: it calls the firewall only when the wanted setting changes. */
  function Applied(b: Block, enable: bool, a: Answer): (next: Block)
  {
    if enable && !b.wanted then if a.Done? then Block(true, true) else Block(false, false)
    else if !enable && b.wanted then if a.Done? then OFF else Block(true, b.armed && a.stillArmed)
    else b
  }

  predicate ApplySucceeds(b: Block, enable: bool, a: Answer) { enable == b.wanted || a.Done? }

  /** Guard.Restore: it disarms only what this guard armed, and keeps ownership when that fails. */
  function Restored(b: Block, a: Answer): (next: Block)
  {
    if !b.wanted then Block(false, b.armed)
    else if a.Done? then OFF
    else Block(true, b.armed && a.stillArmed)
  }

  predicate RestoreSucceeds(b: Block, a: Answer) { !b.wanted || a.Done? }

  class Firewall {
    var armed: bool

    constructor () ensures !armed { armed := false; }

    method Arm(a: Answer) returns (ok: bool)
      modifies this
      ensures ok == a.Done? && armed == a.Done?
    {
      armed := a.Done?;
      ok := a.Done?;
    }

    method Disarm(a: Answer) returns (ok: bool)
      modifies this
      ensures ok == a.Done? && armed == (old(armed) && a.Refused? && a.stillArmed)
    {
      armed := armed && a.Refused? && a.stillArmed;
      ok := a.Done?;
    }
  }

  class Keeper {
    const firewall: Firewall
    var applied: bool
    var restoring: bool

    ghost function View(): Block reads this, firewall { Block(applied, firewall.armed) }

    constructor (firewall: Firewall)
      requires !firewall.armed
      ensures this.firewall == firewall && View() == OFF && !restoring
    {
      this.firewall := firewall;
      applied, restoring := false, false;
    }

    method Apply(enable: bool, a: Answer) returns (ok: bool)
      modifies this, firewall
      ensures restoring == old(restoring)
      ensures ok == (!restoring && ApplySucceeds(old(View()), enable, a))
      ensures View() == if restoring then old(View()) else Applied(old(View()), enable, a)
    {
      if restoring {
        return false;
      }
      if enable && !applied {
        var armed := firewall.Arm(a);
        if !armed {
          return false;
        }
      }
      if !enable && applied {
        var disarmed := firewall.Disarm(a);
        if !disarmed {
          return false;
        }
      }
      applied := enable;
      return true;
    }

    method Restore(a: Answer) returns (ok: bool)
      modifies this, firewall
      ensures !restoring
      ensures ok == RestoreSucceeds(old(View()), a)
      ensures View() == Restored(old(View()), a)
    {
      restoring := true;
      if applied {
        var disarmed := firewall.Disarm(a);
        if !disarmed {
          restoring := false;
          return false;
        }
      }
      applied := false;
      restoring := false;
      return true;
    }
  }

  /** Enabling that reports success leaves the block in force unless an earlier Disarm failed after removing it. */
  lemma EnableArmsExactlyWhenNotLapsed(b: Block, a: Answer)
    requires ApplySucceeds(b, true, a)
    ensures Applied(b, true, a).armed <==> (b.wanted ==> b.armed)
  {
  }
}
