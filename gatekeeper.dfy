/** The Gatekeeper object itself: its fields are updated in place by
    addCommand, the drain step, a timer firing and cancelAll. Each method is
    specified by the matching function of GatekeeperSpec, and keeps that
    module's invariant over the ghost logs of added and executed actions. */
module Gatekeeper {
  import opened GatekeeperSpec

  class Gatekeeper {
    /** The deque of `[pause, action]` pairs, head first. */
    var commands: seq<Command>
    var timer: Timer
    /** Diagnostic label; never changes after construction. */
    const name: string
    /** Every action run so far, in the order it ran. */
    ghost var executed: seq<ActionId>
    /** Every action passed to addCommand, in call order. */
    ghost var added: seq<ActionId>

    ghost predicate Valid()
      reads this
    {
      Inv(State(commands, timer), executed, added)
    }

    function Snapshot(): State
      reads this
    {
      State(commands, timer)
    }

    /** A new Gatekeeper has an empty queue, a null timer and the given name. */
    constructor (name: string)
      ensures Valid()
      ensures commands == [] && timer == NoTimer && this.name == name
      ensures executed == [] && added == []
    {
      this.commands := [];
      this.timer := NoTimer;
      this.name := name;
      this.executed := [];
      this.added := [];
    }

    /** The drain step built by `_procCommandGenerator`. The popped action
        runs (it joins `executed`) before its pause is resolved; a failure of
        either ends the step with no new timer. */
    method ProcCommand(r: Run) returns (o: Outcome)
      modifies this`commands, this`timer, this`executed
      ensures (Snapshot(), o) == Drain(old(Snapshot()), r)
      ensures executed == old(executed) + RanBy(o)
    {
      if commands == [] {
        timer := NoTimer;
        o := WentIdle;
      } else {
        var command := commands[0];
        commands := commands[1..];
        executed := executed + [command.action];
        if r.threw {
          o := ActionThrew(command.action);
        } else {
          var pause := Resolve(command.pause, r.resolveNow);
          if pause.None? {
            o := PauseUnresolvable(command.action);
          } else {
            var triggerTime := TriggerTime(pause.value, r);
            timer := Armed(triggerTime);
            o := Ran(command.action, triggerTime);
          }
        }
      }
    }

    /** `addCommand`: append at the tail and, when the timer is null or has
        terminated, run one drain step at once. */
    method AddCommand(pause: Pause, action: ActionId, r: Run) returns (o: Option<Outcome>)
      requires Valid()
      modifies this`commands, this`timer, this`executed, this`added
      ensures Valid()
      ensures (Snapshot(), o) == Add(old(Snapshot()), Command(pause, action), r)
      ensures added == old(added) + [action]
      ensures executed == old(executed) + RanByOpt(o)
    {
      ghost var s0, log0, added0 := Snapshot(), executed, added;
      var c := Command(pause, action);
      AddKeepsInv(s0, c, r, log0, added0);
      commands := commands + [c];
      added := added + [action];
      if timer.NoTimer? || timer.Terminated? {
        var step := ProcCommand(r);
        o := Some(step);
        assert Add(s0, c, r) == (Snapshot(), o);
      } else {
        o := None;
        assert Add(s0, c, r) == (Snapshot(), o);
      }
      assert executed == log0 + RanByOpt(Add(s0, c, r).1);
      assert State(commands, timer) == Add(s0, c, r).0;
    }

    /** The scheduler fires the armed timer: it terminates and its callback,
        the drain step, runs. */
    method Fire(r: Run) returns (o: Outcome)
      requires Valid() && timer.Armed?
      modifies this`commands, this`timer, this`executed
      ensures Valid()
      ensures (Snapshot(), Some(o)) == GatekeeperSpec.Fire(old(Snapshot()), r)
      ensures executed == old(executed) + RanBy(o)
    {
      FireKeepsInv(Snapshot(), r, executed, added);
      timer := Terminated(timer.at);
      o := ProcCommand(r);
    }

    /** `cancelAll`: cancel a non-null timer and clear the queue. */
    method CancelAll()
      requires Valid()
      modifies this`commands, this`timer
      ensures Valid()
      ensures Snapshot() == GatekeeperSpec.CancelAll(old(Snapshot()))
    {
      CancelKeepsInv(Snapshot(), executed, added);
      if timer != NoTimer {
        timer := Cancel(timer);
      }
      commands := [];
    }
  }
}
