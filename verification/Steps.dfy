/** The phases of a journaled batch, and what can happen to one durable step of a process. */
module Steps {
  import opened Wrappers

  datatype Phase = Planned | Attempting | Succeeded | Failed | RecoveryDesired | Recovering | RecoverySucceeded | RecoveryFailed

  // A step may raise or die just before or just after its effect became durable; a journal
  // write may also find that its lease is no longer current.
  datatype Fault = Proceeds | RaisesBefore | RaisesAfter | CrashesBefore | CrashesAfter | LosesLease

  datatype Outcome<World> = Going(world: World) | Raised(world: World, leaseLost: bool) | Crashed(world: World)

  // A step whose effect is None raises by itself.
  function Attempt<World>(w: World, effect: Option<World>, fault: Fault): Outcome<World> {
    match fault
    case Proceeds => if effect.Some? then Going(effect.value) else Raised(w, false)
    case RaisesBefore => Raised(w, false)
    case RaisesAfter => Raised(effect.GetOr(w), false)
    case LosesLease => Raised(w, true)
    case CrashesBefore => Crashed(w)
    case CrashesAfter => Crashed(effect.GetOr(w))
  }

  // A handled failure is still raised to the caller.
  function Reraised<World>(o: Outcome<World>): Outcome<World> {
    if o.Going? then Raised(o.world, false) else o
  }

  // How a call on mutable state came back: normally, with an exception, or not at all.
  datatype Signal = Returned | Threw(leaseLost: bool) | Stopped

  function OutcomeOf<World>(w: World, signal: Signal): Outcome<World> {
    match signal
    case Returned => Going(w)
    case Threw(lost) => Raised(w, lost)
    case Stopped => Crashed(w)
  }

  // Whether the effect of a step is carried out, and how the step comes back if it is allowed.
  predicate TakesEffect(fault: Fault) { fault in {Proceeds, RaisesAfter, CrashesAfter} }

  function SignalOf(fault: Fault, allowed: bool): Signal {
    match fault
    case Proceeds => if allowed then Returned else Threw(false)
    case RaisesBefore => Threw(false)
    case RaisesAfter => Threw(false)
    case LosesLease => Threw(true)
    case CrashesBefore => Stopped
    case CrashesAfter => Stopped
  }
}
