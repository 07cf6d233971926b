/**
 The runtime record of one model entry, and what each critical section of the
 orchestrator does to it.  Both the interleaving machine (`Protocol`) and the
 imperative classes (`Orchestration`, `Scheduling`) are written over these
 functions, so each critical section is defined once.
 */
module Lifecycle {

  datatype Option<+T> = None | Some(value: T)

  datatype ModelState = Unloaded | Loading | Active | Sleep1 | Sleep2

  datatype Engine = VLLM | LlamaCpp

  /** A process handle.  Only its identity matters: it is the fencing token. */
  type Pid = nat

  datatype Core = Core(
    state: ModelState,
    proc: Option<Pid>,
    active: int,     // activeRequests, a plain counter that may go below zero
    group: int,      // assignedGroupIdx, -1 when unassigned
    reserved: int)   // reservedVRAMMB

  const FRESH := Core(Unloaded, None, 0, -1, 0)

  /** The states in which a process serves or sleeps. */
  predicate Up(s: ModelState) {
    s == Active || s == Sleep1 || s == Sleep2
  }

  predicate Asleep(s: ModelState) {
    s == Sleep1 || s == Sleep2
  }

  /** The transitions of the life-cycle diagram. */
  predicate Edge(s: ModelState, s': ModelState) {
    match s
    case Unloaded => s' == Loading
    case Loading => s' == Active || s' == Unloaded
    case Active => s' == Sleep1 || s' == Sleep2 || s' == Unloaded
    case Sleep1 => s' == Sleep2 || s' == Active || s' == Unloaded
    case Sleep2 => s' == Active || s' == Unloaded
  }

  /** The fields that every path to UNLOADED resets. */
  function Unload(c: Core): Core {
    c.(state := Unloaded, proc := None, group := -1, reserved := 0)
  }

  /** `killAndUnload` and the crash handler: no effect unless `p` is still the current process. */
  function UnloadIfCurrent(c: Core, p: Option<Pid>): Core {
    if c.proc != p then c else Unload(c)
  }

  /** The critical section of `transitionToSleep` after the sleep call returned. */
  function SleepCommit(c: Core, p: Option<Pid>, level: int): Core {
    if c.proc != p then c
    else if c.state == Active && level == 1 then c.(state := Sleep1)
    else if c.state == Active && level == 2 then c.(state := Sleep2)
    else if c.state == Sleep1 && level == 2 then c.(state := Sleep2)
    else c
  }

  /** What `SleepCommit` adds to the CPU-RAM counter, in multiples of the model's weights. */
  function SleepCredit(c: Core, p: Option<Pid>, level: int): int {
    if c.proc != p then 0
    else if c.state == Active && level == 1 then -1
    else if c.state == Sleep1 && level == 2 then 1
    else 0
  }

  /** The critical section of `wakeAndActivate` after the wake call returned. */
  function WakeCommit(c: Core, p: Option<Pid>): Core {
    if c.proc != p then c else c.(state := Active)
  }

  /** The wake credit is decided by the state captured before the call, not the current one. */
  function WakeCredit(c: Core, p: Option<Pid>, captured: ModelState): int {
    if c.proc == p && captured == Sleep1 then 1 else 0
  }
}
