/**
 The request and life-cycle protocol of one model entry as a machine with one
 step per critical section.  Every goroutine that touches the entry has a
 program counter: HTTP handlers, the startup loader, TTL ticks, health watchers
 and in-flight sleep, wake and kill calls.  The outcome of each slow call is a
 free choice of the step that consumes it, so a run ranges over every
 interleaving and every pattern of failures.
 */
module Protocol {
  import opened Lifecycle

  /** A goroutine; the handler goroutine of a request has the request's id. */
  type Tid = nat

  datatype Hold = Nothing | Popped(r: Tid) | Marked(r: Tid)

  datatype Phase =
    | Locking                                      // about to take assignMu
    | Reading(next: nat, seen: set<int>)           // collecting the siblings' groups
    | Choosing(exclude: set<int>)                  // evicting and picking

  datatype Pc =
    | Entering
    | Enqueuing
    | Observing
    | Claiming
    | Assigning(phase: Phase)
    | Launching(g: int)
    | Probing(p: Pid)                              // waitForHealth
    | Waking(captured: Option<Pid>, from: ModelState)
    | Waiting                                      // waitForActive
    | Draining(hold: Hold)                         // drainQueue
    | Refusing(hold: Hold)                         // drainQueueWith503
    | AtDoor                                       // handleRequest returned; select on done / cancellation
    | Forwarding
    | Finished
    | TtlSaw(s: ModelState)
    | TtlCpu(free: int)
    | SleepCall(target: Option<Pid>, level: int)
    | KillCall(victim: Option<Pid>)
    | Watching(watched: Pid)

  datatype Kind = Http | Startup

  datatype Req = Req(
    kind: Kind,
    closes: nat,       // how often `done` has been closed
    err: bool,         // the flag read after `done`
    full: bool,        // rejected because the queue was full
    fast: bool,        // `done` closed on the ACTIVE fast path
    counted: bool,     // activeRequests was incremented for it
    completed: bool)   // completeRequest ran for it

  datatype Params = Params(depth: nat, weights: int, engine: Engine, pinned: bool, replicated: bool)

  datatype Entry = Entry(
    core: Core,
    queue: seq<Tid>,
    pcs: map<Tid, Pc>,
    reqs: map<Tid, Req>,
    nextPid: Pid,
    enqueued: seq<Tid>,    // history of channel sends
    dequeued: seq<Tid>,    // history of channel receives
    hands: map<Tid, Tid>,  // received and not yet answered: request -> the drainer holding it
    credit: int,           // net CPU-RAM credit of this entry, in multiples of its weights
    doubled: nat,          // wakes credited although the entry was no longer in SLEEP1
    lost: nat)             // exits from SLEEP1 that credited nothing

  const INITIAL := Entry(FRESH, [], map[], map[], 0, [], [], map[], 0, 0, 0)

  /** Steps of the goroutine `t`, grouped by the part of the code they belong to. */
  datatype ClientAct =        // routeRequest and the first half of handleRequest
    | Submit(kind: Kind)
    | Enter
    | Enqueue
    | Observe
    | Claim
    | Poll
    | SeeDone
    | Cancel
    | Complete

  datatype LoaderAct =        // handleRequest between the LOADING claim and its end
    | BeginAssign
    | ReadSibling(g: int)
    | EndReading
    | AssignOk(g: int, needed: int)
    | AssignFail
    | LaunchOk
    | LaunchFail
    | HealthOk(watcher: Tid, measured: Option<int>)
    | HealthFail

  datatype DrainAct =         // drainQueue and drainQueueWith503
    | Pop
    | Mark
    | Close
    | DrainEnd

  datatype TickAct =          // tickTTL up to its slow call, and the health watcher
    | TtlRead
    | TtlReadCpu(free: int)
    | TtlCapture
    | WatchStop

  datatype DoneAct =          // what is committed when a slow call returns
    | WakeDone(ok: bool)
    | SleepDone(ok: bool)
    | KillDone
    | Crash

  /** One fused iteration of an eviction loop run by another model's loader. */
  datatype EvictAct =
    | EvictToSleep1
    | EvictToSleep2
    | EvictKill

  datatype Act =
    | Client(t: Tid, client: ClientAct)
    | Loader(t: Tid, loader: LoaderAct)
    | Drain(t: Tid, drain: DrainAct)
    | Tick(t: Tid, tick: TickAct)
    | Done(t: Tid, done: DoneAct)
    | Evict(evict: EvictAct)

  predicate At(e: Entry, t: Tid, pc: Pc) {
    t in e.pcs && e.pcs[t] == pc
  }

  predicate IsLoader(pc: Pc) {
    pc.Assigning? || pc.Launching? || pc.Probing?
  }

  function HoldOf(pc: Pc): Hold {
    match pc
    case Draining(h) => h
    case Refusing(h) => h
    case _ => Nothing
  }

  predicate IsDrainer(pc: Pc) {
    pc.Draining? || pc.Refusing?
  }

  function WithHold(pc: Pc, h: Hold): Pc
    requires IsDrainer(pc)
  {
    if pc.Draining? then Draining(h) else Refusing(h)
  }

  /** Where a goroutine goes when its drain loop finds the queue empty. */
  function AfterDrain(e: Entry, t: Tid): Pc {
    if t in e.reqs then AtDoor else Finished
  }

  predicate ClientEnabled(e: Entry, t: Tid, a: ClientAct) {
    match a
    case Submit(_) => t !in e.pcs && t !in e.reqs
    case Enter => At(e, t, Entering) && t in e.reqs
    case Enqueue => At(e, t, Enqueuing) && t in e.reqs
    case Observe => At(e, t, Observing)
    case Claim => At(e, t, Claiming)
    case Poll => At(e, t, Waiting)
    case SeeDone => At(e, t, AtDoor) && t in e.reqs && e.reqs[t].closes > 0
    case Cancel => At(e, t, AtDoor) && t in e.reqs && e.reqs[t].kind == Http
    case Complete => At(e, t, Forwarding) && t in e.reqs
  }

  predicate LoaderEnabled(e: Entry, t: Tid, a: LoaderAct) {
    t in e.pcs &&
    var pc := e.pcs[t];
    match a
    case BeginAssign => pc == Assigning(Locking)
    case ReadSibling(_) => pc.Assigning? && pc.phase.Reading?
    case EndReading => pc.Assigning? && pc.phase.Reading?
    case AssignOk(g, _) => pc.Assigning? && pc.phase.Choosing? && g >= 0 && g !in pc.phase.exclude
    case AssignFail => pc.Assigning? && pc.phase.Choosing?
    case LaunchOk => pc.Launching?
    case LaunchFail => pc.Launching?
    case HealthOk(w, _) => pc.Probing? && w !in e.pcs && w !in e.reqs
    case HealthFail => pc.Probing?
  }

  predicate DrainEnabled(e: Entry, t: Tid, a: DrainAct) {
    t in e.pcs && IsDrainer(e.pcs[t]) &&
    var hold := HoldOf(e.pcs[t]);
    match a
    case Pop => hold.Nothing? && e.queue != []
    case Mark => hold.Popped? && hold.r in e.reqs
    case Close => hold.Marked? && hold.r in e.reqs
    case DrainEnd => hold.Nothing? && e.queue == []
  }

  predicate TickEnabled(k: Params, e: Entry, t: Tid, a: TickAct) {
    match a
    case TtlRead => t !in e.pcs && t !in e.reqs && Up(e.core.state) && e.core.active <= 0
    case TtlReadCpu(_) => At(e, t, TtlSaw(Active)) && k.engine == VLLM
    case TtlCapture =>
      t in e.pcs && (e.pcs[t].TtlCpu? || (e.pcs[t].TtlSaw? && !(e.pcs[t].s == Active && k.engine == VLLM)))
    case WatchStop =>
      t in e.pcs && e.pcs[t].Watching? && (e.core.proc != Some(e.pcs[t].watched) || !Up(e.core.state))
  }

  predicate DoneEnabled(e: Entry, t: Tid, a: DoneAct) {
    t in e.pcs &&
    match a
    case WakeDone(_) => e.pcs[t].Waking?
    case SleepDone(_) => e.pcs[t].SleepCall?
    case KillDone => e.pcs[t].KillCall?
    case Crash => e.pcs[t].Watching?
  }

  predicate EvictEnabled(k: Params, c: Core, a: EvictAct) {
    match a
    case EvictToSleep1 => c.state == Active && k.engine == VLLM
    case EvictToSleep2 => c.state == Sleep1 && c.active == 0
    case EvictKill => (c.state == Sleep2 && c.active == 0) || (c.state == Active && k.engine == LlamaCpp && c.active <= 0)
  }

  predicate Enabled(k: Params, e: Entry, a: Act) {
    match a
    case Client(t, act) => ClientEnabled(e, t, act)
    case Loader(t, act) => LoaderEnabled(e, t, act)
    case Drain(t, act) => DrainEnabled(e, t, act)
    case Tick(t, act) => TickEnabled(k, e, t, act)
    case Done(t, act) => DoneEnabled(e, t, act)
    case Evict(act) => EvictEnabled(k, e.core, act)
  }

  function Goto(e: Entry, t: Tid, pc: Pc): Entry {
    e.(pcs := e.pcs[t := pc])
  }

  /** Apply a critical section to the core, keeping the CPU-RAM book of this entry. */
  function Commit(e: Entry, core: Core, credit: int): Entry {
    var left := e.core.state == Sleep1 && core.state != Sleep1;
    e.(core := core,
       credit := e.credit + credit,
       doubled := e.doubled + (if credit == 1 && !left then 1 else 0),
       lost := e.lost + (if credit == 0 && left then 1 else 0))
  }

  /** `handleRequest` after its request is on the queue (fused with the capture in `wakeAndActivate`). */
  function Observed(e: Entry): Pc {
    match e.core.state
    case Active => Draining(Nothing)
    case Sleep1 => Waking(e.core.proc, Sleep1)
    case Sleep2 => Waking(e.core.proc, Sleep2)
    case Loading => Waiting
    case Unloaded => Claiming
  }

  /** The re-check of `tickTTL` under the entry's lock, and the call it then makes. */
  function Captured(k: Params, e: Entry, pc: Pc): Pc
    requires pc.TtlCpu? || pc.TtlSaw?
  {
    var seen := if pc.TtlCpu? then Active else pc.s;
    if e.core.state != seen || e.core.active > 0 then Finished
    else if pc.TtlCpu? then SleepCall(e.core.proc, if pc.free >= k.weights then 1 else 2)
    else if seen == Sleep1 then SleepCall(e.core.proc, 2)
    else KillCall(e.core.proc)
  }

  function ApplyClient(k: Params, e: Entry, t: Tid, a: ClientAct): Entry
    requires ClientEnabled(e, t, a)
  {
    match a
    case Submit(kind) =>
      Goto(e, t, Entering).(reqs := e.reqs[t := Req(kind, 0, false, false, false, false, false)])
    case Enter =>
      if e.core.state == Active then
        Goto(e, t, AtDoor).(reqs := e.reqs[t := e.reqs[t].(closes := e.reqs[t].closes + 1, fast := true)])
      else
        Goto(e, t, Enqueuing)
    case Enqueue =>
      if |e.queue| < k.depth then
        Goto(e, t, Observing).(queue := e.queue + [t], enqueued := e.enqueued + [t])
      else
        Goto(e, t, AtDoor).(reqs := e.reqs[t := e.reqs[t].(full := true)])
    case Observe => Goto(e, t, Observed(e))
    case Claim =>
      (match e.core.state
       case Unloaded => Goto(e, t, Assigning(Locking)).(core := e.core.(state := Loading))
       case Active => Goto(e, t, Draining(Nothing))
       case Loading => Goto(e, t, Waiting)
       case _ => Goto(e, t, AtDoor))    // asleep again: returns without draining
    case Poll =>
      if e.core.state == Active then Goto(e, t, Draining(Nothing))
      else if e.core.state == Unloaded then Goto(e, t, Refusing(Nothing))
      else Goto(e, t, Waiting)
    case SeeDone => Goto(e, t, if e.reqs[t].err || e.reqs[t].kind == Startup then Finished else Forwarding)
    case Cancel => Goto(e, t, Finished)
    case Complete =>
      Goto(e, t, Finished).(core := e.core.(active := e.core.active - 1),
                            reqs := e.reqs[t := e.reqs[t].(completed := true)])
  }

  function ApplyLoader(k: Params, e: Entry, t: Tid, a: LoaderAct): Entry
    requires LoaderEnabled(e, t, a)
  {
    match a
    case BeginAssign => Goto(e, t, Assigning(if k.replicated then Reading(0, {}) else Choosing({})))
    case ReadSibling(g) =>
      var ph := e.pcs[t].phase;
      Goto(e, t, Assigning(Reading(ph.next + 1, if g >= 0 then ph.seen + {g} else ph.seen)))
    case EndReading => Goto(e, t, Assigning(Choosing(e.pcs[t].phase.seen)))
    case AssignOk(g, needed) =>
      // the pinned path leaves assignedGroupIdx to be set after the launch
      Goto(e, t, Launching(g)).(core := e.core.(group := if k.pinned then e.core.group else g, reserved := needed))
    case AssignFail => Goto(e, t, Refusing(Nothing)).(core := e.core.(state := Unloaded))
    case LaunchOk =>
      Goto(e, t, Probing(e.nextPid)).(
        core := e.core.(proc := Some(e.nextPid), group := e.pcs[t].g), nextPid := e.nextPid + 1)
    case LaunchFail =>
      Goto(e, t, Refusing(Nothing)).(core := e.core.(state := Unloaded, group := -1, reserved := 0))
    case HealthOk(w, measured) =>
      Goto(Goto(e, t, Draining(Nothing)), w, Watching(e.pcs[t].p)).(
        core := e.core.(state := Active, reserved := if measured.Some? then measured.value else e.core.reserved))
    case HealthFail => Goto(e, t, Refusing(Nothing)).(core := Unload(e.core))
  }

  function ApplyDrain(e: Entry, t: Tid, a: DrainAct): Entry
    requires DrainEnabled(e, t, a)
  {
    var pc := e.pcs[t];
    match a
    case Pop =>
      Goto(e, t, WithHold(pc, Popped(e.queue[0]))).(
        queue := e.queue[1..], dequeued := e.dequeued + [e.queue[0]], hands := e.hands[e.queue[0] := t])
    case Mark =>
      var r := HoldOf(pc).r;
      var e1 := Goto(e, t, WithHold(pc, Marked(r)));
      if pc.Draining? then
        e1.(core := e.core.(active := e.core.active + 1), reqs := e.reqs[r := e.reqs[r].(counted := true)])
      else
        e1.(reqs := e.reqs[r := e.reqs[r].(err := true)])
    case Close =>
      var r := HoldOf(pc).r;
      Goto(e, t, WithHold(pc, Nothing)).(
        reqs := e.reqs[r := e.reqs[r].(closes := e.reqs[r].closes + 1)], hands := e.hands - {r})
    case DrainEnd => Goto(e, t, AfterDrain(e, t))
  }

  function ApplyTick(k: Params, e: Entry, t: Tid, a: TickAct): Entry
    requires TickEnabled(k, e, t, a)
  {
    match a
    case TtlRead => Goto(e, t, TtlSaw(e.core.state))
    case TtlReadCpu(free) => Goto(e, t, TtlCpu(free))
    case TtlCapture => Goto(e, t, Captured(k, e, e.pcs[t]))
    case WatchStop => Goto(e, t, Finished)
  }

  /** The core after a slow call returned, and its CPU-RAM credit. */
  function DoneCore(c: Core, pc: Pc, a: DoneAct): (Core, int)
    requires match a case WakeDone(_) => pc.Waking? case SleepDone(_) => pc.SleepCall? case KillDone => pc.KillCall? case Crash => pc.Watching?
  {
    match a
    case WakeDone(ok) => if pc.captured.None? || !ok then (c, 0) else (WakeCommit(c, pc.captured), WakeCredit(c, pc.captured, pc.from))
    case SleepDone(ok) => if pc.target.None? || !ok then (c, 0) else (SleepCommit(c, pc.target, pc.level), SleepCredit(c, pc.target, pc.level))
    case KillDone => (UnloadIfCurrent(c, pc.victim), 0)
    case Crash => (UnloadIfCurrent(c, Some(pc.watched)), 0)
  }

  /** Where the goroutine goes next. */
  function DoneNext(c: Core, pc: Pc, a: DoneAct): Pc {
    match a
    case WakeDone(ok) => if pc.Waking? && pc.captured.Some? && !ok then Refusing(Nothing) else Draining(Nothing)
    case SleepDone(_) => Finished
    case KillDone => Finished
    case Crash => if pc.Watching? && c.proc == Some(pc.watched) then Refusing(Nothing) else Finished
  }

  function ApplyDone(e: Entry, t: Tid, a: DoneAct): Entry
    requires DoneEnabled(e, t, a)
  {
    var (core, credit) := DoneCore(e.core, e.pcs[t], a);
    Goto(Commit(e, core, credit), t, DoneNext(e.core, e.pcs[t], a))
  }

  function ApplyEvict(k: Params, e: Entry, a: EvictAct): Entry
    requires EvictEnabled(k, e.core, a)
  {
    match a
    case EvictToSleep1 => Commit(e, e.core.(state := Sleep1), -1)
    case EvictToSleep2 => Commit(e, e.core.(state := Sleep2), 0)
    case EvictKill => Commit(e, Unload(e.core), 0)
  }

  function Apply(k: Params, e: Entry, a: Act): Entry
    requires Enabled(k, e, a)
  {
    match a
    case Client(t, act) => ApplyClient(k, e, t, act)
    case Loader(t, act) => ApplyLoader(k, e, t, act)
    case Drain(t, act) => ApplyDrain(e, t, act)
    case Tick(t, act) => ApplyTick(k, e, t, act)
    case Done(t, act) => ApplyDone(e, t, act)
    case Evict(act) => ApplyEvict(k, e, act)
  }

  /** A run: every step is enabled where it is taken. */
  predicate ValidRun(k: Params, e: Entry, acts: seq<Act>)
    decreases |acts|
  {
    acts == [] || (Enabled(k, e, acts[0]) && ValidRun(k, Apply(k, e, acts[0]), acts[1..]))
  }

  function Exec(k: Params, e: Entry, acts: seq<Act>): Entry
    requires ValidRun(k, e, acts)
    decreases |acts|
  {
    if acts == [] then e else Exec(k, Apply(k, e, acts[0]), acts[1..])
  }
}
