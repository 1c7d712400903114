/**
 The fleet as a state machine. Every roster host runs one agent whose tick is a sequence
 of small steps: a read of the shared epoch, a broker call, a write of the local record,
 the link of one marker. Any two steps of one agent may be separated by steps of other
 hosts, worker scopes, other root callers of the broker, the coordinator, or a crash.

 The coordinator is unconstrained: it links any decision with any content at any time and
 makes any generation live at will. A read of an epoch is not atomic over its files: it
 returns some markers the store holds, among them everything this host has read or posted
 before, and only a view that validates is ever returned.
 */
module Fleet {
  import opened Base
  import opened MarkerNames
  import opened Epoch
  import Broker

  /** `rollout-epoch.json`, the durable local record. */
  datatype Record = NoRecord | Held(epoch: string) | Released(epoch: string)

  datatype View = View(markers: Markers, live: string)

  /** What follows a marker post. */
  datatype After = AfterDrained(version: string) | AfterPhase(expected: string) | AfterResumed | AfterFailed

  datatype Fault = Conflict(phase: HostPhase) | WrongResume | OtherFault

  /** Where a tick stands, with the local variables it still uses. */
  datatype Pc =
    | Idle
    | Entered
    | Unreadable
    | Ordinary
    | Joining(epoch: string, view: View)
    | Active(epoch: string, view: View)
    | Secured(epoch: string, view: View)
    | Desired(epoch: string, view: View, version: string)
    | Reholding(epoch: string, view: View, version: string)
    | Reheld(epoch: string, view: View, version: string)
    | Closed(epoch: string, view: View, version: string, scopes: nat, gate: Broker.Gate)
    | DrainProved(epoch: string, version: string, facts: Facts)
    | Posting(epoch: string, view: View, marker: Marker, after: After)
    | Posted(epoch: string, marker: Marker, after: After)
    | Refreshing(epoch: string, after: After)
    | Deciding(epoch: string, view: View, version: string)
    | Installing(epoch: string, version: string)
    | Installed(epoch: string, version: string)
    | Rotating(epoch: string, view: View, expected: string, phase: HostPhase)
    | Turned(epoch: string, view: View, expected: string, phase: HostPhase, facts: Facts)
    | Resuming(epoch: string, view: View, expected: string)
    | Proved(epoch: string, view: View, expected: string)
    | Releasing(epoch: string, view: View, expected: string)
    | Opened(epoch: string, view: View, expected: string)
    | Recording(epoch: string, view: View, expected: string)
    | Announcing(epoch: string, view: View, expected: string)
    | Raised(epoch: string, fault: Fault)

  datatype Release = Release(epoch: string, generation: string)

  /**
   `loaded` is the record as the tick in progress loaded it, which it goes on using after
   it has written another. `loops` are the generations the host's admission processes run
   from. `under` is the
   release the agent last opened admission with, and `seen` the session floor of its reads;
   neither is stored by the program.
   */
  datatype Host = Host(
    record: Record, loaded: Record, gate: Broker.Gate, scopes: nat, loops: set<string>,
    under: Option<Release>, seen: map<string, Markers>, pc: Pc)

  datatype State = State(
    intents: map<string, Intent>, store: map<string, Markers>, live: string, hosts: map<string, Host>)

  datatype Event =
    | StartTick
    | ReadNone
    | ReadFails
    | Read(epoch: string, view: View, facts: Facts)
    | Persist
    | CleanUp
    | OpenDrain
    | PassReleased
    | Recover(active: bool)
    | ReadDesired
    | CheckGate(facts: Facts)
    | Evidence(parked: bool, facts: Facts)
    | Link
    | Decide(matching: bool)
    | Install(ok: bool)
    | Census(ok: bool, facts: Facts)
    | CloseDrain(healthy: bool)
    | Raise
    | Report(view: View, generation: string, facts: Facts)
    | GiveUp
    | Crash
    | Reboot(loops: set<string>)
    | ScopeStart
    | ScopeEnd
    | OtherCall(call: Broker.Call)
    | Respawn(loops: set<string>)

  datatype Label =
    | OfHost(id: string, event: Event)
    | PostDecision(epoch: string, decision: DecisionPhase, marker: Marker)
    | GoLive(generation: string)

  function Seen(h: Host, epoch: string): Markers {
    if epoch in h.seen then h.seen[epoch] else map[]
  }

  predicate Names(r: Record, epoch: string) {
    r == Held(epoch) || r == Released(epoch)
  }

  /** One validated read of an epoch by `h`. */
  ghost predicate Readable(s: State, h: Host, epoch: string, v: View) {
    && epoch in s.intents && epoch in s.store
    && Within(Seen(h, epoch), v.markers) && Within(v.markers, s.store[epoch])
    && v.live == s.live
    && ValidSnapshot(s.intents[epoch], v.markers, v.live)
  }

  /** `_post_epoch_marker` validates the value before anything else. */
  function Submit(h: Host, i: Intent, epoch: string, v: View, m: Marker, after: After): Host {
    if SlotOf(m).Some? && ValidMarker(SlotOf(m).value, m, i)
    then h.(pc := Posting(epoch, v, m, after))
    else h.(pc := Raised(epoch, OtherFault))
  }

  function Continue(h: Host, epoch: string, after: After): Host {
    if after.AfterResumed? || after.AfterFailed? then h.(pc := Idle) else h.(pc := Refreshing(epoch, after))
  }

  /** `open_drain` followed by the caller's look at the holder; `None` is somebody else's stop. */
  function OpenedDrain(h: Host): Option<Host> {
    match Broker.Begin(h.gate, Broker.AGENT)
    case None => None
    case Some(gate) => Some(h.(gate := gate))
  }

  datatype Choice = Wait | Advance(expected: string, phase: HostPhase)

  /** The decision table: resume first, then rollback, then activation. */
  function Choose(i: Intent, ms: Markers): Choice {
    if RESUME in ms then
      if ms[RESUME].direction == Some(Forward)
      then Advance(GenerationOf(i, Forward), Rotated)
      else Advance(GenerationOf(i, Backward), RolledBack)
    else if ROLLBACK in ms then
      if REVERTED in ms then Advance(i.source, RolledBack) else Wait
    else if ACTIVATED in ms then Advance(i.target, Rotated)
    else Wait
  }

  /** The store after one event of a host. */
  function Store(s: State, id: string, ev: Event): map<string, Markers>
    requires id in s.hosts
  {
    var pc := s.hosts[id].pc;
    if pc.Posting? && ev.Link? && pc.epoch in s.store && SlotOf(pc.marker).Some?
       && SlotOf(pc.marker).value !in pc.view.markers
    then s.store[pc.epoch := Linked(s.store[pc.epoch], SlotOf(pc.marker).value, pc.marker)]
    else s.store
  }

  /** The steps that are not the agent's, and the end of a tick at any point. */
  function Outside(h: Host, ev: Event): Option<Host> {
    match ev
    case Crash => Some(h.(pc := Idle))
    case Reboot(loops) => Some(h.(pc := Idle, gate := Broker.Boot(h.gate), scopes := 0, loops := loops))
    case ScopeStart => if h.gate.Open? then Some(h.(scopes := h.scopes + 1)) else None
    case ScopeEnd => if h.scopes > 0 then Some(h.(scopes := h.scopes - 1)) else None
    case OtherCall(call) =>
      if call.owner != Broker.AGENT then Some(h.(gate := Broker.Serve(h.gate, call))) else None
    case Respawn(loops) => Some(h.(loops := loops))
    case _ => None
  }

  /** A read at the point the tick has reached, `h` already knowing the view. */
  ghost function AfterRead(h: Host, id: string, i: Intent, epoch: string, v: View, facts: Facts): Option<Host> {
    match h.pc
    case Entered =>
      if h.record.NoRecord? then
        if TERMINAL in v.markers then None else Some(h.(pc := Joining(epoch, v)))
      else if Names(h.record, epoch) then Some(h.(loaded := h.record, pc := Active(epoch, v)))
      else None
    case DrainProved(e, version, stamped) =>
      if e != epoch then None
      else if v.live != i.source then Some(h.(pc := Idle))
      else Some(Submit(h, i, epoch, v, HostMarker(i, id, Drained, i.source, stamped), AfterDrained(version)))
    case Posted(e, m, after) =>
      if e != epoch || SlotOf(m).None? || !m.phase.OfHost? then None
      else
        var slot := SlotOf(m).value;
        if slot !in v.markers then Some(h.(pc := Raised(epoch, OtherFault)))
        else if !SameIdentity(v.markers[slot], m) then Some(h.(pc := Raised(epoch, Conflict(m.phase.host))))
        else Some(Continue(h, epoch, after))
    case Refreshing(e, AfterDrained(version)) =>
      if e != epoch then None else Some(h.(pc := Deciding(epoch, v, version)))
    case Refreshing(e, AfterPhase(expected)) =>
      if e != epoch then None
      else if RESUME !in v.markers then Some(h.(pc := Idle))
      else if v.markers[RESUME].generation != Some(expected) then Some(h.(pc := Raised(epoch, WrongResume)))
      else Some(h.(pc := Resuming(epoch, v, expected)))
    case Installed(e, version) =>
      if e != epoch then None else Some(h.(pc := Desired(epoch, v, version)))
    case Turned(e, _, expected, phase, stamped) =>
      if e != epoch then None
      else if v.live != expected then Some(h.(pc := Idle))
      else Some(Submit(h, i, epoch, v, HostMarker(i, id, phase, expected, stamped), AfterPhase(expected)))
    case Proved(e, _, expected) =>
      if e != epoch then None
      else if v.live != expected then Some(h.(pc := Idle))
      else Some(h.(pc := Releasing(epoch, v, expected)))
    case Announcing(e, _, expected) =>
      if e != epoch then None
      else Some(Submit(h, i, epoch, v, HostMarker(i, id, Resumed, expected, facts), AfterResumed))
    case _ => None
  }

  /** Writes of the local record. */
  function Persisted(h: Host): Option<Host> {
    match h.pc
    case Joining(e, v) => Some(h.(record := Held(e), loaded := Held(e), pc := Active(e, v)))
    case Reholding(e, v, version) => Some(h.(record := Held(e), pc := Reheld(e, v, version)))
    case Recording(e, v, expected) => Some(h.(record := Released(e), pc := Announcing(e, v, expected)))
    case _ => None
  }

  /** The calls of `open_drain`, each with what its caller does next. */
  function DrainOpened(s: State, h: Host, id: string): Option<Host> {
    var begun := OpenedDrain(h);
    match h.pc
    // An unreadable epoch closes the gate and never opens it.
    case Unreadable => Some((if begun.Some? then begun.value else h).(pc := Idle))
    // Without an epoch, ordinary convergence opens and closes its own drain.
    case Ordinary => Some(if begun.Some? then begun.value else h.(pc := Idle))
    case Active(e, v) =>
      if h.loaded != Held(e) then None
      else Some(if begun.Some? then begun.value.(pc := Secured(e, v)) else h.(pc := Idle))
    case Desired(e, v, version) =>
      if h.loaded != Held(e) || e !in s.intents then None
      else if id !in s.intents[e].roster then Some(h.(pc := Raised(e, OtherFault)))
      else Some(if begun.Some? then begun.value.(pc := Closed(e, v, version, h.scopes, begun.value.gate)) else h.(pc := Idle))
    case Reheld(e, v, version) =>
      Some(if begun.Some? then begun.value.(pc := Closed(e, v, version, h.scopes, begun.value.gate)) else h.(pc := Idle))
    case _ => None
  }

  /** The calls of `close_drain` while an epoch may be in force: ordinary work, and the release. */
  function DrainClosed(h: Host, healthy: bool): Option<Host> {
    var ended := Broker.End(h.gate, Broker.AGENT);
    match h.pc
    case Ordinary =>
      Some(if healthy && ended.Some? then h.(gate := ended.value, under := None) else h.(pc := Idle))
    case Releasing(e, v, expected) =>
      Some(if healthy && ended.Some?
           then h.(gate := ended.value, under := Some(Release(e, expected)), pc := Opened(e, v, expected))
           else h.(pc := Raised(e, OtherFault)))
    case _ => None
  }

  /** The released branch of `_rollout_status`, and the gate check after a release. */
  function GateChecked(s: State, h: Host, id: string, facts: Facts): Option<Host> {
    match h.pc
    case Desired(e, v, version) =>
      if h.loaded != Released(e) || e !in s.intents then None
      else
        var i := s.intents[e];
        if id !in i.roster then Some(h.(pc := Raised(e, OtherFault)))
        else if TERMINAL in v.markers then Some(h.(record := NoRecord, pc := Idle))
        else if h.gate.Draining? then Some(h.(pc := Reholding(e, v, version)))
        else if RESUME in v.markers && v.markers[RESUME].generation == Some(v.live)
        then Some(Submit(h, i, e, v, HostMarker(i, id, Resumed, v.live, facts), AfterResumed))
        else Some(h.(pc := Raised(e, OtherFault)))
    case Opened(e, v, expected) =>
      Some(h.(pc := if h.gate.Open? then Recording(e, v, expected) else Raised(e, OtherFault)))
    case _ => None
  }

  /** Drain evidence: the status reply's scope count and the parked census. */
  function DrainEvidence(s: State, h: Host, id: string, parked: bool, facts: Facts): Option<Host> {
    match h.pc
    case Closed(e, v, version, scopes, _) =>
      if e !in s.intents then None
      else if !parked || scopes != 0 then Some(h.(pc := Idle))
      else if HostSlot(id, Drained) !in v.markers then Some(h.(pc := DrainProved(e, version, facts)))
      else
        var i := s.intents[e];
        Some(Submit(h, i, e, v, HostMarker(i, id, Drained, i.source, facts), AfterDrained(version)))
    case _ => None
  }

  /** The link of one marker; `store` already holds what stands under its name. */
  function LinkMade(h: Host, store: map<string, Markers>): Option<Host> {
    match h.pc
    case Posting(e, v, m, after) =>
      if SlotOf(m).None? || !m.phase.OfHost? || e !in store then None
      else
        var slot := SlotOf(m).value;
        if slot in v.markers then
          Some(if SameIdentity(v.markers[slot], m) then Continue(h, e, after)
               else h.(pc := Raised(e, Conflict(m.phase.host))))
        else if slot !in store[e] then None
        else
          // Whether it was created or already there, a later read returns it.
          Some(h.(pc := Posted(e, m, after), seen := h.seen[e := Seen(h, e)[slot := store[e][slot]]]))
    case _ => None
  }

  function Decided(s: State, h: Host, matching: bool): Option<Host> {
    match h.pc
    case Deciding(e, v, version) =>
      if e !in s.intents then None
      else
        var i := s.intents[e];
        (match Choose(i, v.markers)
         case Wait => Some(h.(pc := Idle))
         case Advance(expected, phase) =>
           if version != i.source && version != i.target then Some(h.(pc := Raised(e, OtherFault)))
           else if v.live != expected || version != expected then Some(h.(pc := Idle))
           else if !matching then Some(h.(pc := Installing(e, version)))
           else Some(h.(pc := Rotating(e, v, expected, phase))))
    case _ => None
  }

  /** The verified client transaction inside an epoch: it opens the drain and never closes it. */
  function InstallDone(h: Host, ok: bool): Option<Host> {
    var begun := OpenedDrain(h);
    match h.pc
    case Installing(e, version) =>
      Some(if begun.None? || h.scopes != 0 then (if begun.Some? then begun.value else h).(pc := Idle)
           else begun.value.(pc := if ok then Installed(e, version) else Raised(e, OtherFault)))
    case _ => None
  }

  /** Journal recovery inside an epoch keeps the drain and is reported as a failure. */
  function JournalRecovered(h: Host, active: bool): Option<Host> {
    var begun := OpenedDrain(h);
    match h.pc
    case Secured(e, v) =>
      Some((if active && begun.Some? then begun.value else h).(pc := Raised(e, OtherFault)))
    case _ => None
  }

  function CensusTaken(h: Host, ok: bool, facts: Facts): Option<Host> {
    match h.pc
    case Rotating(e, v, expected, phase) =>
      if !ok then Some(h.(pc := Idle))
      // The status reply of this proof is the one that opened the drain, so scopes are not counted again.
      else if LoopsShown(h, expected) then Some(h.(pc := Turned(e, v, expected, phase, facts)))
      else None
    case Resuming(e, v, expected) =>
      if !ok then Some(h.(pc := Idle))
      else if RotationShown(h, expected) then Some(h.(pc := Proved(e, v, expected)))
      else None
    case _ => None
  }

  /** The removal of a finished epoch's record. */
  function CleanedUp(h: Host): Option<Host> {
    match h.pc
    case Active(e, v) =>
      if h.loaded == Released(e) && TERMINAL in v.markers
      then Some(h.(record := NoRecord, pc := Idle)) else None
    case _ => None
  }

  /** Steps that touch nothing but the tick itself. */
  function MovedOn(s: State, h: Host, ev: Event): Option<Host> {
    match ev
    case StartTick => if h.pc.Idle? then Some(h.(pc := Entered)) else None
    case ReadFails => if h.pc.Entered? then Some(h.(pc := Unreadable)) else None
    case ReadNone => if h.pc.Entered? && h.record.NoRecord? then Some(h.(pc := Ordinary)) else None
    case PassReleased =>
      if h.pc.Active? && h.loaded == Released(h.pc.epoch) && TERMINAL !in h.pc.view.markers
      then Some(h.(pc := Secured(h.pc.epoch, h.pc.view))) else None
    case ReadDesired =>
      if h.pc.Secured? then Some(h.(pc := Desired(h.pc.epoch, h.pc.view, s.live))) else None
    // Any step inside an epoch may raise; the handler then posts `failed` if it can.
    case Raise =>
      if h.pc.Joining? then Some(h.(pc := Unreadable))
      else if InEpoch(h.pc) then Some(h.(pc := Raised(h.pc.epoch, OtherFault)))
      else None
    case GiveUp => if h.pc.Ordinary? || h.pc.Raised? then Some(h.(pc := Idle)) else None
    case _ => None
  }

  /** The agent's own steps other than reads. */
  function Agent(s: State, h: Host, id: string, ev: Event, store: map<string, Markers>): Option<Host> {
    match ev
    case Persist => Persisted(h)
    case CleanUp => CleanedUp(h)
    case OpenDrain => DrainOpened(s, h, id)
    case CloseDrain(healthy) => DrainClosed(h, healthy)
    case Recover(active) => JournalRecovered(h, active)
    case Install(ok) => InstallDone(h, ok)
    case CheckGate(facts) => GateChecked(s, h, id, facts)
    case Evidence(parked, facts) => DrainEvidence(s, h, id, parked, facts)
    case Link => LinkMade(h, store)
    case Decide(matching) => Decided(s, h, matching)
    case Census(ok, facts) => CensusTaken(h, ok, facts)
    case _ => MovedOn(s, h, ev)
  }

  predicate InEpoch(pc: Pc) {
    !(pc.Idle? || pc.Entered? || pc.Unreadable? || pc.Ordinary? || pc.Joining? || pc.Raised?)
  }

  /** The gate is closed and every admission process is on `expected`. */
  predicate LoopsShown(h: Host, expected: string) {
    h.gate.Draining? && h.loops == {expected}
  }

  /** Rotation evidence with a fresh status reply: nothing runs, either. */
  predicate RotationShown(h: Host, expected: string) {
    LoopsShown(h, expected) && h.scopes == 0
  }

  /** One event of host `id`; `None` when the event cannot happen there. */
  ghost function HostStep(s: State, id: string, ev: Event): Option<Host>
    requires id in s.hosts
  {
    var h := s.hosts[id];
    if Outside(h, ev).Some? then Outside(h, ev)
    else match ev
      case Read(epoch, v, facts) =>
        if Readable(s, h, epoch, v)
        then AfterRead(h.(seen := h.seen[epoch := v.markers]), id, s.intents[epoch], epoch, v, facts)
        else None
      case Report(v, generation, facts) =>
        if h.pc.Raised? && Readable(s, h, h.pc.epoch, v)
        then Some(Submit(h.(seen := h.seen[h.pc.epoch := v.markers]), s.intents[h.pc.epoch], h.pc.epoch, v,
                         HostMarker(s.intents[h.pc.epoch], id, Failed, generation, facts), AfterFailed))
        else None
      case _ => Agent(s, h, id, ev, Store(s, id, ev))
  }

  ghost predicate Step(s: State, l: Label, s': State) {
    match l
    case OfHost(id, ev) =>
      && id in s.hosts
      && HostStep(s, id, ev).Some?
      && s' == s.(hosts := s.hosts[id := HostStep(s, id, ev).value], store := Store(s, id, ev))
    case PostDecision(epoch, d, m) =>
      && epoch in s.store
      && s' == s.(store := s.store[epoch := Linked(s.store[epoch], DecisionSlot(d), m)])
    case GoLive(generation) =>
      s' == s.(live := generation)
  }

  /** Before any epoch is joined; decisions may already have been posted by anybody. */
  ghost predicate Init(s: State) {
    && s.store.Keys == s.intents.Keys
    && (forall e, slot :: e in s.store && slot in s.store[e] ==> slot.DecisionSlot?)
    && (forall id :: id in s.hosts ==>
          s.hosts[id].record.NoRecord? && s.hosts[id].pc.Idle? && s.hosts[id].under.None? && s.hosts[id].seen == map[])
  }

  datatype Run = Run(states: seq<State>, labels: seq<Label>)

  ghost predicate IsRun(r: Run) {
    && |r.states| == |r.labels| + 1
    && Init(r.states[0])
    && forall n :: 0 <= n < |r.labels| ==> Step(r.states[n], r.labels[n], r.states[n + 1])
  }

  /** The agent of `id` proves its drain in `e`, for the first time, over an unattributed one it took for its own. */
  predicate Unclaimed(s: State, l: Label, id: string, e: string) {
    && l.OfHost? && l.id == id && id in s.hosts && e in s.store && HostSlot(id, Drained) !in s.store[e]
    && ProvesUnclaimed(s.hosts[id], l.event, e)
  }

  predicate ProvesUnclaimed(h: Host, ev: Event, e: string) {
    && ev.Evidence? && ev.parked
    && h.pc.Closed? && h.pc.epoch == e && h.pc.scopes == 0 && h.pc.gate == Broker.Draining(Broker.UNOWNED)
  }

  /** Up to state `n`, it never did. */
  ghost predicate Claimed(r: Run, n: nat, id: string, e: string)
    requires n < |r.states| == |r.labels| + 1
  {
    forall k :: 0 <= k < n ==> !Unclaimed(r.states[k], r.labels[k], id, e)
  }
}
