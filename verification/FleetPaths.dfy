/**
 How to exhibit reachable states: single steps, and whole stretches of a tick, of one host
 in a fleet whose other hosts stand still.
 */
module FleetPaths {
  import opened Base
  import opened MarkerNames
  import opened Epoch
  import opened Fleet
  import Broker

  ghost predicate Reachable(s: State) {
    exists r: Run :: IsRun(r) && r.states[|r.states| - 1] == s
  }

  lemma InitReachable(s: State)
    requires Init(s)
    ensures Reachable(s)
  {
    var r := Run([s], []);
    assert IsRun(r) && r.states[|r.states| - 1] == s;
  }

  lemma Extend(s: State, l: Label, s': State)
    requires Reachable(s) && Step(s, l, s')
    ensures Reachable(s')
  {
    hide Step; hide Init;
    var r: Run :| IsRun(r) && r.states[|r.states| - 1] == s;
    var t := Run(r.states + [s'], r.labels + [l]);
    forall n | 0 <= n < |t.labels| ensures Step(t.states[n], t.labels[n], t.states[n + 1]) {
      if n < |r.labels| {
        assert Step(r.states[n], r.labels[n], r.states[n + 1]);
      }
    }
    assert IsRun(t) && t.states[|t.states| - 1] == s';
  }

  /** One epoch, one host to look at, and the rest of the fleet. */
  datatype Frame = Frame(i: Intent, id: string, rest: map<string, Host>)

  function At(f: Frame, ms: Markers, live: string, h: Host): State {
    State(map[f.i.epoch := f.i], map[f.i.epoch := ms], live, f.rest[f.id := h])
  }

  ghost predicate ReachableAt(f: Frame, ms: Markers, live: string, h: Host) {
    Reachable(At(f, ms, live, h))
  }

  // ---- Single steps ------------------------------------------------------------------------

  lemma HostSteps(f: Frame, ms: Markers, live: string, h: Host, ev: Event, h': Host)
    requires ReachableAt(f, ms, live, h)
    requires HostStep(At(f, ms, live, h), f.id, ev) == Some(h')
    requires !(h.pc.Posting? && ev.Link?)
    ensures ReachableAt(f, ms, live, h')
  {
    hide HostStep; hide Reachable;
    var s := At(f, ms, live, h);
    assert s.hosts[f.id := h'] == f.rest[f.id := h'];
    Extend(s, Label.OfHost(f.id, ev), At(f, ms, live, h'));
  }

  /** A step of the agent that neither reads nor links. */
  lemma AgentSteps(f: Frame, ms: Markers, live: string, h: Host, ev: Event, h': Host)
    requires ReachableAt(f, ms, live, h)
    requires Agent(At(f, ms, live, h), h, f.id, ev, map[f.i.epoch := ms]) == Some(h')
    requires Outside(h, ev).None? && !ev.Link? && !ev.Read? && !ev.Report?
    ensures ReachableAt(f, ms, live, h')
  {
    hide ReachableAt; hide Agent; hide Outside;
    HostSteps(f, ms, live, h, ev, h');
  }

  lemma OutsideSteps(f: Frame, ms: Markers, live: string, h: Host, ev: Event)
    requires ReachableAt(f, ms, live, h) && Outside(h, ev).Some?
    ensures ReachableAt(f, ms, live, Outside(h, ev).value)
  {
    hide ReachableAt; hide Agent; hide AfterRead;
    HostSteps(f, ms, live, h, ev, Outside(h, ev).value);
  }

  lemma Crashes(f: Frame, ms: Markers, live: string, h: Host)
    requires ReachableAt(f, ms, live, h)
    ensures ReachableAt(f, ms, live, h.(pc := Idle))
  {
    hide ReachableAt;
    OutsideSteps(f, ms, live, h, Crash);
  }

  /** A view `h` can read. */
  ghost predicate Offers(i: Intent, ms: Markers, live: string, h: Host, v: View) {
    && Within(Seen(h, i.epoch), v.markers) && Within(v.markers, ms) && v.live == live
    && ValidSnapshot(i, v.markers, live)
  }

  lemma Reads(f: Frame, ms: Markers, live: string, h: Host, v: View, facts: Facts, h': Host)
    requires ReachableAt(f, ms, live, h) && Offers(f.i, ms, live, h, v)
    requires AfterRead(h.(seen := h.seen[f.i.epoch := v.markers]), f.id, f.i, f.i.epoch, v, facts) == Some(h')
    ensures ReachableAt(f, ms, live, h')
  {
    hide ReachableAt; hide AfterRead; hide ValidSnapshot; hide Within;
    HostSteps(f, ms, live, h, Read(f.i.epoch, v, facts), h');
  }

  lemma Links(f: Frame, ms: Markers, live: string, h: Host, slot: Slot, h': Host)
    requires ReachableAt(f, ms, live, h)
    requires h.pc.Posting? && h.pc.epoch == f.i.epoch && SlotOf(h.pc.marker) == Some(slot) && slot.HostSlot?
    requires slot !in h.pc.view.markers && slot !in ms
    requires h' == h.(pc := Posted(f.i.epoch, h.pc.marker, h.pc.after),
                      seen := h.seen[f.i.epoch := Seen(h, f.i.epoch)[slot := h.pc.marker]])
    ensures ReachableAt(f, ms[slot := h.pc.marker], live, h')
  {
    hide Reachable; hide AfterRead; hide Readable; hide Seen;
    hide DrainOpened; hide DrainClosed; hide GateChecked; hide DrainEvidence; hide InstallDone; hide JournalRecovered;
    hide CleanedUp; hide Persisted; hide MovedOn; hide CensusTaken; hide Decided;
    var s := At(f, ms, live, h);
    assert s.store[f.i.epoch := ms[slot := h.pc.marker]] == map[f.i.epoch := ms[slot := h.pc.marker]];
    assert s.hosts[f.id := h'] == f.rest[f.id := h'];
    Extend(s, Label.OfHost(f.id, Link), At(f, ms[slot := h.pc.marker], live, h'));
  }

  /** A repost of a marker the view already holds. */
  lemma Relinks(f: Frame, ms: Markers, live: string, h: Host, h': Host)
    requires ReachableAt(f, ms, live, h)
    requires h.pc.Posting? && h.pc.epoch == f.i.epoch && h.pc.marker.phase.OfHost? && SlotOf(h.pc.marker).Some?
    requires SlotOf(h.pc.marker).value in h.pc.view.markers
    requires SameIdentity(h.pc.view.markers[SlotOf(h.pc.marker).value], h.pc.marker)
    requires h' == Continue(h, f.i.epoch, h.pc.after)
    ensures ReachableAt(f, ms, live, h')
  {
    hide Reachable; hide AfterRead; hide Readable; hide SlotOf; hide SameIdentity;
    hide DrainOpened; hide DrainClosed; hide GateChecked; hide DrainEvidence; hide InstallDone; hide JournalRecovered;
    hide CleanedUp; hide Persisted; hide MovedOn; hide CensusTaken; hide Decided;
    var s := At(f, ms, live, h);
    assert s.hosts[f.id := h'] == f.rest[f.id := h'];
    Extend(s, Label.OfHost(f.id, Link), At(f, ms, live, h'));
  }

  lemma Decides(f: Frame, ms: Markers, live: string, h: Host, d: DecisionPhase, m: Marker)
    requires ReachableAt(f, ms, live, h) && DecisionSlot(d) !in ms
    ensures ReachableAt(f, ms[DecisionSlot(d) := m], live, h)
  {
    hide Reachable;
    var s, after := At(f, ms, live, h), ms[DecisionSlot(d) := m];
    assert s.store[f.i.epoch := after] == map[f.i.epoch := after];
    Extend(s, PostDecision(f.i.epoch, d, m), At(f, after, live, h));
  }

  lemma GoesLive(f: Frame, ms: Markers, live: string, h: Host, generation: string)
    requires ReachableAt(f, ms, live, h)
    ensures ReachableAt(f, ms, generation, h)
  {
    hide Reachable;
    Extend(At(f, ms, live, h), GoLive(generation), At(f, ms, generation, h));
  }

  // ---- Markers and epochs --------------------------------------------------------------------

  /** Facts that satisfy every phase's demands. */
  function Facts0(i: Intent): Facts {
    Facts(Some(1.0), Some(0), Some(1), Some(1.0), i.agentSha, None, None, None, None, None, "")
  }

  function Marker0(i: Intent, id: string, phase: HostPhase): Marker {
    HostMarker(i, id, phase, if phase.Drained? then i.source else i.target, Facts0(i))
  }

  /** A forward decision that observed every host in `phase`. */
  function Decision0(i: Intent, d: DecisionPhase, outcome: Option<Outcome>, phase: HostPhase): Marker {
    Marker(MARKER_SCHEMA, i.epoch, OfIntent(i), OfDecision(d), None, Some(i.target), Some(Forward), outcome,
           Facts(None, None, None, None, None, None, Some(1.0), Some("coordinator"), None,
                 Some(map id | id in i.roster :: OfMarker(Marker0(i, id, phase))), ""))
  }

  lemma HostMarkerValid(i: Intent, id: string, phase: HostPhase)
    requires ValidIntent(i) && id in i.roster && (phase.Drained? || phase.Rotated? || phase.Resumed?)
    ensures ValidMarker(HostSlot(id, phase), Marker0(i, id, phase), i)
  {
    hide ValidIntent;
  }

  lemma DecisionValid(i: Intent, d: DecisionPhase, outcome: Option<Outcome>, phase: HostPhase)
    requires ValidIntent(i) && (d.Activated? || d.Resume? || (d.Terminal? && outcome == Some(Completed)))
    ensures ValidMarker(DecisionSlot(d), Decision0(i, d, outcome, phase), i)
  {
    hide ValidIntent; hide Marker0;
    assert NonBlank(Some("coordinator")) by { assert !Space("coordinator"[0]); }
    hide NonBlank;
    var seen := Decision0(i, d, outcome, phase).facts.observed.value;
    assert seen.Keys == set k | 0 <= k < |i.roster| :: i.roster[k];
  }

  /** Every roster host has posted `phase` as these runs post it. */
  ghost predicate AllPosted(i: Intent, ms: Markers, phase: HostPhase) {
    forall id :: id in i.roster ==> HostSlot(id, phase) in ms && ms[HostSlot(id, phase)] == Marker0(i, id, phase)
  }

  lemma SawAll(i: Intent, ms: Markers, d: DecisionPhase, outcome: Option<Outcome>, phase: HostPhase)
    requires AllPosted(i, ms, phase)
    ensures Saw(Decision0(i, d, outcome, phase), ms, i.roster, phase)
  {
    hide Marker0;
  }

  lemma SawsGrow(i: Intent, ms: Markers, after: Markers)
    requires Within(ms, after)
    ensures forall d: DecisionPhase, phase: HostPhase ::
              DecisionSlot(d) in ms && Saw(ms[DecisionSlot(d)], ms, i.roster, phase) ==>
              Saw(ms[DecisionSlot(d)], after, i.roster, phase)
  {
    forall d: DecisionPhase, phase: HostPhase | DecisionSlot(d) in ms && Saw(ms[DecisionSlot(d)], ms, i.roster, phase)
      ensures Saw(ms[DecisionSlot(d)], after, i.roster, phase)
    {
      SawGrows(ms[DecisionSlot(d)], ms, after, i.roster, phase);
    }
  }

  /** What a forward decision stands on. */
  ghost predicate Founded(ms: Markers, d: DecisionPhase, phase: HostPhase) {
    || (d.Activated? && phase.Drained?)
    || (d.Resume? && phase.Rotated? && ACTIVATED in ms && ROLLBACK !in ms && TERMINAL !in ms
        && forall id :: HostSlot(id, Resumed) !in ms)
    || (d.Terminal? && phase.Resumed? && RESUME in ms && ms[RESUME].direction == Some(Forward))
  }

  lemma AddsCoherent(i: Intent, ms: Markers, live: string, d: DecisionPhase, phase: HostPhase, m: Marker)
    requires Coherent(i, ms, live) && DecisionSlot(d) !in ms && Founded(ms, d, phase) && m.direction == Some(Forward)
    requires Saw(m, ms[DecisionSlot(d) := m], i.roster, phase)
    ensures Coherent(i, ms[DecisionSlot(d) := m], live)
  {
    var after := ms[DecisionSlot(d) := m];
    assert Within(ms, after);
    SawsGrow(i, ms, after);
    hide Saw; hide Within;
  }

  /** A forward decision may be added when what it stands on is there. */
  lemma AddDecision(i: Intent, ms: Markers, live: string, d: DecisionPhase, outcome: Option<Outcome>, phase: HostPhase)
    requires ValidSnapshot(i, ms, live) && DecisionSlot(d) !in ms && AllPosted(i, ms, phase) && Founded(ms, d, phase)
    requires d.Terminal? ==> outcome == Some(Completed)
    ensures ValidSnapshot(i, ms[DecisionSlot(d) := Decision0(i, d, outcome, phase)], live)
  {
    hide ValidMarker; hide ValidIntent; hide Saw; hide Coherent; hide Marker0;
    var m := Decision0(i, d, outcome, phase);
    DecisionValid(i, d, outcome, phase);
    SawAll(i, ms[DecisionSlot(d) := m], d, outcome, phase);
    AddsCoherent(i, ms, live, d, phase, m);
  }

  /** A host marker may be added as long as it does not resume. */
  lemma AddHost(i: Intent, ms: Markers, live: string, id: string, phase: HostPhase)
    requires ValidSnapshot(i, ms, live) && id in i.roster && HostSlot(id, phase) !in ms
    requires phase.Drained? || phase.Rotated?
             || (phase.Resumed? && RESUME in ms && ms[RESUME].generation == Some(i.target))
    ensures ValidSnapshot(i, ms[HostSlot(id, phase) := Marker0(i, id, phase)], live)
  {
    HostMarkerValid(i, id, phase);
    hide ValidSnapshot; hide ValidMarker;
    PostKeepsValid(i, ms, live, ms, HostSlot(id, phase), Marker0(i, id, phase));
  }

  lemma MoveLive(i: Intent, ms: Markers, live: string, live': string)
    requires ValidSnapshot(i, ms, live) && (live' == i.source || live' == i.target || TERMINAL in ms)
    ensures ValidSnapshot(i, ms, live')
  {
    hide ValidMarker; hide ValidIntent; hide Saw;
  }

  lemma EmptyEpochValid(i: Intent)
    requires ValidIntent(i)
    ensures ValidSnapshot(i, map[], i.source)
  {
  }

  // ---- Stretches of a tick ---------------------------------------------------------------------

  /** What a read leaves behind. */
  function Knowing(h: Host, e: string, ms: Markers): Host {
    h.(seen := h.seen[e := ms])
  }

  /** The host in the middle of a tick that loaded record `loaded`. */
  function Ticking(h: Host, e: string, ms: Markers, loaded: Record, pc: Pc): Host {
    Knowing(h, e, ms).(loaded := loaded, pc := pc)
  }

  lemma EntersActive(f: Frame, ms: Markers, live: string, h: Host, v: View)
    requires ReachableAt(f, ms, live, h) && Offers(f.i, ms, live, h, v)
    requires h.pc.Idle? && Names(h.record, f.i.epoch)
    ensures ReachableAt(f, ms, live, Ticking(h, f.i.epoch, v.markers, h.record, Active(f.i.epoch, v)))
  {
    hide ReachableAt; hide ValidSnapshot; hide Within;
    var h1 := h.(pc := Entered);
    AgentSteps(f, ms, live, h, StartTick, h1);
    Reads(f, ms, live, h1, v, Facts0(f.i), Ticking(h, f.i.epoch, v.markers, h.record, Active(f.i.epoch, v)));
  }

  /** A first tick that persists the epoch and then dies. */
  lemma JoinsAndCrashes(f: Frame, ms: Markers, live: string, h: Host, v: View)
    requires ReachableAt(f, ms, live, h) && Offers(f.i, ms, live, h, v)
    requires h.pc.Idle? && h.record.NoRecord? && TERMINAL !in v.markers
    ensures ReachableAt(f, ms, live, Ticking(h, f.i.epoch, v.markers, Held(f.i.epoch), Idle).(record := Held(f.i.epoch)))
  {
    hide ReachableAt; hide ValidSnapshot; hide Within;
    var e := f.i.epoch;
    var h1 := h.(pc := Entered);
    AgentSteps(f, ms, live, h, StartTick, h1);
    var h2 := Knowing(h, e, v.markers).(pc := Joining(e, v));
    Reads(f, ms, live, h1, v, Facts0(f.i), h2);
    var h3 := h2.(record := Held(e), loaded := Held(e), pc := Active(e, v));
    AgentSteps(f, ms, live, h2, Persist, h3);
    Crashes(f, ms, live, h3);
  }

  /** A drain the agent goes along with. */
  predicate Holding(h: Host) {
    h.gate.Draining? && !Broker.HeldElsewhere(h.gate)
  }

  /** A held host's tick as far as the second `open_drain`, over a drain it does not have to open. */
  lemma TicksToClosed(f: Frame, ms: Markers, live: string, h: Host, v: View)
    requires ReachableAt(f, ms, live, h) && Offers(f.i, ms, live, h, v)
    requires h.pc.Idle? && h.record == Held(f.i.epoch) && f.id in f.i.roster && Holding(h)
    ensures ReachableAt(f, ms, live, Ticking(h, f.i.epoch, v.markers, h.record, Closed(f.i.epoch, v, live, h.scopes, h.gate)))
  {
    hide ReachableAt; hide ValidSnapshot; hide Within;
    hide DrainClosed; hide GateChecked; hide DrainEvidence; hide LinkMade; hide Decided; hide CensusTaken;
    hide Persisted; hide CleanedUp;
    var e := f.i.epoch;
    EntersActive(f, ms, live, h, v);
    var h2 := Ticking(h, e, v.markers, h.record, Active(e, v));
    var h3 := h2.(pc := Secured(e, v));
    AgentSteps(f, ms, live, h2, OpenDrain, h3);
    var h4 := h3.(pc := Desired(e, v, live));
    AgentSteps(f, ms, live, h3, ReadDesired, h4);
    AgentSteps(f, ms, live, h4, OpenDrain, h4.(pc := Closed(e, v, live, h.scopes, h.gate)));
  }

  /** A marker that is linked, after which the tick dies. */
  lemma LinksAndCrashes(f: Frame, ms: Markers, live: string, h: Host, slot: Slot)
    requires ReachableAt(f, ms, live, h)
    requires h.pc.Posting? && h.pc.epoch == f.i.epoch && SlotOf(h.pc.marker) == Some(slot) && slot.HostSlot?
    requires slot !in h.pc.view.markers && slot !in ms && Seen(h, f.i.epoch) == h.pc.view.markers
    ensures ReachableAt(f, ms[slot := h.pc.marker], live,
                        Knowing(h, f.i.epoch, h.pc.view.markers[slot := h.pc.marker]).(pc := Idle))
  {
    hide ReachableAt;
    var h1 := Knowing(h, f.i.epoch, h.pc.view.markers[slot := h.pc.marker]).(pc := Posted(f.i.epoch, h.pc.marker, h.pc.after));
    Links(f, ms, live, h, slot, h1);
    Crashes(f, ms[slot := h.pc.marker], live, h1);
  }

  /** A drain proof that is linked, after which the tick dies. */
  lemma ProvesDrainAndCrashes(f: Frame, ms: Markers, h: Host, v: View)
    requires ReachableAt(f, ms, f.i.source, h) && Offers(f.i, ms, f.i.source, h, v)
    requires h.pc == Closed(f.i.epoch, v, f.i.source, 0, h.gate) && HostSlot(f.id, Drained) !in ms
    requires ValidMarker(HostSlot(f.id, Drained), Marker0(f.i, f.id, Drained), f.i)
    ensures var m := Marker0(f.i, f.id, Drained);
            ReachableAt(f, ms[HostSlot(f.id, Drained) := m], f.i.source,
                        Knowing(h, f.i.epoch, v.markers[HostSlot(f.id, Drained) := m]).(pc := Idle))
  {
    hide ReachableAt; hide ValidSnapshot; hide ValidMarker;
    hide DrainOpened; hide DrainClosed; hide GateChecked; hide LinkMade; hide InstallDone; hide JournalRecovered;
    hide CleanedUp; hide Persisted; hide MovedOn; hide CensusTaken; hide Decided;
    var i, e, m, slot := f.i, f.i.epoch, Marker0(f.i, f.id, Drained), HostSlot(f.id, Drained);
    assert slot !in v.markers;
    hide Within;
    var h1 := h.(pc := DrainProved(e, i.source, Facts0(i)));
    AgentSteps(f, ms, i.source, h, Evidence(true, Facts0(i)), h1);
    var h2 := Knowing(h1, e, v.markers).(pc := Posting(e, v, m, AfterDrained(i.source)));
    Reads(f, ms, i.source, h1, v, Facts0(i), h2);
    LinksAndCrashes(f, ms, i.source, h2, slot);
    assert Knowing(h2, e, v.markers[slot := m]).(pc := Idle) == Knowing(h, e, v.markers[slot := m]).(pc := Idle);
  }

  /** A tick that finds its drain already proved goes on to decide. */
  lemma ClosedToDeciding(f: Frame, ms: Markers, live: string, h: Host, v: View)
    requires ReachableAt(f, ms, live, h) && Offers(f.i, ms, live, h, v) && Seen(h, f.i.epoch) == v.markers
    requires h.pc == Closed(f.i.epoch, v, live, 0, h.gate)
    requires HostSlot(f.id, Drained) in v.markers && v.markers[HostSlot(f.id, Drained)] == Marker0(f.i, f.id, Drained)
    ensures ReachableAt(f, ms, live, Knowing(h, f.i.epoch, v.markers).(pc := Deciding(f.i.epoch, v, live)))
  {
    hide ReachableAt; hide ValidIntent; hide ValidHostMarker; hide Within;
    hide DrainOpened; hide DrainClosed; hide GateChecked; hide LinkMade; hide InstallDone; hide JournalRecovered;
    hide CleanedUp; hide Persisted; hide MovedOn; hide CensusTaken; hide Decided;
    var i, e, m := f.i, f.i.epoch, Marker0(f.i, f.id, Drained);
    assert ValidMarker(HostSlot(f.id, Drained), m, i);
    hide ValidSnapshot; hide ValidMarker;
    var h1 := h.(pc := Posting(e, v, m, AfterDrained(live)));
    AgentSteps(f, ms, live, h, Evidence(true, Facts0(i)), h1);
    hide Agent;
    var h2 := h1.(pc := Refreshing(e, AfterDrained(live)));
    Relinks(f, ms, live, h1, h2);
    RefreshingToDeciding(f, ms, live, h2, v);
    assert Knowing(h2, e, v.markers).(pc := Idle) == Knowing(h, e, v.markers).(pc := Idle);
  }

  lemma RefreshingToDeciding(f: Frame, ms: Markers, live: string, h: Host, v: View)
    requires ReachableAt(f, ms, live, h) && Offers(f.i, ms, live, h, v)
    requires h.pc == Refreshing(f.i.epoch, AfterDrained(live))
    ensures ReachableAt(f, ms, live, Knowing(h, f.i.epoch, v.markers).(pc := Deciding(f.i.epoch, v, live)))
  {
    hide ReachableAt; hide ValidSnapshot; hide Within; hide Agent;
    Reads(f, ms, live, h, v, Facts0(f.i), Knowing(h, f.i.epoch, v.markers).(pc := Deciding(f.i.epoch, v, live)));
  }

  lemma DecidingToTurned(f: Frame, ms: Markers, h: Host, v: View, facts: Facts)
    requires ReachableAt(f, ms, f.i.target, h)
    requires h.pc == Deciding(f.i.epoch, v, f.i.target) && v.live == f.i.target
    requires Choose(f.i, v.markers) == Advance(f.i.target, Rotated) && RotationShown(h, f.i.target)
    ensures ReachableAt(f, ms, f.i.target, h.(pc := Turned(f.i.epoch, v, f.i.target, Rotated, facts)))
  {
    hide ReachableAt; hide Choose;
    hide DrainOpened; hide DrainClosed; hide GateChecked; hide LinkMade; hide InstallDone; hide JournalRecovered;
    hide CleanedUp; hide Persisted; hide MovedOn; hide DrainEvidence;
    var e, x := f.i.epoch, f.i.target;
    var h1 := h.(pc := Rotating(e, v, x, Rotated));
    AgentSteps(f, ms, x, h, Decide(true), h1);
    AgentSteps(f, ms, x, h1, Census(true, facts), h.(pc := Turned(e, v, x, Rotated, facts)));
  }

  /** A whole tick of a drained host, from its start to the decision table. */
  lemma TicksToDeciding(f: Frame, ms: Markers, live: string, h: Host)
    requires ReachableAt(f, ms, live, h) && Offers(f.i, ms, live, h, View(ms, live))
    requires h.pc.Idle? && h.record == Held(f.i.epoch) && Holding(h) && h.scopes == 0 && f.id in f.i.roster
    requires HostSlot(f.id, Drained) in ms && ms[HostSlot(f.id, Drained)] == Marker0(f.i, f.id, Drained)
    ensures ReachableAt(f, ms, live, Ticking(h, f.i.epoch, ms, h.record, Deciding(f.i.epoch, View(ms, live), live)))
  {
    hide ReachableAt; hide ValidSnapshot; hide Within; hide Marker0;
    var e, v := f.i.epoch, View(ms, live);
    TicksToClosed(f, ms, live, h, v);
    var h1 := Ticking(h, e, ms, h.record, Closed(e, v, live, 0, h.gate));
    SelfOffers(f.i, ms, live, h1);
    ClosedToDeciding(f, ms, live, h1, v);
    assert Knowing(h1, e, ms).(pc := Deciding(e, v, live)) == Ticking(h, e, ms, h.record, Deciding(e, v, live));
  }

  /** And on to the post of the rotated marker. */
  lemma TicksToPosting(f: Frame, ms: Markers, h: Host)
    requires ReachableAt(f, ms, f.i.target, h) && Offers(f.i, ms, f.i.target, h, View(ms, f.i.target))
    requires h.pc.Idle? && h.record == Held(f.i.epoch) && Holding(h) && RotationShown(h, f.i.target) && f.id in f.i.roster
    requires HostSlot(f.id, Drained) in ms && ms[HostSlot(f.id, Drained)] == Marker0(f.i, f.id, Drained)
    requires Choose(f.i, ms) == Advance(f.i.target, Rotated)
    ensures ReachableAt(f, ms, f.i.target, Ticking(h, f.i.epoch, ms, h.record,
                        Posting(f.i.epoch, View(ms, f.i.target), Marker0(f.i, f.id, Rotated), AfterPhase(f.i.target))))
  {
    hide ReachableAt; hide ValidMarker; hide ValidIntent; hide Choose; hide Within; hide Marker0; hide Coherent;
    var e, x, v := f.i.epoch, f.i.target, View(ms, f.i.target);
    HostMarkerValid(f.i, f.id, Rotated);
    hide ValidSnapshot;
    TicksToDeciding(f, ms, x, h);
    DecidingToTurned(f, ms, Ticking(h, e, ms, h.record, Deciding(e, v, x)), v, Facts0(f.i));
    var h3 := Ticking(h, e, ms, h.record, Turned(e, v, x, Rotated, Facts0(f.i)));
    SelfOffers(f.i, ms, x, h3);
    TurnedToPosting(f, ms, h3, v);
    assert Knowing(h3, e, ms).(pc := Idle) == Ticking(h, e, ms, h.record, Idle);
  }

  lemma TurnedToPosting(f: Frame, ms: Markers, h: Host, v: View)
    requires ReachableAt(f, ms, f.i.target, h) && Offers(f.i, ms, f.i.target, h, v)
    requires h.pc == Turned(f.i.epoch, v, f.i.target, Rotated, Facts0(f.i))
    requires ValidMarker(HostSlot(f.id, Rotated), Marker0(f.i, f.id, Rotated), f.i)
    ensures ReachableAt(f, ms, f.i.target, Knowing(h, f.i.epoch, v.markers).(
                        pc := Posting(f.i.epoch, v, Marker0(f.i, f.id, Rotated), AfterPhase(f.i.target))))
  {
    hide ReachableAt; hide ValidSnapshot; hide ValidMarker; hide Within; hide Agent;
    Reads(f, ms, f.i.target, h, v, Facts0(f.i), Knowing(h, f.i.epoch, v.markers).(
            pc := Posting(f.i.epoch, v, Marker0(f.i, f.id, Rotated), AfterPhase(f.i.target))));
  }

  lemma SelfOffers(i: Intent, ms: Markers, live: string, h: Host)
    requires ValidSnapshot(i, ms, live) && Seen(h, i.epoch) == ms
    ensures Offers(i, ms, live, h, View(ms, live))
  {
  }

  /** From a rotated marker already posted, and a resume, to a proof for the release. */
  lemma PostingToProved(f: Frame, ms: Markers, h: Host, v: View)
    requires ReachableAt(f, ms, f.i.target, h) && Offers(f.i, ms, f.i.target, h, v)
    requires h.pc == Posting(f.i.epoch, v, Marker0(f.i, f.id, Rotated), AfterPhase(f.i.target))
    requires HostSlot(f.id, Rotated) in v.markers && v.markers[HostSlot(f.id, Rotated)] == Marker0(f.i, f.id, Rotated)
    requires RESUME in v.markers && v.markers[RESUME].generation == Some(f.i.target) && RotationShown(h, f.i.target)
    ensures ReachableAt(f, ms, f.i.target, Knowing(h, f.i.epoch, v.markers).(pc := Proved(f.i.epoch, v, f.i.target)))
  {
    hide ReachableAt; hide ValidSnapshot; hide Within; hide Agent;
    var e, x := f.i.epoch, f.i.target;
    var h1 := h.(pc := Refreshing(e, AfterPhase(x)));
    Relinks(f, ms, x, h, h1);
    var h2 := Knowing(h, e, v.markers).(pc := Resuming(e, v, x));
    Reads(f, ms, x, h1, v, Facts0(f.i), h2);
    ResumingToProved(f, ms, h2, v);
  }

  lemma ResumingToProved(f: Frame, ms: Markers, h: Host, v: View)
    requires ReachableAt(f, ms, f.i.target, h)
    requires h.pc == Resuming(f.i.epoch, v, f.i.target) && RotationShown(h, f.i.target)
    ensures ReachableAt(f, ms, f.i.target, h.(pc := Proved(f.i.epoch, v, f.i.target)))
  {
    hide ReachableAt;
    hide DrainOpened; hide DrainClosed; hide GateChecked; hide LinkMade; hide InstallDone; hide JournalRecovered;
    hide CleanedUp; hide Persisted; hide MovedOn; hide DrainEvidence; hide Decided;
    AgentSteps(f, ms, f.i.target, h, Census(true, Facts0(f.i)), h.(pc := Proved(f.i.epoch, v, f.i.target)));
  }

  /** The host as the release leaves it. */
  function Freed(h: Host, i: Intent, v: View): Host {
    h.(record := Released(i.epoch), gate := Broker.Open, under := Some(Release(i.epoch, i.target)),
       pc := Announcing(i.epoch, v, i.target))
  }

  lemma ProvedToAnnouncing(f: Frame, ms: Markers, h: Host, v: View)
    requires ReachableAt(f, ms, f.i.target, h) && Offers(f.i, ms, f.i.target, h, v)
    requires h.pc == Proved(f.i.epoch, v, f.i.target) && Holding(h)
    ensures ReachableAt(f, ms, f.i.target, Freed(Knowing(h, f.i.epoch, v.markers), f.i, v))
  {
    hide ReachableAt; hide ValidSnapshot; hide Within; hide Agent;
    var h1 := Knowing(h, f.i.epoch, v.markers).(pc := Releasing(f.i.epoch, v, f.i.target));
    Reads(f, ms, f.i.target, h, v, Facts0(f.i), h1);
    ReleasingToAnnouncing(f, ms, h1, v);
  }

  lemma ReleasingToAnnouncing(f: Frame, ms: Markers, h: Host, v: View)
    requires ReachableAt(f, ms, f.i.target, h)
    requires h.pc == Releasing(f.i.epoch, v, f.i.target) && Holding(h)
    ensures ReachableAt(f, ms, f.i.target, Freed(h, f.i, v))
  {
    hide ReachableAt;
    hide DrainOpened; hide LinkMade; hide InstallDone; hide JournalRecovered;
    hide CleanedUp; hide MovedOn; hide DrainEvidence; hide Decided; hide CensusTaken;
    var e, x := f.i.epoch, f.i.target;
    var h1 := h.(gate := Broker.Open, under := Some(Release(e, x)), pc := Opened(e, v, x));
    AgentSteps(f, ms, x, h, CloseDrain(true), h1);
    var h2 := h1.(pc := Recording(e, v, x));
    AgentSteps(f, ms, x, h1, CheckGate(Facts0(f.i)), h2);
    AgentSteps(f, ms, x, h2, Persist, Freed(h, f.i, v));
  }

  // ---- Whole ticks -------------------------------------------------------------------------------

  /** A host before its first epoch. */
  function Fresh(gate: Broker.Gate): Host {
    Host(NoRecord, NoRecord, gate, 0, {}, None, map[], Idle)
  }

  /** A fresh host joins and proves its drain. */
  lemma DrainsHost(f: Frame, ms: Markers, gate: Broker.Gate) returns (h: Host)
    requires ValidIntent(f.i) && f.id in f.i.roster && gate.Draining? && !Broker.HeldElsewhere(gate)
    requires ReachableAt(f, ms, f.i.source, Fresh(gate)) && HostSlot(f.id, Drained) !in ms
    ensures h.record == Held(f.i.epoch) && h.pc.Idle? && h.gate == gate && h.scopes == 0 && h.under.None?
    ensures Seen(h, f.i.epoch) == map[HostSlot(f.id, Drained) := Marker0(f.i, f.id, Drained)]
    ensures ReachableAt(f, ms[HostSlot(f.id, Drained) := Marker0(f.i, f.id, Drained)], f.i.source, h)
  {
    hide ReachableAt;
    var e, v, slot, m := f.i.epoch, View(map[], f.i.source), HostSlot(f.id, Drained), Marker0(f.i, f.id, Drained);
    EmptyEpochValid(f.i);
    HostMarkerValid(f.i, f.id, Drained);
    hide ValidSnapshot; hide ValidMarker; hide ValidIntent; hide Marker0;
    JoinsAndCrashes(f, ms, f.i.source, Fresh(gate), v);
    var h1 := Ticking(Fresh(gate), e, map[], Held(e), Idle).(record := Held(e));
    TicksToClosed(f, ms, f.i.source, h1, v);
    var h2 := Ticking(h1, e, map[], Held(e), Closed(e, v, f.i.source, 0, gate));
    ProvesDrainAndCrashes(f, ms, h2, v);
    h := Knowing(h2, e, v.markers[slot := m]).(pc := Idle);
    assert v.markers[slot := m] == map[slot := m];
  }

  /** A drained host whose loops run the target posts its rotation. */
  lemma RotatesHost(f: Frame, ms: Markers, h: Host) returns (h': Host)
    requires ReachableAt(f, ms, f.i.target, h) && ValidSnapshot(f.i, ms, f.i.target) && Within(Seen(h, f.i.epoch), ms)
    requires h.pc.Idle? && h.record == Held(f.i.epoch) && Holding(h) && RotationShown(h, f.i.target) && f.id in f.i.roster
    requires HostSlot(f.id, Drained) in ms && ms[HostSlot(f.id, Drained)] == Marker0(f.i, f.id, Drained)
    requires ACTIVATED in ms && ROLLBACK !in ms && RESUME !in ms && HostSlot(f.id, Rotated) !in ms
    ensures h'.record == Held(f.i.epoch) && h'.pc.Idle? && h'.gate == h.gate && RotationShown(h', f.i.target)
    ensures h'.under == h.under
    ensures Seen(h', f.i.epoch) == ms[HostSlot(f.id, Rotated) := Marker0(f.i, f.id, Rotated)]
    ensures ReachableAt(f, ms[HostSlot(f.id, Rotated) := Marker0(f.i, f.id, Rotated)], f.i.target, h')
  {
    hide ReachableAt; hide ValidSnapshot;
    var e, slot, m := f.i.epoch, HostSlot(f.id, Rotated), Marker0(f.i, f.id, Rotated);
    TicksToPosting(f, ms, h);
    hide Within;
    var h1 := Ticking(h, e, ms, h.record, Posting(e, View(ms, f.i.target), m, AfterPhase(f.i.target)));
    LinksAndCrashes(f, ms, f.i.target, h1, slot);
    h' := Knowing(h1, e, ms[slot := m]).(pc := Idle);
  }

  /** A rotated host that finds a resume is released, and is about to say so. */
  lemma ReleasesHost(f: Frame, ms: Markers, h: Host) returns (h': Host)
    requires ReachableAt(f, ms, f.i.target, h) && ValidSnapshot(f.i, ms, f.i.target) && Within(Seen(h, f.i.epoch), ms)
    requires h.pc.Idle? && h.record == Held(f.i.epoch) && Holding(h) && RotationShown(h, f.i.target) && f.id in f.i.roster
    requires HostSlot(f.id, Drained) in ms && ms[HostSlot(f.id, Drained)] == Marker0(f.i, f.id, Drained)
    requires HostSlot(f.id, Rotated) in ms && ms[HostSlot(f.id, Rotated)] == Marker0(f.i, f.id, Rotated)
    requires RESUME in ms && ms[RESUME].direction == Some(Forward) && ms[RESUME].generation == Some(f.i.target)
    ensures h'.record == Released(f.i.epoch) && h'.gate.Open? && h'.under == Some(Release(f.i.epoch, f.i.target))
    ensures h'.pc == Announcing(f.i.epoch, View(ms, f.i.target), f.i.target) && Seen(h', f.i.epoch) == ms
    ensures ReachableAt(f, ms, f.i.target, h')
  {
    hide ReachableAt; hide ValidSnapshot;
    var e, x, v := f.i.epoch, f.i.target, View(ms, f.i.target);
    TicksToPosting(f, ms, h);
    hide Within;
    var h1 := Ticking(h, e, ms, h.record, Posting(e, v, Marker0(f.i, f.id, Rotated), AfterPhase(x)));
    SelfOffers(f.i, ms, x, h1);
    PostingToProved(f, ms, h1, v);
    var h2 := Knowing(h1, e, ms).(pc := Proved(e, v, x));
    SelfOffers(f.i, ms, x, h2);
    ProvedToAnnouncing(f, ms, h2, v);
    h' := Freed(Knowing(h2, e, ms), f.i, v);
  }
}
