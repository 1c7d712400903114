/**
 The local record of a host whose epoch has become terminal: one that is held again and
 stranded, and one that is cleared although it says held.
 */
module FleetStranding {
  import opened Base
  import opened MarkerNames
  import opened Epoch
  import opened Fleet
  import opened FleetPaths
  import opened FleetTheorems
  import Broker

  // ---- A host held while a third generation is live ------------------------------------------

  predicate Third(i: Intent, generation: string) {
    generation != i.source && generation != i.target
  }

  /** The host can do nothing in epoch `e` that would end in a release or a clean-up. */
  ghost predicate Strandable(pc: Pc, e: string, i: Intent) {
    match pc
    case Idle => true
    case Entered => true
    case Unreadable => true
    case Active(d, v) => d == e
    case Secured(d, v) => d == e
    case Desired(d, v, version) => d == e && Third(i, version)
    case Closed(d, v, version, _, _) => d == e && Third(i, version)
    case DrainProved(d, version, _) => d == e && Third(i, version)
    case Posting(d, _, _, AfterDrained(version)) => d == e && Third(i, version)
    case Posting(d, _, _, AfterFailed) => d == e
    case Posted(d, _, AfterDrained(version)) => d == e && Third(i, version)
    case Posted(d, _, AfterFailed) => d == e
    case Refreshing(d, AfterDrained(version)) => d == e && Third(i, version)
    case Deciding(d, _, version) => d == e && Third(i, version)
    case Raised(d, _) => d == e
    case _ => false
  }

  /** Held in `e`, as the tick in progress knows it. */
  ghost predicate StrandedHost(h: Host, e: string, i: Intent) {
    && h.record == Held(e)
    && (h.pc.Idle? || h.pc.Entered? || h.pc.Unreadable? || h.loaded == Held(e))
    && Strandable(h.pc, e, i)
  }

  /** And a generation the epoch does not name is live. */
  ghost predicate Stranded(s: State, e: string, id: string) {
    e in s.intents && id in s.hosts && Third(s.intents[e], s.live) && StrandedHost(s.hosts[id], e, s.intents[e])
  }

  /** A drain that is the agent's own stays closed. */
  predicate KeepsOwn(h: Host, h': Host) {
    h.gate == Broker.Draining(Broker.AGENT) ==> h'.gate == h.gate
  }

  lemma ReadStrands(h: Host, id: string, i: Intent, epoch: string, v: View, facts: Facts, e: string, own: Intent)
    requires AfterRead(h, id, i, epoch, v, facts).Some? && StrandedHost(h, e, own)
    requires epoch == e ==> i == own
    ensures StrandedHost(AfterRead(h, id, i, epoch, v, facts).value, e, own)
    ensures KeepsOwn(h, AfterRead(h, id, i, epoch, v, facts).value)
  {
    hide ValidMarker; hide SlotOf; hide SameIdentity; hide HostMarker;
  }

  lemma AgentStrands(s: State, h: Host, id: string, ev: Event, store: map<string, Markers>, e: string)
    requires e in s.intents && Third(s.intents[e], s.live) && StrandedHost(h, e, s.intents[e])
    requires Agent(s, h, id, ev, store).Some?
    ensures StrandedHost(Agent(s, h, id, ev, store).value, e, s.intents[e])
    ensures KeepsOwn(h, Agent(s, h, id, ev, store).value)
  {
    hide StrandedHost; hide DrainOpened; hide DrainClosed; hide InstallDone; hide JournalRecovered; hide Persisted;
    hide CleanedUp; hide GateChecked; hide DrainEvidence; hide LinkMade; hide Decided; hide CensusTaken; hide MovedOn;
    if ev.OpenDrain? {
      OpenStrands(s, h, id, e);
    } else if ev.CloseDrain? || ev.Install? || ev.Recover? || ev.Persist? || ev.CleanUp? || ev.CheckGate? || ev.Census? {
      NotStranded(s, h, id, ev, e);
    } else {
      hide Agent;
      QuietStrands(s, h, id, ev, store, e);
    }
  }

  lemma OpenStrands(s: State, h: Host, id: string, e: string)
    requires e in s.intents && StrandedHost(h, e, s.intents[e]) && DrainOpened(s, h, id).Some?
    ensures StrandedHost(DrainOpened(s, h, id).value, e, s.intents[e]) && KeepsOwn(h, DrainOpened(s, h, id).value)
  {
    Broker.OwnersDiffer();
  }

  /** The steps a stranded host never reaches; a recovery is the one exception. */
  lemma NotStranded(s: State, h: Host, id: string, ev: Event, e: string)
    requires e in s.intents && StrandedHost(h, e, s.intents[e])
    ensures ev.CloseDrain? ==> DrainClosed(h, ev.healthy).None?
    ensures ev.Install? ==> InstallDone(h, ev.ok).None?
    ensures ev.Persist? ==> Persisted(h).None?
    ensures ev.CleanUp? ==> CleanedUp(h).None?
    ensures ev.CheckGate? ==> GateChecked(s, h, id, ev.facts).None?
    ensures ev.Census? ==> CensusTaken(h, ev.ok, ev.facts).None?
    ensures ev.Recover? && JournalRecovered(h, ev.active).Some? ==>
              StrandedHost(JournalRecovered(h, ev.active).value, e, s.intents[e])
              && KeepsOwn(h, JournalRecovered(h, ev.active).value)
  {
    Broker.OwnersDiffer();
  }

  lemma QuietStrands(s: State, h: Host, id: string, ev: Event, store: map<string, Markers>, e: string)
    requires e in s.intents && Third(s.intents[e], s.live) && StrandedHost(h, e, s.intents[e])
    requires Agent(s, h, id, ev, store).Some? && !ev.OpenDrain? && !ev.CloseDrain? && !ev.Install? && !ev.Recover?
    requires !ev.Persist? && !ev.CleanUp? && !ev.CheckGate? && !ev.Census?
    ensures StrandedHost(Agent(s, h, id, ev, store).value, e, s.intents[e]) && KeepsOwn(h, Agent(s, h, id, ev, store).value)
  {
    hide ValidMarker; hide Choose; hide SlotOf; hide Seen; hide SameIdentity; hide HostMarker;
    hide DrainOpened; hide DrainClosed; hide InstallDone; hide JournalRecovered; hide Persisted; hide CleanedUp;
    hide GateChecked; hide CensusTaken;
  }

  /**
   A host that is held in an epoch while a third generation is live stays held: no step of
   its ticks, of the coordinator or of other callers releases it or clears its record until
   one of the epoch's own generations is live again. Closed under the agent's own drain, it
   stays closed.
   */
  lemma StrandedStays(s: State, l: Label, s': State, e: string, id: string)
    requires Stranded(s, e, id) && Step(s, l, s') && Third(s.intents[e], s'.live)
    ensures Stranded(s', e, id) && KeepsOwn(s.hosts[id], s'.hosts[id])
  {
    hide Agent; hide AfterRead; hide ValidSnapshot; hide Within; hide ValidMarker; hide SlotOf; hide Store;
    if l.OfHost? && l.id == id {
      var h, ev := s.hosts[id], l.event;
      Broker.OwnersDiffer();
      if Outside(h, ev).Some? {
      } else if ev.Read? {
        ReadStrands(h.(seen := h.seen[ev.epoch := ev.view.markers]), id, s.intents[ev.epoch], ev.epoch, ev.view, ev.facts,
                    e, s.intents[e]);
      } else if ev.Report? {
      } else {
        AgentStrands(s, h, id, ev, Store(s, id, ev), e);
      }
    }
  }

  /** However long another generation is live, the host stays held. */
  lemma {:induction false} StrandedForever(r: Run, n: nat, m: nat, e: string, id: string)
    requires IsRun(r) && n <= m < |r.states| && Stranded(r.states[n], e, id)
    requires forall t :: n <= t <= m ==> Third(r.states[n].intents[e], r.states[t].live)
    ensures r.states[m].intents == r.states[n].intents && Stranded(r.states[m], e, id)
    ensures KeepsOwn(r.states[n].hosts[id], r.states[m].hosts[id])
    decreases m - n
  {
    hide Step; hide StrandedHost; hide Third;
    if n < m {
      StrandedForever(r, n, m - 1, e, id);
      assert Step(r.states[m - 1], r.labels[m - 1], r.states[m]);
      IntentsStay(r.states[m - 1], r.labels[m - 1], r.states[m]);
      StrandedStays(r.states[m - 1], r.labels[m - 1], r.states[m], e, id);
    }
  }

  /** A released host, by contrast, clears its record of a terminal epoch whatever is live. */
  lemma ReleasedHostCleansUp(s: State, e: string, id: string, v: View, facts: Facts) returns (t: State, u: State, w: State)
    requires id in s.hosts && s.hosts[id].record == Released(e) && s.hosts[id].pc.Idle?
    requires Readable(s, s.hosts[id], e, v) && TERMINAL in v.markers
    ensures Step(s, Label.OfHost(id, StartTick), t) && Step(t, Label.OfHost(id, Read(e, v, facts)), u)
    ensures Step(u, Label.OfHost(id, CleanUp), w) && id in w.hosts && w.hosts[id].record.NoRecord?
  {
    hide ValidSnapshot;
    var h := s.hosts[id];
    t := s.(hosts := s.hosts[id := h.(pc := Entered)]);
    var g := h.(seen := h.seen[e := v.markers], loaded := h.record, pc := Active(e, v));
    u := t.(hosts := t.hosts[id := g]);
    w := u.(hosts := u.hosts[id := g.(record := NoRecord, pc := Idle)]);
    assert Readable(t, t.hosts[id], e, v);
  }

  /** Steps from any state, the live generation staying the same. */
  ghost predicate Onward(states: seq<State>, labels: seq<Label>) {
    && |states| == |labels| + 1
    && (forall n :: 0 <= n < |labels| ==> Step(states[n], labels[n], states[n + 1]))
    && (forall n :: 0 <= n < |states| ==> states[n].live == states[0].live)
  }

  /** Some such steps clear the host's record. */
  ghost predicate CleansUp(s: State, id: string) {
    exists states: seq<State>, labels: seq<Label> :: Onward(states, labels) && states[0] == s
      && id in states[|states| - 1].hosts && states[|states| - 1].hosts[id].record.NoRecord?
  }

  lemma {:induction false} StrandedOnward(states: seq<State>, labels: seq<Label>, n: nat, e: string, id: string)
    requires Onward(states, labels) && n < |states| && Stranded(states[0], e, id)
    ensures Stranded(states[n], e, id) && states[n].intents == states[0].intents
  {
    hide Step; hide StrandedHost; hide Third;
    if n > 0 {
      StrandedOnward(states, labels, n - 1, e, id);
      assert Step(states[n - 1], labels[n - 1], states[n]);
      IntentsStay(states[n - 1], labels[n - 1], states[n]);
      StrandedStays(states[n - 1], labels[n - 1], states[n], e, id);
    }
  }

  /**
   With a later generation live, a host that finds its epoch completed can clean up exactly
   when its record says it was released.
   */
  lemma CompletedEpochCleansUpIff(s: State, e: string, id: string, v: View)
    requires id in s.hosts && s.hosts[id].pc.Idle? && Names(s.hosts[id].record, e)
    requires Readable(s, s.hosts[id], e, v) && TERMINAL in v.markers && Third(s.intents[e], s.live)
    ensures CleansUp(s, id) <==> s.hosts[id].record == Released(e)
  {
    hide Step; hide ValidSnapshot; hide Within;
    if s.hosts[id].record == Released(e) {
      var t, u, w := ReleasedHostCleansUp(s, e, id, v, Facts0(s.intents[e]));
      var first, second, third := Label.OfHost(id, StartTick), Label.OfHost(id, Read(e, v, Facts0(s.intents[e]))),
        Label.OfHost(id, CleanUp);
      StepKeepsLive(s, first, t);
      StepKeepsLive(t, second, u);
      StepKeepsLive(u, third, w);
      assert Onward([s, t, u, w], [first, second, third]);
    } else {
      assert Stranded(s, e, id);
      forall states: seq<State>, labels: seq<Label> | Onward(states, labels) && states[0] == s
        ensures Stranded(states[|states| - 1], e, id)
      {
        StrandedOnward(states, labels, |states| - 1, e, id);
      }
    }
  }

  lemma StepKeepsLive(s: State, l: Label, s': State)
    requires Step(s, l, s') && l.OfHost?
    ensures s'.live == s.live
  {
    hide HostStep; hide Store;
  }

  // ---- The epoch of the runs -----------------------------------------------------------------

  function Drained1(i: Intent, id: string): Markers {
    map[][HostSlot(id, Drained) := Marker0(i, id, Drained)]
  }

  function Activated1(i: Intent, id: string): Markers {
    Drained1(i, id)[ACTIVATED := Decision0(i, Activated, None, Drained)]
  }

  function Rotated1(i: Intent, id: string): Markers {
    Activated1(i, id)[HostSlot(id, Rotated) := Marker0(i, id, Rotated)]
  }

  function Resume1(i: Intent, id: string): Markers {
    Rotated1(i, id)[RESUME := Decision0(i, Resume, None, Rotated)]
  }

  function Resumed1(i: Intent, id: string): Markers {
    Resume1(i, id)[HostSlot(id, Resumed) := Marker0(i, id, Resumed)]
  }

  function Terminal1(i: Intent, id: string): Markers {
    Resumed1(i, id)[TERMINAL := Decision0(i, Terminal, Some(Completed), Resumed)]
  }

  lemma DecisionFacts(i: Intent)
    ensures var m := Decision0(i, Resume, None, Rotated); m.direction == Some(Forward) && m.generation == Some(i.target)
  {
  }

  lemma EpochsValid(i: Intent, id: string)
    requires ValidIntent(i) && i.roster == [id]
    ensures ValidSnapshot(i, Activated1(i, id), i.target) && ValidSnapshot(i, Resume1(i, id), i.target)
    ensures ValidSnapshot(i, Resumed1(i, id), i.target) && ValidSnapshot(i, Terminal1(i, id), i.target)
  {
    hide ValidSnapshot; hide ValidIntent; hide Marker0; hide Decision0;
    EmptyEpochValid(i);
    AddHost(i, map[], i.source, id, Drained);
    AddDecision(i, Drained1(i, id), i.source, Activated, None, Drained);
    MoveLive(i, Activated1(i, id), i.source, i.target);
    AddHost(i, Activated1(i, id), i.target, id, Rotated);
    AddDecision(i, Rotated1(i, id), i.target, Resume, None, Rotated);
    DecisionFacts(i);
    AddHost(i, Resume1(i, id), i.target, id, Resumed);
    AddDecision(i, Resumed1(i, id), i.target, Terminal, Some(Completed), Resumed);
  }

  // ---- The run ---------------------------------------------------------------------------------

  function Alone(i: Intent, id: string): Frame {
    Frame(i, id, map[])
  }

  /** The fleet has drained and been activated, and its loops run the target generation. */
  lemma ActivatedReachable(i: Intent, id: string) returns (h: Host)
    requires ValidIntent(i) && i.roster == [id]
    ensures h.record == Held(i.epoch) && h.pc.Idle? && h.gate == Broker.Draining(Broker.AGENT)
    ensures RotationShown(h, i.target) && Within(Seen(h, i.epoch), Activated1(i, id))
    ensures ReachableAt(Alone(i, id), Activated1(i, id), i.target, h)
  {
    hide ValidIntent; hide Marker0; hide Decision0; hide Reachable;
    var f, gate := Alone(i, id), Broker.Draining(Broker.AGENT);
    InitReachable(At(f, map[], i.source, Fresh(gate)));
    var h0 := DrainsHost(f, map[], gate);
    Decides(f, Drained1(i, id), i.source, h0, Activated, Decision0(i, Activated, None, Drained));
    GoesLive(f, Activated1(i, id), i.source, h0, i.target);
    OutsideSteps(f, Activated1(i, id), i.target, h0, Respawn({i.target}));
    h := h0.(loops := {i.target});
    assert Seen(h, i.epoch) == Seen(h0, i.epoch);
  }

  /** It has been released and is about to say so. */
  lemma ReleasedReachable(i: Intent, id: string) returns (h: Host)
    requires ValidIntent(i) && i.roster == [id]
    ensures h.record == Released(i.epoch) && h.gate.Open? && Seen(h, i.epoch) == Resume1(i, id)
    ensures h.pc == Announcing(i.epoch, View(Resume1(i, id), i.target), i.target)
    ensures ReachableAt(Alone(i, id), Resume1(i, id), i.target, h)
  {
    hide ReachableAt; hide ValidIntent; hide Marker0; hide Decision0; hide ValidSnapshot;
    var f := Alone(i, id);
    EpochsValid(i, id);
    DecisionFacts(i);
    var h1 := ActivatedReachable(i, id);
    var h2 := RotatesHost(f, Activated1(i, id), h1);
    Decides(f, Rotated1(i, id), i.target, h2, Resume, Decision0(i, Resume, None, Rotated));
    h := ReleasesHost(f, Resume1(i, id), h2);
  }

  lemma AnnouncesAndCrashes(f: Frame, ms: Markers, h: Host)
    requires ReachableAt(f, ms, f.i.target, h) && ValidSnapshot(f.i, ms, f.i.target) && Seen(h, f.i.epoch) == ms
    requires h.pc == Announcing(f.i.epoch, View(ms, f.i.target), f.i.target)
    requires HostSlot(f.id, Resumed) !in ms && ValidMarker(HostSlot(f.id, Resumed), Marker0(f.i, f.id, Resumed), f.i)
    ensures var m := Marker0(f.i, f.id, Resumed);
            ReachableAt(f, ms[HostSlot(f.id, Resumed) := m], f.i.target,
                        Knowing(h, f.i.epoch, ms[HostSlot(f.id, Resumed) := m]).(pc := Idle))
  {
    hide ReachableAt; hide ValidSnapshot; hide ValidMarker; hide Agent;
    var e, v, m := f.i.epoch, View(ms, f.i.target), Marker0(f.i, f.id, Resumed);
    SelfOffers(f.i, ms, f.i.target, h);
    var h1 := Knowing(h, e, ms).(pc := Posting(e, v, m, AfterResumed));
    Reads(f, ms, f.i.target, h, v, Facts0(f.i), h1);
    LinksAndCrashes(f, ms, f.i.target, h1, HostSlot(f.id, Resumed));
    assert Knowing(h1, e, ms[HostSlot(f.id, Resumed) := m]).(pc := Idle)
        == Knowing(h, e, ms[HostSlot(f.id, Resumed) := m]).(pc := Idle);
  }

  /** It has said so, and has lost its volatile gate to a reboot; its loops run the target again. */
  lemma ResumedReachable(i: Intent, id: string) returns (h: Host)
    requires ValidIntent(i) && i.roster == [id]
    ensures h.record == Released(i.epoch) && h.pc.Idle? && h.gate == Broker.Draining(Broker.AGENT) && h.scopes == 0
    ensures Seen(h, i.epoch) == Resumed1(i, id)
    ensures ReachableAt(Alone(i, id), Resumed1(i, id), i.target, h)
  {
    hide ReachableAt; hide ValidIntent; hide Marker0; hide Decision0; hide ValidSnapshot; hide ValidMarker;
    var f := Alone(i, id);
    EpochsValid(i, id);
    HostMarkerValid(i, id, Resumed);
    var h3 := ReleasedReachable(i, id);
    AnnouncesAndCrashes(f, Resume1(i, id), h3);
    var h4 := Knowing(h3, i.epoch, Resumed1(i, id)).(pc := Idle);
    OutsideSteps(f, Resumed1(i, id), i.target, h4, Reboot({i.target}));
    h := h4.(gate := Broker.Draining(Broker.AGENT), scopes := 0, loops := {i.target});
    assert Seen(h, i.epoch) == Resumed1(i, id);
  }

  /** A released host that comes back from a reboot takes its hold again. */
  lemma TakesHoldAgain(f: Frame, ms: Markers, live: string, h: Host, v: View)
    requires ReachableAt(f, ms, live, h) && Offers(f.i, ms, live, h, v)
    requires h.pc.Idle? && h.record == Released(f.i.epoch) && h.gate.Draining? && f.id in f.i.roster
    requires TERMINAL !in v.markers
    ensures ReachableAt(f, ms, live, Ticking(h, f.i.epoch, v.markers, Released(f.i.epoch), Reheld(f.i.epoch, v, live)).(
                        record := Held(f.i.epoch)))
  {
    hide ReachableAt; hide ValidSnapshot; hide Within;
    hide DrainOpened; hide DrainClosed; hide LinkMade; hide InstallDone; hide JournalRecovered;
    hide CleanedUp; hide CensusTaken; hide DrainEvidence; hide Decided; hide GateChecked; hide Persisted;
    var e, released := f.i.epoch, Released(f.i.epoch);
    EntersActive(f, ms, live, h, v);
    var h2 := Ticking(h, e, v.markers, released, Active(e, v));
    var h3 := h2.(pc := Secured(e, v));
    AgentSteps(f, ms, live, h2, PassReleased, h3);
    var h4 := h3.(pc := Desired(e, v, live));
    AgentSteps(f, ms, live, h3, ReadDesired, h4);
    hide Agent;
    DesiredToReheld(f, ms, live, h4, v);
  }

  lemma DesiredToReheld(f: Frame, ms: Markers, live: string, h: Host, v: View)
    requires ReachableAt(f, ms, live, h) && h.pc == Desired(f.i.epoch, v, live) && h.loaded == Released(f.i.epoch)
    requires h.gate.Draining? && f.id in f.i.roster && TERMINAL !in v.markers
    ensures ReachableAt(f, ms, live, h.(record := Held(f.i.epoch), pc := Reheld(f.i.epoch, v, live)))
  {
    hide ReachableAt;
    hide DrainOpened; hide DrainClosed; hide LinkMade; hide InstallDone; hide JournalRecovered;
    hide CleanedUp; hide CensusTaken; hide DrainEvidence; hide Decided; hide MovedOn;
    var h1 := h.(pc := Reholding(f.i.epoch, v, live));
    AgentSteps(f, ms, live, h, CheckGate(Facts0(f.i)), h1);
    AgentSteps(f, ms, live, h1, Persist, h1.(record := Held(f.i.epoch), pc := Reheld(f.i.epoch, v, live)));
  }

  /** A completed epoch that every reader accepts. */
  ghost predicate CompletedEpoch(s: State, e: string) {
    e in s.intents && e in s.store && TERMINAL in s.store[e] && ValidSnapshot(s.intents[e], s.store[e], s.live)
  }

  /** The host has taken its hold again, in a tick that loaded its record as released. */
  lemma ReheldReachable(i: Intent, id: string) returns (h: Host)
    requires ValidIntent(i) && i.roster == [id]
    ensures h.record == Held(i.epoch) && h.loaded == Released(i.epoch) && h.gate == Broker.Draining(Broker.AGENT)
    ensures h.scopes == 0 && Seen(h, i.epoch) == Resumed1(i, id)
    ensures h.pc == Reheld(i.epoch, View(Resumed1(i, id), i.target), i.target)
    ensures ReachableAt(Alone(i, id), Resumed1(i, id), i.target, h)
  {
    hide ReachableAt; hide ValidIntent; hide ValidSnapshot; hide Marker0; hide Decision0;
    var ms, v := Resumed1(i, id), View(Resumed1(i, id), i.target);
    EpochsValid(i, id);
    var h0 := ResumedReachable(i, id);
    SelfOffers(i, ms, i.target, h0);
    TakesHoldAgain(Alone(i, id), ms, i.target, h0, v);
    h := Ticking(h0, i.epoch, ms, Released(i.epoch), Reheld(i.epoch, v, i.target)).(record := Held(i.epoch));
  }

  /**
   A completed epoch is not always cleaned up locally: some run leads to a host that is
   held, closed under the agent's own drain, in an epoch every reader accepts as completed, while a later
   generation is live; and there it stays.
   */
  lemma CompletedEpochCanStrand(i: Intent, id: string, third: string)
    requires ValidIntent(i) && i.roster == [id] && Third(i, third)
    ensures exists s :: Reachable(s) && Stranded(s, i.epoch, id) && CompletedEpoch(s, i.epoch) && s.live == third
              && s.hosts[id].gate == Broker.Draining(Broker.AGENT)
  {
    hide Reachable; hide ValidIntent; hide ValidSnapshot; hide Marker0; hide Decision0;
    var f, ms := Alone(i, id), Resumed1(i, id);
    EpochsValid(i, id);
    var h := ReheldReachable(i, id);
    Crashes(f, ms, i.target, h);
    var h1 := h.(pc := Idle);
    Decides(f, ms, i.target, h1, Terminal, Decision0(i, Terminal, Some(Completed), Resumed));
    GoesLive(f, Terminal1(i, id), i.target, h1, third);
    MoveLive(i, Terminal1(i, id), i.target, third);
    var s := At(f, Terminal1(i, id), third, h1);
    assert Stranded(s, i.epoch, id) && CompletedEpoch(s, i.epoch);
  }

  // ---- A boot hold that ends without a proof ---------------------------------------------------

  /** Released, said so, and the epoch is finished. */
  lemma FinishedReachable(i: Intent, id: string) returns (h: Host)
    requires ValidIntent(i) && i.roster == [id]
    ensures h.record == Released(i.epoch) && h.pc.Idle? && h.gate.Open? && Seen(h, i.epoch) == Resumed1(i, id)
    ensures ReachableAt(Alone(i, id), Terminal1(i, id), i.target, h)
  {
    hide ReachableAt; hide ValidIntent; hide Marker0; hide Decision0; hide ValidSnapshot; hide ValidMarker;
    var f := Alone(i, id);
    EpochsValid(i, id);
    HostMarkerValid(i, id, Resumed);
    var h3 := ReleasedReachable(i, id);
    AnnouncesAndCrashes(f, Resume1(i, id), h3);
    h := Knowing(h3, i.epoch, Resumed1(i, id)).(pc := Idle);
    Decides(f, Resumed1(i, id), i.target, h, Terminal, Decision0(i, Terminal, Some(Completed), Resumed));
  }

  /** Without a record, a tick that finds no epoch ends the agent's own drain. */
  lemma OrdinaryReopens(s: State, id: string) returns (t: State, u: State, w: State)
    requires id in s.hosts && s.hosts[id].record.NoRecord? && s.hosts[id].pc.Idle?
    requires s.hosts[id].gate == Broker.Draining(Broker.AGENT)
    ensures Step(s, Label.OfHost(id, StartTick), t) && Step(t, Label.OfHost(id, ReadNone), u)
    ensures Step(u, Label.OfHost(id, CloseDrain(true)), w)
    ensures id in w.hosts && w.hosts[id].gate.Open? && w.hosts[id].loops == s.hosts[id].loops
  {
    var h := s.hosts[id];
    t := s.(hosts := s.hosts[id := h.(pc := Entered)]);
    u := t.(hosts := t.hosts[id := h.(pc := Ordinary)]);
    w := u.(hosts := u.hosts[id := h.(pc := Ordinary, gate := Broker.Open, under := None)]);
  }

  lemma Reboots(s: State, id: string, loops: set<string>) returns (t: State)
    requires id in s.hosts && s.hosts[id].gate.Open?
    ensures Step(s, Label.OfHost(id, Reboot(loops)), t) && t.intents == s.intents && t.store == s.store && t.live == s.live
    ensures id in t.hosts
    ensures t.hosts[id] == s.hosts[id].(pc := Idle, gate := Broker.Draining(Broker.AGENT), scopes := 0, loops := loops)
  {
    t := s.(hosts := s.hosts[id := s.hosts[id].(pc := Idle, gate := Broker.Draining(Broker.AGENT), scopes := 0, loops := loops)]);
  }

  ghost predicate NoProofIn(labels: seq<Label>) {
    forall n :: 0 <= n < |labels| ==> !(labels[n].OfHost? && labels[n].event.Census?)
  }

  /** One more step of a host. */
  lemma StepsOnward(states: seq<State>, labels: seq<Label>, l: Label, s: State)
    requires Onward(states, labels) && NoProofIn(labels)
    requires Step(states[|states| - 1], l, s) && l.OfHost? && !l.event.Census?
    ensures Onward(states + [s], labels + [l]) && NoProofIn(labels + [l])
  {
    hide Step;
    StepKeepsLive(states[|states| - 1], l, s);
    var more, all := states + [s], labels + [l];
    forall n | 0 <= n < |all| ensures Step(more[n], all[n], more[n + 1]) {
      if n < |labels| {
        assert Step(states[n], labels[n], states[n + 1]);
      }
    }
  }

  /** From a finished epoch through a reboot to an open gate. */
  lemma RebootedReopens(s0: State, e: string, id: string, v: View, facts: Facts, loops: set<string>)
    returns (states: seq<State>, labels: seq<Label>)
    requires id in s0.hosts && s0.hosts[id].record == Released(e) && s0.hosts[id].gate.Open?
    requires Readable(s0, s0.hosts[id], e, v) && TERMINAL in v.markers
    ensures Onward(states, labels) && states[0] == s0 && labels != [] && labels[0] == Label.OfHost(id, Reboot(loops))
    ensures NoProofIn(labels) && id in states[|states| - 1].hosts
    ensures states[|states| - 1].hosts[id].gate.Open? && states[|states| - 1].hosts[id].loops == loops
  {
    hide Step; hide ValidSnapshot; hide Within; hide Onward; hide NoProofIn;
    var s1 := Reboots(s0, id, loops);
    assert Seen(s1.hosts[id], e) == Seen(s0.hosts[id], e);
    var s2, s3, s4 := ReleasedHostCleansUp(s1, e, id, v, facts);
    CleanedState(s1, s2, s3, s4, e, id, v, facts);
    var s5, s6, s7 := OrdinaryReopens(s4, id);
    assert Onward([s0], []) && NoProofIn([]) by { NoSteps(s0); }
    StepsOnward([s0], [], Label.OfHost(id, Reboot(loops)), s1);
    states, labels := [s0] + [s1], [] + [Label.OfHost(id, Reboot(loops))];
    StepsOnward(states, labels, Label.OfHost(id, StartTick), s2);
    states, labels := states + [s2], labels + [Label.OfHost(id, StartTick)];
    StepsOnward(states, labels, Label.OfHost(id, Read(e, v, facts)), s3);
    states, labels := states + [s3], labels + [Label.OfHost(id, Read(e, v, facts))];
    StepsOnward(states, labels, Label.OfHost(id, CleanUp), s4);
    states, labels := states + [s4], labels + [Label.OfHost(id, CleanUp)];
    StepsOnward(states, labels, Label.OfHost(id, StartTick), s5);
    states, labels := states + [s5], labels + [Label.OfHost(id, StartTick)];
    StepsOnward(states, labels, Label.OfHost(id, ReadNone), s6);
    states, labels := states + [s6], labels + [Label.OfHost(id, ReadNone)];
    StepsOnward(states, labels, Label.OfHost(id, CloseDrain(true)), s7);
    states, labels := states + [s7], labels + [Label.OfHost(id, CloseDrain(true))];
  }

  lemma NoSteps(s: State)
    ensures Onward([s], []) && NoProofIn([])
  {
  }

  /**
   Boot loss of the gate does not always require a rotation proof before reopening: a host
   whose epoch is finished reboots into a hold, clears its record, and ends the hold in its
   next tick, with no proof taken and its loops running the old generation.
   */
  lemma BootHoldEndsUnproved(i: Intent, id: string) returns (states: seq<State>, labels: seq<Label>)
    requires ValidIntent(i) && i.roster == [id]
    ensures Onward(states, labels) && Reachable(states[0]) && labels != [] && labels[0] == Label.OfHost(id, Reboot({i.source}))
    ensures NoProofIn(labels)
    ensures id in states[|states| - 1].hosts
    ensures states[|states| - 1].hosts[id].gate.Open? && states[|states| - 1].hosts[id].loops == {i.source}
  {
    hide ReachableAt; hide Reachable; hide ValidIntent; hide Marker0; hide Decision0; hide ValidSnapshot; hide Step;
    EpochsValid(i, id);
    var f, done := Alone(i, id), Terminal1(i, id);
    var h := FinishedReachable(i, id);
    var s0 := At(f, done, i.target, h);
    AtIsReachable(f, done, i.target, h);
    assert Within(Resumed1(i, id), done);
    states, labels := RebootedReopens(s0, i.epoch, id, View(done, i.target), Facts0(i), {i.source});
  }

  lemma AtIsReachable(f: Frame, ms: Markers, live: string, h: Host)
    requires ReachableAt(f, ms, live, h)
    ensures Reachable(At(f, ms, live, h))
  {
  }

  /** The clean-up touches nothing but the record. */
  lemma CleanedState(s: State, t: State, u: State, w: State, e: string, id: string, v: View, facts: Facts)
    requires id in s.hosts && s.hosts[id].record == Released(e) && s.hosts[id].pc.Idle?
    requires Step(s, Label.OfHost(id, StartTick), t) && Step(t, Label.OfHost(id, Read(e, v, facts)), u)
    requires Step(u, Label.OfHost(id, CleanUp), w)
    ensures id in w.hosts && w.hosts[id].record.NoRecord? && w.hosts[id].pc.Idle?
    ensures w.hosts[id].gate == s.hosts[id].gate && w.hosts[id].loops == s.hosts[id].loops
  {
    hide ValidSnapshot; hide Within;
  }

  // ---- A held record cleared in a tick that loaded it as released ---------------------------------

  /** From the renewed hold through an installation. */
  lemma ReheldInstalls(f: Frame, ms: Markers, h: Host, v: View)
    requires ReachableAt(f, ms, f.i.target, h) && Offers(f.i, ms, f.i.target, h, v) && Seen(h, f.i.epoch) == v.markers
    requires h.pc == Reheld(f.i.epoch, v, f.i.target) && h.gate == Broker.Draining(Broker.AGENT) && h.scopes == 0
    requires HostSlot(f.id, Drained) in v.markers && v.markers[HostSlot(f.id, Drained)] == Marker0(f.i, f.id, Drained)
    requires RESUME in v.markers && v.markers[RESUME].direction == Some(Forward)
    ensures ReachableAt(f, ms, f.i.target, Knowing(h, f.i.epoch, v.markers).(pc := Installed(f.i.epoch, f.i.target)))
  {
    hide ReachableAt; hide ValidSnapshot; hide Within; hide Marker0;
    hide DrainClosed; hide GateChecked; hide LinkMade; hide JournalRecovered;
    hide CleanedUp; hide Persisted; hide MovedOn; hide CensusTaken; hide DrainEvidence; hide Decided; hide InstallDone;
    var e, x := f.i.epoch, f.i.target;
    var h1 := h.(pc := Closed(e, v, x, 0, h.gate));
    AgentSteps(f, ms, x, h, OpenDrain, h1);
    ClosedToDeciding(f, ms, x, h1, v);
    hide Agent;
    DecidingInstalls(f, ms, Knowing(h, e, v.markers).(pc := Deciding(e, v, x)), v);
  }

  lemma DecidingInstalls(f: Frame, ms: Markers, h: Host, v: View)
    requires ReachableAt(f, ms, f.i.target, h) && h.pc == Deciding(f.i.epoch, v, f.i.target) && v.live == f.i.target
    requires h.gate == Broker.Draining(Broker.AGENT) && h.scopes == 0
    requires RESUME in v.markers && v.markers[RESUME].direction == Some(Forward)
    ensures ReachableAt(f, ms, f.i.target, h.(pc := Installed(f.i.epoch, f.i.target)))
  {
    hide ReachableAt;
    hide DrainOpened; hide DrainClosed; hide GateChecked; hide LinkMade; hide JournalRecovered;
    hide CleanedUp; hide Persisted; hide MovedOn; hide CensusTaken; hide DrainEvidence;
    var e, x := f.i.epoch, f.i.target;
    var h1 := h.(pc := Installing(e, x));
    AgentSteps(f, ms, x, h, Decide(false), h1);
    AgentSteps(f, ms, x, h1, Install(true), h1.(pc := Installed(e, x)));
  }

  /** From the installation to the removal of the record, once the epoch is terminal. */
  lemma InstalledClears(f: Frame, ms: Markers, h: Host)
    requires ReachableAt(f, ms, f.i.target, h) && Offers(f.i, ms, f.i.target, h, View(ms, f.i.target))
    requires h.pc == Installed(f.i.epoch, f.i.target) && h.loaded == Released(f.i.epoch) && f.id in f.i.roster
    requires TERMINAL in ms
    ensures ReachableAt(f, ms, f.i.target, Knowing(h, f.i.epoch, ms).(
                        pc := Desired(f.i.epoch, View(ms, f.i.target), f.i.target)))
    ensures ReachableAt(f, ms, f.i.target, Knowing(h, f.i.epoch, ms).(record := NoRecord, pc := Idle))
  {
    hide ReachableAt; hide ValidSnapshot; hide Within;
    hide DrainOpened; hide DrainClosed; hide LinkMade; hide InstallDone; hide JournalRecovered;
    hide CleanedUp; hide Persisted; hide MovedOn; hide CensusTaken; hide DrainEvidence; hide Decided;
    var e, x, v := f.i.epoch, f.i.target, View(ms, f.i.target);
    var h1 := Knowing(h, e, ms).(pc := Desired(e, v, x));
    Reads(f, ms, x, h, v, Facts0(f.i), h1);
    AgentSteps(f, ms, x, h1, CheckGate(Facts0(f.i)), h1.(record := NoRecord, pc := Idle));
  }

  /**
   The one way to lose a held record is a real one: a run leads to a host whose record says
   held, in a tick that loaded it as released, from where the next step removes it.
   */
  lemma HeldRecordCanBeCleared(i: Intent, id: string) returns (before: Host, after: Host)
    requires ValidIntent(i) && i.roster == [id]
    ensures before.record == Held(i.epoch) && before.loaded == Released(i.epoch) && before.pc.Desired?
    ensures after == before.(record := NoRecord, pc := Idle)
    ensures ReachableAt(Alone(i, id), Terminal1(i, id), i.target, before)
    ensures ReachableAt(Alone(i, id), Terminal1(i, id), i.target, after)
  {
    hide ReachableAt; hide ValidIntent; hide ValidSnapshot; hide Marker0; hide Decision0;
    var f, e, x, ms := Alone(i, id), i.epoch, i.target, Resumed1(i, id);
    EpochsValid(i, id);
    DecisionFacts(i);
    var h := ReheldReachable(i, id);
    SelfOffers(i, ms, x, h);
    ReheldInstalls(f, ms, h, View(ms, x));
    var h1 := Knowing(h, e, ms).(pc := Installed(e, x));
    Decides(f, ms, x, h1, Terminal, Decision0(i, Terminal, Some(Completed), Resumed));
    var done := Terminal1(i, id);
    assert Seen(h1, e) == ms && Within(ms, done);
    InstalledClears(f, done, h1);
    before := Knowing(h1, e, done).(pc := Desired(e, View(done, x), x));
    after := Knowing(h1, e, done).(record := NoRecord, pc := Idle);
  }
}
