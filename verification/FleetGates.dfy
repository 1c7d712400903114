/**
 What the barrier keeps shut. A host that has proved its drain stays closed and idle until
 its release, provided its agent did not prove it over an unattributed drain that it took
 for its own. The condition is about that one host and that one epoch.
 */
module FleetGates {
  import opened Base
  import opened MarkerNames
  import opened Epoch
  import opened Fleet
  import opened FleetInvariant
  import opened FleetSteps
  import Broker

  /** Closed under the agent's own drain, with nothing running. */
  predicate Shut(h: Host) {
    h.gate == Broker.Draining(Broker.AGENT) && h.scopes == 0
  }

  /** The host is proving its drain in `e`: it holds its own drain and has seen that nothing runs. */
  predicate Proving(pc: Pc, e: string) {
    || (pc.Closed? && pc.epoch == e && pc.scopes == 0 && pc.gate != Broker.Draining(Broker.UNOWNED))
    || (pc.DrainProved? && pc.epoch == e)
    || (pc.Posting? && pc.epoch == e && pc.after.AfterDrained?)
  }

  /** A drained host that has not been released, in an epoch that is not finished. */
  ghost predicate Bound(id: string, h: Host, e: string, i: Intent, ms: Markers) {
    HostSlot(id, Drained) in ms && !TerminalProved(i, ms) && !OpenedUnder(h, e)
  }

  ghost predicate GateOk(id: string, h: Host, e: string, i: Intent, ms: Markers) {
    && (Bound(id, h, e, i, ms) || (First(id, ms) && Proving(h.pc, e)) ==> Shut(h))
    && ClosedOk(h, e)
  }

  /** The host has not proved its drain yet. */
  ghost predicate First(id: string, ms: Markers) {
    HostSlot(id, Drained) !in ms
  }

  /** A drain that was the agent's own in the reply still is. */
  predicate ClosedOk(h: Host, e: string) {
    h.pc.Closed? && h.pc.epoch == e && h.pc.gate != Broker.Draining(Broker.UNOWNED) ==>
      h.gate == Broker.Draining(Broker.AGENT)
  }

  /** No step but a release opens the agent's own drain or lets work start behind it. */
  predicate StaysShut(h: Host, h': Host) {
    h.gate == Broker.Draining(Broker.AGENT) ==> h'.gate == h.gate && h'.scopes <= h.scopes
  }

  lemma OutsideStaysShut(h: Host, ev: Event)
    requires Outside(h, ev).Some?
    ensures StaysShut(h, Outside(h, ev).value) && Outside(h, ev).value.under == h.under
    ensures Outside(h, ev).value.pc == h.pc || Outside(h, ev).value.pc.Idle?
  {
    Broker.OwnersDiffer();
  }

  /** What a step may do to the gate of a host, its markers aside. */
  ghost predicate GateStep(id: string, h: Host, h': Host, e: string, first: bool) {
    && (StaysShut(h, h') || (h'.under.Some? && h.record == Held(h'.under.value.epoch)) || h.record.NoRecord?)
    && (h'.under == h.under || (h'.under.Some? && h.record == Held(h'.under.value.epoch)) || h.record.NoRecord?)
    && (first && Proving(h'.pc, e) ==> (Proving(h.pc, e) && StaysShut(h, h')) || Shut(h'))
    && ClosedOk(h', e)
    && (h.pc.Posting? && h.pc.epoch == e && h.pc.after.AfterDrained? ==> StaysShut(h, h'))
  }

  /** The records that go with the two points at which the agent ends a drain. */
  predicate EndsOwn(h: Host) {
    && (h.pc.Ordinary? ==> h.record.NoRecord?)
    && (h.pc.Releasing? ==> h.record == Held(h.pc.epoch))
  }

  /** Every step of the agent that neither opens nor closes a drain leaves the gate alone. */
  lemma QuietGateStep(s: State, id: string, h: Host, ev: Event, store: map<string, Markers>, e: string, first: bool)
    requires Agent(s, h, id, ev, store).Some? && !ev.OpenDrain? && !ev.CloseDrain? && !ev.Install? && !ev.Recover?
    requires first && Proving(h.pc, e) ==> Shut(h)
    requires first ==> !ProvesUnclaimed(h, ev, e)
    ensures GateStep(id, h, Agent(s, h, id, ev, store).value, e, first)
  {
    hide ValidMarker; hide Choose; hide SlotOf; hide Seen; hide SameIdentity; hide HostMarker;
    hide DrainOpened; hide DrainClosed; hide InstallDone; hide JournalRecovered;
  }

  lemma OpenGateStep(s: State, id: string, h: Host, e: string, first: bool)
    requires DrainOpened(s, h, id).Some?
    ensures GateStep(id, h, DrainOpened(s, h, id).value, e, first)
  {
    Broker.OwnersDiffer();
  }

  lemma InstallGateStep(id: string, h: Host, ok: bool, e: string, first: bool)
    ensures InstallDone(h, ok).Some? ==> GateStep(id, h, InstallDone(h, ok).value, e, first)
    ensures JournalRecovered(h, ok).Some? ==> GateStep(id, h, JournalRecovered(h, ok).value, e, first)
  {
    Broker.OwnersDiffer();
  }

  lemma CloseGateStep(id: string, h: Host, healthy: bool, e: string, first: bool)
    requires DrainClosed(h, healthy).Some? && EndsOwn(h)
    ensures GateStep(id, h, DrainClosed(h, healthy).value, e, first)
  {
    Broker.OwnersDiffer();
  }

  lemma AgentGateStep(s: State, id: string, h: Host, ev: Event, store: map<string, Markers>, e: string, first: bool)
    requires Agent(s, h, id, ev, store).Some? && EndsOwn(h)
    requires first && Proving(h.pc, e) ==> Shut(h)
    requires first ==> !ProvesUnclaimed(h, ev, e)
    ensures GateStep(id, h, Agent(s, h, id, ev, store).value, e, first)
  {
    hide GateStep; hide DrainOpened; hide DrainClosed; hide InstallDone; hide JournalRecovered; hide Persisted;
    hide CleanedUp; hide GateChecked; hide DrainEvidence; hide LinkMade; hide Decided; hide CensusTaken; hide MovedOn;
    if ev.OpenDrain? {
      OpenGateStep(s, id, h, e, first);
    } else if ev.Install? {
      InstallGateStep(id, h, ev.ok, e, first);
    } else if ev.Recover? {
      InstallGateStep(id, h, ev.active, e, first);
    } else if ev.CloseDrain? {
      CloseGateStep(id, h, ev.healthy, e, first);
    } else {
      hide Agent;
      QuietGateStep(s, id, h, ev, store, e, first);
    }
  }

  lemma ReadGateStep(h0: Host, h: Host, id: string, i: Intent, epoch: string, v: View, facts: Facts, e: string, first: bool)
    requires h == h0.(seen := h.seen) && AfterRead(h, id, i, epoch, v, facts).Some?
    requires first && Proving(h0.pc, e) ==> Shut(h0)
    ensures GateStep(id, h0, AfterRead(h, id, i, epoch, v, facts).value, e, first)
  {
    hide ValidMarker; hide SlotOf; hide SameIdentity; hide HostMarker;
  }

  lemma OutsideGateStep(id: string, h: Host, ev: Event, e: string, first: bool)
    requires Outside(h, ev).Some?
    requires ClosedOk(h, e)
    ensures GateStep(id, h, Outside(h, ev).value, e, first)
  {
    OutsideStaysShut(h, ev);
    hide Outside;
  }

  lemma HostGateStep(s: State, id: string, ev: Event, e: string, first: bool)
    requires id in s.hosts && HostStep(s, id, ev).Some? && EndsOwn(s.hosts[id])
    requires first && Proving(s.hosts[id].pc, e) ==> Shut(s.hosts[id])
    requires (first ==> !ProvesUnclaimed(s.hosts[id], ev, e)) && ClosedOk(s.hosts[id], e)
    ensures GateStep(id, s.hosts[id], HostStep(s, id, ev).value, e, first)
  {
    hide Agent; hide AfterRead; hide Store; hide ValidSnapshot; hide Within; hide ValidMarker; hide SlotOf;
    var h := s.hosts[id];
    if Outside(h, ev).Some? {
      OutsideGateStep(id, h, ev, e, first);
    } else if ev.Read? {
      hide Outside;
      ReadGateStep(h, h.(seen := h.seen[ev.epoch := ev.view.markers]), id, s.intents[ev.epoch], ev.epoch, ev.view, ev.facts, e, first);
    } else if !ev.Report? {
      hide Outside;
      AgentGateStep(s, id, h, ev, Store(s, id, ev), e, first);
    }
  }

  /** A step that keeps to this keeps the host shut. */
  lemma GateFollows(id: string, h: Host, h': Host, e: string, i: Intent, ms: Markers, ms': Markers)
    requires EpochOk(id, h, e, i, ms) && GateOk(id, h, e, i, ms) && GateStep(id, h, h', e, First(id, ms)) && Within(ms, ms')
    requires HostSlot(id, Drained) in ms' && HostSlot(id, Drained) !in ms ==>
               h.pc.Posting? && h.pc.epoch == e && h.pc.after.AfterDrained?
    ensures GateOk(id, h', e, i, ms')
  {
    ProofsGrow(i, ms, ms');
    hide OwnShape; hide SeenProves; hide TerminalProved; hide ResumeProved; hide ActivationProved; hide RollbackProved;
    hide Within;
  }

  /** What `HostOk` says of the marker being posted, and of the points that end a drain. */
  lemma PostingDrained(s: State, id: string, h: Host)
    requires Ready(s, id, h)
    ensures EndsOwn(h)
    ensures h.pc.Posting? ==>
              h.pc.epoch in s.store && SlotOf(h.pc.marker).Some?
              && (SlotOf(h.pc.marker).value == HostSlot(id, Drained) ==> h.pc.after.AfterDrained?)
  {
    hide EpochOk; hide ValidSnapshot; hide Steered; hide Within; hide ValidMarker;
    if h.pc.Posting? {
      OwnSlot(s.intents[h.pc.epoch], id, h.pc.marker);
    }
  }

  /** Every step of the fleet keeps a host shut that its agent has claimed. */
  lemma StepKeepsGate(s: State, l: Label, s': State, id: string, e: string)
    requires Inv(s) && Step(s, l, s') && id in s.hosts && e in s.intents && !Unclaimed(s, l, id, e)
    requires GateOk(id, s.hosts[id], e, s.intents[e], s.store[e])
    ensures id in s'.hosts && e in s'.store && GateOk(id, s'.hosts[id], e, s.intents[e], s'.store[e])
  {
    hide HostStep; hide HostOk; hide EpochOk; hide GateOk;
    ReadyHost(s, id);
    PostingDrained(s, id, s.hosts[id]);
    assert EpochOk(id, s.hosts[id], e, s.intents[e], s.store[e]) by { ReadyEpoch(s, id, e); }
    if l.OfHost? && l.id == id {
      GateOkPoints(id, s.hosts[id], e, s.intents[e], s.store[e]);
      HostGateStep(s, id, l.event, e, First(id, s.store[e]));
      GateFollows(id, s.hosts[id], s'.hosts[id], e, s.intents[e], s.store[e], s'.store[e]);
    } else {
      OthersKeepGate(s, l, s', id, e);
    }
  }

  /** Whoever holds the gates, a drain that was the agent's own in the reply still is. */
  lemma StepKeepsClosed(s: State, l: Label, s': State, id: string, e: string)
    requires Inv(s) && Step(s, l, s') && id in s.hosts && ClosedOk(s.hosts[id], e)
    ensures id in s'.hosts && ClosedOk(s'.hosts[id], e)
  {
    hide HostStep; hide HostOk; hide ClosedOk;
    ReadyHost(s, id);
    PostingDrained(s, id, s.hosts[id]);
    if l.OfHost? && l.id == id {
      HostGateStep(s, id, l.event, e, false);
    }
  }

  lemma ReadyEpoch(s: State, id: string, e: string)
    requires Inv(s) && id in s.hosts && e in s.intents
    ensures EpochOk(id, s.hosts[id], e, s.intents[e], s.store[e])
  {
    hide EpochOk; hide PcOk;
    ReadyHost(s, id);
  }

  lemma GateOkPoints(id: string, h: Host, e: string, i: Intent, ms: Markers)
    requires GateOk(id, h, e, i, ms)
    ensures First(id, ms) && Proving(h.pc, e) ==> Shut(h)
    ensures ClosedOk(h, e)
  {
  }

  lemma OthersKeepGate(s: State, l: Label, s': State, id: string, e: string)
    requires Inv(s) && Step(s, l, s') && id in s.hosts && e in s.intents && !(l.OfHost? && l.id == id)
    requires GateOk(id, s.hosts[id], e, s.intents[e], s.store[e])
    ensures id in s'.hosts && e in s'.store && GateOk(id, s'.hosts[id], e, s.intents[e], s'.store[e])
  {
    hide HostStep; hide HostOk; hide TerminalProved;
    if l.OfHost? {
      StoreGrows(s, l.id, l.event, id);
    }
    assert s'.hosts[id] == s.hosts[id];
    assert GrowsFor(id, s.store[e], s'.store[e]) by { hide Store; }
    ProofsGrow(s.intents[e], s.store[e], s'.store[e]);
  }

  // ---- The condition is exact ------------------------------------------------------------------

  /** The host after some events around its agent; one that cannot happen changes nothing. */
  function Buffeted(h: Host, events: seq<Event>): Host
    decreases |events|
  {
    if events == [] then h
    else Buffeted(if Outside(h, events[0]).Some? then Outside(h, events[0]).value else h, events[1..])
  }

  ghost predicate StillIdle(h: Host, events: seq<Event>) {
    Buffeted(h, events).gate.Draining? && Buffeted(h, events).scopes == 0
  }

  lemma {:induction false} OwnDrainSurvives(h: Host, events: seq<Event>)
    requires Shut(h)
    ensures StillIdle(h, events)
    decreases |events|
  {
    if events != [] {
      if Outside(h, events[0]).Some? {
        OutsideStaysShut(h, events[0]);
        OwnDrainSurvives(Outside(h, events[0]).value, events[1..]);
      } else {
        OwnDrainSurvives(h, events[1..]);
      }
    }
  }

  /**
   A host about to prove an idle drain is sure to stay closed and idle, whatever happens
   around its agent, exactly when that drain is the agent's own and not an unattributed one.
   */
  lemma IdleSurvivesIffClaimed(h: Host)
    requires h.gate.Draining? && !Broker.HeldElsewhere(h.gate) && h.scopes == 0
    ensures (forall events :: StillIdle(h, events)) <==> h.gate == Broker.Draining(Broker.AGENT)
  {
    if h.gate == Broker.Draining(Broker.AGENT) {
      forall events ensures StillIdle(h, events) {
        OwnDrainSurvives(h, events);
      }
    } else {
      assert Broker.EndBy("operator").owner != Broker.AGENT by { assert "operator"[0] != Broker.AGENT[0]; }
      var events := [OtherCall(Broker.EndBy("operator"))];
      assert Buffeted(h, events) == Buffeted(h.(gate := Broker.Open), []);
      assert !StillIdle(h, events);
    }
  }
}
