/** What holds in every state, and along every run, of the fleet. */
module FleetTheorems {
  import opened Base
  import opened MarkerNames
  import opened Epoch
  import opened Fleet
  import opened FleetInvariant
  import opened FleetSteps
  import opened FleetGates
  import Broker

  /** Every state of every run satisfies the invariant. */
  lemma {:induction false} RunKeepsInvariant(r: Run, n: nat)
    requires IsRun(r) && n < |r.states|
    ensures Inv(r.states[n])
  {
    hide Inv; hide Step;
    if n == 0 {
      InitOk(r.states[0]);
    } else {
      RunKeepsInvariant(r, n - 1);
      assert Step(r.states[n - 1], r.labels[n - 1], r.states[n]);
      StepKeeps(r.states[n - 1], r.labels[n - 1], r.states[n]);
    }
  }

  /** From a point where the gate is in order, it stays so while no drain is proved over an unattributed one. */
  lemma {:induction false} RunKeepsGateFrom(r: Run, k: nat, n: nat, id: string, e: string)
    requires IsRun(r) && k <= n < |r.states| && id in r.states[k].hosts && e in r.states[k].intents && e in r.states[k].store
    requires GateOk(id, r.states[k].hosts[id], e, r.states[k].intents[e], r.states[k].store[e])
    requires forall t :: k <= t < n ==> !Unclaimed(r.states[t], r.labels[t], id, e)
    ensures id in r.states[n].hosts && r.states[n].intents == r.states[k].intents && e in r.states[n].store
    ensures GateOk(id, r.states[n].hosts[id], e, r.states[n].intents[e], r.states[n].store[e])
    decreases n - k
  {
    hide Step; hide Inv; hide GateOk; hide Unclaimed;
    if k < n {
      var s, l, s' := r.states[n - 1], r.labels[n - 1], r.states[n];
      assert Step(s, l, s') && !Unclaimed(s, l, id, e);
      RunKeepsGateFrom(r, k, n - 1, id, e);
      IntentsStay(s, l, s');
      RunKeepsInvariant(r, n - 1);
      StepKeepsGate(s, l, s', id, e);
    }
  }

  /** A host that its agent has claimed stays shut from its drain proof to its release. */
  lemma RunKeepsGate(r: Run, n: nat, id: string, e: string)
    requires IsRun(r) && n < |r.states| && id in r.states[n].hosts && e in r.states[n].intents && Claimed(r, n, id, e)
    ensures e in r.states[n].store
    ensures GateOk(id, r.states[n].hosts[id], e, r.states[n].intents[e], r.states[n].store[e])
  {
    hide Step; hide GateOk; hide Unclaimed;
    HostsAlways(r, n);
    InitGate(r.states[0], id, e);
    RunKeepsGateFrom(r, 0, n, id, e);
  }

  lemma {:induction false} HostsAlways(r: Run, n: nat)
    requires IsRun(r) && n < |r.states|
    ensures r.states[n].hosts.Keys == r.states[0].hosts.Keys && r.states[n].intents == r.states[0].intents
  {
    hide Step;
    if n > 0 {
      assert Step(r.states[n - 1], r.labels[n - 1], r.states[n]);
      HostsAlways(r, n - 1);
      HostsStay(r.states[n - 1], r.labels[n - 1], r.states[n]);
      IntentsStay(r.states[n - 1], r.labels[n - 1], r.states[n]);
    }
  }

  lemma {:induction false} RunKeepsClosed(r: Run, n: nat, id: string, e: string)
    requires IsRun(r) && n < |r.states| && id in r.states[n].hosts
    ensures ClosedOk(r.states[n].hosts[id], e)
  {
    hide Step; hide Inv;
    if n > 0 {
      assert Step(r.states[n - 1], r.labels[n - 1], r.states[n]);
      HostsStay(r.states[n - 1], r.labels[n - 1], r.states[n]);
      RunKeepsInvariant(r, n - 1);
      RunKeepsClosed(r, n - 1, id, e);
      hide ClosedOk;
      StepKeepsClosed(r.states[n - 1], r.labels[n - 1], r.states[n], id, e);
    }
  }

  /**
   However its drain was proved: once a drained host is shut under the agent's own drain, it
   stays shut until it is released or the epoch is finished.
   */
  lemma OnceShutStaysShut(r: Run, k: nat, n: nat, id: string, e: string)
    requires IsRun(r) && k <= n < |r.states| && id in r.states[k].hosts && e in r.states[k].intents && e in r.states[k].store
    requires HostSlot(id, Drained) in r.states[k].store[e] && Shut(r.states[k].hosts[id])
    ensures id in r.states[n].hosts && e in r.states[n].intents && e in r.states[n].store
    ensures Bound(id, r.states[n].hosts[id], e, r.states[n].intents[e], r.states[n].store[e]) ==> Shut(r.states[n].hosts[id])
  {
    hide Step; hide Bound;
    RunKeepsClosed(r, k, id, e);
    forall t | k <= t < n ensures !Unclaimed(r.states[t], r.labels[t], id, e) {
      StoreOnlyGrows(r, k, t, e);
    }
    RunKeepsGateFrom(r, k, n, id, e);
  }

  lemma InitGate(s: State, id: string, e: string)
    requires Init(s) && id in s.hosts && e in s.intents
    ensures e in s.store && GateOk(id, s.hosts[id], e, s.intents[e], s.store[e])
  {
    var slot := HostSlot(id, Drained);
    assert slot in s.store[e] ==> slot.DecisionSlot?;
  }

  lemma IntentsStay(s: State, l: Label, s': State)
    requires Step(s, l, s')
    ensures s'.intents == s.intents
  {
    hide HostStep; hide Store;
  }

  /** What the invariant says of one host and one epoch. */
  lemma HostFacts(r: Run, n: nat, e: string, id: string)
    requires IsRun(r) && n < |r.states|
    requires e in r.states[n].intents && id in r.states[n].hosts
    ensures e in r.states[n].store
    ensures EpochOk(id, r.states[n].hosts[id], e, r.states[n].intents[e], r.states[n].store[e])
  {
    RunKeepsInvariant(r, n);
    hide EpochOk; hide PcOk;
    assert HostOk(id, r.states[n].hosts[id], r.states[n].intents, r.states[n].store);
  }

  /** Only hosts of the fleet have markers. */
  lemma MarkerHostExists(r: Run, n: nat, e: string, id: string, p: HostPhase)
    requires IsRun(r) && n < |r.states|
    requires e in r.states[n].store && HostSlot(id, p) in r.states[n].store[e]
    ensures e in r.states[n].intents && id in r.states[n].hosts
  {
    RunKeepsInvariant(r, n);
    hide HostOk;
  }

  // ---- Barrier order ---------------------------------------------------------------------

  /**
   Over all runs, with posts made from stale views and an unconstrained coordinator: a
   rotated marker stands on an activation that saw every drained marker in the store, a
   rolled-back marker on a rollback and a reversion that did, and a resumed marker on a
   resume that saw every host rotated, or every host rolled back, and names its generation.
   */
  lemma BarrierOrder(r: Run, n: nat, e: string, id: string)
    requires IsRun(r) && n < |r.states| && e in r.states[n].store
    ensures var i := r.states[n].intents; var ms := r.states[n].store[e];
            && (HostSlot(id, Rotated) in ms ==> e in i && ActivationProved(i[e], ms))
            && (HostSlot(id, RolledBack) in ms ==> e in i && RollbackProved(i[e], ms))
            && (HostSlot(id, Resumed) in ms ==>
                  e in i && ResumeProved(i[e], ms)
                  && ms[HostSlot(id, Resumed)].generation == Some(ResumeGeneration(i[e], ms)))
  {
    var s := r.states[n];
    if p: HostPhase :| HostSlot(id, p) in s.store[e] {
      MarkerHostExists(r, n, e, id, p);
      HostFacts(r, n, e, id);
    }
  }

  // ---- Mixed-generation exclusion ----------------------------------------------------------

  /** The other host is held, closed and idle, or was released on the same generation. */
  ghost predicate HeldOrReleasedAlike(h: Host, release: Release) {
    (h.record == Held(release.epoch) && Shut(h)) || h.under == Some(release)
  }

  /**
   Until an epoch is terminal, once one host has been released in it every roster host has
   a held record or was released in the same epoch on the same generation. A held one is
   closed under the agent's own drain with no scope running, unless its agent proved the
   drain over an unattributed one.
   */
  lemma MixedGenerationExclusion(r: Run, n: nat, release: Release, h: string, k: string)
    requires IsRun(r) && n < |r.states|
    requires release.epoch in r.states[n].intents && release.epoch in r.states[n].store
    requires h in r.states[n].hosts && r.states[n].hosts[h].under == Some(release)
    requires k in r.states[n].intents[release.epoch].roster
    requires !TerminalProved(r.states[n].intents[release.epoch], r.states[n].store[release.epoch])
    ensures k in r.states[n].hosts
    ensures r.states[n].hosts[k].record == Held(release.epoch) || r.states[n].hosts[k].under == Some(release)
    ensures Claimed(r, n, k, release.epoch) ==> HeldOrReleasedAlike(r.states[n].hosts[k], release)
  {
    var s, e := r.states[n], release.epoch;
    var i, ms := s.intents[e], s.store[e];
    HostFacts(r, n, e, h);
    assert ResumeProved(i, ms) && release.generation == ResumeGeneration(i, ms);
    ResumeNeedsEveryDrain(i, ms, k);
    MarkerHostExists(r, n, e, k, Drained);
    HostFacts(r, n, e, k);
    if Claimed(r, n, k, e) {
      RunKeepsGate(r, n, k, e);
    }
  }

  /**
   A host that has proved itself drained in an unfinished epoch, over a drain its agent had
   claimed, and is no longer shut was released by its resume, on the generation named there.
   */
  lemma AdmissionNeedsRelease(r: Run, n: nat, e: string, id: string)
    requires IsRun(r) && n < |r.states| && e in r.states[n].store
    requires HostSlot(id, Drained) in r.states[n].store[e] && id in r.states[n].hosts && Claimed(r, n, id, e)
    requires r.states[n].hosts[id].gate.Open? || r.states[n].hosts[id].scopes > 0
    ensures e in r.states[n].intents
    ensures var i, ms := r.states[n].intents[e], r.states[n].store[e];
            TerminalProved(i, ms)
            || (ResumeProved(i, ms) && r.states[n].hosts[id].under == Some(Release(e, ResumeGeneration(i, ms))))
  {
    hide IsRun;
    MarkerHostExists(r, n, e, id, Drained);
    HostFacts(r, n, e, id);
    RunKeepsGate(r, n, id, e);
    hide ResumeProved; hide TerminalProved; hide OwnShape;
  }

  // ---- Direction agreement and conflict-free reposts ----------------------------------------

  /** All hosts that release in one epoch release on the one generation its resume names. */
  lemma OneReleaseGeneration(r: Run, n: nat, m: nat, a: string, b: string, e: string, x: string, y: string)
    requires IsRun(r) && n <= m < |r.states|
    requires a in r.states[n].hosts && r.states[n].hosts[a].under == Some(Release(e, x))
    requires b in r.states[m].hosts && r.states[m].hosts[b].under == Some(Release(e, y))
    requires e in r.states[n].intents && e in r.states[m].intents
    ensures x == y
  {
    HostFacts(r, n, e, a);
    HostFacts(r, m, e, b);
    StoreOnlyGrows(r, n, m, e);
    ProofsGrow(r.states[n].intents[e], r.states[n].store[e], r.states[m].store[e]);
  }

  /** One step never changes or removes a marker. */
  lemma StepGrowsStore(s: State, l: Label, s': State, e: string)
    requires Step(s, l, s') && e in s.store
    ensures s'.intents == s.intents && e in s'.store && Within(s.store[e], s'.store[e])
  {
    hide HostStep;
  }

  lemma {:induction false} StoreOnlyGrows(r: Run, n: nat, m: nat, e: string)
    requires IsRun(r) && n <= m < |r.states| && e in r.states[n].store
    ensures r.states[m].intents == r.states[n].intents
    ensures e in r.states[m].store && Within(r.states[n].store[e], r.states[m].store[e])
    decreases m - n
  {
    hide Step;
    if n < m {
      StoreOnlyGrows(r, n, m - 1, e);
      assert Step(r.states[m - 1], r.labels[m - 1], r.states[m]);
      StepGrowsStore(r.states[m - 1], r.labels[m - 1], r.states[m], e);
    }
  }

  /**
   The two errors a host could only meet by disagreeing with itself are unreachable: a
   resume for another generation than the one it is advancing to, and a stored marker of
   its own, in any phase but `failed`, that states something else than the repost.
   */
  lemma NoSelfDisagreement(r: Run, n: nat, id: string, fault: Fault)
    requires IsRun(r) && n < |r.states| && id in r.states[n].hosts
    requires r.states[n].hosts[id].pc.Raised? && r.states[n].hosts[id].pc.fault == fault
    ensures fault != WrongResume
    ensures forall p :: fault == Conflict(p) ==> p == Failed
  {
    hide IsRun; hide EpochOk;
    RunKeepsInvariant(r, n);
    RaisedIsBenign(r.states[n], id);
  }

  lemma RaisedIsBenign(s: State, id: string)
    requires Inv(s) && id in s.hosts && s.hosts[id].pc.Raised?
    ensures BenignFault(s.hosts[id].pc.fault)
  {
    hide EpochOk;
    assert HostOk(id, s.hosts[id], s.intents, s.store);
  }

  /** Whatever the host is about to post, the store already agrees with if it holds it at all. */
  lemma RepostsAgree(r: Run, n: nat, id: string)
    requires IsRun(r) && n < |r.states| && id in r.states[n].hosts
    requires r.states[n].hosts[id].pc.Posting?
    ensures var pc := r.states[n].hosts[id].pc;
            pc.epoch in r.states[n].store && SlotOf(pc.marker).Some?
            && var slot := SlotOf(pc.marker).value;
               slot.HostSlot? && slot.host == id
               && (slot in r.states[n].store[pc.epoch] && slot.phase != Failed ==>
                     SameIdentity(r.states[n].store[pc.epoch][slot], pc.marker))
  {
    var s := r.states[n];
    var h := s.hosts[id];
    var e, m, after := h.pc.epoch, h.pc.marker, h.pc.after;
    RunKeepsInvariant(r, n);
    assert HostOk(id, h, s.intents, s.store);
    hide EpochOk; hide ValidMarker; hide Coherent; hide Steered;
    var slot := HostSlot(id, m.phase.host);
    OwnSlot(s.intents[e], id, m);
    if slot in s.store[e] && slot.phase != Failed {
      OwnMarkersAgree(id, h, e, s.intents[e], s.store[e], m, after);
    }
  }

  // ---- Hold until resume ---------------------------------------------------------------------

  /** The three points between reading a resume and closing the drain. */
  predicate AboutToRelease(pc: Pc) {
    pc.Resuming? || pc.Proved? || pc.Releasing?
  }

  lemma AgentEnters(s: State, h: Host, id: string, ev: Event, store: map<string, Markers>)
    requires Agent(s, h, id, ev, store).Some?
    ensures var pc' := Agent(s, h, id, ev, store).value.pc;
            AboutToRelease(pc') ==>
              pc' == h.pc
              || (pc'.Proved? && h.pc == Resuming(pc'.epoch, pc'.view, pc'.expected)
                  && ev.Census? && RotationShown(h, pc'.expected))
  {
    hide ValidMarker; hide Choose; hide SlotOf; hide Broker.Begin; hide Broker.End;
  }

  lemma ReadEnters(h: Host, id: string, i: Intent, e: string, v: View, facts: Facts)
    requires AfterRead(h, id, i, e, v, facts).Some?
    ensures var pc' := AfterRead(h, id, i, e, v, facts).value.pc;
            AboutToRelease(pc') ==>
              || (pc' == Resuming(e, v, pc'.expected) && ResumeSeen(v.markers, pc'.expected))
              || (pc' == Releasing(e, v, pc'.expected) && v.live == pc'.expected
                  && h.pc.Proved? && h.pc.epoch == e && h.pc.expected == pc'.expected)
  {
    hide ValidMarker; hide SlotOf;
  }

  /** The one step that leads to each of those points. */
  ghost predicate Enters(s: State, ev: Event, h: Host, pc': Pc)
    requires AboutToRelease(pc')
  {
    match pc'
    case Resuming(e, v, x) => ev.Read? && ev.epoch == e && ev.view == v && Readable(s, h, e, v) && ResumeSeen(v.markers, x)
    case Proved(e, v, x) => ev.Census? && h.pc == Resuming(e, v, x) && RotationShown(h, x)
    case Releasing(e, v, x) =>
      && ev.Read? && ev.epoch == e && ev.view == v && Readable(s, h, e, v) && v.live == x
      && h.pc.Proved? && h.pc.epoch == e && h.pc.expected == x
  }

  lemma EnterRelease(s: State, l: Label, s': State, id: string)
    requires Step(s, l, s') && id in s.hosts && AboutToRelease(s'.hosts[id].pc)
    ensures s'.hosts[id].pc == s.hosts[id].pc
            || (l.OfHost? && l.id == id && Enters(s, l.event, s.hosts[id], s'.hosts[id].pc))
  {
    if l.OfHost? && l.id == id {
      HostEnters(s, id, l.event);
    }
  }

  lemma HostEnters(s: State, id: string, ev: Event)
    requires id in s.hosts && HostStep(s, id, ev).Some? && AboutToRelease(HostStep(s, id, ev).value.pc)
    ensures HostStep(s, id, ev).value.pc == s.hosts[id].pc
            || Enters(s, ev, s.hosts[id], HostStep(s, id, ev).value.pc)
  {
    hide Agent; hide AfterRead; hide ValidSnapshot; hide Within; hide ValidMarker; hide SlotOf; hide Store;
    var h := s.hosts[id];
    if Outside(h, ev).Some? {
    } else if ev.Read? {
      ReadEnters(h.(seen := h.seen[ev.epoch := ev.view.markers]), id, s.intents[ev.epoch], ev.epoch, ev.view, ev.facts);
    } else if ev.Report? {
    } else {
      AgentEnters(s, h, id, ev, Store(s, id, ev));
    }
  }

  /** A host about to release at `n` read the resume at `k` and has stayed on course since. */
  ghost predicate ReadResume(r: Run, k: nat, n: nat, id: string, e: string, x: string) {
    && k < n < |r.states| && k < |r.labels|
    && r.labels[k].OfHost? && r.labels[k].id == id && r.labels[k].event.Read? && r.labels[k].event.epoch == e
    && id in r.states[k].hosts && Readable(r.states[k], r.states[k].hosts[id], e, r.labels[k].event.view)
    && ResumeSeen(r.labels[k].event.view.markers, x)
    && forall t :: k < t <= n ==> id in r.states[t].hosts && AboutToRelease(r.states[t].hosts[id].pc)
  }

  /** Between the two, at `j`, the gate was closed and idle and every loop ran generation `x`. */
  ghost predicate ProvedRotation(r: Run, k: nat, j: nat, n: nat, id: string, x: string) {
    && k < j < n < |r.states| && j < |r.labels|
    && r.labels[j].OfHost? && r.labels[j].id == id && r.labels[j].event.Census?
    && id in r.states[j].hosts && RotationShown(r.states[j].hosts[id], x)
  }

  lemma HostsStay(s: State, l: Label, s': State)
    requires Step(s, l, s')
    ensures s'.hosts.Keys == s.hosts.Keys
  {
    hide HostStep; hide Store;
  }

  lemma {:induction false} ResumingHistory(r: Run, n: nat, id: string) returns (k: nat)
    requires IsRun(r) && n < |r.states| && id in r.states[n].hosts && r.states[n].hosts[id].pc.Resuming?
    ensures var pc := r.states[n].hosts[id].pc; ReadResume(r, k, n, id, pc.epoch, pc.expected)
  {
    hide Step; hide Readable; hide ResumeSeen;
    assert n > 0;
    var s, l, s' := r.states[n - 1], r.labels[n - 1], r.states[n];
    assert Step(s, l, s');
    HostsStay(s, l, s');
    EnterRelease(s, l, s', id);
    if s.hosts[id].pc == s'.hosts[id].pc {
      k := ResumingHistory(r, n - 1, id);
    } else {
      k := n - 1;
    }
  }

  lemma {:induction false} ProvedHistory(r: Run, n: nat, id: string) returns (k: nat, j: nat)
    requires IsRun(r) && n < |r.states| && id in r.states[n].hosts && r.states[n].hosts[id].pc.Proved?
    ensures var pc := r.states[n].hosts[id].pc;
            ReadResume(r, k, n, id, pc.epoch, pc.expected) && ProvedRotation(r, k, j, n, id, pc.expected)
  {
    hide Step; hide Readable; hide ResumeSeen; hide RotationShown;
    assert n > 0;
    var s, l, s' := r.states[n - 1], r.labels[n - 1], r.states[n];
    assert Step(s, l, s');
    HostsStay(s, l, s');
    EnterRelease(s, l, s', id);
    if s.hosts[id].pc == s'.hosts[id].pc {
      k, j := ProvedHistory(r, n - 1, id);
    } else {
      k := ResumingHistory(r, n - 1, id);
      j := n - 1;
    }
  }

  lemma {:induction false} ReleasingHistory(r: Run, n: nat, id: string) returns (k: nat, j: nat)
    requires IsRun(r) && n < |r.states| && id in r.states[n].hosts && r.states[n].hosts[id].pc.Releasing?
    ensures var pc := r.states[n].hosts[id].pc;
            ReadResume(r, k, n, id, pc.epoch, pc.expected) && ProvedRotation(r, k, j, n, id, pc.expected)
  {
    hide Step; hide Readable; hide ResumeSeen; hide RotationShown;
    assert n > 0;
    var s, l, s' := r.states[n - 1], r.labels[n - 1], r.states[n];
    assert Step(s, l, s');
    HostsStay(s, l, s');
    EnterRelease(s, l, s', id);
    if s.hosts[id].pc == s'.hosts[id].pc {
      k, j := ReleasingHistory(r, n - 1, id);
    } else {
      k, j := ProvedHistory(r, n - 1, id);
    }
  }

  /** The agent ends a drain, or its own drain opens. */
  predicate Ends(s: State, l: Label, s': State, id: string)
    requires id in s.hosts && id in s'.hosts
  {
    || (l.OfHost? && l.id == id && l.event.CloseDrain?)
    || (s.hosts[id].gate == Broker.Draining(Broker.AGENT) && s'.hosts[id].gate.Open?)
  }

  /** With a held record, only the release does. */
  lemma OpenerIsRelease(s: State, l: Label, s': State, id: string, e: string)
    requires Inv(s) && Step(s, l, s') && id in s.hosts && id in s'.hosts && s.hosts[id].record == Held(e)
    requires Ends(s, l, s', id)
    ensures s.hosts[id].pc.Releasing? && s.hosts[id].pc.epoch == e
    ensures s.hosts[id].gate.Draining? && s'.hosts[id].gate.Open? ==>
              s'.hosts[id].under == Some(Release(e, s.hosts[id].pc.expected))
  {
    hide EpochOk; hide ValidSnapshot; hide Within; hide ValidMarker; hide SlotOf; hide AfterRead; hide Agent; hide Store;
    Broker.OwnersDiffer();
    var h := s.hosts[id];
    assert l.OfHost? && l.id == id;
    var ev := l.event;
    assert Outside(h, ev).None?;
    if ev.Read? {
      ReadKeepsGate(h.(seen := h.seen[ev.epoch := ev.view.markers]), id, s.intents[ev.epoch], ev.epoch, ev.view, ev.facts);
    } else if !ev.Report? {
      AgentOpens(s, h, id, ev, Store(s, id, ev));
      ReleasePc(s, id);
    }
  }

  lemma AgentOpens(s: State, h: Host, id: string, ev: Event, store: map<string, Markers>)
    requires Agent(s, h, id, ev, store).Some?
    requires ev.CloseDrain? || (h.gate.Draining? && Agent(s, h, id, ev, store).value.gate.Open?)
    ensures h.pc.Ordinary? || h.pc.Releasing?
    ensures h.pc.Releasing? && h.gate.Draining? && Agent(s, h, id, ev, store).value.gate.Open? ==>
              Agent(s, h, id, ev, store).value.under == Some(Release(h.pc.epoch, h.pc.expected))
  {
    hide ValidMarker; hide SlotOf; hide Choose;
  }

  lemma ReleasePc(s: State, id: string)
    requires Inv(s) && id in s.hosts
    ensures s.hosts[id].pc.Ordinary? ==> s.hosts[id].record.NoRecord?
    ensures s.hosts[id].pc.Releasing? ==> s.hosts[id].record == Held(s.hosts[id].pc.epoch)
  {
    hide EpochOk; hide ViewOk;
    assert HostOk(id, s.hosts[id], s.intents, s.store);
  }

  lemma ReadKeepsGate(h: Host, id: string, i: Intent, e: string, v: View, facts: Facts)
    requires AfterRead(h, id, i, e, v, facts).Some?
    ensures AfterRead(h, id, i, e, v, facts).value.gate == h.gate
    ensures AfterRead(h, id, i, e, v, facts).value.record == h.record
  {
    hide ValidMarker; hide SlotOf;
  }

  /**
   Once a host has persisted an unreleased epoch, no path through a tick, a failed read, an
   installation or a journal recovery ends a drain or opens the agent's own, except the
   release that follows a validated read of a resume and then a fresh rotation proof for
   its generation, in one tick.
   */
  lemma HoldUntilResume(r: Run, n: nat, id: string, e: string) returns (x: string, k: nat, j: nat)
    requires IsRun(r) && n < |r.labels| && id in r.states[n].hosts && id in r.states[n + 1].hosts
    requires r.states[n].hosts[id].record == Held(e)
    requires Ends(r.states[n], r.labels[n], r.states[n + 1], id)
    ensures r.states[n].hosts[id].gate.Draining? && r.states[n + 1].hosts[id].gate.Open? ==>
              r.states[n + 1].hosts[id].under == Some(Release(e, x))
    ensures ReadResume(r, k, n, id, e, x) && ProvedRotation(r, k, j, n, id, x)
  {
    hide Step; hide Inv;
    RunKeepsInvariant(r, n);
    assert Step(r.states[n], r.labels[n], r.states[n + 1]);
    OpenerIsRelease(r.states[n], r.labels[n], r.states[n + 1], id, e);
    x := r.states[n].hosts[id].pc.expected;
    k, j := ReleasingHistory(r, n, id);
  }

  /** At `n` the tick of `id` has read a resume and, after it, taken a rotation proof. */
  ghost predicate FollowsProof(r: Run, n: nat, id: string) {
    exists e, x, k, j :: ReadResume(r, k, n, id, e, x) && ProvedRotation(r, k, j, n, id, x)
  }

  /**
   When the agent ends a drain, the boot hold included, a rotation proof precedes it in the
   same tick exactly when the host has a record: a host without one reopens unproved.
   */
  lemma ReopeningProvedIff(r: Run, n: nat, id: string)
    requires IsRun(r) && n < |r.labels| && id in r.states[n].hosts && id in r.states[n + 1].hosts
    requires r.labels[n].OfHost? && r.labels[n].id == id && r.labels[n].event.CloseDrain?
    ensures FollowsProof(r, n, id) <==> !r.states[n].hosts[id].record.NoRecord?
  {
    hide Step; hide Inv; hide Readable; hide ResumeSeen; hide RotationShown;
    RunKeepsInvariant(r, n);
    assert Step(r.states[n], r.labels[n], r.states[n + 1]);
    CloserPc(r.states[n], r.labels[n], r.states[n + 1], id);
    ReleasePc(r.states[n], id);
    if !r.states[n].hosts[id].record.NoRecord? {
      var x, k, j := HoldUntilResume(r, n, id, r.states[n].hosts[id].record.epoch);
    }
  }

  lemma CloserPc(s: State, l: Label, s': State, id: string)
    requires Step(s, l, s') && id in s.hosts && l.OfHost? && l.id == id && l.event.CloseDrain?
    ensures s.hosts[id].pc.Ordinary? || s.hosts[id].pc.Releasing?
  {
    hide ValidMarker; hide SlotOf; hide Store;
    AgentOpens(s, s.hosts[id], id, l.event, Store(s, id, l.event));
  }

  // ---- Stability of validity over runs -------------------------------------------------------

  /** What a host links, it is authorized to post by what it has read. */
  lemma HostPostKeepsValid(s: State, id: string, ev: Event, e: string)
    requires Inv(s) && id in s.hosts && e in s.intents && ValidSnapshot(s.intents[e], s.store[e], s.live)
    ensures e in Store(s, id, ev) && ValidSnapshot(s.intents[e], Store(s, id, ev)[e], s.live)
  {
    hide ValidSnapshot; hide EpochOk; hide Steered; hide Within; hide ValidMarker;
    var h := s.hosts[id];
    ReadyHost(s, id);
    if h.pc.Posting? && ev.Link? && h.pc.epoch == e {
      OwnSlot(s.intents[e], id, h.pc.marker);
      SeenInStore(id, h, e, s.intents[e], s.store[e]);
      PostKeepsValid(s.intents[e], s.store[e], s.live, Seen(h, e), HostSlot(id, h.pc.marker.phase.host), h.pc.marker);
    }
  }

  /** An epoch that is valid stays valid through any steps of hosts and their surroundings. */
  lemma {:induction false} EpochStaysValid(r: Run, n: nat, m: nat, e: string)
    requires IsRun(r) && n <= m < |r.states| && e in r.states[n].intents && e in r.states[n].store
    requires ValidSnapshot(r.states[n].intents[e], r.states[n].store[e], r.states[n].live)
    requires forall t :: n <= t < m ==> r.labels[t].OfHost?
    ensures r.states[m].intents == r.states[n].intents && r.states[m].live == r.states[n].live && e in r.states[m].store
    ensures ValidSnapshot(r.states[m].intents[e], r.states[m].store[e], r.states[m].live)
    decreases m - n
  {
    hide Inv; hide HostStep; hide Store; hide ValidSnapshot;
    if n < m {
      EpochStaysValid(r, n, m - 1, e);
      var s, l, s' := r.states[m - 1], r.labels[m - 1], r.states[m];
      assert Step(s, l, s') && l.OfHost?;
      RunKeepsInvariant(r, m - 1);
      HostPostKeepsValid(s, l.id, l.event, e);
    }
  }

  // ---- Losing a held record -------------------------------------------------------------------

  /** The status check of a tick that loaded the record as released finds the epoch terminal. */
  predicate Clears(s: State, l: Label, id: string, e: string) {
    && l.OfHost? && l.id == id && l.event.CheckGate? && id in s.hosts && e in s.intents
    && s.hosts[id].pc.Desired? && s.hosts[id].pc.epoch == e && s.hosts[id].loaded == Released(e)
    && id in s.intents[e].roster && TERMINAL in s.hosts[id].pc.view.markers
  }

  lemma AgentLosesRecord(s: State, h: Host, id: string, ev: Event, store: map<string, Markers>, e: string)
    requires Agent(s, h, id, ev, store).Some? && h.record == Held(e)
    requires !Names(Agent(s, h, id, ev, store).value.record, e)
    ensures || (ev.CheckGate? && h.pc.Desired? && h.loaded == Released(h.pc.epoch) && h.pc.epoch in s.intents
                && id in s.intents[h.pc.epoch].roster && TERMINAL in h.pc.view.markers)
            || (h.pc.Active? && h.loaded == Released(h.pc.epoch))
            || h.pc.Joining? || ((h.pc.Reholding? || h.pc.Recording?) && h.pc.epoch != e)
  {
    hide ValidMarker; hide SlotOf; hide Choose; hide SameIdentity; hide HostMarker;
  }

  /**
   A held record is lost exactly when the status check of a tick that had loaded it as
   released finds the epoch terminal. No rotation proof is taken there; every host has
   resumed by then.
   */
  lemma HeldRecordLostIff(r: Run, n: nat, id: string, e: string)
    requires IsRun(r) && n < |r.labels| && id in r.states[n].hosts && id in r.states[n + 1].hosts
    requires r.states[n].hosts[id].record == Held(e)
    ensures !Names(r.states[n + 1].hosts[id].record, e) <==> Clears(r.states[n], r.labels[n], id, e)
    ensures Clears(r.states[n], r.labels[n], id, e) ==>
              e in r.states[n].store && TerminalProved(r.states[n].intents[e], r.states[n].store[e])
  {
    hide HostStep; hide Inv; hide TerminalProved;
    RunKeepsInvariant(r, n);
    var s, l, s' := r.states[n], r.labels[n], r.states[n + 1];
    assert Step(s, l, s');
    if !Names(s'.hosts[id].record, e) {
      assert l.OfHost? && l.id == id;
      HostLosesRecord(s, l, id, e);
    }
    if Clears(s, l, id, e) {
      ClearsRecord(s, l, id, e);
      ClearsTerminal(s, l, id, e);
    }
  }

  lemma ClearsRecord(s: State, l: Label, id: string, e: string)
    requires Clears(s, l, id, e) && HostStep(s, id, l.event).Some?
    ensures HostStep(s, id, l.event).value.record.NoRecord?
  {
  }

  lemma ClearsTerminal(s: State, l: Label, id: string, e: string)
    requires Inv(s) && Clears(s, l, id, e)
    ensures e in s.store && TerminalProved(s.intents[e], s.store[e])
  {
    hide EpochOk; hide ValidSnapshot; hide Within; hide Steered; hide PostOk; hide TerminalProved;
    var h := s.hosts[id];
    ReadyHost(s, id);
    SeenInStore(id, h, e, s.intents[e], s.store[e]);
    WithinTransitive(h.pc.view.markers, Seen(h, e), s.store[e]);
    SnapshotProves(s.intents[e], h.pc.view.markers, h.pc.view.live, s.store[e]);
  }

  lemma HostLosesRecord(s: State, l: Label, id: string, e: string)
    requires Inv(s) && l.OfHost? && l.id == id && id in s.hosts && HostStep(s, id, l.event).Some?
    requires s.hosts[id].record == Held(e) && !Names(HostStep(s, id, l.event).value.record, e)
    ensures Clears(s, l, id, e)
  {
    hide Agent; hide AfterRead; hide ValidSnapshot; hide Within; hide ValidMarker; hide SlotOf; hide Store; hide EpochOk;
    hide Steered; hide PostOk;
    var h, ev := s.hosts[id], l.event;
    ReadyHost(s, id);
    if ev.Read? {
      ReadKeepsGate(h.(seen := h.seen[ev.epoch := ev.view.markers]), id, s.intents[ev.epoch], ev.epoch, ev.view, ev.facts);
    } else if !ev.Report? && Outside(h, ev).None? {
      AgentLosesRecord(s, h, id, ev, Store(s, id, ev), e);
    }
  }

  lemma WithinTransitive(a: Markers, b: Markers, c: Markers)
    requires Within(a, b) && Within(b, c)
    ensures Within(a, c)
  {
  }
}
