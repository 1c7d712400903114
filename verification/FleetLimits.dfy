/**
 Where the barrier's promises end: runs in which an agent proves its drain over an
 unattributed one.
 */
module FleetLimits {
  import opened Base
  import opened MarkerNames
  import opened Epoch
  import opened Fleet
  import opened FleetPaths
  import opened FleetTheorems
  import Broker

  /** A host has proved itself drained for an epoch nobody has resumed, and admits work. */
  ghost predicate HoldBroken(s: State, e: string, id: string) {
    && e in s.store && id in s.hosts
    && HostSlot(id, Drained) in s.store[e] && RESUME !in s.store[e]
    && s.hosts[id].record == Held(e) && s.hosts[id].gate.Open? && s.hosts[id].scopes > 0
  }

  /** Another root caller ends an unattributed drain, and work starts. */
  lemma WorkStarts(f: Frame, ms: Markers, live: string, h: Host) returns (h': Host)
    requires ReachableAt(f, ms, live, h) && h.gate == Broker.Draining(Broker.UNOWNED) && h.scopes == 0
    ensures h' == h.(gate := Broker.Open, scopes := 1)
    ensures ReachableAt(f, ms, live, h')
  {
    hide ReachableAt;
    assert Broker.EndBy("operator").owner != Broker.AGENT by { assert "operator"[0] != Broker.AGENT[0]; }
    OutsideSteps(f, ms, live, h, OtherCall(Broker.EndBy("operator")));
    OutsideSteps(f, ms, live, h.(gate := Broker.Open), ScopeStart);
    h' := h.(gate := Broker.Open, scopes := 1);
  }

  /**
   Where another root caller has opened a drain without naming itself, the agent's `begin`
   does not claim it: the host proves itself drained, and the next such caller's `end`
   opens admission and lets work start on the old generation with no resume decided.
   */
  lemma AnonymousDrainBreaksHold(i: Intent, id: string)
    requires ValidIntent(i) && id in i.roster
    ensures exists s :: Reachable(s) && HoldBroken(s, i.epoch, id)
  {
    hide Reachable; hide ValidIntent; hide Marker0;
    var f := Frame(i, id, map[]);
    var gate := Broker.Draining(Broker.UNOWNED);
    InitReachable(At(f, map[], i.source, Fresh(gate)));
    var h := DrainsHost(f, map[], gate);
    var ms := map[][HostSlot(id, Drained) := Marker0(i, id, Drained)];
    var h1 := WorkStarts(f, ms, i.source, h);
    assert HoldBroken(At(f, ms, i.source, h1), i.epoch, id);
  }

  // ---- Exclusion, in a fleet of two ---------------------------------------------------------

  /** Host `a` has been released in an unfinished epoch while `b`, still held, works on the source generation. */
  ghost predicate ExclusionBroken(s: State, i: Intent, a: string, b: string) {
    && i.epoch in s.store && a in s.hosts && b in s.hosts && b in i.roster
    && s.intents == map[i.epoch := i] && !TerminalProved(i, s.store[i.epoch])
    && s.hosts[a].under == Some(Release(i.epoch, i.target)) && s.hosts[a].gate.Open?
    && !HeldOrReleasedAlike(s.hosts[b], Release(i.epoch, i.target))
    && s.hosts[b].gate.Open? && s.hosts[b].scopes > 0 && s.hosts[b].loops == {i.source}
  }

  /** Looking at one host or at the other. */
  lemma Swap(i: Intent, a: string, b: string, ms: Markers, live: string, ha: Host, hb: Host)
    requires a != b && ReachableAt(Frame(i, a, map[b := hb]), ms, live, ha)
    ensures ReachableAt(Frame(i, b, map[a := ha]), ms, live, hb)
  {
    hide Reachable;
    assert map[b := hb][a := ha] == map[a := ha][b := hb];
  }

  function Both(i: Intent, a: string, b: string, ms: Markers, phase: HostPhase): Markers {
    ms[HostSlot(a, phase) := Marker0(i, a, phase)][HostSlot(b, phase) := Marker0(i, b, phase)]
  }

  function Activated2(i: Intent, a: string, b: string): Markers {
    Both(i, a, b, map[], Drained)[ACTIVATED := Decision0(i, Activated, None, Drained)]
  }

  function Resumed2(i: Intent, a: string, b: string): Markers {
    Both(i, a, b, Activated2(i, a, b), Rotated)[RESUME := Decision0(i, Resume, None, Rotated)]
  }

  predicate Two(i: Intent, a: string, b: string) {
    i.roster == [a, b] && a != b
  }

  lemma BothValid(i: Intent, a: string, b: string, ms: Markers, live: string, phase: HostPhase)
    requires ValidSnapshot(i, ms, live) && Two(i, a, b) && (phase.Drained? || phase.Rotated?)
    requires HostSlot(a, phase) !in ms && HostSlot(b, phase) !in ms
    ensures ValidSnapshot(i, ms[HostSlot(a, phase) := Marker0(i, a, phase)], live)
    ensures ValidSnapshot(i, Both(i, a, b, ms, phase), live) && AllPosted(i, Both(i, a, b, ms, phase), phase)
  {
    hide ValidSnapshot; hide Marker0;
    AddHost(i, ms, live, a, phase);
    AddHost(i, ms[HostSlot(a, phase) := Marker0(i, a, phase)], live, b, phase);
  }

  lemma Activated2Valid(i: Intent, a: string, b: string)
    requires ValidIntent(i) && Two(i, a, b)
    ensures ValidSnapshot(i, Activated2(i, a, b), i.target)
  {
    hide ValidSnapshot; hide ValidIntent; hide Marker0; hide Decision0; hide AllPosted;
    var drained := Both(i, a, b, map[], Drained);
    EmptyEpochValid(i);
    BothValid(i, a, b, map[], i.source, Drained);
    AddDecision(i, drained, i.source, Activated, None, Drained);
    MoveLive(i, Activated2(i, a, b), i.source, i.target);
  }

  lemma Resumed2Valid(i: Intent, a: string, b: string)
    requires ValidIntent(i) && Two(i, a, b)
    ensures ValidSnapshot(i, Activated2(i, a, b)[HostSlot(a, Rotated) := Marker0(i, a, Rotated)], i.target)
    ensures ValidSnapshot(i, Resumed2(i, a, b), i.target)
  {
    hide ValidSnapshot; hide ValidIntent; hide Marker0; hide Decision0; hide AllPosted;
    var ms := Activated2(i, a, b);
    Activated2Valid(i, a, b);
    BothValid(i, a, b, ms, i.target, Rotated);
    AddDecision(i, Both(i, a, b, ms, Rotated), i.target, Resume, None, Rotated);
  }

  /** A held and idle host of the run. */
  ghost predicate Waiting(i: Intent, h: Host, gate: Broker.Gate) {
    h.record == Held(i.epoch) && h.pc.Idle? && h.gate == gate && h.scopes == 0 && h.under.None?
  }

  /** Both hosts have proved their drains, `b` over an unattributed one. */
  lemma BothDrain(i: Intent, a: string, b: string) returns (ha: Host, hb: Host)
    requires ValidIntent(i) && Two(i, a, b)
    ensures Waiting(i, ha, Broker.Draining(Broker.AGENT)) && Waiting(i, hb, Broker.Draining(Broker.UNOWNED))
    ensures Within(Seen(ha, i.epoch), Both(i, a, b, map[], Drained))
    ensures Within(Seen(hb, i.epoch), Both(i, a, b, map[], Drained))
    ensures ReachableAt(Frame(i, b, map[a := ha]), Both(i, a, b, map[], Drained), i.source, hb)
  {
    hide Reachable; hide ValidIntent; hide Marker0;
    var own, anonymous := Broker.Draining(Broker.AGENT), Broker.Draining(Broker.UNOWNED);
    var fa := Frame(i, a, map[b := Fresh(anonymous)]);
    InitReachable(At(fa, map[], i.source, Fresh(own)));
    hide ReachableAt;
    assert ReachableAt(fa, map[], i.source, Fresh(own)) by { IsReachableAt(fa, map[], i.source, Fresh(own)); }
    ha := DrainsHost(fa, map[], own);
    var ms1 := map[][HostSlot(a, Drained) := Marker0(i, a, Drained)];
    Swap(i, a, b, ms1, i.source, ha, Fresh(anonymous));
    hb := DrainsHost(Frame(i, b, map[a := ha]), ms1, anonymous);
  }

  lemma IsReachableAt(f: Frame, ms: Markers, live: string, h: Host)
    requires Reachable(At(f, ms, live, h))
    ensures ReachableAt(f, ms, live, h)
  {
  }

  /** The fleet has been activated, and both hosts' loops run the target. */
  lemma BothTurn(i: Intent, a: string, b: string) returns (ha: Host, hb: Host)
    requires ValidIntent(i) && Two(i, a, b)
    ensures Waiting(i, ha, Broker.Draining(Broker.AGENT)) && Waiting(i, hb, Broker.Draining(Broker.UNOWNED))
    ensures ha.loops == {i.target} && hb.loops == {i.target}
    ensures Within(Seen(ha, i.epoch), Activated2(i, a, b)) && Within(Seen(hb, i.epoch), Activated2(i, a, b))
    ensures ReachableAt(Frame(i, a, map[b := hb]), Activated2(i, a, b), i.target, ha)
  {
    hide ReachableAt; hide ValidIntent; hide Marker0; hide Decision0;
    var ha0, hb0 := BothDrain(i, a, b);
    var ms, fb := Both(i, a, b, map[], Drained), Frame(i, b, map[a := ha0]);
    Decides(fb, ms, i.source, hb0, Activated, Decision0(i, Activated, None, Drained));
    GoesLive(fb, Activated2(i, a, b), i.source, hb0, i.target);
    OutsideSteps(fb, Activated2(i, a, b), i.target, hb0, Respawn({i.target}));
    hb := hb0.(loops := {i.target});
    Swap(i, b, a, Activated2(i, a, b), i.target, hb, ha0);
    OutsideSteps(Frame(i, a, map[b := hb]), Activated2(i, a, b), i.target, ha0, Respawn({i.target}));
    ha := ha0.(loops := {i.target});
    assert Seen(ha, i.epoch) == Seen(ha0, i.epoch) && Seen(hb, i.epoch) == Seen(hb0, i.epoch);
  }

  /** Both have rotated, and the resume is decided. */
  lemma BothRotate(i: Intent, a: string, b: string) returns (ha: Host, hb: Host)
    requires ValidIntent(i) && Two(i, a, b)
    ensures Waiting(i, ha, Broker.Draining(Broker.AGENT)) && Waiting(i, hb, Broker.Draining(Broker.UNOWNED))
    ensures ha.loops == {i.target} && Within(Seen(ha, i.epoch), Resumed2(i, a, b))
    ensures ReachableAt(Frame(i, a, map[b := hb]), Resumed2(i, a, b), i.target, ha)
  {
    hide ReachableAt; hide ValidIntent; hide ValidSnapshot; hide Marker0; hide Decision0;
    var ms := Activated2(i, a, b);
    Activated2Valid(i, a, b);
    Resumed2Valid(i, a, b);
    var ha0, hb0 := BothTurn(i, a, b);
    Broker.OwnersDiffer();
    ha := RotatesHost(Frame(i, a, map[b := hb0]), ms, ha0);
    var ms1 := ms[HostSlot(a, Rotated) := Marker0(i, a, Rotated)];
    Swap(i, a, b, ms1, i.target, ha, hb0);
    hb := RotatesHost(Frame(i, b, map[a := ha]), ms1, hb0);
    var ms2 := ms1[HostSlot(b, Rotated) := Marker0(i, b, Rotated)];
    Decides(Frame(i, b, map[a := ha]), ms2, i.target, hb, Resume, Decision0(i, Resume, None, Rotated));
    Swap(i, b, a, Resumed2(i, a, b), i.target, hb, ha);
  }

  /**
   With an unattributed drain on the second host, exclusion fails: the first is released on
   the target generation while the second, held and unreleased, runs work on the source.
   */
  lemma AnonymousDrainBreaksExclusion(i: Intent, a: string, b: string)
    requires ValidIntent(i) && Two(i, a, b)
    ensures exists s :: Reachable(s) && ExclusionBroken(s, i, a, b)
  {
    hide ReachableAt; hide ValidIntent; hide Resumed2;
    var ms := Resumed2(i, a, b);
    var ha, hb0 := OneReleased(i, a, b);
    var fb := Frame(i, b, map[a := ha]);
    OutsideSteps(fb, ms, i.target, hb0, Respawn({i.source}));
    var hb := WorkStarts(fb, ms, i.target, hb0.(loops := {i.source}));
    NotTerminal2(i, a, b);
    assert Reachable(At(fb, ms, i.target, hb)) by { ReachableAtIs(fb, ms, i.target, hb); }
    assert ExclusionBroken(At(fb, ms, i.target, hb), i, a, b);
  }

  /** The first host has been released; the second waits. */
  lemma OneReleased(i: Intent, a: string, b: string) returns (ha: Host, hb: Host)
    requires ValidIntent(i) && Two(i, a, b)
    ensures ha.under == Some(Release(i.epoch, i.target)) && ha.gate.Open?
    ensures Waiting(i, hb, Broker.Draining(Broker.UNOWNED))
    ensures ReachableAt(Frame(i, b, map[a := ha]), Resumed2(i, a, b), i.target, hb)
  {
    hide ReachableAt; hide ValidIntent; hide ValidSnapshot; hide Marker0; hide Decision0;
    var ms := Resumed2(i, a, b);
    Resumed2Valid(i, a, b);
    ResumeForward(i);
    var ha0, hb0 := BothRotate(i, a, b);
    ha := ReleasesHost(Frame(i, a, map[b := hb0]), ms, ha0);
    hb := hb0;
    Swap(i, a, b, ms, i.target, ha, hb);
  }

  lemma NotTerminal2(i: Intent, a: string, b: string)
    ensures !TerminalProved(i, Resumed2(i, a, b))
  {
    hide Marker0; hide Decision0; hide ResumeProved;
  }

  lemma ReachableAtIs(f: Frame, ms: Markers, live: string, h: Host)
    requires ReachableAt(f, ms, live, h)
    ensures Reachable(At(f, ms, live, h))
  {
  }

  lemma ResumeForward(i: Intent)
    ensures Decision0(i, Resume, None, Rotated).direction == Some(Forward)
    ensures Decision0(i, Resume, None, Rotated).generation == Some(i.target)
  {
  }
}
