/**
 The inductive invariant of the fleet, about markers, records and releases; it asks nothing
 of the gates. It is kept host by host: `HostOk` speaks of one host and the store, survives
 every growth of the store by others, and is re-established by each step of the host itself.
 */
module FleetInvariant {
  import opened Base
  import opened MarkerNames
  import opened Epoch
  import opened Fleet

  /** A marker of `id` as only its own agent makes one. */
  ghost predicate OwnShape(i: Intent, id: string, phase: HostPhase, m: Marker) {
    && m.generation.Some?
    && m == HostMarker(i, id, phase, m.generation.value, m.facts)
    && ValidMarker(HostSlot(id, phase), m, i)
  }

  predicate OpenedUnder(h: Host, e: string) {
    h.under.Some? && h.under.value.epoch == e
  }

  /** Every decision a host has read was validated when it was read. */
  ghost predicate SeenProves(i: Intent, seen: Markers, ms: Markers) {
    && (ACTIVATED in seen ==> ActivationProved(i, ms))
    && (ROLLBACK in seen && REVERTED in seen ==> RollbackProved(i, ms))
    && (RESUME in seen ==> ResumeProved(i, ms))
  }

  /** What is always true of one host and one epoch, `ms` being the epoch's store. */
  ghost predicate EpochOk(id: string, h: Host, e: string, i: Intent, ms: Markers) {
    && Within(Seen(h, e), ms) && SeenProves(i, Seen(h, e), ms)
    && (forall p :: HostSlot(id, p) in ms ==>
          OwnShape(i, id, p, ms[HostSlot(id, p)]) && HostSlot(id, p) in Seen(h, e))
    && (HostSlot(id, Drained) in ms ==> Names(h.record, e) || TerminalProved(i, ms))
    && (HostSlot(id, Rotated) in ms ==> ActivationProved(i, ms))
    && (HostSlot(id, RolledBack) in ms ==>
          RollbackProved(i, ms) && ROLLBACK in Seen(h, e) && REVERTED in Seen(h, e))
    && (HostSlot(id, Resumed) in ms ==>
          ResumeProved(i, ms) && ms[HostSlot(id, Resumed)].generation == Some(ResumeGeneration(i, ms)))
    && (OpenedUnder(h, e) ==>
          ResumeProved(i, ms) && h.under.value.generation == ResumeGeneration(i, ms))
    && (h.record == Released(e) ==> OpenedUnder(h, e))
    && (HostSlot(id, Drained) in ms && !TerminalProved(i, ms) && !OpenedUnder(h, e) ==>
          h.record == Held(e))
  }

  /** A view some read of `h` returned and nothing has contradicted since. */
  ghost predicate ViewOk(h: Host, e: string, v: View, intents: map<string, Intent>) {
    && e in intents
    && Within(v.markers, Seen(h, e))
    && ValidSnapshot(intents[e], v.markers, v.live)
  }

  /**
   The host advances towards `x` for a reason no later valid resume can contradict:
   forward by a resume already seen or without having rolled back itself, backward under
   a rollback it has seen.
   */
  ghost predicate Steered(id: string, i: Intent, seen: Markers, ms: Markers, x: string) {
    id in i.roster &&
    (|| (&& x == i.target && ACTIVATED in seen
         && ((RESUME in seen && seen[RESUME].direction == Some(Forward)) || HostSlot(id, RolledBack) !in ms))
     || (x == i.source && ROLLBACK in seen && REVERTED in seen))
  }

  function PhaseTo(i: Intent, x: string): HostPhase {
    if x == i.target then Rotated else RolledBack
  }

  /** A resume decision for `x` has been seen. */
  ghost predicate ResumeSeen(ms: Markers, x: string) {
    RESUME in ms && ms[RESUME].generation == Some(x)
  }

  /** Why a marker is being posted. */
  ghost predicate Cause(id: string, h: Host, e: string, i: Intent, ms: Markers, phase: HostPhase,
                        generation: string, after: After) {
    match after
    case AfterDrained(_) => phase.Drained? && h.record == Held(e)
    case AfterPhase(x) =>
      phase == PhaseTo(i, x) && generation == x && h.record == Held(e) && Steered(id, i, Seen(h, e), ms, x)
    case AfterResumed => phase.Resumed? && ResumeSeen(Seen(h, e), generation)
    case AfterFailed => phase.Failed?
  }

  ghost predicate PostOk(id: string, h: Host, e: string, i: Intent, ms: Markers, m: Marker, after: After) {
    && m.phase.OfHost?
    && OwnShape(i, id, m.phase.host, m)
    && Names(h.record, e) && Names(h.loaded, e)
    && Cause(id, h, e, i, ms, m.phase.host, m.generation.value, after)
  }

  predicate BenignFault(fault: Fault) {
    fault.OtherFault? || fault == Conflict(Failed)
  }

  /** The tick loaded a record of `e`, and a held one still stands. */
  predicate LoadedOk(h: Host, e: string) {
    Names(h.record, e) && (h.loaded == Held(e) ==> h.record == Held(e))
  }

  /** The tick works on the epoch of the record it loaded. */
  predicate TickOk(h: Host) {
    InEpoch(h.pc) || h.pc.Raised? ==> Names(h.loaded, h.pc.epoch)
  }

  /** What is true of a host at the point its tick has reached. */
  ghost predicate PcOk(id: string, h: Host, intents: map<string, Intent>, store: map<string, Markers>)
    requires store.Keys == intents.Keys
  {
    TickOk(h) && PointOk(id, h, intents, store)
  }

  ghost predicate PointOk(id: string, h: Host, intents: map<string, Intent>, store: map<string, Markers>)
    requires store.Keys == intents.Keys
  {
    match h.pc
    case Idle => true
    case Entered => true
    case Unreadable => true
    case Ordinary => h.record.NoRecord?
    case Joining(e, v) => h.record.NoRecord? && ViewOk(h, e, v, intents)
    case Active(e, v) => Names(h.record, e) && h.loaded == h.record && ViewOk(h, e, v, intents)
    case Secured(e, v) => Names(h.record, e) && h.loaded == h.record && ViewOk(h, e, v, intents)
    case Desired(e, v, _) => LoadedOk(h, e) && ViewOk(h, e, v, intents)
    case Reholding(e, v, _) => LoadedOk(h, e) && ViewOk(h, e, v, intents) && id in intents[e].roster
    case Reheld(e, v, _) => h.record == Held(e) && ViewOk(h, e, v, intents) && id in intents[e].roster
    case Closed(e, v, _, _, _) => h.record == Held(e) && ViewOk(h, e, v, intents) && id in intents[e].roster
    case DrainProved(e, _, _) => e in intents && h.record == Held(e) && id in intents[e].roster
    case Posting(e, v, m, after) =>
      ViewOk(h, e, v, intents) && PostOk(id, h, e, intents[e], store[e], m, after)
    case Posted(e, m, after) =>
      && e in intents && PostOk(id, h, e, intents[e], store[e], m, after)
      && HostSlot(id, m.phase.host) in Seen(h, e)
    case Refreshing(e, AfterDrained(_)) => e in intents && h.record == Held(e) && id in intents[e].roster
    case Refreshing(e, AfterPhase(x)) =>
      e in intents && h.record == Held(e) && Steered(id, intents[e], Seen(h, e), store[e], x)
    case Refreshing(_, _) => false
    case Deciding(e, v, _) =>
      && ViewOk(h, e, v, intents) && h.record == Held(e) && Within(Seen(h, e), v.markers)
      && id in intents[e].roster
    case Installing(e, _) => e in intents && h.record == Held(e)
    case Installed(e, _) => e in intents && h.record == Held(e)
    case Rotating(e, v, x, phase) =>
      && ViewOk(h, e, v, intents) && h.record == Held(e)
      && phase == PhaseTo(intents[e], x) && Steered(id, intents[e], Seen(h, e), store[e], x)
    case Turned(e, v, x, phase, _) =>
      && ViewOk(h, e, v, intents) && h.record == Held(e)
      && phase == PhaseTo(intents[e], x) && Steered(id, intents[e], Seen(h, e), store[e], x)
    case Resuming(e, v, x) => ViewOk(h, e, v, intents) && h.record == Held(e) && ResumeSeen(v.markers, x)
    case Proved(e, v, x) => ViewOk(h, e, v, intents) && h.record == Held(e) && ResumeSeen(v.markers, x)
    case Releasing(e, v, x) => ViewOk(h, e, v, intents) && h.record == Held(e) && ResumeSeen(v.markers, x)
    case Opened(e, v, x) =>
      && ViewOk(h, e, v, intents) && h.record == Held(e) && ResumeSeen(v.markers, x)
      && h.under == Some(Release(e, x))
    case Recording(e, v, x) =>
      && ViewOk(h, e, v, intents) && h.record == Held(e) && ResumeSeen(v.markers, x)
      && h.under == Some(Release(e, x))
    case Announcing(e, v, x) =>
      && ViewOk(h, e, v, intents) && h.record == Released(e) && ResumeSeen(v.markers, x)
      && h.under == Some(Release(e, x))
    case Raised(e, fault) => e in intents && Names(h.record, e) && BenignFault(fault)
  }

  ghost predicate HostOk(id: string, h: Host, intents: map<string, Intent>, store: map<string, Markers>) {
    && store.Keys == intents.Keys
    && (forall e :: e in intents ==> EpochOk(id, h, e, intents[e], store[e]))
    && PcOk(id, h, intents, store)
  }

  ghost predicate Inv(s: State) {
    && s.store.Keys == s.intents.Keys
    && (forall e, id, p :: e in s.store && HostSlot(id, p) in s.store[e] ==> id in s.hosts)
    && (forall id :: id in s.hosts ==> HostOk(id, s.hosts[id], s.intents, s.store))
  }

  lemma InitOk(s: State)
    requires Init(s)
    ensures Inv(s)
  {
    forall e, id, p | e in s.store ensures HostSlot(id, p) !in s.store[e] {
      var slot := HostSlot(id, p);
      assert slot in s.store[e] ==> slot.DecisionSlot?;
    }
  }

  // ---- Growth of the store by others ---------------------------------------------------

  /** `large` extends `small` by nothing of host `id`. */
  ghost predicate GrowsFor(id: string, small: Markers, large: Markers) {
    && Within(small, large)
    && forall p :: HostSlot(id, p) in large ==> HostSlot(id, p) in small
  }

  lemma EpochOkGrows(id: string, h: Host, e: string, i: Intent, small: Markers, large: Markers)
    requires EpochOk(id, h, e, i, small) && GrowsFor(id, small, large)
    ensures EpochOk(id, h, e, i, large)
  {
    ProofsGrow(i, small, large);
  }

  lemma HostOkGrows(id: string, h: Host, intents: map<string, Intent>,
                    store: map<string, Markers>, store': map<string, Markers>)
    requires HostOk(id, h, intents, store)
    requires store'.Keys == store.Keys
    requires forall e :: e in store ==> GrowsFor(id, store[e], store'[e])
    ensures HostOk(id, h, intents, store')
  {
    hide EpochOk; hide ValidSnapshot; hide Within; hide OwnShape; hide TickOk;
    forall e | e in intents ensures EpochOk(id, h, e, intents[e], store'[e]) {
      EpochOkGrows(id, h, e, intents[e], store[e], store'[e]);
    }
  }
}
