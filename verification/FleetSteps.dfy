/** Every step of the fleet keeps the invariant. */
module FleetSteps {
  import opened Base
  import opened MarkerNames
  import opened Epoch
  import opened Fleet
  import opened FleetInvariant

  /** What the markers and records of a host depend on. */
  predicate SameRecord(h: Host, h': Host) {
    h'.record == h.record && h'.loaded == h.loaded && h'.under == h.under && h'.seen == h.seen
  }

  lemma EpochsUndisturbed(id: string, h: Host, h': Host, intents: map<string, Intent>, store: map<string, Markers>)
    requires HostOk(id, h, intents, store) && SameRecord(h, h')
    ensures forall e :: e in intents ==> EpochOk(id, h', e, intents[e], store[e])
  {
    forall e | e in intents ensures EpochOk(id, h', e, intents[e], store[e]) {
      assert EpochOk(id, h, e, intents[e], store[e]);
      assert Seen(h', e) == Seen(h, e);
    }
  }

  lemma OutsideKeeps(id: string, h: Host, ev: Event, intents: map<string, Intent>, store: map<string, Markers>)
    requires HostOk(id, h, intents, store) && Outside(h, ev).Some?
    ensures HostOk(id, Outside(h, ev).value, intents, store)
  {
    hide EpochOk; hide ValidSnapshot; hide Steered; hide Within; hide OwnShape;
    var h' := Outside(h, ev).value;
    EpochsUndisturbed(id, h, h', intents, store);
    assert forall e :: Seen(h', e) == Seen(h, e);
  }

  lemma LearnKeepsEpoch(id: string, h: Host, h': Host, e: string, i: Intent, ms: Markers, v: View)
    requires EpochOk(id, h, e, i, ms) && h' == h.(seen := h'.seen) && Seen(h', e) == v.markers
    requires Within(Seen(h, e), v.markers) && Within(v.markers, ms) && ValidSnapshot(i, v.markers, v.live)
    ensures EpochOk(id, h', e, i, ms)
  {
    SnapshotProves(i, v.markers, v.live, ms);
    hide ValidSnapshot; hide OwnShape;
    hide ActivationProved; hide RollbackProved; hide ResumeProved; hide TerminalProved;
  }

  /** Learning a view keeps everything said of the epochs. */
  lemma LearnKeeps(id: string, h: Host, s: State, e: string, v: View)
    requires HostOk(id, h, s.intents, s.store) && Readable(s, h, e, v)
    ensures forall d :: d in s.intents ==>
              EpochOk(id, h.(seen := h.seen[e := v.markers]), d, s.intents[d], s.store[d])
  {
    hide EpochOk; hide PcOk; hide ValidSnapshot; hide Within;
    var h' := h.(seen := h.seen[e := v.markers]);
    forall d | d in s.intents ensures EpochOk(id, h', d, s.intents[d], s.store[d]) {
      if d == e {
        LearnKeepsEpoch(id, h, h', e, s.intents[e], s.store[e], v);
      } else {
        EpochElsewhere(id, h, h', d, s.intents[d], s.store[d]);
      }
    }
  }

  /** A host that has seen more is steered as before. */
  lemma SteeredLearns(id: string, i: Intent, seen: Markers, seen': Markers, ms: Markers, x: string)
    requires Steered(id, i, seen, ms, x) && Within(seen, seen')
    ensures Steered(id, i, seen', ms, x)
  {
  }

  /** Direction agreement: a steered host can only meet a resume for the same generation. */
  lemma SteeredResumeAgrees(id: string, i: Intent, v: View, ms: Markers, x: string)
    requires ValidSnapshot(i, v.markers, v.live) && Within(v.markers, ms)
    requires Steered(id, i, v.markers, ms, x) && RESUME in v.markers
    ensures v.markers[RESUME].generation == Some(x)
  {
    assert ValidMarker(RESUME, v.markers[RESUME], i);
    hide ValidIntent; hide Observed; hide NonBlank; hide Number;
    if v.markers[RESUME].direction.value.Backward? {
      assert HostSlot(id, RolledBack) in v.markers;
    }
  }

  /** `h'` is `h` at another point of its tick. */
  predicate SameButPc(h: Host, h': Host) {
    h' == h.(pc := h'.pc, loaded := h'.loaded)
  }

  lemma EpochsAtAnyPc(id: string, h: Host, h': Host, intents: map<string, Intent>, store: map<string, Markers>)
    requires store.Keys == intents.Keys && SameButPc(h, h')
    requires forall e :: e in intents ==> EpochOk(id, h, e, intents[e], store[e])
    ensures forall e :: e in intents ==> EpochOk(id, h', e, intents[e], store[e])
  {
    forall e | e in intents ensures EpochOk(id, h', e, intents[e], store[e]) {
      assert EpochOk(id, h, e, intents[e], store[e]);
      assert Seen(h', e) == Seen(h, e);
    }
  }

  /** A marker handed to `_post_epoch_marker` for a good cause is posted for it. */
  lemma SubmitOk(id: string, h: Host, intents: map<string, Intent>, store: map<string, Markers>, e: string, v: View,
                 phase: HostPhase, x: string, facts: Facts, after: After)
    requires store.Keys == intents.Keys && ViewOk(h, e, v, intents)
    requires Names(h.record, e) && Names(h.loaded, e) && Cause(id, h, e, intents[e], store[e], phase, x, after)
    ensures var h' := Submit(h, intents[e], e, v, HostMarker(intents[e], id, phase, x, facts), after);
            SameButPc(h, h') && PcOk(id, h', intents, store)
  {
    hide ValidSnapshot; hide Steered; hide Within; hide ValidHostMarker; hide ValidDecision; hide ValidIntent;
    var m := HostMarker(intents[e], id, phase, x, facts);
    var h' := Submit(h, intents[e], e, v, m, after);
    assert SlotOf(m) == Some(HostSlot(id, phase));
    assert Seen(h', e) == Seen(h, e);
  }

  /** The stored marker a poster meets states what it is about to state. */
  lemma OwnMarkersAgree(id: string, h: Host, e: string, i: Intent, ms: Markers, m: Marker, after: After)
    requires EpochOk(id, h, e, i, ms) && PostOk(id, h, e, i, ms, m, after) && ValidIntent(i)
    requires HostSlot(id, m.phase.host) in ms && !after.AfterFailed?
    ensures SameIdentity(ms[HostSlot(id, m.phase.host)], m)
  {
    var phase := m.phase.host;
    assert OwnShape(i, id, phase, ms[HostSlot(id, phase)]);
    if after.AfterResumed? {
      assert Seen(h, e)[RESUME] == ms[RESUME];
    }
  }

  lemma ContinueOk(id: string, h: Host, intents: map<string, Intent>, store: map<string, Markers>, e: string,
                   m: Marker, after: After)
    requires store.Keys == intents.Keys && e in intents
    requires PostOk(id, h, e, intents[e], store[e], m, after)
    ensures SameButPc(h, Continue(h, e, after)) && PcOk(id, Continue(h, e, after), intents, store)
  {
    assert Seen(Continue(h, e, after), e) == Seen(h, e);
  }

  /** A read at `h0`, which knows `v` as `h`. */
  ghost predicate Reads(s: State, id: string, h0: Host, h: Host, e: string, v: View) {
    && s.store.Keys == s.intents.Keys && Readable(s, h0, e, v)
    && PcOk(id, h0, s.intents, s.store)
    && h == h0.(seen := h0.seen[e := v.markers])
    && EpochOk(id, h, e, s.intents[e], s.store[e])
  }

  /** The tick goes on from `h` at a point where `PcOk` holds. */
  ghost predicate GoesOn(s: State, id: string, h: Host, h': Host) {
    s.store.Keys == s.intents.Keys && SameButPc(h, h') && PcOk(id, h', s.intents, s.store)
  }

  lemma CauseLearns(id: string, h0: Host, h: Host, e: string, i: Intent, ms: Markers, phase: HostPhase,
                    generation: string, after: After)
    requires Cause(id, h0, e, i, ms, phase, generation, after)
    requires h == h0.(seen := h.seen) && Within(Seen(h0, e), Seen(h, e))
    ensures Cause(id, h, e, i, ms, phase, generation, after)
  {
  }

  lemma ReadAfterPost(s: State, id: string, h0: Host, h: Host, e: string, v: View, facts: Facts)
    requires Reads(s, id, h0, h, e, v) && h0.pc.Posted? && h0.pc.epoch == e
    ensures var h' := AfterRead(h, id, s.intents[e], e, v, facts); h'.Some? && GoesOn(s, id, h, h'.value)
  {
    hide ValidSnapshot; hide EpochOk; hide OwnShape; hide Steered;
    var i, ms, m, after := s.intents[e], s.store[e], h0.pc.marker, h0.pc.after;
    var slot := HostSlot(id, m.phase.host);
    assert Seen(h, e) == v.markers;
    PostLearns(id, h0, h, e, i, ms, m, after);
    OwnSlot(i, id, m);
    assert slot in v.markers && v.markers[slot] == ms[slot];
    hide Within;
    if !after.AfterFailed? {
      assert ValidIntent(i) by { SnapshotIntent(i, v); }
      OwnMarkersAgree(id, h, e, i, ms, m, after);
    }
    ContinueOk(id, h, s.intents, s.store, e, m, after);
  }

  lemma SnapshotIntent(i: Intent, v: View)
    requires ValidSnapshot(i, v.markers, v.live)
    ensures ValidIntent(i)
  {
  }

  lemma PostLearns(id: string, h0: Host, h: Host, e: string, i: Intent, ms: Markers, m: Marker, after: After)
    requires PostOk(id, h0, e, i, ms, m, after) && h == h0.(seen := h.seen) && Within(Seen(h0, e), Seen(h, e))
    ensures PostOk(id, h, e, i, ms, m, after)
  {
    hide ValidMarker; hide Cause;
    CauseLearns(id, h0, h, e, i, ms, m.phase.host, m.generation.value, after);
  }

  lemma ReadForResume(s: State, id: string, h0: Host, h: Host, e: string, v: View, facts: Facts)
    requires Reads(s, id, h0, h, e, v) && h0.pc.Refreshing? && h0.pc.epoch == e && h0.pc.after.AfterPhase?
    ensures var h' := AfterRead(h, id, s.intents[e], e, v, facts); h'.Some? && GoesOn(s, id, h, h'.value)
  {
    hide ValidSnapshot; hide EpochOk;
    var x := h0.pc.after.expected;
    assert Seen(h, e) == v.markers;
    SteeredLearns(id, s.intents[e], Seen(h0, e), v.markers, s.store[e], x);
    if RESUME in v.markers {
      SteeredResumeAgrees(id, s.intents[e], v, s.store[e], x);
    }
  }

  lemma ReadThenDrain(s: State, id: string, h0: Host, h: Host, e: string, v: View, facts: Facts)
    requires Reads(s, id, h0, h, e, v) && h0.pc.DrainProved? && h0.pc.epoch == e
    ensures var h' := AfterRead(h, id, s.intents[e], e, v, facts); h'.Some? && GoesOn(s, id, h, h'.value)
  {
    hide ValidSnapshot; hide EpochOk; hide Submit; hide Within;
    SelfWithin(v.markers);
    SubmitOk(id, h, s.intents, s.store, e, v, Drained, s.intents[e].source, h0.pc.facts, AfterDrained(h0.pc.version));
  }

  lemma ReadThenTurn(s: State, id: string, h0: Host, h: Host, e: string, v: View, facts: Facts)
    requires Reads(s, id, h0, h, e, v) && h0.pc.Turned? && h0.pc.epoch == e
    ensures var h' := AfterRead(h, id, s.intents[e], e, v, facts); h'.Some? && GoesOn(s, id, h, h'.value)
  {
    hide ValidSnapshot; hide EpochOk; hide Submit; hide Within; hide Steered;
    SelfWithin(v.markers);
    var x := h0.pc.expected;
    SteeredLearns(id, s.intents[e], Seen(h0, e), v.markers, s.store[e], x);
    SubmitOk(id, h, s.intents, s.store, e, v, h0.pc.phase, x, h0.pc.facts, AfterPhase(x));
  }

  lemma ReadThenAnnounce(s: State, id: string, h0: Host, h: Host, e: string, v: View, facts: Facts)
    requires Reads(s, id, h0, h, e, v) && h0.pc.Announcing? && h0.pc.epoch == e
    ensures var h' := AfterRead(h, id, s.intents[e], e, v, facts); h'.Some? && GoesOn(s, id, h, h'.value)
  {
    hide ValidSnapshot; hide EpochOk; hide Submit;
    assert Seen(h, e) == v.markers && Within(Seen(h0, e), v.markers);
    SubmitOk(id, h, s.intents, s.store, e, v, Resumed, h0.pc.expected, facts, AfterResumed);
  }

  lemma SelfWithin(ms: Markers)
    ensures Within(ms, ms)
  {
  }

  lemma ReadToLook(s: State, id: string, h0: Host, h: Host, e: string, v: View, facts: Facts)
    requires Reads(s, id, h0, h, e, v) && AfterRead(h, id, s.intents[e], e, v, facts).Some?
    requires h0.pc.Entered? || h0.pc.Installed? || h0.pc.Proved? || (h0.pc.Refreshing? && h0.pc.after.AfterDrained?)
    ensures GoesOn(s, id, h, AfterRead(h, id, s.intents[e], e, v, facts).value)
  {
    hide ValidSnapshot; hide EpochOk;
    var h' := AfterRead(h, id, s.intents[e], e, v, facts).value;
    assert Seen(h', e) == v.markers && Within(Seen(h0, e), v.markers);
    assert ViewOk(h', e, v, s.intents);
  }

  /** The points of a tick at which a read happens. */
  lemma ReadPcs(h0: Host, h: Host, id: string, i: Intent, e: string, v: View, facts: Facts)
    requires AfterRead(h, id, i, e, v, facts).Some? && h.pc == h0.pc
    ensures h0.pc.Posted? || h0.pc.Refreshing? || h0.pc.DrainProved? || h0.pc.Turned? || h0.pc.Announcing?
            || h0.pc.Entered? || h0.pc.Installed? || h0.pc.Proved?
    ensures !h0.pc.Entered? ==> h0.pc.epoch == e
    ensures h0.pc.Refreshing? ==> h0.pc.after.AfterPhase? || h0.pc.after.AfterDrained?
  {
    hide ValidMarker;
  }

  lemma ReadKeeps(s: State, id: string, e: string, v: View, facts: Facts)
    requires Inv(s) && id in s.hosts && Readable(s, s.hosts[id], e, v)
    requires HostStep(s, id, Read(e, v, facts)).Some?
    ensures HostOk(id, HostStep(s, id, Read(e, v, facts)).value, s.intents, s.store)
  {
    hide ValidSnapshot; hide Within; hide EpochOk; hide PcOk; hide AfterRead;
    var h0 := s.hosts[id];
    var h := h0.(seen := h0.seen[e := v.markers]);
    LearnKeeps(id, h0, s, e, v);
    ReadPcs(h0, h, id, s.intents[e], e, v, facts);
    if h0.pc.Posted? {
      ReadAfterPost(s, id, h0, h, e, v, facts);
    } else if h0.pc.Refreshing? && h0.pc.after.AfterPhase? {
      ReadForResume(s, id, h0, h, e, v, facts);
    } else if h0.pc.DrainProved? {
      ReadThenDrain(s, id, h0, h, e, v, facts);
    } else if h0.pc.Turned? {
      ReadThenTurn(s, id, h0, h, e, v, facts);
    } else if h0.pc.Announcing? {
      ReadThenAnnounce(s, id, h0, h, e, v, facts);
    } else {
      ReadToLook(s, id, h0, h, e, v, facts);
    }
    EpochsAtAnyPc(id, h, AfterRead(h, id, s.intents[e], e, v, facts).value, s.intents, s.store);
  }

  // ---- The agent's other steps ---------------------------------------------------------

  /** The host after its marker `m` has been linked, or found in place. */
  ghost predicate Links(id: string, h: Host, h': Host, e: string, ms: Markers, m: Marker)
    requires m.phase.OfHost?
  {
    var slot := HostSlot(id, m.phase.host);
    h' == h.(pc := h'.pc, seen := h.seen[e := Seen(h, e)[slot := Linked(ms, slot, m)[slot]]])
  }

  /** Linking one's own marker for a good cause keeps what is said of the epoch. */
  lemma LinkKeepsEpoch(id: string, h: Host, h': Host, e: string, i: Intent, ms: Markers, m: Marker, after: After)
    requires EpochOk(id, h, e, i, ms) && PostOk(id, h, e, i, ms, m, after) && Links(id, h, h', e, ms, m)
    ensures EpochOk(id, h', e, i, Linked(ms, HostSlot(id, m.phase.host), m))
  {
    assert i.source != i.target;
    hide ValidMarker; hide OwnShape; hide Saw;
    var slot := HostSlot(id, m.phase.host);
    var ms' := Linked(ms, slot, m);
    assert Within(ms, ms');
    assert Seen(h', e) == Seen(h, e)[slot := ms'[slot]];
    ProofsGrow(i, ms, ms');
  }

  /** And the cause stands. */
  lemma LinkKeepsCause(id: string, h: Host, h': Host, e: string, i: Intent, ms: Markers, m: Marker, after: After)
    requires EpochOk(id, h, e, i, ms) && PostOk(id, h, e, i, ms, m, after) && Links(id, h, h', e, ms, m)
    ensures PostOk(id, h', e, i, Linked(ms, HostSlot(id, m.phase.host), m), m, after)
  {
    assert i.source != i.target;
    SeenInStore(id, h, e, i, ms);
    hide OwnShape; hide EpochOk;
    var slot := HostSlot(id, m.phase.host);
    assert Seen(h', e) == Seen(h, e)[slot := Linked(ms, slot, m)[slot]];
  }

  /** A host with its own facts in order, against the state it steps from. */
  ghost predicate Ready(s: State, id: string, h: Host) {
    HostOk(id, h, s.intents, s.store)
  }

  lemma DrainSteps(s: State, id: string, h: Host, h': Host)
    requires Ready(s, id, h) && SameRecord(h, h') && PcOk(id, h', s.intents, s.store)
    ensures HostOk(id, h', s.intents, s.store)
  {
    hide EpochOk; hide PcOk;
    EpochsUndisturbed(id, h, h', s.intents, s.store);
  }

  lemma SameView(h: Host, h': Host, e: string, v: View, intents: map<string, Intent>)
    requires h'.seen == h.seen
    ensures ViewOk(h, e, v, intents) <==> ViewOk(h', e, v, intents)
    ensures ViewOk(h, e, v, intents) ==> e in intents
  {
    assert Seen(h', e) == Seen(h, e);
  }

  lemma DrainOpenedKeeps(s: State, id: string, h: Host)
    requires Ready(s, id, h) && DrainOpened(s, h, id).Some?
    ensures HostOk(id, DrainOpened(s, h, id).value, s.intents, s.store)
  {
    hide EpochOk; hide ViewOk; hide PostOk; hide Steered;
    var h' := DrainOpened(s, h, id).value;
    if h.pc.Active? || h.pc.Desired? || h.pc.Reheld? {
      SameView(h, h', h.pc.epoch, h.pc.view, s.intents);
    }
    DrainSteps(s, id, h, h');
  }

  lemma InstallKeeps(s: State, id: string, h: Host, ok: bool)
    requires Ready(s, id, h)
    ensures InstallDone(h, ok).Some? ==> HostOk(id, InstallDone(h, ok).value, s.intents, s.store)
    ensures JournalRecovered(h, ok).Some? ==> HostOk(id, JournalRecovered(h, ok).value, s.intents, s.store)
  {
    hide EpochOk; hide ValidSnapshot;
    if InstallDone(h, ok).Some? {
      DrainSteps(s, id, h, InstallDone(h, ok).value);
    }
    if JournalRecovered(h, ok).Some? {
      DrainSteps(s, id, h, JournalRecovered(h, ok).value);
    }
  }

  lemma SeenInStore(id: string, h: Host, e: string, i: Intent, ms: Markers)
    requires EpochOk(id, h, e, i, ms)
    ensures Within(Seen(h, e), ms)
  {
  }

  /** A marker that is already in the view is not linked again, and never conflicts. */
  lemma RepostKeeps(s: State, id: string, h: Host)
    requires Ready(s, id, h) && h.pc.Posting?
    requires HostSlot(id, h.pc.marker.phase.host) in h.pc.view.markers
    ensures LinkMade(h, s.store).Some? && GoesOn(s, id, h, LinkMade(h, s.store).value)
  {
    hide Coherent; hide ValidMarker; hide EpochOk; hide Steered; hide OwnShape;
    var e, v, m, after := h.pc.epoch, h.pc.view, h.pc.marker, h.pc.after;
    var slot := HostSlot(id, m.phase.host);
    OwnSlot(s.intents[e], id, m);
    SeenInStore(id, h, e, s.intents[e], s.store[e]);
    assert v.markers[slot] == s.store[e][slot];
    if !after.AfterFailed? {
      OwnMarkersAgree(id, h, e, s.intents[e], s.store[e], m, after);
    }
    ContinueOk(id, h, s.intents, s.store, e, m, after);
  }

  /** The step that links a marker: the host afterwards, against the store afterwards. */
  lemma LinkKeeps(s: State, id: string)
    requires id in s.hosts && Ready(s, id, s.hosts[id]) && s.hosts[id].pc.Posting?
    ensures var st := Store(s, id, Link);
            var h' := LinkMade(s.hosts[id], st);
            h'.Some? && HostOk(id, h'.value, s.intents, st)
  {
    hide ValidSnapshot;
    var h := s.hosts[id];
    var e, v, m, after := h.pc.epoch, h.pc.view, h.pc.marker, h.pc.after;
    var slot := HostSlot(id, m.phase.host);
    var st := Store(s, id, Link);
    assert SlotOf(m) == Some(slot);
    if slot in v.markers {
      RepostKeeps(s, id, h);
      EpochsAtAnyPc(id, h, LinkMade(h, st).value, s.intents, st);
    } else {
      NewLinkKeeps(s, id, h);
    }
  }

  lemma NewLinkKeeps(s: State, id: string, h: Host)
    requires Ready(s, id, h) && h.pc.Posting?
    requires HostSlot(id, h.pc.marker.phase.host) !in h.pc.view.markers
    ensures var slot := HostSlot(id, h.pc.marker.phase.host);
            var st := s.store[h.pc.epoch := Linked(s.store[h.pc.epoch], slot, h.pc.marker)];
            var h' := LinkMade(h, st);
            h'.Some? && HostOk(id, h'.value, s.intents, st)
  {
    hide ValidSnapshot; hide OwnShape; hide Cause; hide EpochOk;
    var e, m, after := h.pc.epoch, h.pc.marker, h.pc.after;
    var slot := HostSlot(id, m.phase.host);
    var ms := s.store[e];
    var st := s.store[e := Linked(ms, slot, m)];
    assert SlotOf(m) == Some(slot) by { OwnSlot(s.intents[e], id, m); }
    var h' := LinkMade(h, st).value;
    assert EpochOk(id, h, e, s.intents[e], ms);
    LinkKeepsEpoch(id, h, h', e, s.intents[e], ms, m, after);
    LinkKeepsCause(id, h, h', e, s.intents[e], ms, m, after);
    forall d | d in s.intents ensures EpochOk(id, h', d, s.intents[d], st[d]) {
      if d != e {
        EpochElsewhere(id, h, h', d, s.intents[d], s.store[d]);
      }
    }
    assert slot in Seen(h', e);
  }

  lemma OwnSlot(i: Intent, id: string, m: Marker)
    requires m.phase.OfHost? && OwnShape(i, id, m.phase.host, m)
    ensures SlotOf(m) == Some(HostSlot(id, m.phase.host))
  {
  }

  lemma EpochElsewhere(id: string, h: Host, h': Host, d: string, i: Intent, ms: Markers)
    requires EpochOk(id, h, d, i, ms)
    requires h' == h.(pc := h'.pc, seen := h'.seen) && Seen(h', d) == Seen(h, d)
    ensures EpochOk(id, h', d, i, ms)
  {
  }

  /** A record write, as one epoch sees it. */
  lemma RecordChanges(id: string, h: Host, h': Host, e: string, i: Intent, ms: Markers)
    requires EpochOk(id, h, e, i, ms)
    requires h' == h.(pc := h'.pc, record := h'.record, loaded := h'.loaded)
    requires Names(h.record, e) <==> Names(h'.record, e)
    requires h.record == Held(e) && h'.record == Released(e) ==> OpenedUnder(h, e)
    ensures EpochOk(id, h', e, i, ms)
  {
    hide OwnShape; hide ActivationProved; hide RollbackProved; hide ResumeProved; hide TerminalProved; hide SeenProves;
    assert Seen(h', e) == Seen(h, e);
  }

  /** Joining an epoch the host has not finished, as one epoch sees it. */
  lemma JoinChanges(id: string, h: Host, h': Host, e: string, i: Intent, ms: Markers)
    requires EpochOk(id, h, e, i, ms) && h.record.NoRecord?
    requires h' == h.(pc := h'.pc, record := h'.record, loaded := h'.loaded) && h'.record.Held?
    ensures EpochOk(id, h', e, i, ms)
  {
    hide OwnShape; hide ActivationProved; hide RollbackProved; hide ResumeProved; hide TerminalProved; hide SeenProves;
    assert Seen(h', e) == Seen(h, e);
  }

  /** Writes of the local record. */
  lemma PersistKeeps(s: State, id: string, h: Host)
    requires Ready(s, id, h) && Persisted(h).Some?
    ensures HostOk(id, Persisted(h).value, s.intents, s.store)
  {
    hide ValidSnapshot; hide EpochOk;
    var h' := Persisted(h).value;
    forall e | e in s.intents ensures EpochOk(id, h', e, s.intents[e], s.store[e]) {
      if h.pc.Joining? {
        JoinChanges(id, h, h', e, s.intents[e], s.store[e]);
      } else {
        RecordChanges(id, h, h', e, s.intents[e], s.store[e]);
      }
    }
    assert forall e :: Seen(h', e) == Seen(h, e);
  }

  lemma CleanUpKeeps(s: State, id: string, h: Host, h': Host)
    requires Ready(s, id, h) && (h.pc.Active? || h.pc.Desired?) && TERMINAL in h.pc.view.markers
    requires h' == h.(record := NoRecord, pc := Idle)
    ensures HostOk(id, h', s.intents, s.store)
  {
    hide ValidSnapshot; hide EpochOk; hide PostOk; hide Steered;
    var d, v := h.pc.epoch, h.pc.view;
    SeenInStore(id, h, d, s.intents[d], s.store[d]);
    SnapshotProves(s.intents[d], v.markers, v.live, s.store[d]);
    forall e | e in s.intents ensures EpochOk(id, h', e, s.intents[e], s.store[e]) {
      CleanUpChanges(id, h, h', e, s.intents[e], s.store[e]);
    }
  }

  /** The removal of a finished epoch's record, as one epoch sees it. */
  lemma CleanUpChanges(id: string, h: Host, h': Host, e: string, i: Intent, ms: Markers)
    requires EpochOk(id, h, e, i, ms) && h' == h.(record := NoRecord, pc := Idle)
    requires Names(h.record, e) ==> TerminalProved(i, ms)
    ensures EpochOk(id, h', e, i, ms)
  {
    hide OwnShape; hide ActivationProved; hide RollbackProved; hide ResumeProved; hide TerminalProved; hide SeenProves;
    assert Seen(h', e) == Seen(h, e);
  }

  /** Opening admission, as one epoch sees it. */
  lemma OpenChanges(id: string, h: Host, h': Host, e: string, i: Intent, ms: Markers)
    requires EpochOk(id, h, e, i, ms)
    requires h' == h.(pc := h'.pc, gate := h'.gate, under := h'.under)
    requires h.record.NoRecord? || h.record.Held?
    requires h.record == Held(e) ==> OpenedUnder(h', e)
    requires OpenedUnder(h', e) ==> h.record == Held(e) && RESUME in Seen(h, e)
                                    && Seen(h, e)[RESUME].generation == Some(h'.under.value.generation)
    ensures EpochOk(id, h', e, i, ms)
  {
    hide OwnShape; hide ActivationProved; hide RollbackProved; hide TerminalProved;
    assert Seen(h', e) == Seen(h, e);
  }

  lemma CloseKeeps(s: State, id: string, h: Host, healthy: bool)
    requires Ready(s, id, h) && DrainClosed(h, healthy).Some?
    ensures HostOk(id, DrainClosed(h, healthy).value, s.intents, s.store)
  {
    hide ValidSnapshot; hide EpochOk;
    var h' := DrainClosed(h, healthy).value;
    assert forall e :: Seen(h', e) == Seen(h, e);
    if SameButPc(h, h') && h'.under == h.under {
      EpochsAtAnyPc(id, h, h', s.intents, s.store);
    } else {
      forall e | e in s.intents ensures EpochOk(id, h', e, s.intents[e], s.store[e]) {
        OpenChanges(id, h, h', e, s.intents[e], s.store[e]);
      }
    }
  }

  /** The decision table only ever steers a host. */
  lemma DecideKeeps(s: State, id: string, h: Host, matching: bool)
    requires Ready(s, id, h) && h.pc.Deciding?
    ensures Decided(s, h, matching).Some? && GoesOn(s, id, h, Decided(s, h, matching).value)
  {
    hide EpochOk; hide ValidSnapshot; hide Choose; hide Steered;
    var e, v := h.pc.epoch, h.pc.view;
    ChoiceSteers(id, h, e, s.intents[e], s.store[e], v);
    var h' := Decided(s, h, matching).value;
    assert Seen(h', e) == Seen(h, e);
  }

  lemma ChoiceSteers(id: string, h: Host, e: string, i: Intent, ms: Markers, v: View)
    requires EpochOk(id, h, e, i, ms) && ValidSnapshot(i, v.markers, v.live) && id in i.roster
    requires Within(v.markers, Seen(h, e)) && Within(Seen(h, e), v.markers)
    ensures var c := Choose(i, v.markers);
            c.Advance? ==> Steered(id, i, Seen(h, e), ms, c.expected) && c.phase == PhaseTo(i, c.expected)
  {
    hide ValidMarker; hide OwnShape; hide SeenProves; hide Saw;
    hide ActivationProved; hide RollbackProved; hide ResumeProved; hide TerminalProved;
  }

  lemma EvidenceKeeps(s: State, id: string, h: Host, parked: bool, facts: Facts)
    requires Ready(s, id, h) && h.pc.Closed?
    ensures var h' := DrainEvidence(s, h, id, parked, facts); h'.Some? && GoesOn(s, id, h, h'.value)
  {
    hide ValidSnapshot; hide EpochOk; hide Submit;
    var e, v, i := h.pc.epoch, h.pc.view, s.intents[h.pc.epoch];
    if parked && h.pc.scopes == 0 {
      SubmitOk(id, h, s.intents, s.store, e, v, Drained, i.source, facts, AfterDrained(h.pc.version));
    }
  }

  lemma CheckGateKeeps(s: State, id: string, h: Host, facts: Facts)
    requires Ready(s, id, h) && GateChecked(s, h, id, facts).Some?
    ensures HostOk(id, GateChecked(s, h, id, facts).value, s.intents, s.store)
  {
    hide ValidSnapshot; hide EpochOk; hide Submit;
    var h' := GateChecked(s, h, id, facts).value;
    var e, v := h.pc.epoch, h.pc.view;
    if h.pc.Desired? && id in s.intents[e].roster && TERMINAL in v.markers {
      CleanUpKeeps(s, id, h, h');
    } else {
      if h.pc.Desired? && ResumeSeen(v.markers, v.live) {
        assert ResumeSeen(Seen(h, e), v.live);
        SubmitOk(id, h, s.intents, s.store, e, v, Resumed, v.live, facts, AfterResumed);
      }
      assert forall d :: Seen(h', d) == Seen(h, d);
      assert GoesOn(s, id, h, h');
      EpochsAtAnyPc(id, h, h', s.intents, s.store);
    }
  }

  lemma InEpochNames(s: State, id: string, h: Host)
    requires Ready(s, id, h) && InEpoch(h.pc)
    ensures h.pc.epoch in s.intents && Names(h.record, h.pc.epoch) && Names(h.loaded, h.pc.epoch)
    ensures s.store.Keys == s.intents.Keys
  {
    hide EpochOk; hide ValidSnapshot; hide Steered; hide Within; hide Cause; hide OwnShape;
  }

  /** The remaining steps of the agent only move it along. */
  lemma MoveKeeps(s: State, id: string, h: Host, ev: Event)
    requires Ready(s, id, h) && MovedOn(s, h, ev).Some?
    ensures GoesOn(s, id, h, MovedOn(s, h, ev).value)
  {
    hide EpochOk; hide ValidSnapshot; hide PostOk; hide Steered; hide Within;
    var h' := MovedOn(s, h, ev).value;
    if ev.Raise? && !h.pc.Joining? {
      RaiseKeeps(s, id, h);
    } else {
      assert forall e :: Seen(h', e) == Seen(h, e);
    }
  }

  lemma RaiseKeeps(s: State, id: string, h: Host)
    requires Ready(s, id, h) && InEpoch(h.pc)
    ensures GoesOn(s, id, h, h.(pc := Raised(h.pc.epoch, OtherFault)))
  {
    hide HostOk;
    InEpochNames(s, id, h);
  }

  lemma CensusKeeps(s: State, id: string, h: Host, ok: bool, facts: Facts)
    requires Ready(s, id, h) && CensusTaken(h, ok, facts).Some?
    ensures GoesOn(s, id, h, CensusTaken(h, ok, facts).value)
  {
    hide EpochOk; hide ValidSnapshot;
    var h' := CensusTaken(h, ok, facts).value;
    assert forall e :: Seen(h', e) == Seen(h, e);
  }

  /** Reporting a failure reads the epoch again and posts at most a `failed` marker. */
  lemma ReportKeeps(s: State, id: string, h: Host, v: View, generation: string, facts: Facts)
    requires Ready(s, id, h) && h.pc.Raised? && Readable(s, h, h.pc.epoch, v)
    ensures var e := h.pc.epoch;
            var h1 := h.(seen := h.seen[e := v.markers]);
            HostOk(id, Submit(h1, s.intents[e], e, v, HostMarker(s.intents[e], id, Failed, generation, facts), AfterFailed),
                   s.intents, s.store)
  {
    hide ValidSnapshot; hide EpochOk; hide Submit;
    var e := h.pc.epoch;
    var h1 := h.(seen := h.seen[e := v.markers]);
    LearnKeeps(id, h, s, e, v);
    assert Seen(h1, e) == v.markers;
    assert ViewOk(h1, e, v, s.intents);
    SubmitOk(id, h1, s.intents, s.store, e, v, Failed, generation, facts, AfterFailed);
    EpochsAtAnyPc(id, h1, Submit(h1, s.intents[e], e, v, HostMarker(s.intents[e], id, Failed, generation, facts), AfterFailed),
                  s.intents, s.store);
  }

  /** The agent's own steps, against the store after them. */
  lemma AgentKeeps(s: State, id: string, ev: Event)
    requires id in s.hosts && Ready(s, id, s.hosts[id])
    requires Agent(s, s.hosts[id], id, ev, Store(s, id, ev)).Some?
    ensures HostOk(id, Agent(s, s.hosts[id], id, ev, Store(s, id, ev)).value, s.intents, Store(s, id, ev))
  {
    hide HostOk;
    var h := s.hosts[id];
    if ev.Persist? {
      PersistKeeps(s, id, h);
    } else if ev.CleanUp? {
      CleanUpKeeps(s, id, h, CleanedUp(h).value);
    } else if ev.OpenDrain? {
      DrainOpenedKeeps(s, id, h);
    } else if ev.CloseDrain? {
      CloseKeeps(s, id, h, ev.healthy);
    } else if ev.Recover? {
      InstallKeeps(s, id, h, ev.active);
    } else if ev.Install? {
      InstallKeeps(s, id, h, ev.ok);
    } else if ev.CheckGate? {
      CheckGateKeeps(s, id, h, ev.facts);
    } else if ev.Link? {
      LinkKeeps(s, id);
    } else if ev.Evidence? {
      EvidenceKeeps(s, id, h, ev.parked, ev.facts);
      GoesOnKeeps(s, id, h, DrainEvidence(s, h, id, ev.parked, ev.facts).value);
    } else if ev.Decide? {
      DecideKeeps(s, id, h, ev.matching);
      GoesOnKeeps(s, id, h, Decided(s, h, ev.matching).value);
    } else if ev.Census? {
      CensusKeeps(s, id, h, ev.ok, ev.facts);
      GoesOnKeeps(s, id, h, CensusTaken(h, ev.ok, ev.facts).value);
    } else {
      MoveKeeps(s, id, h, ev);
      GoesOnKeeps(s, id, h, MovedOn(s, h, ev).value);
    }
  }

  lemma GoesOnKeeps(s: State, id: string, h: Host, h': Host)
    requires Ready(s, id, h) && GoesOn(s, id, h, h')
    ensures HostOk(id, h', s.intents, s.store)
  {
    hide EpochOk; hide PcOk;
    EpochsAtAnyPc(id, h, h', s.intents, s.store);
  }

  lemma HostStepKeeps(s: State, id: string, ev: Event)
    requires Inv(s) && id in s.hosts && HostStep(s, id, ev).Some?
    ensures HostOk(id, HostStep(s, id, ev).value, s.intents, Store(s, id, ev))
  {
    hide HostOk; hide Agent; hide AfterRead;
    var h := s.hosts[id];
    assert Ready(s, id, h) by { hide *; ReadyHost(s, id); }
    if Outside(h, ev).Some? {
      OutsideKeeps(id, h, ev, s.intents, s.store);
    } else if ev.Read? {
      ReadKeeps(s, id, ev.epoch, ev.view, ev.facts);
    } else if ev.Report? {
      ReportKeeps(s, id, h, ev.view, ev.generation, ev.facts);
    } else {
      AgentKeeps(s, id, ev);
    }
  }

  lemma ReadyHost(s: State, id: string)
    requires Inv(s) && id in s.hosts
    ensures Ready(s, id, s.hosts[id])
  {
  }

  /** A host's step adds nothing but its own markers to the store. */
  lemma StoreGrows(s: State, id: string, ev: Event, other: string)
    requires Inv(s) && id in s.hosts && other != id
    ensures Store(s, id, ev).Keys == s.store.Keys
    ensures forall e :: e in s.store ==> GrowsFor(other, s.store[e], Store(s, id, ev)[e])
    ensures forall e, who, p :: e in s.store && HostSlot(who, p) in Store(s, id, ev)[e] ==>
              who == id || HostSlot(who, p) in s.store[e]
  {
    hide EpochOk; hide ValidSnapshot;
    var h := s.hosts[id];
    ReadyHost(s, id);
    if h.pc.Posting? && ev.Link? {
      OwnSlot(s.intents[h.pc.epoch], id, h.pc.marker);
    }
  }

  /** Every step keeps the invariant, whatever the coordinator does. */
  lemma StepKeeps(s: State, l: Label, s': State)
    requires Inv(s) && Step(s, l, s')
    ensures Inv(s')
  {
    hide HostOk; hide HostStep; hide Store;
    match l {
      case OfHost(id, ev) =>
        HostStepKeeps(s, id, ev);
        StoreGrows(s, id, ev, id + "x");
        forall k | k in s'.hosts ensures HostOk(k, s'.hosts[k], s'.intents, s'.store) {
          if k != id {
            StoreGrows(s, id, ev, k);
            HostOkGrows(k, s.hosts[k], s.intents, s.store, s'.store);
          }
        }
      case PostDecision(e, d, m) =>
        forall k | k in s'.hosts ensures HostOk(k, s'.hosts[k], s'.intents, s'.store) {
          assert forall c :: c in s.store ==> GrowsFor(k, s.store[c], s'.store[c]);
          HostOkGrows(k, s.hosts[k], s.intents, s.store, s'.store);
        }
      case GoLive(_) =>
    }
  }
}
