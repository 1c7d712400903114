/**
 Reading an epoch directory: from file names to the slots the protocol reasons about, and
 how many entries a valid epoch can hold.
 */
module EpochFiles {
  import opened Base
  import opened MarkerNames
  import opened Epoch

  /** A directory entry; `marker` is None unless it is a regular file of canonical JSON. */
  datatype Entry = Entry(name: string, marker: Option<Marker>)

  type Files = map<string, Marker>

  const TEMPORARY_PREFIX: string := ".tmp-"
  const EXTENSION: string := ".json"

  predicate Temporary(name: string) {
    TEMPORARY_PREFIX <= name
  }

  predicate Skipped(name: string) {
    name == INTENT_NAME || Temporary(name)
  }

  predicate HasExtension(name: string) {
    |name| >= |EXTENSION| && name[|name| - |EXTENSION|..] == EXTENSION
  }

  /** `validate_marker`: the file is named after the marker it holds, and that marker is valid. */
  predicate ValidFile(name: string, m: Marker, i: Intent) {
    SlotOf(m).Some? && name == MarkerName(SlotOf(m).value) && ValidMarker(SlotOf(m).value, m, i)
  }

  predicate ValidEntry(e: Entry, i: Intent) {
    Skipped(e.name) || (HasExtension(e.name) && e.marker.Some? && ValidFile(e.name, e.marker.value, i))
  }

  /** The markers by slot, as a snapshot looks them up. */
  function BySlot(files: Files): Markers {
    map name | name in files && SlotOf(files[name]).Some? && name == MarkerName(SlotOf(files[name]).value)
      :: SlotOf(files[name]).value := files[name]
  }

  ghost predicate ValidFiles(files: Files, i: Intent) {
    forall name :: name in files ==> ValidFile(name, files[name], i)
  }

  /** Looking a marker up by file name and by slot is the same, for every slot. */
  lemma LookupAgrees(files: Files, i: Intent, slot: Slot)
    requires ValidFiles(files, i)
    ensures slot in BySlot(files) <==> MarkerName(slot) in files
    ensures slot in BySlot(files) ==> BySlot(files)[slot] == files[MarkerName(slot)] && ValidMarker(slot, BySlot(files)[slot], i)
  {
    hide ValidMarker;
    if MarkerName(slot) in files {
      var other := SlotOf(files[MarkerName(slot)]).value;
      MarkerNameInjective(slot, other);
    }
  }

  // ---- The reader ---------------------------------------------------------------------

  ghost predicate Distinct(listing: seq<Entry>) {
    forall j, k :: 0 <= j < k < |listing| ==> listing[j].name != listing[k].name
  }

  /** Exactly the markers of the entries that are not skipped. */
  ghost predicate Holds(files: Files, listing: seq<Entry>) {
    && (forall j :: 0 <= j < |listing| && !Skipped(listing[j].name) ==>
          listing[j].name in files && Some(files[listing[j].name]) == listing[j].marker)
    && (forall name :: name in files ==>
          exists j :: 0 <= j < |listing| && listing[j].name == name && !Skipped(name))
  }

  lemma HoldsMore(files: Files, listing: seq<Entry>, e: Entry)
    requires Holds(files, listing) && Distinct(listing + [e])
    ensures Skipped(e.name) ==> Holds(files, listing + [e])
    ensures !Skipped(e.name) && e.marker.Some? ==> Holds(files[e.name := e.marker.value], listing + [e])
  {
    hide Skipped;
    var grown := listing + [e];
    assert grown[|listing|] == e;
    assert forall j :: 0 <= j < |listing| ==> grown[j] == listing[j];
    assert forall j :: 0 <= j < |listing| ==> listing[j].name != e.name;
  }

  lemma PrefixDistinct(listing: seq<Entry>, n: nat)
    requires Distinct(listing) && n <= |listing|
    ensures Distinct(listing[..n])
  {
  }

  /** Why an epoch may be read, before its markers are held against each other. */
  predicate Openable(epoch: string, intent: Option<Intent>, listing: seq<Entry>) {
    LowerHex(epoch, 32) && intent.Some? && ValidIntent(intent.value) && intent.value.epoch == epoch
    && |listing| <= ENTRY_LIMIT
  }

  ghost predicate AllValid(listing: seq<Entry>, i: Intent) {
    forall j :: 0 <= j < |listing| ==> ValidEntry(listing[j], i)
  }

  lemma HeldFilesValid(files: Files, listing: seq<Entry>, i: Intent)
    requires Holds(files, listing) && AllValid(listing, i)
    ensures ValidFiles(files, i)
  {
    hide ValidFile;
    hide Skipped;
  }

  /** The loop over the directory. */
  method Collect(listing: seq<Entry>, i: Intent) returns (files: Option<Files>)
    requires Distinct(listing)
    ensures files.Some? <==> AllValid(listing, i)
    ensures files.Some? ==> Holds(files.value, listing)
  {
    hide ValidFile;
    hide Skipped;
    hide HasExtension;
    var held: Files := map[];
    for j := 0 to |listing|
      invariant AllValid(listing[..j], i)
      invariant Holds(held, listing[..j])
    {
      var entry := listing[j];
      assert listing[..j + 1] == listing[..j] + [entry];
      PrefixDistinct(listing, j + 1);
      HoldsMore(held, listing[..j], entry);
      if Skipped(entry.name) { continue; }
      if !HasExtension(entry.name) || entry.marker.None? || !ValidFile(entry.name, entry.marker.value, i) {
        return None;
      }
      held := held[entry.name := entry.marker.value];
    }
    assert listing[..|listing|] == listing;
    return Some(held);
  }

  /** A directory holds one set of markers. */
  lemma HoldsUnique(a: Files, b: Files, listing: seq<Entry>)
    requires Holds(a, listing) && Holds(b, listing)
    ensures a == b
  {
    hide Skipped;
    assert forall name :: name in a <==> name in b;
    forall name | name in a ensures a[name] == b[name] {
      var j :| 0 <= j < |listing| && listing[j].name == name && !Skipped(name);
    }
  }

  /** What a reader demands of an epoch directory. */
  ghost predicate Acceptable(epoch: string, intent: Option<Intent>, listing: seq<Entry>, live: Option<string>) {
    && Openable(epoch, intent, listing)
    && live.Some?
    && AllValid(listing, intent.value)
    && forall files :: Holds(files, listing) ==> ValidSnapshot(intent.value, BySlot(files), live.value)
  }

  /**
   `intent` is None when the epoch directory or its intent cannot be read, `live` when no
   sealed generation is live.
   */
  method ReadEpoch(epoch: string, intent: Option<Intent>, listing: seq<Entry>, live: Option<string>)
    returns (files: Option<Files>)
    requires Distinct(listing)
    ensures files.Some? <==> Acceptable(epoch, intent, listing, live)
    ensures files.Some? ==> Holds(files.value, listing) && ValidFiles(files.value, intent.value)
  {
    hide ValidSnapshot;
    hide ValidEntry;
    hide ValidFile;
    hide BySlot;
    hide Holds;
    hide ValidFiles;
    if !Openable(epoch, intent, listing) { return None; }
    files := Collect(listing, intent.value);
    if files.None? || live.None? { return None; }
    HeldFilesValid(files.value, listing, intent.value);
    forall held | Holds(held, listing) ensures held == files.value {
      HoldsUnique(held, files.value, listing);
    }
    if !ValidSnapshot(intent.value, BySlot(files.value), live.value) {
      return None;
    }
  }

  // ---- How many entries -----------------------------------------------------------------

  function SlotsOfHost(host: string): set<Slot> {
    {HostSlot(host, Drained), HostSlot(host, Rotated), HostSlot(host, RolledBack),
     HostSlot(host, Resumed), HostSlot(host, Failed)}
  }

  function HostSlots(roster: seq<string>): set<Slot> {
    if roster == [] then {} else HostSlots(roster[1..]) + SlotsOfHost(roster[0])
  }

  /** Every slot an epoch of this roster can fill. */
  function Slots(roster: seq<string>): set<Slot> {
    HostSlots(roster) + {ACTIVATED, ROLLBACK, REVERTED, RESUME, TERMINAL}
  }

  lemma {:induction false} HostSlotsHold(roster: seq<string>, slot: Slot)
    ensures slot in HostSlots(roster) <==> slot.HostSlot? && slot.host in roster
  {
    if roster != [] {
      HostSlotsHold(roster[1..], slot);
      assert roster == [roster[0]] + roster[1..];
      if slot.HostSlot? { FivePhases(slot.phase); }
    }
  }

  lemma FivePhases(phase: HostPhase)
    ensures phase == Drained || phase == Rotated || phase == RolledBack || phase == Resumed || phase == Failed
  {
  }

  lemma FiveDecisions(phase: DecisionPhase)
    ensures phase == Activated || phase == Rollback || phase == Reverted || phase == Resume || phase == Terminal
  {
  }

  lemma {:induction false} HostSlotsCount(roster: seq<string>)
    requires forall j, k :: 0 <= j < k < |roster| ==> roster[j] != roster[k]
    ensures |HostSlots(roster)| == 5 * |roster|
  {
    if roster != [] {
      HostSlotsCount(roster[1..]);
      forall slot | slot in SlotsOfHost(roster[0]) ensures slot !in HostSlots(roster[1..]) {
        HostSlotsHold(roster[1..], slot);
      }
      assert |SlotsOfHost(roster[0])| == 5;
      assert HostSlots(roster[1..]) !! SlotsOfHost(roster[0]);
    }
  }

  lemma SlotsCount(roster: seq<string>)
    requires CanonicalRoster(roster)
    ensures |Slots(roster)| == 5 * |roster| + 5
  {
    HostSlotsCount(roster);
    var decisions := {ACTIVATED, ROLLBACK, REVERTED, RESUME, TERMINAL};
    forall slot | slot in decisions ensures slot !in HostSlots(roster) {
      HostSlotsHold(roster, slot);
    }
    assert |decisions| == 5;
    assert HostSlots(roster) !! decisions;
  }

  function NamesOf(slots: set<Slot>): set<string> {
    set slot | slot in slots :: MarkerName(slot)
  }

  /** Names are as many as slots, because they are injective. */
  lemma {:induction false} NamesCount(slots: set<Slot>)
    ensures |NamesOf(slots)| == |slots|
    ensures INTENT_NAME !in NamesOf(slots)
    decreases |slots|
  {
    hide MarkerName;
    forall slot | slot in slots ensures MarkerName(slot) != INTENT_NAME {
      MarkerNameIsNotIntent(slot);
    }
    if slots != {} {
      var slot :| slot in slots;
      var others := slots - {slot};
      NamesCount(others);
      forall other | other in others ensures MarkerName(other) != MarkerName(slot) {
        if MarkerName(other) == MarkerName(slot) { MarkerNameInjective(other, slot); }
      }
      assert NamesOf(slots) == NamesOf(others) + {MarkerName(slot)};
    }
  }

  lemma {:induction false} SubsetCount<T>(small: set<T>, large: set<T>)
    requires small <= large
    ensures |small| <= |large|
  {
    if small != {} {
      var x :| x in small;
      SubsetCount(small - {x}, large - {x});
    }
  }

  lemma ValidFileSlot(name: string, m: Marker, i: Intent)
    requires ValidFile(name, m, i)
    ensures SlotOf(m).value in Slots(i.roster) && name in NamesOf(Slots(i.roster))
  {
    hide ValidDecision;
    hide ValidIntent;
    hide MarkerName;
    var slot := SlotOf(m).value;
    if slot.HostSlot? { HostSlotsHold(i.roster, slot); } else { FiveDecisions(slot.decision); }
  }

  /** A valid epoch holds at most five markers for each roster host and five decisions. */
  lemma EpochSizeBound(files: Files, i: Intent)
    requires ValidIntent(i) && ValidFiles(files, i)
    ensures |files| <= 5 * |i.roster| + 5
  {
    hide ValidFile;
    forall name | name in files ensures name in NamesOf(Slots(i.roster)) {
      ValidFileSlot(name, files[name], i);
    }
    SlotsCount(i.roster);
    NamesCount(Slots(i.roster));
    SubsetCount(files.Keys, NamesOf(Slots(i.roster)));
    assert |files| == |files.Keys|;
  }

  lemma {:induction false} DistinctCount(listing: seq<Entry>, names: set<string>)
    requires Distinct(listing) && forall e :: e in listing ==> e.name in names
    ensures |listing| <= |names|
  {
    if listing != [] {
      var last := listing[|listing| - 1];
      var front := listing[..|listing| - 1];
      forall e | e in front ensures e.name in names - {last.name} {
        assert e in listing;
      }
      DistinctCount(front, names - {last.name});
    }
  }

  /** Without temporary siblings, an epoch of valid entries never reaches the entry limit. */
  lemma EntryLimitNeverReached(listing: seq<Entry>, i: Intent)
    requires ValidIntent(i) && Distinct(listing) && AllValid(listing, i)
    requires forall e :: e in listing ==> !Temporary(e.name)
    ensures |listing| <= 5 * |i.roster| + 6 <= 1286 < ENTRY_LIMIT
  {
    hide ValidFile;
    hide Temporary;
    hide HasExtension;
    var names := NamesOf(Slots(i.roster)) + {INTENT_NAME};
    forall e | e in listing ensures e.name in names {
      assert ValidEntry(e, i);
      if e.name != INTENT_NAME { ValidFileSlot(e.name, e.marker.value, i); }
    }
    SlotsCount(i.roster);
    NamesCount(Slots(i.roster));
    DistinctCount(listing, names);
  }

  // ---- The bound is reached ---------------------------------------------------------------

  const SOME_FACTS: Facts :=
    Facts(Some(1.0), Some(0), Some(ROLLOUT_PROTOCOL), Some(1.0), None, Some("e"), Some(1.0), Some("a"), Some("r"), None, "")

  function FullHostMarker(i: Intent, host: string, phase: HostPhase): Marker {
    HostMarker(i, host, phase, if phase.Rotated? then i.target else i.source, SOME_FACTS.(installedAgent := i.agentSha))
  }

  function SeenAll(i: Intent, phase: HostPhase): map<string, Digest> {
    map host | host in i.roster :: OfMarker(FullHostMarker(i, host, phase))
  }

  function FullDecision(i: Intent, phase: DecisionPhase): Marker {
    var direction := if phase.Activated? then Forward else Backward;
    var seen := if phase.Resume? then RolledBack else if phase.Terminal? then Resumed else Drained;
    Marker(MARKER_SCHEMA, i.epoch, OfIntent(i), OfDecision(phase), None, Some(GenerationOf(i, direction)),
           Some(direction), Some(RolledBackOutcome), SOME_FACTS.(observed := Some(SeenAll(i, seen))))
  }

  /** Every marker an epoch can hold: activated, then rolled back and finished. */
  function FullEpoch(i: Intent): Markers {
    map slot | slot in Slots(i.roster) ::
      if slot.HostSlot? then FullHostMarker(i, slot.host, slot.phase) else FullDecision(i, slot.decision)
  }

  lemma FullMarkerValid(i: Intent, slot: Slot)
    requires ValidIntent(i) && slot in Slots(i.roster)
    ensures ValidMarker(slot, FullEpoch(i)[slot], i)
  {
    hide ValidIntent;
    hide Slots;
    SomeTextNotBlank();
    hide NonBlank;
    if slot.HostSlot? {
      assert slot in HostSlots(i.roster) by { HostSlotGiven(i.roster, slot); }
      HostSlotsHold(i.roster, slot);
    } else {
      var seen := FullEpoch(i)[slot].facts.observed.value;
      assert seen.Keys == set k | 0 <= k < |i.roster| :: i.roster[k];
    }
  }

  lemma SomeTextNotBlank()
    ensures NonBlank(SOME_FACTS.error) && NonBlank(SOME_FACTS.decidedBy) && NonBlank(SOME_FACTS.reason)
  {
    assert "e"[0] == 'e' && "a"[0] == 'a' && "r"[0] == 'r';
  }

  lemma HostSlotGiven(roster: seq<string>, slot: Slot)
    requires slot in Slots(roster) && slot.HostSlot?
    ensures slot in HostSlots(roster)
  {
  }

  lemma FullHolds(i: Intent, phase: DecisionPhase)
    ensures DecisionSlot(phase) in FullEpoch(i) && FullEpoch(i)[DecisionSlot(phase)] == FullDecision(i, phase)
    ensures !phase.Activated? ==>
              FullDecision(i, phase).direction == Some(Backward) && FullDecision(i, phase).generation == Some(i.source)
  {
    FiveDecisions(phase);
  }

  lemma FullSaw(i: Intent, phase: DecisionPhase, seen: HostPhase)
    requires FullDecision(i, phase).facts.observed == Some(SeenAll(i, seen))
    ensures Saw(FullDecision(i, phase), FullEpoch(i), i.roster, seen)
  {
    forall host | host in i.roster ensures HostSlot(host, seen) in FullEpoch(i) {
      HostSlotsHold(i.roster, HostSlot(host, seen));
    }
  }

  lemma FullSaws(i: Intent)
    ensures Saw(FullDecision(i, Activated), FullEpoch(i), i.roster, Drained)
    ensures Saw(FullDecision(i, Rollback), FullEpoch(i), i.roster, Drained)
    ensures Saw(FullDecision(i, Reverted), FullEpoch(i), i.roster, Drained)
    ensures Saw(FullDecision(i, Resume), FullEpoch(i), i.roster, RolledBack)
    ensures Saw(FullDecision(i, Terminal), FullEpoch(i), i.roster, Resumed)
  {
    hide Saw;
    hide FullEpoch;
    FullSaw(i, Activated, Drained);
    FullSaw(i, Rollback, Drained);
    FullSaw(i, Reverted, Drained);
    FullSaw(i, Resume, RolledBack);
    FullSaw(i, Terminal, Resumed);
  }

  lemma FullResumes(i: Intent)
    ensures forall host :: HostSlot(host, Resumed) in FullEpoch(i) ==>
              FullEpoch(i)[HostSlot(host, Resumed)].generation == Some(i.source)
  {
    hide Slots;
  }

  lemma FullCoherent(i: Intent)
    ensures Coherent(i, FullEpoch(i), i.source)
  {
    hide Saw;
    hide FullEpoch;
    hide FullDecision;
    FullHolds(i, Activated);
    FullHolds(i, Rollback);
    FullHolds(i, Reverted);
    FullHolds(i, Resume);
    FullHolds(i, Terminal);
    FullSaws(i);
    FullResumes(i);
  }

  /** The bound is tight: every roster has a valid epoch of exactly that size. */
  lemma EpochSizeReached(i: Intent)
    requires ValidIntent(i)
    ensures ValidSnapshot(i, FullEpoch(i), i.source)
    ensures |NamesOf(FullEpoch(i).Keys)| == 5 * |i.roster| + 5
  {
    hide ValidMarker;
    hide Coherent;
    FullCoherent(i);
    forall slot | slot in FullEpoch(i) ensures ValidMarker(slot, FullEpoch(i)[slot], i) {
      FullMarkerValid(i, slot);
    }
    assert FullEpoch(i).Keys == Slots(i.roster);
    SlotsCount(i.roster);
    NamesCount(FullEpoch(i).Keys);
  }
}
