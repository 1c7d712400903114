/**
 Rollout intents, markers and epoch snapshots, and the checks a reader makes before it
 believes one. SHA-256 over canonical JSON is modelled as an injective constructor, so
 an observed digest names the marker it was taken of.
 */
module Epoch {
  import opened Base
  import opened MarkerNames

  datatype Direction = Forward | Backward

  datatype Outcome = Completed | RolledBackOutcome

  datatype Phase = OfHost(host: HostPhase) | OfDecision(decision: DecisionPhase) | UnknownPhase(text: string)

  datatype Digest = OfMarker(marker: Marker) | OfIntent(intent: Intent) | Text(text: string)

  /** Absent, mistyped or (for numbers) non-finite fields are `None`. */
  datatype Intent = Intent(
    schema: string, epoch: string, source: string, target: string, roster: seq<string>,
    agentSha: Option<string>, coordinatorSha: Option<string>, drainPolicy: string,
    armedUnix: Option<real>, armedBy: Option<string>)

  /** The first eight fields are `marker_identity`; `facts` is everything else. */
  datatype Marker = Marker(
    schema: string, epoch: string, intentSha: Digest, phase: Phase, host: Option<string>,
    generation: Option<string>, direction: Option<Direction>, outcome: Option<Outcome>,
    facts: Facts)

  datatype Facts = Facts(
    postedUnix: Option<real>, activeScopes: Option<int>, rolloutProtocol: Option<int>,
    drainChangedUnix: Option<real>, installedAgent: Option<string>, error: Option<string>,
    decidedUnix: Option<real>, decidedBy: Option<string>, reason: Option<string>,
    observed: Option<map<string, Digest>>, remainder: string)

  type Markers = map<Slot, Marker>

  const INTENT_SCHEMA: string := "prismabuild.rollout_barrier.intent.v1"
  const MARKER_SCHEMA: string := "prismabuild.rollout_barrier.marker.v1"
  const ROLLOUT_PROTOCOL: int := 1
  const ROSTER_LIMIT: nat := 256
  const ENTRY_LIMIT: nat := 2048

  // ---- Field checks ------------------------------------------------------------------

  /** `_number`. */
  predicate Number(value: Option<real>) {
    value.Some? && value.value > 0.0
  }

  predicate Space(c: char) {
    || c == ' ' || '\t' <= c <= '\r' || ('\U{1c}' <= c <= '\U{1f}') || c == '\U{85}' || c == '\U{a0}'
    || c == '\U{1680}' || ('\U{2000}' <= c <= '\U{200a}') || c == '\U{2028}' || c == '\U{2029}'
    || c == '\U{202f}' || c == '\U{205f}' || c == '\U{3000}'
  }

  /** `value.strip()` is not empty. */
  predicate NonBlank(value: Option<string>) {
    value.Some? && exists i :: 0 <= i < |value.value| && !Space(value.value[i])
  }

  predicate LowerHex(s: string, length: nat) {
    |s| == length && forall i :: 0 <= i < |s| ==> '0' <= s[i] <= '9' || 'a' <= s[i] <= 'f'
  }

  predicate Sha256(value: Option<string>) {
    value.Some? && LowerHex(value.value, 64)
  }

  predicate GenerationName(s: string) {
    && 1 <= |s| <= 255
    && Alnum(s[0])
    && forall i :: 0 <= i < |s| ==> NameSafe(s[i])
  }

  predicate CanonicalRoster(roster: seq<string>) {
    && 1 <= |roster| <= ROSTER_LIMIT
    && (forall i :: 0 <= i < |roster| ==>
          1 <= |roster[i]| <= 128 && Sanitized(roster[i], NameSafe) == roster[i])
    && (forall i, j :: 0 <= i < j < |roster| ==> roster[i] != roster[j])
    && (forall i :: 0 <= i < |roster| - 1 ==> StringBefore(roster[i], roster[i + 1]))
  }

  /** `validate_intent`. */
  predicate ValidIntent(i: Intent) {
    && i.schema == INTENT_SCHEMA
    && Sha256(i.coordinatorSha)
    && LowerHex(i.epoch, 32)
    && GenerationName(i.source) && GenerationName(i.target) && i.source != i.target
    && CanonicalRoster(i.roster)
    && Sha256(i.agentSha)
    && i.drainPolicy == "wait"
    && Number(i.armedUnix)
    && NonBlank(i.armedBy) && |i.armedBy.value| <= 256
  }

  // ---- Markers -----------------------------------------------------------------------

  predicate HexDigest(d: Digest) {
    d.Text? ==> LowerHex(d.text, 64)
  }

  /** `_observed`: one digest for every roster host and for nobody else. */
  predicate Observed(observed: Option<map<string, Digest>>, roster: seq<string>) {
    && observed.Some?
    && observed.value.Keys == (set i | 0 <= i < |roster| :: roster[i])
    && forall h :: h in observed.value ==> HexDigest(observed.value[h])
  }

  function GenerationOf(i: Intent, d: Direction): string {
    if d.Forward? then i.target else i.source
  }

  /** The generation a phase must name, where the phase alone decides it. */
  function PhaseGeneration(i: Intent, phase: HostPhase): Option<string> {
    match phase
    case Drained => Some(i.source)
    case Rotated => Some(i.target)
    case RolledBack => Some(i.source)
    case _ => None
  }

  predicate ValidHostMarker(host: string, phase: HostPhase, m: Marker, i: Intent) {
    && m.host == Some(host) && host in i.roster
    && (m.generation == Some(i.source) || m.generation == Some(i.target))
    && (PhaseGeneration(i, phase).Some? ==> m.generation == PhaseGeneration(i, phase))
    && Number(m.facts.postedUnix)
    && (phase.Drained? ==>
          && m.facts.activeScopes == Some(0)
          && m.facts.rolloutProtocol == Some(ROLLOUT_PROTOCOL)
          && Number(m.facts.drainChangedUnix))
    && (phase.Rotated? || phase.RolledBack? || phase.Resumed? ==>
          m.facts.installedAgent == i.agentSha)
    && (phase.Failed? ==> NonBlank(m.facts.error))
  }

  predicate ValidDecision(phase: DecisionPhase, m: Marker, i: Intent) {
    && m.host == None
    && Number(m.facts.decidedUnix) && NonBlank(m.facts.decidedBy)
    && (phase.Activated? ==> m.generation == Some(i.target) && m.direction == Some(Forward))
    && (phase.Rollback? || phase.Reverted? ==>
          m.generation == Some(i.source) && m.direction == Some(Backward))
    && (phase.Rollback? ==> NonBlank(m.facts.reason))
    && (phase.Resume? || phase.Terminal? ==>
          m.direction.Some? && m.generation == Some(GenerationOf(i, m.direction.value)))
    && (phase.Terminal? ==>
          m.outcome == Some(if m.direction.value.Forward? then Completed else RolledBackOutcome))
    && Observed(m.facts.observed, i.roster)
  }

  /** `validate_marker` for the marker read from a slot's file. */
  predicate ValidMarker(slot: Slot, m: Marker, i: Intent) {
    && ValidIntent(i)
    && m.schema == MARKER_SCHEMA && m.epoch == i.epoch && m.intentSha == OfIntent(i)
    && match slot
       case HostSlot(host, phase) => m.phase == OfHost(phase) && ValidHostMarker(host, phase, m, i)
       case DecisionSlot(phase) => m.phase == OfDecision(phase) && ValidDecision(phase, m, i)
  }

  /** The slot a marker's own fields name. */
  function SlotOf(m: Marker): Option<Slot> {
    match m.phase
    case OfHost(phase) => if m.host.Some? then Some(HostSlot(m.host.value, phase)) else None
    case OfDecision(phase) => if m.host.None? then Some(DecisionSlot(phase)) else None
    case UnknownPhase(_) => None
  }

  /** `marker_identity` agrees. */
  predicate SameIdentity(a: Marker, b: Marker) {
    a.(facts := b.facts) == b
  }

  /** `make_marker` as the agent of `host` calls it. */
  function HostMarker(i: Intent, host: string, phase: HostPhase, generation: string, facts: Facts): Marker {
    Marker(MARKER_SCHEMA, i.epoch, OfIntent(i), OfHost(phase), Some(host), Some(generation), None, None, facts)
  }

  // ---- Snapshots ---------------------------------------------------------------------

  const ACTIVATED: Slot := DecisionSlot(Activated)
  const ROLLBACK: Slot := DecisionSlot(Rollback)
  const REVERTED: Slot := DecisionSlot(Reverted)
  const RESUME: Slot := DecisionSlot(Resume)
  const TERMINAL: Slot := DecisionSlot(Terminal)

  /** `m` observed exactly the stored marker of every roster host in `phase`. */
  predicate Saw(m: Marker, ms: Markers, roster: seq<string>, phase: HostPhase) {
    && m.facts.observed.Some?
    && forall h :: h in roster ==>
         && HostSlot(h, phase) in ms
         && h in m.facts.observed.value
         && m.facts.observed.value[h] == OfMarker(ms[HostSlot(h, phase)])
  }

  function ResumePhase(d: Direction): HostPhase {
    if d.Forward? then Rotated else RolledBack
  }

  /** The conditions between markers. */
  predicate Coherent(i: Intent, ms: Markers, live: string) {
    && (TERMINAL !in ms ==> live == i.source || live == i.target)
    && (REVERTED in ms ==> ROLLBACK in ms)
    && (RESUME in ms ==>
          && ms[RESUME].direction.Some?
          && if ms[RESUME].direction.value.Forward?
             then ACTIVATED in ms && ROLLBACK !in ms
             else ROLLBACK in ms && REVERTED in ms)
    && (TERMINAL in ms ==> RESUME in ms && ms[TERMINAL].direction == ms[RESUME].direction)
    && (ACTIVATED in ms ==> Saw(ms[ACTIVATED], ms, i.roster, Drained))
    && (ROLLBACK in ms ==> Saw(ms[ROLLBACK], ms, i.roster, Drained))
    && (REVERTED in ms ==> Saw(ms[REVERTED], ms, i.roster, Drained))
    && (TERMINAL in ms ==> Saw(ms[TERMINAL], ms, i.roster, Resumed))
    && (RESUME in ms ==>
          && Saw(ms[RESUME], ms, i.roster, ResumePhase(ms[RESUME].direction.value))
          && forall h :: h in i.roster && HostSlot(h, Resumed) in ms ==>
               ms[HostSlot(h, Resumed)].generation == ms[RESUME].generation)
  }

  /** `_validate_rollout_snapshot`. */
  predicate ValidSnapshot(i: Intent, ms: Markers, live: string) {
    && ValidIntent(i)
    && (forall slot :: slot in ms ==> ValidMarker(slot, ms[slot], i))
    && Coherent(i, ms, live)
  }

  // ---- What a decision proves, stated of the store ------------------------------------

  /** Activation stands on a complete drain. */
  predicate ActivationProved(i: Intent, ms: Markers) {
    ACTIVATED in ms && Saw(ms[ACTIVATED], ms, i.roster, Drained)
  }

  predicate RollbackProved(i: Intent, ms: Markers) {
    && ROLLBACK in ms && Saw(ms[ROLLBACK], ms, i.roster, Drained)
    && REVERTED in ms && Saw(ms[REVERTED], ms, i.roster, Drained)
  }

  /** The resume decision stands on every host's rotation, or every host's rollback. */
  predicate ResumeProved(i: Intent, ms: Markers) {
    && RESUME in ms
    && ms[RESUME].direction.Some?
    && ms[RESUME].generation == Some(GenerationOf(i, ms[RESUME].direction.value))
    && Saw(ms[RESUME], ms, i.roster, ResumePhase(ms[RESUME].direction.value))
    && if ms[RESUME].direction.value.Forward? then ActivationProved(i, ms) else RollbackProved(i, ms)
  }

  predicate TerminalProved(i: Intent, ms: Markers) {
    && ResumeProved(i, ms)
    && TERMINAL in ms && ms[TERMINAL].direction == ms[RESUME].direction
    && Saw(ms[TERMINAL], ms, i.roster, Resumed)
  }

  /** The generation a proved resume releases hosts on. */
  function ResumeGeneration(i: Intent, ms: Markers): string
    requires ResumeProved(i, ms)
  {
    ms[RESUME].generation.value
  }

  lemma SawGrows(m: Marker, small: Markers, large: Markers, roster: seq<string>, phase: HostPhase)
    requires Within(small, large) && Saw(m, small, roster, phase)
    ensures Saw(m, large, roster, phase)
  {
  }

  /** What a validated snapshot shows stays shown by every store that has grown from it. */
  lemma SnapshotProves(i: Intent, view: Markers, live: string, store: Markers)
    requires ValidSnapshot(i, view, live) && Within(view, store)
    ensures ACTIVATED in view ==> ActivationProved(i, store)
    ensures ROLLBACK in view && REVERTED in view ==> RollbackProved(i, store)
    ensures RESUME in view ==> ResumeProved(i, store) && ResumeGeneration(i, store) == view[RESUME].generation.value
    ensures TERMINAL in view ==> TerminalProved(i, store)
  {
    if RESUME in view {
      assert ValidMarker(RESUME, view[RESUME], i);
      SawGrows(view[RESUME], view, store, i.roster, ResumePhase(view[RESUME].direction.value));
    }
  }

  /** Proofs survive growth, and a resume keeps its generation. */
  lemma ProofsGrow(i: Intent, small: Markers, large: Markers)
    requires Within(small, large)
    ensures ActivationProved(i, small) ==> ActivationProved(i, large)
    ensures RollbackProved(i, small) ==> RollbackProved(i, large)
    ensures ResumeProved(i, small) ==>
              ResumeProved(i, large) && ResumeGeneration(i, large) == ResumeGeneration(i, small)
    ensures TerminalProved(i, small) ==> TerminalProved(i, large)
  {
  }

  /** A proved resume stands on a complete drain whichever way it goes. */
  lemma ResumeNeedsEveryDrain(i: Intent, ms: Markers, host: string)
    requires ResumeProved(i, ms) && host in i.roster
    ensures HostSlot(host, Drained) in ms
    ensures HostSlot(host, ResumePhase(ms[RESUME].direction.value)) in ms
  {
  }

  // ---- Stability of validity ----------------------------------------------------------

  /** What an agent that read `view` may post: a valid own marker, resumed only as decided. */
  predicate Authorized(i: Intent, view: Markers, slot: Slot, m: Marker) {
    && slot.HostSlot?
    && ValidMarker(slot, m, i)
    && (slot.phase.Resumed? ==> RESUME in view && m.generation == view[RESUME].generation)
  }

  /** `post_marker`: a second post of one name changes nothing. */
  function Linked(ms: Markers, slot: Slot, m: Marker): Markers {
    if slot in ms then ms else ms[slot := m]
  }

  /**
   A host marker posted from any earlier valid snapshot, however stale, keeps the epoch
   valid.
   */
  lemma PostKeepsValid(i: Intent, store: Markers, live: string, view: Markers, slot: Slot, m: Marker)
    requires ValidSnapshot(i, store, live)
    requires Within(view, store) && Authorized(i, view, slot, m)
    ensures ValidSnapshot(i, Linked(store, slot, m), live)
    ensures Within(store, Linked(store, slot, m))
  {
    var after := Linked(store, slot, m);
    if slot !in store {
      hide ValidMarker; hide ValidIntent;
      PostKeepsCoherent(i, store, live, view, slot, m);
    }
  }

  lemma PostKeepsCoherent(i: Intent, store: Markers, live: string, view: Markers, slot: Slot, m: Marker)
    requires Coherent(i, store, live) && Within(view, store) && slot !in store && slot.HostSlot?
    requires slot.phase.Resumed? ==> RESUME in view && m.generation == view[RESUME].generation
    ensures Coherent(i, store[slot := m], live)
  {
    var after := store[slot := m];
    assert Within(store, after);
    forall d: DecisionPhase ensures DecisionSlot(d) in after <==> DecisionSlot(d) in store {}
    forall d: DecisionPhase, phase: HostPhase |
      DecisionSlot(d) in store && Saw(store[DecisionSlot(d)], store, i.roster, phase)
      ensures Saw(after[DecisionSlot(d)], after, i.roster, phase)
    {
      SawGrows(store[DecisionSlot(d)], store, after, i.roster, phase);
    }
    hide Saw;
  }

  datatype Post = Post(view: Markers, slot: Slot, marker: Marker)

  function LinkAll(ms: Markers, posts: seq<Post>): Markers
    decreases |posts|
  {
    if posts == [] then ms else LinkAll(Linked(ms, posts[0].slot, posts[0].marker), posts[1..])
  }

  /** Every post was made from a snapshot the store had already grown past. */
  ghost predicate StalePosts(i: Intent, ms: Markers, posts: seq<Post>)
    decreases |posts|
  {
    posts == [] ||
    (&& Within(posts[0].view, ms)
     && Authorized(i, posts[0].view, posts[0].slot, posts[0].marker)
     && StalePosts(i, Linked(ms, posts[0].slot, posts[0].marker), posts[1..]))
  }

  /** A decision that validated once still validates after any number of host posts. */
  lemma {:induction false} PostsKeepValid(i: Intent, store: Markers, live: string, posts: seq<Post>)
    requires ValidSnapshot(i, store, live) && StalePosts(i, store, posts)
    ensures ValidSnapshot(i, LinkAll(store, posts), live)
    ensures Within(store, LinkAll(store, posts))
    decreases |posts|
  {
    if posts != [] {
      PostKeepsValid(i, store, live, posts[0].view, posts[0].slot, posts[0].marker);
      PostsKeepValid(i, Linked(store, posts[0].slot, posts[0].marker), live, posts[1..]);
    }
  }
}
