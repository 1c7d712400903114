/**
 Marker file names of a rollout epoch, the characters they may hold, and the directory
 entries a marker write accepts.
 */
module MarkerNames {
  datatype HostPhase = Drained | Rotated | RolledBack | Resumed | Failed

  datatype DecisionPhase = Activated | Rollback | Reverted | Resume | Terminal

  /** What one marker file is about: a phase of one host, or a coordinator decision. */
  datatype Slot = HostSlot(host: string, phase: HostPhase) | DecisionSlot(decision: DecisionPhase)

  function HostPhaseText(phase: HostPhase): string {
    match phase
    case Drained => "drained"
    case Rotated => "rotated"
    case RolledBack => "rolled-back"
    case Resumed => "resumed"
    case Failed => "failed"
  }

  function DecisionText(phase: DecisionPhase): string {
    match phase
    case Activated => "activated"
    case Rollback => "rollback"
    case Reverted => "reverted"
    case Resume => "resume"
    case Terminal => "terminal"
  }

  /** `marker_name`. */
  function MarkerName(slot: Slot): string {
    match slot
    case HostSlot(host, phase) => host + "." + HostPhaseText(phase) + ".json"
    case DecisionSlot(phase) => DecisionText(phase) + ".json"
  }

  const INTENT_NAME: string := "intent.json"

  // ---- Safe characters -------------------------------------------------------------

  predicate Alnum(c: char) {
    '0' <= c <= '9' || 'a' <= c <= 'z' || 'A' <= c <= 'Z'
  }

  /** `_KEY_SAFE`: park marker keys, which are parsed on hyphens. */
  predicate KeySafe(c: char) {
    Alnum(c) || c == '.' || c == '_'
  }

  /** `_NAME_SAFE`: rollout marker names, which are parsed on dots. */
  predicate NameSafe(c: char) {
    KeySafe(c) || c == '-'
  }

  function SanitizedChar(c: char, safe: char -> bool): char {
    if safe(c) then c else '_'
  }

  /** `sanitized`: every unsafe character replaced, none dropped. */
  function Sanitized(value: string, safe: char -> bool): string {
    seq(|value|, i requires 0 <= i < |value| => SanitizedChar(value[i], safe))
  }

  ghost predicate AllSafe(value: string, safe: char -> bool) {
    forall i :: 0 <= i < |value| ==> safe(value[i])
  }

  /** The names `sanitized` leaves alone are those made of safe characters only. */
  lemma SanitizedFixedIff(value: string, safe: char -> bool)
    requires safe('_')
    ensures Sanitized(value, safe) == value <==> AllSafe(value, safe)
  {
    if Sanitized(value, safe) == value {
      forall i | 0 <= i < |value| ensures safe(value[i]) {
        assert Sanitized(value, safe)[i] == value[i];
      }
    }
  }

  /** Sanitizing does not let this character be told from another such one. */
  predicate Lost(c: char, safe: char -> bool) {
    !safe(c) || c == '_'
  }

  /**
   Keeping the length does not keep two inputs apart: they share one key exactly when they
   are equally long and differ only where both hold an unsafe character or an underscore.
   */
  lemma SanitizedCollideIff(a: string, b: string, safe: char -> bool)
    ensures Sanitized(a, safe) == Sanitized(b, safe)
            <==> |a| == |b| && forall i :: 0 <= i < |a| ==> a[i] == b[i] || (Lost(a[i], safe) && Lost(b[i], safe))
  {
    if Sanitized(a, safe) == Sanitized(b, safe) {
      assert |a| == |Sanitized(a, safe)| == |b|;
      forall i | 0 <= i < |a| ensures a[i] == b[i] || (Lost(a[i], safe) && Lost(b[i], safe)) {
        assert Sanitized(a, safe)[i] == Sanitized(b, safe)[i];
      }
    }
  }

  /** Two finite drain stamps that share one sanitized key. */
  lemma SanitizedStampsCollide()
    ensures "1e-16" != "1e+16"
    ensures Sanitized("1e-16", KeySafe) == Sanitized("1e+16", KeySafe)
  {
    assert "1e-16"[2] != "1e+16"[2];
    SanitizedCollideIff("1e-16", "1e+16", KeySafe);
  }

  // ---- Injectivity -----------------------------------------------------------------

  ghost predicate NoDot(s: string) {
    forall i :: 0 <= i < |s| ==> s[i] != '.'
  }

  lemma PhaseTextsAreDotFree(h: HostPhase, d: DecisionPhase)
    ensures NoDot(HostPhaseText(h)) && NoDot(DecisionText(d))
    ensures NoDot("intent")
  {
  }

  lemma LastDotUnique(w: string, i: nat, j: nat)
    requires i < |w| && w[i] == '.' && NoDot(w[i + 1..])
    requires j < |w| && w[j] == '.' && NoDot(w[j + 1..])
    ensures i == j
  {
    assert forall k :: i < k < |w| ==> w[k] == w[i + 1..][k - i - 1];
    assert forall k :: j < k < |w| ==> w[k] == w[j + 1..][k - j - 1];
  }

  /** The text after the last dot is determined by the whole. */
  lemma SplitAtLastDot(a: string, s: string, b: string, t: string)
    requires NoDot(s) && NoDot(t)
    requires a + "." + s == b + "." + t
    ensures a == b && s == t
  {
    var w := a + "." + s;
    assert s == w[|a| + 1..] && t == w[|b| + 1..];
    assert a == w[..|a|] && b == w[..|b|];
    LastDotUnique(w, |a|, |b|);
  }

  /** A marker name without its extension. */
  function Stem(slot: Slot): string {
    match slot
    case HostSlot(host, phase) => host + "." + HostPhaseText(phase)
    case DecisionSlot(phase) => DecisionText(phase)
  }

  lemma StemsDecide(a: string, b: string)
    ensures a + ".json" == b + ".json" <==> a == b
  {
    var u, v := a + ".json", b + ".json";
    if u == v {
      assert |a| == |u| - 5 == |v| - 5 == |b|;
      assert a == u[..|a|] && b == v[..|b|];
    }
  }

  lemma PhaseTextsDiffer(p: HostPhase, q: HostPhase)
    ensures HostPhaseText(p) == HostPhaseText(q) ==> p == q
  {
    if p != q && |HostPhaseText(p)| == |HostPhaseText(q)| {
      assert HostPhaseText(p)[2] != HostPhaseText(q)[2];
    }
  }

  lemma DecisionTextsDiffer(p: DecisionPhase, q: DecisionPhase)
    ensures DecisionText(p) == DecisionText(q) ==> p == q
    ensures DecisionText(p) != "intent"
  {
    if p != q && |DecisionText(p)| == |DecisionText(q)| {
      assert DecisionText(p)[2] != DecisionText(q)[2];
    }
    assert DecisionText(p)[0] != "intent"[0];
  }

  /** A host marker's stem holds a dot, so it is no dot-free text. */
  lemma HostStemHasDot(host: string, phase: HostPhase, plain: string)
    requires NoDot(plain)
    ensures host + "." + HostPhaseText(phase) != plain
  {
    var w := host + "." + HostPhaseText(phase);
    assert w[|host|] == '.';
  }

  /**
   Marker names are injective in host and phase, for hosts with dots too, and no marker
   shares its name with another kind of entry.
   */
  lemma MarkerNameInjective(a: Slot, b: Slot)
    requires MarkerName(a) == MarkerName(b)
    ensures a == b
  {
    StemsDecide(Stem(a), Stem(b));
    match (a, b) {
      case (HostSlot(h, p), HostSlot(k, q)) =>
        PhaseTextsAreDotFree(p, Resume);
        PhaseTextsAreDotFree(q, Resume);
        SplitAtLastDot(h, HostPhaseText(p), k, HostPhaseText(q));
        PhaseTextsDiffer(p, q);
      case (DecisionSlot(d), DecisionSlot(e)) =>
        DecisionTextsDiffer(d, e);
      case (HostSlot(h, p), DecisionSlot(d)) =>
        PhaseTextsAreDotFree(p, d);
        HostStemHasDot(h, p, DecisionText(d));
      case (DecisionSlot(d), HostSlot(h, p)) =>
        PhaseTextsAreDotFree(p, d);
        HostStemHasDot(h, p, DecisionText(d));
    }
  }

  lemma MarkerNameIsNotIntent(slot: Slot)
    ensures MarkerName(slot) != INTENT_NAME
  {
    var stem := Stem(slot);
    assert stem != "intent" by {
      match slot
      case HostSlot(h, p) =>
        PhaseTextsAreDotFree(p, Resume);
        HostStemHasDot(h, p, "intent");
      case DecisionSlot(d) =>
        DecisionTextsDiffer(d, d);
    }
    StemsDecide(stem, "intent");
  }

  // ---- What a marker write accepts ---------------------------------------------------

  const MARKER_SEGMENT_LIMIT: nat := 128

  /** `MARKER_SEGMENT`: one path segment of a marker write. */
  ghost predicate MarkerSegment(s: string) {
    && 1 <= |s| <= MARKER_SEGMENT_LIMIT
    && Alnum(s[0])
    && AllSafe(s, NameSafe)
  }

  /** A roster host as `validate_intent` accepts one. */
  ghost predicate RosterHost(host: string) {
    && 1 <= |host| <= 128
    && Sanitized(host, NameSafe) == host
  }

  /**
   The intent validator accepts roster hosts that can never post: a host's marker can be
   written exactly when its name starts with a letter or digit and leaves room for the
   phase and extension within one 128-character segment.
   */
  lemma RosterHostPostsIff(host: string, phase: HostPhase)
    requires RosterHost(host)
    ensures MarkerSegment(MarkerName(HostSlot(host, phase)))
            <==> Alnum(host[0]) && |host| <= 122 - |HostPhaseText(phase)|
  {
    hide HostPhaseText; hide Sanitized; hide AllSafe;
    SanitizedFixedIff(host, NameSafe);
    var suffix := "." + HostPhaseText(phase) + ".json";
    SuffixSafe(phase);
    SafeConcat(host, suffix);
    assert MarkerName(HostSlot(host, phase)) == host + suffix;
    assert (host + suffix)[0] == host[0];
  }

  lemma SuffixSafe(phase: HostPhase)
    ensures AllSafe("." + HostPhaseText(phase) + ".json", NameSafe)
  {
    var text := HostPhaseText(phase);
    assert AllSafe(text, NameSafe);
  }

  lemma SafeConcat(a: string, b: string)
    ensures AllSafe(a + b, NameSafe) <==> AllSafe(a, NameSafe) && AllSafe(b, NameSafe)
  {
    hide NameSafe;
    if AllSafe(a + b, NameSafe) {
      forall i | 0 <= i < |a| ensures NameSafe(a[i]) {
        assert a[i] == (a + b)[i];
      }
      forall i | 0 <= i < |b| ensures NameSafe(b[i]) {
        assert b[i] == (a + b)[|a| + i];
      }
    }
  }

  /** A roster host, valid in an intent, whose drained marker no write accepts. */
  lemma LongRosterHostCannotPost(host: string)
    requires |host| == 116 && Sanitized(host, NameSafe) == host
    ensures RosterHost(host) && !MarkerSegment(MarkerName(HostSlot(host, Drained)))
  {
    RosterHostPostsIff(host, Drained);
  }
}
