/**
 What a host reads from its own processes: `drained`, which says nothing here admits work,
 and `rotation_evidence`, which says that everything here runs one generation.
 */
module Rotation {
  import opened Base
  import opened MarkerNames
  import ParkProof

  // ---- Paths -------------------------------------------------------------------------

  /** A pure POSIX path: its root ("", "/" or "//") and its parts, without empty and "." parts. */
  datatype Path = Path(root: string, parts: seq<string>)

  function Slashes(s: string): (n: nat)
    ensures n <= |s|
  {
    if s != [] && s[0] == '/' then 1 + Slashes(s[1..]) else 0
  }

  /** The parts of `s`; `part` holds the characters since the last slash. */
  function Parts(s: string, part: string): seq<string> {
    var here := if part == "" || part == "." then [] else [part];
    if s == [] then here
    else if s[0] == '/' then here + Parts(s[1..], "")
    else Parts(s[1..], part + [s[0]])
  }

  function Parse(s: string): Path {
    var n := Slashes(s);
    Path(if n == 0 then "" else if n == 2 then "//" else "/", Parts(s, ""))
  }

  function Name(path: Path): string {
    if path.parts == [] then "" else path.parts[|path.parts| - 1]
  }

  /** `path / s`. */
  function Join(path: Path, s: string): Path {
    if Parse(s).root != "" then Parse(s) else Path(path.root, path.parts + Parse(s).parts)
  }

  /** The directory reached by following the parts from the root, ".." going up. */
  function Resolve(parts: seq<string>): seq<string> {
    if parts == [] then []
    else
      var above := Resolve(parts[..|parts| - 1]);
      if parts[|parts| - 1] != ".." then above + [parts[|parts| - 1]]
      else if above == [] then [] else above[..|above| - 1]
  }

  lemma {:induction false} ResolveAppends(a: seq<string>, b: seq<string>)
    requires ".." !in b
    ensures Resolve(a + b) == Resolve(a) + b
  {
    if b == [] {
      assert a + b == a;
    } else {
      var front, last := b[..|b| - 1], b[|b| - 1];
      assert (a + b)[..|a + b| - 1] == a + front && (a + b)[|a + b| - 1] == last;
      assert last in b;
      ResolveAppends(a, front);
      assert front + [last] == b;
    }
  }

  // ---- Roles --------------------------------------------------------------------------

  datatype Role = Worker | OneShot | Supervisor | Prewarmer

  function RoleOf(name: string): Option<Role> {
    if name == "worker_loop.py" then Some(Worker)
    else if name == "worker.py" then Some(OneShot)
    else if name == "supervise.py" then Some(Supervisor)
    else if name == "prewarm_loop.py" then Some(Prewarmer)
    else None
  }

  /** The roles that could claim work or read storage, and so must park. */
  predicate Claims(role: Role) {
    role != Supervisor
  }

  predicate ServingName(name: string) {
    name == "worker_loop.py" || name == "worker.py" || name == "prewarm_loop.py"
  }

  datatype Proc = Proc(pid: nat, start: string, argv: seq<string>)

  function ParkMarker(p: Proc, stamp: string): string {
    ParkProof.Decimal(p.pid) + "-" + p.start + "-" + Sanitized(stamp, KeySafe)
  }

  lemma SanitizedPair(a: string, b: string)
    ensures |Sanitized(a + b, KeySafe)| == |a| + |b|
    ensures Sanitized(a + b, KeySafe) == Sanitized(a, KeySafe) + Sanitized(b, KeySafe)
  {
  }

  /** Digits and dots are safe; a leading sign becomes an underscore. */
  lemma SanitizedHead(p: ParkProof.Printed)
    requires ParkProof.WellPrinted(p)
    ensures Sanitized(ParkProof.Sign(p), KeySafe) == if p.negative then "_" else ""
    ensures Sanitized(ParkProof.Mantissa(p), KeySafe) == ParkProof.Mantissa(p)
  {
    SanitizedFixedIff(ParkProof.Mantissa(p), KeySafe);
    assert AllSafe(ParkProof.Mantissa(p), KeySafe);
  }

  /** The exponent's sign is where the two ways to write a key part. */
  lemma SanitizedExponent(e: ParkProof.Exponent)
    ensures |Sanitized(ParkProof.ExponentText(e, '-', '+'), KeySafe)| == |ParkProof.ExponentText(e, 'm', 'p')|
    ensures Sanitized(ParkProof.ExponentText(e, '-', '+'), KeySafe) == ParkProof.ExponentText(e, 'm', 'p') <==> e.NoExponent?
  {
    if e.Exponent? {
      assert Sanitized(ParkProof.ExponentText(e, '-', '+'), KeySafe)[1] == '_';
      assert ParkProof.ExponentText(e, 'm', 'p')[1] != '_';
    }
  }

  /** The agent's park key and the loops' own key agree exactly for stamps printed without an exponent. */
  lemma ParkKeysAgreeIff(p: ParkProof.Printed)
    requires ParkProof.WellPrinted(p)
    ensures Sanitized(ParkProof.Text(p), KeySafe) == ParkProof.Key(ParkProof.Text(p)) <==> p.exponent.NoExponent?
  {
    hide ParkProof.Key; hide ParkProof.Mantissa; hide ParkProof.ExponentText; hide ParkProof.WellPrinted; hide Sanitized;
    ParkProof.KeyOfPrinted(p);
    SanitizedHead(p);
    SanitizedExponent(p.exponent);
    var head, tail := ParkProof.Sign(p) + ParkProof.Mantissa(p), ParkProof.ExponentText(p.exponent, '-', '+');
    SanitizedPair(ParkProof.Sign(p), ParkProof.Mantissa(p));
    SanitizedPair(head, tail);
    var front := (if p.negative then "_" else "") + ParkProof.Mantissa(p);
    SameTail(front, Sanitized(tail, KeySafe), ParkProof.ExponentText(p.exponent, 'm', 'p'));
  }

  lemma SameTail(front: string, a: string, b: string)
    ensures front + a == front + b <==> a == b
  {
    assert a == (front + a)[|front|..] && b == (front + b)[|front|..];
  }

  // ---- drained -----------------------------------------------------------------------

  /** A gate's `changed_unix`: what equality compares, and how it prints. */
  datatype Changed = Changed(value: int, text: string)

  predicate Serves(p: Proc) {
    exists i :: 0 <= i < |p.argv| && ServingName(Name(Parse(p.argv[i])))
  }

  /** The pids, in census order, of serving processes not parked on this drain. */
  function Unparked(census: seq<Proc>, markers: set<string>, changed: Option<Changed>): seq<nat> {
    if census == [] then []
    else
      var p := census[0];
      (if Serves(p) && (changed.None? || ParkMarker(p, changed.value.text) !in markers) then [p.pid] else [])
      + Unparked(census[1..], markers, changed)
  }

  /** `scopes` is None when the broker's count is not an integer. */
  function Drained(census: seq<Proc>, markers: set<string>, changed: Option<Changed>, scopes: Option<int>)
    : (r: (bool, seq<nat>))
  {
    var unparked := Unparked(census, markers, changed);
    (changed.Some? && unparked == [] && scopes == Some(0), unparked)
  }

  lemma {:induction false} UnparkedIff(census: seq<Proc>, markers: set<string>, changed: Option<Changed>)
    ensures Unparked(census, markers, changed) == [] <==>
            forall p :: p in census && Serves(p) ==> changed.Some? && ParkMarker(p, changed.value.text) in markers
  {
    hide Serves;
    hide ParkMarker;
    if census != [] {
      UnparkedIff(census[1..], markers, changed);
      assert forall p :: p in census <==> p == census[0] || p in census[1..];
    }
  }

  // ---- rotation_evidence --------------------------------------------------------------

  /** What a broker's status proves. */
  datatype Status = Status(healthy: bool, draining: bool, scopes: Option<int>, loaded: bool)

  predicate BrokerProof(s: Status) {
    s.healthy && s.draining && s.scopes == Some(0) && s.loaded
  }

  /** The arguments whose last part names an admission program. */
  function Named(argv: seq<string>): (r: seq<string>)
    ensures forall part :: part in r <==> part in argv && RoleOf(Name(Parse(part))).Some?
  {
    if argv == [] then []
    else (if RoleOf(Name(Parse(argv[0]))).Some? then [argv[0]] else []) + Named(argv[1..])
  }

  function RelativeParts(path: Path, root: Path): Option<seq<string>> {
    if path.root == root.root && root.parts <= path.parts then Some(path.parts[|root.parts|..]) else None
  }

  predicate Absolute(path: Path) {
    path.root != ""
  }

  /** Whether `part` runs a program of the generation at `root`. */
  predicate Trusted(part: string, root: Path) {
    var path := Parse(part);
    var relative := RelativeParts(path, root);
    && relative.Some?
    && Absolute(path)
    && ".." !in relative.value
    && Name(Path("", relative.value)) == Name(path)
  }

  /** A trusted program stays below the generation directory, whatever ".." the root itself holds. */
  lemma TrustedStaysBelow(part: string, root: Path)
    requires Trusted(part, root) && RoleOf(Name(Parse(part))).Some?
    ensures Absolute(Parse(part)) && Parse(part).root == root.root
    ensures exists below: seq<string> :: below != [] && ".." !in below
              && Resolve(Parse(part).parts) == Resolve(root.parts) + below
              && below[|below| - 1] == Name(Parse(part))
  {
    hide Parse;
    var below := RelativeParts(Parse(part), root).value;
    assert Parse(part).parts == root.parts + below;
    ResolveAppends(root.parts, below);
  }

  /** The only admission argument of `p`, if there is exactly one. */
  function Program(p: Proc): Option<string> {
    var named := Named(p.argv);
    if |named| == 1 then Some(named[0]) else None
  }

  function RoleIn(p: Proc): Option<Role> {
    if Program(p).None? then None else RoleOf(Name(Parse(Program(p).value)))
  }

  /** An admission process as it must be found. */
  predicate InPlace(p: Proc, root: Path, stamp: string, markers: set<string>) {
    && Program(p).Some?
    && Trusted(Program(p).value, root)
    && (RoleIn(p).Some? && Claims(RoleIn(p).value) ==> ParkMarker(p, stamp) in markers)
  }

  predicate Admission(p: Proc) {
    Named(p.argv) != []
  }

  /** What a rotation proof promises about the census. */
  ghost predicate CensusRotated(census: seq<Proc>, root: Path, stamp: string, markers: set<string>) {
    && AllInPlace(census, root, stamp, markers)
    && (exists i :: Only(census, i, Supervisor))
    && (exists i :: 0 <= i < |census| && RoleIn(census[i]) == Some(Worker))
  }

  /** `i` is the one index holding this role. */
  ghost predicate Only(census: seq<Proc>, i: int, role: Role) {
    && 0 <= i < |census|
    && RoleIn(census[i]) == Some(role)
    && forall j :: 0 <= j < |census| && RoleIn(census[j]) == Some(role) ==> j == i
  }

  function Count(census: seq<Proc>, role: Role): nat {
    if census == [] then 0
    else Count(census[..|census| - 1], role) + if RoleIn(census[|census| - 1]) == Some(role) then 1 else 0
  }

  lemma {:induction false} CountNone(census: seq<Proc>, role: Role)
    ensures Count(census, role) == 0 <==> forall i :: 0 <= i < |census| ==> RoleIn(census[i]) != Some(role)
  {
    hide RoleIn;
    if census != [] {
      var front := census[..|census| - 1];
      CountNone(front, role);
      assert forall i :: 0 <= i < |front| ==> front[i] == census[i];
    }
  }

  lemma {:induction false} CountOne(census: seq<Proc>, role: Role)
    ensures Count(census, role) == 1 <==> exists i :: Only(census, i, role)
  {
    hide RoleIn;
    if census != [] {
      var front, last := census[..|census| - 1], |census| - 1;
      assert forall i :: 0 <= i < |front| ==> front[i] == census[i];
      CountNone(front, role);
      CountOne(front, role);
      if RoleIn(census[last]) == Some(role) {
        assert Count(front, role) == 0 ==> Only(census, last, role);
        assert forall i :: Only(census, i, role) ==> i == last;
      } else {
        forall i ensures Only(front, i, role) <==> Only(census, i, role) {}
      }
    }
  }

  datatype Observation = Observation(pid: nat, start: string, role: Role, path: string, parked: bool)

  datatype RotationError =
    | BrokerProofIncomplete
    | GateUnknown
    | CensusIncomplete
    | Ambiguous(pid: nat)
    | Outside(pid: nat, role: Role)
    | Untrusted(pid: nat, role: Role)
    | NotParked(pid: nat, role: Role)
    | SupervisorCount
    | NoWorkers
    | GateMoved

  datatype Evidence = Evidence(rotated: bool, observed: seq<Observation>, errors: seq<RotationError>)

  function Observe(p: Proc, stamp: string, markers: set<string>): Observation
    requires RoleIn(p).Some?
  {
    Observation(p.pid, p.start, RoleIn(p).value, Program(p).value, ParkMarker(p, stamp) in markers)
  }

  /** What a whole rotation proof promises, from the broker's status to the second look at the gate. */
  ghost predicate Rotated(status: Status, before: Option<Changed>, census: Option<seq<Proc>>, markers: set<string>,
                          after: Option<Changed>, root: Path)
  {
    && BrokerProof(status)
    && before.Some? && census.Some?
    && after.Some? && after.value.value == before.value.value
    && CensusRotated(census.value, root, before.value.text, markers)
  }

  /** The errors one process adds. */
  method Inspect(p: Proc, root: Path, stamp: string, markers: set<string>)
    returns (errors: seq<RotationError>, observed: seq<Observation>)
    ensures errors == [] <==> (Admission(p) ==> InPlace(p, root, stamp, markers))
    ensures observed == [] || (RoleIn(p).Some? && observed == [Observe(p, stamp, markers)])
    ensures errors == [] && Admission(p) ==> RoleIn(p).Some? && observed == [Observe(p, stamp, markers)]
    ensures forall e :: e in errors ==> e.Ambiguous? || e.Outside? || e.Untrusted? || e.NotParked?
  {
    hide Parse;
    hide RoleOf;
    hide ParkMarker;
    errors, observed := [], [];
    var named := Named(p.argv);
    if |named| == 0 { return; }
    if |named| != 1 { return [Ambiguous(p.pid)], []; }
    assert named[0] in named;
    var path := Parse(named[0]);
    var role := RoleOf(Name(path)).value;
    var relative := RelativeParts(path, root);
    if relative.None? { return [Outside(p.pid, role)], []; }
    if !Absolute(path) || ".." in relative.value || Name(Path("", relative.value)) != Name(path) {
      return [Untrusted(p.pid, role)], [];
    }
    var parked := ParkMarker(p, stamp) in markers;
    if Claims(role) && !parked {
      errors := [NotParked(p.pid, role)];
    }
    observed := [Observation(p.pid, p.start, role, named[0], parked)];
  }

  ghost predicate AllInPlace(procs: seq<Proc>, root: Path, stamp: string, markers: set<string>) {
    forall i :: 0 <= i < |procs| && Admission(procs[i]) ==> InPlace(procs[i], root, stamp, markers)
  }

  /** Everything observed is an admission process of the census; with `all`, every one of them is observed. */
  ghost predicate Observes(observed: seq<Observation>, procs: seq<Proc>, stamp: string, markers: set<string>, all: bool) {
    && (forall o :: o in observed ==> exists p :: p in procs && RoleIn(p).Some? && o == Observe(p, stamp, markers))
    && (all ==> forall p :: p in procs && Admission(p) ==> RoleIn(p).Some? && Observe(p, stamp, markers) in observed)
  }

  lemma ObservesMore(observed: seq<Observation>, procs: seq<Proc>, stamp: string, markers: set<string>, all: bool,
                     p: Proc, seen: seq<Observation>, good: bool)
    requires Observes(observed, procs, stamp, markers, all)
    requires seen == [] || (RoleIn(p).Some? && seen == [Observe(p, stamp, markers)])
    requires good && Admission(p) ==> RoleIn(p).Some? && seen == [Observe(p, stamp, markers)]
    ensures Observes(observed + seen, procs + [p], stamp, markers, all && good)
  {
    hide Admission;
    hide RoleIn;
    hide Observe;
    assert p in procs + [p];
    assert forall q :: q in procs ==> q in procs + [p];
  }

  /** The census loop: every process in turn, counting supervisors and worker loops. */
  method InspectAll(procs: seq<Proc>, root: Path, stamp: string, markers: set<string>)
    returns (errors: seq<RotationError>, observed: seq<Observation>, supervisors: nat, workers: nat)
    ensures errors == [] <==> AllInPlace(procs, root, stamp, markers)
    ensures Observes(observed, procs, stamp, markers, errors == [])
    ensures supervisors == Count(procs, Supervisor) && workers == Count(procs, Worker)
  {
    hide Admission;
    hide InPlace;
    hide RoleIn;
    hide Observe;
    hide Observes;
    errors, observed, supervisors, workers := [], [], 0, 0;
    assert Observes([], [], stamp, markers, true) by { EmptyObserves(stamp, markers); }
    for i := 0 to |procs|
      invariant supervisors == Count(procs[..i], Supervisor) && workers == Count(procs[..i], Worker)
      invariant errors == [] <==> AllInPlace(procs[..i], root, stamp, markers)
      invariant Observes(observed, procs[..i], stamp, markers, errors == [])
    {
      var p := procs[i];
      assert procs[..i + 1][..i] == procs[..i] && procs[..i + 1] == procs[..i] + [p];
      if RoleIn(p) == Some(Supervisor) { supervisors := supervisors + 1; }
      if RoleIn(p) == Some(Worker) { workers := workers + 1; }
      var more, seen := Inspect(p, root, stamp, markers);
      ObservesMore(observed, procs[..i], stamp, markers, errors == [], p, seen, more == []);
      assert errors + more == [] <==> errors == [] && more == [];
      errors, observed := errors + more, observed + seen;
    }
    assert procs[..|procs|] == procs;
  }

  lemma EmptyObserves(stamp: string, markers: set<string>)
    ensures Observes([], [], stamp, markers, true)
  {
  }

  /** `census` is None when it could not be completed; `after` is the gate read again at the end. */
  method RotationEvidence(status: Status, before: Option<Changed>, census: Option<seq<Proc>>, markers: set<string>,
                          after: Option<Changed>, store: string, generation: string)
    returns (evidence: Evidence)
    ensures evidence.rotated <==> Rotated(status, before, census, markers, after, Join(Parse(store), generation))
    ensures evidence.rotated <==> evidence.errors == []
    ensures evidence.observed != [] ==> census.Some? && before.Some?
    ensures census.Some? && before.Some? ==>
              Observes(evidence.observed, census.value, before.value.text, markers, evidence.rotated)
  {
    hide Parse;
    hide Join;
    hide Admission;
    hide InPlace;
    hide RoleIn;
    hide Observe;
    if !BrokerProof(status) { return Evidence(false, [], [BrokerProofIncomplete]); }
    if before.None? { return Evidence(false, [], [GateUnknown]); }
    if census.None? { return Evidence(false, [], [CensusIncomplete]); }
    var root, stamp := Join(Parse(store), generation), before.value.text;
    var errors, observed, supervisors, workers := InspectAll(census.value, root, stamp, markers);
    CountOne(census.value, Supervisor);
    CountNone(census.value, Worker);
    if supervisors != 1 { errors := errors + [SupervisorCount]; }
    if workers < 1 { errors := errors + [NoWorkers]; }
    if after.None? || after.value.value != before.value.value { errors := errors + [GateMoved]; }
    return Evidence(errors == [], observed, errors);
  }

  lemma OnlyOne(s: seq<string>, x: string)
    requires x in s
    ensures |s| == 1 ==> s[0] == x
  {
  }

  lemma ServingClaims(name: string)
    requires ServingName(name)
    ensures RoleOf(name).Some? && Claims(RoleOf(name).value)
  {
  }

  lemma ServingIsParked(p: Proc, root: Path, stamp: string, markers: set<string>)
    requires Serves(p) && (Admission(p) ==> InPlace(p, root, stamp, markers))
    ensures ParkMarker(p, stamp) in markers
  {
    hide ParkMarker;
    hide Parse;
    hide Trusted;
    hide RoleOf;
    hide ServingName;
    var i :| 0 <= i < |p.argv| && ServingName(Name(Parse(p.argv[i])));
    ServingClaims(Name(Parse(p.argv[i])));
    assert p.argv[i] in Named(p.argv);
    hide Named;
    OnlyOne(Named(p.argv), p.argv[i]);
  }

  /** Rotation evidence is drain evidence: the same census also satisfies `drained`. */
  lemma RotatedIsDrained(status: Status, before: Option<Changed>, census: Option<seq<Proc>>, markers: set<string>,
                         after: Option<Changed>, root: Path)
    requires Rotated(status, before, census, markers, after, root)
    ensures Drained(census.value, markers, before, status.scopes) == (true, [])
  {
    hide Serves;
    hide InPlace;
    hide Admission;
    hide ParkMarker;
    forall p | p in census.value && Serves(p) ensures ParkMarker(p, before.value.text) in markers {
      ServingIsParked(p, root, before.value.text, markers);
    }
    UnparkedIff(census.value, markers, before);
  }

  /** Every admission process of a rotated host runs below the generation directory. */
  lemma RotatedRunsGeneration(census: seq<Proc>, root: Path, stamp: string, markers: set<string>, i: nat)
    requires CensusRotated(census, root, stamp, markers) && i < |census| && Admission(census[i])
    ensures RoleIn(census[i]).Some? && Absolute(Parse(Program(census[i]).value))
    ensures exists below: seq<string> :: below != [] && ".." !in below &&
              Resolve(Parse(Program(census[i]).value).parts) == Resolve(root.parts) + below
  {
    hide Parse;
    hide Trusted;
    hide ParkMarker;
    var part := Program(census[i]).value;
    assert part in Named(census[i].argv);
    TrustedStaysBelow(part, root);
  }
}
