/**
 The upgrade agent of one host: the journaled install transaction, its recovery, and the
 tick that runs them. A `moves` script is the environment: before every primitive step the
 agent takes, workers, other root callers and the service manager move, and then the step
 goes ahead, raises, or is never reached because the host crashes. Every interleaving and
 every crash point is some script.
 */
module Client {
  import opened Base
  import opened ClientFiles
  import Broker

  /** `Restarting`: failed, and about to be started again by the service manager. */
  datatype Service = Running | Stopped | Restarting

  datatype Move =
    | Go(ok: bool)
    | Crash
    | ScopeStart
    | ScopeEnd
    | OtherCall(call: Broker.Call)
    | ServiceFails
    | ServiceRestarts

  datatype Signal = Dead | Proceed(ok: bool)

  datatype Outcome = Done | Crashed | Error | HeldOther | Draining

  datatype Act =
    | Asked(service: Service)
    | Opened(gate: Broker.Gate)
    | StoppedService(gate: Broker.Gate, scopes: nat)
    | Wrote(member: Member, service: Service)
    | Ended(gate: Broker.Gate)

  /** `file`: the volatile gate file that workers read is there. */
  datatype World = World(service: Service, gate: Broker.Gate, scopes: nat, file: bool)

  /** One move of the environment. */
  function Drift(w: World, move: Move): World {
    match move
    case ScopeStart => if w.gate.Open? then w.(scopes := w.scopes + 1) else w
    case ScopeEnd => if w.scopes > 0 then w.(scopes := w.scopes - 1) else w
    case OtherCall(call) =>
      if call.owner != Broker.AGENT && w.service.Running? && Broker.Reply(w.gate, call).Some?
      then w.(gate := Broker.Serve(w.gate, call), file := true) else w
    case ServiceFails => if w.service.Running? then w.(service := Restarting) else w
    case ServiceRestarts => if w.service.Restarting? then w.(service := Running) else w
    case _ => w
  }

  predicate Ready(move: Move) {
    move.Go? || move.Crash?
  }

  /** The world when the agent's next step goes ahead or dies. */
  function Settle(w: World, moves: seq<Move>): World
    decreases |moves|
  {
    if moves == [] || Ready(moves[0]) then w else Settle(Drift(w, moves[0]), moves[1..])
  }

  /** The rest of the script from that step on. */
  function Pending(moves: seq<Move>): seq<Move>
    decreases |moves|
  {
    if moves == [] || Ready(moves[0]) then moves else Pending(moves[1..])
  }

  function Next(moves: seq<Move>): Signal {
    var now := Pending(moves);
    if now != [] && now[0].Go? then Proceed(now[0].ok) else Dead
  }

  function Rest(moves: seq<Move>): seq<Move> {
    var now := Pending(moves);
    if now == [] then [] else now[1..]
  }

  /** What the environment can do to a world. */
  ghost predicate Drifted(w: World, w': World) {
    && (w.gate == Broker.Draining(Broker.AGENT) ==> w'.gate == w.gate && w'.scopes <= w.scopes)
    && (w.service.Stopped? ==> w'.service.Stopped?)
    && (w.file ==> w'.file)
  }

  lemma DriftDrifts(w: World, move: Move)
    ensures Drifted(w, Drift(w, move))
  {
    Broker.OwnersDiffer();
  }

  lemma {:induction false} SettleDrifts(w: World, moves: seq<Move>)
    ensures Drifted(w, Settle(w, moves))
    decreases |moves|
  {
    if moves != [] && !Ready(moves[0]) {
      DriftDrifts(w, moves[0]);
      SettleDrifts(Drift(w, moves[0]), moves[1..]);
    }
  }

  // ---- What the agent did --------------------------------------------------------------------

  /** The broker is stopped only behind a closed gate with nothing running. */
  predicate KillsNothing(a: Act) {
    a.StoppedService? ==> a.gate.Draining? && a.scopes == 0
  }

  /** A stop that may interrupt work follows at once on an unattributed drain taken for the agent's own. */
  ghost predicate StopGuarded(acts: seq<Act>, i: nat)
    requires i < |acts|
  {
    KillsNothing(acts[i]) || (i > 0 && acts[i - 1] == Opened(Broker.Draining(Broker.UNOWNED)))
  }

  /** A write that meets a service not stopped belongs to a recovery that found the unit between two restarts. */
  ghost predicate WriteGuarded(acts: seq<Act>, i: nat)
    requires i < |acts|
  {
    acts[i].Wrote? && !acts[i].service.Stopped? ==>
      exists j :: 0 <= j < i && acts[j] == Asked(Restarting) && forall k :: j < k < i ==> acts[k].Wrote?
  }

  /**
   How the agent has behaved since `before`: each stop and each write is guarded, and no
   drain that was to be kept has been ended.
   */
  ghost predicate Behaves(before: seq<Act>, acts: seq<Act>, kept: bool) {
    && before <= acts
    && forall i :: |before| <= i < |acts| ==>
         StopGuarded(acts, i) && WriteGuarded(acts, i) && (kept ==> !acts[i].Ended?)
  }

  lemma BehavesOn(a: seq<Act>, b: seq<Act>, c: seq<Act>, kept: bool)
    requires Behaves(a, b, kept) && Behaves(b, c, kept)
    ensures Behaves(a, c, kept)
  {
    forall i | |a| <= i < |c| ensures StopGuarded(c, i) && WriteGuarded(c, i) && (kept ==> !c[i].Ended?) {
      if i < |b| {
        GuardsCarryOver(b, c, i);
        assert c[i] == b[i];
      }
    }
  }

  lemma GuardsCarryOver(b: seq<Act>, c: seq<Act>, i: nat)
    requires b <= c && i < |b| && StopGuarded(b, i) && WriteGuarded(b, i)
    ensures StopGuarded(c, i) && WriteGuarded(c, i)
  {
    assert forall k :: 0 <= k <= i ==> c[k] == b[k];
  }

  lemma KeptOrNot(a: seq<Act>, b: seq<Act>, kept: bool)
    requires Behaves(a, b, true)
    ensures Behaves(a, b, kept)
  {
  }

  predicate IsEnd(a: Act) {
    a.Ended? && !Broker.HeldElsewhere(a.gate)
  }

  predicate OpensOrEndsOwn(a: Act) {
    a.Opened? || EndsAgentDrain(a)
  }

  predicate EndsAgentDrain(a: Act) {
    a == Ended(Broker.Draining(Broker.AGENT))
  }

  /** `acts` continues `before` with acts that are all `good`. */
  ghost predicate Continues(before: seq<Act>, acts: seq<Act>, good: Act -> bool) {
    before <= acts && forall i :: |before| <= i < |acts| ==> good(acts[i])
  }

  lemma EndsBehave(before: seq<Act>, acts: seq<Act>, kept: bool)
    requires Continues(before, acts, IsEnd) && (kept ==> acts == before)
    ensures Behaves(before, acts, kept)
  {
  }

  /** The agent's own idle drain is in force, or the last thing it did was to take an unattributed one for it. */
  ghost predicate Cleared(acts: seq<Act>, w: World) {
    || (w.gate == Broker.Draining(Broker.AGENT) && w.scopes == 0)
    || (acts != [] && acts[|acts| - 1] == Opened(Broker.Draining(Broker.UNOWNED)))
  }

  // ---- Traces ------------------------------------------------------------------------------------

  /** What a stretch of the agent's steps comes to under a script. */
  datatype Trace = Trace(world: World, moves: seq<Move>, acts: seq<Act>, done: bool)

  /** `open_drain`, and the caller's look at the holder. */
  function Opening(w: World, moves: seq<Move>): Trace {
    var x := Settle(w, moves);
    var begun := Broker.Begin(x.gate, Broker.AGENT);
    if Next(moves) == Proceed(true) && x.service.Running? && begun.Some?
    then Trace(x.(gate := begun.value, file := true), Rest(moves), [Opened(begun.value)], true)
    else Trace(x, Rest(moves), [], false)
  }

  /** `ctl('stop')`. */
  function Stopping(w: World, moves: seq<Move>): Trace {
    var x := Settle(w, moves);
    if Next(moves) == Proceed(true)
    then Trace(x.(service := Stopped), Rest(moves), [StoppedService(x.gate, x.scopes)], true)
    else Trace(x, Rest(moves), [], false)
  }

  /** `copy_files` over these members, all of whose bytes match. */
  function Copying(w: World, moves: seq<Move>, members: seq<Member>): Trace
    decreases |members|
  {
    if members == [] then Trace(w, moves, [], true)
    else
      var x := Settle(w, moves);
      if Next(moves) == Proceed(true)
      then After([Wrote(members[0], x.service)], Copying(x, Rest(moves), members[1..]))
      else Trace(x, Rest(moves), [], false)
  }

  function After(acts: seq<Act>, t: Trace): Trace {
    t.(acts := acts + t.acts)
  }

  /** The guarded stop, from the world in which `is-active` was asked. */
  function Quieting(x: World, moves: seq<Move>): Trace {
    if !x.service.Running? then Trace(x, moves, [], true)
    else
      var t := Opening(x, moves);
      if !t.done || t.world.scopes != 0 then t.(done := false)
      else After(t.acts, Stopping(t.world, t.moves))
  }

  /** The part of a recovery that touches the install directory, from that look on. */
  function FromLook(x: World, moves: seq<Move>, members: seq<Member>): Trace {
    var t := Quieting(x, moves);
    if !t.done then t else After(t.acts, Copying(t.world, t.moves, members))
  }

  /** The same from the start, the look included. */
  function Recovering(w: World, moves: seq<Move>, members: seq<Member>): Trace {
    var x := Settle(w, moves);
    if Next(moves).Dead? then Trace(x, Rest(moves), [], false)
    else After([Asked(x.service)], FromLook(x, Rest(moves), members))
  }

  // ---- Exactly when a recovery's writes are safe ---------------------------------------------------

  ghost predicate WritesMeet(acts: seq<Act>, service: Service) {
    exists i :: 0 <= i < |acts| && acts[i].Wrote? && acts[i].service == service
  }

  lemma {:induction false} StoppedCopy(w: World, moves: seq<Move>, members: seq<Member>)
    requires w.service.Stopped?
    ensures forall i :: 0 <= i < |Copying(w, moves, members).acts| ==>
              Copying(w, moves, members).acts[i].Wrote? && Copying(w, moves, members).acts[i].service.Stopped?
    decreases |members|
  {
    hide Settle; hide Next; hide Rest;
    if members != [] {
      SettleDrifts(w, moves);
      StoppedCopy(Settle(w, moves), Rest(moves), members[1..]);
    }
  }

  lemma QuietWritesNothing(x: World, moves: seq<Move>)
    ensures forall i :: 0 <= i < |Quieting(x, moves).acts| ==> !Quieting(x, moves).acts[i].Wrote?
    ensures Quieting(x, moves).done ==> Quieting(x, moves).world.service.Stopped? || x.service.Restarting?
  {
    hide Settle; hide Next; hide Rest;
  }

  /** The unit comes back up, and then the first write goes ahead. */
  const RESTART_FIRST: seq<Move> := [ServiceRestarts, Go(true)]

  lemma RestartFirst(x: World, members: seq<Member>)
    requires x.service.Restarting? && members != []
    ensures FromLook(x, RESTART_FIRST, members).acts != []
    ensures FromLook(x, RESTART_FIRST, members).acts[0] == Wrote(members[0], Running)
  {
    var moves := RESTART_FIRST;
    assert moves[1..] == [Go(true)];
    assert Settle(x, moves) == Settle(Drift(x, ServiceRestarts), [Go(true)]) == x.(service := Running);
    assert Pending(moves) == Pending([Go(true)]) == [Go(true)];
  }

  ghost predicate NeverMeetsRunning(x: World, moves: seq<Move>, members: seq<Member>) {
    !WritesMeet(FromLook(x, moves, members).acts, Running)
  }

  /**
   Recovery's writes never meet a running service, under any script, exactly when the unit
   was not between two restarts as recovery looked.
   */
  lemma RecoveryWritesDownIff(x: World, members: seq<Member>)
    requires members != []
    ensures (forall moves :: NeverMeetsRunning(x, moves, members)) <==> !x.service.Restarting?
  {
    hide FromLook;
    if x.service.Restarting? {
      RestartFirst(x, members);
      assert !NeverMeetsRunning(x, RESTART_FIRST, members);
    } else {
      forall moves ensures NeverMeetsRunning(x, moves, members) {
        QuietedWrites(x, moves, members);
      }
    }
  }

  lemma QuietedWrites(x: World, moves: seq<Move>, members: seq<Member>)
    requires !x.service.Restarting?
    ensures NeverMeetsRunning(x, moves, members)
  {
    hide Quieting; hide Copying;
    QuietWritesNothing(x, moves);
    var t := Quieting(x, moves);
    if t.done {
      StoppedCopy(t.world, t.moves, members);
    }
  }

  // ---- Exactly when a stop is safe -------------------------------------------------------------------

  ghost predicate StopsIdle(w: World, moves: seq<Move>) {
    forall i :: 0 <= i < |Stopping(w, moves).acts| ==> KillsNothing(Stopping(w, moves).acts[i])
  }

  /** The drain is ended and work starts before the stop goes ahead. */
  const KILL_FIRST: seq<Move> := [OtherCall(Broker.EndBy("operator")), ScopeStart, Go(true)]

  lemma KillFirst(w: World)
    requires w.service.Running? && w.gate == Broker.Draining(Broker.UNOWNED) && w.scopes == 0
    ensures Settle(w, KILL_FIRST) == w.(gate := Broker.Open, scopes := 1, file := true) && Next(KILL_FIRST) == Proceed(true)
    ensures Stopping(w, KILL_FIRST).acts == [StoppedService(Broker.Open, 1)]
  {
    assert Broker.EndBy("operator").owner != Broker.AGENT by { assert "operator"[0] != Broker.AGENT[0]; }
    var moves := KILL_FIRST;
    var last: seq<Move> := [Go(true)];
    assert moves[1..] == [ScopeStart, Go(true)] && moves[1..][1..] == last;
    var open := w.(gate := Broker.Open, file := true);
    assert Drift(w, moves[0]) == open && Drift(open, ScopeStart) == open.(scopes := 1);
    assert Settle(open.(scopes := 1), last) == open.(scopes := 1);
    assert Settle(open, moves[1..]) == open.(scopes := 1);
    assert Pending(moves) == Pending(moves[1..]) == Pending(last) == last;
  }

  /**
   After an idle drain has been opened, the stop interrupts no work, under any script,
   exactly when the drain is the agent's own and not an unattributed one.
   */
  lemma StopKillsNothingIff(w: World)
    requires w.service.Running? && w.gate.Draining? && !Broker.HeldElsewhere(w.gate) && w.scopes == 0
    ensures (forall moves :: StopsIdle(w, moves)) <==> w.gate == Broker.Draining(Broker.AGENT)
  {
    if w.gate == Broker.Draining(Broker.AGENT) {
      forall moves ensures StopsIdle(w, moves) {
        SettleDrifts(w, moves);
      }
    } else {
      KillFirst(w);
      var stop := Stopping(w, KILL_FIRST).acts[0];
      assert stop == StoppedService(Broker.Open, 1) && !KillsNothing(stop);
      assert !StopsIdle(w, KILL_FIRST);
    }
  }

  /** Every member of `install` is as in `base`, as in the target, or as recovery leaves it. */
  ghost predicate Mixed(install: Files, base: Files, desired: map<Member, Code>) {
    forall m ::
      || At(install, m) == At(base, m)
      || At(install, m) == At(Published(desired), m)
      || At(install, m) == At(Restored(base), m)
  }

  /** A transaction in progress from `base`. */
  ghost predicate InProgress(tx: Transaction, base: Files, desired: map<Member, Code>, previous: map<Member, Code>) {
    && WholeClient(base) && ValidExport(desired) && RecoveryFence(base, desired) && CapabilityFence(base, desired)
    && tx == JournalFor(base, desired, tx.rolloutEpoch)
    && Kept(previous, base)
  }

  /**
   The disk of one host: without a journal the install directory is the one whole client
   `base`; with one, `previous/` still matches its hashes and every member is old or new.
   */
  ghost predicate DiskOk(install: Files, previous: map<Member, Code>, journal: Option<Transaction>,
                         base: Files, desired: map<Member, Code>) {
    && WholeClient(base)
    && (journal.None? ==> install == base)
    && (journal.Some? ==> InProgress(journal.value, base, desired, previous) && Mixed(install, base, desired))
  }

  lemma WholePublished(desired: map<Member, Code>)
    requires ValidExport(desired)
    ensures WholeClient(Published(desired))
  {
  }

  lemma WholeRestored(base: Files)
    requires WholeClient(base)
    ensures WholeClient(Restored(base))
  {
  }

  /** A reader that accepts the journal knows the proof file's metadata. */
  lemma ProofMetadataKnown(tx: Transaction, base: Files, desired: map<Member, Code>, previous: map<Member, Code>,
                           reader: Reader)
    requires InProgress(tx, base, desired, previous) && PreviousProofMetadata(reader, tx).Metadata?
    requires ParkProof in tx.previous ==> reader.ProtocolTwo?
    ensures ParkProof in base ==> PreviousProofMetadata(reader, tx).meta == Some(base[ParkProof].meta)
  {
  }

  /** Copying the kept files over a directory restores the members reached so far. */
  lemma RestoringAt(tx: Transaction, base: Files, desired: map<Member, Code>, previous: map<Member, Code>,
                    install: Files, proof: Option<Meta>, k: nat, m: Member)
    requires InProgress(tx, base, desired, previous) && k <= |ALL|
    requires ParkProof in base ==> proof == Some(base[ParkProof].meta)
    ensures At(CopyUpTo(install, previous, tx.previous, proof, k), m)
            == if m in Names(base, desired) && m in ALL[..k] then At(Restored(base), m) else At(install, m)
  {
    hide RecoveryFence; hide CapabilityFence; hide CopyUpTo;
    assert Holds(previous, tx.previous);
    CopyUpToAt(install, previous, tx.previous, proof, k, m);
  }

  /** So a mixed directory stays mixed at every point. */
  lemma RestoringStaysMixed(tx: Transaction, base: Files, desired: map<Member, Code>, previous: map<Member, Code>,
                            install: Files, proof: Option<Meta>, k: nat)
    requires InProgress(tx, base, desired, previous) && Mixed(install, base, desired) && k <= |ALL|
    requires ParkProof in base ==> proof == Some(base[ParkProof].meta)
    ensures Mixed(CopyUpTo(install, previous, tx.previous, proof, k), base, desired)
  {
    hide InProgress; hide CopyUpTo; hide Restored; hide Published;
    var now := CopyUpTo(install, previous, tx.previous, proof, k);
    forall m ensures At(now, m) == At(install, m) || At(now, m) == At(Restored(base), m) {
      RestoringAt(tx, base, desired, previous, install, proof, k, m);
    }
    hide At;
  }

  /** And becomes the restored client at the end. */
  lemma RestoringCompletes(tx: Transaction, base: Files, desired: map<Member, Code>, previous: map<Member, Code>,
                           install: Files, proof: Option<Meta>)
    requires InProgress(tx, base, desired, previous) && Mixed(install, base, desired)
    requires ParkProof in base ==> proof == Some(base[ParkProof].meta)
    ensures CopyUpTo(install, previous, tx.previous, proof, |ALL|) == Restored(base)
  {
    hide RecoveryFence; hide CapabilityFence; hide CopyUpTo;
    var now := CopyUpTo(install, previous, tx.previous, proof, |ALL|);
    forall m ensures At(now, m) == At(Restored(base), m) {
      RestoringAt(tx, base, desired, previous, install, proof, |ALL|, m);
      if m !in Names(base, desired) {
        OutsideNames(base, desired, install, m);
      }
      if Listed(m) {
        ListedInAll(m);
      }
    }
    FilesEqual(now, Restored(base));
  }

  /** A mixed directory holds nothing but members of the transaction. */
  lemma OutsideNames(base: Files, desired: map<Member, Code>, install: Files, m: Member)
    requires Mixed(install, base, desired) && m !in Names(base, desired)
    ensures At(install, m) == None && At(Restored(base), m) == None
  {
    assert At(install, m) == At(base, m) || At(install, m) == At(Published(desired), m)
           || At(install, m) == At(Restored(base), m);
  }

  /** Installing the staged files over the old client leaves it mixed at every point. */
  lemma InstallingStaysMixed(base: Files, desired: map<Member, Code>, staged: map<Member, Code>, files: Hashes, k: nat)
    requires WholeClient(base) && ValidExport(desired) && k <= |ALL|
    requires files == TargetHashes(base, desired) && forall m :: m in desired ==> m in staged && staged[m] == desired[m]
    ensures Mixed(CopyUpTo(base, staged, files, None, k), base, desired)
    ensures k == |ALL| ==> CopyUpTo(base, staged, files, None, k) == Published(desired)
  {
    var now := CopyUpTo(base, staged, files, None, k);
    assert Holds(staged, files);
    forall m ensures At(now, m) == At(base, m) || At(now, m) == At(Published(desired), m) {
      CopyUpToAt(base, staged, files, None, k, m);
    }
    if k == |ALL| {
      forall m ensures At(now, m) == At(Published(desired), m) {
        CopyUpToAt(base, staged, files, None, k, m);
        if Listed(m) {
          ListedInAll(m);
        }
      }
      FilesEqual(now, Published(desired));
    }
  }

  /** `target_files`: a hash for every member of the version, and absence for the others. */
  function TargetHashes(base: Files, desired: map<Member, Code>): Hashes {
    map m | m in Names(base, desired) :: if m in desired then Some(HashOf(desired[m])) else None
  }

  /** Root-owned and writable by nobody else. */
  predicate ProofMetadataSafe(files: Files) {
    ParkProof in files ==>
      files[ParkProof].meta.uid == 0 && (files[ParkProof].meta.mode / 16) % 2 == 0 && (files[ParkProof].meta.mode / 2) % 2 == 0
  }

  /** The fences of a transaction passed. */
  predicate Fenced(base: Files, desired: map<Member, Code>) {
    WholeClient(base) && ValidExport(desired) && CapabilityFence(base, desired) && RecoveryFence(base, desired)
  }

  datatype TickInput = TickInput(moves: seq<Move>, desired: map<Member, Code>, epoch: Option<string>, reboot: bool)

  /** A tick leaves the client it found, or the fenced version it was to install. */
  ghost predicate Succeeds(before: Files, after: Files, desired: map<Member, Code>) {
    SameClient(after, before) || (after == Published(desired) && Fenced(before, desired))
  }

  /** Broker durability and rollout awareness, once there, stay. */
  ghost predicate Capable(before: Files, after: Files) {
    && WholeClient(before) && WholeClient(after)
    && (before[ResourceBroker].data.durable ==> after[ResourceBroker].data.durable)
    && (before[UpgradeClient].data.rolloutAware ==> after[UpgradeClient].data.rolloutAware)
  }

  lemma SuccessionKeeps(first: Files, before: Files, after: Files, desired: map<Member, Code>)
    requires Capable(first, before) && Succeeds(before, after, desired)
    ensures Capable(first, after)
    ensures SameClient(after, before) || SameClient(after, Published(desired))
    ensures forall c :: SameClient(before, c) && SameClient(after, before) ==> SameClient(after, c)
  {
    assert ResourceBroker in REQUIRED && UpgradeClient in REQUIRED;
    if !SameClient(after, before) {
      WholePublished(desired);
    }
  }

  /** One of the ticks' versions, or the first client; never less capable than the first. */
  ghost predicate FromTicks(first: Files, now: Files, ticks: seq<TickInput>, n: nat) {
    && n <= |ticks|
    && (SameClient(now, first) || exists t :: 0 <= t < n && SameClient(now, Published(ticks[t].desired)))
    && Capable(first, now)
  }

  lemma FirstClient(base: Files, ticks: seq<TickInput>)
    requires WholeClient(base)
    ensures FromTicks(base, base, ticks, 0)
  {
  }

  lemma FromMore(first: Files, before: Files, after: Files, ticks: seq<TickInput>, n: nat)
    requires n < |ticks| && FromTicks(first, before, ticks, n) && Succeeds(before, after, ticks[n].desired)
    ensures FromTicks(first, after, ticks, n + 1)
  {
    SuccessionKeeps(first, before, after, ticks[n].desired);
    hide SameClient; hide Capable; hide Published; hide Succeeds;
  }

  /** The updater on disk during a transaction is the old or the new one, and can recover it. */
  lemma UpdaterOnDisk(install: Files, base: Files, desired: map<Member, Code>, previous: map<Member, Code>, tx: Transaction)
    requires InProgress(tx, base, desired, previous) && Mixed(install, base, desired)
    ensures UpgradeClient in install
    ensures install[UpgradeClient].data == base[UpgradeClient].data || install[UpgradeClient].data == desired[UpgradeClient]
    ensures Accepts(ReaderOf(install[UpgradeClient].data), tx)
    ensures ParkProof in tx.previous ==> ReaderOf(install[UpgradeClient].data).ProtocolTwo?
  {
    var m := UpgradeClient;
    assert m in REQUIRED;
    assert || At(install, m) == At(base, m)
           || At(install, m) == At(Published(desired), m)
           || At(install, m) == At(Restored(base), m);
    FencedJournalAccepted(base, desired, tx.rolloutEpoch, install[m].data);
  }

  predicate Same(a: map<Member, Code>, b: map<Member, Code>, m: Member) {
    (m in a <==> m in b) && (m in a && m in b ==> a[m] == b[m])
  }

  /** The members `files` names, in the order they are copied, from the `k`th on. */
  function Chosen(files: Hashes, k: nat): seq<Member>
    requires k <= |ALL|
    decreases |ALL| - k
  {
    if k == |ALL| then [] else (if ALL[k] in files then [ALL[k]] else []) + Chosen(files, k + 1)
  }

  lemma {:induction false} ChosenSome(files: Hashes, k: nat, n: nat)
    requires k <= n < |ALL| && ALL[n] in files
    ensures Chosen(files, k) != []
    decreases n - k
  {
    if k < n {
      ChosenSome(files, k + 1, n);
    }
  }

  /** A journaled transaction names at least the required members. */
  lemma JournalNames(tx: Transaction, base: Files, desired: map<Member, Code>, previous: map<Member, Code>)
    requires InProgress(tx, base, desired, previous)
    ensures Chosen(tx.previous, 0) != [] && ClientFiles.Holds(previous, tx.previous)
  {
    assert GpuMemory in REQUIRED;
    assert ALL[1] in tx.previous;
    ChosenSome(tx.previous, 0, 1);
  }

  class Client {
    var install: Files
    var previous: map<Member, Code>
    var staged: map<Member, Code>
    var journal: Option<Transaction>
    var service: Service
    var gate: Broker.Gate
    var scopes: nat
    var file: bool
    var moves: seq<Move>

    /** The last whole client, the target of a transaction in progress, and what the agent did. */
    ghost var base: Files
    ghost var target: map<Member, Code>
    ghost var acts: seq<Act>

    ghost predicate Valid()
      reads this
    {
      DiskOk(install, previous, journal, base, target)
    }

    ghost function TheWorld(): World
      reads this
    {
      World(service, gate, scopes, file)
    }

    constructor (files: Files, gate: Broker.Gate)
      requires WholeClient(files)
      ensures Valid() && base == files && journal.None? && acts == [] && this.gate == gate && service.Running?
    {
      install, previous, staged, journal := files, map[], map[], None;
      service, this.gate, scopes, file, moves := Running, gate, 0, true, [];
      base, target, acts := files, map[], [];
    }

    /** Lets the environment move until the agent's next step goes ahead or the host dies. */
    method Pause() returns (signal: Signal)
      modifies this`moves, this`service, this`gate, this`scopes, this`file
      ensures TheWorld() == Settle(old(TheWorld()), old(moves)) && Drifted(old(TheWorld()), TheWorld())
      ensures signal == Next(old(moves)) && moves == Rest(old(moves))
    {
      ghost var start := TheWorld();
      SettleDrifts(start, moves);
      while moves != [] && !Ready(moves[0])
        invariant Settle(TheWorld(), moves) == Settle(start, old(moves))
        invariant Pending(moves) == Pending(old(moves))
        decreases |moves|
      {
        var w := Drift(World(service, gate, scopes, file), moves[0]);
        service, gate, scopes, file, moves := w.service, w.gate, w.scopes, w.file, moves[1..];
      }
      if moves == [] {
        return Dead;
      }
      signal := if moves[0].Go? then Proceed(moves[0].ok) else Dead;
      moves := moves[1..];
    }

    /** What the agent did and the world it left are those of `t`. */
    twostate predicate Follows(t: Trace)
      reads this
    {
      TheWorld() == t.world && moves == t.moves && acts == old(acts) + t.acts
    }

    /** `open_drain`, and the caller's look at the holder it reports. */
    method OpenDrain() returns (o: Outcome, idle: bool)
      modifies this`moves, this`service, this`gate, this`scopes, this`file, this`acts
      ensures o.Done? || o.Crashed? || o.Error? || o.HeldOther?
      ensures Follows(Opening(old(TheWorld()), old(moves))) && (o.Done? <==> Opening(old(TheWorld()), old(moves)).done)
      ensures o.Done? ==> gate.Draining? && !Broker.HeldElsewhere(gate) && idle == (scopes == 0) && file
      ensures o.Done? && idle ==> Cleared(acts, TheWorld())
      ensures Behaves(old(acts), acts, true)
    {
      hide Settle; hide Next; hide Rest;
      Broker.OwnersDiffer();
      idle := false;
      var signal := Pause();
      if signal.Dead? {
        return Crashed, false;
      }
      if !signal.ok || !service.Running? {
        return Error, false;
      }
      var begun := Broker.Begin(gate, Broker.AGENT);
      if begun.None? {
        return HeldOther, false;
      }
      gate, file := begun.value, true;
      acts := acts + [Opened(gate)];
      return Done, scopes == 0;
    }

    /** `ctl('stop')`. */
    method StopService() returns (o: Outcome)
      requires Cleared(acts, TheWorld())
      modifies this`moves, this`service, this`gate, this`scopes, this`file, this`acts
      ensures o.Done? || o.Crashed? || o.Error?
      ensures Follows(Stopping(old(TheWorld()), old(moves))) && (o.Done? <==> Stopping(old(TheWorld()), old(moves)).done)
      ensures o.Done? ==> service.Stopped?
      ensures Behaves(old(acts), acts, true)
    {
      hide Settle; hide Next; hide Rest;
      var signal := Pause();
      if signal.Dead? {
        return Crashed;
      }
      if !signal.ok {
        return Error;
      }
      acts := acts + [StoppedService(gate, scopes)];
      service := Stopped;
      return Done;
    }

    /** `ctl('start')`; a start that fails leaves the unit to the service manager. */
    method StartService() returns (o: Outcome)
      modifies this`moves, this`service, this`gate, this`scopes, this`file
      ensures o.Done? || o.Crashed? || o.Error?
    {
      var signal := Pause();
      if signal.Dead? {
        return Crashed;
      }
      service := if signal.ok then Running else Restarting;
      return if signal.ok then Done else Error;
    }

    /** `healthy`: a status reply from behind the closed and idle gate, with the loaded hashes. */
    method Healthy() returns (o: Outcome)
      modifies this`moves, this`service, this`gate, this`scopes, this`file
      ensures o.Done? || o.Crashed? || o.Error?
      ensures o.Done? ==> gate.Draining? && scopes == 0
    {
      var signal := Pause();
      if signal.Dead? {
        return Crashed;
      }
      return if signal.ok && service.Running? && gate.Draining? && scopes == 0 then Done else Error;
    }

    /** `close_drain`. */
    method CloseDrain() returns (o: Outcome)
      modifies this`moves, this`service, this`gate, this`scopes, this`file, this`acts
      ensures o.Done? || o.Crashed? || o.Error?
      ensures Continues(old(acts), acts, IsEnd)
      ensures old(gate) == Broker.Draining(Broker.AGENT) ==> Continues(old(acts), acts, EndsAgentDrain)
      ensures o.Done? ==> gate.Open? && file
    {
      hide Settle; hide Next; hide Rest;
      var signal := Pause();
      if signal.Dead? {
        return Crashed;
      }
      var ended := Broker.End(gate, Broker.AGENT);
      if !signal.ok || !service.Running? || ended.None? {
        return Error;
      }
      acts := acts + [Ended(gate)];
      gate, file := ended.value, true;
      return Done;
    }

    /** One member of `copy_files`, put in place by one rename or one unlink. */
    method PutMember(m: Member, source: map<Member, Code>, files: Hashes, proof: Option<Meta>) returns (o: Outcome)
      requires m in files
      modifies this`install, this`moves, this`service, this`gate, this`scopes, this`file, this`acts
      ensures o.Done? || o.Crashed? || o.Error?
      ensures TheWorld() == Settle(old(TheWorld()), old(moves)) && moves == Rest(old(moves))
      ensures o.Done? ==> install == CopyOne(old(install), source, files, proof, m) && acts == old(acts) + [Wrote(m, service)]
      ensures !o.Done? ==> install == old(install) && acts == old(acts)
      ensures o.Done? <==> Next(old(moves)) == Proceed(true)
                           && (files[m].Some? ==> m in source && files[m].value == HashOf(source[m]))
    {
      hide Settle; hide Next; hide Rest;
      var signal := Pause();
      if signal.Dead? {
        return Crashed;
      }
      if !signal.ok || (files[m].Some? && (m !in source || files[m].value != HashOf(source[m]))) {
        return Error;
      }
      acts := acts + [Wrote(m, service)];
      install := if files[m].None? then install - {m} else install[m := Written(m, source[m], proof)];
      return Done;
    }

    /** `ctl('is-active')`: a unit between two restarts answers like a stopped one. */
    method IsActive() returns (o: Outcome, active: bool)
      modifies this`moves, this`service, this`gate, this`scopes, this`file, this`acts
      ensures o.Done? || o.Crashed?
      ensures TheWorld() == Settle(old(TheWorld()), old(moves)) && moves == Rest(old(moves))
      ensures o.Done? <==> Next(old(moves)).Proceed?
      ensures o.Done? ==> active == service.Running? && acts == old(acts) + [Asked(service)]
      ensures o.Crashed? ==> acts == old(acts)
    {
      hide Settle; hide Next; hide Rest;
      var signal := Pause();
      if signal.Dead? {
        return Crashed, false;
      }
      acts := acts + [Asked(service)];
      return Done, service.Running?;
    }

    /** `copy_files`: one member at a time, each put in place by one rename. */
    method CopyFiles(source: map<Member, Code>, files: Hashes, proof: Option<Meta>) returns (o: Outcome, ghost k: nat)
      requires service.Stopped? || (acts != [] && acts[|acts| - 1] == Asked(Restarting))
      modifies this`install, this`moves, this`service, this`gate, this`scopes, this`file, this`acts
      ensures o.Done? || o.Crashed? || o.Error?
      ensures k <= |ALL| && install == CopyUpTo(old(install), source, files, proof, k)
      ensures o.Done? ==> k == |ALL|
      ensures ClientFiles.Holds(source, files) ==> Follows(Copying(old(TheWorld()), old(moves), Chosen(files, 0)))
      ensures Behaves(old(acts), acts, true)
    {
      hide Settle; hide Next; hide Rest; hide CopyOne; hide CopyUpTo; hide Copying; hide Chosen; hide Behaves; hide ClientFiles.Holds;
      CopyNothing(install, source, files, proof);
      k := 0;
      ghost var w, script, written := TheWorld(), moves, [];
      var i := 0;
      while i < |ALL|
        invariant 0 <= i <= |ALL| && k == i
        invariant install == CopyUpTo(old(install), source, files, proof, k)
        invariant acts == old(acts) + written && AllWrites(written, old(service.Stopped?))
        invariant old(service.Stopped?) ==> service.Stopped?
        invariant ClientFiles.Holds(source, files) ==>
            Copying(w, script, Chosen(files, 0)) == After(written, Copying(TheWorld(), moves, Chosen(files, i)))
      {
        var m := ALL[i];
        CopyMore(old(install), source, files, proof, i);
        ChosenMore(files, i);
        if m in files {
          SettleDrifts(TheWorld(), moves);
          CopyStep(TheWorld(), moves, written, m, Chosen(files, i + 1));
          HoldsOne(source, files, m);
          o := PutMember(m, source, files, proof);
          if !o.Done? {
            WritesBehave(old(acts), acts, written, old(service.Stopped?));
            return o, i;
          }
          written := written + [Wrote(m, service)];
        }
        i := i + 1;
        k := i;
      }
      CopyEnds(TheWorld(), moves, files);
      WritesBehave(old(acts), acts, written, old(service.Stopped?));
      return Done, |ALL|;
    }

    /** `recover`, by the updater whose reader is `reader`. */
    method Recover(tx: Transaction, keepDrain: bool, reader: Reader) returns (o: Outcome)
      requires Valid() && journal == Some(tx)
      requires ParkProof in tx.previous ==> reader.ProtocolTwo?
      modifies this`install, this`journal, this`moves, this`service, this`gate, this`scopes, this`file, this`acts, this`base
      ensures Valid()
      ensures o.Done? ==> journal.None? && base == install && SameClient(install, old(base))
      ensures !o.Done? ==> journal == old(journal) && base == old(base)
      ensures Accepts(reader, tx) ==>
                old(acts) + Recovering(old(TheWorld()), old(moves), Chosen(tx.previous, 0)).acts <= acts
      ensures Behaves(old(acts), acts, keepDrain)
    {
      hide InProgress; hide Mixed; hide Behaves; hide Recovering; hide SameClient; hide WholeClient;
      NothingDone(acts);
      KeptOrNot(acts, acts, keepDrain);
      JournalNames(tx, base, target, previous);
      var metadata := PreviousProofMetadata(reader, tx);
      if !ValidFiles(reader, tx.previous) || metadata.Refused? || !ClientFiles.Holds(previous, tx.previous) {
        return Error;
      }
      ProofMetadataKnown(tx, base, target, previous, reader);
      o := RestoreAndReopen(tx, metadata.meta, keepDrain);
    }

    /** The steps of a recovery that has accepted its journal. */
    method RestoreAndReopen(tx: Transaction, proof: Option<Meta>, keepDrain: bool) returns (o: Outcome)
      requires Valid() && journal == Some(tx) && ClientFiles.Holds(previous, tx.previous)
      requires ParkProof in base ==> proof == Some(base[ParkProof].meta)
      modifies this`install, this`journal, this`moves, this`service, this`gate, this`scopes, this`file, this`acts, this`base
      ensures Valid()
      ensures o.Done? ==> journal.None? && base == install && SameClient(install, old(base))
      ensures !o.Done? ==> journal == old(journal) && base == old(base)
      ensures old(acts) + Recovering(old(TheWorld()), old(moves), Chosen(tx.previous, 0)).acts <= acts
      ensures Behaves(old(acts), acts, keepDrain)
    {
      hide DiskOk; hide SameClient; hide Restored; hide Behaves; hide Recovering; hide Continues; hide ClientFiles.Holds;
      o := RestoreFiles(tx, proof);
      KeptOrNot(old(acts), acts, keepDrain);
      if !o.Done? {
        return;
      }
      ghost var restored := acts;
      o := Reopen(keepDrain);
      EndsExtend(restored, acts);
      EndsBehave(restored, acts, keepDrain);
      BehavesOn(old(acts), restored, acts, keepDrain);
      if !o.Done? {
        return;
      }
      RecoveryFinished(previous, tx, base, target, install);
      journal := None;
      base := install;
    }

    /** The part of a recovery that touches the install directory. */
    method RestoreFiles(tx: Transaction, proof: Option<Meta>) returns (o: Outcome)
      requires Valid() && journal == Some(tx) && ClientFiles.Holds(previous, tx.previous)
      requires ParkProof in base ==> proof == Some(base[ParkProof].meta)
      modifies this`install, this`moves, this`service, this`gate, this`scopes, this`file, this`acts
      ensures Valid()
      ensures o.Done? ==> install == Restored(base)
      ensures acts == old(acts) + Recovering(old(TheWorld()), old(moves), Chosen(tx.previous, 0)).acts
      ensures Behaves(old(acts), acts, true)
    {
      hide InProgress; hide Mixed; hide CopyUpTo; hide Restored; hide WholeClient; hide Behaves;
      hide Settle; hide Next; hide Rest; hide Quieting; hide Copying; hide ClientFiles.Holds;
      o := StopIfActive();
      if !o.Done? {
        return;
      }
      ghost var quiet := acts;
      ghost var k;
      o, k := CopyFiles(previous, tx.previous, proof);
      BehavesOn(old(acts), quiet, acts, true);
      RestoringStaysMixed(tx, base, target, previous, old(install), proof, k);
      if o.Done? {
        RestoringCompletes(tx, base, target, previous, old(install), proof);
      }
    }

    /** Start, health, release unless the drain is kept, and the step that unlinks the journal. */
    method Reopen(keepDrain: bool) returns (o: Outcome)
      modifies this`moves, this`service, this`gate, this`scopes, this`file, this`acts
      ensures Continues(old(acts), acts, IsEnd)
      ensures keepDrain ==> acts == old(acts)
    {
      o := StartService();
      if !o.Done? {
        return;
      }
      o := Healthy();
      if !o.Done? {
        return;
      }
      if !keepDrain {
        o := CloseDrain();
        if !o.Done? {
          return;
        }
      }
      var signal := Pause();
      return if signal.Dead? then Crashed else if signal.ok then Done else Error;
    }

    /** The guarded stop at the head of a recovery. */
    method StopIfActive() returns (o: Outcome)
      modifies this`moves, this`service, this`gate, this`scopes, this`file, this`acts
      ensures o.Done? || o.Crashed? || o.Error?
      ensures var x := Settle(old(TheWorld()), old(moves));
              if Next(old(moves)).Dead? then o.Crashed? && acts == old(acts)
              else Follows(After([Asked(x.service)], Quieting(x, Rest(old(moves)))))
                   && (o.Done? <==> Quieting(x, Rest(old(moves))).done)
      ensures o.Done? ==> service.Stopped? || (acts != [] && acts[|acts| - 1] == Asked(Restarting))
      ensures Behaves(old(acts), acts, true)
    {
      hide Settle; hide Next; hide Rest; hide Opening; hide Stopping; hide Behaves;
      NothingDone(acts);
      var active;
      o, active := IsActive();
      if !o.Done? {
        return;
      }
      ghost var asked := acts;
      AskBehaves(old(acts), service);
      if !active {
        return Done;
      }
      var idle;
      o, idle := OpenDrain();
      BehavesOn(old(acts), asked, acts, true);
      if o.Crashed? {
        return Crashed;
      }
      if !o.Done? || !idle {
        return Error;
      }
      ghost var opening := acts;
      o := StopService();
      BehavesOn(old(acts), opening, acts, true);
    }

    /** One staging directory, one member at a time; a crash leaves it part filled. */
    method Fill(dir: map<Member, Code>, names: set<Member>, content: map<Member, Code>)
      returns (o: Outcome, filled: map<Member, Code>)
      requires forall m :: m in names ==> Listed(m)
      modifies this`moves, this`service, this`gate, this`scopes, this`file
      ensures o.Done? || o.Crashed? || o.Error?
      ensures o.Done? ==> forall m :: m in names ==> Same(filled, content, m)
    {
      hide Settle; hide Next; hide Rest;
      filled := dir;
      var i := 0;
      while i < |ALL|
        invariant 0 <= i <= |ALL|
        invariant forall m :: m in names && m in ALL[..i] ==> Same(filled, content, m)
      {
        var m := ALL[i];
        if m in names {
          var signal := Pause();
          if signal.Dead? || !signal.ok {
            return if signal.Dead? then Crashed else Error, filled;
          }
          filled := if m in content then filled[m := content[m]] else filled - {m};
        }
        assert ALL[..i + 1] == ALL[..i] + [m];
        i := i + 1;
      }
      forall m | m in names ensures m in ALL[..|ALL|] {
        ListedInAll(m);
      }
      return Done, filled;
    }

    /** Fills `staged/` from the version and `previous/` from the installed client. */
    method Stage(desired: map<Member, Code>) returns (o: Outcome)
      requires journal.None? && WholeClient(install) && ValidExport(desired)
      modifies this`staged, this`previous, this`moves, this`service, this`gate, this`scopes, this`file
      ensures o.Done? || o.Crashed? || o.Error?
      ensures o.Done? ==>
                Kept(previous, install) && forall m :: m in desired ==> m in staged && staged[m] == desired[m]
    {
      NamesListed(install, desired);
      hide WholeClient; hide ValidExport;
      var names := ClientFiles.Names(install, desired);
      o, staged := Fill(staged, names, desired);
      if !o.Done? {
        return;
      }
      assert forall m :: m in desired ==> Same(staged, desired, m);
      var data := map m | m in install :: install[m].data;
      o, previous := Fill(previous, names, data);
      assert o.Done? ==> forall m :: m in install ==> Same(previous, data, m);
    }

    /**
     Nothing to install: release a drain that names the agent, and no other. An open gate
     whose file a boot has lost is closed first, and then opened explicitly.
     */
    method Current() returns (o: Outcome)
      modifies this`moves, this`service, this`gate, this`scopes, this`file, this`acts
      ensures o.Done? ==> gate.Open? && file
      ensures Continues(old(acts), acts, OpensOrEndsOwn) && Behaves(old(acts), acts, false)
    {
      hide Settle; hide Next; hide Rest; hide Opening; hide Behaves;
      NothingDone(acts);
      KeptOrNot(acts, acts, false);
      var signal := Pause();
      if signal.Dead? {
        return Crashed;
      }
      if !signal.ok || !service.Running? {
        return Error;
      }
      if gate.Open? && file {
        return Done;
      }
      if gate.Open? {
        OnlyOpens(TheWorld(), moves);
        var idle;
        o, idle := OpenDrain();
        KeptOrNot(old(acts), acts, false);
        if !o.Done? {
          return;
        }
      }
      if gate.owner != Broker.AGENT {
        return HeldOther;
      }
      if scopes != 0 {
        return Draining;
      }
      ghost var before := acts;
      o := CloseDrain();
      OwnEndsBehave(before, acts);
      BehavesOn(old(acts), before, acts, false);
    }

    /** The stop, and the copy of the staged members. */
    method CopyStaged(tx: Transaction, desired: map<Member, Code>) returns (o: Outcome)
      requires Valid() && journal == Some(tx) && install == base && target == desired && Cleared(acts, TheWorld())
      requires forall m :: m in desired ==> m in staged && staged[m] == desired[m]
      modifies this`install, this`moves, this`service, this`gate, this`scopes, this`file, this`acts
      ensures Valid()
      ensures o.Done? ==> install == Published(desired)
      ensures Behaves(old(acts), acts, true)
    {
      hide CopyUpTo; hide Published; hide Restored; hide Behaves; hide Copying; hide Stopping; hide ClientFiles.Holds;
      o := StopService();
      if !o.Done? {
        return;
      }
      ghost var stopped := acts;
      ghost var k;
      o, k := CopyFiles(staged, TargetHashes(install, desired), None);
      BehavesOn(old(acts), stopped, acts, true);
      InstallingStaysMixed(base, target, staged, TargetHashes(base, target), k);
    }

    /** The journaled part of a transaction: stop, copy, start, release, unlink. */
    method InstallStaged(tx: Transaction, desired: map<Member, Code>, keepDrain: bool) returns (o: Outcome)
      requires Valid() && journal == Some(tx) && install == base && target == desired && Cleared(acts, TheWorld())
      requires forall m :: m in desired ==> m in staged && staged[m] == desired[m]
      modifies this`install, this`moves, this`service, this`gate, this`scopes, this`file, this`acts
      ensures Valid()
      ensures o.Done? ==> install == Published(desired)
      ensures Behaves(old(acts), acts, keepDrain)
    {
      hide DiskOk; hide Behaves; hide Continues;
      o := CopyStaged(tx, desired);
      KeptOrNot(old(acts), acts, keepDrain);
      if !o.Done? {
        return;
      }
      ghost var written := acts;
      o := Reopen(keepDrain);
      EndsBehave(written, acts, keepDrain);
      BehavesOn(old(acts), written, acts, keepDrain);
    }

    /** From the write of the journal to its removal, by success or by rollback. */
    method Journaled(desired: map<Member, Code>, epoch: Option<string>) returns (o: Outcome)
      requires Valid() && journal.None? && Fenced(install, desired) && Kept(previous, install) && Cleared(acts, TheWorld())
      requires forall m :: m in desired ==> m in staged && staged[m] == desired[m]
      modifies this`install, this`journal, this`moves, this`service, this`gate, this`scopes, this`file, this`acts, this`base, this`target
      ensures Valid()
      ensures journal.None? ==> SameClient(base, old(base)) || base == Published(desired)
      ensures journal.Some? ==> base == old(base) && target == desired
      ensures Behaves(old(acts), acts, epoch.Some?)
    {
      assert install == base;
      JournalStarts(install, previous, desired, epoch);
      hide DiskOk; hide Behaves; hide Published; hide Recovering; hide Fenced; hide JournalFor; hide SameClient; hide Kept;
      var tx := JournalFor(install, desired, epoch);
      target := desired;
      journal := Some(tx);
      o := InstallStaged(tx, desired, epoch.Some?);
      ghost var tried := acts;
      if o.Done? {
        JournalEnds(install, previous, tx, base, desired);
        journal := None;
        base := install;
        return;
      }
      if o.Crashed? {
        return;
      }
      o := Recover(tx, epoch.Some?, ProtocolTwo);
      BehavesOn(old(acts), tried, acts, epoch.Some?);
    }

    /** Closing admission and the transaction behind it. */
    method CloseAndInstall(desired: map<Member, Code>, epoch: Option<string>) returns (o: Outcome)
      requires Valid() && journal.None? && Fenced(install, desired) && Kept(previous, install)
      requires forall m :: m in desired ==> m in staged && staged[m] == desired[m]
      modifies this`install, this`journal, this`moves, this`service, this`gate, this`scopes, this`file, this`acts, this`base, this`target
      ensures Valid()
      ensures journal.Some? ==> base == old(base) && target == desired
      ensures SameClient(base, old(base)) || base == Published(desired)
      ensures Behaves(old(acts), acts, epoch.Some?)
    {
      hide DiskOk; hide Fenced; hide Published; hide Behaves; hide Opening;
      SelfSame(base);
      var idle;
      o, idle := OpenDrain();
      KeptOrNot(old(acts), acts, epoch.Some?);
      if !o.Done? {
        return;
      }
      if !idle {
        return Draining;
      }
      ghost var opening := acts;
      var signal := Pause();
      if signal.Dead? || !signal.ok {
        return if signal.Dead? then Crashed else Error;
      }
      o := Journaled(desired, epoch);
      BehavesOn(old(acts), opening, acts, epoch.Some?);
    }

    /**
     The tail of `_run_once`: nothing to do, or stage the version, close admission, write the
     journal, and install; an error after the journal rolls back in the same tick.
     */
    method Transact(desired: map<Member, Code>, epoch: Option<string>) returns (o: Outcome)
      requires Valid() && journal.None?
      requires epoch.Some? ==> InstalledHashes(install) != (map m | m in desired :: HashOf(desired[m]))
      modifies this
      ensures Valid()
      ensures journal.Some? ==> base == old(base) && target == desired
      ensures Succeeds(old(base), base, desired)
      ensures Behaves(old(acts), acts, epoch.Some?)
    {
      hide Behaves; hide Published; hide InstalledHashes; hide CapabilityFence; hide RecoveryFence; hide WholeClient;
      NothingDone(acts);
      KeptOrNot(acts, acts, epoch.Some?);
      SelfSame(base);
      if !ValidExport(desired) {
        return Error;
      }
      var wanted := map m | m in desired :: HashOf(desired[m]);
      if InstalledHashes(install) == wanted && ProofMetadataSafe(install) {
        o := Current();
        return;
      }
      if !CapabilityFence(install, desired) || !RecoveryFence(install, desired) {
        return Error;
      }
      o := Stage(desired);
      if !o.Done? {
        return;
      }
      o := CloseAndInstall(desired, epoch);
    }

    /**
     One tick below the rollout: recover a journal with whichever updater is on disk, or
     converge. `epoch` is the rollout epoch in force, whose own status check has found the
     installed hashes to differ before any transaction.
     */
    method Tick(desired: map<Member, Code>, epoch: Option<string>) returns (o: Outcome)
      requires Valid()
      modifies this
      ensures Valid()
      ensures Succeeds(old(base), base, desired)
      ensures Behaves(old(acts), acts, epoch.Some?)
    {
      hide CapabilityFence; hide RecoveryFence; hide Recovering; hide Behaves;
      NothingDone(acts);
      KeptOrNot(acts, acts, epoch.Some?);
      if journal.Some? {
        var tx := journal.value;
        UpdaterOnDisk(install, base, target, previous, tx);
        o := Recover(tx, epoch.Some? || tx.rolloutEpoch.Some?, ReaderOf(install[UpgradeClient].data));
        KeptWeakens(old(acts), acts, epoch.Some? || tx.rolloutEpoch.Some?, epoch.Some?);
        return;
      }
      if !ReaderOf(install[UpgradeClient].data).ProtocolTwo? {
        return Error;
      }
      if epoch.Some? && InstalledHashes(install) == (map m | m in desired :: HashOf(desired[m])) {
        return Done;
      }
      o := Transact(desired, epoch);
    }

    /** One tick with its script, after a reboot or not. */
    method Round(tick: TickInput)
      requires Valid()
      modifies this
      ensures Valid()
      ensures Succeeds(old(base), base, tick.desired)
      ensures Behaves(old(acts), acts, tick.epoch.Some?)
    {
      hide DiskOk; hide Behaves; hide Succeeds;
      moves := tick.moves;
      if tick.reboot {
        // Only a broker with a durable record boots behind a hold; without one the gate and its file are gone.
        if ResourceBroker in install && install[ResourceBroker].data.durable {
          gate, file := Broker.Boot(gate), true;
        } else {
          gate, file := Broker.Open, false;
        }
        scopes, service := 0, Running;
      }
      var o := Tick(tick.desired, tick.epoch);
    }

    /**
     Any number of ticks, each with its own script and so its own crash point, and with
     reboots in between. Stopping after any of them, the promises hold. `marks` are the
     numbers of acts before the first tick and after each.
     */
    method Run(ticks: seq<TickInput>) returns (ghost marks: seq<nat>)
      requires Valid()
      modifies this
      ensures Valid()
      ensures FromTicks(old(base), base, ticks, |ticks|)
      ensures Behaves(old(acts), acts, false)
      ensures Marked(marks, |old(acts)|, |acts|, |ticks|) && EpochsKept(acts, marks, ticks, |ticks|)
    {
      assert WholeClient(base);
      FirstClient(base, ticks);
      hide DiskOk; hide Behaves; hide FromTicks; hide Succeeds; hide EpochsKept; hide Marked;
      NothingDone(acts);
      KeptOrNot(acts, acts, false);
      marks := [|acts|];
      StartMarks(acts, ticks);
      var n := 0;
      while n < |ticks|
        invariant 0 <= n <= |ticks|
        invariant Valid()
        invariant FromTicks(old(base), base, ticks, n)
        invariant Behaves(old(acts), acts, false)
        invariant Marked(marks, |old(acts)|, |acts|, n) && EpochsKept(acts, marks, ticks, n)
      {
        ghost var earlier, before := base, acts;
        Round(ticks[n]);
        FromMore(old(base), earlier, base, ticks, n);
        MoreMarks(before, acts, marks, |old(acts)|, ticks, n);
        KeptWeakens(before, acts, ticks[n].epoch.Some?, false);
        BehavesOn(old(acts), before, acts, false);
        marks := marks + [|acts|];
        n := n + 1;
      }
    }
  }

  ghost predicate Marked(marks: seq<nat>, first: nat, last: nat, n: nat) {
    && |marks| == n + 1 && marks[0] == first && marks[n] == last
    && forall t :: 0 <= t < n ==> marks[t] <= marks[t + 1]
  }

  /** No act between two marks ended a drain. */
  ghost predicate NoEnd(acts: seq<Act>, from: nat, to: nat) {
    to <= |acts| && forall i :: from <= i < to ==> !acts[i].Ended?
  }

  /** In no tick inside an epoch, whatever the other ticks were, has a drain been ended. */
  ghost predicate EpochsKept(acts: seq<Act>, marks: seq<nat>, ticks: seq<TickInput>, n: nat) {
    && n <= |ticks| && |marks| == n + 1
    && forall t :: 0 <= t < n && ticks[t].epoch.Some? ==> NoEnd(acts, marks[t], marks[t + 1])
  }

  lemma StartMarks(acts: seq<Act>, ticks: seq<TickInput>)
    ensures Marked([|acts|], |acts|, |acts|, 0) && EpochsKept(acts, [|acts|], ticks, 0)
  {
  }

  lemma MoreMarks(before: seq<Act>, acts: seq<Act>, marks: seq<nat>, first: nat, ticks: seq<TickInput>, n: nat)
    requires n < |ticks| && Marked(marks, first, |before|, n) && EpochsKept(before, marks, ticks, n)
    requires Behaves(before, acts, ticks[n].epoch.Some?)
    ensures Marked(marks + [|acts|], first, |acts|, n + 1) && EpochsKept(acts, marks + [|acts|], ticks, n + 1)
  {
    var more := marks + [|acts|];
    forall t | 0 <= t < n + 1 && ticks[t].epoch.Some? ensures NoEnd(acts, more[t], more[t + 1]) {
      if t < n {
        assert NoEnd(before, marks[t], marks[t + 1]);
        assert forall i :: 0 <= i < |before| ==> acts[i] == before[i];
      }
    }
  }

  lemma RecoveryFinished(previous: map<Member, Code>, tx: Transaction, base: Files, target: map<Member, Code>, install: Files)
    requires DiskOk(install, previous, Some(tx), base, target) && install == Restored(base)
    ensures DiskOk(install, previous, None, install, target) && SameClient(install, base)
  {
    WholeRestored(base);
    RestoredIsSameClient(base);
  }

  lemma NothingDone(acts: seq<Act>)
    ensures Behaves(acts, acts, true)
  {
  }

  lemma KeptWeakens(a: seq<Act>, b: seq<Act>, more: bool, kept: bool)
    requires Behaves(a, b, more) && (kept ==> more)
    ensures Behaves(a, b, kept)
  {
  }

  lemma NamesListed(install: Files, desired: map<Member, Code>)
    requires WholeClient(install) && ValidExport(desired)
    ensures forall m :: m in ClientFiles.Names(install, desired) ==> Listed(m)
  {
  }

  /** The journal of a fenced transaction, over the directory it starts from. */
  lemma JournalStarts(install: Files, previous: map<Member, Code>, desired: map<Member, Code>, epoch: Option<string>)
    requires Fenced(install, desired) && Kept(previous, install)
    ensures DiskOk(install, previous, Some(JournalFor(install, desired, epoch)), install, desired)
  {
  }

  lemma JournalEnds(install: Files, previous: map<Member, Code>, tx: Transaction, base: Files, desired: map<Member, Code>)
    requires DiskOk(install, previous, Some(tx), base, desired) && install == Published(desired)
    ensures DiskOk(install, previous, None, install, desired)
  {
    WholePublished(desired);
  }

  lemma OnlyOpens(w: World, moves: seq<Move>)
    ensures forall i :: 0 <= i < |Opening(w, moves).acts| ==> Opening(w, moves).acts[i].Opened?
  {
  }

  lemma AskBehaves(acts: seq<Act>, service: Service)
    ensures Behaves(acts, acts + [Asked(service)], true)
  {
  }

  lemma SelfSame(files: Files)
    ensures SameClient(files, files)
  {
  }

  lemma OwnEndsBehave(before: seq<Act>, acts: seq<Act>)
    requires Continues(before, acts, EndsAgentDrain)
    ensures Behaves(before, acts, false)
  {
  }

  lemma EndsExtend(before: seq<Act>, acts: seq<Act>)
    requires Continues(before, acts, IsEnd)
    ensures before <= acts
  {
  }

  /** Writes, all of them behind a stopped service if it is `stopped`. */
  ghost predicate AllWrites(written: seq<Act>, stopped: bool) {
    forall n :: 0 <= n < |written| ==> written[n].Wrote? && (stopped ==> written[n].service.Stopped?)
  }

  lemma CopyNothing(install: Files, source: map<Member, Code>, files: Hashes, proof: Option<Meta>)
    ensures CopyUpTo(install, source, files, proof, 0) == install
  {
  }

  lemma CopyMore(install: Files, source: map<Member, Code>, files: Hashes, proof: Option<Meta>, k: nat)
    requires k < |ALL|
    ensures CopyUpTo(install, source, files, proof, k + 1)
            == CopyOne(CopyUpTo(install, source, files, proof, k), source, files, proof, ALL[k])
    ensures ALL[k] !in files ==> CopyUpTo(install, source, files, proof, k + 1) == CopyUpTo(install, source, files, proof, k)
  {
  }

  lemma ChosenMore(files: Hashes, k: nat)
    requires k < |ALL|
    ensures Chosen(files, k) == if ALL[k] in files then [ALL[k]] + Chosen(files, k + 1) else Chosen(files, k + 1)
  {
    assert [] + Chosen(files, k + 1) == Chosen(files, k + 1);
  }

  lemma HoldsOne(source: map<Member, Code>, files: Hashes, m: Member)
    requires m in files
    ensures ClientFiles.Holds(source, files) && files[m].Some? ==> m in source && files[m].value == HashOf(source[m])
  {
  }

  lemma CopyEnds(w: World, moves: seq<Move>, files: Hashes)
    ensures Copying(w, moves, Chosen(files, |ALL|)) == Trace(w, moves, [], true)
  {
  }

  /** One more member of a copy. */
  lemma CopyStep(w: World, moves: seq<Move>, written: seq<Act>, m: Member, rest: seq<Member>)
    ensures var x := Settle(w, moves);
            After(written, Copying(w, moves, [m] + rest)) ==
            if Next(moves) == Proceed(true)
            then After(written + [Wrote(m, x.service)], Copying(x, Rest(moves), rest))
            else Trace(x, Rest(moves), written, false)
  {
    hide Settle; hide Next; hide Rest;
    assert ([m] + rest)[1..] == rest;
    var x := Settle(w, moves);
    var t := Copying(x, Rest(moves), rest);
    assert written + ([Wrote(m, x.service)] + t.acts) == written + [Wrote(m, x.service)] + t.acts;
    assert written + [] == written;
  }

  /** Writes behind a stopped service, or right after a look that found the unit between restarts. */
  lemma WritesBehave(before: seq<Act>, acts: seq<Act>, written: seq<Act>, stopped: bool)
    requires acts == before + written && AllWrites(written, stopped)
    requires stopped || (before != [] && before[|before| - 1] == Asked(Restarting))
    ensures Behaves(before, acts, true)
  {
    forall i | |before| <= i < |acts| ensures StopGuarded(acts, i) && WriteGuarded(acts, i) && !acts[i].Ended? {
      assert acts[i] == written[i - |before|];
      if !stopped {
        assert acts[|before| - 1] == Asked(Restarting);
        assert forall k :: |before| <= k < i ==> acts[k] == written[k - |before|];
      }
    }
  }

  // ---- The two windows, through `recover` itself ---------------------------------------------------

  /** The look goes ahead, the unit comes back up, and the first write goes ahead. */
  const RESTART_RACE: seq<Move> := [Go(true)] + RESTART_FIRST

  lemma GoFirst(w: World, moves: seq<Move>)
    ensures Settle(w, [Go(true)] + moves) == w && Next([Go(true)] + moves) == Proceed(true)
    ensures Rest([Go(true)] + moves) == moves
  {
    assert ([Go(true)] + moves)[1..] == moves;
  }

  /**
   The look at the head of `recover` does not cover a unit between two restarts: the agent
   finds it inactive, and the service manager starts it before the first write, which then
   meets a running service.
   */
  method RestartRace(c: Client, tx: Transaction, keepDrain: bool, reader: Reader)
    requires c.Valid() && c.journal == Some(tx) && Accepts(reader, tx)
    requires ParkProof in tx.previous ==> reader.ProtocolTwo?
    requires c.service.Restarting? && c.moves == RESTART_RACE
    modifies c
    ensures old(c.acts) <= c.acts && WritesMeet(c.acts[|old(c.acts)|..], Running)
  {
    hide Recovering; hide Behaves; hide Chosen; hide WritesMeet;
    JournalNames(tx, c.base, c.target, c.previous);
    RaceTrace(c.TheWorld(), Chosen(tx.previous, 0));
    var o := c.Recover(tx, keepDrain, reader);
    PrefixMeets(Recovering(old(c.TheWorld()), RESTART_RACE, Chosen(tx.previous, 0)).acts, c.acts[|old(c.acts)|..]);
  }

  lemma RaceTrace(w: World, members: seq<Member>)
    requires w.service.Restarting? && members != []
    ensures WritesMeet(Recovering(w, RESTART_RACE, members).acts, Running)
  {
    hide FromLook; hide Settle; hide Next; hide Rest;
    GoFirst(w, RESTART_FIRST);
    RestartFirst(w, members);
    assert Recovering(w, RESTART_RACE, members).acts[1] == Wrote(members[0], Running);
  }

  lemma PrefixMeets(some: seq<Act>, acts: seq<Act>)
    requires some <= acts && WritesMeet(some, Running)
    ensures WritesMeet(acts, Running)
  {
    var i :| 0 <= i < |some| && some[i].Wrote? && some[i].service == Running;
    assert acts[i] == some[i];
  }

  /** The look and the opening go ahead, then the drain is ended and work starts before the stop. */
  const KILL_RACE: seq<Move> := [Go(true)] + ([Go(true)] + KILL_FIRST)

  lemma KillTrace(w: World, members: seq<Member>)
    requires w.service.Running? && w.gate == Broker.Draining(Broker.UNOWNED) && w.scopes == 0
    ensures var acts := Recovering(w, KILL_RACE, members).acts;
            |acts| > 2 && acts[1] == Opened(w.gate) && acts[2] == StoppedService(Broker.Open, 1)
  {
    hide Settle; hide Next; hide Rest; hide Copying;
    GoFirst(w, [Go(true)] + KILL_FIRST);
    GoFirst(w, KILL_FIRST);
    KillFirst(w.(file := true));
    assert Opening(w, [Go(true)] + KILL_FIRST) == Trace(w.(file := true), KILL_FIRST, [Opened(w.gate)], true);
  }

  /** A recovery over an unattributed drain stops the broker under running work. */
  method KilledWork(c: Client, tx: Transaction, keepDrain: bool, reader: Reader)
    requires c.Valid() && c.journal == Some(tx) && Accepts(reader, tx)
    requires ParkProof in tx.previous ==> reader.ProtocolTwo?
    requires c.service.Running? && c.gate == Broker.Draining(Broker.UNOWNED) && c.scopes == 0 && c.moves == KILL_RACE
    modifies c
    ensures old(c.acts) <= c.acts && StoppedService(Broker.Open, 1) in c.acts[|old(c.acts)|..]
  {
    hide Recovering; hide Behaves;
    KillTrace(c.TheWorld(), Chosen(tx.previous, 0));
    var o := c.Recover(tx, keepDrain, reader);
    assert c.acts[|old(c.acts)| + 2] == StoppedService(Broker.Open, 1);
  }
}
