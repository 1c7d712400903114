/**
 The privileged client members of one host, the journal of an install transaction over
 them, and the three recovery readers that may find that journal after a crash.
 */
module ClientFiles {
  import opened Base

  datatype Member =
    | GpuCapacity | GpuMemory | ParkProof | ResourceBroker | ResourcePayload | UpgradeClient
    | Unlisted(name: string)

  /** Every listed member, in the order of its file name. */
  const ALL: seq<Member> := [GpuCapacity, GpuMemory, ParkProof, ResourceBroker, ResourcePayload, UpgradeClient]

  const REQUIRED: set<Member> := {GpuMemory, ResourceBroker, ResourcePayload, UpgradeClient}
  const OPTIONAL: set<Member> := {GpuCapacity, ParkProof}

  /**
   The bytes of a member. The flags are what the protocol patterns find in them:
   MAINTENANCE_DURABLE_PROTOCOL = 1, CLIENT_UPGRADE_DURABLE_PROTOCOL = 1,
   CLIENT_UPGRADE_ROLLOUT_PROTOCOL = 1, CLIENT_UPGRADE_PROTOCOL = 2, and the number
   CLIENT_UPGRADE_PROOF_MEMBER_PROTOCOL declares (0 when it is not declared).
   */
  datatype Code = Code(
    text: string, durable: bool, updaterDurable: bool, rolloutAware: bool, protocolTwo: bool, proofProtocol: nat)

  /** SHA-256, as an injective constructor; `Malformed` is any text that is no hash. */
  datatype Hash = HashOf(data: Code) | Malformed(text: string)

  datatype Meta = Meta(uid: nat, gid: nat, mode: nat)

  datatype File = File(data: Code, meta: Meta)

  type Files = map<Member, File>
  type Hashes = map<Member, Option<Hash>>

  /** 0o644, root-owned. */
  const PLAIN: Meta := Meta(0, 0, 420)

  /** `previous_proof_file`: the key is missing, null, or a metadata object. */
  datatype ProofField = NotRecorded | RecordedAbsent | Recorded(meta: Meta)

  datatype Transaction = Transaction(
    desired: map<Member, Hash>, previous: Hashes, rolloutEpoch: Option<string>, proofFile: ProofField)

  /** Which updater is on disk, by the proof-member protocol its bytes declare. */
  datatype Reader = Prebridge | ProtocolOne | ProtocolTwo

  function ReaderOf(code: Code): Reader {
    if code.proofProtocol == 2 then ProtocolTwo
    else if code.proofProtocol == 1 then ProtocolOne
    else Prebridge
  }

  /** `OPTIONAL_MEMBERS` of each updater. */
  function OptionalOf(reader: Reader): set<Member> {
    if reader.Prebridge? then {GpuCapacity} else OPTIONAL
  }

  /** `validate_files`. */
  predicate ValidFiles(reader: Reader, files: Hashes) {
    && REQUIRED <= files.Keys <= REQUIRED + OptionalOf(reader)
    && forall m :: m in files ==>
         (files[m].None? && m in OptionalOf(reader)) || (files[m].Some? && files[m].value.HashOf?)
  }

  predicate MetaInRange(meta: Meta) {
    meta.uid < 0xFFFF_FFFF && meta.gid < 0xFFFF_FFFF && meta.mode <= 4095
  }

  datatype Parsed = Refused | Metadata(meta: Option<Meta>)

  /** `previous_proof_metadata`; the older readers have no such check. */
  function PreviousProofMetadata(reader: Reader, tx: Transaction): Parsed {
    if !reader.ProtocolTwo? then Metadata(None)
    else if ParkProof !in tx.previous then
      if ParkProof in tx.desired then Refused else Metadata(None)
    else if tx.previous[ParkProof].None? then
      if tx.proofFile.RecordedAbsent? then Metadata(None) else Refused
    else if tx.proofFile.Recorded? && MetaInRange(tx.proofFile.meta) then Metadata(Some(tx.proofFile.meta))
    else Refused
  }

  // ---- copy_files ------------------------------------------------------------------------

  /** The file `copy_files` puts in place. */
  function Written(m: Member, data: Code, proof: Option<Meta>): File {
    File(data, if m == ParkProof && proof.Some? then proof.value else PLAIN)
  }

  /** One round of `copy_files`; a member the source lacks is never reached. */
  function CopyOne(install: Files, source: map<Member, Code>, files: Hashes, proof: Option<Meta>, m: Member): Files {
    if m !in files then install
    else if files[m].None? then install - {m}
    else if m in source then install[m := Written(m, source[m], proof)]
    else install
  }

  /** The install directory after the first `k` members. */
  function CopyUpTo(install: Files, source: map<Member, Code>, files: Hashes, proof: Option<Meta>, k: nat): Files
    requires k <= |ALL|
  {
    if k == 0 then install else CopyOne(CopyUpTo(install, source, files, proof, k - 1), source, files, proof, ALL[k - 1])
  }

  predicate Holds(source: map<Member, Code>, files: Hashes) {
    forall m :: m in files && files[m].Some? ==> m in source && files[m].value == HashOf(source[m])
  }

  /** Where a member stands, or that it is absent. */
  function At(files: Files, m: Member): Option<File> {
    if m in files then Some(files[m]) else None
  }

  /** What `copy_files` leaves of member `m`. */
  function Copied(source: map<Member, Code>, files: Hashes, proof: Option<Meta>, m: Member): Option<File>
    requires m in files && Holds(source, files)
  {
    if files[m].None? then None else Some(Written(m, source[m], proof))
  }

  lemma {:induction false} CopyUpToAt(install: Files, source: map<Member, Code>, files: Hashes, proof: Option<Meta>,
                                      k: nat, m: Member)
    requires k <= |ALL| && Holds(source, files)
    ensures At(CopyUpTo(install, source, files, proof, k), m)
            == if m in files && m in ALL[..k] then Copied(source, files, proof, m) else At(install, m)
  {
    if k > 0 {
      hide CopyOne; hide Copied; hide At;
      CopyUpToAt(install, source, files, proof, k - 1, m);
      CopyOneAt(CopyUpTo(install, source, files, proof, k - 1), source, files, proof, ALL[k - 1], m);
      assert ALL[..k] == ALL[..k - 1] + [ALL[k - 1]];
    }
  }

  lemma CopyOneAt(install: Files, source: map<Member, Code>, files: Hashes, proof: Option<Meta>, n: Member, m: Member)
    requires Holds(source, files)
    ensures At(CopyOne(install, source, files, proof, n), m)
            == if m in files && m == n then Copied(source, files, proof, m) else At(install, m)
  {
  }

  predicate Listed(m: Member) {
    !m.Unlisted?
  }

  lemma ListedInAll(m: Member)
    requires Listed(m)
    ensures m in ALL[..|ALL|]
  {
    var i := match m
      case GpuCapacity => 0 case GpuMemory => 1 case ParkProof => 2
      case ResourceBroker => 3 case ResourcePayload => 4 case UpgradeClient => 5;
    assert ALL[i] == m;
    assert ALL[..|ALL|][i] == m;
  }

  // ---- Whole installations ---------------------------------------------------------------

  /** The clients a published version installs. */
  function Published(desired: map<Member, Code>): Files {
    map m | m in desired :: File(desired[m], PLAIN)
  }

  /** What recovery puts back of `base`: all bytes, and the metadata of the proof member. */
  function Restored(base: Files): Files {
    map m | m in base :: if m == ParkProof then base[m] else File(base[m].data, PLAIN)
  }

  /** The same members with the same bytes, and the very same proof file. */
  ghost predicate SameClient(a: Files, b: Files) {
    && a.Keys == b.Keys
    && (forall m :: m in a ==> a[m].data == b[m].data)
    && (ParkProof in a ==> a[ParkProof] == b[ParkProof])
  }

  lemma RestoredIsSameClient(base: Files)
    ensures SameClient(Restored(base), base)
  {
  }

  /**
   Recovery puts the whole directory back as it was, metadata included, exactly when every
   member but the proof was root-owned with mode 0644 to begin with.
   */
  lemma RestoredIsExactIff(base: Files)
    ensures Restored(base) == base <==> forall m :: m in base && m != ParkProof ==> base[m].meta == PLAIN
  {
    if Restored(base) == base {
      forall m | m in base && m != ParkProof ensures base[m].meta == PLAIN {
        assert Restored(base)[m] == base[m];
      }
    }
  }

  /** A directory that is one whole client. */
  predicate WholeClient(files: Files) {
    && REQUIRED <= files.Keys <= REQUIRED + OPTIONAL
    && (ParkProof in files ==> MetaInRange(files[ParkProof].meta))
  }

  /** `installed(names)`: one entry for each name. */
  function HashesOf(files: Files, names: set<Member>): Hashes {
    map m | m in names :: if m in files then Some(HashOf(files[m].data)) else None
  }

  /** `installed()`: one entry for each member that is there. */
  function InstalledHashes(files: Files): map<Member, Hash> {
    map m | m in files :: HashOf(files[m].data)
  }

  function Names(base: Files, desired: map<Member, Code>): set<Member> {
    base.Keys + desired.Keys
  }

  function ProofFieldOf(base: Files, names: set<Member>): ProofField {
    if ParkProof !in names then NotRecorded
    else if ParkProof in base then Recorded(base[ParkProof].meta)
    else RecordedAbsent
  }

  /** The journal the protocol-two updater writes. */
  function JournalFor(base: Files, desired: map<Member, Code>, epoch: Option<string>): Transaction {
    var names := Names(base, desired);
    Transaction(map m | m in desired :: HashOf(desired[m]), HashesOf(base, names), epoch, ProofFieldOf(base, names))
  }

  /** An export the unprivileged reader returns: the required members and only listed ones. */
  predicate ValidExport(desired: map<Member, Code>) {
    REQUIRED <= desired.Keys <= REQUIRED + OPTIONAL
  }

  // ---- Fences -----------------------------------------------------------------------------

  /** The capability fences against a downgrade of broker or updater. */
  predicate CapabilityFence(base: Files, desired: map<Member, Code>)
    requires WholeClient(base) && ValidExport(desired)
  {
    && (base[ResourceBroker].data.durable ==>
          desired[ResourceBroker].durable && desired[UpgradeClient].updaterDurable)
    && (base[UpgradeClient].data.rolloutAware ==> desired[UpgradeClient].rolloutAware)
  }

  /** The recovery-protocol fences: both updaters must understand the journal. */
  predicate RecoveryFence(base: Files, desired: map<Member, Code>)
    requires WholeClient(base) && ValidExport(desired)
  {
    var names := Names(base, desired);
    && (names * OPTIONAL != {} ==> desired[UpgradeClient].protocolTwo && base[UpgradeClient].data.protocolTwo)
    && (ParkProof in names ==>
          desired[UpgradeClient].proofProtocol == 2 && base[UpgradeClient].data.proofProtocol == 2)
  }

  // ---- Version-skew recovery ----------------------------------------------------------------

  /** Reader `r` accepts the journal. */
  predicate Accepts(r: Reader, tx: Transaction) {
    ValidFiles(r, tx.previous) && PreviousProofMetadata(r, tx).Metadata?
  }

  /** What a recovery by `r` completes with, from any mixed directory. */
  function RecoveredBy(r: Reader, tx: Transaction, install: Files, previous: map<Member, Code>): Files
    requires Accepts(r, tx)
  {
    CopyUpTo(install, previous, tx.previous, PreviousProofMetadata(r, tx).meta, |ALL|)
  }

  /** `previous/` as it was staged from `base`. */
  ghost predicate Kept(previous: map<Member, Code>, base: Files) {
    forall m :: m in base ==> m in previous && previous[m] == base[m].data
  }

  /** A directory in which the transaction from `base` to `desired` may have touched any member. */
  ghost predicate Touched(install: Files, base: Files, desired: map<Member, Code>) {
    forall m :: m in install ==> m in Names(base, desired)
  }

  /**
   The updater on disk is, at every crash point, the old or the new one. When the fences
   pass, whichever it is accepts the journal.
   */
  lemma FencedJournalAccepted(base: Files, desired: map<Member, Code>, epoch: Option<string>, code: Code)
    requires WholeClient(base) && ValidExport(desired) && RecoveryFence(base, desired)
    requires code == base[UpgradeClient].data || code == desired[UpgradeClient]
    ensures Accepts(ReaderOf(code), JournalFor(base, desired, epoch))
  {
    var names := Names(base, desired);
    assert REQUIRED <= names <= REQUIRED + OPTIONAL;
    if ParkProof !in names {
      assert names <= REQUIRED + {GpuCapacity};
    }
  }

  /** What each member is after a recovery by `r`. */
  lemma RecoveredAt(r: Reader, base: Files, desired: map<Member, Code>, epoch: Option<string>,
                    install: Files, previous: map<Member, Code>, m: Member)
    requires WholeClient(base) && ValidExport(desired) && Kept(previous, base) && Touched(install, base, desired)
    requires Accepts(r, JournalFor(base, desired, epoch))
    ensures At(RecoveredBy(r, JournalFor(base, desired, epoch), install, previous), m)
            == if m !in base then None
               else Some(Written(m, base[m].data, PreviousProofMetadata(r, JournalFor(base, desired, epoch)).meta))
  {
    var tx := JournalFor(base, desired, epoch);
    CopyUpToAt(install, previous, tx.previous, PreviousProofMetadata(r, tx).meta, |ALL|, m);
    if Listed(m) {
      ListedInAll(m);
    }
  }

  /** What an accepting reader knows of the proof file. */
  lemma JournalMetadata(r: Reader, base: Files, desired: map<Member, Code>, epoch: Option<string>)
    requires Accepts(r, JournalFor(base, desired, epoch))
    ensures ParkProof in base ==>
              PreviousProofMetadata(r, JournalFor(base, desired, epoch)).meta ==
              if r.ProtocolTwo? then Some(base[ParkProof].meta) else None
  {
  }

  /** Equal member by member. */
  lemma FilesEqual(a: Files, b: Files)
    requires forall m :: At(a, m) == At(b, m)
    ensures a == b
  {
    forall m ensures m in a <==> m in b {
      assert At(a, m) == At(b, m);
    }
    forall m | m in a ensures a[m] == b[m] {
      assert At(a, m) == At(b, m);
    }
  }

  /**
   A recovery by any accepting reader puts back exactly `Restored(base)` if and only if the
   proof member was absent, the reader is the protocol-two one, or its metadata was plain
   already: the protocol-one reader resets the mode and owner of anything else.
   */
  lemma RecoversExactlyIff(r: Reader, base: Files, desired: map<Member, Code>, epoch: Option<string>,
                           install: Files, previous: map<Member, Code>)
    requires WholeClient(base) && ValidExport(desired) && Kept(previous, base) && Touched(install, base, desired)
    requires Accepts(r, JournalFor(base, desired, epoch))
    ensures RecoveredBy(r, JournalFor(base, desired, epoch), install, previous) == Restored(base)
            <==> ParkProof !in base || r.ProtocolTwo? || base[ParkProof].meta == PLAIN
  {
    JournalMetadata(r, base, desired, epoch);
    var proof := PreviousProofMetadata(r, JournalFor(base, desired, epoch)).meta;
    RecoveredIs(r, base, desired, epoch, install, previous);
    hide RecoveredBy; hide PreviousProofMetadata; hide JournalFor; hide Accepts; hide WholeClient; hide Touched; hide Kept;
    RewrittenIsRestoredIff(base, proof);
  }

  /** Every member of `base` written anew with its bytes. */
  function Rewritten(base: Files, proof: Option<Meta>): Files {
    map m | m in base :: Written(m, base[m].data, proof)
  }

  lemma RecoveredIs(r: Reader, base: Files, desired: map<Member, Code>, epoch: Option<string>,
                    install: Files, previous: map<Member, Code>)
    requires WholeClient(base) && ValidExport(desired) && Kept(previous, base) && Touched(install, base, desired)
    requires Accepts(r, JournalFor(base, desired, epoch))
    ensures RecoveredBy(r, JournalFor(base, desired, epoch), install, previous)
            == Rewritten(base, PreviousProofMetadata(r, JournalFor(base, desired, epoch)).meta)
  {
    hide RecoveredBy; hide PreviousProofMetadata; hide ValidFiles; hide WholeClient; hide JournalFor; hide Written;
    var got := RecoveredBy(r, JournalFor(base, desired, epoch), install, previous);
    var want := Rewritten(base, PreviousProofMetadata(r, JournalFor(base, desired, epoch)).meta);
    forall m ensures At(got, m) == At(want, m) {
      RecoveredAt(r, base, desired, epoch, install, previous, m);
    }
    FilesEqual(got, want);
  }

  lemma RewrittenIsRestoredIff(base: Files, proof: Option<Meta>)
    requires ParkProof in base ==> proof == Some(base[ParkProof].meta) || proof == None
    ensures Rewritten(base, proof) == Restored(base)
            <==> ParkProof !in base || proof == Some(base[ParkProof].meta) || base[ParkProof].meta == PLAIN
  {
    if ParkProof in base {
      assert Rewritten(base, proof)[ParkProof] == Written(ParkProof, base[ParkProof].data, proof);
      assert Restored(base)[ParkProof] == base[ParkProof];
    }
  }

  /**
   Version-skew recovery: with the fences passed, whichever updater is on disk at the crash
   restores every member's bytes or absence, and the proof file's owner and mode.
   */
  lemma FencedRecoveryExact(base: Files, desired: map<Member, Code>, epoch: Option<string>, code: Code,
                            install: Files, previous: map<Member, Code>)
    requires WholeClient(base) && ValidExport(desired) && RecoveryFence(base, desired)
    requires code == base[UpgradeClient].data || code == desired[UpgradeClient]
    requires Kept(previous, base) && Touched(install, base, desired)
    ensures Accepts(ReaderOf(code), JournalFor(base, desired, epoch))
    ensures RecoveredBy(ReaderOf(code), JournalFor(base, desired, epoch), install, previous) == Restored(base)
  {
    FencedJournalAccepted(base, desired, epoch, code);
    RecoversExactlyIff(ReaderOf(code), base, desired, epoch, install, previous);
  }

  /** What the fences are for: the pre-bridge reader accepts a journal only without the proof member. */
  lemma PrebridgeAcceptsIff(base: Files, desired: map<Member, Code>, epoch: Option<string>)
    requires WholeClient(base) && ValidExport(desired)
    ensures Accepts(Prebridge, JournalFor(base, desired, epoch)) <==> ParkProof !in Names(base, desired)
  {
    var names := Names(base, desired);
    if ParkProof !in names {
      assert names <= REQUIRED + {GpuCapacity};
    }
  }
}
