/** The snapshot store, file operation by file operation.

    Stores, deletes and injects of any number of callers may interleave between any two operations, a
    script may die before any of its commands, and only a part of the uploaded archive may arrive. */
module SnapshotFiles {
  import opened Wrappers
  import opened Cluster
  import opened SnapshotPaths

  // ---- Checksums ----------------------------------------------------------------

  predicate Blank(b: bv8) { b == 0x20 || 0x09 <= b <= 0x0D }

  function ChopLeft(s: Bytes): Bytes {
    if s != [] && Blank(s[0]) then ChopLeft(s[1..]) else s
  }

  function ChopRight(s: Bytes): Bytes {
    if s != [] && Blank(s[|s| - 1]) then ChopRight(s[..|s| - 1]) else s
  }

  /** TrimSpace of a checksum file */
  function Chop(s: Bytes): Bytes { ChopRight(ChopLeft(s)) }

  /** A hash without collisions whose digests are non-empty and hold no blanks. */
  ghost predicate Collisionless(hash: Bytes -> Bytes) {
    && (forall a, b :: hash(a) == hash(b) ==> a == b)
    && (forall a :: hash(a) != [] && Chop(hash(a)) == hash(a))
  }

  /** verifyArchive returns nil */
  predicate Verified(hash: Bytes -> Bytes, archive: Bytes, sum: Bytes) {
    Chop(sum) != [] && hash(archive) == Chop(sum)
  }

  /** ASCII white space */
  predicate White(s: Bytes) {
    forall b :: b in s ==> b in {0x09, 0x0A, 0x0B, 0x0C, 0x0D, 0x20}
  }

  lemma {:induction false} ChopPadLeft(pad: Bytes, s: Bytes)
    requires White(pad)
    ensures ChopLeft(pad + s) == ChopLeft(s)
  {
    if pad == [] {
      assert pad + s == s;
    } else {
      assert pad[0] in pad && (pad + s)[0] == pad[0] && (pad + s)[1..] == pad[1..] + s;
      assert forall c :: c in pad[1..] ==> c in pad;
      ChopPadLeft(pad[1..], s);
    }
  }

  lemma {:induction false} ChopPadRight(s: Bytes, pad: Bytes)
    requires White(pad)
    ensures ChopRight(s + pad) == ChopRight(s)
  {
    if pad == [] {
      assert s + pad == s;
    } else {
      var n := |pad| - 1;
      assert pad[n] in pad && (s + pad)[|s| + n] == pad[n] && (s + pad)[..|s| + n] == s + pad[..n];
      assert forall c :: c in pad[..n] ==> c in pad;
      ChopPadRight(s, pad[..n]);
    }
  }

  /** What chopping leaves begins and ends with something. */
  lemma {:induction false} Chopped(s: Bytes)
    ensures var c := Chop(s); c == s && s != [] ==> !Blank(s[0]) && !Blank(s[|s| - 1])
  {
    ChopLeftShortens(s);
    ChopRightShortens(ChopLeft(s));
  }

  lemma {:induction false} ChopLeftShortens(s: Bytes)
    ensures |ChopLeft(s)| <= |s| && (s != [] && Blank(s[0]) ==> |ChopLeft(s)| < |s|)
  {
    if s != [] && Blank(s[0]) {
      ChopLeftShortens(s[1..]);
    }
  }

  lemma {:induction false} ChopRightShortens(s: Bytes)
    ensures |ChopRight(s)| <= |s| && (s != [] && Blank(s[|s| - 1]) ==> |ChopRight(s)| < |s|)
  {
    if s != [] && Blank(s[|s| - 1]) {
      ChopRightShortens(s[..|s| - 1]);
    }
  }

  /** An archive verifies against a checksum file exactly if this is its digest, with or without white space
      around it. */
  lemma PaddedSumVerifies(hash: Bytes -> Bytes, archive: Bytes, other: Bytes, left: Bytes, right: Bytes)
    requires Collisionless(hash) && White(left) && White(right)
    ensures Verified(hash, archive, left + hash(other) + right) <==> archive == other
    ensures !Verified(hash, archive, left)
  {
    var h := hash(other);
    assert h != [] && Chop(h) == h;
    Chopped(h);
    ChopPadLeft(left, h + right);
    assert left + h + right == left + (h + right) && (h + right)[0] == h[0];
    ChopPadRight(h, right);
    ChopPadLeft(left, []);
    assert left + [] == left;
  }

  // ---- File operations -------------------------------------------------------------

  /** The files, and which archives were ever produced for which key. */
  datatype Store = Store(files: map<string, Bytes>, produced: set<(Key, Bytes)>)

  datatype Op =
    | Produce(key: Key, archive: Bytes)            // tar in the tenant's pod has ended
    | MakeDir(key: Key)
    | OpenArchive(key: Key)                        // cat > tmp: the shell empties the file first
    | FillArchive(key: Key, slot: Slot, bytes: Bytes)
    | OpenSum(key: Key)
    | FillSum(key: Key, slot: Slot, archive: Bytes)
    | PublishArchive(key: Key)                     // mv tmp into place
    | PublishSum(key: Key)
    | RemoveArchive(key: Key)                      // rm -f
    | RemoveSum(key: Key)

  /** What a command needs in order not to fail.  A writer that opened a temporary file keeps writing to
      that file under whatever name another writer has renamed it to, hence the two slots of a fill. */
  predicate Possible(s: Store, op: Op) {
    '/' !in op.key.tenant &&
    match op
    case FillArchive(_, slot, _) => slot in {Archive, ArchiveTmp}
    case FillSum(k, slot, archive) => slot in {Checksum, ChecksumTmp} && (k, archive) in s.produced
    case PublishArchive(k) => PathOf(k, ArchiveTmp) in s.files
    case PublishSum(k) => PathOf(k, ChecksumTmp) in s.files
    case _ => true
  }

  function Moved(files: map<string, Bytes>, from: string, to: string): map<string, Bytes>
    requires from in files
  {
    files[to := files[from]] - {from}
  }

  function Files(hash: Bytes -> Bytes, s: Store, op: Op): map<string, Bytes>
    requires Possible(s, op)
  {
    match op
    case OpenArchive(k) => s.files[PathOf(k, ArchiveTmp) := []]
    case FillArchive(k, slot, bytes) => s.files[PathOf(k, slot) := bytes]
    case OpenSum(k) => s.files[PathOf(k, ChecksumTmp) := []]
    case FillSum(k, slot, archive) => s.files[PathOf(k, slot) := hash(archive)]
    case PublishArchive(k) => Moved(s.files, PathOf(k, ArchiveTmp), PathOf(k, Archive))
    case PublishSum(k) => Moved(s.files, PathOf(k, ChecksumTmp), PathOf(k, Checksum))
    case RemoveArchive(k) => s.files - {PathOf(k, Archive)}
    case RemoveSum(k) => s.files - {PathOf(k, Checksum)}
    case _ => s.files
  }

  function Do(hash: Bytes -> Bytes, s: Store, op: Op): Store
    requires Possible(s, op)
  {
    Store(Files(hash, s, op), if op.Produce? then s.produced + {(op.key, op.archive)} else s.produced)
  }

  // ---- What every operation keeps --------------------------------------------------

  /** A checksum file of the key, temporary or not, is empty or the digest of an archive produced for it. */
  ghost predicate SumOk(hash: Bytes -> Bytes, s: Store, k: Key, slot: Slot) {
    var p := PathOf(k, slot);
    p in s.files ==> s.files[p] == [] || exists a :: (k, a) in s.produced && s.files[p] == hash(a)
  }

  ghost predicate SumsInv(hash: Bytes -> Bytes, s: Store) {
    forall k: Key :: '/' !in k.tenant ==> SumOk(hash, s, k, Checksum) && SumOk(hash, s, k, ChecksumTmp)
  }

  /** The operation touches no file of another tenant or workload. */
  lemma OthersUntouched(hash: Bytes -> Bytes, s: Store, op: Op, l: Key, slot: Slot)
    requires Possible(s, op) && '/' !in l.tenant && l != op.key
    ensures var p := PathOf(l, slot);
            (p in Do(hash, s, op).files <==> p in s.files) && (p in s.files ==> Do(hash, s, op).files[p] == s.files[p])
  {
    forall r | PathOf(l, slot) == PathOf(op.key, r)
      ensures false
    {
      PathsApart(l, slot, op.key, r);
    }
    assert forall r :: PathOf(l, slot) != PathOf(op.key, r);
  }

  lemma SlotsApart(k: Key, r: Slot, s: Slot)
    requires r != s
    ensures PathOf(k, r) != PathOf(k, s)
  {
    PathsCollide(k, r, k, s);
  }

  lemma AllSlotsApart(k: Key)
    ensures forall r, s :: r != s ==> PathOf(k, r) != PathOf(k, s)
  {
    forall r, s | r != s
      ensures PathOf(k, r) != PathOf(k, s)
    {
      SlotsApart(k, r, s);
    }
  }

  lemma SumKept(hash: Bytes -> Bytes, s: Store, op: Op, k: Key, slot: Slot)
    requires Possible(s, op) && SumsInv(hash, s) && '/' !in k.tenant && slot in {Checksum, ChecksumTmp}
    ensures SumOk(hash, Do(hash, s, op), k, slot)
  {
    hide PathOf;
    var s' := Do(hash, s, op);
    assert SumOk(hash, s, k, Checksum) && SumOk(hash, s, k, ChecksumTmp);
    if k != op.key {
      OthersUntouched(hash, s, op, k, slot);
    } else {
      AllSlotsApart(k);
    }
  }

  lemma StepSums(hash: Bytes -> Bytes, s: Store, op: Op)
    requires Possible(s, op) && SumsInv(hash, s)
    ensures SumsInv(hash, Do(hash, s, op))
  {
    forall k: Key | '/' !in k.tenant
      ensures SumOk(hash, Do(hash, s, op), k, Checksum) && SumOk(hash, Do(hash, s, op), k, ChecksumTmp)
    {
      SumKept(hash, s, op, k, Checksum);
      SumKept(hash, s, op, k, ChecksumTmp);
    }
  }

  // ---- Runs ---------------------------------------------------------------------

  const EMPTY := Store(map[], {})

  ghost predicate Ran(hash: Bytes -> Bytes, ops: seq<Op>)
    decreases |ops|, 0
  {
    ops == [] ||
    var before := ops[..|ops| - 1];
    Ran(hash, before) && Possible(After(hash, before), ops[|ops| - 1])
  }

  /** The store after a run that began with an empty volume. */
  ghost function After(hash: Bytes -> Bytes, ops: seq<Op>): Store
    requires Ran(hash, ops)
    decreases |ops|, 1
  {
    if ops == [] then EMPTY else Do(hash, After(hash, ops[..|ops| - 1]), ops[|ops| - 1])
  }

  lemma RanOne(hash: Bytes -> Bytes, ops: seq<Op>, op: Op)
    requires Ran(hash, ops) && Possible(After(hash, ops), op)
    ensures Ran(hash, ops + [op]) && After(hash, ops + [op]) == Do(hash, After(hash, ops), op)
  {
    assert (ops + [op])[..|ops + [op]| - 1] == ops;
  }

  lemma {:induction false} RunSums(hash: Bytes -> Bytes, ops: seq<Op>)
    requires Ran(hash, ops)
    ensures SumsInv(hash, After(hash, ops))
    decreases |ops|
  {
    if ops != [] {
      RunSums(hash, ops[..|ops| - 1]);
      StepSums(hash, After(hash, ops[..|ops| - 1]), ops[|ops| - 1]);
    }
  }

  /** Whatever archive content a reader sees, and whatever the checksum file holds at some other moment: if
      they verify, the content is a complete archive that was produced for this very tenant and workload. */
  lemma VerifiedIsProduced(hash: Bytes -> Bytes, ops: seq<Op>, k: Key, archive: Bytes)
    requires Collisionless(hash) && Ran(hash, ops) && '/' !in k.tenant
    requires PathOf(k, Checksum) in After(hash, ops).files
    requires Verified(hash, archive, After(hash, ops).files[PathOf(k, Checksum)])
    ensures (k, archive) in After(hash, ops).produced
  {
    RunSums(hash, ops);
    var s := After(hash, ops);
    assert SumOk(hash, s, k, Checksum);
    var sum := s.files[PathOf(k, Checksum)];
    assert sum != [];
    var a :| (k, a) in s.produced && sum == hash(a);
    assert Chop(hash(a)) == hash(a);
  }

  // ---- What the store holds for a key --------------------------------------------------

  /** The reading of the four files that the rest of the operator model works with. */
  function StateOf(hash: Bytes -> Bytes, files: map<string, Bytes>, k: Key): Option<Snapshot> {
    if PathOf(k, Archive) !in files then None
    else
      var archive := files[PathOf(k, Archive)];
      if archive == [] then Some(Torn(true))
      else if PathOf(k, Checksum) in files && Verified(hash, archive, files[PathOf(k, Checksum)]) then
        Some(Good(archive))
      else Some(Torn(false))
  }

  /** An operation for one key changes what the store holds for no other. */
  lemma OthersKeepState(hash: Bytes -> Bytes, s: Store, op: Op, l: Key)
    requires Possible(s, op) && '/' !in l.tenant && l != op.key
    ensures StateOf(hash, Do(hash, s, op).files, l) == StateOf(hash, s.files, l)
  {
    OthersUntouched(hash, s, op, l, Archive);
    OthersUntouched(hash, s, op, l, Checksum);
  }

  // ---- The write script ------------------------------------------------------------

  /** The shell one-liner of writeToSnapshotsPVC, with what arrived on its standard input. */
  function Script(k: Key, data: Bytes, arrived: Bytes): seq<Op> {
    [MakeDir(k), OpenArchive(k), FillArchive(k, ArchiveTmp, arrived), OpenSum(k), FillSum(k, ChecksumTmp, data),
     PublishArchive(k), PublishSum(k)]
  }

  /** The files of the key after the first n commands. */
  function Written(hash: Bytes -> Bytes, s: Store, k: Key, data: Bytes, arrived: Bytes, n: nat): map<string, Bytes>
    requires n <= 7
  {
    var m1 := if n >= 2 then s.files[PathOf(k, ArchiveTmp) := if n >= 3 then arrived else []] else s.files;
    var m2 := if n >= 4 then m1[PathOf(k, ChecksumTmp) := if n >= 5 then hash(data) else []] else m1;
    var m3 := if n >= 6 then m2[PathOf(k, Archive) := arrived] - {PathOf(k, ArchiveTmp)} else m2;
    if n >= 7 then m3[PathOf(k, Checksum) := hash(data)] - {PathOf(k, ChecksumTmp)} else m3
  }

  /** Only the files matter to what the script writes. */
  lemma SameFiles(hash: Bytes -> Bytes, s: Store, t: Store, k: Key, data: Bytes, arrived: Bytes, n: nat)
    requires n <= 7 && s.files == t.files
    ensures Written(hash, s, k, data, arrived, n) == Written(hash, t, k, data, arrived, n)
  {
  }

  lemma NothingWritten(hash: Bytes -> Bytes, s: Store, k: Key, data: Bytes, arrived: Bytes)
    ensures Written(hash, s, k, data, arrived, 0) == s.files
  {
  }

  lemma WrittenStep(hash: Bytes -> Bytes, s: Store, k: Key, data: Bytes, arrived: Bytes, n: nat, mid: Store)
    requires n < 7 && '/' !in k.tenant && (k, data) in mid.produced
    requires mid.files == Written(hash, s, k, data, arrived, n)
    ensures var op := Script(k, data, arrived)[n];
            Possible(mid, op) && Do(hash, mid, op).produced == mid.produced
            && Do(hash, mid, op).files == Written(hash, s, k, data, arrived, n + 1)
  {
    hide PathOf;
    AllSlotsApart(k);
  }

  /** The crash table: what the store holds for the key if the script dies after n of its seven commands
      and only this part of the archive arrived. */
  lemma CrashTable(hash: Bytes -> Bytes, s: Store, k: Key, data: Bytes, arrived: Bytes, n: nat)
    requires Collisionless(hash) && n <= 7 && '/' !in k.tenant
    ensures var before, after := StateOf(hash, s.files, k), StateOf(hash, Written(hash, s, k, data, arrived, n), k);
            && (n <= 5 ==> after == before)
            && (n == 6 ==> after == if arrived == [] then Some(Torn(true))
                                    else if PathOf(k, Checksum) in s.files
                                            && Verified(hash, arrived, s.files[PathOf(k, Checksum)]) then
                                      Some(Good(arrived))
                                    else Some(Torn(false)))
            && (n == 7 ==> after == if arrived == [] then Some(Torn(true))
                                    else if arrived == data then Some(Good(data))
                                    else Some(Torn(false)))
  {
    hide PathOf;
    AllSlotsApart(k);
    assert Chop(hash(data)) == hash(data) != [];
    assert hash(arrived) == hash(data) ==> arrived == data;
  }

  /** A stored snapshot and one more write: exactly when is there still an intact snapshot afterwards?  Before
      the first rename always; between the renames only if the new content is the old one; and after both only
      if all of it arrived.  The script never leaves anything else intact. */
  lemma IntactAfterWrite(hash: Bytes -> Bytes, s: Store, k: Key, last: Bytes, data: Bytes, arrived: Bytes, n: nat)
    requires Collisionless(hash) && n <= 7 && '/' !in k.tenant && data != []
    requires StateOf(hash, s.files, k) == Some(Good(last))
    ensures var after := StateOf(hash, Written(hash, s, k, data, arrived, n), k);
            && (after == Some(Good(last)) || after == Some(Good(data)) <==>
                n <= 5 || (n == 6 && arrived == last) || (n == 7 && arrived == data))
            && (after.Some? && after.value.Good? ==> after.value.archive in {last, data})
  {
    CrashTable(hash, s, k, data, arrived, n);
    var sum := s.files[PathOf(k, Checksum)];
    assert Verified(hash, arrived, sum) ==> hash(arrived) == hash(last);
  }

  /** A partial stream can replace a good snapshot: cat does not fail when its input ends early, so an
      upload cut off at the start puts an empty archive in the place of the good one. */
  lemma PartialStreamReplacesGoodSnapshot(hash: Bytes -> Bytes, s: Store, k: Key, last: Bytes, data: Bytes)
    requires Collisionless(hash) && '/' !in k.tenant && data != []
    requires StateOf(hash, s.files, k) == Some(Good(last))
    ensures [] <= data && StateOf(hash, Written(hash, s, k, data, [], 7), k) == Some(Torn(true))
  {
    CrashTable(hash, s, k, data, [], 7);
  }

  /** So can a crash between the two renames, even though the whole archive arrived. */
  lemma CrashBetweenRenamesLosesSnapshot(hash: Bytes -> Bytes, s: Store, k: Key, last: Bytes, data: Bytes)
    requires Collisionless(hash) && '/' !in k.tenant && data != [] && data != last
    requires StateOf(hash, s.files, k) == Some(Good(last))
    ensures StateOf(hash, Written(hash, s, k, data, data, 6), k) == Some(Torn(false))
  {
    CrashTable(hash, s, k, data, data, 6);
    var sum := s.files[PathOf(k, Checksum)];
    assert hash(last) == Chop(sum);
  }

  // ---- The store as the operator model sees it ------------------------------------------

  /** No archive produced for the key is a proper prefix of this one: a compressed archive ends in a trailer. */
  ghost predicate EndsProperly(s: Store, k: Key, data: Bytes) {
    forall a :: (k, a) in s.produced && a <= data ==> a == data
  }

  /** The extraction outcome of the cluster model that a script cut short amounts to. */
  function OutcomeOf(before: Option<Snapshot>, after: Option<Snapshot>, data: Bytes, n: nat): Extraction {
    if n == 7 && after == Some(Good(data)) then Stored
    else if after == before then FailedClean
    else if after == Some(Good(data)) then FailedAfterStore
    else FailedTorn(after == Some(Torn(true)))
  }

  lemma NothingToChop()
    ensures Chop([]) == []
  {
  }

  /** Refinement: whatever point the script gets to and whatever arrives, the files then read as one of the
      outcomes that an extraction of this pod may have in the cluster model, and as Stored if it completed. */
  lemma ScriptRefinesExtract(hash: Bytes -> Bytes, s: Store, w: World, p: string, arrived: Bytes, n: nat)
    requires Collisionless(hash) && SumsInv(hash, s) && n <= 7
    requires p in w.pods && Enabled(w, CExtract(p, FailedClean)) && ArchiveOf(w, p) != []
    requires w.turn.Some? && '/' !in w.turn.value.claim.key.tenant
    requires var k := w.turn.value.claim.key;
             && StateOf(hash, s.files, k) == (if k in w.snaps then Some(w.snaps[k]) else None)
             && arrived <= ArchiveOf(w, p) && EndsProperly(s, k, ArchiveOf(w, p))
    ensures var k := w.turn.value.claim.key;
            var after := StateOf(hash, Written(hash, s, k, ArchiveOf(w, p), arrived, n), k);
            var x := OutcomeOf(StateOf(hash, s.files, k), after, ArchiveOf(w, p), n);
            && Enabled(w, CExtract(p, x))
            && after == (if k in SnapsAfter(w, CExtract(p, x)) then Some(SnapsAfter(w, CExtract(p, x))[k]) else None)
            && (n == 7 && arrived == ArchiveOf(w, p) ==> x == Stored)
  {
    hide PathOf, Chop;
    var k, data := w.turn.value.claim.key, ArchiveOf(w, p);
    CrashTable(hash, s, k, data, arrived, n);
    if n == 6 && PathOf(k, Checksum) in s.files && Verified(hash, arrived, s.files[PathOf(k, Checksum)]) {
      assert SumOk(hash, s, k, Checksum);
      NothingToChop();
      var a :| (k, a) in s.produced && s.files[PathOf(k, Checksum)] == hash(a);
      assert Chop(hash(a)) == hash(a);
      assert arrived == a;
    }
  }

  // ---- The manager -----------------------------------------------------------------

  class SnapshotManager {
    const hash: Bytes -> Bytes
    /** Nobody else works on the volume; everything not marked so holds with any number of others. */
    const alone: bool
    /** Every call gets through, nothing dies half-way, and all that is sent arrives. */
    const steady: bool
    var store: Store
    ghost var ops: seq<Op>

    ghost predicate Valid()
      reads this
    {
      Collisionless(hash) && Ran(hash, ops) && store == After(hash, ops)
    }

    constructor (hash: Bytes -> Bytes, alone: bool, steady: bool)
      requires Collisionless(hash)
      ensures Valid() && store == EMPTY && this.hash == hash && this.alone == alone && this.steady == steady
    {
      this.hash, this.alone, this.steady, store, ops := hash, alone, steady, EMPTY, [];
    }

    /** Others take any possible operations, in any number. */
    method Interfere()
      requires Valid()
      modifies this
      ensures Valid() && old(ops) <= ops && old(store.produced) <= store.produced
      ensures alone ==> ops == old(ops) && store == old(store)
    {
      // Nothing happens here; callers know no more than the postcondition.
    }

    method Commit(op: Op)
      requires Valid() && Possible(store, op)
      modifies this
      ensures Valid() && ops == old(ops) + [op] && store == Do(hash, old(store), op)
    {
      RanOne(hash, ops, op);
      ops, store := ops + [op], Do(hash, store, op);
    }

    /** A call that cannot reach the pod or the helper fails. */
    method Unreachable() returns (b: bool)
      ensures steady ==> !b
    {
      b := *;
      if steady {
        b := false;
      }
    }

    /** sh -c with set -e: stop at the first command that fails, or die before any. */
    method Write(k: Key, data: Bytes) returns (ok: bool, ghost arrived: Bytes, ghost steps: nat)
      requires Valid() && '/' !in k.tenant && (k, data) in store.produced
      modifies this
      ensures Valid() && steps <= 7 && arrived <= data && old(store.produced) <= store.produced
      ensures ok ==> steps == 7 && arrived == data
      ensures alone && steady ==> ok
      ensures alone ==> store.produced == old(store.produced)
                        && store.files == Written(hash, old(store), k, data, arrived, steps)
    {
      hide StateOf, PathOf, Written, Possible, Do, Ran, After, Collisionless;
      var cut :| 0 <= cut <= |data|;
      var part := if steady then data else data[..cut];
      arrived, steps := part, 0;
      NothingWritten(hash, store, k, data, part);
      var script := Script(k, data, part);
      var alive := true;
      var i := 0;
      while i < 7 && alive
        invariant Valid() && steps <= i <= 7 && (alive ==> steps == i)
        invariant (k, data) in store.produced && old(store.produced) <= store.produced
        invariant alone ==> store.produced == old(store.produced)
                            && store.files == Written(hash, old(store), k, data, part, steps)
        invariant alone && steady ==> alive
        decreases 7 - i
      {
        ghost var mid := store;
        if alone {
          WrittenStep(hash, old(store), k, data, part, i, mid);
        }
        alive := Step(script[i]);
        if alive {
          steps := i + 1;
        }
        i := i + 1;
      }
      ok := alive && part == data;
    }

    /** One command of the script. */
    method Step(op: Op) returns (ok: bool)
      requires Valid()
      modifies this
      ensures Valid() && old(store.produced) <= store.produced
      ensures !ok && alone ==> store == old(store)
      ensures alone && steady ==> ok == Possible(old(store), op)
      ensures ok && alone ==> Possible(old(store), op) && store == Do(hash, old(store), op)
    {
      Interfere();
      var dead := Unreachable();
      ok := !dead && Possible(store, op);
      if ok {
        Commit(op);
      }
    }

    // ---- Store, inject, delete ------------------------------------------------------

    /** ExtractAndStore.  What tar printed is the archive, or None if the extraction failed. */
    method ExtractAndStore(k: Key, dirs: seq<string>, tar: Option<Bytes>)
        returns (ok: bool, ghost arrived: Bytes, ghost steps: nat)
      requires Valid() && '/' !in k.tenant
      modifies this
      ensures Valid() && old(store.produced) <= store.produced && steps <= 7
      ensures dirs == [] ==> ok && store == old(store)
      ensures dirs != [] && tar == None ==> !ok && store == old(store)
      ensures dirs != [] && tar == Some([]) ==> ok && store == old(store)
      ensures alone && dirs != [] && tar.Some? && tar.value != [] ==>
                && arrived <= tar.value && (ok ==> steps == 7 && arrived == tar.value)
                && store.files == Written(hash, old(store), k, tar.value, arrived, steps)
                && store.produced == old(store.produced) + {(k, tar.value)}
      ensures alone && steady ==> (ok <==> dirs == [] || tar.Some?)
      ensures alone && ok && dirs != [] && tar.Some? && tar.value != [] ==>
                StateOf(hash, store.files, k) == Some(Good(tar.value))
    {
      hide PathOf, Ran, After, SumsInv;
      arrived, steps := [], 0;
      if dirs == [] {
        ok := true;
      } else if tar == None {
        ok := false;
      } else if tar.value == [] {
        ok := true;
      } else {
        Commit(Produce(k, tar.value));
        ghost var mid := store;
        ok := EnsureHelperPod();
        NothingWritten(hash, store, k, tar.value, []);
        if ok {
          ok, arrived, steps := Write(k, tar.value);
        }
        if alone {
          SameFiles(hash, mid, old(store), k, tar.value, arrived, steps);
          CrashTable(hash, mid, k, tar.value, arrived, steps);
        }
      }
    }

    /** The helper pod exists or could be made. */
    method EnsureHelperPod() returns (ok: bool)
      requires Valid()
      modifies this
      ensures Valid() && old(ops) <= ops && old(store.produced) <= store.produced
      ensures alone ==> store == old(store)
      ensures steady ==> ok
    {
      Interfere();
      var failed := Unreachable();
      ok := !failed;
    }

    /** readFromSnapshotsPVC.  While others write, a read may see any mixture of what they write. */
    method ReadArchive(k: Key) returns (content: Option<Bytes>)
      requires Valid()
      modifies this
      ensures Valid() && old(ops) <= ops && (alone ==> store == old(store))
      ensures steady && content == None ==> PathOf(k, Archive) !in store.files
      ensures alone && content.Some? ==>
                PathOf(k, Archive) in store.files && content.value == store.files[PathOf(k, Archive)]
    {
      var ok := EnsureHelperPod();
      content := None;
      if ok && PathOf(k, Archive) in store.files {
        var mixture: Bytes := *;
        content := Some(if alone then store.files[PathOf(k, Archive)] else mixture);
      }
    }

    method ReadSum(k: Key) returns (content: Option<Bytes>)
      requires Valid()
      modifies this
      ensures Valid() && old(ops) <= ops && (alone ==> store == old(store))
      ensures content.Some? ==> PathOf(k, Checksum) in store.files && content.value == store.files[PathOf(k, Checksum)]
      ensures steady && content == None ==> PathOf(k, Checksum) !in store.files
    {
      var ok := EnsureHelperPod();
      content := if ok && PathOf(k, Checksum) in store.files then Some(store.files[PathOf(k, Checksum)]) else None;
    }

    /** InjectSnapshot: streamed is what went into the pod, if anything did.  In any interleaving that is one
        complete archive produced for the same tenant and workload.  Success without a stream means that
        the archive file was empty, which is not verified. */
    method InjectSnapshot(k: Key) returns (ok: bool, streamed: Option<Bytes>)
      requires Valid() && '/' !in k.tenant
      modifies this
      ensures Valid() && (alone ==> store == old(store))
      ensures streamed.Some? ==> (k, streamed.value) in store.produced
      ensures alone && streamed.Some? ==> StateOf(hash, store.files, k) == Some(Good(streamed.value))
      ensures alone && ok && streamed.None? ==> StateOf(hash, store.files, k) == Some(Torn(true))
      ensures alone && steady ==>
                match StateOf(hash, store.files, k) {
                  case Some(Good(archive)) => ok && streamed == Some(archive)
                  case Some(Torn(empty)) => ok == empty && streamed == None
                  case None => !ok && streamed == None
                }
    {
      hide PathOf, Ran, After, SumsInv, Chop;
      ok, streamed := false, None;
      var archive := ReadArchive(k);
      if archive.Some? {
        if archive.value == [] {
          ok := true;
        } else {
          var sum := ReadSum(k);
          if sum.Some? && Verified(hash, archive.value, sum.value) {
            VerifiedIsProduced(hash, ops, k, archive.value);
            streamed := Some(archive.value);
            var failed := Unreachable();
            ok := !failed;
          }
        }
      }
    }

    method HasSnapshot(k: Key) returns (ok: bool, has: bool)
      requires Valid()
      modifies this
      ensures Valid() && (alone ==> store == old(store))
      ensures alone && ok ==> (has <==> StateOf(hash, store.files, k).Some?)
      ensures steady ==> ok
    {
      hide PathOf, Ran, After, SumsInv;
      ok := EnsureHelperPod();
      has := false;
      if ok {
        var failed := Unreachable();
        ok := !failed;
        has := ok && PathOf(k, Archive) in store.files;
      }
    }

    /** DeleteSnapshot reports success even if rm failed or stopped half-way. */
    method DeleteSnapshot(k: Key) returns (ok: bool, ghost steps: nat)
      requires Valid() && '/' !in k.tenant
      modifies this
      ensures Valid() && steps <= 2 && (!ok ==> steps == 0)
      ensures alone ==> StateOf(hash, store.files, k) == if steps == 0 then StateOf(hash, old(store).files, k) else None
      ensures alone && steps == 2 ==> PathOf(k, Checksum) !in store.files
      ensures alone && steady ==>
                ok && steps == 2 && store.files == old(store).files - {PathOf(k, Archive), PathOf(k, Checksum)}
    {
      hide Ran, After, SumsInv;
      ok, steps := false, 0;
      ok := EnsureHelperPod();
      if ok {
        var gone := Step(RemoveArchive(k));
        if gone {
          steps := 1;
          gone := Step(RemoveSum(k));
          if gone {
            steps := 2;
            SlotsApart(k, Archive, Checksum);
          }
        }
      }
    }
  }
}
