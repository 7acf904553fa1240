/** `ProofAccounts`: delivering proofs, using them in one transaction, and cleaning up whatever happens. */
module Proofs {
  import opened Types
  import opened Packet
  import opened Chain
  import opened ClusterModel
  import opened Delivery
  import opened Acceptance
  import Conservation
  import Ledger
  import Packing
  import Rely

  /** Longer data never makes the built transaction smaller. */
  ghost predicate Growing(payer: Address, data: Bytes, build: Bytes -> seq<Ix>) {
    forall i, j | 0 <= i <= j <= |data| ::
      TransactionSize(build(data[..i]), payer) <= TransactionSize(build(data[..j]), payer)
  }

  /** The largest prefix of `data` whose transaction fits; 0 when no non-empty one does. */
  method LargestChunk(payer: Address, limit: nat, data: Bytes, build: Bytes -> seq<Ix>) returns (len: nat)
    requires Growing(payer, data, build)
    ensures len <= |data|
    ensures len > 0 ==> Fits(build(data[..len]), payer, limit)
    ensures forall m | len < m <= |data| :: !Fits(build(data[..m]), payer, limit)
  {
    var low, high := 0, |data|;
    while low < high
      invariant low <= high <= |data|
      invariant low > 0 ==> Fits(build(data[..low]), payer, limit)
      invariant forall m | high < m <= |data| :: !Fits(build(data[..m]), payer, limit)
    {
      var mid := (low + high + 1) / 2;
      if Fits(build(data[..mid]), payer, limit) {
        low := mid;
      } else {
        high := mid - 1;
      }
    }
    len := low;
  }

  /** The accounts on chain are exactly those listed, contexts verified and records written to. */
  ghost predicate Accounted(live: ProofMap, payer: Address, contexts: seq<Address>, records: seq<Address>,
                            staged: seq<Staged>, promised: map<Address, Promise>) {
    && live.Keys == (set a | a in contexts + records)
    && (forall a | a in contexts :: a in promised && live[a] == Context(payer, promised[a].kind, promised[a].proof))
    && (forall a | a in records :: live[a].Record? && live[a].authority == payer)
    && AllStaged(live, payer, staged, promised)
  }

  /** `Accounted`, with every address of the operation generated and no staged context created yet. */
  ghost predicate Books(live: ProofMap, payer: Address, floor: Address, nextKey: Address, contexts: seq<Address>,
                        records: seq<Address>, staged: seq<Staged>, promised: map<Address, Promise>) {
    && Accounted(live, payer, contexts, records, staged, promised)
    && (forall s | s in staged :: floor <= s.context < nextKey && s.context !in contexts + records)
    && (forall a | a in contexts + records :: a < nextKey)
    && Distinct(contexts + records)
  }

  /** Of the closing instructions, those from `start` on are each good for an account that is there, and nothing else is. */
  ghost predicate Closable(live: ProofMap, payer: Address, contexts: seq<Address>, records: seq<Address>) {
    && live.Keys <= (set a | a in contexts + records) && Distinct(contexts + records)
    && AllMayClose(live, Firsts(Closing(contexts, records, payer)), payer)
  }

  lemma BooksClosable(live: ProofMap, payer: Address, floor: Address, nextKey: Address, contexts: seq<Address>,
                      records: seq<Address>, staged: seq<Staged>, promised: map<Address, Promise>)
    requires Books(live, payer, floor, nextKey, contexts, records, staged, promised)
    ensures Closable(live, payer, contexts, records)
  {
    var all, ixs := contexts + records, Firsts(Closing(contexts, records, payer));
    forall i | 0 <= i < |ixs| ensures MayClose(live, ixs[i].op, payer) {
      assert all[i] in all;
    }
  }

  lemma BooksLater(live: ProofMap, payer: Address, floor: Address, nextKey: Address, nextKey': Address,
                   contexts: seq<Address>, records: seq<Address>, staged: seq<Staged>, promised: map<Address, Promise>)
    requires Books(live, payer, floor, nextKey, contexts, records, staged, promised) && nextKey <= nextKey'
    ensures Books(live, payer, floor, nextKey', contexts, records, staged, promised)
  {}

  lemma DistinctInsert(a: seq<Address>, x: Address, b: seq<Address>)
    requires Distinct(a + b) && x !in a + b
    ensures Distinct(a + [x] + b)
  {
    var s, t := a + b, a + [x] + b;
    forall i, j | 0 <= i < j < |t| ensures t[i] != t[j] {
      var i', j' := if i > |a| then i - 1 else i, if j > |a| then j - 1 else j;
      assert i != |a| ==> t[i] == s[i'];
      assert j != |a| ==> t[j] == s[j'];
    }
  }

  lemma BooksWithContext(live: ProofMap, payer: Address, floor: Address, context: Address, contexts: seq<Address>,
                         records: seq<Address>, staged: seq<Staged>, promised: map<Address, Promise>, p: Promise)
    requires Books(live, payer, floor, context, contexts, records, staged, promised)
    ensures Books(live[context := Context(payer, p.kind, p.proof)], payer, floor, context + 1, contexts + [context], records,
                  staged, promised[context := p])
  {
    assert forall a | a in contexts + [context] + records :: a in contexts + records || a == context;
    DistinctInsert(contexts, context, records);
    assert forall s | s in staged :: RecordOf(s) in live && RecordOf(s) != context;
  }

  lemma BooksWithRecord(live: ProofMap, payer: Address, floor: Address, record: Address, contexts: seq<Address>,
                        records: seq<Address>, staged: seq<Staged>, promised: map<Address, Promise>, account: ProofAccount)
    requires Books(live, payer, floor, record, contexts, records, staged, promised)
    requires account.Record? && account.authority == payer
    ensures Books(live[record := account], payer, floor, record + 1, contexts, records + [record], staged, promised)
    ensures forall s | s in staged :: RecordOf(s) != record
  {
    assert forall a | a in contexts + (records + [record]) :: a in contexts + records || a == record;
    DistinctInsert(contexts + records, record, []);
    assert contexts + (records + [record]) == contexts + records + [record] + [];
    assert contexts + records + [] == contexts + records;
    assert forall s | s in staged :: RecordOf(s) in live && RecordOf(s) != record;
  }

  lemma AboveWith(m: ProofMap, floor: Address, a: Address, account: ProofAccount)
    requires a >= floor
    ensures Above(m[a := account], floor) == Above(m, floor)[a := account]
  {}

  /**
   After an operation that failed with `r`: what `r` reports is the first send that failed, and if no other did, no proof
   account is left. So a report of a failed send is never of one that cleaning up made.
   */
  ghost predicate CleanUnlessMoreFailed<T>(r: Result<T>, before: seq<Error>, after: seq<Error>, live: ProofMap) {
    && Told(r, before) <= after
    && (after == Told(r, before) ==> live == map[])
  }

  /** Further sends failed only because the network lost them; the chain never refuses the cleaning up. */
  ghost predicate OnlyDropped(limit: nat, script: nat -> Turn, sent: seq<Attempt>, sent': seq<Attempt>, before: seq<Error>,
                              after: seq<Error>) {
    after != before ==> limit < CLOSE_SIZE || Dropped(script, sent, sent')
  }

  /** A proof to be verified from its record by the consuming transaction. */
  function StagedFrom(kind: ProofInstruction, record: Address, context: Address, payer: Address, tail: Option<Ix>,
                      contextSpace: nat): Staged {
    Staged(context, tail, CreateIx(payer, context, ZK_PROGRAM, contextSpace), VerifyRecordIx(kind, record, context, payer),
           ComputeUnits(kind))
  }

  predicate TailFits(s: Staged, payer: Address, limit: nat) {
    s.tail.Some? ==> Fits([s.tail.value], payer, limit)
  }

  predicate TailsFit(staged: seq<Staged>, payer: Address, limit: nat) {
    forall i | 0 <= i < |staged| :: TailFits(staged[i], payer, limit)
  }

  /** The packet limit leaves room to create the record, and to write any single byte of the proof. */
  ghost predicate Writable(record: Address, payer: Address, limit: nat, proof: Bytes) {
    Fits(EmptyRecordTx(payer, record, |proof|), payer, limit) && !SomeByteStuck(record, payer, limit, proof)
  }

  lemma NewKeyFree(m: ProofMap, floor: Address, live: ProofMap, key: Address)
    requires Above(m, floor) == live && key !in live && key >= floor
    ensures key !in m
  {
    assert key in m ==> key in Above(m, floor);
  }

  lemma FitsAsWrite(record: Address, payer: Address, limit: nat, proof: Bytes, lo: nat, hi: nat)
    requires lo <= hi <= |proof|
    ensures WriteFits(record, payer, limit, proof, lo, hi) == Fits([WriteIx(record, payer, lo, proof[lo..hi])], payer, limit)
  {}

  lemma ByteStuck(record: Address, payer: Address, limit: nat, proof: Bytes, offset: nat)
    requires offset < |proof| && !WriteFits(record, payer, limit, proof, offset, offset + 1)
    ensures SomeByteStuck(record, payer, limit, proof)
  {}

  lemma TailCompletes(data: Bytes, record: Address, payer: Address, proof: Bytes, offset: nat, len: nat)
    requires |data| == |proof| == offset + len && data[..offset] == proof[..offset]
    ensures CompletedBy(data, Some(WriteIx(record, payer, offset, proof[offset..offset + len])), record, payer, proof)
  {
    assert proof[offset..offset + len] == proof[offset..];
    FilledByTail(data, proof, offset);
  }

  lemma NothingToComplete(data: Bytes, record: Address, payer: Address, proof: Bytes)
    requires |data| == |proof| && data[..|proof|] == proof[..|proof|]
    ensures CompletedBy(data, None, record, payer, proof)
  {
    assert data == data[..|proof|] && proof == proof[..|proof|];
  }

  /** A tail kept back can always be written. */
  lemma TailAccepted(env: Env, w: World, floor: Address, live: ProofMap, payer: Address, staged: seq<Staged>,
                     promised: map<Address, Promise>, i: nat, signers: set<Address>)
    requires AllStaged(live, payer, staged, promised) && i < |staged| && staged[i].tail.Some?
    requires live == Above(w.proofs, floor) && payer in signers
    ensures ExecAll(env, w, [staged[i].tail.value], signers).Some?
  {
    assert staged[i] in staged;
    WriteAccepted(env, w, staged[i].tail.value, signers);
  }

  /** The closing instructions, contexts first, each with its budget. */
  function Closing(contexts: seq<Address>, records: seq<Address>, payer: Address): (items: seq<(Ix, nat)>)
    ensures |items| == |contexts| + |records|
    ensures Closes(Firsts(items), contexts + records, payer)
  {
    seq(|contexts|, i requires 0 <= i < |contexts| =>
      (CloseContextIx(contexts[i], payer), ComputeUnits(CloseContextState)))
    + seq(|records|, i requires 0 <= i < |records| => (CloseRecordIx(records[i], payer), RECORD_CLOSE_UNITS))
  }

  class ProofAccounts {
    /** Verified context-state accounts. */
    var contexts: seq<Address>
    /** The records the staged proofs are read from. */
    var records: seq<Address>
    var staged: seq<Staged>
    /** The proof each context holds or will hold. */
    ghost var promised: map<Address, Promise>

    ghost predicate Valid(c: Cluster)
      reads this, c
    {
      c.Valid() && Books(c.Live(), c.payer, c.floor, c.nextKey, contexts, records, staged, promised)
    }

    constructor (c: Cluster)
      requires c.Valid()
      modifies c`floor
      ensures Valid(c) && contexts == [] && records == [] && staged == [] && promised == map[]
      ensures c.floor == c.nextKey
    {
      contexts, records, staged, promised := [], [], [], map[];
      new;
      c.floor := c.nextKey;
    }

    /** Bring one proof on chain at once: its context is created and written by the same transaction. */
    method Verify(c: Cluster, kind: ProofInstruction, proof: Bytes, space: nat) returns (r: Result<Address>)
      requires Valid(c)
      modifies this, c
      ensures Valid(c) && c.floor == old(c.floor) && c.nextKey == old(c.nextKey) + 1
      ensures c.failures == Told(r, old(c.failures))
      ensures r.Err? ==> r.error.Invalid? || SendFailed(r)
      ensures Quiet(c.owner, c.script, old(c.Now()), c.Now())
      ensures records == old(records) && staged == old(staged)
      ensures r.Ok? ==> && r.value == old(c.nextKey) && contexts == old(contexts) + [r.value]
                        && promised == old(promised)[r.value := Promise(kind, proof)]
                        && c.landed == old(c.landed) + [VerifyTx(c.payer, r.value, kind, proof, space)]
      ensures r.Err? && r.error.Invalid? <==> !Fits(VerifyTx(c.payer, old(c.nextKey), kind, proof, space), c.payer, c.limit)
      ensures r.Err? ==> contexts == old(contexts) && promised == old(promised) && c.landed == old(c.landed)
      ensures r.Err? ==> || !Fits(VerifyTx(c.payer, old(c.nextKey), kind, proof, space), c.payer, c.limit)
                         || Dropped(c.script, old(c.sent), c.sent) || !Verifies(c.env, kind, proof)
    {
      hide Fits, ExecAll, Books, Quiet, Conservation.Conserved, Rely.Undisturbed, VerifyTx, Verifies, Dropped;
      ghost var m := c.Now();
      assert c.nextKey !in c.Live();
      var context := c.NewKey();
      BooksLater(c.Live(), c.payer, c.floor, context, c.nextKey, contexts, records, staged, promised);
      ghost var live := c.Live();
      var tx := VerifyTx(c.payer, context, kind, proof, space);
      if !Fits(tx, c.payer, c.limit) {
        QuietStill(c.owner, c.script, m);
        r := Err(Invalid);
      } else {
        var sent, mid := c.Send(tx, {context});
        OneDropped(c.script, m.sent, c.sent, m.turn, tx, mid);
        if sent.Err? {
          r := Err(sent.error);
          if Verifies(c.env, kind, proof) {
            NewKeyFree(mid.proofs, c.floor, live, context);
            VerifyTxAccepted(c.env, mid, c.payer, context, Promise(kind, proof), space, {c.payer} + {context});
          }
        } else {
          VerifyTxEffect(c.env, mid, c.payer, context, Promise(kind, proof), space, {c.payer} + {context});
          AboveWith(mid.proofs, c.floor, context, Context(c.payer, kind, proof));
          BooksWithContext(live, c.payer, c.floor, context, contexts, records, staged, promised, Promise(kind, proof));
          QuietLands(c.owner, c.script, m, Moment(c.turn, c.sent, m.landed, mid.ledger, mid.epoch), tx);
          contexts := contexts + [context];
          promised := promised[context := Promise(kind, proof)];
          r := Ok(context);
        }
      }
    }

    /** Create and initialize a record and write the largest chunk that fits beside. */
    method CreateRecord(c: Cluster, proof: Bytes) returns (r: Result<()>, record: Address, offset: nat)
      requires Valid(c)
      modifies this, c
      ensures Valid(c) && c.floor == old(c.floor) && c.nextKey == old(c.nextKey) + 1 && record == old(c.nextKey)
      ensures c.failures == Told(r, old(c.failures))
      ensures r.Err? ==> r.error.Invalid? || SendFailed(r)
      ensures Quiet(c.owner, c.script, old(c.Now()), c.Now())
      ensures contexts == old(contexts) && staged == old(staged) && promised == old(promised)
      ensures r.Ok? ==> records == old(records) + [record] && Filled(c.Live(), record, c.payer, proof, offset)
      ensures r.Ok? ==> && (forall s | s in staged :: RecordOf(s) != record)
                        && Chunking(record, c.payer, c.limit, proof, old(c.landed), c.landed, [0, offset])
                        && (offset == |proof| ==>
                              Chunked(record, c.payer, c.limit, proof, old(c.landed), c.landed, [0, offset], None))
      ensures r.Err? ==> records == old(records) && c.landed == old(c.landed) && !r.error.Invalid?
      ensures r.Err? ==> || !Fits(EmptyRecordTx(c.payer, record, |proof|), c.payer, c.limit)
                         || Dropped(c.script, old(c.sent), c.sent)
    {
      hide Fits, ExecAll, Chunking, Chunked, Conservation.Conserved, Quiet, Books, Rely.Undisturbed, RecordOf, Dropped;
      assert c.nextKey !in c.Live();
      ghost var m := c.Now();
      record := c.NewKey();
      ghost var live := c.Live();
      BooksLater(live, c.payer, c.floor, record, c.nextKey, contexts, records, staged, promised);
      var create, initialize := CreateRecordIx(c.payer, record, |proof|), InitRecordIx(record, c.payer);
      offset := LargestFirst(create, initialize, record, c.payer, c.limit, proof);
      var tx := [create, initialize, WriteIx(record, c.payer, 0, proof[..offset])];
      ghost var mid;
      r, mid := c.Send(tx, {record});
      OneDropped(c.script, m.sent, c.sent, m.turn, tx, mid);
      if r.Err? {
        NewKeyFree(mid.proofs, c.floor, live, record);
        FirstChunkAccepted(c.env, mid, record, c.payer, create, initialize, |proof|, proof[..offset], {c.payer} + {record});
        assert offset == 0 ==> proof[..offset] == [];
      } else {
        ghost var log' := ChunkingBegins(record, c.payer, c.limit, proof, m.landed, offset);
        FirstChunkEffect(c.env, mid, record, c.payer, create, initialize, |proof|, proof[..offset], {c.payer} + {record});
        var account := Record(c.payer, Overwrite(Zeros(|proof|), 0, proof[..offset]));
        AboveWith(mid.proofs, c.floor, record, account);
        BooksWithRecord(live, c.payer, c.floor, record, contexts, records, staged, promised, account);
        QuietLands(c.owner, c.script, m, Moment(c.turn, c.sent, m.landed, mid.ledger, mid.epoch), tx);
        records := records + [record];
      }
    }

    /** Send chunk after chunk, each as large as fits; the last one is not sent but handed back. */
    method FillRecord(c: Cluster, record: Address, proof: Bytes, first: nat, ghost log: seq<seq<Ix>>)
      returns (r: Result<Option<Ix>>, ghost cuts: seq<nat>)
      requires Valid(c) && record in records && Filled(c.Live(), record, c.payer, proof, first)
      requires forall s | s in staged :: RecordOf(s) != record
      requires Chunking(record, c.payer, c.limit, proof, log, c.landed, [0, first])
      requires first == |proof| ==> Chunked(record, c.payer, c.limit, proof, log, c.landed, [0, first], None)
      modifies c
      ensures Valid(c) && c.floor == old(c.floor) && c.nextKey == old(c.nextKey)
      ensures c.failures == Told(r, old(c.failures))
      ensures r.Err? ==> r.error.Invalid? || SendFailed(r)
      ensures Quiet(c.owner, c.script, old(c.Now()), c.Now())
      ensures r.Ok? ==> Chunked(record, c.payer, c.limit, proof, log, c.landed, cuts, r.value)
                        && record in c.Live() && c.Live()[record].Record? && c.Live()[record].authority == c.payer
                        && CompletedBy(c.Live()[record].data, r.value, record, c.payer, proof)
      ensures r.Err? && r.error.Invalid? ==> SomeByteStuck(record, c.payer, c.limit, proof)
      ensures r.Err? && !r.error.Invalid? ==> Dropped(c.script, old(c.sent), c.sent)
      ensures r.Ok? && r.value.Some? ==> Fits([r.value.value], c.payer, c.limit)
    {
      hide Fits, ExecAll, Dropped, CompletedBy, SomeByteStuck, Books, WriteIx, Overwrite, Above, Chunking, Chunked,
           Conservation.Conserved, Quiet;
      var offset := first;
      cuts := [0, first];
      ghost var m := c.Now();
      QuietStill(c.owner, c.script, m);
      while offset < |proof|
        invariant Valid(c) && c.floor == old(c.floor) && c.nextKey == old(c.nextKey)
        invariant c.failures == old(c.failures)
        invariant Quiet(c.owner, c.script, m, c.Now())
        invariant Filled(c.Live(), record, c.payer, proof, offset)
        invariant Chunking(record, c.payer, c.limit, proof, log, c.landed, cuts)
        invariant |cuts| > 0 && cuts[|cuts| - 1] == offset
        invariant offset == |proof| ==> Chunked(record, c.payer, c.limit, proof, log, c.landed, cuts, None)
      {
        var len := LargestWrite(record, c.payer, c.limit, proof, offset);
        if len == 0 {
          ByteStuck(record, c.payer, c.limit, proof, offset);
          return Err(Invalid), cuts;
        }
        var ix := WriteIx(record, c.payer, offset, proof[offset..offset + len]);
        ChunkingGoesOn(record, c.payer, c.limit, proof, log, c.landed, cuts, offset + len, ix);
        ghost var data := c.Live()[record].data;
        FitsAsWrite(record, c.payer, c.limit, proof, offset, offset + len);
        if offset + len == |proof| {
          TailCompletes(data, record, c.payer, proof, offset, len);
          return Ok(Some(ix)), cuts + [|proof|];
        }
        ghost var m1 := c.Now();
        var sent := WriteChunk(c, record, offset, proof[offset..offset + len]);
        QuietSays(c.owner, c.script, m, m1);
        QuietTransitive(c.owner, c.script, m, m1, c.Now());
        if sent.Err? {
          DroppedWithin(c.script, m.sent, m1.sent, c.sent, c.sent);
          return Err(sent.error), cuts;
        }
        FilledFurther(data, proof, offset, len);
        offset := offset + len;
        ghost var next: nat := offset;
        cuts := cuts + [next];
      }
      NothingToComplete(c.Live()[record].data, record, c.payer, proof);
      r := Ok(None);
    }

    /** Send a single write to a record that no staged proof reads. */
    method WriteChunk(c: Cluster, record: Address, offset: nat, chunk: Bytes) returns (r: Result<()>)
      requires Valid(c) && record in records
      requires forall s | s in staged :: RecordOf(s) != record
      modifies c
      ensures Valid(c) && c.floor == old(c.floor) && c.nextKey == old(c.nextKey)
      ensures c.failures == Told(r, old(c.failures))
      ensures r.Err? ==> r.error.Invalid? || SendFailed(r)
      ensures Quiet(c.owner, c.script, old(c.Now()), c.Now())
      ensures r.Ok? ==> && c.landed == old(c.landed) + [[WriteIx(record, c.payer, offset, chunk)]]
                        && offset + |chunk| <= |old(c.Live())[record].data|
                        && c.Live() == old(c.Live())[record := Record(c.payer, Overwrite(old(c.Live())[record].data, offset, chunk))]
      ensures r.Err? ==> c.landed == old(c.landed) && c.Live() == old(c.Live()) && !r.error.Invalid?
      ensures r.Err? ==> || !Fits([WriteIx(record, c.payer, offset, chunk)], c.payer, c.limit)
                         || offset + |chunk| > |old(c.Live())[record].data| || Dropped(c.script, old(c.sent), c.sent)
    {
      hide Fits, ExecAll, Quiet, Dropped, Rely.Undisturbed;
      ghost var live, m := c.Live(), c.Now();
      var ix := WriteIx(record, c.payer, offset, chunk);
      ghost var mid;
      r, mid := c.Send([ix], {});
      OneDropped(c.script, m.sent, c.sent, m.turn, [ix], mid);
      assert record in live && live[record] == mid.proofs[record] by {
        assert record in contexts + records;
      }
      if r.Err? {
        if offset + |chunk| <= |live[record].data| {
          WriteAccepted(c.env, mid, ix, {c.payer} + {});
        }
      } else {
        WriteEffect(c.env, mid, ix, {c.payer} + {});
        ghost var account := Record(c.payer, Overwrite(live[record].data, offset, chunk));
        AboveWith(mid.proofs, c.floor, record, account);
        BooksWithWrite(live, c.payer, c.floor, c.nextKey, contexts, records, staged, promised, record, account);
        QuietLands(c.owner, c.script, m, Moment(c.turn, c.sent, m.landed, mid.ledger, mid.epoch), [ix]);
      }
    }

    /**
     Put `proof` in a record of its own, all but a last piece, and list it to be verified from there by the transaction
     that will use it. `cuts` are the boundaries of the pieces; the first goes along with the creation of the record.
     */
    method StageFromRecord(c: Cluster, kind: ProofInstruction, proof: Bytes, contextSpace: nat)
      returns (r: Result<Address>, ghost cuts: seq<nat>)
      requires Valid(c)
      modifies this, c
      ensures Valid(c) && c.floor == old(c.floor)
      ensures c.failures == Told(r, old(c.failures))
      ensures r.Err? ==> r.error.Invalid? || SendFailed(r)
      ensures Quiet(c.owner, c.script, old(c.Now()), c.Now())
      ensures contexts == old(contexts)
      ensures r.Ok? ==> && promised == old(promised)[r.value := Promise(kind, proof)]
                        && |staged| == |old(staged)| + 1 && staged[..|old(staged)|] == old(staged)
                        && staged[|old(staged)|].context == r.value
                        && RecordOf(staged[|old(staged)|]) == old(c.nextKey)
                        && records == old(records) + [old(c.nextKey)]
                        && Chunked(old(c.nextKey), c.payer, c.limit, proof, old(c.landed), c.landed, cuts,
                                   staged[|old(staged)|].tail)
      ensures r.Err? ==> staged == old(staged) && promised == old(promised)
      ensures r.Err? && r.error.Invalid? ==> SomeByteStuck(old(c.nextKey), c.payer, c.limit, proof)
      ensures r.Err? ==> || !Writable(old(c.nextKey), c.payer, c.limit, proof)
                         || Dropped(c.script, old(c.sent), c.sent)
      ensures r.Ok? ==> r.value == old(c.nextKey) + 1 && c.nextKey == old(c.nextKey) + 2
      ensures r.Ok? ==> && TailFits(staged[|old(staged)|], c.payer, c.limit)
                        && staged[|old(staged)|] == StagedFrom(kind, old(c.nextKey), r.value, c.payer,
                                                               staged[|old(staged)|].tail, contextSpace)
    {
      hide Fits, ExecAll, Dropped, EmptyRecordTx, Chunked, Chunking, SomeByteStuck, Conservation.Conserved, Quiet, CompletedBy, Above;
      ghost var m := c.Now();
      cuts := [];
      var created, record, offset := CreateRecord(c, proof);
      if created.Err? {
        return Err(created.error), cuts;
      }
      ghost var m1 := c.Now();
      var filled;
      filled, cuts := FillRecord(c, record, proof, offset, m.landed);
      QuietSays(c.owner, c.script, m, m1);
      QuietTransitive(c.owner, c.script, m, m1, c.Now());
      if filled.Err? {
        if !filled.error.Invalid? {
          DroppedWithin(c.script, m.sent, m1.sent, c.sent, c.sent);
        }
        return Err(filled.error), cuts;
      }
      var context := Stage(c, kind, proof, record, filled.value, contextSpace);
      r := Ok(context);
    }

    /** Stage the verification of a record that its tail will complete. */
    method Stage(c: Cluster, kind: ProofInstruction, proof: Bytes, record: Address, tail: Option<Ix>, contextSpace: nat)
      returns (context: Address)
      requires Valid(c) && record in c.Live() && c.Live()[record].Record? && c.Live()[record].authority == c.payer
      requires CompletedBy(c.Live()[record].data, tail, record, c.payer, proof)
      requires forall s | s in staged :: RecordOf(s) != record
      modifies this`staged, this`promised, c`nextKey
      ensures Valid(c) && promised == old(promised)[context := Promise(kind, proof)]
      ensures |staged| == |old(staged)| + 1 && staged[..|old(staged)|] == old(staged)
      ensures context == old(c.nextKey) && c.nextKey == context + 1
      ensures staged[|old(staged)|] == StagedFrom(kind, record, context, c.payer, tail, contextSpace)
      ensures var s := staged[|old(staged)|]; s.context == context && s.tail == tail && RecordOf(s) == record
    {
      hide ExecAll, Conservation.Conserved, CompletedBy, Above;
      context := c.NewKey();
      var next := StagedFrom(kind, record, context, c.payer, tail, contextSpace);
      BooksWithStaged(c.Live(), c.payer, c.floor, contexts, records, staged, promised, next, Promise(kind, proof));
      staged := staged + [next];
      promised := promised[context := Promise(kind, proof)];
    }

    /**
     Close every account created so far in as few transactions as fit, contexts first. `cuts` are the
     boundaries of the batches.
     */
    method Close(c: Cluster) returns (r: Result<()>, ghost cuts: seq<nat>)
      requires c.Valid() && Closable(c.Live(), c.payer, contexts, records)
      modifies c
      ensures c.Valid() && c.floor == old(c.floor) && c.nextKey == old(c.nextKey)
      ensures c.failures == Told(r, old(c.failures)) && (r.Err? ==> SendFailed(r))
      ensures Quiet(c.owner, c.script, old(c.Now()), c.Now())
      ensures c.Live().Keys <= old(c.Live()).Keys && OnlyCleanup(old(c.sent), c.sent)
      ensures r.Err? ==> c.limit < CLOSE_SIZE || Dropped(c.script, old(c.sent), c.sent)
      ensures var items := Closing(contexts, records, c.payer);
              r.Ok? ==> && c.Live() == map[] && (|items| > 0 || cuts == [0])
                        && BatchesSent(items, old(c.landed), c.landed, cuts)
                        && Packing.Cuts(cuts, |items|)
                        && Packing.Allowed(CloseRule(items, c.payer, c.limit), cuts)
                        && Packing.Greedy(CloseRule(items, c.payer, c.limit), cuts)
    {
      hide Fits, ExecAll, CloseRule, Budgeted, Packed, BatchesSent, Conservation.Conserved, AllMayClose, Distinct, Closes, Quiet,
           Above, Settled, Rely.Undisturbed, OnlyCleanup;
      var pending := Closing(contexts, records, c.payer);
      ghost var addresses := contexts + records;
      var batch: seq<(Ix, nat)> := [];
      ghost var start: nat := 0;
      ghost var m, log := c.Now(), c.landed;
      cuts := [0];
      QuietStill(c.owner, c.script, m);
      NothingSent(c.sent);
      PackedBegins(pending, addresses, c.payer, c.limit, log, c.Live());
      for i := 0 to |pending|
        invariant c.Valid() && c.floor == old(c.floor) && c.nextKey == old(c.nextKey) && c.failures == old(c.failures)
        invariant Quiet(c.owner, c.script, m, c.Now())
        invariant c.Live().Keys <= old(c.Live()).Keys && OnlyCleanup(m.sent, c.sent)
        invariant Packed(pending, addresses, c.payer, c.limit, log, c.landed, cuts, start, c.Live())
        invariant start <= i && (i > 0 ==> start < i) && batch == pending[start..i] && (i == 0 ==> cuts == [0])
        invariant |batch| > 1 ==> Fits(Budgeted(batch), c.payer, c.limit)
      {
        batch := batch + [pending[i]];
        assert batch == pending[start..i + 1];
        if |batch| > 1 && !Fits(Budgeted(batch), c.payer, c.limit) {
          var overflow := batch[|batch| - 1];
          batch := batch[..|batch| - 1];
          assert batch == pending[start..i];
          ghost var m1, log1, live1 := c.Now(), c.landed, c.Live();
          PackedSlice(pending, contexts, records, c.payer, c.limit, log, log1, cuts, start, live1, i);
          r := SendBatch(c, batch, addresses[start..i]);
          QuietSays(c.owner, c.script, m, m1);
          QuietTransitive(c.owner, c.script, m, m1, c.Now());
          MoreCleanup(m.sent, m1.sent, c.sent);
          if r.Err? {
            DroppedWithin(c.script, m.sent, m1.sent, c.sent, c.sent);
            return;
          }
          PackedGoesOn(pending, addresses, c.payer, c.limit, log, log1, cuts, start, live1, i);
          start := i;
          cuts := cuts + [start];
          batch := [overflow];
        }
      }
      if |batch| > 0 {
        ghost var m1, log1, live1 := c.Now(), c.landed, c.Live();
        ghost var n: nat := |pending|;
        PackedSlice(pending, contexts, records, c.payer, c.limit, log, log1, cuts, start, live1, n);
        r := SendBatch(c, batch, addresses[start..n]);
        QuietSays(c.owner, c.script, m, m1);
        QuietTransitive(c.owner, c.script, m, m1, c.Now());
        MoreCleanup(m.sent, m1.sent, c.sent);
        if r.Err? {
          DroppedWithin(c.script, m.sent, m1.sent, c.sent, c.sent);
          return;
        }
        PackedGoesOn(pending, addresses, c.payer, c.limit, log, log1, cuts, start, live1, n);
        start := n;
        cuts := cuts + [start];
      }
      PackedEnds(pending, addresses, c.payer, c.limit, log, c.landed, cuts, c.Live());
      r := Ok(());
    }

    /**
     Clean up after an operation that ended in `result`: an error of the operation comes back as it
     was, whatever the closing does. Unless a closing transaction fails, nothing is left.
     */
    method CloseAfter<T>(c: Cluster, result: Result<T>) returns (r: Result<T>)
      requires c.Valid() && Closable(c.Live(), c.payer, contexts, records)
      modifies this, c
      ensures c.Valid() && c.floor == old(c.floor) && c.nextKey == old(c.nextKey)
      ensures Quiet(c.owner, c.script, old(c.Now()), c.Now())
      ensures c.Live().Keys <= old(c.Live()).Keys && (c.failures == old(c.failures) ==> c.Live() == map[])
      ensures old(c.failures) <= c.failures && OnlyCleanup(old(c.sent), c.sent)
      ensures c.failures != old(c.failures) ==> c.limit < CLOSE_SIZE || Dropped(c.script, old(c.sent), c.sent)
      ensures result.Err? || c.failures == old(c.failures) ==> r == result
      ensures result.Ok? && c.failures != old(c.failures) ==> r.Err?
    {
      staged := [];
      var closed, cuts := Close(c);
      if result.Ok? && closed.Err? {
        r := Err(closed.error);
      } else {
        r := result;
      }
    }

    /** Assemble the consuming transaction. */
    method Build(payer: Address, instructions: seq<Ix>, units: nat, withTails: bool) returns (transaction: seq<Ix>)
      ensures transaction == ConsumeTx(staged, contexts, records, payer, instructions, units, withTails)
    {
      hide CloseIxs, CloseContextIx, CloseRecordIx, StagedIxs, StagedUnits;
      var all: seq<Ix> := [];
      var total := units + OVERHEAD_UNITS;
      StagedNone(withTails);
      for i := 0 to |staged|
        invariant all == StagedIxs(staged[..i], withTails)
        invariant total == units + OVERHEAD_UNITS + StagedUnits(staged[..i], withTails)
      {
        StagedPush(staged, i, withTails);
        if withTails && staged[i].tail.Some? {
          all := all + [staged[i].tail.value];
          total := total + RECORD_WRITE_UNITS;
        }
        all := all + [staged[i].create, staged[i].verify];
        total := total + staged[i].units;
      }
      assert staged[..|staged|] == staged;
      all := all + instructions;
      var closing := contexts + StagedContexts(staged);
      ghost var head, budget := all, total;
      CloseIxsNone(payer);
      for i := 0 to |closing|
        invariant all == head + CloseIxs(closing[..i], [], payer)
        invariant total == budget + i * ComputeUnits(CloseContextState)
      {
        CloseIxsPushContext(closing, i, payer);
        all := all + [CloseContextIx(closing[i], payer)];
        total := total + ComputeUnits(CloseContextState);
      }
      assert closing[..|closing|] == closing && records[..0] == [];
      for i := 0 to |records|
        invariant all == head + CloseIxs(closing, records[..i], payer)
        invariant total == budget + |closing| * ComputeUnits(CloseContextState) + i * RECORD_CLOSE_UNITS
      {
        CloseIxsPushRecord(closing, records, i, payer);
        all := all + [CloseRecordIx(records[i], payer)];
        total := total + RECORD_CLOSE_UNITS;
      }
      assert records[..|records|] == records;
      transaction := [LimitIx(total)] + all;
    }

    /** Write the tails that were kept back, each in its own transaction. */
    method SendTails(c: Cluster) returns (r: Result<()>)
      requires Valid(c)
      modifies this, c
      ensures c.Valid() && c.floor == old(c.floor) && c.nextKey == old(c.nextKey)
      ensures c.failures == Told(r, old(c.failures)) && (r.Err? ==> SendFailed(r))
      ensures Quiet(c.owner, c.script, old(c.Now()), c.Now())
      ensures contexts == old(contexts) && records == old(records) && promised == old(promised)
      ensures c.Live().Keys == old(c.Live()).Keys && Closable(c.Live(), c.payer, contexts, records)
      ensures r.Ok? ==> Valid(c) && Stripped(old(staged), staged) && c.landed == old(c.landed) + TailTxs(old(staged))
      ensures r.Err? ==> !TailsFit(old(staged), c.payer, c.limit) || Dropped(c.script, old(c.sent), c.sent)
    {
      hide Fits, ExecAll, Dropped, Conservation.Conserved, Quiet, Books, Closable;
      ghost var m, before := c.Now(), staged;
      QuietStill(c.owner, c.script, m);
      BooksClosable(c.Live(), c.payer, c.floor, c.nextKey, contexts, records, staged, promised);
      for i := 0 to |staged|
        invariant Valid(c) && c.floor == old(c.floor) && c.nextKey == old(c.nextKey)
        invariant c.failures == old(c.failures)
        invariant Quiet(c.owner, c.script, m, c.Now())
        invariant contexts == old(contexts) && records == old(records) && promised == old(promised)
        invariant c.Live().Keys == old(c.Live()).Keys && Closable(c.Live(), c.payer, contexts, records)
        invariant |staged| == |old(staged)| && c.landed == m.landed + TailTxs(before[..i])
        invariant forall j | 0 <= j < |staged| :: staged[j] == if j < i then before[j].(tail := None) else before[j]
      {
        assert before[..i + 1][..i] == before[..i];
        if staged[i].tail.Some? {
          ghost var m1 := c.Now();
          r := SendTail(c, i);
          QuietSays(c.owner, c.script, m, m1);
          QuietTransitive(c.owner, c.script, m, m1, c.Now());
          if r.Err? {
            DroppedWithin(c.script, m.sent, m1.sent, c.sent, c.sent);
            return;
          }
        }
      }
      assert before[..|before|] == before;
      r := Ok(());
    }

    method SendTail(c: Cluster, i: nat) returns (r: Result<()>)
      requires Valid(c) && i < |staged| && staged[i].tail.Some?
      modifies this`staged, c
      ensures c.Valid() && c.floor == old(c.floor) && c.nextKey == old(c.nextKey)
      ensures c.failures == Told(r, old(c.failures)) && (r.Err? ==> SendFailed(r))
      ensures Quiet(c.owner, c.script, old(c.Now()), c.Now())
      ensures c.Live().Keys == old(c.Live()).Keys && Closable(c.Live(), c.payer, contexts, records)
      ensures staged == old(staged)[i := old(staged[i]).(tail := None)]
      ensures r.Ok? ==> Valid(c) && c.landed == old(c.landed) + [[old(staged[i].tail.value)]]
      ensures r.Err? ==> !TailFits(old(staged[i]), c.payer, c.limit) || Dropped(c.script, old(c.sent), c.sent)
    {
      hide Fits, ExecAll, Conservation.Conserved, Quiet, AllStaged, Closable, Distinct, Dropped, Rely.Undisturbed;
      var tail := staged[i].tail.value;
      ghost var before, live, m := staged, c.Live(), c.Now();
      TailIsWrite(live, c.payer, staged, promised, i);
      BooksClosable(live, c.payer, c.floor, c.nextKey, contexts, records, staged, promised);
      staged := staged[i := staged[i].(tail := None)];
      ghost var mid;
      r, mid := c.Send([tail], {});
      OneDropped(c.script, m.sent, c.sent, m.turn, [tail], mid);
      QuietTail(c.owner, c.script, m, Moment(c.turn, c.sent, m.landed, mid.ledger, mid.epoch), tail);
      if r.Err? {
        TailAccepted(c.env, mid, c.floor, live, c.payer, before, promised, i, {c.payer} + {});
      } else {
        ghost var account := BooksWithTail(live, c.payer, c.floor, c.nextKey, contexts, records, before, promised, i,
                                           c.env, mid, c.world, {c.payer} + {});
        AboveWith(mid.proofs, c.floor, tail.op.record, account);
        BooksClosable(c.Live(), c.payer, c.floor, c.nextKey, contexts, records, staged, promised);
      }
    }

    /**
     Send `instructions` in one transaction, after the staged verifications and before the closing of every
     proof account. Tails are part of it if that fits; if not, each is sent before it. On success `at` is the
     world the instructions met and `after` the one they made of it; on failure the accounts are closed in
     transactions of their own, and unless one of these fails too, nothing is left.
     */
    method Consume(c: Cluster, instructions: seq<Ix>, keys: set<Address>, units: nat)
      returns (r: Result<()>, ghost at: World, ghost after: World)
      requires Valid(c) && Uses(instructions) && forall k | k in keys :: k < c.nextKey
      modifies this, c
      ensures c.Valid() && c.floor == old(c.floor) && c.nextKey == old(c.nextKey)
      ensures r.Ok? ==> && c.Live() == map[] && c.failures == old(c.failures)
                        && Consumed(c.env, c.owner, c.payer, {c.payer} + (keys + (set a | a in StagedContexts(old(staged)))),
                                    instructions, old(contexts) + StagedContexts(old(staged)), old(promised),
                                    old(c.world.ledger), at, after, c.world.ledger)
                        && |c.landed| > 0 && at.epoch == c.world.epoch
                        && Quiet(c.owner, c.script, old(c.Now()), LastMet(c.Now(), at))
      ensures var whole := ConsumeTx(old(staged), old(contexts), old(records), c.payer, instructions, units, true);
              Fits(whole, c.payer, c.limit) ==>
                SentAtOnce(old(c.sent), c.sent, whole) && (r.Ok? ==> c.landed == old(c.landed) + [whole])
      ensures var whole := ConsumeTx(old(staged), old(contexts), old(records), c.payer, instructions, units, true);
              !Fits(whole, c.payer, c.limit) && r.Ok? ==>
                c.landed == old(c.landed) + TailTxs(old(staged))
                            + [ConsumeTx(old(staged), old(contexts), old(records), c.payer, instructions, units, false)]
      ensures r.Err? ==> r.error.Invalid? || SendFailed(r)
      ensures r.Err? && r.error.Invalid? ==>
                && !Fits(ConsumeTx(old(staged), old(contexts), old(records), c.payer, instructions, units, true), c.payer, c.limit)
                && !Fits(ConsumeTx(old(staged), old(contexts), old(records), c.payer, instructions, units, false), c.payer, c.limit)
                && old(c.landed) + TailTxs(old(staged)) <= c.landed
      ensures r.Err? ==> && Quiet(c.owner, c.script, old(c.Now()), c.Now())
                         && c.Live().Keys <= old(c.Live()).Keys && CleanUnlessMoreFailed(r, old(c.failures), c.failures, c.Live())
                         && OnlyDropped(c.limit, c.script, old(c.sent), c.sent, Told(r, old(c.failures)), c.failures)
      ensures r.Err? ==> || !Fits(ConsumeTx(old(staged), old(contexts), old(records), c.payer, instructions, units, false),
                                  c.payer, c.limit)
                         || !TailsFit(old(staged), c.payer, c.limit)
                         || Dropped(c.script, old(c.sent), c.sent) || !AllTrue(c.env, old(staged), old(promised))
                         || (Refused(c.env, c.owner, c.payer, {c.payer} + (keys + (set a | a in StagedContexts(old(staged)))),
                                    instructions, old(contexts) + StagedContexts(old(staged)), old(promised),
                                    old(c.world.ledger), at)
                             && (NoToken(instructions) || WasMet(old(c.sent), c.sent, at)))
    {
      hide Fits, ExecAll, Conservation.Conserved, Quiet, Books, ConsumeTx, Consumed, Closable, Refused, AllTrue, Uses, TailsFit,
           Dropped, WasMet, NoToken, Rely.Undisturbed, TailTxs, StagedContexts, Stripped, Above, Settled, OnlyCleanup, SentAtOnce;
      ghost var m, listed := c.Now(), contexts + StagedContexts(staged);
      at, after := c.world, c.world;
      QuietStill(c.owner, c.script, m);
      BooksListed(c.Live(), c.payer, c.floor, c.nextKey, contexts, records, staged, promised);
      var withTails := true;
      var transaction := Build(c.payer, instructions, units, true);
      if !Fits(transaction, c.payer, c.limit) {
        var tails := SendTails(c);
        if tails.Err? {
          ghost var m1 := c.Now();
          r := CloseAfter(c, Err(tails.error));
          Between(c.owner, c.script, m, m1, c.Now());
          return;
        }
        withTails := false;
        transaction := Build(c.payer, instructions, units, false);
        StrippedConsume(old(staged), staged, contexts, records, c.payer, instructions, units);
        StrippedTrue(c.env, old(staged), staged, promised);
      }
      ghost var m1 := c.Now();
      BooksListed(c.Live(), c.payer, c.floor, c.nextKey, contexts, records, staged, promised);
      if !Fits(transaction, c.payer, c.limit) {
        BooksClosable(c.Live(), c.payer, c.floor, c.nextKey, contexts, records, staged, promised);
        r := CloseAfter(c, Err(Invalid));
        Between(c.owner, c.script, m, m1, c.Now());
        return;
      }
      ghost var signers, used := {c.payer} + (keys + (set a | a in StagedContexts(staged))), contexts + StagedContexts(staged);
      r, at, after := SendUse(c, transaction, instructions, keys, units, withTails);
      if r.Err? {
        Between(c.owner, c.script, m, m1, c.Now());
        UseFailed(c.env, c.owner, c.payer, signers, instructions, used, old(promised), m.ledger, m1.ledger, at);
        WasMetWithin(m.sent, m1.sent, c.sent, c.sent, at);
      } else {
        QuietSays(c.owner, c.script, m, m1);
        QuietTransitive(c.owner, c.script, m, m1, LastMet(c.Now(), at));
        ConsumedFrom(c.env, c.owner, c.payer, signers, instructions, used, old(promised), m.ledger, m1.ledger, at, after,
                     c.world.ledger);
      }
    }

    /** Send the consuming transaction; when it fails, the staged contexts never existed and the rest is closed. */
    method SendUse(c: Cluster, transaction: seq<Ix>, instructions: seq<Ix>, keys: set<Address>, units: nat, withTails: bool)
      returns (r: Result<()>, ghost at: World, ghost after: World)
      requires Valid(c) && Uses(instructions) && forall k | k in keys :: k < c.nextKey
      requires transaction == ConsumeTx(staged, contexts, records, c.payer, instructions, units, withTails)
      requires withTails || forall s | s in staged :: s.tail.None?
      modifies this, c
      ensures c.Valid() && c.floor == old(c.floor) && c.nextKey == old(c.nextKey)
      ensures SentAtOnce(old(c.sent), c.sent, transaction)
      ensures r.Ok? ==> && c.Live() == map[] && c.failures == old(c.failures)
                        && at.epoch == c.world.epoch
                        && Consumed(c.env, c.owner, c.payer, {c.payer} + (keys + (set a | a in StagedContexts(old(staged)))),
                                    instructions, old(contexts) + StagedContexts(old(staged)), old(promised),
                                    old(c.world.ledger), at, after, c.world.ledger)
                        && c.landed == old(c.landed) + [transaction]
                        && Quiet(c.owner, c.script, old(c.Now()), LastMet(c.Now(), at))
      ensures r.Err? ==> && Quiet(c.owner, c.script, old(c.Now()), c.Now())
                         && c.Live().Keys <= old(c.Live()).Keys && CleanUnlessMoreFailed(r, old(c.failures), c.failures, c.Live())
                         && OnlyDropped(c.limit, c.script, old(c.sent), c.sent, Told(r, old(c.failures)), c.failures)
                         && SendFailed(r)
      ensures r.Err? ==> || !Fits(transaction, c.payer, c.limit) || Dropped(c.script, old(c.sent), c.sent)
                         || !AllTrue(c.env, old(staged), old(promised))
                         || (Refused(c.env, c.owner, c.payer, {c.payer} + (keys + (set a | a in StagedContexts(old(staged)))),
                                     instructions, old(contexts) + StagedContexts(old(staged)), old(promised),
                                     old(c.world.ledger), at)
                             && (NoToken(instructions) || WasMet(old(c.sent), c.sent, at)))
    {
      hide Fits, ExecAll, Conservation.Conserved, Quiet, Books, ConsumeTx, Consumed, Closable, Refused, AllTrue, Uses,
           Rely.Undisturbed, Dropped, WasMet, NoToken, OnlyCleanup, SentAtOnce;
      ghost var m, live := c.Now(), c.Live();
      BooksListed(live, c.payer, c.floor, c.nextKey, contexts, records, staged, promised);
      BooksClosable(live, c.payer, c.floor, c.nextKey, contexts, records, staged, promised);
      var signers := keys + (set a | a in StagedContexts(staged));
      ghost var mid;
      r, mid := c.Send(transaction, signers);
      at, after := mid, mid;
      if r.Err? {
        ghost var m1 := c.Now();
        if ExecAll(c.env, mid, transaction, {c.payer} + signers).None? && AllTrue(c.env, staged, promised) {
          at := UseRefused(c.env, c.owner, c.payer, c.floor, c.nextKey, {c.payer} + signers, instructions, units, withTails,
                           contexts, records, staged, promised, m.ledger, mid);
          UseWasMet(m, m1, mid, transaction, staged, contexts, records, c.payer, instructions, units, withTails, at);
        }
        OneDropped(c.script, m.sent, m1.sent, m.turn, transaction, mid);
        r := CloseAfter(c, r);
        AtOnce(m.sent, Attempt(m.turn, transaction, mid), c.sent);
        Between(c.owner, c.script, m, m1, c.Now());
        WasMetWithin(m.sent, m.sent, m1.sent, c.sent, at);
      } else {
        at, after := ConsumeLands(c.env, c.owner, c.payer, c.floor, c.nextKey, {c.payer} + signers, instructions, units,
                                  withTails, contexts, records, staged, promised, m.ledger, mid, c.world);
        NothingSent(c.sent);
        AtOnce(m.sent, Attempt(m.turn, transaction, mid), c.sent);
        assert LastMet(c.Now(), at) == Moment(c.turn, c.sent, m.landed, mid.ledger, mid.epoch) by {
          assert c.landed[..|c.landed| - 1] == m.landed;
        }
      }
    }
  }

  lemma NothingSent(sent: seq<Attempt>)
    ensures OnlyCleanup(sent, sent)
  {}

  lemma AtOnce(before: seq<Attempt>, first: Attempt, after: seq<Attempt>)
    requires OnlyCleanup(before + [first], after)
    ensures SentAtOnce(before, after, first.ixs)
  {
    assert after[..|before| + 1] == before + [first];
  }

  /** What holds of both stretches holds of the whole: the quiet, and what was lost in either of them. */
  lemma Between(owner: Address, script: nat -> Turn, m: Moment, m1: Moment, m': Moment)
    requires Quiet(owner, script, m, m1) && Quiet(owner, script, m1, m')
    ensures Quiet(owner, script, m, m') && m.sent <= m1.sent <= m'.sent && m.landed <= m1.landed <= m'.landed
    ensures Dropped(script, m.sent, m1.sent) || Dropped(script, m1.sent, m'.sent) ==> Dropped(script, m.sent, m'.sent)
    ensures Rely.Undisturbed(owner, m.ledger, m1.ledger)
  {
    hide Quiet, Dropped;
    QuietTransitive(owner, script, m, m1, m');
    QuietSays(owner, script, m, m1);
    QuietSays(owner, script, m1, m');
    DroppedWithin(script, m.sent, m.sent, m1.sent, m'.sent);
    DroppedWithin(script, m.sent, m1.sent, m'.sent, m'.sent);
  }

  /** The use met the world its transaction did. */
  lemma UseWasMet(m: Moment, m': Moment, mid: World, transaction: seq<Ix>, staged: seq<Staged>, contexts: seq<Address>,
                  records: seq<Address>, payer: Address, instructions: seq<Ix>, units: nat, withTails: bool, at: World)
    requires m'.sent == m.sent + [Attempt(m.turn, transaction, mid)] && at.ledger == mid.ledger && at.epoch == mid.epoch
    requires transaction == ConsumeTx(staged, contexts, records, payer, instructions, units, withTails)
    ensures NoToken(instructions) || WasMet(m.sent, m'.sent, at)
  {
    if !NoToken(instructions) {
      var ix :| ix in instructions && ix.op.Token?;
      assert ix in transaction;
      assert m'.sent[|m.sent|].ixs == transaction;
    }
  }

  /** A use that failed from `l1` failed in the same way seen from the start of the operation. */
  lemma UseFailed(env: Env, owner: Address, payer: Address, signers: set<Address>, instructions: seq<Ix>,
                  contexts: seq<Address>, promised: map<Address, Promise>, l: Ledger.Ledger, l1: Ledger.Ledger, at: World)
    requires Rely.Undisturbed(owner, l, l1)
    ensures Refused(env, owner, payer, signers, instructions, contexts, promised, l1, at) ==>
              Refused(env, owner, payer, signers, instructions, contexts, promised, l, at)
  {
    hide ExecAll, Conservation.Conserved;
  }

  lemma StrippedTrue(env: Env, staged: seq<Staged>, staged': seq<Staged>, promised: map<Address, Promise>)
    requires Stripped(staged, staged')
    ensures AllTrue(env, staged', promised) <==> AllTrue(env, staged, promised)
  {
    hide Verifies;
    forall i | 0 <= i < |staged| ensures staged[i] in staged && staged'[i] in staged' && staged[i].context == staged'[i].context {}
  }

  lemma ConsumedFrom(env: Env, owner: Address, payer: Address, signers: set<Address>, instructions: seq<Ix>,
                     contexts: seq<Address>, promised: map<Address, Promise>, l: Ledger.Ledger, l1: Ledger.Ledger, at: World,
                     after: World, l': Ledger.Ledger)
    requires Rely.Undisturbed(owner, l, l1)
    requires Consumed(env, owner, payer, signers, instructions, contexts, promised, l1, at, after, l')
    ensures Consumed(env, owner, payer, signers, instructions, contexts, promised, l, at, after, l')
  {
    hide ExecAll, Conservation.Conserved;
  }

  /** What the consuming transaction did when it landed: the use, once, and nothing left behind. */
  lemma ConsumeLands(env: Env, owner: Address, payer: Address, floor: Address, nextKey: Address, signers: set<Address>,
                     instructions: seq<Ix>, units: nat, withTails: bool, contexts: seq<Address>, records: seq<Address>,
                     staged: seq<Staged>, promised: map<Address, Promise>, l: Ledger.Ledger, mid: World, w': World)
    returns (at: World, after: World)
    requires Books(Above(mid.proofs, floor), payer, floor, nextKey, contexts, records, staged, promised) && Uses(instructions)
    requires withTails || forall s | s in staged :: s.tail.None?
    requires ExecAll(env, mid, ConsumeTx(staged, contexts, records, payer, instructions, units, withTails), signers) == Some(w')
    requires Rely.Undisturbed(owner, l, mid.ledger) && Conservation.Conserved(mid.ledger)
    ensures Consumed(env, owner, payer, signers, instructions, contexts + StagedContexts(staged), promised, l, at, after, w'.ledger)
    ensures Above(w'.proofs, floor) == map[] && Settled(w'.proofs, payer, floor)
    ensures at.ledger == mid.ledger && at.epoch == mid.epoch
  {
    hide ExecAll, ConsumeTx, StagedOk;
    var live := Above(mid.proofs, floor);
    assert AllStaged(mid.proofs, payer, staged, promised) by {
      StagedAbove(mid.proofs, floor, payer, staged, promised);
    }
    at, after := ConsumeEffect(env, mid, staged, contexts, records, payer, instructions, units, withTails, promised,
                               signers, w');
    ContextsHold(mid.proofs, at.proofs, floor, payer, nextKey, contexts, records, staged, promised);
    NothingLeft(mid.proofs, at.proofs, w'.proofs, floor, payer, nextKey, contexts, records, staged, promised);
  }

  lemma StagedAbove(m: ProofMap, floor: Address, payer: Address, staged: seq<Staged>, promised: map<Address, Promise>)
    requires AllStaged(Above(m, floor), payer, staged, promised)
    ensures AllStaged(m, payer, staged, promised)
  {
    forall s | s in staged ensures s.context in promised && StagedOk(m, payer, s, promised[s.context]) {}
  }

  /** At the point of use every context, verified early or just now, holds its proof. */
  lemma ContextsHold(m: ProofMap, m': ProofMap, floor: Address, payer: Address, nextKey: Address, contexts: seq<Address>,
                     records: seq<Address>, staged: seq<Staged>, promised: map<Address, Promise>)
    requires Books(Above(m, floor), payer, floor, nextKey, contexts, records, staged, promised)
    requires Verified(m, m', payer, staged, promised)
    ensures forall a | a in contexts + StagedContexts(staged) ::
      a in promised && a in m' && m'[a] == Context(payer, promised[a].kind, promised[a].proof)
  {
    hide StagedOk;
    forall a | a in contexts
      ensures a in promised && a in m' && m'[a] == Context(payer, promised[a].kind, promised[a].proof)
    {
      ContextKept(m, m', floor, payer, contexts, records, staged, promised, a);
    }
    forall i | 0 <= i < |staged|
      ensures var a := StagedContexts(staged)[i];
              a in promised && a in m' && m'[a] == Context(payer, promised[a].kind, promised[a].proof)
    {
      assert staged[i] in staged;
    }
  }

  lemma ContextKept(m: ProofMap, m': ProofMap, floor: Address, payer: Address, contexts: seq<Address>, records: seq<Address>,
                    staged: seq<Staged>, promised: map<Address, Promise>, a: Address)
    requires Accounted(Above(m, floor), payer, contexts, records, staged, promised) && a in contexts
    requires Verified(m, m', payer, staged, promised)
    ensures a in promised && a in m' && m'[a] == Context(payer, promised[a].kind, promised[a].proof)
  {
    hide StagedOk;
    assert a in contexts + records;
    assert a in Above(m, floor) && Above(m, floor)[a] == m[a];
  }

  lemma NothingLeft(m: ProofMap, m': ProofMap, m'': ProofMap, floor: Address, payer: Address, nextKey: Address,
                    contexts: seq<Address>, records: seq<Address>, staged: seq<Staged>, promised: map<Address, Promise>)
    requires Books(Above(m, floor), payer, floor, nextKey, contexts, records, staged, promised)
    requires Verified(m, m', payer, staged, promised)
    requires m'' == m' - (set a | a in contexts + StagedContexts(staged) + records)
    ensures Above(m'', floor) == map[] && Settled(m'', payer, floor)
  {
    hide StagedOk;
    forall a | a in m' && a >= floor ensures a in contexts + StagedContexts(staged) + records {
      if a in m {
        assert a in Above(m, floor);
        assert a in contexts + records;
      } else {
        var s :| s in staged && s.context == a;
        var i :| 0 <= i < |staged| && staged[i] == s;
        assert StagedContexts(staged)[i] == a;
      }
    }
  }

  /**
   The use of the proofs happened once: in a world the owner's accounts reached undisturbed and where every
   context of the operation held its proof, the instructions ran, and the ledger is what they made of it.
   */
  ghost predicate Consumed(env: Env, owner: Address, payer: Address, signers: set<Address>, instructions: seq<Ix>,
                           contexts: seq<Address>, promised: map<Address, Promise>, l: Ledger.Ledger, at: World, after: World,
                           l': Ledger.Ledger) {
    && Met(owner, payer, contexts, promised, l, at)
    && ExecAll(env, at, instructions, signers) == Some(after)
    && l' == after.ledger
  }

  /** What the instructions meet: the owner's accounts undisturbed, and every context of the operation holding its proof. */
  ghost predicate Met(owner: Address, payer: Address, contexts: seq<Address>, promised: map<Address, Promise>, l: Ledger.Ledger,
                      at: World) {
    && Rely.Undisturbed(owner, l, at.ledger) && Conservation.Conserved(at.ledger)
    && forall a | a in contexts :: a in promised && a in at.proofs
         && at.proofs[a] == Context(payer, promised[a].kind, promised[a].proof)
  }

  /** The use itself was refused: meeting all its proofs, the instructions did not run. */
  ghost predicate Refused(env: Env, owner: Address, payer: Address, signers: set<Address>, instructions: seq<Ix>,
                          contexts: seq<Address>, promised: map<Address, Promise>, l: Ledger.Ledger, at: World) {
    Met(owner, payer, contexts, promised, l, at) && ExecAll(env, at, instructions, signers).None?
  }

  lemma UseRefused(env: Env, owner: Address, payer: Address, floor: Address, nextKey: Address, signers: set<Address>,
                   instructions: seq<Ix>, units: nat, withTails: bool, contexts: seq<Address>, records: seq<Address>,
                   staged: seq<Staged>, promised: map<Address, Promise>, l: Ledger.Ledger, mid: World)
    returns (at: World)
    requires Books(Above(mid.proofs, floor), payer, floor, nextKey, contexts, records, staged, promised) && Uses(instructions)
    requires withTails || forall s | s in staged :: s.tail.None?
    requires AllTrue(env, staged, promised) && payer in signers && forall a | a in StagedContexts(staged) :: a in signers
    requires ExecAll(env, mid, ConsumeTx(staged, contexts, records, payer, instructions, units, withTails), signers).None?
    requires Rely.Undisturbed(owner, l, mid.ledger) && Conservation.Conserved(mid.ledger)
    ensures Refused(env, owner, payer, signers, instructions, contexts + StagedContexts(staged), promised, l, at)
    ensures at.ledger == mid.ledger && at.epoch == mid.epoch
  {
    hide ExecAll, ConsumeTx, StagedOk, AllTrue, Uses, Rely.Undisturbed, Conservation.Conserved;
    StagedAbove(mid.proofs, floor, payer, staged, promised);
    AllClosable(mid.proofs, floor, payer, nextKey, contexts, records, staged, promised);
    at := ConsumeAccepted(env, mid, staged, contexts, records, payer, instructions, units, withTails, promised, signers);
    ContextsHold(mid.proofs, at.proofs, floor, payer, nextKey, contexts, records, staged, promised);
    forall s | s in staged ensures s.context in signers {
      var i :| 0 <= i < |staged| && staged[i] == s;
      assert StagedContexts(staged)[i] == s.context;
    }
  }

  /** Everything the consuming transaction closes is there by then, once. */
  lemma AllClosable(m: ProofMap, floor: Address, payer: Address, nextKey: Address, contexts: seq<Address>, records: seq<Address>,
                    staged: seq<Staged>, promised: map<Address, Promise>)
    requires Books(Above(m, floor), payer, floor, nextKey, contexts, records, staged, promised)
    ensures MayAllClose(m, contexts, records, payer) && Distinct(contexts + StagedContexts(staged) + records)
    ensures forall s | s in staged :: s.context !in m
  {
    hide StagedOk;
    var live, all := Above(m, floor), contexts + StagedContexts(staged) + records;
    assert forall a | a in contexts + records :: a in live && live[a] == m[a];
    forall s | s in staged ensures s.context !in m {
      NewKeyFree(m, floor, live, s.context);
    }
    forall i, j | 0 <= i < j < |all| ensures all[i] != all[j] {
      StillDistinct(contexts, records, staged, i, j);
    }
  }

  lemma StillDistinct(contexts: seq<Address>, records: seq<Address>, staged: seq<Staged>, i: nat, j: nat)
    requires Distinct(contexts + records) && i < j < |contexts| + |staged| + |records|
    requires forall s | s in staged :: s.context !in contexts + records
    requires forall i, j | 0 <= i < j < |staged| :: staged[i].context != staged[j].context
    ensures (contexts + StagedContexts(staged) + records)[i] != (contexts + StagedContexts(staged) + records)[j]
  {
    var all, both, n := contexts + StagedContexts(staged) + records, contexts + records, |contexts|;
    var i', j' := if i < n then i else i - |staged|, if j < n then j else j - |staged|;
    var inI, inJ := n <= i < n + |staged|, n <= j < n + |staged|;
    assert if inI then all[i] == staged[i - n].context && staged[i - n] in staged else all[i] == both[i'] && both[i'] in both;
    assert if inJ then all[j] == staged[j - n].context && staged[j - n] in staged else all[j] == both[j'] && both[j'] in both;
  }

  lemma BooksListed(live: ProofMap, payer: Address, floor: Address, nextKey: Address, contexts: seq<Address>,
                    records: seq<Address>, staged: seq<Staged>, promised: map<Address, Promise>)
    requires Books(live, payer, floor, nextKey, contexts, records, staged, promised)
    ensures live.Keys == (set a | a in contexts + records)
    ensures forall a | a in StagedContexts(staged) :: a < nextKey
  {}

  lemma TailIsWrite(live: ProofMap, payer: Address, staged: seq<Staged>, promised: map<Address, Promise>, i: nat)
    requires AllStaged(live, payer, staged, promised) && i < |staged| && staged[i].tail.Some?
    ensures staged[i].tail.value.op.Write?
  {
    assert staged[i] in staged;
  }

  lemma QuietTail(owner: Address, script: nat -> Turn, m: Moment, m': Moment, tail: Ix)
    requires tail.op.Write? && Quiet(owner, script, m, m')
    ensures Quiet(owner, script, m, m'.(landed := m'.landed + [[tail]]))
  {
    QuietLands(owner, script, m, m', [tail]);
  }

  /** Writing the tail of the i-th staged proof completes its record. */
  lemma BooksWithTail(live: ProofMap, payer: Address, floor: Address, nextKey: Address, contexts: seq<Address>,
                      records: seq<Address>, staged: seq<Staged>, promised: map<Address, Promise>, i: nat,
                      env: Env, mid: World, after: World, signers: set<Address>) returns (account: ProofAccount)
    requires Books(live, payer, floor, nextKey, contexts, records, staged, promised) && live == Above(mid.proofs, floor)
    requires i < |staged| && staged[i].tail.Some?
    requires ExecAll(env, mid, [staged[i].tail.value], signers) == Some(after)
    ensures var ix := staged[i].tail.value;
            && ix.op.Write? && ix.op.record >= floor && ix.op.record in live && account.Record?
            && account.authority == payer
            && after.proofs == mid.proofs[ix.op.record := account] && after.ledger == mid.ledger
            && Books(live[ix.op.record := account], payer, floor, nextKey, contexts, records,
                     staged[i := staged[i].(tail := None)], promised)
  {
    hide ExecAll;
    var s := staged[i];
    var ix := s.tail.value;
    assert s in staged;
    WriteEffect(env, mid, ix, signers);
    account := Record(payer, promised[s.context].proof);
    var staged', live' := staged[i := s.(tail := None)], live[ix.op.record := account];
    forall t | t in staged' ensures t.context in promised && StagedOk(live', payer, t, promised[t.context]) {
      var j :| 0 <= j < |staged'| && staged'[j] == t;
      assert staged[j] in staged;
    }
  }

  lemma StagedNone(withTails: bool)
    ensures StagedIxs([], withTails) == [] && StagedUnits([], withTails) == 0
  {}

  lemma StagedPush(staged: seq<Staged>, i: nat, withTails: bool)
    requires i < |staged|
    ensures StagedIxs(staged[..i + 1], withTails) == StagedIxs(staged[..i], withTails) + StagedPart(staged[i], withTails)
    ensures StagedUnits(staged[..i + 1], withTails)
         == StagedUnits(staged[..i], withTails)
            + (if withTails && staged[i].tail.Some? then RECORD_WRITE_UNITS else 0) + staged[i].units
  {
    assert staged[..i + 1][..i] == staged[..i];
  }

  lemma CloseIxsNone(payer: Address)
    ensures CloseIxs([], [], payer) == []
  {}

  lemma CloseIxsPushContext(contexts: seq<Address>, i: nat, payer: Address)
    requires i < |contexts|
    ensures CloseIxs(contexts[..i + 1], [], payer)
         == CloseIxs(contexts[..i], [], payer) + [CloseContextIx(contexts[i], payer)]
  {}

  lemma CloseIxsPushRecord(contexts: seq<Address>, records: seq<Address>, i: nat, payer: Address)
    requires i < |records|
    ensures CloseIxs(contexts, records[..i + 1], payer)
         == CloseIxs(contexts, records[..i], payer) + [CloseRecordIx(records[i], payer)]
  {}

  /** Greedy packing under way: the batches before `start` were sent, and only accounts after it are left. */
  ghost predicate Packed(items: seq<(Ix, nat)>, addresses: seq<Address>, payer: Address, limit: nat, log: seq<seq<Ix>>,
                         log': seq<seq<Ix>>, cuts: seq<nat>, start: nat, live: ProofMap) {
    && Packing.Partial(CloseRule(items, payer, limit), cuts, |items|) && cuts[|cuts| - 1] == start
    && BatchesSent(items, log, log', cuts)
    && start <= |addresses| == |items| && Distinct(addresses) && Closes(Firsts(items), addresses, payer)
    && (forall a | a in live :: a in addresses[start..])
    && AllMayClose(live, Firsts(items[start..]), payer)
  }

  /** The batch to send next closes accounts that are there, and fits if single ones do. */
  lemma PackedSlice(items: seq<(Ix, nat)>, contexts: seq<Address>, records: seq<Address>, payer: Address, limit: nat,
                    log: seq<seq<Ix>>, log': seq<seq<Ix>>, cuts: seq<nat>, start: nat, live: ProofMap, next: nat)
    requires items == Closing(contexts, records, payer)
    requires Packed(items, contexts + records, payer, limit, log, log', cuts, start, live) && start <= next <= |items|
    ensures Closes(Firsts(items[start..next]), (contexts + records)[start..next], payer)
    ensures Distinct((contexts + records)[start..next]) && AllMayClose(live, Firsts(items[start..next]), payer)
    ensures next == start + 1 && CLOSE_SIZE <= limit ==> Fits(Budgeted(items[start..next]), payer, limit)
  {
    hide Fits, Budgeted, CloseRule, BatchesSent, Packing.Partial, AllMayClose;
    ClosesSlice(contexts, records, payer, start, next);
    MayCloseSlice(live, items, payer, start, next);
    if next == start + 1 && CLOSE_SIZE <= limit {
      assert items[start..next] == [items[start]];
      OneCloseFits(items[start], (contexts + records)[start], payer, limit);
    }
  }

  lemma MayCloseSlice(live: ProofMap, items: seq<(Ix, nat)>, payer: Address, start: nat, next: nat)
    requires start <= next <= |items| && AllMayClose(live, Firsts(items[start..]), payer)
    ensures AllMayClose(live, Firsts(items[start..next]), payer)
  {
    var part, rest := Firsts(items[start..next]), Firsts(items[start..]);
    assert forall i | 0 <= i < |part| :: part[i] == rest[i];
  }

  lemma PackedBegins(items: seq<(Ix, nat)>, addresses: seq<Address>, payer: Address, limit: nat, log: seq<seq<Ix>>,
                     live: ProofMap)
    requires |addresses| == |items| && live.Keys <= (set a | a in addresses)
    requires Distinct(addresses) && Closes(Firsts(items), addresses, payer) && AllMayClose(live, Firsts(items), payer)
    ensures Packed(items, addresses, payer, limit, log, log, [0], 0, live)
  {
    hide CloseRule;
  }

  lemma PackedGoesOn(items: seq<(Ix, nat)>, addresses: seq<Address>, payer: Address, limit: nat, log: seq<seq<Ix>>,
                     log': seq<seq<Ix>>, cuts: seq<nat>, start: nat, live: ProofMap, next: nat)
    requires Packed(items, addresses, payer, limit, log, log', cuts, start, live)
    requires start < next <= |items| && Fits(Budgeted(items[start..next]), payer, limit)
    requires next < |items| ==> !Fits(Budgeted(items[start..next + 1]), payer, limit)
    ensures Packed(items, addresses, payer, limit, log, log' + [Budgeted(items[start..next])], cuts + [next], next,
                   live - (set a | a in addresses[start..next]))
  {
    hide Fits, Budgeted;
    StillMayClose(live, items, addresses, payer, start, next);
    CloseRuleAt(items, payer, limit, |cuts| - 1, start, next);
    hide CloseRule;
    Packing.PartialExtends(CloseRule(items, payer, limit), cuts, |items|, next);
    StillToClose(live, addresses, start, next);
  }

  lemma PackedEnds(items: seq<(Ix, nat)>, addresses: seq<Address>, payer: Address, limit: nat, log: seq<seq<Ix>>,
                   log': seq<seq<Ix>>, cuts: seq<nat>, live: ProofMap)
    requires Packed(items, addresses, payer, limit, log, log', cuts, |items|, live)
    ensures live == map[] && BatchesSent(items, log, log', cuts)
    ensures Packing.Cuts(cuts, |items|) && Packing.Allowed(CloseRule(items, payer, limit), cuts)
    ensures Packing.Greedy(CloseRule(items, payer, limit), cuts)
  {
    hide CloseRule;
    Packing.PartialComplete(CloseRule(items, payer, limit), cuts, |items|);
    assert live.Keys == {};
  }

  lemma ClosesSlice(contexts: seq<Address>, records: seq<Address>, payer: Address, lo: nat, hi: nat)
    requires lo <= hi <= |contexts| + |records|
    ensures Closes(Firsts(Closing(contexts, records, payer)[lo..hi]), (contexts + records)[lo..hi], payer)
  {
    var items := Closing(contexts, records, payer);
    forall i | 0 <= i < hi - lo ensures Firsts(items[lo..hi])[i] == Firsts(items)[lo + i] {}
  }

  /** The limit of every batch covers it. */
  lemma BatchBudget(contexts: seq<Address>, records: seq<Address>, payer: Address, lo: nat, hi: nat)
    requires lo <= hi <= |contexts| + |records|
    ensures var tx := Budgeted(Closing(contexts, records, payer)[lo..hi]);
            tx[0].op.SetLimit? && tx[0].op.units == Costs(tx[1..]) + OVERHEAD_UNITS
  {
    var items := Closing(contexts, records, payer);
    UnitsAreCosts(items[lo..hi]);
    assert Budgeted(items[lo..hi])[1..] == Firsts(items[lo..hi]);
  }

  /** Send one batch of closing instructions. */
  method SendBatch(c: Cluster, batch: seq<(Ix, nat)>, ghost closing: seq<Address>) returns (r: Result<()>)
    requires c.Valid() && Closes(Firsts(batch), closing, c.payer)
    requires Distinct(closing) && AllMayClose(c.Live(), Firsts(batch), c.payer)
    modifies c
    ensures c.Valid() && c.floor == old(c.floor) && c.nextKey == old(c.nextKey)
    ensures c.failures == Told(r, old(c.failures)) && (r.Err? ==> SendFailed(r))
    ensures Quiet(c.owner, c.script, old(c.Now()), c.Now())
    ensures r.Ok? ==> && Fits(Budgeted(batch), c.payer, c.limit)
                      && c.landed == old(c.landed) + [Budgeted(batch)]
                      && c.Live() == old(c.Live()) - (set a | a in closing)
    ensures r.Err? ==> c.landed == old(c.landed) && c.Live() == old(c.Live())
    ensures r.Err? ==> !Fits(Budgeted(batch), c.payer, c.limit) || Dropped(c.script, old(c.sent), c.sent)
    ensures OnlyCleanup(old(c.sent), c.sent)
  {
    BatchCleansUp(batch, closing, c.payer);
    hide Fits, ExecAll, Budgeted, Conservation.Conserved, AllMayClose, Quiet, Dropped, Rely.Undisturbed;
    ghost var m, live := c.Now(), c.Live();
    ghost var mid;
    r, mid := c.Send(Budgeted(batch), {});
    OneDropped(c.script, m.sent, c.sent, m.turn, Budgeted(batch), mid);
    BatchAccepted(c.env, mid, c.floor, live, batch, closing, c.payer, {c.payer} + {});
    if r.Ok? {
      BatchEffect(c.env, mid, batch, closing, c.payer, {c.payer} + {});
      AboveWithout(mid.proofs, c.floor, set a | a in closing);
      BatchNoToken(batch, closing, c.payer);
      QuietLands(c.owner, c.script, m, Moment(c.turn, c.sent, m.landed, mid.ledger, mid.epoch), Budgeted(batch));
    }
  }

  lemma BatchEffect(env: Env, w: World, batch: seq<(Ix, nat)>, closing: seq<Address>, payer: Address, signers: set<Address>)
    requires Closes(Firsts(batch), closing, payer)
    ensures var r := ExecAll(env, w, Budgeted(batch), signers);
            r.Some? ==> r.value.ledger == w.ledger && r.value.proofs == w.proofs - (set a | a in closing)
  {
    assert Budgeted(batch)[1..] == Firsts(batch);
    ClosingRemoves(env, w, Firsts(batch), closing, payer, signers);
  }

  lemma BatchAccepted(env: Env, w: World, floor: Address, live: ProofMap, batch: seq<(Ix, nat)>, closing: seq<Address>,
                      payer: Address, signers: set<Address>)
    requires Closes(Firsts(batch), closing, payer) && Distinct(closing) && AllMayClose(live, Firsts(batch), payer)
    requires live == Above(w.proofs, floor) && payer in signers
    ensures ExecAll(env, w, Budgeted(batch), signers).Some?
  {
    assert Budgeted(batch)[1..] == Firsts(batch);
    forall i | 0 <= i < |batch| ensures MayClose(w.proofs, Firsts(batch)[i].op, payer) {
      assert MayClose(live, Firsts(batch)[i].op, payer);
    }
    ClosingAccepted(env, w, Firsts(batch), closing, payer, signers);
  }

  lemma BatchCleansUp(batch: seq<(Ix, nat)>, closing: seq<Address>, payer: Address)
    requires Closes(Firsts(batch), closing, payer)
    ensures Cleanup(Budgeted(batch))
  {
    forall ix | ix in Budgeted(batch) ensures ix.op.SetLimit? || ix.op.CloseContext? || ix.op.CloseRecord? {
      if ix in Firsts(batch) {
        var i :| 0 <= i < |batch| && Firsts(batch)[i] == ix;
      }
    }
  }

  lemma BatchNoToken(batch: seq<(Ix, nat)>, closing: seq<Address>, payer: Address)
    requires Closes(Firsts(batch), closing, payer)
    ensures NoToken(Budgeted(batch))
  {
    BatchCleansUp(batch, closing, payer);
  }

  lemma AboveWithout(m: ProofMap, floor: Address, gone: set<Address>)
    ensures Above(m - gone, floor) == Above(m, floor) - gone
  {}

  lemma StillToClose(live: ProofMap, addresses: seq<Address>, start: nat, i: nat)
    requires start <= i <= |addresses| && forall a | a in live :: a in addresses[start..]
    ensures forall a | a in live - (set b | b in addresses[start..i]) :: a in addresses[i..]
  {
    assert addresses[start..] == addresses[start..i] + addresses[i..];
  }

  lemma StillMayClose(live: ProofMap, items: seq<(Ix, nat)>, addresses: seq<Address>, payer: Address, start: nat, i: nat)
    requires start <= i <= |items| == |addresses| && Distinct(addresses) && Closes(Firsts(items), addresses, payer)
    requires AllMayClose(live, Firsts(items[start..]), payer)
    ensures AllMayClose(live - (set a | a in addresses[start..i]), Firsts(items[i..]), payer)
  {
    var left, before := Firsts(items[i..]), Firsts(items[start..]);
    forall k | 0 <= k < |left| ensures MayClose(live - (set a | a in addresses[start..i]), left[k].op, payer) {
      assert left[k] == before[i - start + k] == Firsts(items)[i + k];
      assert MayClose(live, before[i - start + k].op, payer);
      assert addresses[i + k] !in addresses[start..i];
    }
  }

  /** The transaction of a single write at `offset`, and that of the first chunk. */
  function WriteBuild(record: Address, payer: Address, offset: nat): Bytes -> seq<Ix> {
    chunk => [WriteIx(record, payer, offset, chunk)]
  }

  function FirstBuild(create: Ix, initialize: Ix, record: Address, payer: Address): Bytes -> seq<Ix> {
    chunk => [create, initialize, WriteIx(record, payer, 0, chunk)]
  }

  /** How many of the bytes from `offset` on fit in a single write; 0 when not even one does. */
  method LargestWrite(record: Address, payer: Address, limit: nat, proof: Bytes, offset: nat) returns (len: nat)
    requires offset < |proof|
    ensures offset + len <= |proof|
    ensures len > 0 ==> WriteFits(record, payer, limit, proof, offset, offset + len)
    ensures offset + len < |proof| ==> !WriteFits(record, payer, limit, proof, offset, offset + len + 1)
  {
    hide Fits, WriteFits, WriteBuild, Growing;
    var rest := proof[offset..];
    WritesGrow(record, payer, offset, rest);
    len := LargestChunk(payer, limit, rest, WriteBuild(record, payer, offset));
    RestFits(record, payer, limit, proof, offset, rest, len);
    if len < |rest| {
      RestFits(record, payer, limit, proof, offset, rest, len + 1);
    }
  }

  lemma RestFits(record: Address, payer: Address, limit: nat, proof: Bytes, offset: nat, rest: Bytes, len: nat)
    requires offset <= |proof| && rest == proof[offset..] && len <= |rest|
    ensures Fits(WriteBuild(record, payer, offset)(rest[..len]), payer, limit)
         == WriteFits(record, payer, limit, proof, offset, offset + len)
  {
    hide Fits;
    assert rest[..len] == proof[offset..offset + len];
  }

  /** How many of the first bytes fit beside the creation of the record. */
  method LargestFirst(create: Ix, initialize: Ix, record: Address, payer: Address, limit: nat, proof: Bytes)
    returns (offset: nat)
    ensures offset <= |proof|
    ensures var ok := ChunkRule(create, initialize, record, payer, limit, proof);
            && ok(0, 0, offset) == Fits([create, initialize, WriteIx(record, payer, 0, proof[..offset])], payer, limit)
            && (offset < |proof| ==> !ok(0, 0, offset + 1))
    ensures offset > 0 ==> Fits([create, initialize, WriteIx(record, payer, 0, proof[..offset])], payer, limit)
  {
    hide Fits, ChunkRule, FirstBuild, Growing;
    FirstChunksGrow(create, initialize, record, payer, proof);
    offset := LargestChunk(payer, limit, proof, FirstBuild(create, initialize, record, payer));
    FirstFits(create, initialize, record, payer, limit, proof, offset);
    if offset < |proof| {
      FirstFits(create, initialize, record, payer, limit, proof, offset + 1);
    }
  }

  lemma FirstFits(create: Ix, initialize: Ix, record: Address, payer: Address, limit: nat, proof: Bytes, offset: nat)
    requires offset <= |proof|
    ensures var ok := ChunkRule(create, initialize, record, payer, limit, proof);
            && Fits(FirstBuild(create, initialize, record, payer)(proof[..offset]), payer, limit) == ok(0, 0, offset)
            && Fits([create, initialize, WriteIx(record, payer, 0, proof[..offset])], payer, limit) == ok(0, 0, offset)
  {
    hide Fits;
    assert proof[0..offset] == proof[..offset];
  }

  /** Some single byte cannot be written in any transaction. */
  ghost predicate SomeByteStuck(record: Address, payer: Address, limit: nat, proof: Bytes) {
    exists lo, hi | 0 <= lo && hi == lo + 1 && hi <= |proof| :: !WriteFits(record, payer, limit, proof, lo, hi)
  }

  lemma BooksWithStaged(live: ProofMap, payer: Address, floor: Address, contexts: seq<Address>, records: seq<Address>,
                        staged: seq<Staged>, promised: map<Address, Promise>, s: Staged, p: Promise)
    requires Books(live, payer, floor, s.context, contexts, records, staged, promised) && floor <= s.context
    requires StagedOk(live, payer, s, p) && forall t | t in staged :: RecordOf(t) != RecordOf(s)
    ensures Books(live, payer, floor, s.context + 1, contexts, records, staged + [s], promised[s.context := p])
  {
    assert forall t | t in staged + [s] :: t in staged || t == s;
  }

  lemma BooksWithWrite(live: ProofMap, payer: Address, floor: Address, nextKey: Address, contexts: seq<Address>,
                       records: seq<Address>, staged: seq<Staged>, promised: map<Address, Promise>, record: Address,
                       account: ProofAccount)
    requires Books(live, payer, floor, nextKey, contexts, records, staged, promised)
    requires record in records && account.Record? && account.authority == payer && forall s | s in staged :: RecordOf(s) != record
    ensures Books(live[record := account], payer, floor, nextKey, contexts, records, staged, promised)
  {
    assert record in contexts + records && live[record].Record?;
  }

  lemma WritesGrow(record: Address, payer: Address, offset: nat, rest: Bytes)
    ensures Growing(payer, rest, WriteBuild(record, payer, offset))
  {
    var build := WriteBuild(record, payer, offset);
    forall i, j | 0 <= i <= j <= |rest|
      ensures TransactionSize(build(rest[..i]), payer) <= TransactionSize(build(rest[..j]), payer)
    {
      DataLenMonotone([], WriteIx(record, payer, offset, rest[..i]), WriteIx(record, payer, offset, rest[..j]), payer);
      assert [] + build(rest[..i]) == build(rest[..i]) && [] + build(rest[..j]) == build(rest[..j]);
    }
  }

  lemma FirstChunksGrow(create: Ix, initialize: Ix, record: Address, payer: Address, proof: Bytes)
    ensures Growing(payer, proof, FirstBuild(create, initialize, record, payer))
  {
    var build := FirstBuild(create, initialize, record, payer);
    forall i, j | 0 <= i <= j <= |proof|
      ensures TransactionSize(build(proof[..i]), payer) <= TransactionSize(build(proof[..j]), payer)
    {
      ChunkSizeGrows(create, initialize, record, payer, 0, 0, 0, proof[..i], proof[..j]);
    }
  }
}
