/** How many transactions a confidential transfer and a withdraw take. */
module Counts {
  import opened Types
  import opened Ledger
  import opened Packet
  import opened Chain
  import opened Delivery
  import opened Proofs
  import opened Sizes
  import opened Wire

  // The keys a transfer generates run from `key`: four contexts, the record of the range proof, and its context.

  function KeysFrom(key: Address, n: nat): seq<Address> {
    seq(n, i => key + i)
  }

  /** The keys of a transfer are all different, and there before it generates its own. */
  predicate KeysApart(roles: Roles, payer: Address, owner: Address, key: Address, source: Address, destination: Address) {
    var keys := [payer, owner, source, destination, roles.mint, roles.tokenProgram, SYSTEM_PROGRAM, BUDGET_PROGRAM, ZK_PROGRAM,
                 RECORD_PROGRAM];
    Distinct(keys) && forall a | a in keys :: a < key
  }

  /** Four verifications, the record, its tail, and the transfer; six if keys coincide and the tail rides along. */
  predicate SixOrSeven(n: int, roles: Roles, payer: Address, owner: Address, key: Address, source: Address, destination: Address) {
    (n == 6 || n == 7) && (KeysApart(roles, payer, owner, key, source, destination) ==> n == 7)
  }

  lemma ApartHere(roles: Roles, payer: Address, owner: Address, key: Address, source: Address, destination: Address)
    requires KeysApart(roles, payer, owner, key, source, destination)
    ensures Distinct([payer, key + 4, SYSTEM_PROGRAM, RECORD_PROGRAM])
  {
    var keys := [payer, owner, source, destination, roles.mint, roles.tokenProgram, SYSTEM_PROGRAM, BUDGET_PROGRAM, ZK_PROGRAM,
                 RECORD_PROGRAM];
    assert keys[0] != keys[6] && keys[0] != keys[9] && keys[0] in keys && keys[6] in keys && keys[9] in keys;
  }

  lemma FiveClosesAdd(key: Address, payer: Address)
    ensures Adds(CloseIxs(KeysFrom(key, 4) + [key + 5], [key + 4], payer),
                 {ZK_PROGRAM, RECORD_PROGRAM, payer, key, key + 1, key + 2, key + 3, key + 4, key + 5}, {payer}, 42)
    ensures |CloseIxs(KeysFrom(key, 4) + [key + 5], [key + 4], payer)| == 6
  {
    hide Adds, CloseContextIx, CloseRecordIx;
    var a, b, c, d, e, f := CloseContextIx(key, payer), CloseContextIx(key + 1, payer), CloseContextIx(key + 2, payer),
                            CloseContextIx(key + 3, payer), CloseContextIx(key + 5, payer), CloseRecordIx(key + 4, payer);
    CloseContextAdds(key, payer);
    CloseContextAdds(key + 1, payer);
    CloseContextAdds(key + 2, payer);
    CloseContextAdds(key + 3, payer);
    CloseContextAdds(key + 5, payer);
    CloseRecordAdds(key + 4, payer);
    var k1, k2, k3, k4, k5 := {ZK_PROGRAM, key, payer}, {ZK_PROGRAM, key + 1, payer}, {ZK_PROGRAM, key + 2, payer},
                              {ZK_PROGRAM, key + 3, payer}, {ZK_PROGRAM, key + 5, payer};
    AddsBoth([a], [b], k1, {payer}, 7, k2, {payer}, 7);
    AddsBoth([a] + [b], [c], k1 + k2, {payer} + {payer}, 14, k3, {payer}, 7);
    AddsBoth([a] + [b] + [c], [d], k1 + k2 + k3, {payer} + {payer} + {payer}, 21, k4, {payer}, 7);
    AddsBoth([a] + [b] + [c] + [d], [e], k1 + k2 + k3 + k4, {payer} + {payer} + {payer} + {payer}, 28, k5, {payer}, 7);
    AddsBoth([a] + [b] + [c] + [d] + [e], [f], k1 + k2 + k3 + k4 + k5, {payer} + {payer} + {payer} + {payer} + {payer}, 35,
             {RECORD_PROGRAM, key + 4, payer}, {payer}, 7);
    assert [a] + [b] + [c] + [d] + [e] + [f] == CloseIxs(KeysFrom(key, 4) + [key + 5], [key + 4], payer);
    assert k1 + k2 + k3 + k4 + k5 + {RECORD_PROGRAM, key + 4, payer}
        == {ZK_PROGRAM, RECORD_PROGRAM, payer, key, key + 1, key + 2, key + 3, key + 4, key + 5};
    assert {payer} + {payer} + {payer} + {payer} + {payer} + {payer} == {payer};
  }

  /** A staged proof with its tail: the write, the creation of its context, and the verification. */
  lemma StagedAdds(s: Staged, kind: ProofInstruction, record: Address, context: Address, payer: Address, space: nat,
                   offset: nat, chunk: Bytes)
    requires s == StagedFrom(kind, record, context, payer, Some(WriteIx(record, payer, offset, chunk)), space)
    ensures Adds(StagedIxs([s], true), {RECORD_PROGRAM, SYSTEM_PROGRAM, ZK_PROGRAM, record, context, payer}, {payer, context},
                 85 + CompactLen(13 + |chunk|) + |chunk|)
    ensures |StagedIxs([s], true)| == 3
  {
    hide Adds, CreateIx, WriteIx, VerifyRecordIx;
    var tail, create, verify := WriteIx(record, payer, offset, chunk), CreateIx(payer, context, ZK_PROGRAM, space),
                                VerifyRecordIx(kind, record, context, payer);
    WriteAdds(record, payer, offset, chunk);
    CreateAdds(payer, context, ZK_PROGRAM, space);
    VerifyRecordAdds(kind, record, context, payer);
    var body := 17 + CompactLen(13 + |chunk|) + |chunk|;
    AddsBoth([tail], [create], {RECORD_PROGRAM, record, payer}, {payer}, body, {SYSTEM_PROGRAM, payer, context}, {payer, context}, 57);
    AddsBoth([tail] + [create], [verify], {RECORD_PROGRAM, record, payer} + {SYSTEM_PROGRAM, payer, context},
             {payer} + {payer, context}, body + 57, {ZK_PROGRAM, record, context, payer}, {}, 11);
    assert [s][..0] == [] && StagedIxs([], true) == [];
    assert StagedIxs([s], true) == [tail] + [create] + [verify];
    assert {RECORD_PROGRAM, record, payer} + {SYSTEM_PROGRAM, payer, context} + {ZK_PROGRAM, record, context, payer}
        == {RECORD_PROGRAM, SYSTEM_PROGRAM, ZK_PROGRAM, record, context, payer};
    assert {payer} + {payer, context} + {} == {payer, context};
  }

  /** Everything from the limit to the last closing instruction. */
  lemma WholeAdds(limits: Ix, staged: seq<Ix>, use: seq<Ix>, closes: seq<Ix>, ks: set<Address>, ss: set<Address>, bs: nat,
                  ku: set<Address>, su: set<Address>, bu: nat, kc: set<Address>, sc: set<Address>, bc: nat)
    requires Adds([limits], {BUDGET_PROGRAM}, {}, 8) && Adds(staged, ks, ss, bs) && Adds(use, ku, su, bu) && Adds(closes, kc, sc, bc)
    ensures Adds([limits] + staged + use + closes, {BUDGET_PROGRAM} + ks + ku + kc, ss + su + sc, 8 + bs + bu + bc)
  {
    hide Adds;
    AddsBoth([limits], staged, {BUDGET_PROGRAM}, {}, 8, ks, ss, bs);
    AddsBoth([limits] + staged, use, {BUDGET_PROGRAM} + ks, {} + ss, 8 + bs, ku, su, bu);
    AddsBoth([limits] + staged + use, closes, {BUDGET_PROGRAM} + ks + ku, {} + ss + su, 8 + bs + bu, kc, sc, bc);
    assert {} + ss + su + sc == ss + su + sc;
  }

  /** With its tail of 208 bytes the last transaction of a transfer is too large, if no keys coincide. */
  lemma TransferTooLarge(roles: Roles, payer: Address, owner: Address, key: Address, source: Address, destination: Address,
                         ix: Ix, s: Staged, kind: ProofInstruction, space: nat, offset: nat, chunk: Bytes, units: nat)
    requires s == StagedFrom(kind, key + 4, key + 5, payer, Some(WriteIx(key + 4, payer, offset, chunk)), space)
    requires |chunk| == 208 && KeysApart(roles, payer, owner, key, source, destination)
    requires Adds([ix], {roles.tokenProgram, source, roles.mint, destination, key, key + 1, key + 2, key + 3, key + 5, owner}, {owner},
                  184)
    ensures !Fits(ConsumeTx([s], KeysFrom(key, 4), [key + 4], payer, [ix], units, true), payer, PACKET_DATA_SIZE)
  {
    hide Adds, StagedIxs, CloseIxs, LimitIx, StagedFrom, WriteIx;
    var tx := ConsumeTx([s], KeysFrom(key, 4), [key + 4], payer, [ix], units, true);
    var contexts := KeysFrom(key, 4) + [key + 5];
    assert StagedContexts([s]) == [key + 5] by {
      StagedContext(s, kind, key + 4, key + 5, payer, Some(WriteIx(key + 4, payer, offset, chunk)), space);
    }
    var limit := units + OVERHEAD_UNITS + StagedUnits([s], true) + |contexts| * ComputeUnits(CloseContextState) + 1 * RECORD_CLOSE_UNITS;
    LimitAdds(limit);
    StagedAdds(s, kind, key + 4, key + 5, payer, space, offset, chunk);
    FiveClosesAdd(key, payer);
    var ks, ku := {RECORD_PROGRAM, SYSTEM_PROGRAM, ZK_PROGRAM, key + 4, key + 5, payer},
                  {roles.tokenProgram, source, roles.mint, destination, key, key + 1, key + 2, key + 3, key + 5, owner};
    var kc := {ZK_PROGRAM, RECORD_PROGRAM, payer, key, key + 1, key + 2, key + 3, key + 4, key + 5};
    WholeAdds(LimitIx(limit), StagedIxs([s], true), [ix], CloseIxs(contexts, [key + 4], payer), ks, {payer, key + 5}, 295,
              ku, {owner}, 184, kc, {payer}, 42);
    assert tx == [LimitIx(limit)] + StagedIxs([s], true) + [ix] + CloseIxs(contexts, [key + 4], payer);
    var keys := [payer, owner, source, destination, roles.mint, roles.tokenProgram, SYSTEM_PROGRAM, BUDGET_PROGRAM, ZK_PROGRAM,
                 RECORD_PROGRAM] + [key, key + 1, key + 2, key + 3, key + 4, key + 5];
    AllApart(roles, payer, owner, key, source, destination);
    SizeAtLeast(tx, payer, {BUDGET_PROGRAM} + ks + ku + kc, {payer, key + 5} + {owner} + {payer}, 529, keys, [payer, owner, key + 5]);
    assert |tx| == 11;
  }

  lemma StagedContext(s: Staged, kind: ProofInstruction, record: Address, context: Address, payer: Address, tail: Option<Ix>, space: nat)
    requires s == StagedFrom(kind, record, context, payer, tail, space)
    ensures StagedContexts([s]) == [context]
  {}

  lemma AllApart(roles: Roles, payer: Address, owner: Address, key: Address, source: Address, destination: Address)
    requires KeysApart(roles, payer, owner, key, source, destination)
    ensures Distinct([payer, owner, source, destination, roles.mint, roles.tokenProgram, SYSTEM_PROGRAM, BUDGET_PROGRAM, ZK_PROGRAM,
                      RECORD_PROGRAM] + [key, key + 1, key + 2, key + 3, key + 4, key + 5])
    ensures Distinct([payer, owner, key + 5])
  {
    var a := [payer, owner, source, destination, roles.mint, roles.tokenProgram, SYSTEM_PROGRAM, BUDGET_PROGRAM, ZK_PROGRAM,
              RECORD_PROGRAM];
    var b := [key, key + 1, key + 2, key + 3, key + 4, key + 5];
    assert forall i | 0 <= i < 6 :: b[i] == key + i;
    forall i, j | 0 <= i < j < |a + b| ensures (a + b)[i] != (a + b)[j] {
      assert if i < |a| then (a + b)[i] == a[i] && a[i] in a else (a + b)[i] == b[i - |a|];
      assert if j < |a| then (a + b)[j] == a[j] else (a + b)[j] == b[j - |a|];
    }
    assert a[0] != a[1] && a[0] in a && a[1] in a;
  }

  lemma TwoClosesAdd(context: Address, record: Address, payer: Address)
    ensures Adds(CloseIxs([context], [record], payer), {ZK_PROGRAM, RECORD_PROGRAM, payer, context, record}, {payer}, 14)
    ensures |CloseIxs([context], [record], payer)| == 2
  {
    hide Adds, CloseContextIx, CloseRecordIx;
    CloseContextAdds(context, payer);
    CloseRecordAdds(record, payer);
    AddsBoth([CloseContextIx(context, payer)], [CloseRecordIx(record, payer)], {ZK_PROGRAM, context, payer}, {payer}, 7,
             {RECORD_PROGRAM, record, payer}, {payer}, 7);
    assert CloseIxs([context], [record], payer) == [CloseContextIx(context, payer)] + [CloseRecordIx(record, payer)];
    assert {ZK_PROGRAM, context, payer} + {RECORD_PROGRAM, record, payer} == {ZK_PROGRAM, RECORD_PROGRAM, payer, context, record};
    assert {payer} + {payer} == {payer};
  }

  lemma AllListed(ks: set<Address>, ku: set<Address>, kc: set<Address>, keys: seq<Address>, payer: Address, owner: Address,
                  key: Address, a: Address, roles: Roles)
    requires ks == {RECORD_PROGRAM, SYSTEM_PROGRAM, ZK_PROGRAM, key, key + 1, payer}
    requires ku == {roles.tokenProgram, a, roles.mint, INSTRUCTIONS_SYSVAR, key + 1, owner, ZK_PROGRAM}
    requires kc == {ZK_PROGRAM, RECORD_PROGRAM, payer, key + 1, key}
    requires keys == [payer, key, key + 1, owner, a, roles.mint, INSTRUCTIONS_SYSVAR, roles.tokenProgram, BUDGET_PROGRAM,
                      RECORD_PROGRAM, SYSTEM_PROGRAM, ZK_PROGRAM]
    ensures {BUDGET_PROGRAM} + ks + ku + kc <= SetOf(keys)
  {
    assert keys[0] == payer && keys[1] == key && keys[2] == key + 1 && keys[3] == owner && keys[4] == a && keys[5] == roles.mint
        && keys[6] == INSTRUCTIONS_SYSVAR && keys[7] == roles.tokenProgram && keys[8] == BUDGET_PROGRAM && keys[9] == RECORD_PROGRAM
        && keys[10] == SYSTEM_PROGRAM && keys[11] == ZK_PROGRAM;
  }

  lemma WithdrawTxAdds(roles: Roles, payer: Address, owner: Address, key: Address, a: Address, use: seq<Ix>, s: Staged,
                       kind: ProofInstruction, space: nat, offset: nat, chunk: Bytes, units: nat, ks: set<Address>,
                       ku: set<Address>, kc: set<Address>)
    requires s == StagedFrom(kind, key, key + 1, payer, Some(WriteIx(key, payer, offset, chunk)), space)
    requires ks == {RECORD_PROGRAM, SYSTEM_PROGRAM, ZK_PROGRAM, key, key + 1, payer}
    requires kc == {ZK_PROGRAM, RECORD_PROGRAM, payer, key + 1, key}
    requires Adds(use, ku, {owner}, 382) && |use| == 2
    ensures var tx := ConsumeTx([s], [], [key], payer, use, units, true);
            && |tx| == 8
            && Adds(tx, {BUDGET_PROGRAM} + ks + ku + kc, {payer, key + 1} + {owner} + {payer},
                    8 + (85 + CompactLen(13 + |chunk|) + |chunk|) + 382 + 14)
  {
    hide Adds, StagedIxs, CloseIxs, LimitIx, StagedFrom, WriteIx, CompactLen;
    StagedContext(s, kind, key, key + 1, payer, Some(WriteIx(key, payer, offset, chunk)), space);
    var contexts: seq<Address> := [] + StagedContexts([s]);
    assert contexts == [key + 1];
    var limit := units + OVERHEAD_UNITS + StagedUnits([s], true) + |contexts| * ComputeUnits(CloseContextState) + 1 * RECORD_CLOSE_UNITS;
    LimitAdds(limit);
    StagedAdds(s, kind, key, key + 1, payer, space, offset, chunk);
    TwoClosesAdd(key + 1, key, payer);
    WholeAdds(LimitIx(limit), StagedIxs([s], true), use, CloseIxs(contexts, [key], payer), ks, {payer, key + 1},
              85 + CompactLen(13 + |chunk|) + |chunk|, ku, {owner}, 382, kc, {payer}, 14);
  }

  /** The last transaction of a withdraw fits with its tail of at most 80 bytes, whichever keys coincide. */
  lemma WithdrawFitsWhole(roles: Roles, payer: Address, owner: Address, key: Address, a: Address, use: seq<Ix>, s: Staged,
                          kind: ProofInstruction, space: nat, offset: nat, chunk: Bytes, units: nat)
    requires s == StagedFrom(kind, key, key + 1, payer, Some(WriteIx(key, payer, offset, chunk)), space) && |chunk| <= 80
    requires Adds(use, {roles.tokenProgram, a, roles.mint, INSTRUCTIONS_SYSVAR, key + 1, owner, ZK_PROGRAM}, {owner}, 382)
    requires |use| == 2
    ensures Fits(ConsumeTx([s], [], [key], payer, use, units, true), payer, PACKET_DATA_SIZE)
  {
    hide Adds, ConsumeTx, SetOf;
    var ks, ku := {RECORD_PROGRAM, SYSTEM_PROGRAM, ZK_PROGRAM, key, key + 1, payer},
                  {roles.tokenProgram, a, roles.mint, INSTRUCTIONS_SYSVAR, key + 1, owner, ZK_PROGRAM};
    var kc := {ZK_PROGRAM, RECORD_PROGRAM, payer, key + 1, key};
    WithdrawTxAdds(roles, payer, owner, key, a, use, s, kind, space, offset, chunk, units, ks, ku, kc);
    var keys := [payer, key, key + 1, owner, a, roles.mint, INSTRUCTIONS_SYSVAR, roles.tokenProgram, BUDGET_PROGRAM, RECORD_PROGRAM,
                 SYSTEM_PROGRAM, ZK_PROGRAM];
    AllListed(ks, ku, kc, keys, payer, owner, key, a, roles);
    TwelveKeysFit(ConsumeTx([s], [], [key], payer, use, units, true), payer, {BUDGET_PROGRAM} + ks + ku + kc, key + 1, owner,
                  8 + (85 + CompactLen(13 + |chunk|) + |chunk|) + 382 + 14, keys);
  }

  lemma TwelveKeysFit(tx: seq<Ix>, payer: Address, all: set<Address>, context: Address, owner: Address, body: nat,
                      keys: seq<Address>)
    requires Adds(tx, all, {payer, context} + {owner} + {payer}, body) && |tx| == 8 && body <= 570
    requires |keys| == 12 && keys[0] == payer && all <= SetOf(keys)
    ensures Fits(tx, payer, PACKET_DATA_SIZE)
  {
    hide Adds;
    assert forall k | k in all :: k in SetOf(keys) && k in keys;
    SizeAtMost(tx, payer, all, {payer, context} + {owner} + {payer}, body, keys, [payer, context, owner]);
  }
}
