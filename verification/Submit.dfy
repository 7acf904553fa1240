/** Sending token instructions that need no proofs: what a transaction of them does when it lands. */
module Submit {
  import opened Types
  import opened Packet
  import opened Ledger
  import opened Chain
  import opened ClusterModel
  import Conservation
  import Rely

  /** A token instruction without proofs. */
  predicate Plain(ix: Ix) {
    ix.op.Token? && ix.op.inline.None? && ix.op.contexts == []
  }

  /** The instructions in order, or nothing. */
  function ExecTokens(pda: Bytes -> Address, l: Ledger, ixs: seq<TokenIx>, signers: set<Address>, epoch: nat): Option<Ledger>
    decreases |ixs|
  {
    if ixs == [] then Some(l)
    else
      match Exec(pda, l, ixs[0], signers, [], epoch)
      case None => None
      case Some(l') => ExecTokens(pda, l', ixs[1..], signers, epoch)
  }

  function TokenIxs(ixs: seq<Ix>): (r: seq<TokenIx>)
    requires forall ix | ix in ixs :: Plain(ix)
    ensures |r| == |ixs|
  {
    seq(|ixs|, i requires 0 <= i < |ixs| => assert Plain(ixs[i]); ixs[i].op.ix)
  }

  lemma {:induction false} PlainTransaction(env: Env, w: World, ixs: seq<Ix>, signers: set<Address>)
    requires forall ix | ix in ixs :: Plain(ix)
    ensures ExecAll(env, w, ixs, signers)
         == match ExecTokens(env.pda, w.ledger, TokenIxs(ixs), signers, w.epoch)
            case None => None
            case Some(l) => Some(w.(ledger := l))
    decreases |ixs|
  {
    hide Exec;
    if ixs != [] {
      var op := ixs[0].op;
      assert ixs[0] in ixs && ContextStatements(env, w.proofs, []) == Some([]);
      assert TokenIxs(ixs)[1..] == TokenIxs(ixs[1..]);
      match ExecOp(env, w, op, signers)
      case None =>
      case Some(w') => PlainTransaction(env, w', ixs[1..], signers);
    }
  }

  /** Send plain token instructions as one transaction; `at` is the world it met. */
  method SendPlain(c: Cluster, ixs: seq<Ix>, keys: set<Address>) returns (r: Result<()>, ghost at: World)
    requires c.Valid() && (forall ix | ix in ixs :: Plain(ix)) && forall k | k in keys :: k < c.nextKey
    modifies c
    ensures c.Valid() && c.Live() == old(c.Live()) && c.turn == old(c.turn) + 1 && c.nextKey == old(c.nextKey)
    ensures c.failures == Told(r, old(c.failures)) && (r.Err? ==> SendFailed(r))
    ensures Rely.Undisturbed(c.owner, old(c.world.ledger), at.ledger) && Conservation.Conserved(at.ledger)
    ensures c.script(old(c.turn)).others == [] ==> at.ledger == old(c.world.ledger)
    ensures c.sent == old(c.sent) + [Attempt(old(c.turn), ixs, at)]
    ensures at.epoch == c.world.epoch == old(c.world.epoch + c.script(c.turn).epochs)
    ensures Quiet(c.owner, c.script, old(c.Now()), Moment(c.turn, c.sent, old(c.landed), at.ledger, at.epoch))
    ensures r.Ok? ==> && c.landed == old(c.landed) + [ixs]
                      && ExecTokens(c.env.pda, at.ledger, TokenIxs(ixs), {c.payer} + keys, at.epoch) == Some(c.world.ledger)
    ensures r.Err? ==> c.world.ledger == at.ledger && c.landed == old(c.landed)
    ensures r.Err? ==> || !Fits(ixs, c.payer, c.limit) || !c.script(old(c.turn)).lands
                       || ExecTokens(c.env.pda, at.ledger, TokenIxs(ixs), {c.payer} + keys, at.epoch).None?
  {
    hide Fits, Exec, Conservation.Conserved, Rely.Undisturbed, ExecTokens, Quiet;
    r, at := c.Send(ixs, keys);
    PlainTransaction(c.env, at, ixs, {c.payer} + keys);
  }

  /** The same for a single instruction. */
  method SendOne(c: Cluster, ix: Ix, keys: set<Address>) returns (r: Result<()>, ghost at: World)
    requires c.Valid() && Plain(ix) && forall k | k in keys :: k < c.nextKey
    modifies c
    ensures c.Valid() && c.Live() == old(c.Live()) && c.turn == old(c.turn) + 1 && c.nextKey == old(c.nextKey)
    ensures c.failures == Told(r, old(c.failures)) && (r.Err? ==> SendFailed(r))
    ensures Rely.Undisturbed(c.owner, old(c.world.ledger), at.ledger) && Conservation.Conserved(at.ledger)
    ensures c.script(old(c.turn)).others == [] ==> at.ledger == old(c.world.ledger)
    ensures c.sent == old(c.sent) + [Attempt(old(c.turn), [ix], at)]
    ensures at.epoch == c.world.epoch == old(c.world.epoch + c.script(c.turn).epochs)
    ensures Quiet(c.owner, c.script, old(c.Now()), Moment(c.turn, c.sent, old(c.landed), at.ledger, at.epoch))
    ensures r.Ok? ==> && c.landed == old(c.landed) + [[ix]]
                      && Exec(c.env.pda, at.ledger, ix.op.ix, {c.payer} + keys, [], at.epoch) == Some(c.world.ledger)
    ensures r.Err? ==> c.world.ledger == at.ledger && c.landed == old(c.landed)
    ensures r.Err? ==> || !Fits([ix], c.payer, c.limit) || !c.script(old(c.turn)).lands
                       || Exec(c.env.pda, at.ledger, ix.op.ix, {c.payer} + keys, [], at.epoch).None?
  {
    hide Exec, Conservation.Conserved, Rely.Undisturbed, Quiet;
    r, at := SendPlain(c, [ix], keys);
    OneToken(c.env.pda, at.ledger, ix, {c.payer} + keys, at.epoch);
  }

  lemma OneToken(pda: Bytes -> Address, l: Ledger, ix: Ix, signers: set<Address>, epoch: nat)
    requires Plain(ix)
    ensures ExecTokens(pda, l, TokenIxs([ix]), signers, epoch) == Exec(pda, l, ix.op.ix, signers, [], epoch)
  {
    hide Exec;
    assert TokenIxs([ix]) == [ix.op.ix] && [ix.op.ix][1..] == [];
  }
}
