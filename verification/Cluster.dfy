/**
 The client's view of a cluster: it generates keys, looks at the chain and sends transactions. Between
 any two of its moves other parties run transactions of their own, and any send may fail.
 */
module ClusterModel {
  import opened Types
  import opened Packet
  import opened Ledger
  import opened Chain
  import Conservation
  import Rely

  /** What happens before the client's next move lands: others' transactions, epochs going by, and whether it lands. */
  datatype Turn = Turn(others: seq<Tx>, epochs: nat, lands: bool)

  /** `r` reports that a send failed. */
  predicate SendFailed<T>(r: Result<T>) {
    r.Err? && (r.error.NotLanded? || r.error.TooLarge?)
  }

  /** The failed sends with the one `r` reports, if it reports one. */
  function Told<T>(r: Result<T>, failures: seq<Error>): seq<Error> {
    if SendFailed(r) then failures + [r.error] else failures
  }

  /** The epochs that go by in `n` turns from `turn` on. */
  function Elapsed(script: nat -> Turn, turn: nat, n: nat): nat
    decreases n
  {
    if n == 0 then 0 else script(turn).epochs + Elapsed(script, turn + 1, n - 1)
  }

  /** A transaction sent, the turn it was sent on, and the world it met. */
  datatype Attempt = Attempt(turn: nat, ixs: seq<Ix>, met: World)

  /** What can be said of the client and its chain at some moment: what it has sent, what landed, and the tokens. */
  datatype Moment = Moment(turn: nat, sent: seq<Attempt>, landed: seq<seq<Ix>>, ledger: Ledger, epoch: nat)

  /** The network lost one of the transactions sent since `before`. */
  ghost predicate Dropped(script: nat -> Turn, before: seq<Attempt>, after: seq<Attempt>) {
    exists i | |before| <= i < |after| :: !script(after[i].turn).lands
  }

  lemma DroppedWithin(script: nat -> Turn, a: seq<Attempt>, b: seq<Attempt>, c: seq<Attempt>, d: seq<Attempt>)
    requires a <= b && c <= d
    ensures Dropped(script, b, c) ==> Dropped(script, a, d)
  {
    if Dropped(script, b, c) {
      var i :| |b| <= i < |c| && !script(c[i].turn).lands;
      assert d[i] == c[i];
    }
  }

  lemma OneDropped(script: nat -> Turn, before: seq<Attempt>, after: seq<Attempt>, turn: nat, ixs: seq<Ix>, met: World)
    requires after == before + [Attempt(turn, ixs, met)]
    ensures Dropped(script, before, after) <==> !script(turn).lands
  {
    assert after[|before|].turn == turn;
  }

  lemma FirstEpochs(script: nat -> Turn, turn: nat)
    ensures Elapsed(script, turn, 3) == script(turn).epochs + script(turn + 1).epochs + script(turn + 2).epochs
    ensures Elapsed(script, turn, 4) == Elapsed(script, turn, 3) + script(turn + 3).epochs
  {
    assert Elapsed(script, turn + 2, 1) == script(turn + 2).epochs && Elapsed(script, turn + 3, 1) == script(turn + 3).epochs;
    assert Elapsed(script, turn + 2, 2) == script(turn + 2).epochs + Elapsed(script, turn + 3, 1);
  }

  /** `transaction` moves no tokens. */
  predicate NoToken(transaction: seq<Ix>) {
    forall ix | ix in transaction :: !ix.op.Token?
  }

  /** A transaction with a token instruction, sent since `before`, met these tokens in this epoch. */
  ghost predicate WasMet(before: seq<Attempt>, after: seq<Attempt>, at: World) {
    exists i | |before| <= i < |after| ::
      !NoToken(after[i].ixs) && after[i].met.ledger == at.ledger && after[i].met.epoch == at.epoch
  }

  /** On these turns nobody else acts, and no epoch goes by. */
  ghost predicate Calm(script: nat -> Turn, from: nat, to: nat) {
    forall t: nat | from <= t < to :: script(t).others == [] && script(t).epochs == 0
  }

  lemma CalmAt(script: nat -> Turn, from: nat, to: nat, turn: nat)
    requires from <= turn < to
    ensures Calm(script, from, to) ==> script(turn).others == []
  {}

  lemma CalmSince(script: nat -> Turn, from: nat, later: nat, to: nat)
    requires from <= later
    ensures Calm(script, from, to) ==> Calm(script, later, to)
  {}

  /** From `m` others alone led to these tokens in this epoch; if none of them acted, they are the same. */
  ghost predicate Reached(owner: Address, script: nat -> Turn, m: Moment, turn: nat, l: Ledger, epoch: nat) {
    && Rely.Undisturbed(owner, m.ledger, l) && m.epoch <= epoch
    && (Calm(script, m.turn, turn) ==> l == m.ledger && epoch == m.epoch)
  }

  /**
   Between two moments only token-free transactions of the client landed, and nobody disturbed the owner. The same can be
   said up to every world its transactions met in between.
   */
  ghost predicate Quiet(owner: Address, script: nat -> Turn, m: Moment, m': Moment) {
    && m.turn <= m'.turn && m.sent <= m'.sent && m.landed <= m'.landed
    && (forall i | |m.landed| <= i < |m'.landed| :: NoToken(m'.landed[i]))
    && Reached(owner, script, m, m'.turn, m'.ledger, m'.epoch)
    && (forall i | |m.sent| <= i < |m'.sent| :: MetBetween(owner, script, m, m'.turn, m'.sent[i]))
  }

  ghost predicate MetBetween(owner: Address, script: nat -> Turn, m: Moment, turn: nat, attempt: Attempt) {
    && m.turn <= attempt.turn < turn
    && Reached(owner, script, m, turn, attempt.met.ledger, attempt.met.epoch)
  }

  lemma ReachedTransitive(owner: Address, script: nat -> Turn, m: Moment, m': Moment, turn: nat, l: Ledger, epoch: nat)
    requires m.turn <= m'.turn <= turn
    requires Reached(owner, script, m, m'.turn, m'.ledger, m'.epoch) && Reached(owner, script, m', turn, l, epoch)
    ensures Reached(owner, script, m, turn, l, epoch)
  {
    Rely.UndisturbedTransitive(owner, m.ledger, m'.ledger, l);
  }

  lemma ReachedLater(owner: Address, script: nat -> Turn, m: Moment, turn: nat, turn': nat, l: Ledger, epoch: nat)
    requires turn <= turn' && Reached(owner, script, m, turn, l, epoch)
    ensures Reached(owner, script, m, turn', l, epoch)
  {}

  lemma QuietTransitive(owner: Address, script: nat -> Turn, m: Moment, m': Moment, m'': Moment)
    requires Quiet(owner, script, m, m') && Quiet(owner, script, m', m'')
    ensures Quiet(owner, script, m, m'')
  {
    hide Rely.Undisturbed;
    forall i | |m.landed| <= i < |m''.landed| ensures NoToken(m''.landed[i]) {
      if i < |m'.landed| {
        assert m''.landed[i] == m'.landed[i];
      }
    }
    ReachedTransitive(owner, script, m, m', m''.turn, m''.ledger, m''.epoch);
    forall i | |m.sent| <= i < |m''.sent| ensures MetBetween(owner, script, m, m''.turn, m''.sent[i]) {
      if i < |m'.sent| {
        assert m''.sent[i] == m'.sent[i] && MetBetween(owner, script, m, m'.turn, m'.sent[i]);
      } else {
        assert MetBetween(owner, script, m', m''.turn, m''.sent[i]);
        ReachedTransitive(owner, script, m, m', m''.turn, m''.sent[i].met.ledger, m''.sent[i].met.epoch);
      }
    }
  }

  /** A transaction that moves no tokens lands. */
  lemma QuietLands(owner: Address, script: nat -> Turn, m: Moment, m': Moment, transaction: seq<Ix>)
    requires Quiet(owner, script, m, m') && NoToken(transaction)
    ensures Quiet(owner, script, m, m'.(landed := m'.landed + [transaction]))
  {}

  lemma QuietStill(owner: Address, script: nat -> Turn, m: Moment)
    ensures Quiet(owner, script, m, m)
  {}

  lemma QuietSays(owner: Address, script: nat -> Turn, m: Moment, m': Moment)
    requires Quiet(owner, script, m, m')
    ensures m.turn <= m'.turn && m.sent <= m'.sent && m.landed <= m'.landed && m.epoch <= m'.epoch
    ensures Rely.Undisturbed(owner, m.ledger, m'.ledger) && m'.ledger.roles == m.ledger.roles
    ensures Calm(script, m.turn, m'.turn) ==> m'.ledger == m.ledger && m'.epoch == m.epoch
    ensures Reached(owner, script, m, m'.turn, m'.ledger, m'.epoch)
  {}

  /** One stretch after the other, and what the second leads to. */
  lemma QuietThen(owner: Address, script: nat -> Turn, m: Moment, m': Moment, m'': Moment)
    requires Quiet(owner, script, m, m') && Quiet(owner, script, m', m'')
    ensures Quiet(owner, script, m, m'') && Reached(owner, script, m, m''.turn, m''.ledger, m''.epoch)
    ensures m.turn <= m''.turn && m''.ledger.roles == m'.ledger.roles == m.ledger.roles
    ensures Rely.Undisturbed(owner, m.ledger, m''.ledger)
    ensures Calm(script, m.turn, m''.turn) ==> m''.ledger == m.ledger && m''.epoch == m.epoch
  {
    hide Quiet, Rely.Undisturbed, Reached;
    QuietTransitive(owner, script, m, m', m'');
    QuietSays(owner, script, m, m');
    QuietSays(owner, script, m, m'');
  }

  lemma WasMetWithin(a: seq<Attempt>, b: seq<Attempt>, c: seq<Attempt>, d: seq<Attempt>, at: World)
    requires a <= b && c <= d
    ensures WasMet(b, c, at) ==> WasMet(a, d, at)
  {
    if WasMet(b, c, at) {
      var i :| |b| <= i < |c| && !NoToken(c[i].ixs) && c[i].met.ledger == at.ledger && c[i].met.epoch == at.epoch;
      assert d[i] == c[i];
    }
  }

  /** The moment that the last transaction of `m` landed on: `at` is what it met. */
  ghost function LastMet(m: Moment, at: World): Moment
    requires |m.landed| > 0
  {
    m.(landed := m.landed[..|m.landed| - 1], ledger := at.ledger, epoch := at.epoch)
  }

  /** What a transaction met was reached quietly, and is where the client started if nobody else acted. */
  lemma WasMetQuietly(owner: Address, script: nat -> Turn, m: Moment, m': Moment, at: World)
    requires Quiet(owner, script, m, m') && WasMet(m.sent, m'.sent, at)
    ensures Reached(owner, script, m, m'.turn, at.ledger, at.epoch)
  {
    var i :| |m.sent| <= i < |m'.sent| && m'.sent[i].met.ledger == at.ledger && m'.sent[i].met.epoch == at.epoch;
    assert MetBetween(owner, script, m, m'.turn, m'.sent[i]);
  }

  class Cluster {
    const payer: Address
    /** The wallet whose flows are watched; nobody else signs for it. */
    const owner: Address
    /** Addresses from here on are keys this client generates. */
    const base: Address
    /** Largest transaction the network accepts. */
    const limit: nat
    const env: Env
    const script: nat -> Turn

    var world: World
    var turn: nat
    var nextKey: Address
    /** Keys generated by the operation in progress start here. */
    ghost var floor: Address
    /** The client's transactions in order: those it sent, and those of them that landed. */
    ghost var sent: seq<Attempt>
    ghost var landed: seq<seq<Ix>>
    /** The errors of its failed sends, in order. */
    ghost var failures: seq<Error>

    ghost predicate Core()
      reads this
    {
      && payer < base <= floor <= nextKey && owner < base && Faithful(env)
      && (forall n: nat :: forall tx | tx in script(n).others :: Foreign(tx.signers, payer, owner, base))
      && (forall a | a in world.proofs :: a < nextKey)
      && Conservation.Conserved(world.ledger)
    }

    /** `Core`, and no half-built proof account of the operation in progress is in sight. */
    ghost predicate Valid()
      reads this
    {
      Core() && Settled(world.proofs, payer, floor)
    }

    ghost function Now(): Moment
      reads this
    {
      Moment(turn, sent, landed, world.ledger, world.epoch)
    }

    /** The proof accounts of the operation in progress. */
    ghost function Live(): ProofMap
      reads this
    {
      Above(world.proofs, floor)
    }

    /** `Keypair::new`: an address never seen before. */
    method NewKey() returns (key: Address)
      requires Valid()
      modifies this`nextKey
      ensures Valid() && key == old(nextKey) && nextKey == key + 1
      ensures world == old(world) && turn == old(turn) && floor == old(floor) && failures == old(failures) && Now() == old(Now())
    {
      key := nextKey;
      nextKey := nextKey + 1;
    }

    /** Other parties move. They may do so only while nothing of ours is half-built: `Valid` is required here. */
    method Tick()
      requires Valid()
      modifies this
      ensures Valid() && turn == old(turn) + 1
      ensures Live() == old(Live())
      ensures Rely.Undisturbed(owner, old(world.ledger), world.ledger)
      ensures world.proofs == old(RunOthers(env, world, script(turn).others).proofs)
      ensures world.ledger == old(RunOthers(env, world, script(turn).others).ledger)
      ensures nextKey == old(nextKey) && floor == old(floor) && landed == old(landed) && failures == old(failures)
      ensures sent == old(sent)
      ensures world.epoch == old(world.epoch + script(turn).epochs)
      ensures Quiet(owner, script, old(Now()), Now())
    {
      var now := script(turn);
      OthersKeep(env, world, now.others, payer, owner, base, floor);
      OthersCreateBelow(env, world, now.others, payer, owner, base);
      world := RunOthers(env, world, now.others);
      world := world.(epoch := world.epoch + now.epochs);
      turn := turn + 1;
    }

    /** Read the chain at some moment from now on. */
    method Observe() returns (seen: World)
      requires Valid()
      modifies this
      ensures Valid() && seen == world
      ensures Live() == old(Live()) && Rely.Undisturbed(owner, old(world.ledger), world.ledger)
      ensures nextKey == old(nextKey) && floor == old(floor) && landed == old(landed) && turn == old(turn) + 1
      ensures sent == old(sent) && Quiet(owner, script, old(Now()), Now())
      ensures failures == old(failures) && world.epoch == old(world.epoch + script(turn).epochs)
      ensures script(old(turn)).others == [] ==> world.ledger == old(world.ledger)
    {
      Tick();
      seen := world;
    }

    /**
     Sign with the payer plus `keys` and submit. `mid` is the world the transaction met; on an error it
     did not land, and the world stays `mid`.
     */
    method Send(ixs: seq<Ix>, keys: set<Address>) returns (r: Result<()>, ghost mid: World)
      requires Valid()
      requires forall k | k in keys :: k < nextKey
      modifies this
      ensures Core()
      ensures Above(mid.proofs, floor) == old(Live()) && Settled(mid.proofs, payer, floor)
      ensures forall a | a in mid.proofs :: a < nextKey
      ensures Rely.Undisturbed(owner, old(world.ledger), mid.ledger) && Conservation.Conserved(mid.ledger)
      ensures turn == old(turn) + 1 && (script(old(turn)).others == [] ==> mid.ledger == old(world.ledger))
      ensures sent == old(sent) + [Attempt(old(turn), ixs, mid)]
      ensures Quiet(owner, script, old(Now()), Moment(turn, sent, old(landed), mid.ledger, mid.epoch))
      ensures nextKey == old(nextKey) && floor == old(floor)
      ensures world.epoch == mid.epoch == old(world.epoch + script(turn).epochs)
      ensures r.Ok? ==> && Fits(ixs, payer, limit)
                        && ExecAll(env, mid, ixs, {payer} + keys) == Some(world)
                        && landed == old(landed) + [ixs]
      ensures r.Err? ==> world == mid && Valid() && landed == old(landed)
      ensures r.Err? ==> r.error == NotLanded || r.error == TooLarge(TransactionSize(ixs, payer), limit)
      ensures failures == Told(r, old(failures))
      ensures r.Err? && r.error.TooLarge? ==> !Fits(ixs, payer, limit)
      ensures r.Err? ==> !Fits(ixs, payer, limit) || !script(old(turn)).lands || ExecAll(env, mid, ixs, {payer} + keys).None?
    {
      hide Quiet, Rely.Undisturbed, Settled, Above, Conservation.Conserved, Fits, ExecAll;
      var lands := script(turn).lands;
      ghost var before := Now();
      Tick();
      mid := world;
      sent := sent + [Attempt(before.turn, ixs, mid)];
      QuietSent(owner, script, before, Now(), ixs, mid);
      if !Fits(ixs, payer, limit) {
        r := Err(TooLarge(TransactionSize(ixs, payer), limit));
        failures := failures + [r.error];
        return;
      }
      if !lands {
        r := Err(NotLanded);
        failures := failures + [r.error];
        return;
      }
      ExecAllKeeps(env, world, ixs, {payer} + keys);
      match ExecAll(env, world, ixs, {payer} + keys)
      case None =>
        r := Err(NotLanded);
        failures := failures + [r.error];
      case Some(w) =>
        world := w;
        landed := landed + [ixs];
        r := Ok(());
    }
  }

  /** One turn, and a transaction sent at the end of it. */
  lemma QuietSent(owner: Address, script: nat -> Turn, m: Moment, m': Moment, ixs: seq<Ix>, met: World)
    requires m'.turn == m.turn + 1 && m'.landed == m.landed && m'.sent == m.sent + [Attempt(m.turn, ixs, met)]
    requires Quiet(owner, script, m, m'.(sent := m.sent)) && met.ledger == m'.ledger && met.epoch == m'.epoch
    ensures Quiet(owner, script, m, m')
  {}

  lemma {:induction false} OthersCreateBelow(env: Env, w: World, txs: seq<Tx>, payer: Address, owner: Address, base: Address)
    requires forall tx | tx in txs :: Foreign(tx.signers, payer, owner, base)
    requires Conservation.Conserved(w.ledger)
    ensures forall a | a in RunOthers(env, w, txs).proofs :: a in w.proofs || a < base
    decreases |txs|
  {
    if txs != [] {
      ExecAllKeeps(env, w, txs[0].ixs, txs[0].signers);
      match ExecAll(env, w, txs[0].ixs, txs[0].signers)
      case None => OthersCreateBelow(env, w, txs[1..], payer, owner, base);
      case Some(w') => OthersCreateBelow(env, w', txs[1..], payer, owner, base);
    }
  }
}
