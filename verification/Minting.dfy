/**
 Creating the mint: one transaction that allocates it and initializes every extension, one that writes the metadata,
 and lamports for the final size up front.
 */
module Minting {
  import opened Types
  import Agent
  import Fees

  datatype Extension =
    | TransferFeeConfig
    | MetadataPointer
    | DefaultAccountState
    | MintCloseAuthority
    | PermanentDelegate
    | ConfidentialTransferMint
    | ConfidentialTransferFeeConfig
    | Other(id: nat)

  /** An extension with what it is initialized to. */
  datatype Init =
    | InitTransferFee(configAuthority: Address, withdrawAuthority: Address, rate: Fees.Rate)
    | InitMetadataPointer(authority: Address, target: Address)
    | InitDefaultState(frozen: bool)
    | InitCloseAuthority(authority: Address)
    | InitPermanentDelegate(delegate: Address)
    | InitConfidentialTransfer(authority: Address, autoApprove: bool, auditor: Option<Address>)
    | InitConfidentialFee(authority: Address, withheldKey: Address)
    | InitOther(id: nat)

  function Kind(init: Init): Extension {
    match init
    case InitTransferFee(_, _, _) => TransferFeeConfig
    case InitMetadataPointer(_, _) => MetadataPointer
    case InitDefaultState(_) => DefaultAccountState
    case InitCloseAuthority(_) => MintCloseAuthority
    case InitPermanentDelegate(_) => PermanentDelegate
    case InitConfidentialTransfer(_, _, _) => ConfidentialTransferMint
    case InitConfidentialFee(_, _) => ConfidentialTransferFeeConfig
    case InitOther(id) => Other(id)
  }

  function Kinds(inits: seq<Init>): (kinds: seq<Extension>)
    ensures |kinds| == |inits|
    ensures forall i | 0 <= i < |inits| :: kinds[i] == Kind(inits[i])
  {
    seq(|inits|, i requires 0 <= i < |inits| => Kind(inits[i]))
  }

  lemma KindsPush(inits: seq<Init>, init: Init)
    ensures Kinds(inits + [init]) == Kinds(inits) + [Kind(init)]
  {}

  const V1_EXTENSIONS: seq<Extension> := [TransferFeeConfig, MetadataPointer, DefaultAccountState, MintCloseAuthority]

  const V2_ADDED_EXTENSIONS: seq<Extension> := [PermanentDelegate, ConfidentialTransferMint, ConfidentialTransferFeeConfig]

  /** A key or a value of the metadata, UTF-8 encoded. */
  type Text = Bytes

  datatype Metadata = Metadata(name: Text, symbol: Text, uri: Text, additional: seq<(Text, Text)>)

  /** What the mint account holds of it: who may update it, and which mint it is of. */
  datatype TokenMetadata = TokenMetadata(update: Address, mint: Address, texts: Metadata)

  /** One key for each power over the mint. */
  datatype Authorities = Authorities(mint: Address, freeze: Address, feeConfig: Address, feeWithdraw: Address, close: Address,
                                     metadata: Address)

  /** Those the re-issue adds, and the keys its confidential amounts are encrypted under. */
  datatype ComplianceAuthorities = ComplianceAuthorities(seizure: Address, confidential: Address, auditor: Address,
                                                         withheldKey: Address)

  /** Sizes of the fixed extensions and the rent of an account, fixed by the programs. */
  datatype Rules = Rules(valueLen: Extension -> nat, rent: nat -> nat)

  /** Rent grows with the data. */
  ghost predicate Sound(rules: Rules) {
    forall a, b | a <= b :: rules.rent(a) <= rules.rent(b)
  }

  // ---------------------------------------------------------------- sizes

  /** A mint without extensions; a token account, to which a mint with extensions is padded; the account type after it. */
  const MINT_LEN: nat := 82
  const ACCOUNT_LEN: nat := 165
  const ACCOUNT_TYPE_LEN: nat := 1

  /** Extension type and length in front of each entry. */
  const TLV_HEADER: nat := 4

  /** Each extension has one entry, listed twice or not. */
  function TlvLen(rules: Rules, extensions: seq<Extension>): nat {
    if extensions == [] then 0
    else
      var n := |extensions| - 1;
      TlvLen(rules, extensions[..n])
      + (if extensions[n] in extensions[..n] then 0 else TLV_HEADER + rules.valueLen(extensions[n]))
  }

  function MintLen(rules: Rules, extensions: seq<Extension>): nat {
    if extensions == [] then MINT_LEN else ACCOUNT_LEN + ACCOUNT_TYPE_LEN + TlvLen(rules, extensions)
  }

  function TextLen(t: Text): nat {
    4 + |t|
  }

  function PairsLen(pairs: seq<(Text, Text)>): nat {
    if pairs == [] then 0 else TextLen(pairs[0].0) + TextLen(pairs[0].1) + PairsLen(pairs[1..])
  }

  /** Update authority and mint address, three texts, and the pairs behind their count. */
  function PackedLen(m: Metadata): nat {
    32 + 32 + TextLen(m.name) + TextLen(m.symbol) + TextLen(m.uri) + 4 + PairsLen(m.additional)
  }

  function MetadataTlvLen(m: Metadata): nat {
    TLV_HEADER + PackedLen(m)
  }

  // ---------------------------------------------------------------- the metadata as bytes

  /** A text behind its length. */
  function TextBytes(t: Text): Bytes {
    Agent.LeBytes(|t|, 4) + t
  }

  function PairsBytes(pairs: seq<(Text, Text)>): Bytes {
    if pairs == [] then [] else TextBytes(pairs[0].0) + TextBytes(pairs[0].1) + PairsBytes(pairs[1..])
  }

  /** Update authority, mint, name, symbol, uri, and the pairs behind their number. */
  function PackedMetadata(x: TokenMetadata): Bytes {
    var m := x.texts;
    Agent.LeBytes(x.update, 32) + Agent.LeBytes(x.mint, 32) + TextBytes(m.name) + TextBytes(m.symbol) + TextBytes(m.uri)
    + Agent.LeBytes(|m.additional|, 4) + PairsBytes(m.additional)
  }

  /** The number of the extension that holds metadata. */
  const METADATA_EXTENSION: nat := 19

  /** Its entry in the mint account: the number of the extension and the length of the rest, two bytes each. */
  function MetadataEntry(x: TokenMetadata): Bytes {
    var packed := PackedMetadata(x);
    Agent.LeBytes(METADATA_EXTENSION, 2) + Agent.LeBytes(|packed|, 2) + packed
  }

  lemma {:induction false} PairsBytesLen(pairs: seq<(Text, Text)>)
    ensures |PairsBytes(pairs)| == PairsLen(pairs)
  {
    if pairs != [] {
      PairsBytesLen(pairs[1..]);
    }
  }

  /** What is planned for the metadata is what its entry takes, byte for byte. */
  lemma EntryLen(x: TokenMetadata)
    ensures |MetadataEntry(x)| == MetadataTlvLen(x.texts)
  {
    PairsBytesLen(x.texts.additional);
  }

  // ---------------------------------------------------------------- the mint account

  /** Not created; created and partly initialized; or a mint, with its extensions and, once written, its metadata. */
  datatype MintAccount =
    | Absent
    | Allocated(space: nat, deposit: nat, initialized: seq<Init>)
    | Live(inits: seq<Init>, lamports: nat, authority: Address, freeze: Option<Address>, metadata: Option<TokenMetadata>)

  datatype MintOp =
    | Create(space: nat, lamports: nat)
    | Initialize(init: Init)
    | InitializeMint(authority: Address, freeze: Option<Address>)
    | InitializeMetadata(update: Address, authority: Address, name: Text, symbol: Text, uri: Text)
    | UpdateField(update: Address, key: Text, value: Text)

  /**
   A fee on a confidential amount has to be confidential too. This is the case of the program's rule on combinations that
   the lists of the library can meet.
   */
  predicate FeesConfidential(extensions: seq<Extension>) {
    TransferFeeConfig in extensions && ConfidentialTransferMint in extensions ==> ConfidentialTransferFeeConfig in extensions
  }

  /** Replace the value of a key that is there, or add the pair. */
  function SetField(pairs: seq<(Text, Text)>, key: Text, value: Text): seq<(Text, Text)>
    decreases |pairs|
  {
    if pairs == [] then [(key, value)]
    else if pairs[0].0 == key then [(key, value)] + pairs[1..]
    else [pairs[0]] + SetField(pairs[1..], key, value)
  }

  function SizeOf(rules: Rules, m: MintAccount): nat {
    match m
    case Absent => 0
    case Allocated(space, _, _) => space
    case Live(inits, _, _, _, metadata) =>
      MintLen(rules, Kinds(inits)) + (match metadata case None => 0 case Some(x) => |MetadataEntry(x)|)
  }

  /** The rules of the system and token programs; `key` is the mint's own key. None of the extension inits needs a signature. */
  function ExecOp(rules: Rules, key: Address, m: MintAccount, op: MintOp, signers: set<Address>): Option<MintAccount> {
    match op
    case Create(space, lamports) =>
      if !m.Absent? || key !in signers then None else Some(Allocated(space, lamports, []))
    case Initialize(init) =>
      if !m.Allocated? || Kind(init) in Kinds(m.initialized) || MintLen(rules, Kinds(m.initialized + [init])) > m.space then None
      else Some(m.(initialized := m.initialized + [init]))
    case InitializeMint(authority, freeze) =>
      if !m.Allocated? || m.space != MintLen(rules, Kinds(m.initialized)) || !FeesConfidential(Kinds(m.initialized))
         || (InitDefaultState(true) in m.initialized && freeze.None?) then None
      else Some(Live(m.initialized, m.deposit, authority, freeze, None))
    case InitializeMetadata(update, authority, name, symbol, uri) =>
      if !m.Live? || m.metadata.Some? || MetadataPointer !in Kinds(m.inits) || authority != m.authority
         || authority !in signers then None
      else Some(m.(metadata := Some(TokenMetadata(update, key, Metadata(name, symbol, uri, [])))))
    case UpdateField(update, k, v) =>
      if !m.Live? || m.metadata.None? || update != m.metadata.value.update || update !in signers then None
      else
        var x := m.metadata.value.texts;
        Some(m.(metadata := Some(m.metadata.value.(texts := x.(additional := SetField(x.additional, k, v))))))
  }

  function ExecOps(rules: Rules, key: Address, m: MintAccount, ops: seq<MintOp>, signers: set<Address>): Option<MintAccount> {
    if ops == [] then Some(m)
    else
      match ExecOps(rules, key, m, ops[..|ops| - 1], signers)
      case None => None
      case Some(m') => ExecOp(rules, key, m', ops[|ops| - 1], signers)
  }

  /** Whole or not at all, and what is left has to pay its rent. */
  function Transact(rules: Rules, key: Address, m: MintAccount, ops: seq<MintOp>, signers: set<Address>): Option<MintAccount> {
    match ExecOps(rules, key, m, ops, signers)
    case None => None
    case Some(m') => if Funded(rules, m') then Some(m') else None
  }

  predicate Funded(rules: Rules, m: MintAccount) {
    match m
    case Absent => true
    case Allocated(space, deposit, _) => rules.rent(space) <= deposit
    case Live(_, lamports, _, _, _) => rules.rent(SizeOf(rules, m)) <= lamports
  }

  // ---------------------------------------------------------------- the plan

  /** An init and the extension it is for. */
  type ExtensionInit = (Extension, MintOp)

  predicate Tagged(inits: seq<ExtensionInit>) {
    forall init | init in inits :: init.1.Initialize? && init.0 == Kind(init.1.init)
  }

  function InitsOf(tagged: seq<ExtensionInit>): (inits: seq<Init>)
    requires Tagged(tagged)
    ensures |inits| == |tagged| && Kinds(inits) == Firsts(tagged)
    ensures forall i | 0 <= i < |tagged| :: tagged[i].1 == Initialize(inits[i])
  {
    assert forall i | 0 <= i < |tagged| :: tagged[i] in tagged;
    seq(|tagged|, i requires 0 <= i < |tagged| => tagged[i].1.init)
  }

  /** Frozen accounts, a pointer to the mint itself, and every power with its own key. */
  function V1Inits(key: Address, authorities: Authorities, rate: Fees.Rate): seq<Init> {
    [InitTransferFee(authorities.feeConfig, authorities.feeWithdraw, rate), InitMetadataPointer(authorities.metadata, key),
     InitDefaultState(true), InitCloseAuthority(authorities.close)]
  }

  /** Seizure, confidential accounts approved by hand, and the auditor. */
  function V2AddedInits(authorities: Authorities, compliance: ComplianceAuthorities): seq<Init> {
    [InitPermanentDelegate(compliance.seizure),
     InitConfidentialTransfer(compliance.confidential, false, Some(compliance.auditor)),
     InitConfidentialFee(authorities.feeWithdraw, compliance.withheldKey)]
  }

  /** The inits as instructions, tagged. */
  method TagAll(inits: seq<Init>) returns (tagged: seq<ExtensionInit>)
    ensures Tagged(tagged) && InitsOf(tagged) == inits
  {
    tagged := [];
    for i := 0 to |inits|
      invariant Tagged(tagged) && |tagged| == i
      invariant forall j | 0 <= j < i :: tagged[j] == (Kind(inits[j]), Initialize(inits[j]))
    {
      tagged := tagged + [(Kind(inits[i]), Initialize(inits[i]))];
    }
    assert InitsOf(tagged) == inits;
  }

  datatype Plan = Plan(extensions: seq<Extension>, space: nat, metadataLen: nat, lamports: nat, initialize: seq<MintOp>,
                       metadata: seq<MintOp>)

  /** Allocation, the inits in order, and the mint itself. */
  function InitializeOps(space: nat, lamports: nat, inits: seq<Init>, authorities: Authorities): seq<MintOp> {
    [Create(space, lamports)] + seq(|inits|, i requires 0 <= i < |inits| => Initialize(inits[i]))
    + [InitializeMint(authorities.mint, Some(authorities.freeze))]
  }

  /** The texts, then one field per pair. */
  function MetadataOps(m: Metadata, authorities: Authorities): seq<MintOp> {
    [InitializeMetadata(authorities.metadata, authorities.mint, m.name, m.symbol, m.uri)]
    + seq(|m.additional|, i requires 0 <= i < |m.additional| =>
            UpdateField(authorities.metadata, m.additional[i].0, m.additional[i].1))
  }

  ghost predicate PlanFor(rules: Rules, plan: Plan, inits: seq<Init>, m: Metadata, authorities: Authorities) {
    && plan.extensions == Kinds(inits)
    && plan.space == MintLen(rules, Kinds(inits))
    && plan.metadataLen == MetadataTlvLen(m)
    && plan.lamports == rules.rent(plan.space + plan.metadataLen)
    && plan.initialize == InitializeOps(plan.space, plan.lamports, inits, authorities)
    && plan.metadata == MetadataOps(m, authorities)
  }

  /** Build the plan of a mint with these extension inits. */
  method PlanFromInits(rules: Rules, authorities: Authorities, m: Metadata, tagged: seq<ExtensionInit>) returns (plan: Plan)
    requires Tagged(tagged)
    ensures PlanFor(rules, plan, InitsOf(tagged), m, authorities)
  {
    var extensions := Firsts(tagged);
    var space, metadataLen := MintLen(rules, extensions), MetadataTlvLen(m);
    var lamports := rules.rent(space + metadataLen);
    var initialize := [Create(space, lamports)];
    ghost var inits := InitsOf(tagged);
    for i := 0 to |tagged|
      invariant initialize == [Create(space, lamports)] + seq(i, k requires 0 <= k < i => Initialize(inits[k]))
    {
      initialize := initialize + [tagged[i].1];
    }
    initialize := initialize + [InitializeMint(authorities.mint, Some(authorities.freeze))];
    var metadata := [InitializeMetadata(authorities.metadata, authorities.mint, m.name, m.symbol, m.uri)];
    ghost var first := metadata;
    for i := 0 to |m.additional|
      invariant metadata == first + seq(i, k requires 0 <= k < i =>
                                          UpdateField(authorities.metadata, m.additional[k].0, m.additional[k].1))
    {
      metadata := metadata + [UpdateField(authorities.metadata, m.additional[i].0, m.additional[i].1)];
    }
    plan := Plan(extensions, space, metadataLen, lamports, initialize, metadata);
  }

  // ---------------------------------------------------------------- the first transaction

  lemma TlvLenPush(rules: Rules, extensions: seq<Extension>, e: Extension)
    ensures TlvLen(rules, extensions + [e])
         == TlvLen(rules, extensions) + (if e in extensions then 0 else TLV_HEADER + rules.valueLen(e))
  {
    assert (extensions + [e])[..|extensions|] == extensions;
  }

  /** Where these inits, run on an allocated account, lead: they have to differ and to have room. */
  function Inited(rules: Rules, space: nat, lamports: nat, inits: seq<Init>): Option<MintAccount> {
    if Distinct(Kinds(inits)) && (inits != [] ==> MintLen(rules, Kinds(inits)) <= space)
    then Some(Allocated(space, lamports, inits)) else None
  }

  lemma InitStep(rules: Rules, key: Address, space: nat, lamports: nat, before: seq<Init>, init: Init, signers: set<Address>)
    ensures Inited(rules, space, lamports, before + [init])
         == match Inited(rules, space, lamports, before)
            case None => None
            case Some(m) => ExecOp(rules, key, m, Initialize(init), signers)
  {
    hide TlvLen, Distinct, Kinds;
    KindsPush(before, init);
    DistinctPush(Kinds(before), Kind(init));
    TlvLenPush(rules, Kinds(before), Kind(init));
  }

  lemma InitializeOpsAt(space: nat, lamports: nat, inits: seq<Init>, authorities: Authorities)
    ensures var ops := InitializeOps(space, lamports, inits, authorities);
            && |ops| == |inits| + 2 && ops[0] == Create(space, lamports)
            && ops[|inits| + 1] == InitializeMint(authorities.mint, Some(authorities.freeze))
            && forall k | 0 < k <= |inits| :: ops[k] == Initialize(inits[k - 1])
  {}

  /** The first `k` inits go through exactly when they differ and have room. */
  lemma {:induction false} InitsExecute(rules: Rules, key: Address, space: nat, lamports: nat, inits: seq<Init>, k: nat,
                                        authorities: Authorities, signers: set<Address>)
    requires k <= |inits| && key in signers
    ensures |InitializeOps(space, lamports, inits, authorities)| == |inits| + 2
    ensures ExecOps(rules, key, Absent, InitializeOps(space, lamports, inits, authorities)[..k + 1], signers)
         == Inited(rules, space, lamports, inits[..k])
  {
    hide InitializeOps, MintLen;
    var ops := InitializeOps(space, lamports, inits, authorities);
    InitializeOpsAt(space, lamports, inits, authorities);
    if k == 0 {
      assert ops[..1] == [Create(space, lamports)] && ops[..1][..0] == [] && inits[..0] == [];
    } else {
      hide Inited, ExecOp;
      InitsExecute(rules, key, space, lamports, inits, k - 1, authorities, signers);
      assert ops[..k + 1][..k] == ops[..k];
      assert inits[..k] == inits[..k - 1] + [inits[k - 1]];
      InitStep(rules, key, space, lamports, inits[..k - 1], inits[k - 1], signers);
    }
  }

  lemma DistinctPush<T>(s: seq<T>, x: T)
    ensures Distinct(s + [x]) <==> Distinct(s) && x !in s
  {
    var t := s + [x];
    if Distinct(t) {
      assert forall i | 0 <= i < |s| :: t[i] == s[i] && t[i] != t[|s|];
      assert forall i, j | 0 <= i < j < |s| :: t[i] != t[j];
    }
  }

  /**
   The mint comes into being exactly when every extension is initialized once, the combination is legal, and the
   allocation is to the byte what the initialized extensions need: nothing less, and no room for the metadata either.
   */
  lemma MintInitializesIff(rules: Rules, key: Address, space: nat, lamports: nat, inits: seq<Init>,
                           authorities: Authorities, signers: set<Address>)
    requires key in signers
    ensures ExecOps(rules, key, Absent, InitializeOps(space, lamports, inits, authorities), signers)
         == if Legal(inits) && space == MintLen(rules, Kinds(inits))
            then Some(Bare(inits, lamports, authorities)) else None
  {
    var n, ops := |inits|, InitializeOps(space, lamports, inits, authorities);
    InitsExecute(rules, key, space, lamports, inits, n, authorities, signers);
    assert inits[..n] == inits && ops[..|ops| - 1] == ops[..n + 1];
  }

  /** The mint under the planned authorities, before its metadata is written. */
  function Bare(inits: seq<Init>, lamports: nat, authorities: Authorities): MintAccount {
    Live(inits, lamports, authorities.mint, Some(authorities.freeze), None)
  }

  /** Every extension once, in a combination the program allows. */
  predicate Legal(inits: seq<Init>) {
    Distinct(Kinds(inits)) && FeesConfidential(Kinds(inits))
  }

  // ---------------------------------------------------------------- the second transaction

  /** The additional metadata after these pairs were written one by one. */
  function Written(pairs: seq<(Text, Text)>): seq<(Text, Text)> {
    if pairs == [] then []
    else SetField(Written(pairs[..|pairs| - 1]), pairs[|pairs| - 1].0, pairs[|pairs| - 1].1)
  }

  lemma {:induction false} PairsLenConcat(a: seq<(Text, Text)>, b: seq<(Text, Text)>)
    ensures PairsLen(a + b) == PairsLen(a) + PairsLen(b)
  {
    if a == [] {
      assert a + b == b;
    } else {
      assert (a + b)[1..] == a[1..] + b;
      PairsLenConcat(a[1..], b);
    }
  }

  /** Writing a field never takes more than its own length, and less when the key is there already. */
  lemma {:induction false} SetFieldLen(pairs: seq<(Text, Text)>, key: Text, value: Text)
    ensures var r := SetField(pairs, key, value);
            && PairsLen(r) <= PairsLen(pairs) + TextLen(key) + TextLen(value)
            && (PairsLen(r) == PairsLen(pairs) + TextLen(key) + TextLen(value) <==> key !in Firsts(pairs))
            && (key !in Firsts(pairs) ==> r == pairs + [(key, value)])
            && (forall k :: k in Firsts(r) <==> k == key || k in Firsts(pairs))
    decreases |pairs|
  {
    hide Firsts;
    var r := SetField(pairs, key, value);
    if pairs == [] {
      assert r[1..] == [];
      assert r == pairs + [(key, value)];
    } else {
      var rest := pairs[1..];
      KeysCons(pairs);
      KeysCons(r);
      if pairs[0].0 == key {
        assert r[1..] == rest;
      } else {
        SetFieldLen(rest, key, value);
        assert r[1..] == SetField(rest, key, value);
        if key !in Firsts(pairs) {
          assert r == [pairs[0]] + (rest + [(key, value)]) == pairs + [(key, value)];
        }
      }
    }
  }

  lemma KeysCons(pairs: seq<(Text, Text)>)
    requires pairs != []
    ensures Firsts(pairs) == [pairs[0].0] + Firsts(pairs[1..])
  {}

  /**
   However often a key is written, the pairs on chain are never longer than those written so far; they are as long
   exactly when all keys differ, and then they are those pairs.
   */
  lemma {:induction false} WrittenLen(pairs: seq<(Text, Text)>)
    ensures PairsLen(Written(pairs)) <= PairsLen(pairs)
    ensures PairsLen(Written(pairs)) == PairsLen(pairs) <==> Distinct(Firsts(pairs))
    ensures Written(pairs) == pairs <==> Distinct(Firsts(pairs))
    ensures forall k :: k in Firsts(Written(pairs)) <==> k in Firsts(pairs)
    decreases |pairs|
  {
    if pairs != [] {
      var n := |pairs| - 1;
      var before, last := pairs[..n], pairs[n];
      assert pairs == before + [last];
      WrittenLen(before);
      SetFieldLen(Written(before), last.0, last.1);
      PairsLenConcat(before, [last]);
      assert [last][1..] == [];
      assert Firsts(pairs) == Firsts(before) + [last.0];
      DistinctPush(Firsts(before), last.0);
    }
  }

  /** After the texts and the first `k` pairs. */
  function Described(key: Address, inits: seq<Init>, lamports: nat, authorities: Authorities, m: Metadata, k: nat): MintAccount
    requires k <= |m.additional|
  {
    Live(inits, lamports, authorities.mint, Some(authorities.freeze),
         Some(TokenMetadata(authorities.metadata, key, m.(additional := Written(m.additional[..k])))))
  }

  lemma {:induction false} FieldsExecute(rules: Rules, key: Address, inits: seq<Init>, lamports: nat, m: Metadata,
                                         authorities: Authorities, signers: set<Address>, k: nat)
    requires k <= |m.additional| && {authorities.mint, authorities.metadata} <= signers && MetadataPointer in Kinds(inits)
    ensures ExecOps(rules, key, Bare(inits, lamports, authorities), MetadataOps(m, authorities)[..k + 1], signers)
         == Some(Described(key, inits, lamports, authorities, m, k))
  {
    var ops, start := MetadataOps(m, authorities), Bare(inits, lamports, authorities);
    if k == 0 {
      assert ops[..1] == [ops[0]] && ops[..1][..0] == [] && m.additional[..0] == [];
    } else {
      FieldsExecute(rules, key, inits, lamports, m, authorities, signers, k - 1);
      assert ops[..k + 1][..k] == ops[..k];
      assert m.additional[..k][..k - 1] == m.additional[..k - 1];
    }
  }

  lemma DescribedSize(rules: Rules, key: Address, inits: seq<Init>, lamports: nat, authorities: Authorities, m: Metadata, k: nat)
    requires k <= |m.additional|
    ensures SizeOf(rules, Described(key, inits, lamports, authorities, m, k)) <= MintLen(rules, Kinds(inits)) + MetadataTlvLen(m)
    ensures k == |m.additional| ==>
              (SizeOf(rules, Described(key, inits, lamports, authorities, m, k)) == MintLen(rules, Kinds(inits)) + MetadataTlvLen(m)
               <==> Distinct(Firsts(m.additional)))
  {
    hide MetadataEntry, PackedMetadata, TlvLen;
    EntryLen(Described(key, inits, lamports, authorities, m, k).metadata.value);
    WrittenLen(m.additional[..k]);
    PairsLenConcat(m.additional[..k], m.additional[k..]);
    assert m.additional == m.additional[..k] + m.additional[k..];
    if k == |m.additional| {
      assert m.additional[..k] == m.additional;
    }
  }

  // ---------------------------------------------------------------- the whole plan

  /**
   Sizing up front is sufficient: the first transaction goes through with the planned allocation, and the mint can pay
   for itself after every instruction of the second. It is exact when no metadata key is listed twice: then the final
   size is the one planned and funded for, and the metadata on chain is the one planned; otherwise it is smaller.
   */
  lemma SizingSufficesAndIsExact(rules: Rules, key: Address, plan: Plan, inits: seq<Init>, m: Metadata,
                                 authorities: Authorities, signers: set<Address>, signers': set<Address>, k: nat)
    requires Sound(rules) && PlanFor(rules, plan, inits, m, authorities)
    requires Legal(inits) && MetadataPointer in Kinds(inits)
    requires key in signers && {authorities.mint, authorities.metadata} <= signers' && k <= |m.additional|
    ensures var start := Bare(inits, plan.lamports, authorities);
            Transact(rules, key, Absent, plan.initialize, signers) == Some(start) && SizeOf(rules, start) == plan.space
    ensures var start := Bare(inits, plan.lamports, authorities);
            var after := ExecOps(rules, key, start, plan.metadata[..k + 1], signers');
            after.Some? && SizeOf(rules, after.value) <= plan.space + plan.metadataLen && Funded(rules, after.value)
    ensures var start := Bare(inits, plan.lamports, authorities);
            var end := Transact(rules, key, start, plan.metadata, signers');
            && end == Some(Described(key, inits, plan.lamports, authorities, m, |m.additional|))
            && (SizeOf(rules, end.value) == plan.space + plan.metadataLen <==> Distinct(Firsts(m.additional)))
            && (end.value.metadata.value.texts == m <==> Distinct(Firsts(m.additional)))
            && (Distinct(Firsts(m.additional)) ==> rules.rent(SizeOf(rules, end.value)) == end.value.lamports)
  {
    hide Kinds, TlvLen, Distinct, FeesConfidential, PairsLen, InitializeOps, ExecOp;
    var n := |m.additional|;
    MintInitializesIff(rules, key, plan.space, plan.lamports, inits, authorities, signers);
    FieldsExecute(rules, key, inits, plan.lamports, m, authorities, signers', k);
    FieldsExecute(rules, key, inits, plan.lamports, m, authorities, signers', n);
    DescribedSize(rules, key, inits, plan.lamports, authorities, m, k);
    DescribedSize(rules, key, inits, plan.lamports, authorities, m, n);
    WrittenLen(m.additional);
    assert m.additional[..n] == m.additional && plan.metadata[..n + 1] == plan.metadata;
  }

  /** The key "a" listed with the value "x", and again with "yy". */
  const LISTED_TWICE: seq<(Text, Text)> := [([97], [120]), ([97], [121, 121])]

  /** Metadata that lists it so ends up with the second pair alone, ten bytes short of what was planned and funded for. */
  lemma ListedTwiceIsShort(rules: Rules, key: Address, plan: Plan, inits: seq<Init>, m: Metadata, authorities: Authorities,
                           signers: set<Address>)
    requires Sound(rules) && PlanFor(rules, plan, inits, m, authorities) && m.additional == LISTED_TWICE
    requires Legal(inits) && MetadataPointer in Kinds(inits) && {authorities.mint, authorities.metadata} <= signers
    ensures var end := Transact(rules, key, Bare(inits, plan.lamports, authorities), plan.metadata, signers);
            && end.Some? && end.value.Live? && end.value.metadata.Some?
            && end.value.metadata.value.texts == m.(additional := [([97], [121, 121])])
            && SizeOf(rules, end.value) == plan.space + plan.metadataLen - 10
  {
    hide Kinds, MintLen, Distinct, FeesConfidential, ExecOp;
    FieldsExecute(rules, key, inits, plan.lamports, m, authorities, signers, 2);
    DescribedSize(rules, key, inits, plan.lamports, authorities, m, 2);
    var first: (Text, Text) := ([97], [120]);
    assert m.additional[..2] == m.additional && plan.metadata[..3] == plan.metadata;
    assert m.additional[..1] == [first] && m.additional[..1][..0] == [];
    assert Written([first]) == [first];
    assert Written(m.additional) == [([97], [121, 121])];
    assert PairsLen(m.additional[1..]) == 11 && PairsLen(m.additional) == 21 && PairsLen(Written(m.additional)) == 11;
  }

  function Ascii(s: string): (t: Text)
    ensures |t| == |s|
  {
    seq(|s|, i requires 0 <= i < |s| => s[i] as int % 128)
  }

  /** The stablecoin's own metadata. */
  function Stablecoin(): Metadata {
    Metadata(Ascii("Remit USD"), Ascii("rUSD"), Ascii("https://example.com/rusd/metadata.json"),
             [(Ascii("issuer"), Ascii("Remit Labs Ltd.")), (Ascii("peg"), Ascii("1 rUSD = 1 USD")),
              (Ascii("kyc"), Ascii("required; new accounts start frozen"))])
  }

  /** With the lengths the token program gives its four extensions the first issue is allocated 387 bytes and ends up with 622. */
  lemma StablecoinSizes(rules: Rules, x: TokenMetadata)
    requires rules.valueLen(TransferFeeConfig) == 108 && rules.valueLen(MetadataPointer) == 64
    requires rules.valueLen(DefaultAccountState) == 1 && rules.valueLen(MintCloseAuthority) == 32
    requires x.texts == Stablecoin()
    ensures MintLen(rules, V1_EXTENSIONS) == 387 && MintLen(rules, V1_EXTENSIONS) + |MetadataEntry(x)| == 622
  {
    EntryLen(x);
    hide MetadataEntry;
    var e := V1_EXTENSIONS;
    TlvLenPush(rules, [], e[0]);
    TlvLenPush(rules, [e[0]], e[1]);
    TlvLenPush(rules, [e[0], e[1]], e[2]);
    TlvLenPush(rules, [e[0], e[1], e[2]], e[3]);
    assert [] + [e[0]] == [e[0]] && [e[0]] + [e[1]] == [e[0], e[1]] && [e[0], e[1]] + [e[2]] == [e[0], e[1], e[2]]
        && [e[0], e[1], e[2]] + [e[3]] == e;
    assert TlvLen(rules, []) == 0;
    var p := x.texts.additional;
    var kyc := (Ascii("kyc"), Ascii("required; new accounts start frozen"));
    var peg := (Ascii("peg"), Ascii("1 rUSD = 1 USD"));
    assert p[1..] == [peg, kyc] && [peg, kyc][1..] == [kyc];
    assert PairsLen([kyc]) == 46 by {
      var none: seq<(Text, Text)> := [];
      assert [kyc][1..] == none;
    }
    assert PairsLen([peg, kyc]) == 71 && PairsLen(p) == 100;
  }

  /** The first issue and the re-issue both qualify; adding confidential transfers without their fee extension does not. */
  lemma BothIssuesQualify(rules: Rules, key: Address, space: nat, lamports: nat, authorities: Authorities,
                          compliance: ComplianceAuthorities, rate: Fees.Rate, signers: set<Address>)
    requires key in signers
    ensures var v1 := V1Inits(key, authorities, rate);
            Kinds(v1) == V1_EXTENSIONS && Legal(v1) && MetadataPointer in Kinds(v1)
    ensures var v2 := V1Inits(key, authorities, rate) + V2AddedInits(authorities, compliance);
            Kinds(v2) == V1_EXTENSIONS + V2_ADDED_EXTENSIONS && Legal(v2) && MetadataPointer in Kinds(v2)
    ensures var without := V1Inits(key, authorities, rate) + V2AddedInits(authorities, compliance)[..2];
            ExecOps(rules, key, Absent, InitializeOps(space, lamports, without, authorities), signers).None?
  {
    var v1, v2 := V1Inits(key, authorities, rate), V1Inits(key, authorities, rate) + V2AddedInits(authorities, compliance);
    var without := v1 + V2AddedInits(authorities, compliance)[..2];
    BothLegal(key, authorities, compliance, rate);
    NoConfidentialFee(without);
    hide Kinds, MintLen, InitializeOps, V1Inits, V2AddedInits;
    MintInitializesIff(rules, key, space, lamports, without, authorities, signers);
  }

  lemma BothLegal(key: Address, authorities: Authorities, compliance: ComplianceAuthorities, rate: Fees.Rate)
    ensures var v1 := V1Inits(key, authorities, rate);
            Kinds(v1) == V1_EXTENSIONS && Legal(v1) && MetadataPointer in Kinds(v1)
    ensures var v2 := V1Inits(key, authorities, rate) + V2AddedInits(authorities, compliance);
            Kinds(v2) == V1_EXTENSIONS + V2_ADDED_EXTENSIONS && Legal(v2) && MetadataPointer in Kinds(v2)
  {
    var v1, v2 := V1Inits(key, authorities, rate), V1Inits(key, authorities, rate) + V2AddedInits(authorities, compliance);
    assert Kinds(v1) == V1_EXTENSIONS && Kinds(v2) == V1_EXTENSIONS + V2_ADDED_EXTENSIONS;
    assert Kinds(v1)[1] == MetadataPointer && Kinds(v2)[1] == MetadataPointer && Kinds(v2)[6] == ConfidentialTransferFeeConfig;
  }

  lemma NoConfidentialFee(inits: seq<Init>)
    requires |inits| == 6 && inits[0].InitTransferFee? && inits[5].InitConfidentialTransfer?
    requires forall init | init in inits :: !init.InitConfidentialFee?
    ensures !Legal(inits)
  {
    assert Kinds(inits)[0] == TransferFeeConfig && Kinds(inits)[5] == ConfidentialTransferMint;
    assert forall i | 0 <= i < 6 :: inits[i] in inits;
  }

  // ---------------------------------------------------------------- planning and creating

  method PlanV1(rules: Rules, key: Address, authorities: Authorities, m: Metadata, rate: Fees.Rate) returns (plan: Plan)
    ensures PlanFor(rules, plan, V1Inits(key, authorities, rate), m, authorities) && plan.extensions == V1_EXTENSIONS
  {
    var tagged := TagAll(V1Inits(key, authorities, rate));
    plan := PlanFromInits(rules, authorities, m, tagged);
  }

  /** The first issue's extensions carried forward, then the new ones. */
  method PlanV2(rules: Rules, key: Address, authorities: Authorities, compliance: ComplianceAuthorities, m: Metadata,
                rate: Fees.Rate) returns (plan: Plan)
    ensures PlanFor(rules, plan, V1Inits(key, authorities, rate) + V2AddedInits(authorities, compliance), m, authorities)
    ensures plan.extensions == V1_EXTENSIONS + V2_ADDED_EXTENSIONS
  {
    var tagged := TagAll(V1Inits(key, authorities, rate));
    var added := TagAll(V2AddedInits(authorities, compliance));
    assert InitsOf(tagged + added) == V1Inits(key, authorities, rate) + V2AddedInits(authorities, compliance);
    tagged := tagged + added;
    plan := PlanFromInits(rules, authorities, m, tagged);
  }

  /** Signed neither with the mint's key nor with those of its roles. */
  predicate Stranger(signers: set<Address>, key: Address, authorities: Authorities) {
    key !in signers && authorities.mint !in signers && authorities.metadata !in signers
  }

  /** Either nothing is there, or a mint whose authorities are the planned ones: nothing a stranger could finish. */
  predicate Safe(m: MintAccount, authorities: Authorities) {
    match m
    case Absent => true
    case Allocated(_, _, _) => false
    case Live(_, _, authority, freeze, metadata) =>
      authority == authorities.mint && freeze == Some(authorities.freeze)
      && (metadata.Some? ==> metadata.value.update == authorities.metadata)
  }

  lemma {:induction false} StrangersChangeNothing(rules: Rules, key: Address, m: MintAccount, ops: seq<MintOp>,
                                                  signers: set<Address>, authorities: Authorities)
    requires Safe(m, authorities) && Stranger(signers, key, authorities)
    ensures ExecOps(rules, key, m, ops, signers).Some? ==> ExecOps(rules, key, m, ops, signers).value == m
  {
    if ops != [] {
      StrangersChangeNothing(rules, key, m, ops[..|ops| - 1], signers, authorities);
    }
  }

  /** The inits from `lo` to `hi` as instructions. */
  function InitsBetween(inits: seq<Init>, lo: nat, hi: nat): seq<MintOp>
    requires lo <= hi <= |inits|
  {
    seq(hi - lo, i requires 0 <= i < hi - lo => Initialize(inits[lo + i]))
  }

  /** Where all inits go through, so do the first of them. */
  lemma {:induction false} FirstInited(rules: Rules, space: nat, lamports: nat, inits: seq<Init>, k: nat)
    requires k <= |inits| && Inited(rules, space, lamports, inits).Some?
    ensures Inited(rules, space, lamports, inits[..k]) == Some(Allocated(space, lamports, inits[..k]))
    decreases |inits|
  {
    if k == |inits| {
      assert inits[..k] == inits;
    } else {
      var n := |inits| - 1;
      assert inits == inits[..n] + [inits[n]] && inits[..n][..k] == inits[..k];
      InitStep(rules, 0, space, lamports, inits[..n], inits[n], {});
      FirstInited(rules, space, lamports, inits[..n], k);
    }
  }

  /** The inits need no signature: whoever runs those left over, they go through. */
  lemma {:induction false} InitsByAnyone(rules: Rules, key: Address, space: nat, deposit: nat, inits: seq<Init>, lo: nat,
                                         hi: nat, signers: set<Address>)
    requires lo <= hi <= |inits| && Inited(rules, space, deposit, inits).Some?
    ensures ExecOps(rules, key, Allocated(space, deposit, inits[..lo]), InitsBetween(inits, lo, hi), signers)
         == Some(Allocated(space, deposit, inits[..hi]))
    decreases hi
  {
    hide Inited, ExecOp;
    if hi > lo {
      var ops := InitsBetween(inits, lo, hi);
      InitsByAnyone(rules, key, space, deposit, inits, lo, hi - 1, signers);
      assert ops[..|ops| - 1] == InitsBetween(inits, lo, hi - 1);
      FirstInited(rules, space, deposit, inits, hi - 1);
      FirstInited(rules, space, deposit, inits, hi);
      assert inits[..hi] == inits[..hi - 1] + [inits[hi - 1]];
      InitStep(rules, key, space, deposit, inits[..hi - 1], inits[hi - 1], signers);
    }
  }

  /**
   Were the creation split, anyone could finish it: after any number `k` of the planned inits, a transaction signed by no key of
   the mint, with inits of their own for the extensions left over, leaves a mint under their own mint and freeze authority.
   */
  lemma HalfInitializedIsOpen(rules: Rules, key: Address, deposit: nat, inits: seq<Init>, k: nat, theirs: seq<Init>,
                              stranger: Address, signers: set<Address>)
    requires Legal(inits) && k <= |inits| && Kinds(theirs) == Kinds(inits)[k..]
    requires rules.rent(MintLen(rules, Kinds(inits))) <= deposit
    ensures var taking := InitsBetween(theirs, 0, |theirs|) + [InitializeMint(stranger, Some(stranger))];
            Transact(rules, key, Allocated(MintLen(rules, Kinds(inits)), deposit, inits[..k]), taking, signers)
            == Some(Live(inits[..k] + theirs, deposit, stranger, Some(stranger), None))
  {
    var all, space := inits[..k] + theirs, MintLen(rules, Kinds(inits));
    SameKinds(inits, theirs, k);
    var left, last := InitsBetween(theirs, 0, |theirs|), InitializeMint(stranger, Some(stranger));
    assert left == InitsBetween(all, k, |all|) && all[..k] == inits[..k] && all[..|all|] == all;
    assert (left + [last])[..|left|] == left;
    hide ExecOp, MintLen, Kinds, InitsBetween, TlvLen;
    assert Legal(all) && Inited(rules, space, deposit, all).Some?;
    FinishedByAnyone(rules, key, deposit, all, stranger, signers);
    hide Legal, Inited;
    InitsByAnyone(rules, key, space, deposit, all, k, |all|, signers);
  }

  lemma SameKinds(inits: seq<Init>, theirs: seq<Init>, k: nat)
    requires k <= |inits| && Kinds(theirs) == Kinds(inits)[k..]
    ensures |theirs| == |inits| - k && Kinds(inits[..k] + theirs) == Kinds(inits)
  {
    assert |Kinds(theirs)| == |theirs|;
  }

  lemma FinishedByAnyone(rules: Rules, key: Address, deposit: nat, inits: seq<Init>, stranger: Address, signers: set<Address>)
    requires Legal(inits)
    ensures ExecOp(rules, key, Allocated(MintLen(rules, Kinds(inits)), deposit, inits),
                   InitializeMint(stranger, Some(stranger)), signers)
         == Some(Live(inits, deposit, stranger, Some(stranger), None))
  {}

  /** What happens before the creator's next move: transactions of others, and whether the move lands. */
  datatype Slot = Slot(others: seq<(seq<MintOp>, set<Address>)>, lands: bool)

  /** The mint account among other parties. */
  class MintSite {
    const rules: Rules
    const key: Address
    const authorities: Authorities
    const payer: Address
    const script: nat -> Slot

    var account: MintAccount
    var slot: nat

    /** Between transactions the account is never half-initialized, and always pays its rent. */
    ghost predicate Valid()
      reads this
    {
      && Sound(rules) && Safe(account, authorities) && Funded(rules, account)
      && forall n: nat :: forall tx | tx in script(n).others :: Stranger(tx.1, key, authorities)
    }

    /** Others move: none of them can do anything to this account. */
    method OthersAct()
      requires Valid()
      modifies this`account
      ensures Valid() && account == old(account)
    {
      var others := script(slot).others;
      for i := 0 to |others|
        invariant account == old(account)
      {
        assert others[i] in others;
        StrangersChangeNothing(rules, key, account, others[i].0, others[i].1, authorities);
        match Transact(rules, key, account, others[i].0, others[i].1)
        case None =>
        case Some(m) => account := m;
      }
    }

    /** Sign with the payer and `keys` and submit; `ok` says whether it landed. */
    method Submit(ops: seq<MintOp>, keys: set<Address>) returns (ok: bool)
      requires Valid()
      requires var r := Transact(rules, key, account, ops, {payer} + keys); r.Some? ==> Safe(r.value, authorities)
      modifies this
      ensures Valid() && slot == old(slot) + 1
      ensures ok ==> Transact(rules, key, old(account), ops, {payer} + keys) == Some(account)
      ensures !ok ==> account == old(account)
      ensures ok <==> script(old(slot)).lands && Transact(rules, key, old(account), ops, {payer} + keys).Some?
    {
      OthersAct();
      var lands := script(slot).lands;
      slot := slot + 1;
      ok := false;
      if lands {
        match Transact(rules, key, account, ops, {payer} + keys)
        case None =>
        case Some(m) =>
          account := m;
          ok := true;
      }
    }

    /**
     The atomic initialization, then the metadata. It succeeds exactly when both land on an address not in use with
     extensions that go together, and leaves the planned mint. Whenever it fails, the account is as it was or a mint
     without metadata under the planned authorities, and paid for either way.
     */
    method CreateMint(plan: Plan, ghost inits: seq<Init>, ghost m: Metadata) returns (ok: bool)
      requires Valid() && PlanFor(rules, plan, inits, m, authorities)
      modifies this
      ensures Valid()
      ensures ok <==> && old(account).Absent? && Legal(inits)
                      && MetadataPointer in Kinds(inits) && script(old(slot)).lands && script(old(slot) + 1).lands
      ensures ok ==> account == Described(key, inits, plan.lamports, authorities, m, |m.additional|)
      ensures !ok ==> account == old(account)
                      || (old(account).Absent? && account == Bare(inits, plan.lamports, authorities))
    {
      hide Transact, PlanFor, Sound, Legal, Funded, Stranger;
      ghost var signers, signers' := {payer} + {key}, {payer} + {authorities.mint, authorities.metadata};
      InitializationOutcome(rules, key, account, plan, inits, m, authorities, signers);
      ok := Submit(plan.initialize, {key});
      if ok {
        MetadataOutcome(rules, key, plan, inits, m, authorities, signers');
        ok := Submit(plan.metadata, {authorities.mint, authorities.metadata});
      }
    }
  }

  lemma InitializationOutcome(rules: Rules, key: Address, account: MintAccount, plan: Plan, inits: seq<Init>,
                              m: Metadata, authorities: Authorities, signers: set<Address>)
    requires Sound(rules) && PlanFor(rules, plan, inits, m, authorities) && key in signers
    ensures var r := Transact(rules, key, account, plan.initialize, signers);
            && (r.Some? <==> account.Absent? && Legal(inits))
            && (r.Some? ==> r.value == Bare(inits, plan.lamports, authorities))
  {
    MintInitializesIff(rules, key, plan.space, plan.lamports, inits, authorities, signers);
    if !account.Absent? {
      CreateInUse(rules, key, account, plan.initialize, signers, |plan.initialize|);
      assert plan.initialize[..|plan.initialize|] == plan.initialize;
    }
  }

  /** Nothing that begins by creating the account goes through where there is one. */
  lemma {:induction false} CreateInUse(rules: Rules, key: Address, account: MintAccount, ops: seq<MintOp>, signers: set<Address>,
                                       k: nat)
    requires !account.Absent? && 0 < k <= |ops| && ops[0].Create?
    ensures ExecOps(rules, key, account, ops[..k], signers).None?
  {
    assert ops[..k][..k - 1] == ops[..k - 1];
    if k > 1 {
      CreateInUse(rules, key, account, ops, signers, k - 1);
    }
  }

  lemma MetadataOutcome(rules: Rules, key: Address, plan: Plan, inits: seq<Init>, m: Metadata,
                        authorities: Authorities, signers: set<Address>)
    requires Sound(rules) && PlanFor(rules, plan, inits, m, authorities) && Legal(inits)
    requires {authorities.mint, authorities.metadata} <= signers
    ensures var r := Transact(rules, key, Bare(inits, plan.lamports, authorities), plan.metadata, signers);
            && (r.Some? <==> MetadataPointer in Kinds(inits))
            && (r.Some? ==> r.value == Described(key, inits, plan.lamports, authorities, m, |m.additional|))
  {
    if MetadataPointer in Kinds(inits) {
      SizingSufficesAndIsExact(rules, key, plan, inits, m, authorities, {key}, signers, 0);
    } else {
      NoPointerNoMetadata(rules, key, plan.metadata, Bare(inits, plan.lamports, authorities), signers,
                          |plan.metadata|);
      assert plan.metadata[..|plan.metadata|] == plan.metadata;
    }
  }

  lemma {:induction false} NoPointerNoMetadata(rules: Rules, key: Address, ops: seq<MintOp>, start: MintAccount,
                                               signers: set<Address>, k: nat)
    requires 0 < k <= |ops| && ops[0].InitializeMetadata? && start.Live? && MetadataPointer !in Kinds(start.inits)
    ensures ExecOps(rules, key, start, ops[..k], signers).None?
  {
    assert ops[..k][..k - 1] == ops[..k - 1];
    if k > 1 {
      NoPointerNoMetadata(rules, key, ops, start, signers, k - 1);
    }
  }
}
