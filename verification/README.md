# Remit: a model of the client library and the agent program

The library moves a Token-2022 stablecoin: it creates the mint, clears KYC, transfers with epoch-dependent fees,
runs the confidential lifecycle, and delivers zero-knowledge proofs that are larger than a packet. The agent program
pays out of an allowance. This project models the library's own logic over an explicit chain and states what it
keeps, whatever other parties do between its moves and whichever of its transactions fail.

## How it is modelled

* `Packet` computes the size of a legacy transaction from signatures, header, distinct keys, blockhash and
  instructions, with compact-u16 lengths; `Wire` writes its bytes and reads them back. The packet limit and the proof
  lengths are symbolic, except in `Sizes` and `Counts`, which work out what 1,232 bytes and the lengths of the library's
  proofs come to.
* `Packing` cuts a line of items into consecutive batches; both record chunks and closing batches are such cuts.
* `Ledger` and `Chain` are the environment: what Token-2022, the ZK proof program, `spl-record` and the system program
  do. A ciphertext is a key and a plaintext; a proof is bytes that decode to a statement about given ciphertexts, and
  only true statements verify. A transaction runs whole or not at all.
* `ClusterModel.Cluster` is the client's side of the chain. A script, fixed but arbitrary, says before each of its
  moves which transactions other parties run, how many epochs go by, and whether its next transaction lands.
  It keeps what the client sent and which world each transaction met. `Reached` relates such a world to the start of a call:
  others led there without touching the owner's balances, and where nobody acted (`Calm`) it is the same world. `Quiet` says
  the same of whole stretches, in which no transaction of the client that landed moved tokens.
* `Acceptance` says when the chain takes the transactions of proof delivery.
* `Delivery` and `Proofs` are proof delivery: the class `ProofAccounts` with its bookkeeping, chunk loop, consuming
  transaction and clean-up. `Confidential` holds the flows that drive it, `Wallet` what a wallet computes from an account.
* `Runs`, `Compliance`, `Mandates` and `Sanctions` are state machines over all parties at once: owner flows split into a
  read and a landing, KYC requests split in the same way, agent payments and seizures among arbitrary instructions.
  `Schedule` follows the fee slots through the runs of `Runs`, `Readable` the keys an account is used with.
* `Fees`, `Transfers`, `Pending`, `Minting` are the fee schedule, public transfers and the fee sweep, decryptability of
  pending balances, and the sizing and creation of the mint. `Issue` says which ledger a created mint opens.

## What is relied on

* At most one owner flow is in flight per account, and nobody but the client signs with the watched owner's key, the
  payer's key, or a key the client generated. `Runs.TwoAppliesUnnoticed` shows that two applies of one account in
  flight at once are outside what the counters can tell.
* In `Runs` accounts apply, transfer confidentially and withdraw through the library only. Deposits, public transfers,
  issuer and agent instructions come from anyone, with any signers.
* In `Compliance` the freeze authority signs only what the library prepared; everyone else may do anything.
* Hashing the seeds of a mandate address has no collisions, nobody holds a key of such an address, and the owner does
  not hand the account itself to it.
* The rotation of the older fee slot and the subtraction of a confidential fee from each half of the amount are the
  token program's rules, written in `Ledger` and `Fees` as such.
* Rent does not shrink when an account grows.
* The lengths of the token program's instructions and the accounts they name are those of its interface, which is not part
  of the repository; `Sizes` and `Counts` rest on them, and `Minting.StablecoinSizes` on the lengths of its extensions.
* An extension that is already initialized is not initialized again. This is a rule of the environment in
  `Minting.ExecOp`, chosen by the model: the library lists no extension twice, and its source does not say what the token
  program does with such a list.

## Model

| member | source | states |
|---|---|---|
| Packet.SizeMonotone | remit/src/cluster.rs:58-69 | a transaction naming no further key or signer and carrying no longer body is no larger |
| Wire.RoundTrip | remit/src/cluster.rs:58-64 | the bytes of a transaction, every list behind its compact-u16 length, can be read back: none of the lengths can be missing |
| Wire.SizeIsSerialized | remit/src/cluster.rs:58-64 | the size computed is the number of these bytes, whatever order the keys are put in |
| Wire.WhatFitsIsSent | remit/src/cluster.rs:66-69 | what fits can be written as such a message, and its bytes are within the limit |
| Packet.SubBatchSize | remit/src/cluster.rs:58-69 | dropping instructions at either end of a batch never makes the transaction larger, although keys are shared |
| Packet.DataLenMonotone | remit/src/cluster.rs:58-64 | size grows with the data of the last instruction through every jump of the length encoding |
| Packing.GreedyIsOptimal | remit/src/proofs.rs:321-334 | greedy cutting uses the fewest batches whenever parts of allowed batches are allowed |
| ClusterModel.Cluster.Send | remit/src/cluster.rs:43-55 | all or nothing; refused when too large; an error means it did not land, because it is too large, lost, or refused; the world it met was reached by others alone, is the one the client left if nobody else acted, and is on record; other parties leave the client's proof accounts and the owner's balances alone; supply is conserved |
| Chain.OthersKeep | remit/src/proofs.rs:21-28 | whatever transactions others run, the client's finished proof accounts stay exactly as they were, and the owner's accounts see credits only |
| Rely.OthersDoNotDisturb | remit/src/confidential.rs:15-17 | without the owner's signature no instruction moves the available balance, the decryptable copy or the counters of its last apply; the pending balance moves only together with the credit counter |
| Proofs.LargestChunk | remit/src/proofs.rs:361-373 | the binary search returns the longest prefix whose transaction fits, 0 when no non-empty one does |
| Sizes.RangeProofNotNextToCreate | remit/src/proofs.rs:440-451 | a proof of 936 bytes does not fit next to the creation of its context |
| Sizes.RangeProofFitsAlone | remit/src/proofs.rs:440-451 | without the creation it fits |
| Sizes.LargestProofFitsNowhere | remit/src/proofs.rs:454-461 | a proof of 1,064 bytes fits no transaction, whatever else is in it |
| Sizes.SmallProofFits | remit/src/proofs.rs:10-19 | proofs of up to 544 bytes fit next to the creation of their context |
| Sizes.CutInTwo | remit/src/proofs.rs:168-197 | at 1,232 bytes a range proof takes one transaction of at least 856 bytes, exactly 856 if the keys differ, and a tail |
| Delivery.VerifyTxEffect | remit/src/proofs.rs:105-134 | when the transaction lands the context appears already holding its proof under the payer's authority |
| Proofs.ProofAccounts.Verify | remit/src/proofs.rs:105-134 | on success exactly that transaction landed and the bookkeeping gained that context; refused locally exactly when it does not fit; otherwise it fails only if the network loses it or the proof is false |
| Proofs.ProofAccounts.StageFromRecord | remit/src/proofs.rs:136-213 | exactly the chunk transactions of a greedy cut of the proof landed, the last chunk kept back completes the record to the proof bytes; it fails only if the record or some single byte fits no transaction, or the network loses one |
| Proofs.ProofAccounts.FillRecord | remit/src/proofs.rs:181-197 | the loop advances strictly and leaves contiguous chunks from 0 to the end of the proof, each fitting |
| Delivery.ChunkingIsMinimal | remit/src/proofs.rs:168-197 | no other chunking whose transactions all fit takes fewer of them |
| Delivery.StagedVerifies | remit/src/proofs.rs:230-241 | for any number of staged proofs, tails riding along or written before, every staged context ends up holding exactly its proof |
| Delivery.ConsumeEffect | remit/src/proofs.rs:230-259 | in the consuming transaction every proof is in place before the use, the use acts on the ledger it met, and every listed account is gone after it |
| Acceptance.ConsumeAccepted | remit/src/proofs.rs:230-259 | with true proofs the consuming transaction lands if and only if the use does where every context holds its proof |
| Acceptance.StagedAccepted | remit/src/proofs.rs:230-241 | any number of staged true proofs are verified in one transaction, tails included |
| Delivery.ConsumeBudget | remit/src/proofs.rs:230-259 | the compute limit asked for is the overhead plus the budget of every instruction in the transaction |
| Delivery.StrippedConsume | remit/src/proofs.rs:261-274 | once tails are written the rebuilt transaction is the one without them |
| Delivery.TailsInOrder | remit/src/proofs.rs:261-271 | there are as many tail transactions as tails kept back, and each comes at the place its proof was staged in |
| Delivery.VerifyBudget | remit/src/proofs.rs:115-123 | the limit of a verification covers it |
| Proofs.BatchBudget | remit/src/proofs.rs:339-342 | so does that of every closing batch |
| Proofs.ProofAccounts.Build | remit/src/proofs.rs:230-259 | the loops assemble the specified transaction with the specified budget |
| Proofs.ProofAccounts.SendTails | remit/src/proofs.rs:261-274 | the tails kept back land one by one, in order, and complete their records |
| Proofs.ProofAccounts.Consume | remit/src/proofs.rs:215-289 | if the whole fits with its tails it is the first transaction sent, on success the only one, and everything sent after it cleans up; if it does not, every tail lands once and in order before the transaction without them; on success the instructions met every context holding its proof, once, in the epoch the chain is left in, and nothing is left; on failure no token moved, the error is that of the first send that failed, and nothing is left unless a closing transaction is lost; it fails only if the transaction without tails does not fit, a transaction sent is lost, a proof is false, or the use itself is refused in a world that a transaction of the call met |
| Delivery.ClosingAccepted | remit/src/proofs.rs:302-319 | the chain never refuses to close what the bookkeeping lists |
| Proofs.ProofAccounts.CloseAfter | remit/src/proofs.rs:291-300 | an error comes back as it was whatever closing does; nothing is sent but closing instructions; if none of them fails no proof account is left; one fails only when the network loses it |
| Proofs.ProofAccounts.Close | remit/src/proofs.rs:302-335 | every closing instruction is sent once, in order, in a greedy packing whose batches fit or are single |
| Delivery.ClosingIsMinimal | remit/src/proofs.rs:321-341 | no order-preserving partition into allowed batches is shorter |
| Wallet.DecryptLoHiExact | remit/src/confidential.rs:97-116 | decryption of a pair succeeds exactly when both halves are in 32 bits under the right key, and is then exact |
| Wallet.StaleRefused | remit/src/confidential.rs:118-143 | unequal counters refuse the apply and every spend |
| Wallet.PreparedApply | remit/src/confidential.rs:286-305 | the prepared apply claims the true balance, within u64, and the counter of the credits it counted |
| Wallet.SpendableExact | remit/src/confidential.rs:481-487 | what may be spent is the true available balance, so what is left stays in u64 |
| Wallet.SpendableIff | remit/src/confidential.rs:479-487 | the owner of an agreeing account may spend an amount exactly when it is available and the account is not stale |
| Wallet.PrepareApplyIff | remit/src/confidential.rs:286-288 | and apply exactly when it is not stale and both pending halves decrypt |
| Wallet.ApplyExecuted | remit/src/confidential.rs:280-307 | an apply executed after others moved leaves the account agreeing again, and stale exactly when a credit came in between |
| Confidential.DepositFlow | remit/src/confidential.rs:256-276 | exactly one deposit lands or none: the amount leaves the public balance and arrives pending as one credit, split at 16 bits; it fails only if the account is missing, the transaction does not fit, is lost, or the program refuses it in the world the call ends in, which is the one it started from if nobody else acted; then a deposit that may be made (`MayDeposit`) is made unless it is lost |
| Confidential.ApplyPendingBalance | remit/src/confidential.rs:278-307 | refused before sending when stale; otherwise exactly one apply lands or none, and the balance returned is the one on chain unless a credit came in between, and then the account is marked; it fails only if nothing could be prepared, the transaction does not fit or is lost, or the account is not usable where the call ends; if nobody else acts and it is not lost, what is pending is applied whenever the counters agree, the copy is the owner's and both halves decrypt (`MayApply`) |
| Confidential.ContextsStand | remit/src/confidential.rs:438-453 | contexts holding the generated proofs stand for exactly the statements they were generated for, in order |
| Confidential.TransferMoves | remit/src/confidential.rs:379-407 | a transfer the program accepts moved the amount at the fee in force out of a balance that was what the client claimed |
| Confidential.TransferFlow | remit/src/confidential.rs:336-469 | nothing is sent, and no send fails, when stale or short; on success exactly one transaction of the flow moved tokens, in the epoch the chain is left in, the receipt names the fee and the epoch it was computed for, the auditor reads the amount, and no proof account is left; on failure none moved, and it fails only if source or destination cannot take part, a transaction does not fit, one sent is lost, the amount or balance quoted cannot be proven, or the program refuses the quoted transfer in a world a transaction of the call met; if nobody else acts and nothing is lost, a transfer that fits, of no more than is available in an account whose counters agree, succeeds (`MaySend`); at 1,232 bytes it takes seven transactions if its keys differ, and six or seven otherwise |
| Confidential.TransferRefusedIff | remit/src/confidential.rs:379-407 | it is refused exactly when an account cannot take part, the amount reaches 2^48, or the balance or the fee quoted is no longer the true one |
| Confidential.QuoteHolds | remit/src/confidential.rs:379-407 | the five statements of a quote can be proven exactly when the balance decrypted is the one on chain, amount and fee are below 2^48, and the fee is that of the rate |
| Confidential.WithdrawFlow | remit/src/confidential.rs:471-499 | the same for a withdraw, with `MayWithdraw`; at 1,232 bytes it takes two transactions; the owner's copy agrees with the chain afterwards |
| Confidential.WithdrawRefusedIff | remit/src/confidential.rs:508-553 | it is refused exactly when the account is not usable or the claimed balance is not the one it holds |
| Confidential.TransferTakes | remit/tests/task6_confidential.rs:144-152 | a transfer that landed within 1,232 bytes took six or seven transactions, and seven when no keys coincide |
| Confidential.WithdrawTakesTwo | remit/tests/task6_confidential.rs:210-220 | a withdraw took one transaction for the record and one for everything else, whichever keys coincide |
| Confidential.WithdrawAgainst | remit/src/confidential.rs:501-553 | proofs against any claimed ciphertext are accepted only if the claim is the available balance at that moment; on failure the program refused them in a world a transaction of the call met, unless something does not fit, is lost, or cannot be claimed at all |
| Conservation.ExecConserves | remit/src/confidential.rs:256-553 | no instruction makes or loses tokens: balances, pending, available and withheld amounts and the mint's fees add up to the supply, and none goes negative |
| Conservation.ConfidentialTransferConserves | remit/src/confidential.rs:336-469 | so does a confidential transfer, to oneself included |
| Conservation.BalanceWithinSupply | remit/src/confidential.rs:289 | sums within one account stay in u64 |
| Runs.RunKeeps | remit/src/confidential.rs:118-143 | conservation and agreement hold after any interleaving of owner flows, credits, issuer actions and epochs |
| Runs.Agreement | remit/src/confidential.rs:280-307 | in every reachable state equal counters mean the decryptable balance is the available one, and the arithmetic of the next flow stays in u64 |
| Readable.UsableInEveryState | remit/src/confidential.rs:118-143 | in every reachable state of an account used with one pair of keys any amount up to what is available can be spent and no more, unless the account is stale, and what is pending can be applied unless it is stale or does not decrypt |
| Runs.StaleIffCreditBetween | remit/src/confidential.rs:280-307 | an apply that lands leaves its account stale exactly when a credit arrived between its read and its landing |
| Runs.StaleForGood | remit/src/confidential.rs:125-137 | from then on no flow starts on the account, in any run |
| Runs.TwoAppliesUnnoticed | remit/src/confidential.rs:291-296 | from any state with one credit pending, two applies in flight and one deposit between their landings leave equal counters and a wrong copy |
| Pending.PendingDecrypts | remit/src/confidential.rs:66-68 | in every reachable state the low half is below 2^32 and the high half is not negative; a pending balance decrypts, to exactly what its credits brought, if and only if the low 16 bits of the fees since the last apply add up to no more than the low 16 bits of the amounts and the rest of the balance is below 2^48, and otherwise fails with a decryption error |
| Pending.LoneTransferDecrypts | remit/src/confidential.rs:104-116 | a transfer that finds nothing pending decrypts if and only if the fee's low 16 bits are no more than the amount's, which the sender can tell beforehand |
| Pending.RunPiles | remit/src/confidential.rs:66-68 | half by half, the pending balance is the sum of the deposits and transfers since the last apply, each less its fee |
| Pending.DepositsDecrypt | remit/src/confidential.rs:104-116 | an account credited by its own deposits alone always decrypts its pending balance below 2^48 |
| Pending.ReceivedMayNotDecrypt | remit/src/confidential.rs:104-116 | a run of the library's flows in which 65,536 units are sent at 25 basis points ends with a recipient holding 65,372 pending that can be neither read nor applied |
| Fees.FeeWithinAmount | remit/src/transfer.rs:42-54 | a legal rate never charges more than the amount or the cap, and charges nothing exactly when rate, amount or cap is zero |
| Fees.FeeIsLeast | remit/src/transfer.rs:42-54 | the fee is the least number of units that covers the basis points of the amount, or the maximum if that is less |
| Fees.FeeMonotone | remit/src/transfer.rs:42-54 | a larger amount is never charged less |
| Fees.ExpectedFeeRefusals | remit/src/transfer.rs:49-54 | the fee is refused exactly when the mint has no schedule |
| Fees.TwoSlotsRefineHistory | remit/src/transfer.rs:6-10 | after any history of rate changes the two slots charge what the whole history prescribes |
| Schedule.RunChargesHistory | remit/src/transfer.rs:6-10 | after any run of flows, transfers, issuer actions and epochs the mint's slots are those of the `SetTransferFee` calls the program accepted, in the epochs it accepted them, and the rate charged next is the one that history prescribes |
| Schedule.StepFees | remit/src/transfer.rs:86-104 | nothing but an accepted `SetTransferFee` changes the schedule |
| Fees.GovernsOneRate | remit/src/transfer.rs:6-10 | a history prescribes one rate per epoch |
| Fees.CallTakesTwoEpochs | remit/src/transfer.rs:86-104 | a change leaves its own epoch and the next alone and rules from the one after |
| Transfers.TransferWithFee | remit/src/transfer.rs:56-84 | exactly that one transfer lands or none; what lands is charged the fee of the epoch it lands in; the recipient gets amount less fee, the rest is withheld there; a transfer to oneself moves nothing; the epoch reported is the one read; it fails only if the source is missing, the transaction does not fit or is lost, or the program refuses it in the world the call ends in; if nobody else acts and it is not lost, a transfer that may be made (`MayTransfer`) is made |
| Transfers.SetRate | remit/src/transfer.rs:86-104 | exactly one call lands or none, and the schedule after it charges the old rate in the epoch of landing and the next, then the new one; it fails only if it does not fit, is lost, or the rate or the signer is not legal |
| Transfers.HarvestExact | remit/src/transfer.rs:112-129 | the sweep empties exactly the distinct listed accounts into the mint |
| Transfers.CollectFees | remit/src/transfer.rs:106-131 | one sweep lands or none; the treasury receives what the distinct sources and the mint withheld, all of which is zero then; the amount reported is that revenue plus what others moved into or out of the treasury between the two reads, modulo 2^64; it fails only if the treasury is missing or frozen, the signer is wrong, or the transaction does not fit or is lost; if nobody else acts and it is not lost it succeeds, and reports the revenue at the start |
| Agent.Pack | programs/remit-agent/src/lib.rs:86-107 | packed data is a zero byte and the amount in eight bytes, the i-th of them counting 256^i; it unpacks to the amount, and no other data does |
| Agent.UnpackWeighs | programs/remit-agent/src/lib.rs:97-107 | nine bytes with a leading zero unpack, to the sum of their weights, and nothing else does |
| Agent.MandateAddressBinds | programs/remit-agent/src/lib.rs:110-122 | a mandate address belongs to one source, destination and amount |
| Mandates.PaysItsMandate | programs/remit-agent/src/lib.rs:125-190 | paying as this mandate address means the call names source, mint, destination, mandate address and token program in this order, and the amount |
| Mandates.PaymentEffect | programs/remit-agent/src/lib.rs:5-20 | one payment takes exactly the amount from the source and the allowance, and all of it reaches the destination, spendable or withheld |
| Mandates.MandateBound | programs/remit-agent/src/lib.rs:5-20 | over any run until the next approval k payments move k times the amount, all to the destination, and what is left of the allowance covers the difference |
| Mandates.ApprovalBound | programs/remit-agent/src/lib.rs:12-14 | from the owner's approval of an amount on, payments come to no more than that amount |
| Mandates.CountBoundedIff | programs/remit-agent/src/lib.rs:12-14 | from any state in which a mandate of a positive amount can be paid, the number of payments is bounded by allowance / amount over every run if and only if source and destination differ |
| Mandates.FreePaymentsRepeat | programs/remit-agent/src/lib.rs:12-14 | a mandate of an account to itself, or of nothing, can be paid any number of times |
| Mandates.NothingPaidForEver | programs/remit-agent/src/lib.rs:12-14 | a mandate of amount zero draws nothing however often it is paid |
| Mandates.PaymentGoesThrough | programs/remit-agent/src/lib.rs:15-20 | a call pays exactly when it names the five accounts in order and the amount, both token accounts are open and thawed, and balance and allowance cover it; CPI Guard plays no part |
| Mandates.RefusalsInOrder | programs/remit-agent/src/lib.rs:125-190 | each of the program's errors is returned exactly when its check is the first that fails, and the fee never overflows at a legal rate |
| Compliance.ApproveKyc | remit/src/kyc.rs:26-57 | only a frozen account with an immutable owner is thawed, by the one transaction that lands, and it then belongs to the owner that was read; it fails only if the account does not qualify, was thawed meanwhile, the signer is wrong, or the transaction does not fit or is lost; if nobody else acts and it is not lost, one that qualifies is thawed |
| Compliance.RevokeKyc | remit/src/kyc.rs:59-78 | only a thawed account is frozen, and nothing else changes; it fails, and succeeds, for the corresponding reasons |
| Compliance.SetDefaultAccountState | remit/src/kyc.rs:80-97 | no existing account changes; it fails only if the signer is wrong or the transaction does not fit or is lost |
| Compliance.OutsideKeeps | remit/src/kyc.rs:3-10 | without the freeze authority nobody thaws, freezes, replaces an immutable owner or moves a frozen account's funds |
| Compliance.ThawedMeansApproved | remit/src/kyc.rs:26-57 | while new accounts start frozen, every thawed account in any reachable state was approved and still belongs to whom it belonged to then |
| Compliance.FrozenMeansFixed | remit/src/compliance.rs:3-8 | until an approval lands, a frozen account keeps its owner and confidential balances, and its public balance shrinks by exactly what was seized |
| Compliance.SeizureLands | remit/src/compliance.rs:50-60 | thaw, transfer and freeze in one transaction do what a transfer does and leave the account as frozen as it was |
| Compliance.Seize | remit/src/compliance.rs:25-62 | on success exactly that transaction landed, on an account as frozen as it was read, at the fee of the epoch it landed in; it fails only if the account is missing, the transaction does not fit or is lost, or the program refuses it in the world the call ends in; if nobody else acts and it is not lost, a seizure that may be made (`MaySeize`) is made |
| Sanctions.OutOfReach | remit/src/compliance.rs:7-8 | over any run without the owner's signature, whoever else signs: the available balance stays, the pending one never falls, both stay in the supply, and all that is taken from the account is at most what it held in public plus later public credits |
| Sanctions.DepositFirst | remit/tests/finding_sanctions_race.rs:27-129 | a deposit that lands first is still there after any such run, a transfer or burn of more than what is left in public is refused for everyone, and the mint keeps supply |
| Sanctions.FreezeFirst | remit/tests/finding_sanctions_race.rs:132-160 | a freeze that lands first: until the freeze authority signs again the deposit is refused whoever signs it, and neither balance of the account changes |
| Sanctions.SeizureAcceptedIff | remit/src/compliance.rs:50-60 | the seizure of a frozen account is accepted exactly when the destination can receive and the amount is no more than the public balance |
| Minting.PlanFromInits | remit/src/mint.rs:289-351 | allocation, funding and both transactions are those planned for the extension list and metadata |
| Minting.MintInitializesIff | remit/src/mint.rs:3-17 | under the rule that no extension is initialized twice, the mint comes into being exactly when every extension is listed once, the combination is legal and the allocation is to the byte theirs |
| Minting.WrittenLen | remit/src/mint.rs:332-340 | the fields on chain never take more than was counted, and as much exactly when no key is listed twice |
| Minting.SizingSufficesAndIsExact | remit/src/mint.rs:290-361 | the mint pays for itself after every metadata instruction; the final size is the planned one, and the metadata the planned metadata, exactly when no key is listed twice |
| Minting.ListedTwiceIsShort | remit/src/mint.rs:332-340 | metadata listing the key "a" with "x" and with "yy" ends up with the second alone, ten bytes smaller than planned and funded for |
| Minting.EntryLen | remit/src/mint.rs:353-361 | the bytes counted for the metadata are those of its entry on chain, with its four-byte header |
| Minting.StablecoinSizes | README.md:37 | the first issue is allocated 387 bytes, and ends up with 622 with its metadata |
| Minting.BothIssuesQualify | remit/src/mint.rs:19-25 | both issues' extension lists initialize; fee plus confidential transfers without the confidential fee extension never does |
| Minting.StrangersChangeNothing | remit/src/mint.rs:11-17 | between the transactions of a creation nobody else can touch the account |
| Minting.HalfInitializedIsOpen | remit/src/mint.rs:11-17 | after any number of the planned inits a transaction without the mint's keys, with inits of its own for the rest, takes the funded account over |
| Minting.PlanV1 | remit/src/mint.rs:206-248 | the first issue plans its four extensions in initialization order, with the rate, the frozen default and each authority in its place |
| Minting.PlanV2 | remit/src/mint.rs:374-385 | the re-issue plans the first issue's inits carried forward, then the three added ones, with their delegate, manual approval and keys |
| Issue.CreateV1 | remit/src/mint.rs:400-409 | the first issue is created exactly when both transactions land on an unused address; the mint then opens an empty ledger that freezes every account opened, charges the planned rate, and obeys each authority in its own matter and nobody else; nobody can seize, and there are no confidential accounts |
| Issue.CreateV2 | remit/src/mint.rs:412-422 | the same for the re-issue, in which the permanent delegate seizes without the owner, accounts are admitted by hand by the planned authority, and the auditor and the key of withheld fees are the planned ones |
| Issue.DeskFromIssue | remit/src/mint.rs:235-238 | from a mint so created on, every thawed account was approved |
| Issue.NoConfidentialAccounts | remit/src/mint.rs:19-25 | without the confidential extension no account can be configured |
| Minting.MintSite.CreateMint | remit/src/mint.rs:387-397 | creation succeeds exactly when both transactions land on an unused address with extensions that go together; a failure leaves nothing or a paid mint under the planned authorities |

## Findings

* A confidential transfer can arrive in a form the recipient cannot decrypt on its own: the fee is subtracted from each
  half, so the low half can go negative although the amount received is positive. A single transfer decrypts if and only
  if `fee % 2^16 <= amount % 2^16` (`Pending.LoneTransferDecrypts`); over a run the same holds of the sums of these
  remainders since the last apply, and the balance less what they leave has to be below 2^48 (`Pending.PendingDecrypts`). `Pending.ReceivedMayNotDecrypt` is a whole run in which it
  fails. The high half is never negative, and deposits below 2^48 are never affected (`Pending.DepositsDecrypt`).
* The metadata a mint ends up with is the planned one, and its rent exact, only if no additional key is listed twice;
  otherwise it is over-funded and a later value replaces an earlier one (`Minting.SizingSufficesAndIsExact`);
  `Minting.ListedTwiceIsShort` is such a list.
* The sanctions race is decided by which transaction lands first. After the deposit nobody but the owner gets at what it
  moved, ever (`Sanctions.OutOfReach`, `Sanctions.DepositFirst`); after the freeze the deposit is refused and the whole
  public balance can be seized (`Sanctions.FreezeFirst`, `Sanctions.SeizureAcceptedIff`).
* The number of payments of a mandate is at most `allowance / amount` if and only if it is not of an account to itself
  (`Mandates.CountBoundedIff`): such a payment moves nothing and consumes none of the allowance, so it can be repeated any
  number of times (`Mandates.FreePaymentsRepeat`). A mandate of amount zero promises nothing either: out of an allowance
  that is not used up it can be paid for ever, and draws nothing (`Mandates.NothingPaidForEver`).

## Left out

- Elliptic-curve arithmetic, proof generation and key derivation: ciphertexts and proofs are ideal.
- Account decoding (`remit/src/state.rs`): snapshots are the model's state. Logs, receipts and error texts likewise.
- `remit/src/token.rs` beyond the instructions it builds, which are ledger steps here.
- Collecting confidentially withheld fees, which the library does not do.
- Closing token accounts and the mint: the library closes no token account, and `close_mint` is a single instruction.
- Token-2022 pads an account length that collides with that of a multisig; that rule is the token program's own and is
  not modelled in `Minting`.
- Lamport balances other than those of the mint: rent of proof accounts is not counted, only that the accounts are gone.
- The signature count is one byte, as in `transaction_size`, which holds below 128 signatures.
- Minting.MintInitializesIff: says nothing of a list with an extension in it twice beyond the model's own rule that the
  second init is refused; the cited lines leave that to the token program.
- Confidential.WithdrawAgainst: does not promise anything about the owner's copy after a claim that was not read from
  the account; the guarantee about the copy is that of `WithdrawFlow`.
- The program's rule on extension combinations beyond the case the library's lists can meet: fees and confidential
  transfers together need the confidential fee extension.
- The test-only CPI Guard probe, the test harness, scripts and the Makefile.
