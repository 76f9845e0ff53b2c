# A verified model of the ICON service core

This project is a Dafny model of the sequential core of the ICON service
(`iconservice`), with proofs about that model. It covers five parts.

- **Step counter** (`step.dfy`, module `Step`). This is gas-style
  accounting.
  - A factory holds the step units, and every counter it creates starts at
    `default_step`.
  - Each `increase_*` charge costs a quantity times its own unit. A charge
    either adds exactly its cost or raises `OutOfStepException` and changes
    nothing.
  - The limit check reads the clamped accessor `step_used`, but the
    addition goes to the raw field.
- **Merkle tree** (`merkle.dfy`, module `Merkle`).
  - Levels are built bottom-up. Adjacent pairs are hashed, and an odd
    trailing node is carried up unchanged.
  - The tree extracts proofs and validates them by a fold. The hash
    (SHA3-256) is a parameter, so every lemma holds for any hash function.
  - The headline lemma is `ProofValidatesAgainstRoot`: a proof for leaf i
    validates against the root. `MerkleTree.GetProof` and
    `MerkleTree.GetMerkleRoot` return exactly that proof and that root once
    the tree is made.
- **Service engine** (`engine_spec.dfy`, `engine_props.dfy`, `engine.dfy`,
  and `address.dfy` for address derivation).
  - The ICX engine and the score engine are abstracted: each call to them
    either returns or raises. The block batch, the transaction batch and
    the block result are sequences in the context, updated in place.
  - `EngineSpec` gives the dispatch as functions over a world state and a
    context:
    - the handler table;
    - `call`, `query`, `invoke` and `genesis_invoke`;
    - the sendTransaction handler and score invocation;
    - the transaction-info setter.
  - `ServiceEngine.IconServiceEngine` implements the same operations as
    methods that update an `IconScoreContext` in place. Each method is proved
    equal to its specification function.
  - `EngineProperties` proves what the engine promises:
    - which exceptions `call` swallows;
    - one result per completed send;
    - a merge only on SUCCESS;
    - in-order, stop-at-first-raise processing of a block;
    - the install path's contract address.
- **Exceptions** (`exception.dfy`, module `Exceptions`). This covers:
  - the exception codes;
  - `ExceptionCode.__str__`;
  - the messages and renderings of the exception classes;
  - the `check_exception` rule: return, swallow a service exception, or
    re-raise anything else.
- **Utilities** (`utils.dfy`, `text.dfy`, `common.dfy`). These are:
  - `is_lowercase_hex_string`;
  - the return value of `trace`;
  - decimal and hex text helpers, with their round trips.

Python's two families of exceptions are kept apart. Service exceptions
(`IconServiceBaseException`, which derives from `BaseException`) are
`Raised.Service`. Ordinary ones (`KeyError`, `TypeError`, ...) are
`Raised.Ordinary`. `except Exception` catches only the second family.

Where the code disagrees with its own docstrings and signatures, the model
follows the code:

- `_handle_icx_getTotalSupply` takes one argument but `call` passes two.
  Through `call` it therefore always yields `None`
  (`EngineProperties.TotalSupplyNeverAnswers`).
- A service exception raised by the ICX engine's transfer escapes `call`,
  and `invoke` stops at it. Later transactions are not run, and the
  transaction batch is not cleared for that transaction.
- `invoke` is annotated `-> list` and documented to return "the results of
  transactions", but it has no `return`, so it returns nothing. `_set_tx_info_to_context` is never called by
  `invoke`, so an install's address can be derived only from a context
  whose transaction was set beforehand. Otherwise the install fails.
- `genesis_invoke` reads only the first two accounts.

## Model

| member | source | states |
|---|---|---|
| Step.Clamped | iconservice/iconscore/icon_score_step.py:150-159 | the accessor's value is never negative, equals the raw field when that is non-negative, and is 0 otherwise |
| Step.ChargeOutcome | iconservice/iconscore/icon_score_step.py:199-207 | a charge succeeds iff requested + clamped used <= limit; on success the raw value grows by exactly requested; otherwise OutOfStepException(limit, clamped used, requested) is raised |
| Step.ChargeStaysWithinLimit | iconservice/iconscore/icon_score_step.py:203-207 | after a successful charge the raw value is within the limit, and so is the accessor's value when the limit is non-negative |
| Step.NegativeLimitAccessorAboveLimit | iconservice/iconscore/icon_score_step.py:150-207 | a negative limit with a negative charge succeeds, yet the accessor then reports more than the limit |
| Step.ClampedCheckIsStricter | iconservice/iconscore/icon_score_step.py:203-206 | with a negative raw value, a charge the raw sum would allow is refused because the check uses the clamped value |
| Step.OutOfStepReportsRemaining | iconservice/iconscore/icon_score_step.py:84-90 | a refused charge raises OutOfStepException whose fields are the limit, the clamped used value and the request, and whose message is the remaining-steps text |
| Step.ChargeAllSucceedsIffTotalFits | iconservice/iconscore/icon_score_step.py:199-207 | for non-negative costs from a non-negative start, a sequence of charges all succeed iff their total fits the limit, and the result is the start plus the total |
| Step.ChargeAllStopsAtFailure | iconservice/iconscore/icon_score_step.py:203-205 | once one charge of a sequence is refused, the sequence ends with that refusal whatever follows |
| Step.StepCounter.constructor | iconservice/iconscore/icon_score_step.py:121-148 | a counter starts at the default step, with the given limit and units |
| Step.StepCounter.StepUsed | iconservice/iconscore/icon_score_step.py:150-159 | the accessor is never negative and equals the raw field when that is non-negative |
| Step.StepCounter.IncreaseStep | iconservice/iconscore/icon_score_step.py:199-207 | the outcome is ChargeOutcome of the old raw value; on success the raw field grows by exactly requested and the new value is returned; on a raise the field is unchanged |
| Step.StepCounter.IncreaseSsetStep | iconservice/iconscore/icon_score_step.py:169-172 | charges data size times the sset unit, with the field updated only on success |
| Step.StepCounter.IncreaseSreplaceStep | iconservice/iconscore/icon_score_step.py:174-177 | charges data size times the sreplace unit, with the field updated only on success |
| Step.StepCounter.IncreaseSdeleteStep | iconservice/iconscore/icon_score_step.py:179-182 | charges data size times the sdelete unit, with the field updated only on success |
| Step.StepCounter.IncreaseTransferStep | iconservice/iconscore/icon_score_step.py:184-187 | charges count times the transfer unit, with the field updated only on success |
| Step.StepCounter.IncreaseMsgcallStep | iconservice/iconscore/icon_score_step.py:189-192 | charges count times the msgcall unit, with the field updated only on success |
| Step.StepCounter.IncreaseEventlogStep | iconservice/iconscore/icon_score_step.py:194-197 | charges data size times the eventlog unit, with the field updated only on success |
| Step.StepCounterFactory.constructor | iconservice/iconscore/icon_score_step.py:23-48 | the factory stores the default step and the six units |
| Step.StepCounterFactory.Create | iconservice/iconscore/icon_score_step.py:50-64 | a fresh counter starting at the default step, with the requested limit and the factory's units |
| Merkle.NextLevel | iconservice/utils/hashing/merkle_tree.py:55-67 | a level above n nodes has ceil(n/2) nodes, fewer than n when n > 1 |
| Merkle.Levels | iconservice/utils/hashing/merkle_tree.py:69-75 | the levels end with the leaves and begin with a single node |
| Merkle.LevelsShape | iconservice/utils/hashing/merkle_tree.py:69-75 | every level below the top has more than one node, and the level above it is its NextLevel |
| Merkle.NextLevelAtHalf | iconservice/utils/hashing/merkle_tree.py:58-66 | node i/2 of the next level is node i folded with its proof step: a hashed pair, or the odd trailing node unchanged |
| Merkle.OddTrailingNodeSkipsLevel | iconservice/utils/hashing/merkle_tree.py:95-97 | the odd trailing node is carried up unchanged and contributes no proof entry at that level |
| Merkle.LevelsTopIsRoot | iconservice/utils/hashing/merkle_tree.py:77-84 | the top level is the single root node |
| Merkle.SingleLeafTree | iconservice/utils/hashing/merkle_tree.py:69-84 | a one-leaf tree has that leaf as root, one level and an empty proof |
| Merkle.ProofLength | iconservice/utils/hashing/merkle_tree.py:93-104 | a proof has at most one entry per non-root level |
| Merkle.ValidateProof | iconservice/utils/hashing/merkle_tree.py:106-123 | an empty proof is valid iff target equals root; otherwise the proof is valid iff folding it from the target reaches the root |
| Merkle.FoldAppend | iconservice/utils/hashing/merkle_tree.py:112-123 | folding a concatenated proof is folding its parts in turn |
| Merkle.FoldProofReachesRoot | iconservice/utils/hashing/merkle_tree.py:86-123 | folding the proof of leaf i from that leaf yields the root |
| Merkle.ProofValidatesAgainstRoot | iconservice/utils/hashing/merkle_tree.py:86-123 | for every leaf list and valid index, the proof of leaf i validates leaf i against the root |
| Merkle.Prepared | iconservice/utils/hashing/merkle_tree.py:34-44 | leaf preparation keeps one leaf per value, in order |
| Merkle.SiblingStep | iconservice/utils/hashing/merkle_tree.py:95-103 | one level's proof entry: the left sibling for an odd index, the right sibling for an even index with one, none for the odd trailing node |
| Merkle.WalkLevels | iconservice/utils/hashing/merkle_tree.py:90-104 | the walk from the bottom level to the one below the root collects exactly the leaf's proof |
| Merkle.MerkleTree.constructor | iconservice/utils/hashing/merkle_tree.py:23-27 | an empty, unready tree with no levels |
| Merkle.MerkleTree.ResetTree | iconservice/utils/hashing/merkle_tree.py:29-32 | the tree is empty, unready, with no levels |
| Merkle.MerkleTree.AddLeaf | iconservice/utils/hashing/merkle_tree.py:34-44 | the leaves are the old leaves followed by the new values (hashed when asked), in order; the tree becomes unready |
| Merkle.MerkleTree.CalculateNextLevel | iconservice/utils/hashing/merkle_tree.py:55-67 | the next level of the current top is put in front of the levels; nothing else changes |
| Merkle.MerkleTree.MakeTree | iconservice/utils/hashing/merkle_tree.py:69-75 | the tree is ready and its levels are exactly Levels of the leaves, or none for no leaves |
| Merkle.MerkleTree.GetMerkleRoot | iconservice/utils/hashing/merkle_tree.py:77-84 | the root when the tree is ready and has leaves, otherwise None |
| Merkle.MerkleTree.GetProof | iconservice/utils/hashing/merkle_tree.py:86-104 | None unless the tree is ready and the index is within the leaves; otherwise exactly the proof that ProofValidatesAgainstRoot validates |
| Exceptions.CodeValuesDistinct | iconservice/base/exception.py:24-41 | exception code values are pairwise distinct |
| Exceptions.CodeToString | iconservice/base/exception.py:43-47 | INVALID_REQUEST renders "Invalid Request"; any other code renders as its name, with the first letter upper, the rest lower and underscores as spaces |
| Exceptions.CodeToStringMatchesTable | iconservice/base/exception.py:43-47 | each code renders to its readable name, e.g. NOT_ENOUGH_BALANCE to "Not enough balance" |
| Exceptions.CodeToStringInjective | iconservice/base/exception.py:43-47 | distinct codes render distinctly |
| Exceptions.InvalidRequestSpecialCase | iconservice/base/exception.py:44-45 | the general rule would give "Invalid request"; the special case gives something else |
| Exceptions.IconRenderDeterminesCode | iconservice/base/exception.py:82-83 | two IconExceptions with the same message render alike exactly when their codes are equal |
| Exceptions.Render | iconservice/base/exception.py:56-106 | a service exception renders as its message; an IconException appends its code's text; an API score exception renders as "msg: .. func: .. cls: .." |
| Exceptions.NewIconException | iconservice/base/exception.py:71-80 | the code is kept; a None or empty message becomes the code's text, and any other message is kept |
| Exceptions.OutOfStepMessageDetermines | iconservice/iconscore/icon_score_step.py:89-90 | two out-of-step messages are equal iff they report the same request and the same remaining steps |
| Exceptions.CheckException | iconservice/base/exception.py:109-121 | the result is passed through unchanged, a service exception gives None, and any other exception is re-raised |
| Exceptions.CheckExceptionEscapes | iconservice/base/exception.py:112-118 | the wrapper raises exactly when the call raised an ordinary exception, and raises that exception |
| Utils.HexPrefixLength | iconservice/utils/__init__.py:34-36 | the length of the longest lowercase-hex prefix |
| Utils.IsLowercaseHexString | iconservice/utils/__init__.py:27-40 | only a string can be accepted; anything else gives False |
| Utils.IsLowercaseHexStringIff | iconservice/utils/__init__.py:34-40 | a string is accepted iff it is non-empty and all its characters are 0-9a-f |
| Utils.HexPrefixThenOtherRejected | iconservice/utils/__init__.py:35-36 | a hex prefix followed by any other character, upper-case A-F included, is rejected |
| Utils.Trace | iconservice/utils/__init__.py:43-49 | the wrapper returns the wrapped call's result unchanged |
| Text.IntToDecimalRoundTrip | iconservice/iconscore/icon_score_step.py:89-90 | the decimal text of an integer in a message reads back as that integer |
| Text.HexRoundTrip | iconservice/icon_service_engine.py:324 | hex text of a digest decodes back to the digest |
| Addresses.IntToBytes32 | iconservice/icon_service_engine.py:320-322 | 32 big-endian bytes whose value is n, exactly when 0 <= n < 2^256; otherwise OverflowError |
| Addresses.FromToBytesBig | iconservice/icon_service_engine.py:320-322 | big-endian encoding reads back as the encoded integer |
| Addresses.ContractPreimage | iconservice/icon_service_engine.py:320-322 | the preimage exists iff origin and timestamp are present and the integers fit; it is the body, then 32 bytes, then 32 more when a nonce is given |
| Addresses.GenerateContractAddress | iconservice/icon_service_engine.py:309-325 | a contract-prefix address with a 20-character body when the preimage exists; otherwise the preimage's exception |
| Addresses.PreimageInjective | iconservice/icon_service_engine.py:320-322 | for equal-length sender bodies, equal preimages mean the same sender body, timestamp and nonce |
| Addresses.DerivedBodyIsDigestTail | iconservice/icon_service_engine.py:324-325 | the derived body is lowercase hex that the validator accepts, and it decodes to the last 10 bytes of the preimage's hash |
| EngineProperties.HandlerTableExact | iconservice/icon_service_engine.py:58-63 | the handler table holds exactly the four JSON-RPC method names |
| EngineProperties.CallUnknownMethod | iconservice/icon_service_engine.py:198-202 | any other method name gives None and no change |
| EngineProperties.TotalSupplyNeverAnswers | iconservice/icon_service_engine.py:198-224 | icx_getTotalSupply through call always gives None and no change |
| EngineProperties.TotalSupplyHandlerAnswers | iconservice/icon_service_engine.py:218-224 | the one-argument handler itself answers with the ICX engine's supply |
| EngineProperties.CallRaisesOnlyServiceExceptions | iconservice/icon_service_engine.py:198-204 | only service exceptions leave call |
| EngineProperties.CallExceptionFilter | iconservice/icon_service_engine.py:198-216 | a service exception from the ICX engine's get_balance propagates unchanged; an ordinary one becomes None |
| EngineProperties.CallTransferExceptionFilter | iconservice/icon_service_engine.py:243-261 | a service exception from the ICX engine's transfer in icx_sendTransaction propagates unchanged and an ordinary one becomes None; either way the transfer's world and writes are kept and no result is recorded |
| EngineProperties.GetBalanceAnswers | iconservice/icon_service_engine.py:206-216 | icx_getBalance answers with the ICX engine's balance and changes nothing |
| EngineProperties.IcxCallSetsCaller | iconservice/icon_service_engine.py:226-241 | icx_call leaves the caller as the context's origin and sender; world, batches and results are untouched |
| EngineProperties.ScoreInvokeMergesIffSuccess | iconservice/icon_service_engine.py:276-307 | score invocation never touches the block result; it appends one batch and empties the transaction batch on SUCCESS, and merges nothing on FAILURE |
| EngineProperties.ScoreInvokeStatus | iconservice/icon_service_engine.py:291-307 | SUCCESS iff the install's address (if any) was derived and the score returned; any exception from the score, service exceptions included, gives FAILURE with the score's world and writes kept and nothing merged |
| EngineProperties.ScoreInvokeMergesWholeBatch | iconservice/icon_service_engine.py:293-303 | for installs and other invocations alike, a score that returns gives SUCCESS, merges the earlier transaction batch plus the score's writes as one batch, empties the transaction batch and keeps the score's world |
| EngineProperties.InstallRecordsDerivedAddress | iconservice/icon_service_engine.py:293-298 | an install targets the test score address and records the address derived from the context's transaction |
| EngineProperties.InstallWithoutAddressFails | iconservice/icon_service_engine.py:291-307 | an install whose address cannot be derived fails with no change and no score call |
| EngineProperties.SendTransactionResults | iconservice/icon_service_engine.py:243-274 | a completed send appends exactly one result; a raising one appends nothing and merges nothing; a merge comes only with a SUCCESS result |
| EngineProperties.FailedTransferAppendsNothing | iconservice/icon_service_engine.py:255-261 | a raising transfer adds no result and no merge, and its exception is what the handler raises |
| EngineProperties.AccountTransferSucceeds | iconservice/icon_service_engine.py:263-274 | a transfer to a non-contract account appends one SUCCESS result without a contract address and merges nothing |
| EngineProperties.CallRecordsScoreFailure | iconservice/icon_service_engine.py:243-307 | a score that raises during icx_sendTransaction, install or not, makes call return None and appends one FAILURE result, which carries the derived contract address for an install, merging nothing |
| EngineProperties.InvokeTxShape | iconservice/icon_service_engine.py:147-152 | one transaction appends at most one result, merges only alongside SUCCESS, and leaves the transaction batch empty when it completes |
| EngineProperties.InvokeLoopAppend | iconservice/icon_service_engine.py:147-152 | transactions run strictly in order: a block split in two runs the second part from where the first ended, unless the first raised |
| EngineProperties.InvokeLoopShape | iconservice/icon_service_engine.py:147-152 | earlier results and batches stay in place; at most one result per transaction; no more merges than SUCCESS results |
| EngineProperties.NoSuccessNoMerge | iconservice/icon_service_engine.py:129-152 | a block with no SUCCESS result merges nothing into the block batch |
| EngineProperties.InvokeResultsBelongToBlock | iconservice/icon_service_engine.py:141-152 | every result recorded carries the invoked block; a block has no more results than transactions and no more merges than SUCCESS results |
| EngineProperties.GenesisUsesFirstTwo | iconservice/icon_service_engine.py:107-127 | only the first two accounts affect genesis |
| EngineProperties.GenesisNeedsTwoAccounts | iconservice/icon_service_engine.py:115-121 | fewer than two accounts always ends in an exception |
| EngineProperties.SetTxInfoReadsTimestamp | iconservice/icon_service_engine.py:327-349 | a decimal timestamp string is read back as its integer, and the sender becomes origin and message sender |
| EngineProperties.SetTxInfoEnablesInstall | iconservice/icon_service_engine.py:327-349 | a context filled from params with an in-range timestamp and no nonce lets an install derive its address |
| ServiceEngine.IconServiceEngine.HandleGetBalance | iconservice/icon_service_engine.py:206-216 | the method's answer and state are those of the specification's getBalance handler |
| ServiceEngine.IconServiceEngine.HandleIcxCall | iconservice/icon_service_engine.py:226-241 | the context update and answer are those of the specification's icx_call handler |
| ServiceEngine.IconServiceEngine.ScoreInvoke | iconservice/icon_service_engine.py:276-307 | the world, context and result are those of the specification's score invocation |
| ServiceEngine.IconServiceEngine.HandleSendTransaction | iconservice/icon_service_engine.py:243-274 | the world, context and outcome are those of the specification's sendTransaction handler |
| ServiceEngine.IconServiceEngine.Call | iconservice/icon_service_engine.py:177-204 | the result equals the specification's call, and only a service exception can escape |
| ServiceEngine.IconServiceEngine.Query | iconservice/icon_service_engine.py:156-175 | a query is call on the given context |
| ServiceEngine.IconServiceEngine.Invoke | iconservice/icon_service_engine.py:129-154 | the loop runs the block in order, clearing the transaction batch after each transaction, and stops at the first escaping exception; its final state is InvokeSpec's |
| ServiceEngine.IconServiceEngine.GenesisInvoke | iconservice/icon_service_engine.py:107-127 | accounts[0] becomes the genesis account and accounts[1] the fee treasury, with their exceptions as specified |
| ServiceEngine.IconServiceEngine.SetTxInfoToContext | iconservice/icon_service_engine.py:327-349 | on success the context holds the specified transaction and message; on an exception the context is unchanged |

## Left out

- SHA3-256 is a parameter `HashFunction` (any function from bytes to 32 bytes), so its internals are not modelled. `hexdigest` is modelled as lowercase hex of the digest.
- Printing and logging are left out. This covers the `print` in `call`, the logger in `check_exception` and the printing side of `trace`.
- Engine `open`, `close` and `_init_icx_engine` (directory creation, databases, class attributes) are left out, because they only set up storage.
- Engine `commit` and `rollback` have empty bodies and are not modelled.
- `iconservice/icon_inner_service.py` is not part of this model. It is message-queue and thread-pool transport.
- The context factory is not modelled: not its pooling, not `destroy`, and not the context type it sets. `query`, `invoke` and `genesis_invoke` receive the context they work on, and the model does not require it to be of type QUERY, INVOKE or GENESIS respectively. `genesis_invoke`'s final `destroy` is not modelled either.
- The `Transaction` and `Message` classes are not part of this model. `icx_call` builds them with only `origin` and `sender` given; the model assumes every other field defaults to `None`.
- The ICX engine and the score engine are not modelled. Each is a function of a `Collaborators` record that returns a value or raises.
  - A collaborator's effect is a new world state plus writes appended to the transaction batch. The writes persist even when it raises.
  - `put_tx_batch`, `clear`, `block_result.append` and the `BlockBatch`, `TransactionBatch` and `IconBlockResult` constructors are modelled as sequence updates that never raise.
  - The query collaborators (balance, supply, score query) are read-only.
- `TEST_SCORE_ADDRESS` comes from `create_address`, which is not part of this model. It is a parameter.
- The `Address` class is not part of this model. An address is a prefix plus a byte body; a derived contract address keeps the hex text as its body.
- `Merkle.MerkleTree.AddLeaf` takes a sequence of leaves. Python's single-value branch never applies to byte strings, because bytes are iterable.
- `Merkle.MerkleTree.GetProof` models the proof as `Left`/`Right` entries. Dictionaries with both keys or neither key, which `validate_proof` would also read, cannot be expressed.
- `Merkle.MerkleTree.GetProof` halves the index with integer division. The source's `int(index / 2.)` agrees with this for every index below 2^53.
- `Merkle.MerkleTree.MakeTree` and `Merkle.MerkleTree.AddLeaf` do not model that the bottom level is the leaves list itself. In Python, `add_leaf` after `make_tree` also extends the stored bottom level through that alias, while the model leaves the levels unchanged. The difference cannot be observed: `get_proof` and `get_merkle_root` answer None until `make_tree` rebuilds the levels.
- `Exceptions.CodeToString` maps case only for ASCII letters, which is all that code names contain. It models Python 3.8 and later, where `f'{code}'` calls the overridden `__str__`; earlier versions would render the number.
- `EngineSpec.IntOf` (`int(x)`) accepts decimal digits with an optional `-`, but not a leading `+`. `EngineSpec.IntOfHex` (`int(x, 16)`) accepts an optional `-` or `+`, an optional `0x`/`0X` and digits of either case. Neither accepts the surrounding whitespace, the underscores between digits or the non-ASCII Unicode decimal digits that Python's `int()` also allows.
- The query context's attributes are assumed to exist. The engine reads them from a context the factory has already built.
- `Step.StepCounterFactory` and `Step.StepCounter` keep their units and limit as constants. The source stores them as attributes that nothing reassigns.
- `Step.ChargeStaysWithinLimit` proves that the accessor's value stays within the limit only for a non-negative limit. `Step.NegativeLimitAccessorAboveLimit` shows why that condition is needed.
