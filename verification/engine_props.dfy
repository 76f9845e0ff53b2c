/** What the engine promises, stated over `EngineSpec`: the exact handler
    table, the exceptions `call` lets through, one result per completed
    transfer, merging only on success, in-order processing of a block, and
    the genesis and transaction-info rules. */
module EngineProperties {
  import opened Common
  import opened Text
  import opened Exceptions
  import opened Addresses
  import opened EngineSpec

  // ---------------------------------------------------------------- call

  /** The handler table holds exactly the four JSON-RPC methods. */
  lemma HandlerTableExact(name: string)
    ensures HandlerFor(name).Some? <==>
      name in {ICX_GET_BALANCE, ICX_GET_TOTAL_SUPPLY, ICX_CALL, ICX_SEND_TRANSACTION}
  {
  }

  /** An unknown method: `call` returns `None` and changes nothing. */
  lemma CallUnknownMethod<W>(co: Collaborators<W>, m: Machine<W>, name: string, p: Params)
    requires name !in {ICX_GET_BALANCE, ICX_GET_TOTAL_SUPPLY, ICX_CALL, ICX_SEND_TRANSACTION}
    ensures CallSpec(co, m, name, p) == (m, Returned(None))
  {
    HandlerTableExact(name);
  }

  /** `icx_getTotalSupply` through `call` always yields `None` and changes
      nothing, whatever the ICX engine would answer: the handler is called
      with one argument too many. */
  lemma TotalSupplyNeverAnswers<W>(co: Collaborators<W>, m: Machine<W>, p: Params)
    ensures CallSpec(co, m, ICX_GET_TOTAL_SUPPLY, p) == (m, Returned(None))
  {
  }

  /** The one-argument handler itself would answer with the supply. */
  lemma TotalSupplyHandlerAnswers<W>(co: Collaborators<W>, m: Machine<W>, n: int)
    requires co.getTotalSupply(m.world, m.ctx) == Returned(n)
    ensures HandleGetTotalSupply(co, m) == (m, Returned(Some(Balance(n))))
  {
  }

  /** Nothing but a service exception ever leaves `call`. */
  lemma CallRaisesOnlyServiceExceptions<W>(co: Collaborators<W>, m: Machine<W>, name: string, p: Params)
    ensures CallSpec(co, m, name, p).1.Threw? ==> CallSpec(co, m, name, p).1.raised.Service?
  {
  }

  /** A service exception raised by the ICX engine leaves `call` as it is;
      an ordinary one becomes `None`. */
  lemma CallExceptionFilter<W>(co: Collaborators<W>, m: Machine<W>, p: Params, a: Address, raised: Raised)
    requires p.address == Given(a) && co.getBalance(m.world, m.ctx, a) == Threw(raised)
    ensures raised.Service? ==> CallSpec(co, m, ICX_GET_BALANCE, p) == (m, Threw(raised))
    ensures raised.Ordinary? ==> CallSpec(co, m, ICX_GET_BALANCE, p) == (m, Returned(None))
  {
  }

  /** The same filter on the ICX engine's other entry point, the transfer
      inside `icx_sendTransaction`: a service exception leaves `call` as it
      is, an ordinary one becomes `None`, and either way the transfer's
      world and writes are kept with no result recorded. */
  lemma CallTransferExceptionFilter<W>(co: Collaborators<W>, m: Machine<W>, p: Params, raised: Raised)
    requires p.txHash.Given? && p.from.Given? && p.to.Given? && p.fee.Given?
    requires co.transfer(m.world, m.ctx, p.from.value, p.to.value, GetOr(p.value, 0)).raised == Some(raised)
    ensures var m1 := Apply(m, co.transfer(m.world, m.ctx, p.from.value, p.to.value, GetOr(p.value, 0)));
      && (raised.Service? ==> CallSpec(co, m, ICX_SEND_TRANSACTION, p) == (m1, Threw(raised)))
      && (raised.Ordinary? ==> CallSpec(co, m, ICX_SEND_TRANSACTION, p) == (m1, Returned(None)))
      && m1.ctx.blockResult == m.ctx.blockResult && m1.ctx.blockBatch == m.ctx.blockBatch
  {
  }

  /** `icx_getBalance` answers with the ICX engine's balance and changes
      nothing. */
  lemma GetBalanceAnswers<W>(co: Collaborators<W>, m: Machine<W>, p: Params, a: Address, n: int)
    requires p.address == Given(a) && co.getBalance(m.world, m.ctx, a) == Returned(n)
    ensures CallSpec(co, m, ICX_GET_BALANCE, p) == (m, Returned(Some(Balance(n))))
  {
  }

  /** `icx_call` leaves the caller as the context's transaction origin and
      message sender, whatever the score answers. */
  lemma IcxCallSetsCaller<W>(co: Collaborators<W>, m: Machine<W>, p: Params)
    requires p.from.Given? && p.to.Given?
    ensures var (m', _) := CallSpec(co, m, ICX_CALL, p);
      && m'.world == m.world
      && m'.ctx.tx == Some(Transaction(None, Some(p.from.value), None, None))
      && m'.ctx.msg == Some(Message(Some(p.from.value), None))
      && m'.ctx.blockBatch == m.ctx.blockBatch && m'.ctx.txBatch == m.ctx.txBatch
      && m'.ctx.blockResult == m.ctx.blockResult
  {
  }

  // ---------------------------------------------------------------- score invocation

  /** Score invocation never raises, never touches the block result, and
      merges the transaction batch into the block batch exactly when its
      status is SUCCESS, leaving the transaction batch empty. */
  lemma ScoreInvokeMergesIffSuccess<W>(co: Collaborators<W>, m: Machine<W>, txHash: string, to: Option<Address>,
                                       dataType: Option<string>, data: Option<Data>)
    ensures var (m', result) := ScoreInvoke(co, m, txHash, to, dataType, data);
      && result.txHash == txHash && result.to == to && result.block == m.ctx.block
      && m'.ctx.blockResult == m.ctx.blockResult && m'.ctx.block == m.ctx.block
      && (result.status == Success ==>
            && |m'.ctx.blockBatch| == |m.ctx.blockBatch| + 1
            && m'.ctx.blockBatch[..|m.ctx.blockBatch|] == m.ctx.blockBatch
            && m'.ctx.txBatch == [])
      && (result.status == Failure ==> m'.ctx.blockBatch == m.ctx.blockBatch)
  {
  }

  /** The status is SUCCESS exactly when the address of an install could be
      derived and the score then returned; any exception the score raises,
      a service exception such as running out of steps included, gives
      FAILURE, with the score's world and writes kept and nothing merged. */
  lemma ScoreInvokeStatus<W>(co: Collaborators<W>, m: Machine<W>, txHash: string, to: Option<Address>,
                             dataType: Option<string>, data: Option<Data>)
    ensures var (m', result) := ScoreInvoke(co, m, txHash, to, dataType, data);
      var e := co.scoreInvoke(m.world, m.ctx, ScoreTarget(co, to, dataType), dataType, data);
      && (result.status == Success <==>
            (dataType != Some(INSTALL) || InstallAddress(co, m).Returned?) && e.raised.None?)
      && ((dataType != Some(INSTALL) || InstallAddress(co, m).Returned?) && e.raised.Some? ==>
            m' == Apply(m, e))
  {
  }

  /** On success the merged batch is everything in the transaction batch:
      what was there before and what the score wrote; the transaction batch
      is then empty and the world is the score's. */
  lemma ScoreInvokeMergesWholeBatch<W>(co: Collaborators<W>, m: Machine<W>, txHash: string, to: Option<Address>,
                                       dataType: Option<string>, data: Option<Data>)
    requires dataType != Some(INSTALL) || InstallAddress(co, m).Returned?
    requires co.scoreInvoke(m.world, m.ctx, ScoreTarget(co, to, dataType), dataType, data).raised.None?
    ensures var (m', result) := ScoreInvoke(co, m, txHash, to, dataType, data);
      var e := co.scoreInvoke(m.world, m.ctx, ScoreTarget(co, to, dataType), dataType, data);
      && result.status == Success
      && m'.world == e.world
      && m'.ctx.blockBatch == m.ctx.blockBatch + [m.ctx.txBatch + e.writes]
      && m'.ctx.txBatch == []
  {
  }

  /** An install targets the test score address and, whatever the score
      then does, its result carries the address derived from the context's
      transaction. */
  lemma InstallRecordsDerivedAddress<W>(co: Collaborators<W>, m: Machine<W>, txHash: string, to: Option<Address>, data: Option<Data>)
    requires m.ctx.tx.Some?
    requires GenerateContractAddress(co.hash, m.ctx.tx.value.origin, m.ctx.tx.value.timestamp, m.ctx.tx.value.nonce).Returned?
    ensures var (m', result) := ScoreInvoke(co, m, txHash, to, Some(INSTALL), data);
      && result.contractAddress == Some(GenerateContractAddress(co.hash, m.ctx.tx.value.origin, m.ctx.tx.value.timestamp, m.ctx.tx.value.nonce).value)
      && m'.world == co.scoreInvoke(m.world, m.ctx, Some(co.testScoreAddress), Some(INSTALL), data).world
  {
  }

  /** An install whose address cannot be derived fails without calling
      the score and without any change. */
  lemma InstallWithoutAddressFails<W>(co: Collaborators<W>, m: Machine<W>, txHash: string, to: Option<Address>, data: Option<Data>)
    requires m.ctx.tx.None? ||
      GenerateContractAddress(co.hash, m.ctx.tx.value.origin, m.ctx.tx.value.timestamp, m.ctx.tx.value.nonce).Threw?
    ensures ScoreInvoke(co, m, txHash, to, Some(INSTALL), data) == (m, TxResult(txHash, m.ctx.block, to, Failure, None))
  {
  }

  // ---------------------------------------------------------------- send transaction

  /** The block result grows by one result, or not at all. */
  predicate AppendsAtMostOne(before: seq<TxResult>, after: seq<TxResult>)
  {
    after == before || (|after| == |before| + 1 && after[..|before|] == before)
  }

  /** The block batch is unchanged, or grew by one batch together with a
      SUCCESS result. */
  predicate MergeBackedBySuccess(c: Context, c': Context)
  {
    || c'.blockBatch == c.blockBatch
    || (&& |c'.blockBatch| == |c.blockBatch| + 1
        && c'.blockBatch[..|c.blockBatch|] == c.blockBatch
        && |c'.blockResult| == |c.blockResult| + 1
        && c'.blockResult[|c.blockResult|].status == Success)
  }

  /** `icx_sendTransaction` appends exactly one result when it completes
      and none when it raises; it merges only alongside a SUCCESS result. */
  lemma SendTransactionResults<W>(co: Collaborators<W>, m: Machine<W>, p: Params)
    ensures var (m', o) := HandleSendTransaction(co, m, p);
      && (o.Returned? ==> o.value == None && |m'.ctx.blockResult| == |m.ctx.blockResult| + 1
                          && m'.ctx.blockResult[..|m.ctx.blockResult|] == m.ctx.blockResult)
      && (o.Threw? ==> m'.ctx.blockResult == m.ctx.blockResult && m'.ctx.blockBatch == m.ctx.blockBatch)
      && m'.ctx.block == m.ctx.block
      && (o.Returned? ==> m'.ctx.blockResult[|m.ctx.blockResult|].block == m.ctx.block)
      && MergeBackedBySuccess(m.ctx, m'.ctx)
  {
    var (m', o) := HandleSendTransaction(co, m, p);
    if !(p.txHash.Missing? || p.from.Missing? || p.to.Missing? || p.fee.Missing?) {
      var to := p.to.value;
      var e := co.transfer(m.world, m.ctx, p.from.value, to, GetOr(p.value, 0));
      var m1 := Apply(m, e);
      if e.raised.None? && (to.None? || to.value.IsContract()) && p.dataType.Given? && p.data.Given? {
        ScoreInvokeMergesIffSuccess(co, m1, p.txHash.value, to, p.dataType.value, p.data.value);
        var (m2, result) := ScoreInvoke(co, m1, p.txHash.value, to, p.dataType.value, p.data.value);
        assert m'.ctx.blockResult == m.ctx.blockResult + [result];
      }
    }
  }

  /** A transfer that raises: no result, no merge, and the exception is
      what `icx_sendTransaction` raises. */
  lemma FailedTransferAppendsNothing<W>(co: Collaborators<W>, m: Machine<W>, p: Params)
    requires p.txHash.Given? && p.from.Given? && p.to.Given? && p.fee.Given?
    requires co.transfer(m.world, m.ctx, p.from.value, p.to.value, GetOr(p.value, 0)).raised.Some?
    ensures var (m', o) := HandleSendTransaction(co, m, p);
      && o == Threw(co.transfer(m.world, m.ctx, p.from.value, p.to.value, GetOr(p.value, 0)).raised.value)
      && m'.ctx.blockResult == m.ctx.blockResult && m'.ctx.blockBatch == m.ctx.blockBatch
  {
  }

  /** A transfer between accounts records SUCCESS for the recipient, with
      no contract address and no merge. */
  lemma AccountTransferSucceeds<W>(co: Collaborators<W>, m: Machine<W>, p: Params)
    requires p.txHash.Given? && p.from.Given? && p.fee.Given?
    requires p.to.Given? && p.to.value.Some? && !p.to.value.value.IsContract()
    requires co.transfer(m.world, m.ctx, p.from.value, p.to.value, GetOr(p.value, 0)).raised.None?
    ensures var (m', o) := HandleSendTransaction(co, m, p);
      && o == Returned(None)
      && m'.ctx.blockResult == m.ctx.blockResult + [TxResult(p.txHash.value, m.ctx.block, p.to.value, Success, None)]
      && m'.ctx.blockBatch == m.ctx.blockBatch
  {
  }

  /** Through `call`, a score that raises (out of steps, say) is not an
      error of the request: `call` returns `None`, and the block result
      gains one FAILURE result for the transaction, carrying the derived
      contract address for an install, with nothing merged. */
  lemma CallRecordsScoreFailure<W>(co: Collaborators<W>, m: Machine<W>, p: Params)
    requires p.txHash.Given? && p.from.Given? && p.to.Given? && p.fee.Given?
    requires p.dataType.Given? && p.data.Given?
    requires p.to.value.None? || p.to.value.value.IsContract()
    requires var e := co.transfer(m.world, m.ctx, p.from.value, p.to.value, GetOr(p.value, 0));
      var m1 := Apply(m, e);
      && e.raised.None?
      && (p.dataType.value != Some(INSTALL) || InstallAddress(co, m1).Returned?)
      && co.scoreInvoke(m1.world, m1.ctx, ScoreTarget(co, p.to.value, p.dataType.value), p.dataType.value, p.data.value).raised.Some?
    ensures var (m', o) := CallSpec(co, m, ICX_SEND_TRANSACTION, p);
      var m1 := Apply(m, co.transfer(m.world, m.ctx, p.from.value, p.to.value, GetOr(p.value, 0)));
      && o == Returned(None)
      && m'.ctx.blockResult == m.ctx.blockResult +
           [TxResult(p.txHash.value, m.ctx.block, p.to.value, Failure,
                     if p.dataType.value == Some(INSTALL) then Some(InstallAddress(co, m1).value) else None)]
      && m'.ctx.blockBatch == m.ctx.blockBatch
  {
  }

  // ---------------------------------------------------------------- invoke

  /** A completed turn leaves the transaction batch empty; every turn
      appends at most one result and merges only alongside a SUCCESS. */
  lemma InvokeTxShape<W>(co: Collaborators<W>, m: Machine<W>, tx: TxRequest)
    ensures var (m', raised) := InvokeTx(co, m, tx);
      && (raised.None? ==> m'.ctx.txBatch == [])
      && m'.ctx.block == m.ctx.block
      && (forall k :: |m.ctx.blockResult| <= k < |m'.ctx.blockResult| ==> m'.ctx.blockResult[k].block == m.ctx.block)
      && AppendsAtMostOne(m.ctx.blockResult, m'.ctx.blockResult)
      && MergeBackedBySuccess(m.ctx, m'.ctx)
  {
    if tx.rpcMethod.Given? && tx.params.Given? {
      var name, p := tx.rpcMethod.value, tx.params.value;
      match HandlerFor(name)
      case None =>
      case Some(h) =>
        if h == SendTransactionHandler {
          SendTransactionResults(co, m, p);
        }
    }
  }

  /** Running a block in two parts is running it whole: the first part's
      state, unless it was cut short, is where the second part starts. */
  lemma {:induction false} InvokeLoopAppend<W>(co: Collaborators<W>, m: Machine<W>, a: seq<TxRequest>, b: seq<TxRequest>)
    ensures InvokeLoop(co, m, a + b) ==
      if InvokeLoop(co, m, a).1.Some? then InvokeLoop(co, m, a) else InvokeLoop(co, InvokeLoop(co, m, a).0, b)
    decreases |a|
  {
    if a == [] {
      assert a + b == b;
    } else {
      assert (a + b)[0] == a[0] && (a + b)[1..] == a[1..] + b;
      var (m1, raised) := InvokeTx(co, m, a[0]);
      if raised.None? {
        InvokeLoopAppend(co, m1, a[1..], b);
      }
    }
  }

  function SuccessCount(results: seq<TxResult>): nat
  {
    if results == [] then 0
    else SuccessCount(results[..|results| - 1]) + (if results[|results| - 1].status == Success then 1 else 0)
  }

  /** Over a whole loop: earlier results stay in place in order, at most one
      result per transaction is added, the block batch only grows, and it
      grows by no more batches than there are new SUCCESS results; a block
      that finished leaves the transaction batch empty. */
  lemma {:induction false} InvokeLoopShape<W>(co: Collaborators<W>, m: Machine<W>, txs: seq<TxRequest>)
    ensures var (m', raised) := InvokeLoop(co, m, txs);
      && |m.ctx.blockResult| <= |m'.ctx.blockResult| <= |m.ctx.blockResult| + |txs|
      && m'.ctx.blockResult[..|m.ctx.blockResult|] == m.ctx.blockResult
      && |m.ctx.blockBatch| <= |m'.ctx.blockBatch|
      && m'.ctx.blockBatch[..|m.ctx.blockBatch|] == m.ctx.blockBatch
      && |m'.ctx.blockBatch| - |m.ctx.blockBatch| <= SuccessCount(m'.ctx.blockResult) - SuccessCount(m.ctx.blockResult)
      && (raised.None? && txs != [] ==> m'.ctx.txBatch == [])
      && m'.ctx.block == m.ctx.block
      && (forall k :: |m.ctx.blockResult| <= k < |m'.ctx.blockResult| ==> m'.ctx.blockResult[k].block == m.ctx.block)
    decreases |txs|
  {
    if txs != [] {
      var (m1, raised) := InvokeTx(co, m, txs[0]);
      InvokeTxShape(co, m, txs[0]);
      SuccessCountStep(m.ctx.blockResult, m1.ctx.blockResult);
      if raised.None? {
        InvokeLoopShape(co, m1, txs[1..]);
        var (m', _) := InvokeLoop(co, m1, txs[1..]);
        PrefixOfPrefix(m.ctx.blockResult, m1.ctx.blockResult, m'.ctx.blockResult);
        forall k | |m.ctx.blockResult| <= k < |m1.ctx.blockResult|
          ensures m'.ctx.blockResult[k].block == m.ctx.block
        {
          assert m'.ctx.blockResult[k] == m'.ctx.blockResult[..|m1.ctx.blockResult|][k];
        }
        PrefixOfPrefix(m.ctx.blockBatch, m1.ctx.blockBatch, m'.ctx.blockBatch);
      }
    }
  }

  lemma PrefixOfPrefix<T>(a: seq<T>, b: seq<T>, c: seq<T>)
    requires |a| <= |b| <= |c| && b[..|a|] == a && c[..|b|] == b
    ensures c[..|a|] == a
  {
    assert c[..|a|] == c[..|b|][..|a|];
  }

  /** One turn's results and merges counted together. */
  lemma SuccessCountStep(before: seq<TxResult>, after: seq<TxResult>)
    requires AppendsAtMostOne(before, after)
    ensures SuccessCount(before) <= SuccessCount(after)
    ensures |after| == |before| + 1 && after[|before|].status == Success ==> SuccessCount(after) == SuccessCount(before) + 1
  {
    if after != before {
      assert after[..|after| - 1] == before;
    }
  }

  /** A block none of whose transactions succeeded merges nothing. */
  lemma NoSuccessNoMerge<W>(co: Collaborators<W>, world: W, ctx: Context, height: int, hash: string, txs: seq<TxRequest>)
    requires SuccessCount(InvokeSpec(co, world, ctx, height, hash, txs).0.ctx.blockResult) == 0
    ensures InvokeSpec(co, world, ctx, height, hash, txs).0.ctx.blockBatch == []
  {
    InvokeLoopShape(co, Machine(world, InvokeStart(ctx, height, hash)), txs);
  }

  /** The block's results are its own: every result `invoke` records
      carries the block being invoked, there are no more of them than
      transactions, and no more merges than SUCCESS results. */
  lemma InvokeResultsBelongToBlock<W>(co: Collaborators<W>, world: W, ctx: Context, height: int, hash: string, txs: seq<TxRequest>)
    ensures var (m', _) := InvokeSpec(co, world, ctx, height, hash, txs);
      && (forall r :: r in m'.ctx.blockResult ==> r.block == Some(Block(height, hash)))
      && |m'.ctx.blockResult| <= |txs|
      && |m'.ctx.blockBatch| <= SuccessCount(m'.ctx.blockResult)
  {
    InvokeLoopShape(co, Machine(world, InvokeStart(ctx, height, hash)), txs);
  }

  // ---------------------------------------------------------------- genesis

  /** Only the first two accounts matter to `genesis_invoke`. */
  lemma GenesisUsesFirstTwo<W>(co: Collaborators<W>, m: Machine<W>, accounts: seq<Account>)
    requires |accounts| >= 2
    ensures GenesisSpec(co, m, accounts) == GenesisSpec(co, m, accounts[..2])
  {
  }

  /** Fewer than two accounts always ends in an exception. */
  lemma GenesisNeedsTwoAccounts<W>(co: Collaborators<W>, m: Machine<W>, accounts: seq<Account>)
    requires |accounts| < 2
    ensures GenesisSpec(co, m, accounts).1.Some?
  {
  }

  // ---------------------------------------------------------------- transaction info

  /** A timestamp given as the decimal text of t is read back as t, and the
      sender becomes both origin and message sender. */
  lemma SetTxInfoReadsTimestamp(ctx: Context, p: Params, t: int)
    requires p.from.Given? && p.timestamp == Given(PyStr(IntToDecimal(t))) && p.nonce.Missing?
    ensures SetTxInfoSpec(ctx, p).Returned?
    ensures var c := SetTxInfoSpec(ctx, p).value;
      c.tx == Some(Transaction(if p.txHash.Given? then Some(p.txHash.value) else None, Some(p.from.value), Some(t), None))
      && c.msg == Some(Message(Some(p.from.value), Some(GetOr(p.value, 0))))
  {
    IntToDecimalRoundTrip(t);
  }

  /** A context filled from `params` with an in-range timestamp and no nonce
      lets an install derive its contract address. */
  lemma SetTxInfoEnablesInstall(ctx: Context, p: Params, t: int, hash: HashFunction)
    requires p.from.Given? && p.timestamp == Given(PyInt(t)) && p.nonce.Missing?
    requires 0 <= t < Pow256(INT_WIDTH)
    ensures SetTxInfoSpec(ctx, p).Returned?
    ensures var tx := SetTxInfoSpec(ctx, p).value.tx.value;
      GenerateContractAddress(hash, tx.origin, tx.timestamp, tx.nonce).Returned?
  {
  }
}
