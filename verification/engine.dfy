/** `IconServiceEngine` and the `IconScoreContext` it works on, as objects
    whose methods update their fields step by step. Every method is tied to
    the function of `EngineSpec` that specifies it, so the properties proved
    in `EngineProperties` hold of what the methods do. */
module ServiceEngine {
  import opened Common
  import opened Exceptions
  import opened Addresses
  import opened EngineSpec
  import EngineProperties

  /** The context of one request or block, as the engine reads and updates
      it; the factory that pools contexts hands one over ready-made. */
  class IconScoreContext {
    var ctxType: ContextType
    var block: Option<Block>
    var tx: Option<Transaction>
    var msg: Option<Message>
    var blockBatch: seq<TxBatch>
    var txBatch: TxBatch
    var blockResult: seq<TxResult>

    function State(): Context
      reads this
    {
      Context(ctxType, block, tx, msg, blockBatch, txBatch, blockResult)
    }

    constructor (s: Context)
      ensures State() == s
    {
      ctxType, block, tx, msg := s.ctxType, s.block, s.tx, s.msg;
      blockBatch, txBatch, blockResult := s.blockBatch, s.txBatch, s.blockResult;
    }
  }

  class IconServiceEngine<W> {
    /** The ICX engine, the score engine and the hash the engine drives. */
    const co: Collaborators<W>
    /** What the ICX and score engines keep between calls. */
    var world: W

    constructor (co: Collaborators<W>, world: W)
      ensures this.co == co && this.world == world
    {
      this.co := co;
      this.world := world;
    }

    ghost function Snapshot(ctx: IconScoreContext): Machine<W>
      reads this, ctx
    {
      Machine(world, ctx.State())
    }

    /** Takes in what a collaborator call did: its world, and its writes
        appended to the transaction batch. */
    method TakeEffect(ctx: IconScoreContext, e: Effect<W>)
      modifies this, ctx
      ensures Snapshot(ctx) == Apply(old(Snapshot(ctx)), e)
    {
      world := e.world;
      ctx.txBatch := ctx.txBatch + e.writes;
    }

    /** `_handle_icx_getBalance`. */
    method HandleGetBalance(ctx: IconScoreContext, p: Params) returns (r: Outcome<Option<CallValue>>)
      ensures (Snapshot(ctx), r) == EngineSpec.HandleGetBalance(co, Snapshot(ctx), p)
    {
      if p.address.Missing? {
        return Threw(Ordinary(KeyError));
      }
      var balance := co.getBalance(world, ctx.State(), p.address.value);
      if balance.Threw? {
        return Threw(balance.raised);
      }
      r := Returned(Some(Balance(balance.value)));
    }

    /** `_handle_icx_call`: the caller becomes the context's origin and
        sender, then the score is queried. */
    method HandleIcxCall(ctx: IconScoreContext, p: Params) returns (r: Outcome<Option<CallValue>>)
      modifies ctx
      ensures (Snapshot(ctx), r) == EngineSpec.HandleIcxCall(co, old(Snapshot(ctx)), p)
    {
      if p.from.Missing? || p.to.Missing? {
        return Threw(Ordinary(KeyError));
      }
      var from, to := p.from.value, p.to.value;
      var dataType := GetOr(p.dataType, None);
      var data := GetOr(p.data, None);
      ctx.tx := Some(Transaction(None, Some(from), None, None));
      ctx.msg := Some(Message(Some(from), None));
      var answer := co.scoreQuery(world, ctx.State(), to, dataType, data);
      if answer.Threw? {
        return Threw(answer.raised);
      }
      r := Returned(Some(QueryResult(answer.value)));
    }

    /** `__handle_score_invoke`: derive the address of an install, invoke
        the score, and merge the transaction batch only if nothing raised. */
    method ScoreInvoke(ctx: IconScoreContext, txHash: string, to: Option<Address>, dataType: Option<string>, data: Option<Data>)
      returns (result: TxResult)
      modifies this, ctx
      ensures (Snapshot(ctx), result) == EngineSpec.ScoreInvoke(co, old(Snapshot(ctx)), txHash, to, dataType, data)
    {
      result := TxResult(txHash, ctx.block, to, Failure, None);
      var target := to;
      if dataType == Some(INSTALL) {
        target := Some(co.testScoreAddress);
        if ctx.tx.None? {
          return;
        }
        var derived := GenerateContractAddress(co.hash, ctx.tx.value.origin, ctx.tx.value.timestamp, ctx.tx.value.nonce);
        if derived.Threw? {
          return;
        }
        result := result.(contractAddress := Some(derived.value));
      }
      var e := co.scoreInvoke(world, ctx.State(), target, dataType, data);
      TakeEffect(ctx, e);
      if e.raised.Some? {
        result := result.(status := Failure);
        return;
      }
      ctx.blockBatch := ctx.blockBatch + [ctx.txBatch];
      ctx.txBatch := [];
      result := result.(status := Success);
    }

    /** `_handle_icx_sendTransaction`: transfer, then score invocation or a
        SUCCESS result, appended to the block result. */
    method HandleSendTransaction(ctx: IconScoreContext, p: Params) returns (r: Outcome<Option<CallValue>>)
      modifies this, ctx
      ensures (Snapshot(ctx), r) == EngineSpec.HandleSendTransaction(co, old(Snapshot(ctx)), p)
    {
      if p.txHash.Missing? || p.from.Missing? || p.to.Missing? || p.fee.Missing? {
        return Threw(Ordinary(KeyError));
      }
      var txHash, from, to := p.txHash.value, p.from.value, p.to.value;
      var value := GetOr(p.value, 0);
      var e := co.transfer(world, ctx.State(), from, to, value);
      TakeEffect(ctx, e);
      if e.raised.Some? {
        return Threw(e.raised.value);
      }
      var result;
      if to.None? || to.value.IsContract() {
        if p.dataType.Missing? || p.data.Missing? {
          return Threw(Ordinary(KeyError));
        }
        result := ScoreInvoke(ctx, txHash, to, p.dataType.value, p.data.value);
      } else {
        result := TxResult(txHash, ctx.block, to, Success, None);
      }
      ctx.blockResult := ctx.blockResult + [result];
      r := Returned(None);
    }

    /** `call`: look the handler up, run it, and turn ordinary exceptions
        into `None`; service exceptions propagate. */
    method Call(ctx: IconScoreContext, rpcMethod: string, p: Params) returns (r: Outcome<Option<CallValue>>)
      modifies this, ctx
      ensures (Snapshot(ctx), r) == CallSpec(co, old(Snapshot(ctx)), rpcMethod, p)
      ensures r.Threw? ==> r.raised.Service?
    {
      var handler := HandlerFor(rpcMethod);
      if handler.None? {
        return Returned(None);
      }
      match handler.value {
        case GetBalanceHandler =>
          r := HandleGetBalance(ctx, p);
        case GetTotalSupplyHandler =>
          r := Threw(Ordinary(TypeError));
        case IcxCallHandler =>
          r := HandleIcxCall(ctx, p);
        case SendTransactionHandler =>
          r := HandleSendTransaction(ctx, p);
      }
      if r.Threw? && r.raised.Ordinary? {
        r := Returned(None);
      }
    }

    /** `query`: `call` on a context of the query type. */
    method Query(ctx: IconScoreContext, rpcMethod: string, p: Params) returns (r: Outcome<Option<CallValue>>)
      modifies this, ctx
      ensures (Snapshot(ctx), r) == CallSpec(co, old(Snapshot(ctx)), rpcMethod, p)
    {
      r := Call(ctx, rpcMethod, p);
    }

    /** `invoke`: set the block up, then `call` every transaction in order,
        clearing the transaction batch after each; a missing key or a
        service exception stops the block and is what `invoke` raises. */
    method Invoke(ctx: IconScoreContext, height: int, hash: string, txs: seq<TxRequest>) returns (raised: Option<Raised>)
      modifies this, ctx
      ensures (Snapshot(ctx), raised) == InvokeSpec(co, old(world), old(ctx.State()), height, hash, txs)
    {
      ctx.block := Some(Block(height, hash));
      ctx.blockBatch := [];
      ctx.txBatch := [];
      ctx.blockResult := [];
      ghost var start := Snapshot(ctx);
      var i := 0;
      while i < |txs|
        invariant 0 <= i <= |txs|
        invariant InvokeLoop(co, start, txs[..i]) == (Snapshot(ctx), None)
      {
        var tx := txs[i];
        ghost var before := Snapshot(ctx);
        EngineProperties.InvokeLoopAppend(co, start, txs[..i], [tx]);
        assert txs[..i + 1] == txs[..i] + [tx];
        if tx.rpcMethod.Missing? || tx.params.Missing? {
          raised := Some(Ordinary(KeyError));
          StopsAt(start, txs, i);
          return;
        }
        var r := Call(ctx, tx.rpcMethod.value, tx.params.value);
        if r.Threw? {
          raised := Some(r.raised);
          StopsAt(start, txs, i);
          return;
        }
        ctx.txBatch := [];
        i := i + 1;
      }
      assert txs[..i] == txs;
      raised := None;
    }

    /** A block cut short at transaction i ends where that turn ended. */
    lemma StopsAt(start: Machine<W>, txs: seq<TxRequest>, i: nat)
      requires i < |txs| && InvokeLoop(co, start, txs[..i + 1]).1.Some?
      ensures InvokeLoop(co, start, txs) == InvokeLoop(co, start, txs[..i + 1])
    {
      assert txs == txs[..i + 1] + txs[i + 1..];
      EngineProperties.InvokeLoopAppend(co, start, txs[..i + 1], txs[i + 1..]);
    }

    /** `genesis_invoke`: the genesis account and the fee treasury, from
        accounts[0] and accounts[1]. */
    method GenesisInvoke(ctx: IconScoreContext, accounts: seq<Account>) returns (raised: Option<Raised>)
      modifies this, ctx
      ensures (Snapshot(ctx), raised) == GenesisSpec(co, old(Snapshot(ctx)), accounts)
    {
      if |accounts| < 1 {
        return Some(Ordinary(IndexError));
      }
      var genesis := accounts[0];
      if genesis.address.Missing? || genesis.balance.Missing? {
        return Some(Ordinary(KeyError));
      }
      var e := co.initGenesisAccount(world, ctx.State(), genesis.address.value, genesis.balance.value);
      TakeEffect(ctx, e);
      if e.raised.Some? {
        return e.raised;
      }
      if |accounts| < 2 {
        return Some(Ordinary(IndexError));
      }
      var treasury := accounts[1];
      if treasury.address.Missing? || treasury.balance.Missing? {
        return Some(Ordinary(KeyError));
      }
      var e' := co.initFeeTreasuryAccount(world, ctx.State(), treasury.address.value, treasury.balance.value);
      TakeEffect(ctx, e');
      raised := e'.raised;
    }

    /** `_set_tx_info_to_context`: the context's transaction and message
        from `params`, or the exception and no change. */
    method SetTxInfoToContext(ctx: IconScoreContext, p: Params) returns (raised: Option<Raised>)
      modifies ctx
      ensures SetTxInfoSpec(old(ctx.State()), p).Returned? ==>
        raised == None && ctx.State() == SetTxInfoSpec(old(ctx.State()), p).value
      ensures SetTxInfoSpec(old(ctx.State()), p).Threw? ==>
        raised == Some(SetTxInfoSpec(old(ctx.State()), p).raised) && ctx.State() == old(ctx.State())
    {
      if p.from.Missing? {
        return Some(Ordinary(KeyError));
      }
      var from := p.from.value;
      var txHash := if p.txHash.Given? then Some(p.txHash.value) else None;
      var value := GetOr(p.value, 0);
      var timestamp: Option<int> := None;
      var nonce: Option<int> := None;
      if p.timestamp.Given? {
        var t := IntOf(p.timestamp.value);
        if t.Threw? {
          return Some(t.raised);
        }
        timestamp := Some(t.value);
      }
      if p.nonce.Given? {
        var n := IntOfHex(p.nonce.value);
        if n.Threw? {
          return Some(n.raised);
        }
        nonce := Some(n.value);
      }
      ctx.tx := Some(Transaction(txHash, Some(from), timestamp, nonce));
      ctx.msg := Some(Message(Some(from), Some(value)));
      raised := None;
    }
  }
}
