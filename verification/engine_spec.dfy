/** The behaviour of `IconServiceEngine` as functions of its state: the
    handler table, `call`'s exception filter, the handlers, score
    invocation with its merge-on-success rule, the per-block `invoke` loop,
    `genesis_invoke` and `_set_tx_info_to_context`.

    The collaborators the engine drives (the ICX engine, the score engine,
    the hash) are parameters: each either returns or raises. The state the
    ICX and score engines keep is an opaque world `W` that they thread
    through; what they leave in the context's transaction batch is a list
    of writes. */
module EngineSpec {
  import opened Common
  import opened Text
  import opened Exceptions
  import opened Addresses

  // ---------------------------------------------------------------- request data

  /** One key of a JSON-RPC `params` dict: absent, or present with a value. */
  datatype Param<+T> = Missing | Given(value: T)

  /** `params[key]`: the value, or `KeyError` when the key is absent. */
  function Lookup<T>(p: Param<T>): (r: Outcome<T>)
    ensures r.Returned? <==> p.Given?
    ensures r.Returned? ==> r.value == p.value
    ensures r.Threw? ==> r.raised == Ordinary(KeyError)
  {
    match p
    case Missing => Threw(Ordinary(KeyError))
    case Given(v) => Returned(v)
  }

  /** `params.get(key, default)`. */
  function GetOr<T>(p: Param<T>, default: T): T
  {
    match p
    case Missing => default
    case Given(v) => v
  }

  /** A scalar JSON value as it may arrive for `timestamp` or `nonce`. */
  datatype PyScalar = PyInt(i: int) | PyStr(s: string) | PyNone

  /** Score call data; the engine passes it on without looking inside. */
  type Data = Bytes

  /** The `params` dict of a request, one field per key the engine reads. */
  datatype Params = Params(
    address: Param<Address>,
    txHash: Param<string>,
    from: Param<Address>,
    to: Param<Option<Address>>,
    value: Param<int>,
    fee: Param<int>,
    dataType: Param<Option<string>>,
    data: Param<Option<Data>>,
    timestamp: Param<PyScalar>,
    nonce: Param<PyScalar>)

  /** One transaction of a block: a dict with `method` and `params`. */
  datatype TxRequest = TxRequest(rpcMethod: Param<string>, params: Param<Params>)

  /** One genesis account: a dict with `address` and `balance`. */
  datatype Account = Account(address: Param<Address>, balance: Param<int>)

  // ---------------------------------------------------------------- context

  datatype Block = Block(height: int, hash: string)

  datatype Transaction = Transaction(txHash: Option<string>, origin: Option<Address>, timestamp: Option<int>, nonce: Option<int>)

  datatype Message = Message(sender: Option<Address>, value: Option<int>)

  /** A storage write a collaborator leaves in the transaction batch. */
  datatype Write = Write(key: Bytes, value: Bytes)

  type TxBatch = seq<Write>

  datatype ContextType = InvokeContext | QueryContext | GenesisContext

  datatype TxStatus = Success | Failure

  /** `TransactionResult`: the hash, the block, the recipient as given, the
      status and, for an install, the derived contract address. */
  datatype TxResult = TxResult(txHash: string, block: Option<Block>, to: Option<Address>,
                               status: TxStatus, contractAddress: Option<DerivedAddress>)

  /** The attributes of an `IconScoreContext` the engine reads and writes;
      the block batch is the sequence of transaction batches merged into it. */
  datatype Context = Context(
    ctxType: ContextType,
    block: Option<Block>,
    tx: Option<Transaction>,
    msg: Option<Message>,
    blockBatch: seq<TxBatch>,
    txBatch: TxBatch,
    blockResult: seq<TxResult>)

  /** The engine's whole state: the collaborators' world and the context. */
  datatype Machine<W> = Machine(world: W, ctx: Context)

  // ---------------------------------------------------------------- collaborators

  /** What a state-changing collaborator call does: the new world, the writes
      it appended to the transaction batch, and what it raised, if anything
      (writes made before a raise stay in the batch). */
  datatype Effect<W> = Effect(world: W, writes: TxBatch, raised: Option<Raised>)

  datatype Collaborators<!W> = Collaborators(
    hash: HashFunction,
    testScoreAddress: Address,
    getBalance: (W, Context, Address) -> Outcome<int>,
    getTotalSupply: (W, Context) -> Outcome<int>,
    scoreQuery: (W, Context, Option<Address>, Option<string>, Option<Data>) -> Outcome<Bytes>,
    transfer: (W, Context, Address, Option<Address>, int) -> Effect<W>,
    scoreInvoke: (W, Context, Option<Address>, Option<string>, Option<Data>) -> Effect<W>,
    initGenesisAccount: (W, Context, Address, int) -> Effect<W>,
    initFeeTreasuryAccount: (W, Context, Address, int) -> Effect<W>)

  /** The state after a collaborator call, whether or not it raised. */
  function Apply<W>(m: Machine<W>, e: Effect<W>): (m': Machine<W>)
    ensures m'.world == e.world && m'.ctx.txBatch == m.ctx.txBatch + e.writes
    ensures m'.ctx == m.ctx.(txBatch := m'.ctx.txBatch)
  {
    Machine(e.world, m.ctx.(txBatch := m.ctx.txBatch + e.writes))
  }

  // ---------------------------------------------------------------- handler table

  datatype Handler = GetBalanceHandler | GetTotalSupplyHandler | IcxCallHandler | SendTransactionHandler

  const ICX_GET_BALANCE := "icx_getBalance"
  const ICX_GET_TOTAL_SUPPLY := "icx_getTotalSupply"
  const ICX_CALL := "icx_call"
  const ICX_SEND_TRANSACTION := "icx_sendTransaction"

  /** `self._handlers[method]`, with `None` for the `KeyError`. */
  function HandlerFor(rpcMethod: string): Option<Handler>
  {
    if rpcMethod == ICX_GET_BALANCE then Some(GetBalanceHandler)
    else if rpcMethod == ICX_GET_TOTAL_SUPPLY then Some(GetTotalSupplyHandler)
    else if rpcMethod == ICX_CALL then Some(IcxCallHandler)
    else if rpcMethod == ICX_SEND_TRANSACTION then Some(SendTransactionHandler)
    else None
  }

  /** What a handler hands back through `call`. */
  datatype CallValue = Balance(amount: int) | QueryResult(result: Bytes)

  // ---------------------------------------------------------------- handlers

  /** `_handle_icx_getBalance`: the balance of `params['address']`. */
  function HandleGetBalance<W>(co: Collaborators<W>, m: Machine<W>, p: Params): (r: (Machine<W>, Outcome<Option<CallValue>>))
  {
    match Lookup(p.address)
    case Threw(e) => (m, Threw(e))
    case Returned(a) =>
      match co.getBalance(m.world, m.ctx, a)
      case Threw(e) => (m, Threw(e))
      case Returned(n) => (m, Returned(Some(Balance(n))))
  }

  /** `_handle_icx_getTotalSupply(context)`: the total supply. Declared with
      one argument, it is never reached through `call`, which passes two. */
  function HandleGetTotalSupply<W>(co: Collaborators<W>, m: Machine<W>): (r: (Machine<W>, Outcome<Option<CallValue>>))
  {
    match co.getTotalSupply(m.world, m.ctx)
    case Threw(e) => (m, Threw(e))
    case Returned(n) => (m, Returned(Some(Balance(n))))
  }

  /** `_handle_icx_call`: sets the context's transaction and message to the
      caller, then queries the score `params['to']`. */
  function HandleIcxCall<W>(co: Collaborators<W>, m: Machine<W>, p: Params): (r: (Machine<W>, Outcome<Option<CallValue>>))
  {
    match Lookup(p.from)
    case Threw(e) => (m, Threw(e))
    case Returned(from) =>
      match Lookup(p.to)
      case Threw(e) => (m, Threw(e))
      case Returned(to) =>
        var dataType := GetOr(p.dataType, None);
        var data := GetOr(p.data, None);
        var ctx := m.ctx.(tx := Some(Transaction(None, Some(from), None, None)), msg := Some(Message(Some(from), None)));
        var m' := m.(ctx := ctx);
        match co.scoreQuery(m'.world, ctx, to, dataType, data)
        case Threw(e) => (m', Threw(e))
        case Returned(v) => (m', Returned(Some(QueryResult(v))))
  }

  /** The score call and the merge after it: on success the transaction
      batch goes into the block batch and is cleared and the status is
      SUCCESS; if the score raises, the status is FAILURE and nothing is
      merged. */
  function InvokeScore<W>(co: Collaborators<W>, m: Machine<W>, target: Option<Address>, dataType: Option<string>,
                          data: Option<Data>, result: TxResult): (r: (Machine<W>, TxResult))
  {
    var e := co.scoreInvoke(m.world, m.ctx, target, dataType, data);
    var m1 := Apply(m, e);
    if e.raised.Some? then (m1, result.(status := Failure))
    else (m1.(ctx := m1.ctx.(blockBatch := m1.ctx.blockBatch + [m1.ctx.txBatch], txBatch := [])),
          result.(status := Success))
  }

  const INSTALL := "install"

  /** The score an invocation calls: the test score address for an
      install, the recipient otherwise. */
  function ScoreTarget<W>(co: Collaborators<W>, to: Option<Address>, dataType: Option<string>): Option<Address>
  {
    if dataType == Some(INSTALL) then Some(co.testScoreAddress) else to
  }

  /** The contract address an install derives from the context's
      transaction; `context.tx` being `None` is an `AttributeError`. */
  function InstallAddress<W>(co: Collaborators<W>, m: Machine<W>): Outcome<DerivedAddress>
  {
    if m.ctx.tx.None? then Threw(Ordinary(AttributeError))
    else GenerateContractAddress(co.hash, m.ctx.tx.value.origin, m.ctx.tx.value.timestamp, m.ctx.tx.value.nonce)
  }

  /** `__handle_score_invoke`: an install is sent to the test score address
      and its result carries the derived contract address; whatever goes
      wrong (a missing transaction, a derivation error, the score raising)
      ends in FAILURE, because the `except` is bare. */
  function ScoreInvoke<W>(co: Collaborators<W>, m: Machine<W>, txHash: string, to: Option<Address>,
                          dataType: Option<string>, data: Option<Data>): (r: (Machine<W>, TxResult))
  {
    var result := TxResult(txHash, m.ctx.block, to, Failure, None);
    if dataType == Some(INSTALL) then
      match InstallAddress(co, m)
      case Threw(_) => (m, result)
      case Returned(address) =>
        InvokeScore(co, m, ScoreTarget(co, to, dataType), dataType, data, result.(contractAddress := Some(address)))
    else InvokeScore(co, m, ScoreTarget(co, to, dataType), dataType, data, result)
  }

  /** `_handle_icx_sendTransaction`: reads the keys, transfers, then either
      invokes the score (no recipient, or a contract) or records SUCCESS, and
      appends that one result to the block result. */
  function HandleSendTransaction<W>(co: Collaborators<W>, m: Machine<W>, p: Params): (r: (Machine<W>, Outcome<Option<CallValue>>))
  {
    if p.txHash.Missing? || p.from.Missing? || p.to.Missing? || p.fee.Missing? then (m, Threw(Ordinary(KeyError)))
    else
      var txHash, from, to := p.txHash.value, p.from.value, p.to.value;
      var e := co.transfer(m.world, m.ctx, from, to, GetOr(p.value, 0));
      var m1 := Apply(m, e);
      if e.raised.Some? then (m1, Threw(e.raised.value))
      else if to.None? || to.value.IsContract() then
        if p.dataType.Missing? || p.data.Missing? then (m1, Threw(Ordinary(KeyError)))
        else
          var (m2, result) := ScoreInvoke(co, m1, txHash, to, p.dataType.value, p.data.value);
          (m2.(ctx := m2.ctx.(blockResult := m2.ctx.blockResult + [result])), Returned(None))
      else
        var result := TxResult(txHash, m1.ctx.block, to, Success, None);
        (m1.(ctx := m1.ctx.(blockResult := m1.ctx.blockResult + [result])), Returned(None))
  }

  /** Running the handler as `call` runs it, `handler(context, params)`: the
      one-argument total-supply handler raises `TypeError` for the extra
      argument before it starts. */
  function Dispatch<W>(co: Collaborators<W>, m: Machine<W>, h: Handler, p: Params): (r: (Machine<W>, Outcome<Option<CallValue>>))
  {
    match h
    case GetBalanceHandler => HandleGetBalance(co, m, p)
    case GetTotalSupplyHandler => (m, Threw(Ordinary(TypeError)))
    case IcxCallHandler => HandleIcxCall(co, m, p)
    case SendTransactionHandler => HandleSendTransaction(co, m, p)
  }

  /** `call`'s `except KeyError` / `except Exception`: an ordinary exception
      becomes a `None` result; a service exception, which derives from
      `BaseException`, passes through. */
  function CallFilter(r: Outcome<Option<CallValue>>): (f: Outcome<Option<CallValue>>)
    ensures r.Returned? ==> f == r
    ensures r.Threw? && r.raised.Ordinary? ==> f == Returned(None)
    ensures r.Threw? && r.raised.Service? ==> f == r
  {
    if r.Threw? && r.raised.Ordinary? then Returned(None) else r
  }

  /** `call(context, method, params)`: an unknown method yields `None`;
      otherwise the handler runs and its outcome passes `CallFilter`. The
      state keeps whatever the handler did before it returned or raised. */
  function CallSpec<W>(co: Collaborators<W>, m: Machine<W>, rpcMethod: string, p: Params): (r: (Machine<W>, Outcome<Option<CallValue>>))
  {
    match HandlerFor(rpcMethod)
    case None => (m, Returned(None))
    case Some(h) =>
      var (m', o) := Dispatch(co, m, h, p);
      (m', CallFilter(o))
  }

  // ---------------------------------------------------------------- invoke

  /** One turn of `invoke`'s loop: read `tx['method']` and `tx['params']`
      (a missing key escapes `invoke`), `call`, then clear the transaction
      batch. A service exception escaping `call` ends the loop uncleared. */
  function InvokeTx<W>(co: Collaborators<W>, m: Machine<W>, tx: TxRequest): (r: (Machine<W>, Option<Raised>))
  {
    if tx.rpcMethod.Missing? || tx.params.Missing? then (m, Some(Ordinary(KeyError)))
    else
      var (m1, o) := CallSpec(co, m, tx.rpcMethod.value, tx.params.value);
      if o.Threw? then (m1, Some(o.raised))
      else (m1.(ctx := m1.ctx.(txBatch := [])), None)
  }

  /** The transactions in order, stopping at the first that escapes. */
  function InvokeLoop<W>(co: Collaborators<W>, m: Machine<W>, txs: seq<TxRequest>): (r: (Machine<W>, Option<Raised>))
    decreases |txs|
  {
    if txs == [] then (m, None)
    else
      var (m1, raised) := InvokeTx(co, m, txs[0]);
      if raised.Some? then (m1, raised) else InvokeLoop(co, m1, txs[1..])
  }

  /** The context `invoke` prepares before its loop: the block, an empty
      block batch, transaction batch and block result. */
  function InvokeStart(ctx: Context, height: int, hash: string): (c: Context)
    ensures c.blockBatch == [] && c.txBatch == [] && c.blockResult == []
    ensures c.block == Some(Block(height, hash))
    ensures c.ctxType == ctx.ctxType && c.tx == ctx.tx && c.msg == ctx.msg
  {
    ctx.(block := Some(Block(height, hash)), blockBatch := [], txBatch := [], blockResult := [])
  }

  /** `invoke(block_height, block_hash, transactions)` on a context from the
      factory: what it leaves, and what escapes it, if anything. */
  function InvokeSpec<W>(co: Collaborators<W>, world: W, ctx: Context, height: int, hash: string, txs: seq<TxRequest>): (r: (Machine<W>, Option<Raised>))
  {
    InvokeLoop(co, Machine(world, InvokeStart(ctx, height, hash)), txs)
  }

  // ---------------------------------------------------------------- genesis

  /** One genesis account: `account['address']`, `account['balance']`, then
      the ICX engine's initialisation, any exception escaping. */
  function InitAccount<W>(m: Machine<W>, account: Account, init: (W, Context, Address, int) -> Effect<W>): (r: (Machine<W>, Option<Raised>))
  {
    if account.address.Missing? || account.balance.Missing? then (m, Some(Ordinary(KeyError)))
    else
      var e := init(m.world, m.ctx, account.address.value, account.balance.value);
      (Apply(m, e), e.raised)
  }

  /** `genesis_invoke(accounts)`: accounts[0] is the genesis account and
      accounts[1] the fee treasury; a missing one raises `IndexError`. */
  function GenesisSpec<W>(co: Collaborators<W>, m: Machine<W>, accounts: seq<Account>): (r: (Machine<W>, Option<Raised>))
  {
    if |accounts| < 1 then (m, Some(Ordinary(IndexError)))
    else
      var (m1, raised) := InitAccount(m, accounts[0], co.initGenesisAccount);
      if raised.Some? then (m1, raised)
      else if |accounts| < 2 then (m1, Some(Ordinary(IndexError)))
      else InitAccount(m1, accounts[1], co.initFeeTreasuryAccount)
  }

  // ---------------------------------------------------------------- transaction info

  /** Python's `int(x)` for the values a timestamp may take. */
  function IntOf(x: PyScalar): (r: Outcome<int>)
  {
    match x
    case PyInt(i) => Returned(i)
    case PyStr(s) =>
      (match ParseDecimal(s)
       case None => Threw(Ordinary(ValueError))
       case Some(v) => Returned(v))
    case PyNone => Threw(Ordinary(TypeError))
  }

  predicate IsHexDigitAnyCase(c: char) { IsLowerHexDigit(c) || 'A' <= c <= 'F' }

  function HexDigitAnyCase(c: char): (d: nat)
    requires IsHexDigitAnyCase(c)
    ensures d < 16
  {
    if 'A' <= c <= 'F' then c as int - 'A' as int + 10 else HexValue(c)
  }

  /** The value of hex digits of either case, most significant first. */
  function HexDigitsValue(s: string): nat
    requires forall i :: 0 <= i < |s| ==> IsHexDigitAnyCase(s[i])
  {
    if s == [] then 0 else HexDigitsValue(s[..|s| - 1]) * 16 + HexDigitAnyCase(s[|s| - 1])
  }

  function ParseHexMagnitude(s: string): Option<nat>
  {
    var digits := if |s| >= 2 && s[0] == '0' && (s[1] == 'x' || s[1] == 'X') then s[2..] else s;
    if |digits| >= 1 && forall i :: 0 <= i < |digits| ==> IsHexDigitAnyCase(digits[i]) then Some(HexDigitsValue(digits))
    else None
  }

  /** Python's `int(x, 16)`: a string of hex digits, optionally signed and
      optionally prefixed with `0x`; a non-string raises `TypeError`. */
  function IntOfHex(x: PyScalar): (r: Outcome<int>)
  {
    match x
    case PyStr(s) =>
      var negative := |s| >= 1 && s[0] == '-';
      var unsigned := if |s| >= 1 && (s[0] == '-' || s[0] == '+') then s[1..] else s;
      (match ParseHexMagnitude(unsigned)
       case None => Threw(Ordinary(ValueError))
       case Some(v) => var n: int := v; Returned(if negative then -n else n))
    case PyInt(_) => Threw(Ordinary(TypeError))
    case PyNone => Threw(Ordinary(TypeError))
  }

  /** `_set_tx_info_to_context`: the context's transaction and message from
      `params`; a missing `from` raises `KeyError`, a malformed timestamp or
      nonce the error of `int`. */
  function SetTxInfoSpec(ctx: Context, p: Params): (r: Outcome<Context>)
  {
    match Lookup(p.from)
    case Threw(e) => Threw(e)
    case Returned(from) =>
      var timestamp: Outcome<Option<int>> :=
        if p.timestamp.Missing? then Returned(None)
        else match IntOf(p.timestamp.value) case Threw(e) => Threw(e) case Returned(t) => Returned(Some(t));
      match timestamp
      case Threw(e) => Threw(e)
      case Returned(ts) =>
        var nonce: Outcome<Option<int>> :=
          if p.nonce.Missing? then Returned(None)
          else match IntOfHex(p.nonce.value) case Threw(e) => Threw(e) case Returned(n) => Returned(Some(n));
        match nonce
        case Threw(e) => Threw(e)
        case Returned(ns) =>
          var txHash := if p.txHash.Given? then Some(p.txHash.value) else None;
          Returned(ctx.(tx := Some(Transaction(txHash, Some(from), ts, ns)),
                        msg := Some(Message(Some(from), Some(GetOr(p.value, 0))))))
  }
}
