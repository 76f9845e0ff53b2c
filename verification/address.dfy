/** Addresses as the engine sees them, and the derivation of a new contract's
    address from the deploying transaction: the sender's address body, the
    timestamp and (when present) the nonce, each integer as 32 big-endian
    bytes, hashed, and the last 20 characters of the hash's hex text. */
module Addresses {
  import opened Common
  import opened Text
  import opened Exceptions
  import Utils

  datatype AddressPrefix = Eoa | Contract

  /** An account address: a prefix and a body of bytes. */
  datatype Address = Address(prefix: AddressPrefix, body: Bytes)
  {
    /** `Address.is_contract`. */
    predicate IsContract() { prefix == Contract }
  }

  /** The address a deployment yields: `Address(AddressPrefix.CONTRACT,
      hash_value[-20:])`, whose body is the hex text itself. */
  datatype DerivedAddress = DerivedAddress(prefix: AddressPrefix, body: string)

  // ---------------------------------------------------------------- big-endian integers

  function Pow256(n: nat): (p: nat)
    ensures p >= 1
  {
    if n == 0 then 1 else 256 * Pow256(n - 1)
  }

  /** `n.to_bytes(width, 'big')` for an n that fits. */
  function ToBytesBig(n: nat, width: nat): (b: Bytes)
    requires n < Pow256(width)
    ensures |b| == width
  {
    if width == 0 then [] else ToBytesBig(n / 256, width - 1) + [n % 256]
  }

  /** The unsigned value of big-endian bytes (`int.from_bytes(b, 'big')`). */
  function FromBytesBig(b: Bytes): nat
  {
    if b == [] then 0 else FromBytesBig(b[..|b| - 1]) * 256 + b[|b| - 1]
  }

  lemma {:induction false} FromToBytesBig(n: nat, width: nat)
    requires n < Pow256(width)
    ensures FromBytesBig(ToBytesBig(n, width)) == n
  {
    if width > 0 {
      var b := ToBytesBig(n, width);
      assert b[..|b| - 1] == ToBytesBig(n / 256, width - 1);
      FromToBytesBig(n / 256, width - 1);
    }
  }

  /** The width of every integer in the derivation. */
  const INT_WIDTH: nat := 32

  /** `n.to_bytes(32, 'big')`: 32 bytes whose big-endian value is n, or
      `OverflowError` for a negative n or one of 2^256 and above. */
  function IntToBytes32(n: int): (r: Outcome<Bytes>)
    ensures r.Returned? <==> 0 <= n < Pow256(INT_WIDTH)
    ensures r.Returned? ==> |r.value| == INT_WIDTH && FromBytesBig(r.value) == n
    ensures r.Threw? ==> r.raised == Ordinary(OverflowError)
  {
    if 0 <= n < Pow256(INT_WIDTH) then
      FromToBytesBig(n, INT_WIDTH);
      Returned(ToBytesBig(n, INT_WIDTH))
    else Threw(Ordinary(OverflowError))
  }

  // ---------------------------------------------------------------- derivation

  /** The hashed data `from_.body + timestamp.to_bytes(32, 'big')`, with
      `nonce.to_bytes(32, 'big')` appended when a nonce is given. A missing
      origin or timestamp is `None`, whose missing attribute raises
      `AttributeError`. */
  function ContractPreimage(origin: Option<Address>, timestamp: Option<int>, nonce: Option<int>): (r: Outcome<Bytes>)
    ensures r.Returned? <==>
      && origin.Some? && timestamp.Some? && 0 <= timestamp.value < Pow256(INT_WIDTH)
      && (nonce.Some? ==> 0 <= nonce.value < Pow256(INT_WIDTH))
    ensures r.Returned? ==>
      |r.value| == |origin.value.body| + INT_WIDTH + (if nonce.Some? then INT_WIDTH else 0)
  {
    if origin.None? || timestamp.None? then Threw(Ordinary(AttributeError))
    else
      match IntToBytes32(timestamp.value)
      case Threw(e) => Threw(e)
      case Returned(ts) =>
        var data := origin.value.body + ts;
        if nonce.None? then Returned(data)
        else
          match IntToBytes32(nonce.value)
          case Threw(e) => Threw(e)
          case Returned(ns) => Returned(data + ns)
  }

  /** Length of `hexdigest()` of a digest, and of the address body kept. */
  const HEX_DIGEST_LENGTH: nat := 2 * DIGEST_SIZE
  const ADDRESS_BODY_LENGTH: nat := 20

  /** `__generate_contract_address`: the last 20 characters of the hex text
      of the preimage's hash, under the contract prefix. */
  function GenerateContractAddress(hash: HashFunction, origin: Option<Address>, timestamp: Option<int>, nonce: Option<int>): (r: Outcome<DerivedAddress>)
    ensures r.Returned? <==> ContractPreimage(origin, timestamp, nonce).Returned?
    ensures r.Threw? ==> r.raised == ContractPreimage(origin, timestamp, nonce).raised
    ensures r.Returned? ==> r.value.prefix == Contract && |r.value.body| == ADDRESS_BODY_LENGTH
  {
    match ContractPreimage(origin, timestamp, nonce)
    case Threw(e) => Threw(e)
    case Returned(data) =>
      var text := HexEncode(hash(data));
      Returned(DerivedAddress(Contract, text[HEX_DIGEST_LENGTH - ADDRESS_BODY_LENGTH..]))
  }

  // ---------------------------------------------------------------- properties

  /** Distinct deployment data give distinct preimages: for senders whose
      bodies have the same length, the preimage determines the sender's
      body, the timestamp and whether and which nonce was given. */
  lemma PreimageInjective(origin: Address, timestamp: int, nonce: Option<int>,
                          origin': Address, timestamp': int, nonce': Option<int>)
    requires |origin.body| == |origin'.body|
    requires ContractPreimage(Some(origin), Some(timestamp), nonce).Returned?
    requires ContractPreimage(Some(origin'), Some(timestamp'), nonce').Returned?
    requires ContractPreimage(Some(origin), Some(timestamp), nonce) == ContractPreimage(Some(origin'), Some(timestamp'), nonce')
    ensures origin.body == origin'.body && timestamp == timestamp' && nonce == nonce'
  {
    var data := ContractPreimage(Some(origin), Some(timestamp), nonce).value;
    var n := |origin.body|;
    var ts := IntToBytes32(timestamp).value;
    var ts' := IntToBytes32(timestamp').value;
    assert nonce.Some? <==> nonce'.Some?;
    assert data[..n] == origin.body && data[..n] == origin'.body;
    assert data[n..n + INT_WIDTH] == ts && data[n..n + INT_WIDTH] == ts';
    if nonce.Some? {
      var ns := IntToBytes32(nonce.value).value;
      var ns' := IntToBytes32(nonce'.value).value;
      assert data[n + INT_WIDTH..] == ns && data[n + INT_WIDTH..] == ns';
    }
  }

  /** The last bytes of a digest render as the last characters of its hex
      text. */
  lemma HexEncodeSuffix(d: Bytes, k: nat)
    requires k <= |d|
    ensures HexEncode(d)[2 * k..] == HexEncode(d[k..])
  {
    assert d == d[..k] + d[k..];
    HexEncodeAppend(d[..k], d[k..]);
  }

  /** A derived address body is 20 lowercase hex characters that the
      validator accepts, and it reads back as the last 10 bytes of the hash
      of the preimage. */
  lemma DerivedBodyIsDigestTail(hash: HashFunction, origin: Option<Address>, timestamp: Option<int>, nonce: Option<int>)
    requires GenerateContractAddress(hash, origin, timestamp, nonce).Returned?
    ensures var body := GenerateContractAddress(hash, origin, timestamp, nonce).value.body;
      && Utils.IsLowercaseHexString(Utils.Str(body))
      && HexDecode(body) == hash(ContractPreimage(origin, timestamp, nonce).value)[DIGEST_SIZE - ADDRESS_BODY_LENGTH / 2..]
  {
    var digest := hash(ContractPreimage(origin, timestamp, nonce).value);
    var body := GenerateContractAddress(hash, origin, timestamp, nonce).value.body;
    var k := DIGEST_SIZE - ADDRESS_BODY_LENGTH / 2;
    HexEncodeSuffix(digest, k);
    assert body == HexEncode(digest[k..]);
    HexRoundTrip(digest[k..]);
    Utils.IsLowercaseHexStringIff(body);
  }
}
