/**
 * The chain readers: `TronAccountReader` (TronGrid) and
 * `EthereumAccountReader` (Etherscan and BscScan). Each keeps its request
 * configuration (address, an API key drawn from a pool, headers and query
 * dicts), fetches JSON replies and normalises them into balances and signed
 * transactions seen from the reader's own address.
 *
 * The HTTP round trip is the `Fetch` parameter, Base58Check encoding the
 * `Encoder` parameter, and the random user agent a parameter of the methods
 * that install one. An operation that raises yields `Err`.
 */
module AccountReaders {
  import opened Wrappers
  import opened Strings
  import opened Json

  const TronApiUrl: string := "https://api.trongrid.io/v1/accounts/"
  const TronUsdtContract: string := "TR7NHqjeKQxGTCi8q8ZY4pL8otSzgjLj6t"
  const EtherscanApiUrl: string := "https://api.etherscan.io/api"
  const EtherscanUsdtContract: string := "0xdAC17F958D2ee523a2206206994597C13D831ec7"
  const BscscanApiUrl: string := "https://api.bscscan.com/api"
  const BscscanUsdtContract: string := "0x55d398326f99059ff775485246999027b3197955"

  /** A query-string value. */
  datatype Param = PStr(s: string) | PNum(n: int)

  datatype Request = Request(url: string, params: map<string, Param>, headers: map<string, string>)

  /**
   * One HTTP GET with its JSON decoding and all six attempts of the retry:
   * `None` when every attempt failed, so that the retry gives up and raises.
   */
  type Fetch = Request -> Option<Json>

  type Byte = x: int | 0 <= x < 256

  /** `base58.b58encode_check(...).decode()`. */
  type Encoder = seq<Byte> -> string

  /** Why a reader call raised: the fetch gave up, a reply had an unexpected shape, no key pool. */
  datatype Fault = FetchFailed | Malformed | NoApiKey

  /** The reader's `AccountBalance`. */
  datatype AccountBalance = AccountBalance(address: string, nativeBalance: int, tokenBalance: int)

  /**
   * The reader's `AccountTransaction`: the counterparty, the amount signed
   * from the reader's own point of view, and the time in milliseconds.
   */
  datatype ReaderTx = ReaderTx(address: string, amount: int, timestamp: int)

  // ---------------------------------------------------------------------------
  // Accessors that raise.

  /** `value.get(key)` on a reply that must be an object. */
  function Field(j: Json, key: string): (r: Result<Json, Fault>)
    ensures r.Ok? <==> j.JObj?
    ensures r.Ok? ==> Get(j, key) == Some(r.value)
  {
    match Get(j, key)
    case None => Err(Malformed)
    case Some(v) => Ok(v)
  }

  /** `value[key]`. */
  function Member(j: Json, key: string): (r: Result<Json, Fault>)
    ensures r.Ok? <==> Index(j, key).Some?
    ensures r.Ok? ==> Index(j, key) == Some(r.value)
  {
    match Index(j, key)
    case None => Err(Malformed)
    case Some(v) => Ok(v)
  }

  /** `value.get(key, default)` on a reply that must be an object. */
  function FieldOr(j: Json, key: string, default: Json): (r: Result<Json, Fault>)
    ensures r.Ok? <==> j.JObj?
    ensures r.Ok? ==> GetOr(j, key, default) == Some(r.value)
  {
    match GetOr(j, key, default)
    case None => Err(Malformed)
    case Some(v) => Ok(v)
  }

  /** `int(value)`. */
  function AsInt(j: Json): (r: Result<int, Fault>)
    ensures r.Ok? <==> ToInt(j).Some?
    ensures r.Ok? ==> ToInt(j) == Some(r.value)
  {
    match ToInt(j)
    case None => Err(Malformed)
    case Some(n) => Ok(n)
  }

  /** A value used in arithmetic or carried as an amount: it must be a number. */
  function AsNumber(j: Json): (r: Result<int, Fault>)
    ensures r.Ok? <==> j.JNum?
    ensures r.Ok? ==> r.value == j.n
  {
    if j.JNum? then Ok(j.n) else Err(Malformed)
  }

  /** A value used as an address: it must be text. */
  function AsText(j: Json): (r: Result<string, Fault>)
    ensures r.Ok? <==> j.JStr?
    ensures r.Ok? ==> r.value == j.s
  {
    if j.JStr? then Ok(j.s) else Err(Malformed)
  }

  /** The elements a `for` loop over the value visits. */
  function Iterate(j: Json): (r: Result<seq<Json>, Fault>)
    ensures r.Ok? <==> Items(j).Some?
    ensures r.Ok? ==> Items(j) == Some(r.value)
  {
    match Items(j)
    case None => Err(Malformed)
    case Some(items) => Ok(items)
  }

  /** `next(iter(items), None)`. */
  function First(items: seq<Json>): (r: Json)
    ensures items == [] ==> r == JNull
    ensures items != [] ==> r == items[0]
  {
    if items == [] then JNull else items[0]
  }

  // ---------------------------------------------------------------------------
  // `UrlReader.get_raw_data`.

  /** An empty URL raises `ValueError` on every attempt, so the retry gives up. */
  function GetRawData(fetch: Fetch, request: Request): (r: Result<Json, Fault>)
    ensures request.url == "" ==> r == Err(FetchFailed)
    ensures request.url != "" && fetch(request).Some? ==> r == Ok(fetch(request).value)
    ensures request.url != "" && fetch(request).None? ==> r == Err(FetchFailed)
  {
    if request.url == "" then Err(FetchFailed)
    else match fetch(request)
      case None => Err(FetchFailed)
      case Some(reply) => Ok(reply)
  }

  // ---------------------------------------------------------------------------
  // Generator expressions: every element is normalised in order, the first
  // element that raises ends the whole iteration.

  function Collect(items: seq<Json>, normalise: Json -> Result<Option<ReaderTx>, Fault>): (r: Result<seq<ReaderTx>, Fault>)
    ensures r.Ok? <==> forall i :: 0 <= i < |items| ==> normalise(items[i]).Ok?
    ensures r.Ok? ==> |r.value| <= |items|
    ensures r.Ok? ==> forall t :: t in r.value ==> exists i :: 0 <= i < |items| && normalise(items[i]) == Ok(Some(t))
    ensures r.Ok? ==> forall i :: 0 <= i < |items| && normalise(items[i]).value.Some? ==> normalise(items[i]).value.value in r.value
  {
    if items == [] then Ok([])
    else
      var head :- normalise(items[0]);
      var rest :- Collect(items[1..], normalise);
      assert forall i :: 1 <= i < |items| ==> items[i] == items[1..][i - 1];
      Ok((if head.Some? then [head.value] else []) + rest)
  }

  /** One element gives its own record, nothing, or its own failure. */
  lemma CollectSingle(item: Json, normalise: Json -> Result<Option<ReaderTx>, Fault>)
    ensures normalise(item).Err? ==> Collect([item], normalise) == Err(normalise(item).error)
    ensures normalise(item) == Ok(None) ==> Collect([item], normalise) == Ok([])
    ensures normalise(item).Ok? && normalise(item).value.Some? ==> Collect([item], normalise) == Ok([normalise(item).value.value])
  {
    assert [item][1..] == [];
    if normalise(item).Ok? && normalise(item).value.Some? {
      assert [normalise(item).value.value] + [] == [normalise(item).value.value];
    }
  }

  /**
   * Records come out in the order of the elements: the records of `a + b`
   * are those of `a` followed by those of `b`, and the first failure wins.
   */
  lemma {:induction false} CollectAppend(a: seq<Json>, b: seq<Json>, normalise: Json -> Result<Option<ReaderTx>, Fault>)
    ensures Collect(a, normalise).Err? ==> Collect(a + b, normalise) == Collect(a, normalise)
    ensures Collect(a, normalise).Ok? && Collect(b, normalise).Err? ==> Collect(a + b, normalise) == Collect(b, normalise)
    ensures Collect(a, normalise).Ok? && Collect(b, normalise).Ok? ==>
      Collect(a + b, normalise) == Ok(Collect(a, normalise).value + Collect(b, normalise).value)
  {
    if a == [] {
      assert a + b == b;
      assert Collect(a, normalise) == Ok([]);
      if Collect(b, normalise).Ok? {
        assert [] + Collect(b, normalise).value == Collect(b, normalise).value;
      }
    } else {
      var ab := a + b;
      assert ab[0] == a[0];
      assert ab[1..] == a[1..] + b;
      CollectAppend(a[1..], b, normalise);
      CollectUnfold(a, normalise);
      CollectUnfold(ab, normalise);
      var x, y := Collect(a[1..], normalise), Collect(b, normalise);
      if normalise(a[0]).Ok? && x.Ok? && y.Ok? {
        var head := normalise(a[0]).value;
        var h := if head.Some? then [head.value] else [];
        ConcatAssoc(h, x.value, y.value);
      }
    }
  }

  lemma ConcatAssoc(h: seq<ReaderTx>, x: seq<ReaderTx>, y: seq<ReaderTx>)
    ensures h + (x + y) == (h + x) + y
  {
  }

  /** One step of the generator. */
  lemma CollectUnfold(items: seq<Json>, normalise: Json -> Result<Option<ReaderTx>, Fault>)
    requires items != []
    ensures normalise(items[0]).Err? ==> Collect(items, normalise) == Err(normalise(items[0]).error)
    ensures normalise(items[0]).Ok? && Collect(items[1..], normalise).Err? ==>
      Collect(items, normalise) == Collect(items[1..], normalise)
    ensures normalise(items[0]).Ok? && Collect(items[1..], normalise).Ok? ==>
      var head := normalise(items[0]).value;
      Collect(items, normalise) == Ok((if head.Some? then [head.value] else []) + Collect(items[1..], normalise).value)
  {
  }

  // ---------------------------------------------------------------------------
  // Tron addresses.

  /** `hex_to_base58`'s prefix rule: a leading "0x" or "0X" becomes the Tron network byte "41". */
  function TronHex(s: string): (r: string)
    ensures |s| >= 2 && s[..2] in {"0x", "0X"} ==> r == "41" + s[2..]
    ensures !(|s| >= 2 && s[..2] in {"0x", "0X"}) ==> r == s
  {
    if |s| >= 2 && s[..2] in {"0x", "0X"} then "41" + s[2..] else s
  }

  /** `bytes.fromhex(s)` for text without spaces: pairs of hex digits in either case. */
  function FromHex(s: string): (r: Option<seq<Byte>>)
    ensures r.Some? ==> |s| == 2 * |r.value|
    ensures r.Some? <==> |s| % 2 == 0 && AllDigits(s, 16)
    decreases |s|
  {
    if s == [] then Some([])
    else if |s| < 2 || !IsDigit(s[0], 16) || !IsDigit(s[1], 16) then None
    else match FromHex(s[2..])
      case None =>
        assert AllDigits(s, 16) ==> AllDigits(s[2..], 16) by {
          forall i | 0 <= i < |s[2..]| ensures s[2..][i] == s[i + 2] { }
        }
        None
      case Some(rest) => Some([DigitValue(s[0]) * 16 + DigitValue(s[1])] + rest)
  }

  /** `bytes.hex()`: two lower-case digits per byte. */
  function ToHex(bytes: seq<Byte>): (r: string)
    ensures |r| == 2 * |bytes|
  {
    if bytes == [] then "" else [DigitChar(bytes[0] / 16), DigitChar(bytes[0] % 16)] + ToHex(bytes[1..])
  }

  /** Every byte string survives printing and `bytes.fromhex`. */
  lemma {:induction false} FromHexToHex(bytes: seq<Byte>)
    ensures FromHex(ToHex(bytes)) == Some(bytes)
  {
    if bytes != [] {
      var s := ToHex(bytes);
      var hi, lo := bytes[0] / 16, bytes[0] % 16;
      DigitCharValue(hi);
      DigitCharValue(lo);
      assert s[0] == DigitChar(hi) && s[1] == DigitChar(lo);
      assert s[2..] == ToHex(bytes[1..]);
      FromHexToHex(bytes[1..]);
      assert FromHex(s) == Some([hi * 16 + lo] + bytes[1..]);
      assert bytes == [bytes[0]] + bytes[1..];
    }
  }

  lemma DigitCharValue(d: nat)
    requires d < 16
    ensures DigitValue(DigitChar(d)) == d
  {
  }

  /** `TronAccountReader.hex_to_base58` on a reply value. */
  function HexToBase58(hex: Json, encode: Encoder): (r: Result<string, Fault>)
    ensures r.Ok? <==> hex.JStr? && FromHex(TronHex(hex.s)).Some?
    ensures r.Ok? ==> r.value == encode(FromHex(TronHex(hex.s)).value)
  {
    var s :- AsText(hex);
    match FromHex(TronHex(s))
    case None => Err(Malformed)
    case Some(bytes) => Ok(encode(bytes))
  }

  /** "0x", "0X" and "41" in front of the same digits name the same Tron address. */
  lemma HexPrefixesAgree(digits: string, encode: Encoder)
    ensures HexToBase58(JStr("0x" + digits), encode) == HexToBase58(JStr("41" + digits), encode)
    ensures HexToBase58(JStr("0X" + digits), encode) == HexToBase58(JStr("41" + digits), encode)
  {
    assert ("0x" + digits)[..2] == "0x" && ("0x" + digits)[2..] == digits;
    assert ("0X" + digits)[..2] == "0X" && ("0X" + digits)[2..] == digits;
    assert ("41" + digits)[..2] == "41";
  }

  // ---------------------------------------------------------------------------
  // Tron replies.

  /** `result = raw_data.get("success") if raw_data else None`, then `if result:`. */
  function SuccessGate(reply: Json): (r: Result<bool, Fault>)
    ensures !Truthy(reply) ==> r == Ok(false)
    ensures Truthy(reply) && !reply.JObj? ==> r.Err?
    ensures r == Ok(true) <==> reply.JObj? && reply.fields != map[] && Truthy(Get(reply, "success").value)
  {
    if !Truthy(reply) then Ok(false)
    else
      var success :- Field(reply, "success");
      Ok(Truthy(success))
  }

  /** Entry `i` is the first whose value for the contract is truthy; every entry before it is an object. */
  predicate FirstTruthyAt(entries: seq<Json>, contract: string, i: int)
  {
    && 0 <= i < |entries|
    && (forall j :: 0 <= j < i ==> entries[j].JObj? && !Truthy(Get(entries[j], contract).value))
    && entries[i].JObj? && Truthy(Get(entries[i], contract).value)
  }

  /** `int(next((item.get(c, 0) for item in trc20 if item.get(c)), 0))`. */
  function FirstTokenBalance(entries: seq<Json>, contract: string): (r: Result<int, Fault>)
    ensures r.Ok? ==>
      || (exists i :: FirstTruthyAt(entries, contract, i) && ToInt(Get(entries[i], contract).value) == Some(r.value))
      || ((forall i :: 0 <= i < |entries| ==> entries[i].JObj? && !Truthy(Get(entries[i], contract).value)) && r.value == 0)
    ensures (forall i :: 0 <= i < |entries| ==> entries[i].JObj? && !Truthy(Get(entries[i], contract).value)) ==> r == Ok(0)
  {
    if entries == [] then Ok(0)
    else
      var value :- Field(entries[0], contract);
      if Truthy(value) then
        assert FirstTruthyAt(entries, contract, 0);
        AsInt(value)
      else
        var rest :- FirstTokenBalance(entries[1..], contract);
        FirstTokenBalanceRest(entries, contract, rest);
        Ok(rest)
  }

  /** The witness for the tail moves one place along when the head is a falsy object. */
  lemma FirstTokenBalanceRest(entries: seq<Json>, contract: string, rest: int)
    requires entries != [] && entries[0].JObj? && !Truthy(Get(entries[0], contract).value)
    requires || (exists i :: FirstTruthyAt(entries[1..], contract, i) && ToInt(Get(entries[1..][i], contract).value) == Some(rest))
             || ((forall i :: 0 <= i < |entries[1..]| ==> entries[1..][i].JObj? && !Truthy(Get(entries[1..][i], contract).value)) && rest == 0)
    ensures || (exists i :: FirstTruthyAt(entries, contract, i) && ToInt(Get(entries[i], contract).value) == Some(rest))
            || ((forall i :: 0 <= i < |entries| ==> entries[i].JObj? && !Truthy(Get(entries[i], contract).value)) && rest == 0)
  {
    if k :| FirstTruthyAt(entries[1..], contract, k) && ToInt(Get(entries[1..][k], contract).value) == Some(rest) {
      assert forall j :: 1 <= j <= k + 1 ==> entries[j] == entries[1..][j - 1];
      assert FirstTruthyAt(entries, contract, k + 1);
    } else {
      assert forall i :: 1 <= i < |entries| ==> entries[i] == entries[1..][i - 1];
    }
  }

  /** The balance is `int` of the first truthy contract value, and raises exactly where that `int` does. */
  lemma {:induction false} FirstTokenBalanceAt(entries: seq<Json>, contract: string, i: int)
    requires FirstTruthyAt(entries, contract, i)
    ensures FirstTokenBalance(entries, contract) == AsInt(Get(entries[i], contract).value)
    decreases i
  {
    if i > 0 {
      assert entries[0].JObj? && !Truthy(Get(entries[0], contract).value);
      assert forall j :: 0 <= j < i - 1 ==> entries[1..][j] == entries[j + 1];
      assert FirstTruthyAt(entries[1..], contract, i - 1);
      FirstTokenBalanceAt(entries[1..], contract, i - 1);
      assert entries[1..][i - 1] == entries[i];
    }
  }

  /** The reply of `GET {base}{address}` as `TronAccountReader.get_account_data` reads it. */
  function TronAccountData(address: string, reply: Json, contract: string): (r: Result<Option<AccountBalance>, Fault>)
    ensures r.Ok? && r.value.Some? ==>
      SuccessGate(reply) == Ok(true)
      && Items(Get(reply, "data").value).Some? && Items(Get(reply, "data").value).value != []
      && r.value.value.address == address
    ensures SuccessGate(reply) == Ok(false) ==> r == Ok(None)
    ensures r.Ok? && r.value.Some? ==> var account := First(Items(Get(reply, "data").value).value);
      account.JObj?
      && (!Truthy(Get(account, "balance").value) ==> r.value.value.nativeBalance == 0)
      && (Truthy(Get(account, "balance").value) ==> Get(account, "balance").value == JNum(r.value.value.nativeBalance))
      && (!Truthy(Get(account, "trc20").value) ==> r.value.value.tokenBalance == 0)
      && (Truthy(Get(account, "trc20").value) ==>
            Items(Get(account, "trc20").value).Some?
            && FirstTokenBalance(Items(Get(account, "trc20").value).value, contract) == Ok(r.value.value.tokenBalance))
  {
    var success :- SuccessGate(reply);
    if !success then Ok(None)
    else
      var dataList := Get(reply, "data").value;
      var data :- Iterate(dataList);
      var account := First(data);
      if !Truthy(account) then Ok(None)
      else
        var balance :- Field(account, "balance");
        var native :- if Truthy(balance) then AsNumber(balance) else Ok(0);
        var trc20 := Get(account, "trc20").value;
        var token :-
          if Truthy(trc20) then
            var entries :- Iterate(trc20);
            FirstTokenBalance(entries, contract)
          else Ok(0);
        Ok(Some(AccountBalance(address, native, token)))
  }

  /** A successful reply whose first account object carries well-formed balances yields them. */
  lemma TronAccountDataSome(address: string, reply: Json, contract: string)
    requires SuccessGate(reply) == Ok(true)
    requires Items(Get(reply, "data").value).Some? && Items(Get(reply, "data").value).value != []
    requires var account := Items(Get(reply, "data").value).value[0];
      && account.JObj? && Truthy(account)
      && (Truthy(Get(account, "balance").value) ==> Get(account, "balance").value.JNum?)
      && (Truthy(Get(account, "trc20").value) ==>
            Items(Get(account, "trc20").value).Some?
            && FirstTokenBalance(Items(Get(account, "trc20").value).value, contract).Ok?)
    ensures var account := Items(Get(reply, "data").value).value[0];
      var balance, trc20 := Get(account, "balance").value, Get(account, "trc20").value;
      TronAccountData(address, reply, contract)
        == Ok(Some(AccountBalance(address,
                                  if Truthy(balance) then balance.n else 0,
                                  if Truthy(trc20) then FirstTokenBalance(Items(trc20).value, contract).value else 0)))
  {
  }

  /**
   * A transfer as the provider reports it, before orientation: sender,
   * receiver, unsigned amount, time in milliseconds.
   */
  datatype Transfer = Transfer(from: string, to: string, amount: int, timestamp: int)

  /**
   * Orientation of a transfer seen from the reader: an outgoing transfer
   * names the receiver and a negated amount, an incoming one the sender and
   * the amount as it is.
   */
  function Orient(t: Transfer, outgoing: bool): (r: ReaderTx)
    ensures r.timestamp == t.timestamp
    ensures outgoing ==> r.address == t.to && r.amount == -t.amount
    ensures !outgoing ==> r.address == t.from && r.amount == t.amount
  {
    if outgoing then ReaderTx(t.to, -t.amount, t.timestamp) else ReaderTx(t.from, t.amount, t.timestamp)
  }

  /** For a positive amount the sign of the oriented amount tells the direction. */
  lemma OrientSign(t: Transfer, outgoing: bool)
    requires t.amount > 0
    ensures Orient(t, outgoing).amount < 0 <==> outgoing
    ensures Orient(t, outgoing).amount > 0 <==> !outgoing
  {
  }

  /** The first contract of a TronGrid transaction record. */
  function FirstContract(trn: Json): (r: Result<Json, Fault>)
    ensures r.Ok? ==> trn.JObj?
  {
    var rawData :- Field(trn, "raw_data");
    var contracts :- Field(rawData, "contract");
    var items :- Iterate(contracts);
    Ok(First(items))
  }

  /** Only a first contract of type "TransferContract" makes a record. */
  predicate IsTransferContract(trn: Json)
  {
    FirstContract(trn).Ok? && Truthy(FirstContract(trn).value)
    && Get(FirstContract(trn).value, "type") == Some(JStr("TransferContract"))
  }

  /** The transfer carried by a TronGrid record whose first contract is a TransferContract. */
  function TronTransfer(trn: Json, contract: Json, encode: Encoder): (r: Result<Transfer, Fault>)
    ensures r.Ok? ==> Get(contract, "parameter").Some? && Get(Get(contract, "parameter").value, "value").Some?
    ensures r.Ok? ==> var value := Get(Get(contract, "parameter").value, "value").value;
      && Get(value, "amount") == Some(JNum(r.value.amount))
      && HexToBase58(Get(value, "owner_address").value, encode) == Ok(r.value.from)
      && HexToBase58(Get(value, "to_address").value, encode) == Ok(r.value.to)
      && Get(trn, "block_timestamp") == Some(JNum(r.value.timestamp))
  {
    var parameter :- Field(contract, "parameter");
    var value :- Field(parameter, "value");
    var amountValue :- Field(value, "amount");
    var ownerHex := Get(value, "owner_address").value;
    var owner :- HexToBase58(ownerHex, encode);
    var toHex := Get(value, "to_address").value;
    var to :- HexToBase58(toHex, encode);
    var blockTime :- Field(trn, "block_timestamp");
    var timestamp :- AsNumber(blockTime);
    var amount :- AsNumber(amountValue);
    Ok(Transfer(owner, to, amount, timestamp))
  }

  /** `TronAccountReader.__process_native_transaction`. */
  function TronNativeRecord(own: string, trn: Json, encode: Encoder): (r: Result<Option<ReaderTx>, Fault>)
    ensures r.Ok? && r.value.Some? ==> IsTransferContract(trn)
    ensures r.Ok? && !IsTransferContract(trn) ==> r.value.None?
    ensures r.Ok? && r.value.Some? ==>
      FirstContract(trn).Ok? && TronTransfer(trn, FirstContract(trn).value, encode).Ok?
      && var t := TronTransfer(trn, FirstContract(trn).value, encode).value;
      r.value.value == Orient(t, t.from == own)
  {
    var contract :- FirstContract(trn);
    if !Truthy(contract) then Ok(None)
    else
      var kind :- Field(contract, "type");
      if kind != JStr("TransferContract") then Ok(None)
      else
        var transfer :- TronTransfer(trn, contract, encode);
        Ok(Some(Orient(transfer, transfer.from == own)))
  }

  /** A record whose first contract is a well-formed TransferContract yields its oriented transfer. */
  lemma TronNativeRecordSome(own: string, trn: Json, encode: Encoder)
    requires IsTransferContract(trn)
    requires TronTransfer(trn, FirstContract(trn).value, encode).Ok?
    ensures var t := TronTransfer(trn, FirstContract(trn).value, encode).value;
      TronNativeRecord(own, trn, encode) == Ok(Some(Orient(t, t.from == own)))
  {
  }

  /** A contract value with a numeric amount, two decodable addresses and a numeric block time is a transfer. */
  lemma TronTransferOk(trn: Json, contract: Json, encode: Encoder, value: Json, amount: int, timestamp: int)
    requires Get(contract, "parameter").Some? && Get(Get(contract, "parameter").value, "value") == Some(value)
    requires Get(value, "amount") == Some(JNum(amount))
    requires HexToBase58(Get(value, "owner_address").value, encode).Ok?
    requires HexToBase58(Get(value, "to_address").value, encode).Ok?
    requires Get(trn, "block_timestamp") == Some(JNum(timestamp))
    ensures TronTransfer(trn, contract, encode)
      == Ok(Transfer(HexToBase58(Get(value, "owner_address").value, encode).value,
                     HexToBase58(Get(value, "to_address").value, encode).value, amount, timestamp))
  {
  }

  /** One record of the TRC20 transfer list: a zero value is skipped, the sender is compared exactly. */
  function TronTokenRecord(own: string, trn: Json): (r: Result<Option<ReaderTx>, Fault>)
    ensures r.Ok? ==> Index(trn, "value").Some? && ToInt(Index(trn, "value").value).Some?
    ensures r.Ok? && ToInt(Index(trn, "value").value) == Some(0) ==> r.value.None?
    ensures r.Ok? && r.value.Some? ==> var amount := ToInt(Index(trn, "value").value).value;
      amount != 0
      && (Index(trn, "from") == Some(JStr(own)) ==>
            (r.value.value.amount == -amount && Index(trn, "to") == Some(JStr(r.value.value.address))))
      && (Index(trn, "from") != Some(JStr(own)) ==>
            (r.value.value.amount == amount && Index(trn, "from") == Some(JStr(r.value.value.address))))
      && Get(trn, "block_timestamp") == Some(JNum(r.value.value.timestamp))
  {
    var valueJ :- Member(trn, "value");
    var amount :- AsInt(valueJ);
    if amount == 0 then Ok(None)
    else
      var fromJ :- Member(trn, "from");
      var blockTime := Get(trn, "block_timestamp").value;
      var timestamp :- AsNumber(blockTime);
      if fromJ == JStr(own) then
        var toJ :- Member(trn, "to");
        var to :- AsText(toJ);
        Ok(Some(ReaderTx(to, -amount, timestamp)))
      else
        var from :- AsText(fromJ);
        Ok(Some(ReaderTx(from, amount, timestamp)))
  }

  /** A non-zero transfer with text endpoints and a numeric block time yields its record. */
  lemma TronTokenRecordSome(own: string, trn: Json, amount: int, from: string, to: string, timestamp: int)
    requires Index(trn, "value").Some? && ToInt(Index(trn, "value").value) == Some(amount) && amount != 0
    requires Index(trn, "from") == Some(JStr(from))
    requires from == own ==> Index(trn, "to") == Some(JStr(to))
    requires Get(trn, "block_timestamp") == Some(JNum(timestamp))
    ensures TronTokenRecord(own, trn)
      == Ok(Some(if from == own then ReaderTx(to, -amount, timestamp) else ReaderTx(from, amount, timestamp)))
  {
  }

  /** The list of a successful Tron transaction reply. */
  function TronTransactions(reply: Json, normalise: Json -> Result<Option<ReaderTx>, Fault>): (r: Result<Option<seq<ReaderTx>>, Fault>)
    ensures SuccessGate(reply) == Ok(false) ==> r == Ok(None)
    ensures r.Ok? && r.value.Some? ==>
      (SuccessGate(reply) == Ok(true) && Items(Get(reply, "data").value).Some?
       && Collect(Items(Get(reply, "data").value).value, normalise) == Ok(r.value.value))
    ensures (SuccessGate(reply) == Ok(true) && Items(Get(reply, "data").value).Some?
             && Collect(Items(Get(reply, "data").value).value, normalise).Ok?) ==>
      r == Ok(Some(Collect(Items(Get(reply, "data").value).value, normalise).value))
  {
    var success :- SuccessGate(reply);
    if !success then Ok(None)
    else
      var data :- Iterate(Get(reply, "data").value);
      var records :- Collect(data, normalise);
      Ok(Some(records))
  }

  /** Every TRC20 record the Tron token normaliser keeps moves a non-zero amount. */
  lemma TronTokenNonZero(own: string, reply: Json)
    ensures var r := TronTransactions(reply, trn => TronTokenRecord(own, trn));
      r.Ok? && r.value.Some? ==> forall t :: t in r.value.value ==> t.amount != 0
  {
    var r := TronTransactions(reply, trn => TronTokenRecord(own, trn));
    if r.Ok? && r.value.Some? {
      var items := Items(Get(reply, "data").value).value;
      forall t | t in r.value.value ensures t.amount != 0 {
        var i :| 0 <= i < |items| && TronTokenRecord(own, items[i]) == Ok(Some(t));
      }
    }
  }

  // ---------------------------------------------------------------------------
  // Etherscan-style replies.

  /** `if raw and raw.get("message") != "OK": return`: `false` means the reader returns None. */
  function MessageGate(reply: Json): (r: Result<bool, Fault>)
    ensures !Truthy(reply) ==> r == Ok(true)
    ensures Truthy(reply) && reply.JObj? ==> r == Ok(Get(reply, "message") == Some(JStr("OK")))
    ensures Truthy(reply) && !reply.JObj? ==> r.Err?
  {
    if !Truthy(reply) then Ok(true)
    else
      var message :- Field(reply, "message");
      Ok(message == JStr("OK"))
  }

  /** `EthereumAccountReader.get_account_data`: the native balance call, then the token balance call. */
  function EvmAccountData(address: string, fetch: Fetch, nativeRequest: Request, tokenRequest: Request): (r: Result<Option<AccountBalance>, Fault>)
    ensures r.Ok? && r.value.Some? ==>
      var native, token := GetRawData(fetch, nativeRequest), GetRawData(fetch, tokenRequest);
      native.Ok? && token.Ok?
      && Get(native.value, "message") == Some(JStr("OK")) && Get(token.value, "message") == Some(JStr("OK"))
      && ToInt(Get(native.value, "result").value) == Some(r.value.value.nativeBalance)
      && ToInt(Get(token.value, "result").value) == Some(r.value.value.tokenBalance)
      && r.value.value.address == address
    ensures GetRawData(fetch, nativeRequest).Ok? && MessageGate(GetRawData(fetch, nativeRequest).value) == Ok(false) ==> r == Ok(None)
  {
    var native :- GetRawData(fetch, nativeRequest);
    var nativeOk :- MessageGate(native);
    if !nativeOk then Ok(None)
    else
      var token :- GetRawData(fetch, tokenRequest);
      var tokenOk :- MessageGate(token);
      if !tokenOk then Ok(None)
      else
        var nativeResult :- Field(native, "result");
        var nativeBalance :- AsInt(nativeResult);
        var tokenResult :- Field(token, "result");
        var tokenBalance :- AsInt(tokenResult);
        Ok(Some(AccountBalance(address, nativeBalance, tokenBalance)))
  }

  /** Two OK replies with integer results yield both balances. */
  lemma EvmAccountDataSome(address: string, fetch: Fetch, nativeRequest: Request, tokenRequest: Request,
                           nativeBalance: int, tokenBalance: int)
    requires GetRawData(fetch, nativeRequest).Ok? && GetRawData(fetch, tokenRequest).Ok?
    requires var native, token := GetRawData(fetch, nativeRequest).value, GetRawData(fetch, tokenRequest).value;
      && native.JObj? && token.JObj?
      && Get(native, "message") == Some(JStr("OK")) && Get(token, "message") == Some(JStr("OK"))
      && ToInt(Get(native, "result").value) == Some(nativeBalance)
      && ToInt(Get(token, "result").value) == Some(tokenBalance)
    ensures EvmAccountData(address, fetch, nativeRequest, tokenRequest)
      == Ok(Some(AccountBalance(address, nativeBalance, tokenBalance)))
  {
    var native, token := GetRawData(fetch, nativeRequest).value, GetRawData(fetch, tokenRequest).value;
    assert "message" in native.fields && "message" in token.fields;
  }

  /** `EthereumAccountReader.__process_transaction` on one record: the sender is compared case-insensitively. */
  function EvmRecord(own: string, trn: Json): (r: Result<Option<ReaderTx>, Fault>)
    ensures r.Ok? ==> Index(trn, "value").Some? && ToInt(Index(trn, "value").value).Some?
    ensures r.Ok? && ToInt(Index(trn, "value").value) == Some(0) ==> r.value.None?
    ensures r.Ok? && r.value.Some? ==> Index(trn, "from").Some? && Index(trn, "from").value.JStr?
    ensures r.Ok? && r.value.Some? ==>
      var amount, from := ToInt(Index(trn, "value").value).value, Index(trn, "from").value.s;
      amount != 0
      && (Lower(from) == Lower(own) ==>
            (r.value.value.amount == -amount && Index(trn, "to") == Some(JStr(r.value.value.address))))
      && (Lower(from) != Lower(own) ==> (r.value.value.amount == amount && r.value.value.address == from))
    ensures r.Ok? && r.value.Some? ==>
      Get(trn, "timeStamp").Some? && ToInt(Get(trn, "timeStamp").value).Some?
      && r.value.value.timestamp == ToInt(Get(trn, "timeStamp").value).value * 1000
  {
    var valueJ :- Member(trn, "value");
    var amount :- AsInt(valueJ);
    if amount == 0 then Ok(None)
    else
      var fromJ :- Member(trn, "from");
      var from :- AsText(fromJ);
      var timeStamp := Get(trn, "timeStamp").value;
      var seconds :- AsInt(timeStamp);
      if Lower(own) == Lower(from) then
        var toJ :- Member(trn, "to");
        var to :- AsText(toJ);
        Ok(Some(ReaderTx(to, -amount, seconds * 1000)))
      else
        Ok(Some(ReaderTx(from, amount, seconds * 1000)))
  }

  /** A non-zero transfer with text endpoints and an integer time in seconds yields its record. */
  lemma EvmRecordSome(own: string, trn: Json, amount: int, from: string, to: string, seconds: int)
    requires Index(trn, "value").Some? && ToInt(Index(trn, "value").value) == Some(amount) && amount != 0
    requires Index(trn, "from") == Some(JStr(from))
    requires Lower(from) == Lower(own) ==> Index(trn, "to") == Some(JStr(to))
    requires Get(trn, "timeStamp").Some? && ToInt(Get(trn, "timeStamp").value) == Some(seconds)
    ensures EvmRecord(own, trn)
      == Ok(Some(if Lower(from) == Lower(own) then ReaderTx(to, -amount, seconds * 1000)
                 else ReaderTx(from, amount, seconds * 1000)))
  {
  }

  /** Letter case of the reader's own address does not change how an EVM record is read. */
  lemma EvmRecordCaseInsensitive(own1: string, own2: string, trn: Json)
    requires Lower(own1) == Lower(own2)
    ensures EvmRecord(own1, trn) == EvmRecord(own2, trn)
  {
  }

  /** `get_native_transactions` / `get_token_transactions` of the EVM reader on a reply. */
  function EvmTransactions(own: string, reply: Json): (r: Result<Option<seq<ReaderTx>>, Fault>)
    ensures MessageGate(reply) == Ok(false) ==> r == Ok(None)
    ensures r.Ok? && r.value.Some? ==> reply.JObj? && forall t :: t in r.value.value ==> t.amount != 0
    ensures r.Ok? && r.value.Some? && "result" !in reply.fields ==> r.value.value == []
    ensures r.Ok? && r.value.Some? ==>
      MessageGate(reply) == Ok(true)
      && Items(GetOr(reply, "result", JArr([])).value).Some?
      && Collect(Items(GetOr(reply, "result", JArr([])).value).value, trn => EvmRecord(own, trn)) == Ok(r.value.value)
    ensures (MessageGate(reply) == Ok(true) && reply.JObj? && Items(GetOr(reply, "result", JArr([])).value).Some?
             && Collect(Items(GetOr(reply, "result", JArr([])).value).value, trn => EvmRecord(own, trn)).Ok?) ==>
      r == Ok(Some(Collect(Items(GetOr(reply, "result", JArr([])).value).value, trn => EvmRecord(own, trn)).value))
  {
    var ok :- MessageGate(reply);
    if !ok then Ok(None)
    else
      var result :- FieldOr(reply, "result", JArr([]));
      var data :- Iterate(result);
      var records :- Collect(data, trn => EvmRecord(own, trn));
      assert forall t :: t in records ==> t.amount != 0 by {
        forall t | t in records ensures t.amount != 0 {
          var i :| 0 <= i < |data| && EvmRecord(own, data[i]) == Ok(Some(t));
        }
      }
      Ok(Some(records))
  }

  // ---------------------------------------------------------------------------
  // A fetch followed by normalisation, as each reader method performs it.

  function TronBalanceReply(fetch: Fetch, request: Request, own: string, contract: string): Result<Option<AccountBalance>, Fault>
  {
    var reply :- GetRawData(fetch, request);
    TronAccountData(own, reply, contract)
  }

  function TronNativeReply(fetch: Fetch, request: Request, own: string, encode: Encoder): Result<Option<seq<ReaderTx>>, Fault>
  {
    var reply :- GetRawData(fetch, request);
    TronTransactions(reply, trn => TronNativeRecord(own, trn, encode))
  }

  function TronTokenReply(fetch: Fetch, request: Request, own: string): Result<Option<seq<ReaderTx>>, Fault>
  {
    var reply :- GetRawData(fetch, request);
    TronTransactions(reply, trn => TronTokenRecord(own, trn))
  }

  function EvmTransactionsReply(fetch: Fetch, request: Request, own: string): Result<Option<seq<ReaderTx>>, Fault>
  {
    var reply :- GetRawData(fetch, request);
    EvmTransactions(own, reply)
  }

  /** The headers a Tron reader sends. */
  function TronHeaders(apiKey: string, userAgent: string): map<string, string>
  {
    map["User-Agent" := userAgent, "Content-Type" := "application/json",
        "Accept" := "application/json", "TRON-PRO-API-KEY" := apiKey]
  }

  /** `TronAccountReader`: TronGrid, the key travels in the `TRON-PRO-API-KEY` header. */
  class TronAccountReader {
    const baseUrl: string
    const apiKeys: seq<string>
    var address: string
    var apiKey: string
    var usdtContract: string
    var url: string
    var params: map<string, Param>
    var headers: map<string, string>

    /** `random.choice(api_keys)` raises on an empty pool, so a reader always has one. */
    constructor (address: string, apiKeys: seq<string>, url: string, usdtContract: string, userAgent: string)
      requires |apiKeys| > 0
      ensures this.address == address && this.apiKeys == apiKeys && this.usdtContract == usdtContract
      ensures baseUrl == url && this.url == url
      ensures apiKey in apiKeys
      ensures headers == TronHeaders(apiKey, userAgent)
      ensures params == map[]
    {
      assert apiKeys[0] in apiKeys;
      var key :| key in apiKeys;
      baseUrl := url;
      this.address := address;
      this.apiKeys := apiKeys;
      apiKey := key;
      this.usdtContract := usdtContract;
      this.url := url;
      headers := TronHeaders(key, userAgent);
      params := map[];
    }

    /** The `address` setter draws a fresh key from the pool and refreshes the key header and the user agent. */
    method SetAddress(wallet: string, userAgent: string)
      requires |apiKeys| > 0
      modifies this
      ensures address == wallet && apiKey in apiKeys
      ensures headers == old(headers)["TRON-PRO-API-KEY" := apiKey]["User-Agent" := userAgent]
      ensures url == old(url) && params == old(params) && usdtContract == old(usdtContract)
    {
      address := wallet;
      assert apiKeys[0] in apiKeys;
      var key :| key in apiKeys;
      apiKey := key;
      headers := headers["TRON-PRO-API-KEY" := key];
      headers := headers["User-Agent" := userAgent];
    }

    /** The `api_key` setter stores the key only: the header keeps the key it had. */
    method SetApiKey(key: string)
      modifies this
      ensures apiKey == key
      ensures headers == old(headers) && address == old(address)
      ensures url == old(url) && params == old(params) && usdtContract == old(usdtContract)
    {
      apiKey := key;
    }

    method SetUsdtContract(contract: string)
      modifies this
      ensures usdtContract == contract
      ensures headers == old(headers) && address == old(address) && apiKey == old(apiKey)
      ensures url == old(url) && params == old(params)
    {
      usdtContract := contract;
    }

    /** `get_account_data`: GET `{base}{address}`. */
    method GetAccountData(fetch: Fetch) returns (r: Result<Option<AccountBalance>, Fault>)
      modifies this
      ensures url == baseUrl + address
      ensures r == TronBalanceReply(fetch, Request(url, params, headers), address, usdtContract)
      ensures address == old(address) && apiKey == old(apiKey) && usdtContract == old(usdtContract)
      ensures params == old(params) && headers == old(headers)
    {
      url := baseUrl + address;
      var reply := GetRawData(fetch, Request(url, params, headers));
      if reply.Err? {
        return Err(reply.error);
      }
      r := TronAccountData(address, reply.value, usdtContract);
    }

    /**
     * `get_native_transactions`: GET `{base}{address}/transactions`. The
     * restore in `finally` assigns the same dict back, so the two query
     * parameters stay for every later request.
     */
    method GetNativeTransactions(fetch: Fetch, encode: Encoder) returns (r: Result<Option<seq<ReaderTx>>, Fault>)
      modifies this
      ensures url == baseUrl + address + "/transactions"
      ensures params == old(params)["only_confirmed" := PStr("true")]["search_internal" := PStr("false")]
      ensures r == TronNativeReply(fetch, Request(url, params, headers), address, encode)
      ensures address == old(address) && apiKey == old(apiKey) && usdtContract == old(usdtContract)
      ensures headers == old(headers)
    {
      url := baseUrl + address + "/transactions";
      params := params["only_confirmed" := PStr("true")];
      params := params["search_internal" := PStr("false")];
      r := TronNativeReply(fetch, Request(url, params, headers), address, encode);
    }

    /** `get_token_transactions`: GET `{base}{address}/transactions/trc20` for the USDT contract. */
    method GetTokenTransactions(fetch: Fetch) returns (r: Result<Option<seq<ReaderTx>>, Fault>)
      modifies this
      ensures url == baseUrl + address + "/transactions/trc20"
      ensures params == old(params)["contract_address" := PStr(usdtContract)]["only_confirmed" := PStr("true")]
      ensures r == TronTokenReply(fetch, Request(url, params, headers), address)
      ensures address == old(address) && apiKey == old(apiKey) && usdtContract == old(usdtContract)
      ensures headers == old(headers)
    {
      url := baseUrl + address + "/transactions/trc20";
      params := params["contract_address" := PStr(usdtContract)];
      params := params["only_confirmed" := PStr("true")];
      r := TronTokenReply(fetch, Request(url, params, headers), address);
    }
  }

  /** The headers an Etherscan-style reader sends; the key travels in the query. */
  function EvmHeaders(userAgent: string): map<string, string>
  {
    map["User-Agent" := userAgent, "Content-Type" := "application/json", "Accept" := "application/json"]
  }

  /** The native balance query: `balance` of the address at the latest block. */
  function NativeBalanceQuery(address: string, apiKey: string): (r: map<string, Param>)
    ensures r.Keys == {"module", "action", "address", "tag", "apikey"}
    ensures Holds(r, "action", "balance") && Holds(r, "tag", "latest")
    ensures Holds(r, "address", address) && Holds(r, "apikey", apiKey)
  {
    map["module" := PStr("account"), "action" := PStr("balance"), "address" := PStr(address),
        "tag" := PStr("latest"), "apikey" := PStr(apiKey)]
  }

  /** The token balance query: `tokenbalance` of the address in the contract at the latest block. */
  function TokenBalanceQuery(contract: string, address: string, apiKey: string): (r: map<string, Param>)
    ensures r.Keys == {"module", "action", "contractaddress", "address", "tag", "apikey"}
    ensures Holds(r, "action", "tokenbalance") && Holds(r, "contractaddress", contract)
    ensures Holds(r, "address", address) && Holds(r, "apikey", apiKey)
  {
    map["module" := PStr("account"), "action" := PStr("tokenbalance"), "contractaddress" := PStr(contract),
        "address" := PStr(address), "tag" := PStr("latest"), "apikey" := PStr(apiKey)]
  }

  /** The first page of 100 transactions, newest first, over the whole block range. */
  function TransactionsQuery(action: string, address: string, apiKey: string): (r: map<string, Param>)
    ensures r.Keys == {"module", "action", "address", "page", "offset", "startblock", "endblock", "sort", "apikey"}
    ensures Holds(r, "action", action) && Holds(r, "sort", "desc")
    ensures r["page"] == PNum(1) && r["offset"] == PNum(100)
    ensures Holds(r, "address", address) && Holds(r, "apikey", apiKey)
  {
    map["module" := PStr("account"), "action" := PStr(action), "address" := PStr(address),
        "page" := PNum(1), "offset" := PNum(100), "startblock" := PNum(0), "endblock" := PNum(99999999),
        "sort" := PStr("desc"), "apikey" := PStr(apiKey)]
  }

  /** The query dict sends `value` under `name`. */
  predicate Holds(query: map<string, Param>, name: string, value: string)
  {
    name in query && query[name] == PStr(value)
  }

  /** A query dict with its address and key rewritten. */
  function WithAccount(query: map<string, Param>, address: string, key: string): map<string, Param>
  {
    query["address" := PStr(address)]["apikey" := PStr(key)]
  }

  /** A query dict with its key rewritten. */
  function WithKey(query: map<string, Param>, key: string): map<string, Param>
  {
    query["apikey" := PStr(key)]
  }

  /** The four query dicts name one address and one key; the two token dicts name one contract. */
  predicate Agree(nativeBalance: map<string, Param>, tokenBalance: map<string, Param>,
                  nativeTransactions: map<string, Param>, tokenTransactions: map<string, Param>,
                  address: string, key: string, contract: string)
  {
    && Holds(nativeBalance, "address", address) && Holds(nativeBalance, "apikey", key)
    && Holds(tokenBalance, "address", address) && Holds(tokenBalance, "apikey", key)
    && Holds(tokenBalance, "contractaddress", contract)
    && Holds(nativeTransactions, "address", address) && Holds(nativeTransactions, "apikey", key)
    && Holds(tokenTransactions, "address", address) && Holds(tokenTransactions, "apikey", key)
    && Holds(tokenTransactions, "contractaddress", contract)
  }

  /** Rewriting address and key in all four dicts keeps them in agreement with the new pair. */
  lemma WithAccountAgrees(nb: map<string, Param>, tb: map<string, Param>, nt: map<string, Param>, tt: map<string, Param>,
                          oldAddress: string, oldKey: string, contract: string, address: string, key: string)
    requires Agree(nb, tb, nt, tt, oldAddress, oldKey, contract)
    ensures Agree(WithAccount(nb, address, key), WithAccount(tb, address, key), WithAccount(nt, address, key),
                  WithAccount(tt, address, key), address, key, contract)
  {
  }

  /** Rewriting the key in all four dicts keeps them in agreement with the new key. */
  lemma WithKeyAgrees(nb: map<string, Param>, tb: map<string, Param>, nt: map<string, Param>, tt: map<string, Param>,
                      address: string, oldKey: string, contract: string, key: string)
    requires Agree(nb, tb, nt, tt, address, oldKey, contract)
    ensures Agree(WithKey(nb, key), WithKey(tb, key), WithKey(nt, key), WithKey(tt, key), address, key, contract)
  {
  }

  class EthereumAccountReader {
    const baseUrl: string
    var apiKeys: seq<string>
    var address: string
    var apiKey: string
    var usdtContract: string
    var url: string
    var params: map<string, Param>
    var headers: map<string, string>
    var nativeBalanceParams: map<string, Param>
    var tokenBalanceParams: map<string, Param>
    var nativeTransactionsParams: map<string, Param>
    var tokenTransactionsParams: map<string, Param>

    /** Every query dict names the reader's address and key; the token dicts name its contract. */
    predicate QueriesAgree()
      reads this
    {
      Agree(nativeBalanceParams, tokenBalanceParams, nativeTransactionsParams, tokenTransactionsParams,
            address, apiKey, usdtContract)
    }

    constructor (address: string, apiKeys: seq<string>, url: string, usdtContract: string, userAgent: string)
      requires |apiKeys| > 0
      ensures this.address == address && this.apiKeys == apiKeys && this.usdtContract == usdtContract
      ensures baseUrl == url && this.url == url
      ensures apiKey in apiKeys
      ensures headers == EvmHeaders(userAgent) && params == map[]
      ensures nativeBalanceParams == NativeBalanceQuery(address, apiKey)
      ensures tokenBalanceParams == TokenBalanceQuery(usdtContract, address, apiKey)
      ensures nativeTransactionsParams == TransactionsQuery("txlist", address, apiKey)
      ensures tokenTransactionsParams == TransactionsQuery("tokentx", address, apiKey)["contractaddress" := PStr(usdtContract)]
      ensures QueriesAgree()
    {
      assert apiKeys[0] in apiKeys;
      var key :| key in apiKeys;
      baseUrl := url;
      this.address := address;
      this.apiKeys := apiKeys;
      apiKey := key;
      this.usdtContract := usdtContract;
      this.url := url;
      headers := EvmHeaders(userAgent);
      params := map[];
      nativeBalanceParams := NativeBalanceQuery(address, key);
      tokenBalanceParams := TokenBalanceQuery(usdtContract, address, key);
      nativeTransactionsParams := TransactionsQuery("txlist", address, key);
      tokenTransactionsParams := TransactionsQuery("tokentx", address, key)["contractaddress" := PStr(usdtContract)];
    }

    /**
     * The `address` setter: stores the address, draws a key from the pool
     * (raising when the pool is empty, with the address already stored) and
     * writes address and key into all four query dicts.
     */
    method SetAddress(newAddress: string, userAgent: string) returns (raised: bool)
      modifies this`address, this`apiKey, this`headers
      modifies this`nativeBalanceParams, this`tokenBalanceParams, this`nativeTransactionsParams, this`tokenTransactionsParams
      ensures address == newAddress
      ensures raised <==> |apiKeys| == 0
      ensures raised ==> (apiKey == old(apiKey) && headers == old(headers)
        && nativeBalanceParams == old(nativeBalanceParams) && tokenBalanceParams == old(tokenBalanceParams)
        && nativeTransactionsParams == old(nativeTransactionsParams) && tokenTransactionsParams == old(tokenTransactionsParams))
      ensures !raised ==> apiKey in apiKeys && headers == old(headers)["User-Agent" := userAgent]
      ensures !raised ==> nativeBalanceParams == WithAccount(old(nativeBalanceParams), newAddress, apiKey)
      ensures !raised ==> tokenBalanceParams == WithAccount(old(tokenBalanceParams), newAddress, apiKey)
      ensures !raised ==> nativeTransactionsParams == WithAccount(old(nativeTransactionsParams), newAddress, apiKey)
      ensures !raised ==> tokenTransactionsParams == WithAccount(old(tokenTransactionsParams), newAddress, apiKey)
      ensures !raised && old(QueriesAgree()) ==> QueriesAgree()
    {
      if |apiKeys| == 0 {
        address := newAddress;
        return true;
      }
      assert apiKeys[0] in apiKeys;
      var key :| key in apiKeys;
      Retarget(newAddress, key, userAgent);
      return false;
    }

    /** The part of the `address` setter after the draw: the address and the drawn key go into the headers' dicts. */
    method Retarget(newAddress: string, key: string, userAgent: string)
      modifies this`address, this`apiKey, this`headers
      modifies this`nativeBalanceParams, this`tokenBalanceParams, this`nativeTransactionsParams, this`tokenTransactionsParams
      ensures address == newAddress && apiKey == key
      ensures headers == old(headers)["User-Agent" := userAgent]
      ensures nativeBalanceParams == WithAccount(old(nativeBalanceParams), newAddress, key)
      ensures tokenBalanceParams == WithAccount(old(tokenBalanceParams), newAddress, key)
      ensures nativeTransactionsParams == WithAccount(old(nativeTransactionsParams), newAddress, key)
      ensures tokenTransactionsParams == WithAccount(old(tokenTransactionsParams), newAddress, key)
      ensures old(QueriesAgree()) ==> QueriesAgree()
    {
      if QueriesAgree() {
        WithAccountAgrees(nativeBalanceParams, tokenBalanceParams, nativeTransactionsParams, tokenTransactionsParams,
                          address, apiKey, usdtContract, newAddress, key);
      }
      address, apiKey, headers := newAddress, key, headers["User-Agent" := userAgent];
      nativeBalanceParams, tokenBalanceParams, nativeTransactionsParams, tokenTransactionsParams :=
        WithAccount(nativeBalanceParams, newAddress, key), WithAccount(tokenBalanceParams, newAddress, key),
        WithAccount(nativeTransactionsParams, newAddress, key), WithAccount(tokenTransactionsParams, newAddress, key);
    }

    /** The `api_keys` setter: stores the pool, then draws a key from it into all four dicts. */
    method SetApiKeys(keys: seq<string>) returns (raised: bool)
      modifies this`apiKeys, this`apiKey
      modifies this`nativeBalanceParams, this`tokenBalanceParams, this`nativeTransactionsParams, this`tokenTransactionsParams
      ensures apiKeys == keys
      ensures raised <==> |keys| == 0
      ensures raised ==> (apiKey == old(apiKey)
        && nativeBalanceParams == old(nativeBalanceParams) && tokenBalanceParams == old(tokenBalanceParams)
        && nativeTransactionsParams == old(nativeTransactionsParams) && tokenTransactionsParams == old(tokenTransactionsParams))
      ensures !raised ==> apiKey in keys
      ensures !raised ==> nativeBalanceParams == WithKey(old(nativeBalanceParams), apiKey)
      ensures !raised ==> tokenBalanceParams == WithKey(old(tokenBalanceParams), apiKey)
      ensures !raised ==> nativeTransactionsParams == WithKey(old(nativeTransactionsParams), apiKey)
      ensures !raised ==> tokenTransactionsParams == WithKey(old(tokenTransactionsParams), apiKey)
      ensures !raised && old(QueriesAgree()) ==> QueriesAgree()
    {
      apiKeys := keys;
      if |keys| == 0 {
        return true;
      }
      assert keys[0] in keys;
      var key :| key in keys;
      SetApiKey(key);
      return false;
    }

    /** The `api_key` setter writes the key into all four query dicts. */
    method SetApiKey(key: string)
      modifies this`apiKey
      modifies this`nativeBalanceParams, this`tokenBalanceParams, this`nativeTransactionsParams, this`tokenTransactionsParams
      ensures apiKey == key
      ensures nativeBalanceParams == WithKey(old(nativeBalanceParams), key)
      ensures tokenBalanceParams == WithKey(old(tokenBalanceParams), key)
      ensures nativeTransactionsParams == WithKey(old(nativeTransactionsParams), key)
      ensures tokenTransactionsParams == WithKey(old(tokenTransactionsParams), key)
      ensures old(QueriesAgree()) ==> QueriesAgree()
    {
      if QueriesAgree() {
        WithKeyAgrees(nativeBalanceParams, tokenBalanceParams, nativeTransactionsParams, tokenTransactionsParams,
                      address, apiKey, usdtContract, key);
      }
      apiKey := key;
      nativeBalanceParams := WithKey(nativeBalanceParams, key);
      tokenBalanceParams := WithKey(tokenBalanceParams, key);
      nativeTransactionsParams := WithKey(nativeTransactionsParams, key);
      tokenTransactionsParams := WithKey(tokenTransactionsParams, key);
    }

    /** The `usdt_contract` setter touches the two token dicts only. */
    method SetUsdtContract(contract: string)
      modifies this`usdtContract, this`tokenBalanceParams, this`tokenTransactionsParams
      ensures usdtContract == contract
      ensures tokenBalanceParams == old(tokenBalanceParams)["contractaddress" := PStr(contract)]
      ensures tokenTransactionsParams == old(tokenTransactionsParams)["contractaddress" := PStr(contract)]
      ensures old(QueriesAgree()) ==> QueriesAgree()
    {
      usdtContract := contract;
      tokenBalanceParams := tokenBalanceParams["contractaddress" := PStr(contract)];
      tokenTransactionsParams := tokenTransactionsParams["contractaddress" := PStr(contract)];
    }

    /**
     * `get_account_data`: the native balance query, then (unless the native
     * reply was refused) the token balance query. `params` is left at the
     * last query sent.
     */
    method GetAccountData(fetch: Fetch) returns (r: Result<Option<AccountBalance>, Fault>)
      modifies this
      ensures r == EvmAccountData(address, fetch, Request(url, nativeBalanceParams, headers), Request(url, tokenBalanceParams, headers))
      ensures var native := GetRawData(fetch, Request(url, nativeBalanceParams, headers));
        params == if native.Ok? && MessageGate(native.value) == Ok(true) then tokenBalanceParams else nativeBalanceParams
      ensures apiKeys == old(apiKeys) && address == old(address) && apiKey == old(apiKey) && usdtContract == old(usdtContract)
      ensures url == old(url) && headers == old(headers)
      ensures nativeBalanceParams == old(nativeBalanceParams) && tokenBalanceParams == old(tokenBalanceParams)
      ensures nativeTransactionsParams == old(nativeTransactionsParams) && tokenTransactionsParams == old(tokenTransactionsParams)
    {
      params := nativeBalanceParams;
      var native := GetRawData(fetch, Request(url, params, headers));
      if native.Ok? && MessageGate(native.value) == Ok(true) {
        params := tokenBalanceParams;
      }
      r := EvmAccountData(address, fetch, Request(url, nativeBalanceParams, headers), Request(url, tokenBalanceParams, headers));
    }

    method GetNativeTransactions(fetch: Fetch) returns (r: Result<Option<seq<ReaderTx>>, Fault>)
      modifies this
      ensures params == nativeTransactionsParams
      ensures r == EvmTransactionsReply(fetch, Request(url, nativeTransactionsParams, headers), address)
      ensures apiKeys == old(apiKeys) && address == old(address) && apiKey == old(apiKey) && usdtContract == old(usdtContract)
      ensures url == old(url) && headers == old(headers)
      ensures nativeBalanceParams == old(nativeBalanceParams) && tokenBalanceParams == old(tokenBalanceParams)
      ensures nativeTransactionsParams == old(nativeTransactionsParams) && tokenTransactionsParams == old(tokenTransactionsParams)
    {
      params := nativeTransactionsParams;
      r := EvmTransactionsReply(fetch, Request(url, params, headers), address);
    }

    method GetTokenTransactions(fetch: Fetch) returns (r: Result<Option<seq<ReaderTx>>, Fault>)
      modifies this
      ensures params == tokenTransactionsParams
      ensures r == EvmTransactionsReply(fetch, Request(url, tokenTransactionsParams, headers), address)
      ensures apiKeys == old(apiKeys) && address == old(address) && apiKey == old(apiKey) && usdtContract == old(usdtContract)
      ensures url == old(url) && headers == old(headers)
      ensures nativeBalanceParams == old(nativeBalanceParams) && tokenBalanceParams == old(tokenBalanceParams)
      ensures nativeTransactionsParams == old(nativeTransactionsParams) && tokenTransactionsParams == old(tokenTransactionsParams)
    {
      params := tokenTransactionsParams;
      r := EvmTransactionsReply(fetch, Request(url, params, headers), address);
    }
  }
}
