/**
 * The tables of the address book schema: their rows, primary keys, check
 * constraints and server defaults. A table is a map from its primary key to
 * the remaining columns; the check constraints on `account_type.id`,
 * `account_type.native_token` and `account_tx.tx_type` become enumerations.
 */
module Addressbook {
  import opened Wrappers

  /** `account_type.id`, restricted to 'BEP20', 'TRC20', 'ERC20'. */
  datatype ChainType = BEP20 | TRC20 | ERC20

  function ChainTypeId(t: ChainType): string
  {
    match t
    case BEP20 => "BEP20"
    case TRC20 => "TRC20"
    case ERC20 => "ERC20"
  }

  /** The check constraint `id IN ('BEP20', 'TRC20', 'ERC20')` as a parser. */
  function ParseChainTypeId(s: string): (r: Option<ChainType>)
    ensures r.Some? <==> s in {"BEP20", "TRC20", "ERC20"}
  {
    if s == "BEP20" then Some(BEP20)
    else if s == "TRC20" then Some(TRC20)
    else if s == "ERC20" then Some(ERC20)
    else None
  }

  lemma ChainTypeIdRoundTrip(t: ChainType, s: string)
    ensures ParseChainTypeId(ChainTypeId(t)) == Some(t)
    ensures ParseChainTypeId(s).Some? ==> ChainTypeId(ParseChainTypeId(s).value) == s
  {
  }

  /** `account_type.native_token`, restricted to 'BNB', 'TRX', 'ETH'. */
  datatype NativeToken = BNB | TRX | ETH

  /** The server default of both unit columns of `account_type`. */
  const DefaultUnit: int := 1000000

  /** A row of `account_type`. */
  datatype AccountType = AccountType(id: ChainType, nativeToken: NativeToken, nativeUnit: int,
                                     tokenUnit: int, tokenContract: string)

  /** An `account_type` row inserted without units takes the server defaults. */
  function NewAccountType(id: ChainType, nativeToken: NativeToken, tokenContract: string): (r: AccountType)
    ensures r.id == id && r.nativeToken == nativeToken && r.tokenContract == tokenContract
    ensures r.nativeUnit == DefaultUnit && r.tokenUnit == DefaultUnit
  {
    AccountType(id, nativeToken, DefaultUnit, DefaultUnit, tokenContract)
  }

  /** An `Account` object as `Account.__init__` builds it (no timestamps yet). */
  datatype Account = Account(address: string, accountType: ChainType, nativeBalance: int, tokenBalance: int)

  /** The primary key of `account`: (address, account_type_id). */
  datatype AccountKey = AccountKey(address: string, accountType: ChainType)

  function KeyOf(a: Account): AccountKey { AccountKey(a.address, a.accountType) }

  /** The non-key columns of `account`; timestamps are instants of the model's clock. */
  datatype AccountRow = AccountRow(nativeBalance: int, tokenBalance: int, createdAt: int, updatedAt: int)

  /** An `account` row inserted with only its key: zero balances, both timestamps now. */
  function DefaultAccountRow(now: int): (r: AccountRow)
    ensures r.nativeBalance == 0 && r.tokenBalance == 0
    ensures r.createdAt == now && r.updatedAt == now
  {
    AccountRow(0, 0, now, now)
  }

  /** The primary key of `account_statement`: (account_address, account_type_id, timestamp). */
  datatype StatementKey = StatementKey(address: string, accountType: ChainType, timestamp: int)

  predicate OfAccount(k: StatementKey, key: AccountKey)
  {
    k.address == key.address && k.accountType == key.accountType
  }

  datatype Balances = Balances(nativeBalance: int, tokenBalance: int)

  /** `account_tx.tx_type`, restricted to 'native', 'token'. */
  datatype TxKind = Native | Token

  function TxKindName(k: TxKind): string
  {
    match k
    case Native => "native"
    case Token => "token"
  }

  function ParseTxKind(s: string): (r: Option<TxKind>)
    ensures r.Some? <==> s in {"native", "token"}
    ensures r.Some? ==> TxKindName(r.value) == s
  {
    if s == "native" then Some(Native) else if s == "token" then Some(Token) else None
  }

  /**
   * The primary key of `account_tx`: (tx_type, from_address, from_account_type,
   * to_address, to_account_type, tx_timestamp).
   */
  datatype TxKey = TxKey(kind: TxKind, fromAddress: string, fromType: ChainType,
                         toAddress: string, toType: ChainType, timestamp: int)

  datatype TxRow = TxRow(key: TxKey, amount: int)

  /** `AccountTransaction.__init__`: one account type tags both endpoints. */
  function NewAccountTransaction(kind: TxKind, accountType: ChainType, fromAddress: string,
                                 toAddress: string, timestamp: int, amount: int): (r: TxRow)
    ensures r.key.fromType == accountType && r.key.toType == accountType
    ensures r.key.fromAddress == fromAddress && r.key.toAddress == toAddress
    ensures r.key.kind == kind && r.key.timestamp == timestamp && r.amount == amount
  {
    TxRow(TxKey(kind, fromAddress, accountType, toAddress, accountType, timestamp), amount)
  }

  /** The non-key columns of `address_book` (key: id). */
  datatype AddressBook = AddressBook(title: string, isActive: bool, createdAt: int, updatedAt: int)

  /** The primary key of `address_book_entry`: (address_book_id, account_address, account_type_id). */
  datatype EntryKey = EntryKey(bookId: int, address: string, accountType: ChainType)

  datatype Entry = Entry(alias: string, trackNative: bool, nativeThreshold: int,
                         trackToken: bool, tokenThreshold: int, schedule: int)

  /** An entry inserted with only its alias: tracking off, thresholds and schedule 10. */
  function NewEntry(alias: string): (r: Entry)
    ensures r.alias == alias
    ensures !r.trackNative && !r.trackToken
    ensures r.nativeThreshold == 10 && r.tokenThreshold == 10 && r.schedule == 10
  {
    Entry(alias, false, 10, false, 10, 10)
  }

  /** The unique constraint on (address_book_id, account_address, account_alias). */
  ghost predicate AliasesUnique(entries: map<EntryKey, Entry>)
  {
    forall k1, k2 ::
      (k1 in entries && k2 in entries && k1 != k2 && k1.bookId == k2.bookId && k1.address == k2.address)
      ==> entries[k1].alias != entries[k2].alias
  }

  /** Python's `s[:n]`. */
  function Head(s: string, n: nat): (r: string)
    ensures |r| == if |s| < n then |s| else n
  {
    if |s| < n then s else s[..n]
  }

  /** Python's `s[-n:]` for n > 0. */
  function Tail(s: string, n: nat): (r: string)
    ensures |r| == if |s| < n then |s| else n
  {
    if |s| < n then s else s[|s| - n..]
  }

  /** `Account.short_address` and `AddressBookEntry.short_address`. */
  function ShortAddress(address: string): (r: string)
    ensures |address| >= 3 ==> |r| == 9
    ensures |address| >= 3 ==> r[..3] == address[..3] && r[3..6] == "..." && r[6..] == address[|address| - 3..]
    ensures |address| < 3 ==> r == address + "..." + address
  {
    Head(address, 3) + "..." + Tail(address, 3)
  }
}
