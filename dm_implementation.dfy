/**
 * The persistence side of the bot: reconciling a freshly read account with
 * the stored one, recording the transactions that explain the change, and
 * the address-book writes. Each table is a map from its primary key to the
 * remaining columns; a statement that raises inside a session rolls the
 * whole session back.
 */
module DmImplementation {
  import opened Wrappers
  import opened Strings
  import opened Addressbook

  /** A transaction record as `get_actual_tx` reads it: endpoints, unsigned amount, time. */
  datatype ApiTx = ApiTx(fromAddress: string, toAddress: string, amount: int, timestamp: int)

  /** The exceptions that abort a session: a constraint violation, or `set.remove` of a missing element. */
  datatype DbError = IntegrityError | KeyError

  // ---------------------------------------------------------------------------
  // get_actual_tx

  /** A transaction's effect on the account: incoming adds, anything else subtracts. */
  function Signed(tx: ApiTx, own: string): (r: int)
    ensures tx.toAddress == own ==> r == tx.amount
    ensures tx.toAddress != own ==> r == -tx.amount
  {
    if tx.toAddress == own then tx.amount else -tx.amount
  }

  /** The running sum `op_sum` after the given transactions. */
  function Net(txs: seq<ApiTx>, own: string): int
  {
    if txs == [] then 0 else Net(txs[..|txs| - 1], own) + Signed(txs[|txs| - 1], own)
  }

  /** The first `m` transactions explain the move from `oldAmount` to `target`. */
  predicate Reached(txs: seq<ApiTx>, own: string, oldAmount: int, target: int, m: nat)
    requires m <= |txs|
  {
    oldAmount + Net(txs[..m], own) == target
  }

  /** Where the walk that has already passed `i` transactions stops. */
  function StopFrom(txs: seq<ApiTx>, own: string, oldAmount: int, target: int, i: nat): (n: nat)
    requires i <= |txs|
    ensures i <= n <= |txs|
    decreases |txs| - i
  {
    if i == |txs| then |txs|
    else if Reached(txs, own, oldAmount, target, i + 1) then i + 1
    else StopFrom(txs, own, oldAmount, target, i + 1)
  }

  /** How many transactions `get_actual_tx` keeps. */
  function StopLength(txs: seq<ApiTx>, own: string, oldAmount: int, target: int): (n: nat)
    ensures n <= |txs|
  {
    StopFrom(txs, own, oldAmount, target, 0)
  }

  lemma {:induction false} StopFromBounds(txs: seq<ApiTx>, own: string, oldAmount: int, target: int, i: nat)
    requires i <= |txs|
    ensures var n := StopFrom(txs, own, oldAmount, target, i);
      && i <= n <= |txs|
      && (i < |txs| ==> i < n)
      && (forall m :: i < m < n ==> !Reached(txs, own, oldAmount, target, m))
      && (i < n < |txs| ==> Reached(txs, own, oldAmount, target, n))
    decreases |txs| - i
  {
    if i < |txs| && !Reached(txs, own, oldAmount, target, i + 1) {
      StopFromBounds(txs, own, oldAmount, target, i + 1);
    }
  }

  /**
   * The walk keeps the shortest non-empty prefix that explains the balance,
   * or everything when no prefix does.
   */
  lemma StopLengthShortest(txs: seq<ApiTx>, own: string, oldAmount: int, target: int)
    ensures var n := StopLength(txs, own, oldAmount, target);
      && n <= |txs|
      && (txs == [] <==> n == 0)
      && (forall m :: 1 <= m < n ==> !Reached(txs, own, oldAmount, target, m))
      && (n < |txs| ==> Reached(txs, own, oldAmount, target, n))
      && ((exists m :: 1 <= m <= |txs| && Reached(txs, own, oldAmount, target, m)) ==> Reached(txs, own, oldAmount, target, n))
      && ((forall m :: 1 <= m <= |txs| ==> !Reached(txs, own, oldAmount, target, m)) ==> n == |txs|)
  {
    StopFromBounds(txs, own, oldAmount, target, 0);
    var n := StopLength(txs, own, oldAmount, target);
    if exists m :: 1 <= m <= |txs| && Reached(txs, own, oldAmount, target, m) {
      var m :| 1 <= m <= |txs| && Reached(txs, own, oldAmount, target, m);
      assert !(m < n);
      if n == |txs| {
        assert m == n;
      }
    }
  }

  /** The rows `get_actual_tx` emits: one `AccountTransaction` per record, tagged with the account's type. */
  function TxRows(kind: TxKind, txs: seq<ApiTx>, accountType: ChainType): (r: seq<TxRow>)
    ensures |r| == |txs|
    ensures forall i :: 0 <= i < |txs| ==>
      r[i] == NewAccountTransaction(kind, accountType, txs[i].fromAddress, txs[i].toAddress, txs[i].timestamp, txs[i].amount)
  {
    seq(|txs|, i requires 0 <= i < |txs| =>
      NewAccountTransaction(kind, accountType, txs[i].fromAddress, txs[i].toAddress, txs[i].timestamp, txs[i].amount))
  }

  /**
   * `get_actual_tx(tx_type, account_tx, old_amount, account)`: `None` for an
   * unknown kind; otherwise the rows of the shortest prefix at which
   * `old_amount` plus the running sum equals the account's token balance,
   * whatever the kind.
   */
  function ActualTx(txType: string, txs: seq<ApiTx>, oldAmount: int, account: Account): (r: Option<seq<TxRow>>)
    ensures r.Some? <==> txType == "native" || txType == "token"
    ensures r.Some? ==> |r.value| == StopLength(txs, account.address, oldAmount, account.tokenBalance)
    ensures r.Some? ==> forall i :: 0 <= i < |r.value| ==>
      && TxKindName(r.value[i].key.kind) == txType
      && r.value[i].key.fromAddress == txs[i].fromAddress && r.value[i].key.toAddress == txs[i].toAddress
      && r.value[i].key.fromType == account.accountType && r.value[i].key.toType == account.accountType
      && r.value[i].key.timestamp == txs[i].timestamp && r.value[i].amount == txs[i].amount
  {
    match ParseTxKind(txType)
    case None => None
    case Some(kind) =>
      var n := StopLength(txs, account.address, oldAmount, account.tokenBalance);
      StopFromBounds(txs, account.address, oldAmount, account.tokenBalance, 0);
      Some(TxRows(kind, txs[..n], account.accountType))
  }

  /** `get_actual_tx` as the loop it is. */
  method GetActualTx(txType: string, accountTx: seq<ApiTx>, oldAmount: int, account: Account) returns (r: Option<seq<TxRow>>)
    ensures r == ActualTx(txType, accountTx, oldAmount, account)
  {
    if txType != "native" && txType != "token" {
      return None;
    }
    var kind := if txType == "native" then Native else Token;
    var own, target := account.address, account.tokenBalance;
    ghost var stop := StopLength(accountTx, own, oldAmount, target);
    StopFromBounds(accountTx, own, oldAmount, target, 0);
    var opSum := 0;
    var values: seq<TxRow> := [];
    var i := 0;
    while i < |accountTx|
      invariant 0 <= i <= |accountTx|
      invariant opSum == Net(accountTx[..i], own)
      invariant values == TxRows(kind, accountTx[..i], account.accountType)
      invariant StopFrom(accountTx, own, oldAmount, target, i) == stop
    {
      var tx := accountTx[i];
      opSum := opSum + (if tx.toAddress == own then tx.amount else -tx.amount);
      values := values + [NewAccountTransaction(kind, account.accountType, tx.fromAddress, tx.toAddress, tx.timestamp, tx.amount)];
      assert accountTx[..i + 1][..i] == accountTx[..i];
      assert opSum == Net(accountTx[..i + 1], own);
      assert values == TxRows(kind, accountTx[..i + 1], account.accountType);
      i := i + 1;
      if oldAmount + opSum == target {
        assert stop == i;
        break;
      }
    }
    assert i == stop;
    return Some(values);
  }

  /** The stop test reads the token balance even for native history: the native balance never matters. */
  lemma ActualTxIgnoresNativeBalance(txType: string, txs: seq<ApiTx>, oldAmount: int, account: Account, otherNative: int)
    ensures ActualTx(txType, txs, oldAmount, account) == ActualTx(txType, txs, oldAmount, account.(nativeBalance := otherNative))
  {
  }

  /**
   * A native history that explains the native balance after one transfer is
   * still walked to the end when the token balance is not reached.
   */
  lemma NativeHistoryStopsOnTokenBalance()
    ensures var account := Account("A", TRC20, 5, 7);
      var txs := [ApiTx("B", "A", 5, 1), ApiTx("B", "A", 3, 2)];
      && Reached(txs, "A", 0, account.nativeBalance, 1)
      && |ActualTx("native", txs, 0, account).value| == 2
  {
    var txs := [ApiTx("B", "A", 5, 1), ApiTx("B", "A", 3, 2)];
    assert txs[..1][..0] == [];
    assert txs[..2][..1] == txs[..1];
    assert Net(txs[..1], "A") == 5;
    assert Net(txs[..2], "A") == 8;
    assert StopFrom(txs, "A", 0, 7, 2) == 2;
  }

  // ---------------------------------------------------------------------------
  // get_account_addresses_from_tx

  /** Every address that sends or receives one of the transactions. */
  function Endpoints(txs: seq<ApiTx>): (r: set<string>)
    ensures forall a :: a in r <==> exists i :: 0 <= i < |txs| && (txs[i].fromAddress == a || txs[i].toAddress == a)
  {
    if txs == [] then {}
    else
      var init := txs[..|txs| - 1];
      assert forall i :: 0 <= i < |init| ==> init[i] == txs[i];
      Endpoints(init) + {txs[|txs| - 1].fromAddress, txs[|txs| - 1].toAddress}
  }

  /**
   * `get_account_addresses_from_tx`: every endpoint but the account's own,
   * once each, keyed with the account's type; `KeyError` when the own
   * address is not an endpoint, an empty history included.
   */
  function CounterpartyKeys(txs: seq<ApiTx>, account: Account): (r: Result<set<AccountKey>, DbError>)
    ensures r.Ok? <==> account.address in Endpoints(txs)
    ensures r.Err? ==> r.error == KeyError
    ensures r.Ok? ==> forall k :: k in r.value <==>
      k.accountType == account.accountType && k.address != account.address && k.address in Endpoints(txs)
  {
    var addresses := Endpoints(txs);
    if account.address !in addresses then Err(KeyError)
    else Ok(set a | a in addresses - {account.address} :: AccountKey(a, account.accountType))
  }

  method GetAccountAddressesFromTx(accountTx: seq<ApiTx>, account: Account) returns (r: Result<set<AccountKey>, DbError>)
    ensures r == CounterpartyKeys(accountTx, account)
  {
    var addresses: set<string> := {};
    var i := 0;
    while i < |accountTx|
      invariant 0 <= i <= |accountTx|
      invariant addresses == Endpoints(accountTx[..i])
    {
      assert accountTx[..i + 1][..i] == accountTx[..i];
      addresses := addresses + {accountTx[i].fromAddress, accountTx[i].toAddress};
      i := i + 1;
    }
    assert accountTx[..i] == accountTx;
    if account.address !in addresses {
      return Err(KeyError);
    }
    addresses := addresses - {account.address};
    return Ok(set a | a in addresses :: AccountKey(a, account.accountType));
  }

  // ---------------------------------------------------------------------------
  // Inserts that do nothing on conflict

  /** `insert(...).on_conflict_do_nothing()` of rows that all carry the value `v`. */
  function InsertMissing<K(!new), V>(table: map<K, V>, keys: set<K>, v: V): (r: map<K, V>)
    ensures forall k :: k in r <==> k in table || k in keys
    ensures forall k :: k in table ==> r[k] == table[k]
    ensures forall k :: k in r && k !in table ==> r[k] == v
  {
    map k | k in table.Keys + keys :: if k in table then table[k] else v
  }

  /** Repeating a do-nothing insert changes nothing, whatever values the repeat carries. */
  lemma InsertMissingIdempotent<K(!new), V>(table: map<K, V>, keys: set<K>, v: V, w: V)
    ensures InsertMissing(InsertMissing(table, keys, v), keys, w) == InsertMissing(table, keys, v)
  {
  }

  /** A multi-row `insert(AccountTransaction).on_conflict_do_nothing()`: the first row with a key wins. */
  function InsertTransactions(table: map<TxKey, int>, rows: seq<TxRow>): (r: map<TxKey, int>)
    ensures forall k :: k in r <==> k in table || exists i :: 0 <= i < |rows| && rows[i].key == k
    ensures forall k :: k in table ==> r[k] == table[k]
  {
    if rows == [] then table
    else
      var init, last := rows[..|rows| - 1], rows[|rows| - 1];
      assert forall i :: 0 <= i < |init| ==> init[i] == rows[i];
      var t := InsertTransactions(table, init);
      if last.key in t then t else t[last.key := last.amount]
  }

  /** A new key takes the amount of the first row that carries it. */
  lemma {:induction false} InsertTransactionsFirstWins(table: map<TxKey, int>, rows: seq<TxRow>, i: int)
    requires 0 <= i < |rows| && rows[i].key !in table
    requires forall j :: 0 <= j < i ==> rows[j].key != rows[i].key
    ensures InsertTransactions(table, rows)[rows[i].key] == rows[i].amount
  {
    var init, last := rows[..|rows| - 1], rows[|rows| - 1];
    if i < |rows| - 1 {
      assert init[i] == rows[i];
      InsertTransactionsFirstWins(table, init, i);
    } else {
      var t := InsertTransactions(table, init);
      assert last.key !in t by {
        forall j | 0 <= j < |init| ensures init[j].key != last.key {
          assert init[j] == rows[j];
        }
      }
    }
  }

  /** Rows whose keys are all present already insert nothing. */
  lemma {:induction false} InsertTransactionsPresent(table: map<TxKey, int>, rows: seq<TxRow>)
    requires forall i :: 0 <= i < |rows| ==> rows[i].key in table
    ensures InsertTransactions(table, rows) == table
  {
    if rows != [] {
      InsertTransactionsPresent(table, rows[..|rows| - 1]);
    }
  }

  lemma InsertTransactionsIdempotent(table: map<TxKey, int>, rows: seq<TxRow>)
    ensures InsertTransactions(InsertTransactions(table, rows), rows) == InsertTransactions(table, rows)
  {
    InsertTransactionsPresent(InsertTransactions(table, rows), rows);
  }

  // ---------------------------------------------------------------------------
  // Upserts that overwrite on conflict

  /** The row an account upsert writes: the new balances, and both timestamps set to the insert time. */
  function UpsertedRow(account: Account, now: int): (r: AccountRow)
    ensures r.nativeBalance == account.nativeBalance && r.tokenBalance == account.tokenBalance
    ensures r.createdAt == now && r.updatedAt == now
  {
    AccountRow(account.nativeBalance, account.tokenBalance, now, now)
  }

  /**
   * `get_upsert_account_query` for one account: insert, or on conflict of
   * (address, account_type_id) overwrite both balances and both timestamps.
   */
  function UpsertAccount(accounts: map<AccountKey, AccountRow>, account: Account, now: int): (r: map<AccountKey, AccountRow>)
    ensures r.Keys == accounts.Keys + {KeyOf(account)}
    ensures r[KeyOf(account)] == UpsertedRow(account, now)
    ensures forall k :: k in accounts && k != KeyOf(account) ==> r[k] == accounts[k]
  {
    accounts[KeyOf(account) := UpsertedRow(account, now)]
  }

  /** No later account in the list has the same key as the one at `i`. */
  predicate LastWithKey(accs: seq<Account>, i: nat)
    requires i < |accs|
  {
    forall j :: i < j < |accs| ==> KeyOf(accs[j]) != KeyOf(accs[i])
  }

  /**
   * `get_upsert_account_query` for a list of accounts: each row conflicts
   * with the ones inserted before it, so the last row with a key wins.
   */
  function UpsertAccounts(accounts: map<AccountKey, AccountRow>, accs: seq<Account>, now: int): (r: map<AccountKey, AccountRow>)
    ensures r.Keys == accounts.Keys + (set i | 0 <= i < |accs| :: KeyOf(accs[i]))
  {
    if accs == [] then accounts
    else
      var init := accs[..|accs| - 1];
      assert (set i | 0 <= i < |accs| :: KeyOf(accs[i])) == (set i | 0 <= i < |init| :: KeyOf(init[i])) + {KeyOf(accs[|accs| - 1])};
      UpsertAccount(UpsertAccounts(accounts, init, now), accs[|accs| - 1], now)
  }

  /** Rows no account in the list names keep their values. */
  lemma {:induction false} UpsertAccountsUntouched(accounts: map<AccountKey, AccountRow>, accs: seq<Account>, now: int, k: AccountKey)
    requires k in accounts && forall i :: 0 <= i < |accs| ==> KeyOf(accs[i]) != k
    ensures UpsertAccounts(accounts, accs, now)[k] == accounts[k]
  {
    if accs != [] {
      UpsertAccountsUntouched(accounts, accs[..|accs| - 1], now, k);
    }
  }

  /** Each named row holds what the last account with its key wrote. */
  lemma {:induction false} UpsertAccountsLastWins(accounts: map<AccountKey, AccountRow>, accs: seq<Account>, now: int, i: nat)
    requires i < |accs| && LastWithKey(accs, i)
    ensures UpsertAccounts(accounts, accs, now)[KeyOf(accs[i])] == UpsertedRow(accs[i], now)
  {
    if i < |accs| - 1 {
      var init := accs[..|accs| - 1];
      assert init[i] == accs[i];
      UpsertAccountsLastWins(accounts, init, now, i);
    }
  }

  /** Upserting the same accounts twice leaves what upserting them once left. */
  lemma UpsertAccountsIdempotent(accounts: map<AccountKey, AccountRow>, accs: seq<Account>, now: int)
    ensures UpsertAccounts(UpsertAccounts(accounts, accs, now), accs, now) == UpsertAccounts(accounts, accs, now)
  {
    var once := UpsertAccounts(accounts, accs, now);
    var twice := UpsertAccounts(once, accs, now);
    forall k | k in twice
      ensures twice[k] == once[k]
    {
      if exists i :: 0 <= i < |accs| && KeyOf(accs[i]) == k {
        LastIndexWithKey(accs, k);
        var i :| 0 <= i < |accs| && KeyOf(accs[i]) == k && LastWithKey(accs, i);
        UpsertAccountsLastWins(accounts, accs, now, i);
        UpsertAccountsLastWins(once, accs, now, i);
      } else {
        UpsertAccountsUntouched(once, accs, now, k);
      }
    }
  }

  /** A key some account in the list carries is carried by a last such account. */
  lemma LastIndexWithKey(accs: seq<Account>, k: AccountKey)
    requires exists i :: 0 <= i < |accs| && KeyOf(accs[i]) == k
    ensures exists i :: 0 <= i < |accs| && KeyOf(accs[i]) == k && LastWithKey(accs, i)
  {
    var i :| 0 <= i < |accs| && KeyOf(accs[i]) == k;
    while i + 1 < |accs| && exists j :: i < j < |accs| && KeyOf(accs[j]) == k
      invariant 0 <= i < |accs| && KeyOf(accs[i]) == k
      decreases |accs| - i
    {
      var j :| i < j < |accs| && KeyOf(accs[j]) == k;
      i := j;
    }
  }

  /**
   * `get_upsert_address_book_query` for one book: insert, or on conflict of
   * id overwrite the title, the flag and both timestamps.
   */
  function UpsertAddressBook(books: map<int, AddressBook>, id: int, title: string, isActive: bool, now: int)
    : (r: map<int, AddressBook>)
    ensures r.Keys == books.Keys + {id}
    ensures r[id].title == title && r[id].isActive == isActive
    ensures r[id].createdAt == now && r[id].updatedAt == now
    ensures forall k :: k in books && k != id ==> r[k] == books[k]
  {
    books[id := AddressBook(title, isActive, now, now)]
  }

  /** An upsert overwrites whatever an earlier upsert of the same id wrote. */
  lemma UpsertAddressBookOverwrites(books: map<int, AddressBook>, id: int, title: string, isActive: bool, now: int,
                                    title': string, isActive': bool, now': int)
    ensures UpsertAddressBook(UpsertAddressBook(books, id, title, isActive, now), id, title', isActive', now')
      == UpsertAddressBook(books, id, title', isActive', now')
  {
  }

  // ---------------------------------------------------------------------------
  // update_address_book_id

  /**
   * The entries after `address_book.id` changed from `oldId` to `newId`:
   * the foreign key is declared `onupdate="CASCADE"`, so the entries of the
   * book follow it.
   */
  function RekeyEntries(entries: map<EntryKey, Entry>, oldId: int, newId: int): (r: map<EntryKey, Entry>)
    requires oldId != newId ==> forall k :: k in entries ==> k.bookId != newId
    ensures forall k :: k in entries && k.bookId != oldId ==> k in r && r[k] == entries[k]
    ensures forall k :: k in entries && k.bookId == oldId ==> k.(bookId := newId) in r && r[k.(bookId := newId)] == entries[k]
    ensures forall k :: k in r ==> (k.bookId == newId && k.(bookId := oldId) in entries) || (k.bookId != newId && k in entries)
  {
    (map k | k in entries && k.bookId != oldId :: entries[k])
      + (map k | k in entries && k.bookId == oldId :: k.(bookId := newId) := entries[k])
  }

  /** Moving a book's entries to a fresh id leaves none on the old id. */
  lemma RekeyEntriesVacates(entries: map<EntryKey, Entry>, oldId: int, newId: int)
    requires oldId != newId && forall k :: k in entries ==> k.bookId != newId
    ensures forall k :: k in RekeyEntries(entries, oldId, newId) ==> k.bookId != oldId
  {
  }

  /** Moving a book's entries to a fresh id and back restores them. */
  lemma RekeyEntriesRoundTrip(entries: map<EntryKey, Entry>, oldId: int, newId: int)
    requires forall k :: k in entries ==> k.bookId != newId
    ensures RekeyEntries(RekeyEntries(entries, oldId, newId), newId, oldId) == entries
  {
    if oldId != newId {
      RekeyEntriesVacates(entries, oldId, newId);
    }
    var moved := RekeyEntries(entries, oldId, newId);
    var back := RekeyEntries(moved, newId, oldId);
    forall k | k in entries
      ensures k in back && back[k] == entries[k]
    {
      if k.bookId == oldId {
        assert k.(bookId := newId).(bookId := oldId) == k;
      }
    }
    forall k | k in back
      ensures k in entries
    {
      if k.bookId == oldId && oldId != newId {
        assert k.(bookId := newId) in moved;
      }
    }
  }

  /**
   * `update(AddressBook).where(id == oldId).values(id=newId)`: nothing
   * happens when no book has `oldId`; moving onto another existing book's
   * id violates the primary key; otherwise the book is re-keyed, its
   * `updated_at` refreshed, and its entries follow.
   */
  function UpdateBookId(books: map<int, AddressBook>, entries: map<EntryKey, Entry>, oldId: int, newId: int, now: int)
    : (r: Result<(map<int, AddressBook>, map<EntryKey, Entry>, Option<AddressBook>), DbError>)
    requires forall k :: k in entries ==> k.bookId in books
    ensures oldId !in books ==> r == Ok((books, entries, None))
    ensures r.Err? <==> oldId in books && newId != oldId && newId in books
    ensures r.Err? ==> r.error == IntegrityError
    ensures r.Ok? && oldId in books ==>
      && r.value.2 == Some(books[oldId].(updatedAt := now))
      && r.value.0.Keys == books.Keys - {oldId} + {newId}
      && r.value.0[newId] == books[oldId].(updatedAt := now)
      && (forall id :: id in books && id != oldId && id != newId ==> r.value.0[id] == books[id])
    ensures r.Ok? ==> forall k :: k in r.value.1 ==> k.bookId in r.value.0
  {
    if oldId !in books then Ok((books, entries, None))
    else if newId != oldId && newId in books then Err(IntegrityError)
    else
      var row := books[oldId].(updatedAt := now);
      Ok(((books - {oldId})[newId := row], RekeyEntries(entries, oldId, newId), Some(row)))
  }

  // ---------------------------------------------------------------------------
  // compose_address_book_entries

  /** The alias `compose_address_book_entries` gives an entry: `f"_{title} {type} {short_address}"`. */
  function EntryAlias(title: string, account: Account): (r: string)
    ensures |r| == |title| + 8 + |ShortAddress(account.address)|
    ensures r[0] == '_' && r[1..|title| + 1] == title && r[|title| + 1] == ' ' && r[|title| + 7] == ' '
    ensures r[|title| + 8..] == ShortAddress(account.address)
  {
    "_" + title + " " + ChainTypeId(account.accountType) + " " + ShortAddress(account.address)
  }

  /** The type id sits at a fixed place in the alias. */
  lemma EntryAliasTypeAt(title: string, account: Account)
    ensures |EntryAlias(title, account)| >= |title| + 7
    ensures EntryAlias(title, account)[|title| + 2..|title| + 7] == ChainTypeId(account.accountType)
  {
    var alias := EntryAlias(title, account);
    assert alias == ("_" + title + " ") + ChainTypeId(account.accountType) + (" " + ShortAddress(account.address));
  }

  /**
   * Two accounts of different types get different aliases in the same book,
   * so the unique constraint on (book, address, alias) cannot reject the
   * entries of one address on several chains.
   */
  lemma EntryAliasesDifferByType(title: string, a1: Account, a2: Account)
    requires a1.accountType != a2.accountType
    ensures EntryAlias(title, a1) != EntryAlias(title, a2)
  {
    EntryAliasTypeAt(title, a1);
    EntryAliasTypeAt(title, a2);
  }

  /** The entry rows `compose_address_book_entries` inserts, one per account, with the server defaults. */
  function NewEntries(bookId: int, title: string, accs: seq<Account>): (r: seq<(EntryKey, Entry)>)
    ensures |r| == |accs|
    ensures forall i :: 0 <= i < |accs| ==>
      r[i] == (EntryKey(bookId, accs[i].address, accs[i].accountType), NewEntry(EntryAlias(title, accs[i])))
  {
    seq(|accs|, i requires 0 <= i < |accs| => (EntryKey(bookId, accs[i].address, accs[i].accountType),
                                                NewEntry(EntryAlias(title, accs[i]))))
  }

  /** An entry row clashes with the table on its key or on the unique (book, address, alias). */
  predicate Clashes(entries: map<EntryKey, Entry>, key: EntryKey, entry: Entry)
  {
    || key in entries
    || exists k :: k in entries && k.bookId == key.bookId && k.address == key.address && entries[k].alias == entry.alias
  }

  /** A plain multi-row `insert(AddressBookEntry)`: any clash, with the table or an earlier row, raises. */
  function InsertEntries(entries: map<EntryKey, Entry>, rows: seq<(EntryKey, Entry)>): (r: Result<map<EntryKey, Entry>, DbError>)
    ensures r.Ok? ==> r.value.Keys == entries.Keys + (set i | 0 <= i < |rows| :: rows[i].0)
    ensures r.Ok? ==> forall k :: k in entries ==> r.value[k] == entries[k]
    ensures r.Err? ==> r.error == IntegrityError
  {
    if rows == [] then Ok(entries)
    else
      var init, last := rows[..|rows| - 1], rows[|rows| - 1];
      assert forall i :: 0 <= i < |init| ==> init[i] == rows[i];
      var done :- InsertEntries(entries, init);
      if Clashes(done, last.0, last.1) then Err(IntegrityError)
      else
        assert (set i | 0 <= i < |rows| :: rows[i].0) == (set i | 0 <= i < |init| :: init[i].0) + {last.0};
        Ok(done[last.0 := last.1])
  }

  /** After a successful insert every row is present with its own columns. */
  lemma {:induction false} InsertEntriesRows(entries: map<EntryKey, Entry>, rows: seq<(EntryKey, Entry)>, i: int)
    requires InsertEntries(entries, rows).Ok? && 0 <= i < |rows|
    ensures InsertEntries(entries, rows).value[rows[i].0] == rows[i].1
  {
    var init, last := rows[..|rows| - 1], rows[|rows| - 1];
    if i < |rows| - 1 {
      assert init[i] == rows[i];
      InsertEntriesRows(entries, init, i);
      var done := InsertEntries(entries, init).value;
      assert rows[i].0 in done;
      assert last.0 !in done;
    }
  }

  /** Two rows of one insert clash on the key or on (book, address, alias). */
  predicate RowsClash(a: (EntryKey, Entry), b: (EntryKey, Entry))
  {
    || a.0 == b.0
    || (a.0.bookId == b.0.bookId && a.0.address == b.0.address && a.1.alias == b.1.alias)
  }

  /** No row clashes with the table or with an earlier row. */
  predicate RowsFit(entries: map<EntryKey, Entry>, rows: seq<(EntryKey, Entry)>)
  {
    forall i :: 0 <= i < |rows| ==>
      && !Clashes(entries, rows[i].0, rows[i].1)
      && forall j :: 0 <= j < i ==> !RowsClash(rows[j], rows[i])
  }

  /** After a successful insert, a row clashes with the table exactly when it clashes with the old table or an inserted row. */
  lemma ClashesAfterInsert(entries: map<EntryKey, Entry>, rows: seq<(EntryKey, Entry)>, key: EntryKey, entry: Entry)
    requires InsertEntries(entries, rows).Ok?
    ensures Clashes(InsertEntries(entries, rows).value, key, entry)
      <==> Clashes(entries, key, entry) || exists j :: 0 <= j < |rows| && RowsClash(rows[j], (key, entry))
  {
    var done := InsertEntries(entries, rows).value;
    forall j | 0 <= j < |rows| ensures rows[j].0 in done && done[rows[j].0] == rows[j].1 {
      InsertEntriesRows(entries, rows, j);
    }
    if Clashes(done, key, entry) && !Clashes(entries, key, entry) {
      if key in done {
        var j :| 0 <= j < |rows| && rows[j].0 == key;
        assert RowsClash(rows[j], (key, entry));
      } else {
        var k :| k in done && k.bookId == key.bookId && k.address == key.address && done[k].alias == entry.alias;
        var j :| 0 <= j < |rows| && rows[j].0 == k;
        assert RowsClash(rows[j], (key, entry));
      }
    }
  }

  /** The rows fit exactly when all but the last fit and the last clashes with neither the table nor an earlier row. */
  lemma RowsFitSnoc(entries: map<EntryKey, Entry>, rows: seq<(EntryKey, Entry)>)
    requires rows != []
    ensures var init, last := rows[..|rows| - 1], rows[|rows| - 1];
      RowsFit(entries, rows) <==>
        RowsFit(entries, init) && !Clashes(entries, last.0, last.1)
        && forall j :: 0 <= j < |init| ==> !RowsClash(init[j], last)
  {
    var init := rows[..|rows| - 1];
    assert forall i :: 0 <= i < |init| ==> init[i] == rows[i];
  }

  /** The insert succeeds exactly when no row clashes with the table or with an earlier row. */
  lemma {:induction false} InsertEntriesSucceeds(entries: map<EntryKey, Entry>, rows: seq<(EntryKey, Entry)>)
    ensures InsertEntries(entries, rows).Ok? <==> RowsFit(entries, rows)
  {
    if rows != [] {
      var init, last := rows[..|rows| - 1], rows[|rows| - 1];
      assert forall i :: 0 <= i < |init| ==> init[i] == rows[i];
      InsertEntriesSucceeds(entries, init);
      RowsFitSnoc(entries, rows);
      if InsertEntries(entries, init).Ok? {
        ClashesAfterInsert(entries, init, last.0, last.1);
      }
    }
  }

  /** A row that does not clash keeps the aliases of each (book, address) distinct. */
  lemma AddUnclashedKeepsAliases(entries: map<EntryKey, Entry>, key: EntryKey, entry: Entry)
    requires AliasesUnique(entries) && !Clashes(entries, key, entry)
    ensures AliasesUnique(entries[key := entry])
  {
  }

  /** A successful insert keeps the unique constraint on (book, address, alias). */
  lemma {:induction false} InsertEntriesKeepsAliases(entries: map<EntryKey, Entry>, rows: seq<(EntryKey, Entry)>)
    requires AliasesUnique(entries) && InsertEntries(entries, rows).Ok?
    ensures AliasesUnique(InsertEntries(entries, rows).value)
  {
    if rows != [] {
      var init, last := rows[..|rows| - 1], rows[|rows| - 1];
      InsertEntriesKeepsAliases(entries, init);
      AddUnclashedKeepsAliases(InsertEntries(entries, init).value, last.0, last.1);
    }
  }

  // ---------------------------------------------------------------------------
  // get_last_account_statement_query

  /** `k` is a statement of the account whose timestamp is the largest. */
  predicate IsLatest(statements: map<StatementKey, Balances>, key: AccountKey, k: StatementKey)
  {
    && k in statements && OfAccount(k, key)
    && forall k2 :: k2 in statements && OfAccount(k2, key) ==> k2.timestamp <= k.timestamp
  }

  lemma {:induction false} LatestIn(ks: set<StatementKey>)
    requires ks != {}
    ensures exists k :: k in ks && forall k2 :: k2 in ks ==> k2.timestamp <= k.timestamp
    decreases ks
  {
    var k :| k in ks;
    if ks - {k} == {} {
      assert ks == {k};
    } else {
      LatestIn(ks - {k});
      var m :| m in ks - {k} && forall k2 :: k2 in ks - {k} ==> k2.timestamp <= m.timestamp;
      if m.timestamp < k.timestamp {
        assert forall k2 :: k2 in ks ==> k2.timestamp <= k.timestamp;
      } else {
        assert forall k2 :: k2 in ks ==> k2.timestamp <= m.timestamp;
      }
    }
  }

  /** An account with statements has a latest one. */
  lemma LatestExists(statements: map<StatementKey, Balances>, key: AccountKey)
    requires exists k :: k in statements && OfAccount(k, key)
    ensures exists k :: IsLatest(statements, key, k)
  {
    var ks := set k | k in statements && OfAccount(k, key);
    var k0 :| k0 in statements && OfAccount(k0, key);
    assert k0 in ks;
    LatestIn(ks);
    var m :| m in ks && forall k2 :: k2 in ks ==> k2.timestamp <= m.timestamp;
    assert IsLatest(statements, key, m);
  }

  /** The timestamp is part of the key, so the query selects at most one row. */
  lemma LatestUnique(statements: map<StatementKey, Balances>, key: AccountKey, k1: StatementKey, k2: StatementKey)
    requires IsLatest(statements, key, k1) && IsLatest(statements, key, k2)
    ensures k1 == k2
  {
  }

  /** `get_last_account_statement`: the row the max-timestamp query selects, if any. */
  ghost function LastStatement(statements: map<StatementKey, Balances>, key: AccountKey): (r: Option<StatementKey>)
    ensures r.Some? <==> exists k :: k in statements && OfAccount(k, key)
    ensures r.Some? ==> IsLatest(statements, key, r.value)
  {
    if exists k :: k in statements && OfAccount(k, key) then
      LatestExists(statements, key);
      var k :| IsLatest(statements, key, k);
      Some(k)
    else None
  }

  /** The tables after `compose_address_book_entries`, or None when the entry insert raised. */
  function Compose(t: Tables, bookId: int, title: string, accs: seq<Account>, now: int): (r: Option<Tables>)
    ensures r.Some? <==> InsertEntries(t.entries, NewEntries(bookId, title, accs)).Ok?
    ensures r.Some? ==> bookId in r.value.books && r.value.books[bookId].isActive && r.value.books[bookId].title == title
    ensures r.Some? ==> forall i :: 0 <= i < |accs| ==>
      && KeyOf(accs[i]) in r.value.accounts
      && EntryKey(bookId, accs[i].address, accs[i].accountType) in r.value.entries
      && r.value.entries[EntryKey(bookId, accs[i].address, accs[i].accountType)] == NewEntry(EntryAlias(title, accs[i]))
    ensures r.Some? ==> forall k :: k in t.entries ==> k in r.value.entries && r.value.entries[k] == t.entries[k]
    ensures r.Some? ==> r.value.statements == t.statements && r.value.transactions == t.transactions
  {
    var inserted := InsertEntries(t.entries, NewEntries(bookId, title, accs));
    if inserted.Err? then None
    else
      var rows := NewEntries(bookId, title, accs);
      assert forall i :: 0 <= i < |accs| ==> inserted.value[rows[i].0] == rows[i].1 by {
        forall i | 0 <= i < |accs| ensures inserted.value[rows[i].0] == rows[i].1 {
          InsertEntriesRows(t.entries, rows, i);
        }
      }
      Some(t.(books := UpsertAddressBook(t.books, bookId, title, true, now),
                 accounts := UpsertAccounts(t.accounts, accs, now),
                 entries := inserted.value))
  }

  /** Entries inserted for accounts that are stored, into a book that is stored, keep every entry's references. */
  lemma {:induction false} NewEntriesReferenced(entries: map<EntryKey, Entry>, bookId: int, title: string, accs: seq<Account>,
                                                books: set<int>, accounts: set<AccountKey>)
    requires InsertEntries(entries, NewEntries(bookId, title, accs)).Ok?
    requires forall k :: k in entries ==> k.bookId in books && AccountKey(k.address, k.accountType) in accounts
    requires bookId in books
    requires forall i :: 0 <= i < |accs| ==> KeyOf(accs[i]) in accounts
    ensures forall k :: k in InsertEntries(entries, NewEntries(bookId, title, accs)).value ==>
      k.bookId in books && AccountKey(k.address, k.accountType) in accounts
  {
    var rows := NewEntries(bookId, title, accs);
    forall k | k in InsertEntries(entries, rows).value
      ensures k.bookId in books && AccountKey(k.address, k.accountType) in accounts
    {
      if k !in entries {
        var i :| 0 <= i < |rows| && rows[i].0 == k;
        assert KeyOf(accs[i]) in accounts;
      }
    }
  }

  /** Distinct accounts composed into a book that has no entries yet always succeed. */
  lemma ComposeFreshBook(t: Tables, bookId: int, title: string, accs: seq<Account>, now: int)
    requires forall k :: k in t.entries ==> k.bookId != bookId
    requires forall i, j :: 0 <= i < j < |accs| ==> KeyOf(accs[i]) != KeyOf(accs[j])
    ensures Compose(t, bookId, title, accs, now).Some?
  {
    var rows := NewEntries(bookId, title, accs);
    forall i | 0 <= i < |rows|
      ensures !Clashes(t.entries, rows[i].0, rows[i].1)
      ensures forall j :: 0 <= j < i ==> !RowsClash(rows[j], rows[i])
    {
      forall j | 0 <= j < i ensures !RowsClash(rows[j], rows[i]) {
        assert KeyOf(accs[j]) != KeyOf(accs[i]);
        if accs[j].address == accs[i].address {
          EntryAliasesDifferByType(title, accs[j], accs[i]);
        }
      }
    }
    InsertEntriesSucceeds(t.entries, rows);
  }

  /** A successful compose keeps every foreign key: the book and the accounts are written with the entries. */
  lemma ComposeReferential(t: Tables, bookId: int, title: string, accs: seq<Account>, now: int)
    requires Referential(t)
    requires Compose(t, bookId, title, accs, now).Some?
    ensures Referential(Compose(t, bookId, title, accs, now).value)
  {
    var after := Compose(t, bookId, title, accs, now).value;
    assert t.accounts.Keys <= after.accounts.Keys;
    NewEntriesReferenced(t.entries, bookId, title, accs, after.books.Keys, after.accounts.Keys);
  }

  /** A successful compose keeps the unique (book, address, alias) constraint and every foreign key. */
  lemma ComposeKeepsConstraints(t: Tables, bookId: int, title: string, accs: seq<Account>, now: int)
    requires Referential(t) && AliasesUnique(t.entries)
    requires Compose(t, bookId, title, accs, now).Some?
    ensures AliasesUnique(Compose(t, bookId, title, accs, now).value.entries)
    ensures Referential(Compose(t, bookId, title, accs, now).value)
  {
    InsertEntriesKeepsAliases(t.entries, NewEntries(bookId, title, accs));
    ComposeReferential(t, bookId, title, accs, now);
  }

  // ---------------------------------------------------------------------------
  // sync_db_account

  /** The five tables. */
  datatype Tables = Tables(
    accounts: map<AccountKey, AccountRow>,
    statements: map<StatementKey, Balances>,
    transactions: map<TxKey, int>,
    books: map<int, AddressBook>,
    entries: map<EntryKey, Entry>)

  /** Every foreign key names an existing row. */
  ghost predicate Referential(t: Tables)
  {
    && (forall k :: k in t.statements ==> AccountKey(k.address, k.accountType) in t.accounts)
    && (forall k :: k in t.transactions ==>
          AccountKey(k.fromAddress, k.fromType) in t.accounts && AccountKey(k.toAddress, k.toType) in t.accounts)
    && (forall k :: k in t.entries ==> k.bookId in t.books && AccountKey(k.address, k.accountType) in t.accounts)
  }

  /** Each account has at most one statement. */
  ghost predicate OneStatementEach(statements: map<StatementKey, Balances>)
  {
    forall k1, k2 :: k1 in statements && k2 in statements && k1.address == k2.address && k1.accountType == k2.accountType
      ==> k1 == k2
  }

  /** A history is fetched when there is no stored account or its stored balance of that kind differs. */
  predicate ShouldFetch(stored: Option<AccountRow>, account: Account, kind: TxKind)
    ensures stored.None? ==> ShouldFetch(stored, account, kind)
    ensures stored.Some? && kind == Native ==>
      (ShouldFetch(stored, account, kind) <==> stored.value.nativeBalance != account.nativeBalance)
    ensures stored.Some? && kind == Token ==>
      (ShouldFetch(stored, account, kind) <==> stored.value.tokenBalance != account.tokenBalance)
  {
    || stored.None?
    || (kind == Native && stored.value.nativeBalance != account.nativeBalance)
    || (kind == Token && stored.value.tokenBalance != account.tokenBalance)
  }

  /**
   * The one statement operation: move the latest statement to `now` with the
   * new balances, or insert one when the account has none. Moving onto the
   * key of another statement of the account violates the primary key.
   */
  ghost function StatementOp(statements: map<StatementKey, Balances>, account: Account, now: int): (r: Result<map<StatementKey, Balances>, DbError>)
    ensures r.Ok? ==> forall k :: !OfAccount(k, KeyOf(account)) ==> (k in r.value <==> k in statements)
    ensures r.Ok? ==> forall k :: k in statements && !OfAccount(k, KeyOf(account)) ==> r.value[k] == statements[k]
    ensures r.Ok? ==> var moved := StatementKey(account.address, account.accountType, now);
      moved in r.value && r.value[moved] == Balances(account.nativeBalance, account.tokenBalance)
    ensures r.Err? ==> r.error == IntegrityError
  {
    var moved := StatementKey(account.address, account.accountType, now);
    var balances := Balances(account.nativeBalance, account.tokenBalance);
    match LastStatement(statements, KeyOf(account))
    case Some(last) =>
      if moved != last && moved in statements then Err(IntegrityError)
      else Ok((statements - {last})[moved := balances])
    case None => Ok(statements[moved := balances])
  }

  /**
   * One pass of the loop over `("token", "native")`: nothing for an absent
   * history; otherwise the counterparties (raising `KeyError` when the own
   * address is not an endpoint) and the kept transactions, both inserted
   * with `on_conflict_do_nothing`.
   */
  function RecordHistory(accounts: map<AccountKey, AccountRow>, transactions: map<TxKey, int>, txType: string,
                         history: Option<seq<ApiTx>>, oldAmount: int, account: Account, now: int)
    : (r: Result<(map<AccountKey, AccountRow>, map<TxKey, int>), DbError>)
    requires txType == "native" || txType == "token"
    ensures history.None? ==> r == Ok((accounts, transactions))
    ensures r.Err? <==> history.Some? && account.address !in Endpoints(history.value)
    ensures r.Ok? ==> forall k :: k in accounts ==> k in r.value.0 && r.value.0[k] == accounts[k]
    ensures r.Ok? ==> forall k :: k in transactions ==> k in r.value.1 && r.value.1[k] == transactions[k]
  {
    if history.None? then Ok((accounts, transactions))
    else
      var rows := ActualTx(txType, history.value, oldAmount, account).value;
      var keys :- CounterpartyKeys(history.value, account);
      var accounts' := if keys != {} then InsertMissing(accounts, keys, DefaultAccountRow(now)) else accounts;
      var transactions' := if |rows| > 0 then InsertTransactions(transactions, rows) else transactions;
      Ok((accounts', transactions'))
  }

  /** The histories recorded in order; the first `KeyError` ends the session. */
  function RecordAll(accounts: map<AccountKey, AccountRow>, transactions: map<TxKey, int>,
                     batches: seq<(string, Option<seq<ApiTx>>)>, oldAmount: int, account: Account, now: int)
    : (r: Result<(map<AccountKey, AccountRow>, map<TxKey, int>), DbError>)
    requires forall i :: 0 <= i < |batches| ==> batches[i].0 == "native" || batches[i].0 == "token"
    ensures r.Ok? ==> forall k :: k in accounts ==> k in r.value.0 && r.value.0[k] == accounts[k]
    ensures r.Ok? ==> forall k :: k in transactions ==> k in r.value.1 && r.value.1[k] == transactions[k]
  {
    if batches == [] then Ok((accounts, transactions))
    else
      var last := batches[|batches| - 1];
      var done :- RecordAll(accounts, transactions, batches[..|batches| - 1], oldAmount, account, now);
      RecordHistory(done.0, done.1, last.0, last.1, oldAmount, account, now)
  }

  /** One more pass on top of the first `i`. */
  lemma RecordAllStep(accounts: map<AccountKey, AccountRow>, transactions: map<TxKey, int>,
                      batches: seq<(string, Option<seq<ApiTx>>)>, i: nat, oldAmount: int, account: Account, now: int)
    requires forall j :: 0 <= j < |batches| ==> batches[j].0 == "native" || batches[j].0 == "token"
    requires i < |batches|
    requires RecordAll(accounts, transactions, batches[..i], oldAmount, account, now).Ok?
    ensures var done := RecordAll(accounts, transactions, batches[..i], oldAmount, account, now).value;
      RecordAll(accounts, transactions, batches[..i + 1], oldAmount, account, now)
        == RecordHistory(done.0, done.1, batches[i].0, batches[i].1, oldAmount, account, now)
  {
    assert batches[..i + 1][..i] == batches[..i];
  }

  /** The two passes of `sync_db_account`, token history first. */
  function Batches(nativeTx: Option<seq<ApiTx>>, tokenTx: Option<seq<ApiTx>>): (r: seq<(string, Option<seq<ApiTx>>)>)
    ensures forall i :: 0 <= i < |r| ==> r[i].0 == "native" || r[i].0 == "token"
  {
    [("token", tokenTx), ("native", nativeTx)]
  }

  /** The stored row of an account, if any. */
  function Stored(accounts: map<AccountKey, AccountRow>, key: AccountKey): (r: Option<AccountRow>)
    ensures r.Some? <==> key in accounts
    ensures r.Some? ==> r.value == accounts[key]
  {
    if key in accounts then Some(accounts[key]) else None
  }

  /** The two passes, each with its history only when the fetch test asks for it. */
  function SyncBatches(stored: Option<AccountRow>, account: Account,
                       nativeFromNet: Option<seq<ApiTx>>, tokenFromNet: Option<seq<ApiTx>>)
    : (r: seq<(string, Option<seq<ApiTx>>)>)
    ensures forall i :: 0 <= i < |r| ==> r[i].0 == "native" || r[i].0 == "token"
    ensures |r| == 2 && r[0].0 == "token" && r[1].0 == "native"
    ensures r[0].1 == if stored.None? || stored.value.tokenBalance != account.tokenBalance then tokenFromNet else None
    ensures r[1].1 == if stored.None? || stored.value.nativeBalance != account.nativeBalance then nativeFromNet else None
  {
    Batches(if ShouldFetch(stored, account, Native) then nativeFromNet else None,
            if ShouldFetch(stored, account, Token) then tokenFromNet else None)
  }

  /** The amount the history walk starts from: the stored token balance, or 0 for a new account. */
  function OldAmount(stored: Option<AccountRow>): (r: int)
    ensures stored.None? ==> r == 0
    ensures stored.Some? ==> r == stored.value.tokenBalance
  {
    if stored.Some? then stored.value.tokenBalance else 0
  }

  /**
   * `sync_db_account(session, http_session, account, api_keys)` on the
   * tables: `nativeFromNet` and `tokenFromNet` are what the chain would
   * return if asked, used only when the fetch test says so.
   */
  ghost function SyncSpec(t: Tables, account: Account, now: int,
                          nativeFromNet: Option<seq<ApiTx>>, tokenFromNet: Option<seq<ApiTx>>): Result<Tables, DbError>
  {
    var key := KeyOf(account);
    var stored := Stored(t.accounts, key);
    var accounts := UpsertAccount(t.accounts, account, now);
    var statements :- StatementOp(t.statements, account, now);
    var recorded :- RecordAll(accounts, t.transactions, SyncBatches(stored, account, nativeFromNet, tokenFromNet),
                              OldAmount(stored), account, now);
    Ok(t.(accounts := recorded.0, statements := statements, transactions := recorded.1))
  }

  /** The sync specification step by step: statements first, then the history passes. */
  lemma SyncSpecSteps(t: Tables, account: Account, now: int,
                      nativeFromNet: Option<seq<ApiTx>>, tokenFromNet: Option<seq<ApiTx>>)
    ensures var stored := Stored(t.accounts, KeyOf(account));
      var statements := StatementOp(t.statements, account, now);
      var recorded := RecordAll(UpsertAccount(t.accounts, account, now), t.transactions,
                                SyncBatches(stored, account, nativeFromNet, tokenFromNet), OldAmount(stored), account, now);
      SyncSpec(t, account, now, nativeFromNet, tokenFromNet)
        == if statements.Err? then Err(statements.error)
           else if recorded.Err? then Err(recorded.error)
           else Ok(t.(accounts := recorded.value.0, statements := statements.value, transactions := recorded.value.1))
  {
  }

  /**
   * The loop `for tx_type in ("token", "native")` of `sync_db_account`,
   * working on the session's pending tables.
   */
  method RecordHistories(accounts: map<AccountKey, AccountRow>, transactions: map<TxKey, int>,
                         batches: seq<(string, Option<seq<ApiTx>>)>, oldAmount: int, account: Account, now: int)
    returns (r: Result<(map<AccountKey, AccountRow>, map<TxKey, int>), DbError>)
    requires forall i :: 0 <= i < |batches| ==> batches[i].0 == "native" || batches[i].0 == "token"
    ensures r == RecordAll(accounts, transactions, batches, oldAmount, account, now)
  {
    var newAccounts, newTransactions := accounts, transactions;
    var i := 0;
    while i < |batches|
      invariant 0 <= i <= |batches|
      invariant RecordAll(accounts, transactions, batches[..i], oldAmount, account, now) == Ok((newAccounts, newTransactions))
    {
      RecordAllStep(accounts, transactions, batches, i, oldAmount, account, now);
      ghost var before := (newAccounts, newTransactions);
      var (txType, history) := batches[i];
      if history.None? {
        i := i + 1;
        continue;
      }
      var txList := history.value;
      var actualTxValues := GetActualTx(txType, txList, oldAmount, account);
      var accountAddresses := GetAccountAddressesFromTx(txList, account);
      if accountAddresses.Err? {
        RecordAllStopsAtError(accounts, transactions, batches, i + 1, oldAmount, account, now);
        return Err(accountAddresses.error);
      }
      if accountAddresses.value != {} {
        newAccounts := InsertMissing(newAccounts, accountAddresses.value, DefaultAccountRow(now));
      }
      if |actualTxValues.value| > 0 {
        newTransactions := InsertTransactions(newTransactions, actualTxValues.value);
      }
      assert RecordHistory(before.0, before.1, txType, history, oldAmount, account, now) == Ok((newAccounts, newTransactions));
      i := i + 1;
    }
    assert batches[..i] == batches;
    return Ok((newAccounts, newTransactions));
  }

  /** The tables as the bot's database holds them. */
  class Database {
    var accounts: map<AccountKey, AccountRow>
    var statements: map<StatementKey, Balances>
    var transactions: map<TxKey, int>
    var books: map<int, AddressBook>
    var entries: map<EntryKey, Entry>

    function Snapshot(): Tables
      reads this
    {
      Tables(accounts, statements, transactions, books, entries)
    }

    constructor ()
      ensures Snapshot() == Tables(map[], map[], map[], map[], map[])
    {
      accounts, statements, transactions := map[], map[], map[];
      books, entries := map[], map[];
    }

    /** `get_last_account_statement(session, address, account_type_id)`. */
    method GetLastAccountStatement(key: AccountKey) returns (r: Option<StatementKey>)
      ensures r == LastStatement(statements, key)
    {
      if exists k :: k in statements && OfAccount(k, key) {
        LatestExists(statements, key);
        var k :| k in statements && IsLatest(statements, key, k);
        LatestUnique(statements, key, k, LastStatement(statements, key).value);
        return Some(k);
      }
      return None;
    }

    /** `read_address_book_by_id(session, id)`. */
    method ReadAddressBookById(id: int) returns (r: Option<AddressBook>)
      ensures r.Some? <==> id in books
      ensures r.Some? ==> r.value == books[id]
    {
      if id in books {
        return Some(books[id]);
      }
      return None;
    }

    /** `upsert_address_book(session, dict(id=..., title=..., is_active=...))` for one book. */
    method UpsertAddressBookRow(id: int, title: string, isActive: bool, now: int) returns (r: AddressBook)
      modifies this
      ensures books == UpsertAddressBook(old(books), id, title, isActive, now) && r == books[id]
      ensures accounts == old(accounts) && statements == old(statements) && transactions == old(transactions)
      ensures entries == old(entries)
    {
      books := UpsertAddressBook(books, id, title, isActive, now);
      return books[id];
    }

    /**
     * `update_address_book_id(session, old_id, new_id)`: the primary-key
     * violation is not caught there, so it reaches the caller.
     */
    method UpdateAddressBookId(oldId: int, newId: int, now: int) returns (r: Result<Option<AddressBook>, DbError>)
      requires forall k :: k in entries ==> k.bookId in books
      modifies this
      ensures var u := UpdateBookId(old(books), old(entries), oldId, newId, now);
        && (r.Ok? <==> u.Ok?)
        && (u.Ok? ==> books == u.value.0 && entries == u.value.1 && r.value == u.value.2)
        && (u.Err? ==> books == old(books) && entries == old(entries) && r.error == u.error)
      ensures accounts == old(accounts) && statements == old(statements) && transactions == old(transactions)
    {
      if oldId !in books {
        return Ok(None);
      }
      if newId != oldId && newId in books {
        return Err(IntegrityError);
      }
      var row := books[oldId].(updatedAt := now);
      books, entries := (books - {oldId})[newId := row], RekeyEntries(entries, oldId, newId);
      return Ok(Some(row));
    }

    /**
     * `compose_address_book_entries(session, id, title, accounts)`: upsert
     * the book as active, upsert the accounts, insert one entry per account;
     * any exception rolls all three back and yields None.
     */
    method ComposeAddressBookEntries(bookId: int, title: string, accs: seq<Account>, now: int)
      returns (r: Option<seq<(EntryKey, Entry)>>)
      requires |accs| > 0
      modifies this
      ensures r.Some? <==> Compose(old(Snapshot()), bookId, title, accs, now).Some?
      ensures r.Some? ==> Snapshot() == Compose(old(Snapshot()), bookId, title, accs, now).value
      ensures r.Some? ==> r.value == NewEntries(bookId, title, accs)
      ensures r.None? ==> Snapshot() == old(Snapshot())
    {
      var composed := Compose(Snapshot(), bookId, title, accs, now);
      if composed.None? {
        return None;
      }
      books, accounts, entries := composed.value.books, composed.value.accounts, composed.value.entries;
      return Some(NewEntries(bookId, title, accs));
    }

    /**
     * The statement step of `sync_db_account`: move the latest statement of
     * the account to `now`, or insert one when there is none.
     */
    method NextStatements(account: Account, now: int) returns (r: Result<map<StatementKey, Balances>, DbError>)
      ensures r == StatementOp(statements, account, now)
    {
      var lastStatement := GetLastAccountStatement(KeyOf(account));
      var moved := StatementKey(account.address, account.accountType, now);
      var balances := Balances(account.nativeBalance, account.tokenBalance);
      if lastStatement.Some? {
        if moved != lastStatement.value && moved in statements {
          return Err(IntegrityError);
        }
        return Ok((statements - {lastStatement.value})[moved := balances]);
      }
      return Ok(statements[moved := balances]);
    }

    /**
     * `sync_db_account`: all writes happen in one session and are committed
     * together; an exception leaves every table as it was.
     */
    method SyncDbAccount(account: Account, now: int, nativeFromNet: Option<seq<ApiTx>>, tokenFromNet: Option<seq<ApiTx>>)
      returns (r: Result<AccountRow, DbError>)
      modifies this`accounts, this`statements, this`transactions
      ensures r.Ok? <==> SyncSpec(old(Snapshot()), account, now, nativeFromNet, tokenFromNet).Ok?
      ensures r.Ok? ==> Snapshot() == SyncSpec(old(Snapshot()), account, now, nativeFromNet, tokenFromNet).value
      ensures r.Ok? ==> r.value == UpsertedRow(account, now)
      ensures r.Err? ==> Snapshot() == old(Snapshot()) && r.error == SyncSpec(old(Snapshot()), account, now, nativeFromNet, tokenFromNet).error
    {
      SyncSpecSteps(Snapshot(), account, now, nativeFromNet, tokenFromNet);
      var key := KeyOf(account);
      var dbAccount := Stored(accounts, key);
      var newStatements := NextStatements(account, now);
      if newStatements.Err? {
        return Err(newStatements.error);
      }
      var recorded := RecordHistories(UpsertAccount(accounts, account, now), transactions,
                                      SyncBatches(dbAccount, account, nativeFromNet, tokenFromNet),
                                      OldAmount(dbAccount), account, now);
      if recorded.Err? {
        return Err(recorded.error);
      }
      accounts, statements, transactions := recorded.value.0, newStatements.value, recorded.value.1;
      return Ok(UpsertedRow(account, now));
    }
  }

  /** Once a prefix of the passes raised, so do all of them. */
  lemma {:induction false} RecordAllStopsAtError(accounts: map<AccountKey, AccountRow>, transactions: map<TxKey, int>,
                                                 batches: seq<(string, Option<seq<ApiTx>>)>, n: nat, oldAmount: int,
                                                 account: Account, now: int)
    requires forall i :: 0 <= i < |batches| ==> batches[i].0 == "native" || batches[i].0 == "token"
    requires n <= |batches|
    requires RecordAll(accounts, transactions, batches[..n], oldAmount, account, now).Err?
    ensures RecordAll(accounts, transactions, batches, oldAmount, account, now)
      == RecordAll(accounts, transactions, batches[..n], oldAmount, account, now)
    decreases |batches| - n
  {
    if n < |batches| {
      assert batches[..n + 1][..n] == batches[..n];
      RecordAllStopsAtError(accounts, transactions, batches, n + 1, oldAmount, account, now);
    } else {
      assert batches[..n] == batches;
    }
  }

  // ---------------------------------------------------------------------------
  // What a sync promises

  /** On success the account's row holds the new balances, stamped now; other stored rows are as they were. */
  lemma SyncAccountRow(t: Tables, account: Account, now: int, nativeFromNet: Option<seq<ApiTx>>, tokenFromNet: Option<seq<ApiTx>>)
    requires SyncSpec(t, account, now, nativeFromNet, tokenFromNet).Ok?
    ensures var after := SyncSpec(t, account, now, nativeFromNet, tokenFromNet).value;
      && after.accounts[KeyOf(account)] == UpsertedRow(account, now)
      && (forall k :: k in t.accounts && k != KeyOf(account) ==> k in after.accounts && after.accounts[k] == t.accounts[k])
      && (forall k :: k in t.transactions ==> k in after.transactions && after.transactions[k] == t.transactions[k])
      && after.books == t.books && after.entries == t.entries
  {
  }

  /** With one statement per account, the statement step never raises and leaves the moved row as the latest. */
  lemma StatementOpKeepsOneEach(statements: map<StatementKey, Balances>, account: Account, now: int)
    requires OneStatementEach(statements)
    ensures StatementOp(statements, account, now).Ok?
    ensures var after := StatementOp(statements, account, now).value;
      var moved := StatementKey(account.address, account.accountType, now);
      && OneStatementEach(after)
      && LastStatement(after, KeyOf(account)) == Some(moved)
  {
    var key := KeyOf(account);
    var moved := StatementKey(account.address, account.accountType, now);
    var after := StatementOp(statements, account, now).value;
    match LastStatement(statements, key)
    case Some(last) =>
      assert moved in statements ==> moved == last;
      assert forall k :: k in after && OfAccount(k, key) ==> k == moved;
    case None =>
      assert forall k :: k in after && OfAccount(k, key) ==> k == moved;
    assert IsLatest(after, key, moved);
    LatestUnique(after, key, moved, LastStatement(after, key).value);
  }

  /**
   * Syncing keeps one statement per account, and the latest statement of
   * the synced account is the one stamped now with the new balances.
   */
  lemma SyncStatement(t: Tables, account: Account, now: int, nativeFromNet: Option<seq<ApiTx>>, tokenFromNet: Option<seq<ApiTx>>)
    requires OneStatementEach(t.statements)
    requires SyncSpec(t, account, now, nativeFromNet, tokenFromNet).Ok?
    ensures var after := SyncSpec(t, account, now, nativeFromNet, tokenFromNet).value;
      var moved := StatementKey(account.address, account.accountType, now);
      && OneStatementEach(after.statements)
      && LastStatement(after.statements, KeyOf(account)) == Some(moved)
      && after.statements[moved] == Balances(account.nativeBalance, account.tokenBalance)
  {
    StatementOpKeepsOneEach(t.statements, account, now);
  }

  /** A history pass with no history to record leaves both tables alone. */
  lemma RecordAllNothingFetched(accounts: map<AccountKey, AccountRow>, transactions: map<TxKey, int>,
                                oldAmount: int, account: Account, now: int)
    ensures RecordAll(accounts, transactions, Batches(None, None), oldAmount, account, now) == Ok((accounts, transactions))
  {
    var token: seq<(string, Option<seq<ApiTx>>)> := [("token", None)];
    assert token[..0] == [];
    assert RecordAll(accounts, transactions, token, oldAmount, account, now) == Ok((accounts, transactions));
    assert Batches(None, None)[..1] == token;
  }

  /**
   * An account whose stored balances already equal the fresh ones fetches
   * no history: the sync only re-stamps its row and its statement.
   */
  lemma UnchangedAccountWritesNoHistory(t: Tables, account: Account, now: int,
                                        nativeFromNet: Option<seq<ApiTx>>, tokenFromNet: Option<seq<ApiTx>>)
    requires OneStatementEach(t.statements)
    requires KeyOf(account) in t.accounts
    requires t.accounts[KeyOf(account)].nativeBalance == account.nativeBalance
    requires t.accounts[KeyOf(account)].tokenBalance == account.tokenBalance
    ensures SyncSpec(t, account, now, nativeFromNet, tokenFromNet).Ok?
    ensures var after := SyncSpec(t, account, now, nativeFromNet, tokenFromNet).value;
      && after.accounts == UpsertAccount(t.accounts, account, now)
      && after.transactions == t.transactions
  {
    StatementOpKeepsOneEach(t.statements, account, now);
    var stored := Stored(t.accounts, KeyOf(account));
    assert SyncBatches(stored, account, nativeFromNet, tokenFromNet) == Batches(None, None);
    RecordAllNothingFetched(UpsertAccount(t.accounts, account, now), t.transactions, OldAmount(stored), account, now);
  }

  /** With the stored native balance unchanged, what the chain would return as native history plays no part. */
  lemma SyncIgnoresNativeHistory(t: Tables, account: Account, now: int,
                                 native1: Option<seq<ApiTx>>, native2: Option<seq<ApiTx>>, tokenFromNet: Option<seq<ApiTx>>)
    requires KeyOf(account) in t.accounts
    requires t.accounts[KeyOf(account)].nativeBalance == account.nativeBalance
    ensures SyncSpec(t, account, now, native1, tokenFromNet) == SyncSpec(t, account, now, native2, tokenFromNet)
  {
    var stored := Stored(t.accounts, KeyOf(account));
    assert SyncBatches(stored, account, native1, tokenFromNet) == SyncBatches(stored, account, native2, tokenFromNet);
  }

  /** With the stored token balance unchanged, what the chain would return as token history plays no part. */
  lemma SyncIgnoresTokenHistory(t: Tables, account: Account, now: int,
                                nativeFromNet: Option<seq<ApiTx>>, token1: Option<seq<ApiTx>>, token2: Option<seq<ApiTx>>)
    requires KeyOf(account) in t.accounts
    requires t.accounts[KeyOf(account)].tokenBalance == account.tokenBalance
    ensures SyncSpec(t, account, now, nativeFromNet, token1) == SyncSpec(t, account, now, nativeFromNet, token2)
  {
    var stored := Stored(t.accounts, KeyOf(account));
    assert SyncBatches(stored, account, nativeFromNet, token1) == SyncBatches(stored, account, nativeFromNet, token2);
  }

  /** Syncing the same reading twice: the second sync records no history. */
  lemma ResyncWritesNoHistory(t: Tables, account: Account, now: int, later: int,
                              nativeFromNet: Option<seq<ApiTx>>, tokenFromNet: Option<seq<ApiTx>>)
    requires OneStatementEach(t.statements)
    requires SyncSpec(t, account, now, nativeFromNet, tokenFromNet).Ok?
    ensures var once := SyncSpec(t, account, now, nativeFromNet, tokenFromNet).value;
      && SyncSpec(once, account, later, nativeFromNet, tokenFromNet).Ok?
      && SyncSpec(once, account, later, nativeFromNet, tokenFromNet).value.transactions == once.transactions
  {
    var once := SyncSpec(t, account, now, nativeFromNet, tokenFromNet).value;
    SyncAccountRow(t, account, now, nativeFromNet, tokenFromNet);
    SyncStatement(t, account, now, nativeFromNet, tokenFromNet);
    UnchangedAccountWritesNoHistory(once, account, later, nativeFromNet, tokenFromNet);
  }

  /**
   * A new account whose token history comes back empty cannot be synced:
   * its own address is not an endpoint, so the set removal raises and the
   * session rolls back.
   */
  lemma EmptyHistoryAborts(t: Tables, account: Account, now: int, nativeFromNet: Option<seq<ApiTx>>)
    requires OneStatementEach(t.statements)
    requires KeyOf(account) !in t.accounts
    ensures SyncSpec(t, account, now, nativeFromNet, Some([])) == Err(KeyError)
  {
    StatementOpKeepsOneEach(t.statements, account, now);
    var accounts := UpsertAccount(t.accounts, account, now);
    var token: seq<(string, Option<seq<ApiTx>>)> := [("token", Some([]))];
    assert token[..0] == [];
    assert account.address !in Endpoints([]);
    assert RecordAll(accounts, t.transactions, token, 0, account, now) == Err(KeyError);
    var batches := SyncBatches(None, account, nativeFromNet, Some([]));
    assert batches[..1] == token;
    assert RecordAll(accounts, t.transactions, batches, 0, account, now) == Err(KeyError);
  }

  /** Every transaction's endpoints are stored accounts. */
  ghost predicate EndpointsStored(transactions: map<TxKey, int>, accounts: map<AccountKey, AccountRow>)
  {
    forall k :: k in transactions ==>
      AccountKey(k.fromAddress, k.fromType) in accounts && AccountKey(k.toAddress, k.toType) in accounts
  }

  /** One history pass inserts a counterparty row for every endpoint of the rows it inserts. */
  lemma RecordHistoryStoresEndpoints(accounts: map<AccountKey, AccountRow>, transactions: map<TxKey, int>, txType: string,
                                     history: Option<seq<ApiTx>>, oldAmount: int, account: Account, now: int)
    requires txType == "native" || txType == "token"
    requires KeyOf(account) in accounts && EndpointsStored(transactions, accounts)
    requires RecordHistory(accounts, transactions, txType, history, oldAmount, account, now).Ok?
    ensures EndpointsStored(RecordHistory(accounts, transactions, txType, history, oldAmount, account, now).value.1,
                            RecordHistory(accounts, transactions, txType, history, oldAmount, account, now).value.0)
  {
    if history.Some? {
      var txs := history.value;
      var rows := ActualTx(txType, txs, oldAmount, account).value;
      var keys := CounterpartyKeys(txs, account).value;
      var after := RecordHistory(accounts, transactions, txType, history, oldAmount, account, now).value;
      assert after.0 == if keys != {} then InsertMissing(accounts, keys, DefaultAccountRow(now)) else accounts;
      assert after.1 == if |rows| > 0 then InsertTransactions(transactions, rows) else transactions;
      assert accounts.Keys <= after.0.Keys && keys <= after.0.Keys;
      forall e | e in Endpoints(txs) ensures AccountKey(e, account.accountType) in after.0 {
        if e != account.address {
          assert AccountKey(e, account.accountType) in keys;
        }
      }
      forall k | k in after.1
        ensures AccountKey(k.fromAddress, k.fromType) in after.0 && AccountKey(k.toAddress, k.toType) in after.0
      {
        if k !in transactions {
          var i :| 0 <= i < |rows| && rows[i].key == k;
          assert txs[i].fromAddress in Endpoints(txs) && txs[i].toAddress in Endpoints(txs);
        }
      }
    }
  }

  lemma {:induction false} RecordAllStoresEndpoints(accounts: map<AccountKey, AccountRow>, transactions: map<TxKey, int>,
                                                    batches: seq<(string, Option<seq<ApiTx>>)>, oldAmount: int,
                                                    account: Account, now: int)
    requires forall i :: 0 <= i < |batches| ==> batches[i].0 == "native" || batches[i].0 == "token"
    requires KeyOf(account) in accounts && EndpointsStored(transactions, accounts)
    requires RecordAll(accounts, transactions, batches, oldAmount, account, now).Ok?
    ensures EndpointsStored(RecordAll(accounts, transactions, batches, oldAmount, account, now).value.1,
                            RecordAll(accounts, transactions, batches, oldAmount, account, now).value.0)
  {
    if batches != [] {
      var init := batches[..|batches| - 1];
      var last := batches[|batches| - 1];
      RecordAllStoresEndpoints(accounts, transactions, init, oldAmount, account, now);
      var done := RecordAll(accounts, transactions, init, oldAmount, account, now).value;
      RecordHistoryStoresEndpoints(done.0, done.1, last.0, last.1, oldAmount, account, now);
    }
  }

  /** A sync only ever adds rows that the foreign keys can find. */
  lemma SyncKeepsReferential(t: Tables, account: Account, now: int,
                             nativeFromNet: Option<seq<ApiTx>>, tokenFromNet: Option<seq<ApiTx>>)
    requires Referential(t)
    requires SyncSpec(t, account, now, nativeFromNet, tokenFromNet).Ok?
    ensures Referential(SyncSpec(t, account, now, nativeFromNet, tokenFromNet).value)
  {
    var stored := Stored(t.accounts, KeyOf(account));
    var accounts := UpsertAccount(t.accounts, account, now);
    assert EndpointsStored(t.transactions, accounts);
    RecordAllStoresEndpoints(accounts, t.transactions, SyncBatches(stored, account, nativeFromNet, tokenFromNet),
                             OldAmount(stored), account, now);
  }

  // ---------------------------------------------------------------------------
  // What the history passes insert

  /** The keys of a batch of transaction rows. */
  function RowKeys(rows: seq<TxRow>): (r: set<TxKey>)
    ensures forall k :: k in r <==> exists i :: 0 <= i < |rows| && rows[i].key == k
  {
    set i | 0 <= i < |rows| :: rows[i].key
  }

  /** The transaction keys one pass inserts when it succeeds. */
  function PassTxKeys(pass: (string, Option<seq<ApiTx>>), oldAmount: int, account: Account): set<TxKey>
  {
    if pass.1.None? then {}
    else match ActualTx(pass.0, pass.1.value, oldAmount, account)
      case None => {}
      case Some(rows) => RowKeys(rows)
  }

  /** The counterparty keys one pass inserts when it succeeds. */
  function PassAccountKeys(pass: (string, Option<seq<ApiTx>>), account: Account): set<AccountKey>
  {
    if pass.1.None? then {}
    else match CounterpartyKeys(pass.1.value, account)
      case Err(_) => {}
      case Ok(keys) => keys
  }

  /** The transaction keys of all passes. */
  function RecordedTxKeys(batches: seq<(string, Option<seq<ApiTx>>)>, oldAmount: int, account: Account): set<TxKey>
  {
    if batches == [] then {}
    else RecordedTxKeys(batches[..|batches| - 1], oldAmount, account) + PassTxKeys(batches[|batches| - 1], oldAmount, account)
  }

  /** The counterparty keys of all passes. */
  function RecordedAccountKeys(batches: seq<(string, Option<seq<ApiTx>>)>, account: Account): set<AccountKey>
  {
    if batches == [] then {}
    else RecordedAccountKeys(batches[..|batches| - 1], account) + PassAccountKeys(batches[|batches| - 1], account)
  }

  /**
   * A successful pass inserts exactly the keys of the kept transaction rows
   * and of the counterparties; a counterparty that was missing gets the
   * default row.
   */
  lemma RecordHistoryInserts(accounts: map<AccountKey, AccountRow>, transactions: map<TxKey, int>, txType: string,
                             history: Option<seq<ApiTx>>, oldAmount: int, account: Account, now: int)
    requires txType == "native" || txType == "token"
    requires RecordHistory(accounts, transactions, txType, history, oldAmount, account, now).Ok?
    ensures var after := RecordHistory(accounts, transactions, txType, history, oldAmount, account, now).value;
      && after.1.Keys == transactions.Keys + PassTxKeys((txType, history), oldAmount, account)
      && after.0.Keys == accounts.Keys + PassAccountKeys((txType, history), account)
      && forall k :: k in after.0 && k !in accounts ==> after.0[k] == DefaultAccountRow(now)
  {
    if history.Some? {
      var rows := ActualTx(txType, history.value, oldAmount, account).value;
      var keys := CounterpartyKeys(history.value, account).value;
      var after := RecordHistory(accounts, transactions, txType, history, oldAmount, account, now).value;
      assert after == (if keys != {} then InsertMissing(accounts, keys, DefaultAccountRow(now)) else accounts,
                       if |rows| > 0 then InsertTransactions(transactions, rows) else transactions);
      assert PassTxKeys((txType, history), oldAmount, account) == RowKeys(rows);
      assert PassAccountKeys((txType, history), account) == keys;
      PassWrites(accounts, transactions, rows, keys, now);
    }
  }

  /** The two guarded inserts of one pass, on the tables alone. */
  lemma PassWrites(accounts: map<AccountKey, AccountRow>, transactions: map<TxKey, int>, rows: seq<TxRow>,
                   keys: set<AccountKey>, now: int)
    ensures var accounts' := if keys != {} then InsertMissing(accounts, keys, DefaultAccountRow(now)) else accounts;
      var transactions' := if |rows| > 0 then InsertTransactions(transactions, rows) else transactions;
      && transactions'.Keys == transactions.Keys + RowKeys(rows)
      && accounts'.Keys == accounts.Keys + keys
      && forall k :: k in accounts' && k !in accounts ==> accounts'[k] == DefaultAccountRow(now)
  {
    if |rows| == 0 {
      assert RowKeys(rows) == {};
    }
  }

  /** Two inserts that keep old rows and give new keys one row compose into one such insert. */
  lemma InsertTwice(a: map<AccountKey, AccountRow>, b: map<AccountKey, AccountRow>, c: map<AccountKey, AccountRow>,
                    first: set<AccountKey>, second: set<AccountKey>, row: AccountRow)
    requires b.Keys == a.Keys + first && c.Keys == b.Keys + second
    requires forall k :: k in b ==> c[k] == b[k]
    requires forall k :: k in b && k !in a ==> b[k] == row
    requires forall k :: k in c && k !in b ==> c[k] == row
    ensures c.Keys == a.Keys + (first + second)
    ensures forall k :: k in c && k !in a ==> c[k] == row
  {
  }

  /** The passes together insert the keys of every pass, and every new counterparty row is the default row. */
  lemma {:induction false} RecordAllInserts(accounts: map<AccountKey, AccountRow>, transactions: map<TxKey, int>,
                                            batches: seq<(string, Option<seq<ApiTx>>)>, oldAmount: int,
                                            account: Account, now: int)
    requires forall i :: 0 <= i < |batches| ==> batches[i].0 == "native" || batches[i].0 == "token"
    requires RecordAll(accounts, transactions, batches, oldAmount, account, now).Ok?
    ensures var after := RecordAll(accounts, transactions, batches, oldAmount, account, now).value;
      && after.1.Keys == transactions.Keys + RecordedTxKeys(batches, oldAmount, account)
      && after.0.Keys == accounts.Keys + RecordedAccountKeys(batches, account)
      && forall k :: k in after.0 && k !in accounts ==> after.0[k] == DefaultAccountRow(now)
  {
    if batches != [] {
      var init, last := batches[..|batches| - 1], batches[|batches| - 1];
      RecordAllInserts(accounts, transactions, init, oldAmount, account, now);
      var done := RecordAll(accounts, transactions, init, oldAmount, account, now).value;
      var after := RecordAll(accounts, transactions, batches, oldAmount, account, now).value;
      assert after == RecordHistory(done.0, done.1, last.0, last.1, oldAmount, account, now).value;
      RecordHistoryInserts(done.0, done.1, last.0, last.1, oldAmount, account, now);
      assert last == (last.0, last.1);
      InsertTwice(accounts, done.0, after.0, RecordedAccountKeys(init, account), PassAccountKeys(last, account),
                  DefaultAccountRow(now));
    }
  }

  /**
   * After a successful sync the transfer table holds the kept rows of every
   * fetched history, and the account table its counterparties, on top of
   * what was there.
   */
  lemma SyncRecordsHistory(t: Tables, account: Account, now: int,
                           nativeFromNet: Option<seq<ApiTx>>, tokenFromNet: Option<seq<ApiTx>>)
    requires SyncSpec(t, account, now, nativeFromNet, tokenFromNet).Ok?
    ensures var stored := Stored(t.accounts, KeyOf(account));
      var batches := SyncBatches(stored, account, nativeFromNet, tokenFromNet);
      var after := SyncSpec(t, account, now, nativeFromNet, tokenFromNet).value;
      && after.transactions.Keys == t.transactions.Keys + RecordedTxKeys(batches, OldAmount(stored), account)
      && after.accounts.Keys == t.accounts.Keys + {KeyOf(account)} + RecordedAccountKeys(batches, account)
  {
    var stored := Stored(t.accounts, KeyOf(account));
    var batches := SyncBatches(stored, account, nativeFromNet, tokenFromNet);
    var accounts := UpsertAccount(t.accounts, account, now);
    SyncSpecSteps(t, account, now, nativeFromNet, tokenFromNet);
    RecordAllInserts(accounts, t.transactions, batches, OldAmount(stored), account, now);
    assert accounts.Keys == t.accounts.Keys + {KeyOf(account)};
  }
}
