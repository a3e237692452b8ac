/**
 * The cross-chain probe: an address typed by the user is looked up on Tron
 * first and, failing that, on Ethereum and on BNB Smart Chain. A reader
 * exception (no key pool, the fetch giving up, a malformed reply) is not
 * caught here and ends the probe.
 */
module NetAccounts {
  import opened Wrappers
  import opened Strings
  import opened Json
  import opened Addressbook
  import opened AccountReaders

  /** `api_keys.get(chain)`: the configured key pool of a chain, if any. */
  function PoolOf(apiKeys: map<ChainType, seq<string>>, chain: ChainType): (r: Option<seq<string>>)
    ensures r.Some? <==> chain in apiKeys
    ensures r.Some? ==> r.value == apiKeys[chain]
  {
    if chain in apiKeys then Some(apiKeys[chain]) else None
  }

  /** The reply of a Tron reader built for `address` with key `apiKey`. */
  function TronReaderBalance(address: string, apiKey: string, fetch: Fetch, userAgent: string): Result<Option<AccountBalance>, Fault>
  {
    TronBalanceReply(fetch, Request(TronApiUrl + address, map[], TronHeaders(apiKey, userAgent)), address, TronUsdtContract)
  }

  /** `get_tron_account_from_net` once the reader has drawn `apiKey`. */
  function TronAccountFromNet(address: string, apiKey: string, fetch: Fetch, userAgent: string): (r: Result<Option<Account>, Fault>)
    ensures var reply := TronReaderBalance(address, apiKey, fetch, userAgent);
      && (r.Err? <==> reply.Err?)
      && (r.Err? ==> r.error == reply.error)
      && (r.Ok? ==> (r.value.Some? <==> reply.value.Some?))
      && (r.Ok? && r.value.Some? ==>
            r.value.value == Account(address, TRC20, reply.value.value.nativeBalance, reply.value.value.tokenBalance))
  {
    var balance :- TronReaderBalance(address, apiKey, fetch, userAgent);
    if balance.None? then Ok(None)
    else Ok(Some(Account(address, TRC20, balance.value.nativeBalance, balance.value.tokenBalance)))
  }

  /** The API of an EVM chain: Etherscan for ERC20, BscScan for BEP20. */
  function EvmApiUrl(chain: ChainType): string
  {
    if chain == BEP20 then BscscanApiUrl else EtherscanApiUrl
  }

  function EvmUsdtContract(chain: ChainType): string
  {
    if chain == BEP20 then BscscanUsdtContract else EtherscanUsdtContract
  }

  /** The reply of an EVM reader for `chain` built for `address` with key `apiKey`. */
  function EvmReaderBalance(chain: ChainType, address: string, apiKey: string, fetch: Fetch, userAgent: string): Result<Option<AccountBalance>, Fault>
  {
    var url, headers := EvmApiUrl(chain), EvmHeaders(userAgent);
    EvmAccountData(address, fetch,
      Request(url, NativeBalanceQuery(address, apiKey), headers),
      Request(url, TokenBalanceQuery(EvmUsdtContract(chain), address, apiKey), headers))
  }

  /** `get_erc20_account_from_net` and `get_bep20_account_from_net` once the reader has drawn `apiKey`. */
  function EvmAccountFromNet(chain: ChainType, address: string, apiKey: string, fetch: Fetch, userAgent: string): (r: Result<Option<Account>, Fault>)
    requires chain != TRC20
    ensures var reply := EvmReaderBalance(chain, address, apiKey, fetch, userAgent);
      && (r.Err? <==> reply.Err?)
      && (r.Err? ==> r.error == reply.error)
      && (r.Ok? ==> (r.value.Some? <==> reply.value.Some?))
      && (r.Ok? && r.value.Some? ==>
            r.value.value == Account(Lower(address), chain, reply.value.value.nativeBalance, reply.value.value.tokenBalance))
  {
    var balance :- EvmReaderBalance(chain, address, apiKey, fetch, userAgent);
    if balance.None? then Ok(None)
    else Ok(Some(Account(Lower(address), chain, balance.value.nativeBalance, balance.value.tokenBalance)))
  }

  /** A lookup that found an account found it under `address` with type `chain`. */
  predicate FoundAs(o: Result<Option<Account>, Fault>, address: string, chain: ChainType)
  {
    o.Ok? && o.value.Some? ==> o.value.value.address == address && o.value.value.accountType == chain
  }

  /**
   * What a Tron lookup may give: `random.choice` raises on a missing or empty
   * pool; otherwise the reader draws some key of the pool.
   */
  ghost predicate TronOutcome(address: string, pool: Option<seq<string>>, fetch: Fetch, userAgent: string,
                              o: Result<Option<Account>, Fault>)
  {
    if pool.None? || pool.value == [] then o == Err(NoApiKey)
    else exists k :: k in pool.value && o == TronAccountFromNet(address, k, fetch, userAgent)
  }

  ghost predicate EvmOutcome(chain: ChainType, address: string, pool: Option<seq<string>>, fetch: Fetch, userAgent: string,
                             o: Result<Option<Account>, Fault>)
    requires chain != TRC20
  {
    if pool.None? || pool.value == [] then o == Err(NoApiKey)
    else exists k :: k in pool.value && o == EvmAccountFromNet(chain, address, k, fetch, userAgent)
  }

  /** `get_tron_account_from_net`: builds a Tron reader and asks it for the balances. */
  method GetTronAccountFromNet(address: string, pool: Option<seq<string>>, fetch: Fetch, userAgent: string)
    returns (r: Result<Option<Account>, Fault>)
    ensures TronOutcome(address, pool, fetch, userAgent, r)
    ensures FoundAs(r, address, TRC20)
  {
    if pool.None? || |pool.value| == 0 {
      return Err(NoApiKey);
    }
    var tron := new TronAccountReader(address, pool.value, TronApiUrl, TronUsdtContract, userAgent);
    var balance := tron.GetAccountData(fetch);
    if balance.Err? {
      r := Err(balance.error);
    } else if balance.value.None? {
      r := Ok(None);
    } else {
      r := Ok(Some(Account(address, TRC20, balance.value.value.nativeBalance, balance.value.value.tokenBalance)));
    }
    assert r == TronAccountFromNet(address, tron.apiKey, fetch, userAgent);
  }

  /** `get_erc20_account_from_net` (`chain == ERC20`) and `get_bep20_account_from_net` (`chain == BEP20`). */
  method GetEvmAccountFromNet(chain: ChainType, address: string, pool: Option<seq<string>>, fetch: Fetch, userAgent: string)
    returns (r: Result<Option<Account>, Fault>)
    requires chain != TRC20
    ensures EvmOutcome(chain, address, pool, fetch, userAgent, r)
    ensures FoundAs(r, Lower(address), chain)
  {
    if pool.None? || |pool.value| == 0 {
      return Err(NoApiKey);
    }
    var reader := new EthereumAccountReader(address, pool.value, EvmApiUrl(chain), EvmUsdtContract(chain), userAgent);
    var balance := reader.GetAccountData(fetch);
    if balance.Err? {
      r := Err(balance.error);
    } else if balance.value.None? {
      r := Ok(None);
    } else {
      r := Ok(Some(Account(Lower(address), chain, balance.value.value.nativeBalance, balance.value.value.tokenBalance)));
    }
    assert r == EvmAccountFromNet(chain, address, reader.apiKey, fetch, userAgent);
  }

  /**
   * How `ensure_account_at_net` combines the three lookups: the first
   * exception ends the probe; a Tron account is the whole answer; otherwise
   * the ERC20 and then the BEP20 account, each when found; no account is `None`.
   */
  function Probe(tron: Result<Option<Account>, Fault>, erc: Result<Option<Account>, Fault>,
                 bep: Result<Option<Account>, Fault>): (r: Result<Option<seq<Account>>, Fault>)
    ensures r.Ok? && r.value.Some? ==> r.value.value != []
    ensures tron.Err? ==> r == Err(tron.error)
    ensures tron.Ok? && tron.value.Some? ==> r == Ok(Some([tron.value.value]))
    ensures tron == Ok(None) && erc.Err? ==> r == Err(erc.error)
    ensures tron == Ok(None) && erc.Ok? && bep.Err? ==> r == Err(bep.error)
    ensures tron == Ok(None) && erc.Ok? && bep.Ok? ==>
      var found := (if erc.value.Some? then [erc.value.value] else []) + (if bep.value.Some? then [bep.value.value] else []);
      r == if found == [] then Ok(None) else Ok(Some(found))
  {
    var t :- tron;
    if t.Some? then Ok(Some([t.value]))
    else
      var e :- erc;
      var b :- bep;
      var found := (if e.Some? then [e.value] else []) + (if b.Some? then [b.value] else []);
      if |found| > 0 then Ok(Some(found)) else Ok(None)
  }

  /** What `ensure_account_at_net` may return: the combination of some possible outcome of each lookup. */
  ghost predicate ProbeOutcome(address: string, apiKeys: map<ChainType, seq<string>>, fetch: Fetch, userAgent: string,
                               r: Result<Option<seq<Account>>, Fault>)
  {
    exists tron, erc, bep ::
      && TronOutcome(address, PoolOf(apiKeys, TRC20), fetch, userAgent, tron)
      && EvmOutcome(ERC20, address, PoolOf(apiKeys, ERC20), fetch, userAgent, erc)
      && EvmOutcome(BEP20, address, PoolOf(apiKeys, BEP20), fetch, userAgent, bep)
      && r == Probe(tron, erc, bep)
  }

  /** Some outcome an EVM lookup could have had, standing for a lookup the probe never reaches. */
  lemma SomeEvmOutcome(chain: ChainType, address: string, pool: Option<seq<string>>, fetch: Fetch, userAgent: string)
    returns (o: Result<Option<Account>, Fault>)
    requires chain != TRC20
    ensures EvmOutcome(chain, address, pool, fetch, userAgent, o)
  {
    if pool.None? || pool.value == [] {
      o := Err(NoApiKey);
    } else {
      o := EvmAccountFromNet(chain, address, pool.value[0], fetch, userAgent);
      assert pool.value[0] in pool.value;
    }
  }

  lemma ProbeWitness(address: string, apiKeys: map<ChainType, seq<string>>, fetch: Fetch, userAgent: string,
                     tron: Result<Option<Account>, Fault>, erc: Result<Option<Account>, Fault>,
                     bep: Result<Option<Account>, Fault>)
    requires TronOutcome(address, PoolOf(apiKeys, TRC20), fetch, userAgent, tron)
    requires EvmOutcome(ERC20, address, PoolOf(apiKeys, ERC20), fetch, userAgent, erc)
    requires EvmOutcome(BEP20, address, PoolOf(apiKeys, BEP20), fetch, userAgent, bep)
    ensures ProbeOutcome(address, apiKeys, fetch, userAgent, Probe(tron, erc, bep))
  {
  }

  /** `ensure_account_at_net(http_session, address, api_keys)`. */
  method EnsureAccountAtNet(address: string, apiKeys: map<ChainType, seq<string>>, fetch: Fetch, userAgent: string)
    returns (r: Result<Option<seq<Account>>, Fault>)
    ensures ProbeOutcome(address, apiKeys, fetch, userAgent, r)
  {
    var accounts: seq<Account> := [];
    var ercPool, bepPool := PoolOf(apiKeys, ERC20), PoolOf(apiKeys, BEP20);

    var tron := GetTronAccountFromNet(address, PoolOf(apiKeys, TRC20), fetch, userAgent);
    if tron.Err? || tron.value.Some? {
      if tron.Err? {
        r := Err(tron.error);
      } else {
        var a := tron.value.value;
        accounts := accounts + [Account(address, TRC20, a.nativeBalance, a.tokenBalance)];
        assert accounts == [a];
        r := Ok(Some(accounts));
      }
      ghost var erc := SomeEvmOutcome(ERC20, address, ercPool, fetch, userAgent);
      ghost var bep := SomeEvmOutcome(BEP20, address, bepPool, fetch, userAgent);
      ProbeWitness(address, apiKeys, fetch, userAgent, tron, erc, bep);
      return;
    }

    ghost var erc, bep;
    r, erc, bep := ProbeEvm(address, ercPool, bepPool, fetch, userAgent);
    assert tron == Ok(None);
    ProbeWitness(address, apiKeys, fetch, userAgent, tron, erc, bep);
  }

  /** The ERC20 and then the BEP20 lookup of `ensure_account_at_net`, once Tron found nothing. */
  method ProbeEvm(address: string, ercPool: Option<seq<string>>, bepPool: Option<seq<string>>, fetch: Fetch, userAgent: string)
    returns (r: Result<Option<seq<Account>>, Fault>, ghost erc: Result<Option<Account>, Fault>, ghost bep: Result<Option<Account>, Fault>)
    ensures EvmOutcome(ERC20, address, ercPool, fetch, userAgent, erc)
    ensures EvmOutcome(BEP20, address, bepPool, fetch, userAgent, bep)
    ensures r == Probe(Ok(None), erc, bep)
  {
    var accounts: seq<Account> := [];
    var ercResult := GetEvmAccountFromNet(ERC20, address, ercPool, fetch, userAgent);
    erc := ercResult;
    if ercResult.Err? {
      r := Err(ercResult.error);
      bep := SomeEvmOutcome(BEP20, address, bepPool, fetch, userAgent);
      return;
    }
    if ercResult.value.Some? {
      var a := ercResult.value.value;
      accounts := accounts + [Account(Lower(address), ERC20, a.nativeBalance, a.tokenBalance)];
      assert accounts == [a];
    }
    assert accounts == if ercResult.value.Some? then [ercResult.value.value] else [];

    var bepResult := GetEvmAccountFromNet(BEP20, address, bepPool, fetch, userAgent);
    bep := bepResult;
    if bepResult.Err? {
      r := Err(bepResult.error);
    } else {
      if bepResult.value.Some? {
        var a := bepResult.value.value;
        accounts := accounts + [Account(Lower(address), BEP20, a.nativeBalance, a.tokenBalance)];
        assert Account(Lower(address), BEP20, a.nativeBalance, a.tokenBalance) == a;
      }
      assert accounts == (if ercResult.value.Some? then [ercResult.value.value] else [])
                       + (if bepResult.value.Some? then [bepResult.value.value] else []);
      r := if |accounts| > 0 then Ok(Some(accounts)) else Ok(None);
    }
  }

  /** A Tron account found ends the probe whatever the EVM readers would have said. */
  lemma TronShortCircuit(a: Account, erc1: Result<Option<Account>, Fault>, bep1: Result<Option<Account>, Fault>,
                         erc2: Result<Option<Account>, Fault>, bep2: Result<Option<Account>, Fault>)
    ensures Probe(Ok(Some(a)), erc1, bep1) == Probe(Ok(Some(a)), erc2, bep2) == Ok(Some([a]))
  {
  }

  /** Every Tron lookup reports the address verbatim, every EVM lookup the lower-cased one. */
  lemma OutcomesFoundAs(address: string, apiKeys: map<ChainType, seq<string>>, fetch: Fetch, userAgent: string,
                        tron: Result<Option<Account>, Fault>, erc: Result<Option<Account>, Fault>,
                        bep: Result<Option<Account>, Fault>)
    requires TronOutcome(address, PoolOf(apiKeys, TRC20), fetch, userAgent, tron)
    requires EvmOutcome(ERC20, address, PoolOf(apiKeys, ERC20), fetch, userAgent, erc)
    requires EvmOutcome(BEP20, address, PoolOf(apiKeys, BEP20), fetch, userAgent, bep)
    ensures FoundAs(tron, address, TRC20)
    ensures FoundAs(erc, Lower(address), ERC20) && FoundAs(bep, Lower(address), BEP20)
  {
    if tron.Ok? && tron.value.Some? {
      var k :| k in PoolOf(apiKeys, TRC20).value && tron == TronAccountFromNet(address, k, fetch, userAgent);
    }
    if erc.Ok? && erc.value.Some? {
      var k :| k in PoolOf(apiKeys, ERC20).value && erc == EvmAccountFromNet(ERC20, address, k, fetch, userAgent);
    }
    if bep.Ok? && bep.value.Some? {
      var k :| k in PoolOf(apiKeys, BEP20).value && bep == EvmAccountFromNet(BEP20, address, k, fetch, userAgent);
    }
  }

  /**
   * The accounts a successful probe returns: one verbatim TRC20 account, or
   * one or two accounts under the lower-cased address, ERC20 before BEP20,
   * never a mix and never two of one type.
   */
  lemma ProbeShape(address: string, tron: Result<Option<Account>, Fault>, erc: Result<Option<Account>, Fault>,
                   bep: Result<Option<Account>, Fault>)
    requires FoundAs(tron, address, TRC20)
    requires FoundAs(erc, Lower(address), ERC20) && FoundAs(bep, Lower(address), BEP20)
    requires Probe(tron, erc, bep).Ok? && Probe(tron, erc, bep).value.Some?
    ensures var accounts := Probe(tron, erc, bep).value.value;
      || (|accounts| == 1 && accounts[0].address == address && accounts[0].accountType == TRC20)
      || (&& 1 <= |accounts| <= 2
          && (forall i :: 0 <= i < |accounts| ==> accounts[i].address == Lower(address) && accounts[i].accountType != TRC20)
          && (|accounts| == 2 ==> accounts[0].accountType == ERC20 && accounts[1].accountType == BEP20))
  {
  }

  /** The probe never reports an empty list: no account found is `None`. */
  lemma NothingFoundIsNone(tron: Result<Option<Account>, Fault>, erc: Result<Option<Account>, Fault>,
                           bep: Result<Option<Account>, Fault>)
    requires tron == Ok(None) && erc == Ok(None) && bep == Ok(None)
    ensures Probe(tron, erc, bep) == Ok(None)
  {
  }
}
