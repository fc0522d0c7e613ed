/**
 * The endpoint methods of `AsyncClient`. Each one builds one query record
 * from its arguments, sometimes after pre-processing them (joining a list,
 * formatting a number as a hex tag), and returns `get(module, action, record)`.
 * The methods are grouped as the source groups them, one `impl` block per
 * API section. Each call is a constructor named after the method, carrying
 * its arguments in the method's order, and each section's dispatch function
 * gives what the method hands to `get`.
 */
module Endpoints {
  import opened Values
  import opened Records
  import opened Client
  import AddressList
  import HexFormat

  /** What an endpoint method hands to get. */
  datatype Call = Call(moduleName: string, action: string, params: Params)

  /** The API modules the endpoints address. */
  const ApiModules: set<string> :=
    {"account", "contract", "transaction", "block", "logs", "proxy", "tokens", "gastracker", "stats"}

  /** The comma join the multi-address methods apply to their list. */
  function Join(parts: seq<string>): string
  {
    AddressList.Join(parts, ",")
  }

  /** The hex tag the proxy and gas-tracker methods make of a number. */
  function Tag(n: i64): string
  {
    HexFormat.HexTag(n)
  }

  // ----- Accounts API --------------------------------------------------------

  /** The endpoint methods of the Accounts API. */
  datatype AccountsEndpoint =
    | GetBalance(address: string)
    | GetBalanceMulti(addresses: seq<string>)
    | GetTxList(address: string, startBlock: i64, endBlock: i64, page: i64, offset: i64, sort: string)
    | GetTxListInternal(address: string, startBlock: i64, endBlock: i64, page: i64, offset: i64, sort: string)
    | GetTxListInternalByHash(txHash: string)
    | GetTxListInternalByBlockrange(startBlock: i64, endBlock: i64, page: i64, offset: i64, sort: string)
    | GetErc20TransferEvents(address: string, contractAddress: string, startBlock: i64, endBlock: i64,
                             page: i64, offset: i64, sort: string)
    | GetErc721TransferEvents(address: string, contractAddress: string, startBlock: i64, endBlock: i64,
                              page: i64, offset: i64, sort: string)
    | GetErc1155TransferEvents(address: string, contractAddress: string, startBlock: i64, endBlock: i64,
                               page: i64, offset: i64, sort: string)
    | GetMinedBlocks(address: string, blocktype: string, page: i64, offset: i64, sort: string)
    | GetTxListBeaconWithdrawal(address: string, contractAddress: string, startBlock: i64, endBlock: i64,
                                page: i64, offset: i64, sort: string)
    | GetBalanceHistory(address: string, blockno: i64)

  /** The module, action and record each method of the Accounts API hands to get. */
  function DispatchAccounts(e: AccountsEndpoint): (call: Call)
    ensures call.moduleName == "account"
  {
    match e
    case GetBalance(a) => Call("account", "balance", AddressTagQuery(a, "latest"))
    case GetBalanceMulti(addrs) => Call("account", "balancemulti", AddressTagQuery(Join(addrs), "latest"))
    case GetTxList(a, sb, eb, pg, off, so) => Call("account", "txlist", TxListPaginatedQuery(a, sb, eb, pg, off, so))
    case GetTxListInternal(a, sb, eb, pg, off, so) =>
      Call("account", "txlistinternal", TxListPaginatedQuery(a, sb, eb, pg, off, so))
    case GetTxListInternalByHash(h) => Call("account", "txlistinternal", TxHashQuery(h))
    case GetTxListInternalByBlockrange(sb, eb, pg, off, so) =>
      Call("account", "txlistinternal", BlockRangePaginatedQuery(sb, eb, pg, off, so))
    case GetErc20TransferEvents(a, c, sb, eb, pg, off, so) =>
      Call("account", "tokentx", TokenEventsPaginatedQuery(address := a, contractaddress := c, startblock := sb,
                                                           endblock := eb, page := pg, offset := off, sort := so))
    case GetErc721TransferEvents(a, c, sb, eb, pg, off, so) =>
      Call("account", "tokennfttx", TokenEventsPaginatedQuery(address := a, contractaddress := c, startblock := sb,
                                                              endblock := eb, page := pg, offset := off, sort := so))
    case GetErc1155TransferEvents(a, c, sb, eb, pg, off, so) =>
      Call("account", "tokennfttx", TokenEventsPaginatedQuery(address := a, contractaddress := c, startblock := sb,
                                                              endblock := eb, page := pg, offset := off, sort := so))
    case GetMinedBlocks(a, bt, pg, off, so) =>
      Call("account", "getminedblocks", AddressBlocktypePaginatedQuery(a, bt, pg, off, so))
    case GetTxListBeaconWithdrawal(a, c, sb, eb, pg, off, so) =>
      Call("account", "txlistbeacon",
           ContractByAddressBlockRangePaginatedQuery(address := a, contractaddress := c, page := pg, offset := off,
                                                     startblock := sb, endblock := eb, sort := so))
    case GetBalanceHistory(a, bn) => Call("account", "balancehistory", AddressBlockNumberQuery(a, bn))
  }

  // ----- Contract API --------------------------------------------------------

  /** The endpoint methods of the Contract API. */
  datatype ContractsEndpoint =
    | ContractAbi(address: string)
    | ContractSourceCode(address: string)
    | ContractCreation(contractAddresses: seq<string>)

  /** The module, action and record each method of the Contract API hands to get. */
  function DispatchContracts(e: ContractsEndpoint): (call: Call)
    ensures call.moduleName == "contract"
  {
    match e
    case ContractAbi(a) => Call("contract", "getabi", AddressQuery(a))
    case ContractSourceCode(a) => Call("contract", "getsourcecode", AddressQuery(a))
    case ContractCreation(cs) => Call("contract", "getsourcecode", ContractAddressesQuery(Join(cs)))
  }

  // ----- Transaction API -----------------------------------------------------

  /** The endpoint methods of the Transaction API. */
  datatype TransactionsEndpoint =
    | TransactionStatus(txHash: string)
    | TransactionReceiptStatus(txHash: string)

  /** The module, action and record each method of the Transaction API hands to get. */
  function DispatchTransactions(e: TransactionsEndpoint): (call: Call)
    ensures call.moduleName == "transaction"
  {
    match e
    case TransactionStatus(h) => Call("transaction", "getstatus", TxHashQuery(h))
    case TransactionReceiptStatus(h) => Call("transaction", "gettxreceiptstatus", TxHashQuery(h))
  }

  // ----- Block API -----------------------------------------------------------

  /** The endpoint methods of the Block API. */
  datatype BlocksEndpoint =
    | BlockReward(blockno: i64)
    | BlockCountdown(blockno: i64)
    | BlockNumberByTimestamp(timestamp: i64, closest: string)
    | DailyAverageBlocksize(startDate: string, endDate: string, sort: string)
    | DailyBlockCount(startDate: string, endDate: string, sort: string)
    | DailyBlockRewards(startDate: string, endDate: string, sort: string)
    | DailyBlockTime(startDate: string, endDate: string, sort: string)
    | DailyUncleBlockCount(startDate: string, endDate: string, sort: string)

  /** The module, action and record each method of the Block API hands to get. */
  function DispatchBlocks(e: BlocksEndpoint): (call: Call)
    ensures call.moduleName == "block"
  {
    match e
    case BlockReward(bn) => Call("block", "getblockreward", BlockNumberQuery(bn))
    case BlockCountdown(bn) => Call("block", "getblockcountdown", BlockNumberQuery(bn))
    case BlockNumberByTimestamp(ts, cl) => Call("block", "getblocknobytime", BlockTimestampQuery(ts, cl))
    case DailyAverageBlocksize(sd, ed, so) => Call("block", "getdailyavgblocksize", DateRangeQuery(sd, ed, so))
    case DailyBlockCount(sd, ed, so) => Call("block", "getdailyblockcount", DateRangeQuery(sd, ed, so))
    case DailyBlockRewards(sd, ed, so) => Call("block", "getdailyblockrewards", DateRangeQuery(sd, ed, so))
    case DailyBlockTime(sd, ed, so) => Call("block", "getdailyblocktime", DateRangeQuery(sd, ed, so))
    case DailyUncleBlockCount(sd, ed, so) => Call("block", "getdailyuncleblockcount", DateRangeQuery(sd, ed, so))
  }

  // ----- Logs API ------------------------------------------------------------

  /** The endpoint methods of the Logs API. */
  datatype LogsEndpoint = LogsByAddress(address: string, fromBlock: i64, toBlock: i64, page: i64, offset: i64)

  /** The module, action and record each method of the Logs API hands to get. */
  function DispatchLogs(e: LogsEndpoint): (call: Call)
    ensures call.moduleName == "logs"
  {
    match e
    case LogsByAddress(a, fb, tb, pg, off) => Call("logs", "getLogs", EventLogAddressPaginatedQuery(a, fb, tb, pg, off))
  }

  // ----- Geth/Parity proxy API -----------------------------------------------

  /** The endpoint methods of the Geth/Parity proxy API. */
  datatype ProxyEndpoint =
    | EthGetBlockNumber
    | EthGetBlockByNumber(blockno: i64, showFullTx: bool)
    | EthGetUncleByBlockNumberAndIndex(blockno: i64, index: i64)
    | EthGetTransactionByHash(txHash: string)
    | EthGetTransactionByBlockNumberAndIndex(blockno: i64, index: i64)
    | EthGetTransactionCount(address: string, tag: string)
    | EthSendRawTransaction(hex: string)
    | EthGetTransactionReceipt(txHash: string)
    | EthCall(to: string, data: string, tag: string)
    | EthGetCode(address: string, tag: string)
    | EthGetStorageAt(address: string, position: string, tag: string)
    | EthGasPrice
    | EthEstimateGas(to: string, data: string, value: i64, gas: i64, gasPrice: i64)

  /** The module, action and record each method of the proxy API hands to get. */
  function DispatchProxy(e: ProxyEndpoint): (call: Call)
    ensures call.moduleName == "proxy"
  {
    match e
    case EthGetBlockNumber => Call("proxy", "eth_blockNumber", NoParams)
    case EthGetBlockByNumber(bn, full) => Call("proxy", "eth_getBlockByNumber", BlockNumberBoolQuery(Tag(bn), full))
    case EthGetUncleByBlockNumberAndIndex(bn, ix) =>
      Call("proxy", "eth_getUncleByBlockNumberAndIndex", BlockNumberIndexQuery(Tag(bn), Tag(ix)))
    case EthGetTransactionByHash(h) => Call("proxy", "eth_getTransactionByHash", TxHashQuery(h))
    case EthGetTransactionByBlockNumberAndIndex(bn, ix) =>
      Call("proxy", "eth_getTransactionByBlockNumberAndIndex", BlockNumberIndexQuery(Tag(bn), Tag(ix)))
    case EthGetTransactionCount(a, t) => Call("proxy", "eth_getTransactionCount", AddressTagQuery(a, t))
    case EthSendRawTransaction(h) => Call("proxy", "eth_sendRawTransaction", RawTxQuery(h))
    case EthGetTransactionReceipt(h) => Call("proxy", "eth_getTransactionReceipt", TxHashQuery(h))
    case EthCall(to, d, t) => Call("proxy", "eth_call", CallQuery(to, d, t))
    case EthGetCode(a, t) => Call("proxy", "eth_getCode", AddressTagQuery(a, t))
    case EthGetStorageAt(a, pos, t) => Call("proxy", "eth_getStorageAt", StoragePositionQuery(a, pos, t))
    case EthGasPrice => Call("proxy", "eth_gasPrice", NoParams)
    case EthEstimateGas(to, d, v, g, gp) =>
      Call("proxy", "eth_estimateGas",
           EstimateGasQuery(to := to, data := d, value := Tag(v), gas := Tag(g), gasPrice := Tag(gp)))
  }

  // ----- Tokens API ----------------------------------------------------------

  /** The endpoint methods of the Tokens API. */
  datatype TokensEndpoint =
    | TokenTotalSupply(contractAddress: string)
    | TokenBalance(contractAddress: string, address: string, tag: string)
    | TokenSupplyHistory(contractAddress: string, blockno: i64, offset: i64, page: i64, sort: string)
    | TokenBalanceHistory(contractAddress: string, address: string, blockno: i64, offset: i64, page: i64,
                          sort: string)
    | TokenHolderList(contractAddress: string, page: i64, offset: i64, sort: string)
    | TokenInfo(contractAddress: string)
    | Erc20TokenBalance(address: string, page: i64, offset: i64)
    | Erc721TokenInventory(address: string, page: i64, offset: i64)
    | Erc721TokenInventoryByContract(contractAddress: string, address: string, page: i64, offset: i64)

  /** The module, action and record each method of the Tokens API hands to get. */
  function DispatchTokens(e: TokensEndpoint): (call: Call)
    ensures call.moduleName == "tokens"
  {
    match e
    case TokenTotalSupply(c) => Call("tokens", "tokenSupply", ContractAddressQuery(c))
    case TokenBalance(c, a, _) =>
      Call("tokens", "tokenBalance", ContractByAddressQuery(contractaddress := c, address := a))
    case TokenSupplyHistory(c, bn, _, _, _) =>
      Call("tokens", "tokenSupplyHistory", ContractByBlockNumberQuery(contractaddress := c, blockno := bn))
    case TokenBalanceHistory(c, a, bn, _, _, _) =>
      Call("tokens", "tokenBalanceHistory",
           ContractByAddressBlockNumberQuery(contractaddress := c, address := a, blockno := bn))
    case TokenHolderList(c, pg, off, _) =>
      Call("tokens", "tokennholderlist", ContractAddressPaginatedQuery(contractaddress := c, page := pg, offset := off))
    case TokenInfo(c) => Call("tokens", "tokenInfo", ContractAddressQuery(c))
    case Erc20TokenBalance(a, pg, off) => Call("tokens", "tokenBalance", AddressPaginatedQuery(a, pg, off))
    case Erc721TokenInventory(a, pg, off) => Call("tokens", "tokennfttx", AddressPaginatedQuery(a, pg, off))
    case Erc721TokenInventoryByContract(c, a, pg, off) =>
      Call("tokens", "tokennfttx",
           ContractByAddressPaginatedQuery(contractaddress := c, address := a, page := pg, offset := off))
  }

  // ----- Gas Tracker API -----------------------------------------------------

  /** The endpoint methods of the Gas Tracker API. */
  datatype GasTrackerEndpoint =
    | EstimateConfirmationTime(gasPrice: i64)
    | GasOracle
    | DailyAverageGasLimit(startDate: string, endDate: string, sort: string)
    | DailyTotalGasUsed(startDate: string, endDate: string, sort: string)
    | DailyAverageGasPrice(startDate: string, endDate: string, sort: string)

  /** The module, action and record each method of the Gas Tracker API hands to get. */
  function DispatchGasTracker(e: GasTrackerEndpoint): (call: Call)
    ensures call.moduleName in {"gastracker", "stats"}
  {
    match e
    case EstimateConfirmationTime(gp) => Call("gastracker", "gasestimate", GasPriceQuery(Tag(gp)))
    case GasOracle => Call("gastracker", "gasoracle", NoParams)
    case DailyAverageGasLimit(sd, ed, so) => Call("stats", "dailyavggaslimit", DateRangeQuery(sd, ed, so))
    case DailyTotalGasUsed(sd, ed, so) => Call("stats", "dailygasused", DateRangeQuery(sd, ed, so))
    case DailyAverageGasPrice(sd, ed, so) => Call("stats", "dailyavggasprice", DateRangeQuery(sd, ed, so))
  }

  // ----- Stats API -----------------------------------------------------------

  /** The endpoint methods of the Stats API. */
  datatype StatsEndpoint =
    | TotalEthSupply
    | TotalEth2Supply
    | EthPrice
    | ChainSize(startDate: string, endDate: string, clientType: string, syncMode: string, sort: string)
    | TotalNodeCount
    | DailyTotalTransactionFee(startDate: string, endDate: string, sort: string)
    | DailyNewAddressCount(startDate: string, endDate: string, sort: string)
    | DailyNetworkUtilization(startDate: string, endDate: string, sort: string)
    | DailyAverageHashRate(startDate: string, endDate: string, sort: string)
    | DailtTransactionCount(startDate: string, endDate: string, sort: string)
    | DailyAverageDifficulty(startDate: string, endDate: string, sort: string)
    | DailyMarketCapHistory(startDate: string, endDate: string, sort: string)
    | DailyEthPriceHistory(startDate: string, endDate: string, sort: string)

  /** The module, action and record each method of the Stats API hands to get. */
  function DispatchStats(e: StatsEndpoint): (call: Call)
    ensures call.moduleName == "stats"
  {
    match e
    case TotalEthSupply => Call("stats", "ethsupply", NoParams)
    case TotalEth2Supply => Call("stats", "ethsupply2", NoParams)
    case EthPrice => Call("stats", "ethprice", NoParams)
    case ChainSize(sd, ed, ct, sm, so) => Call("stats", "chainsize", BlockchainSizeQuery(sd, ed, ct, sm, so))
    case TotalNodeCount => Call("stats", "nodecount", NoParams)
    case DailyTotalTransactionFee(sd, ed, so) => Call("stats", "dailytxnsfee", DateRangeQuery(sd, ed, so))
    case DailyNewAddressCount(sd, ed, so) => Call("stats", "newaddress", DateRangeQuery(sd, ed, so))
    case DailyNetworkUtilization(sd, ed, so) => Call("stats", "ethusd", DateRangeQuery(sd, ed, so))
    case DailyAverageHashRate(sd, ed, so) => Call("stats", "dailyhashrate", DateRangeQuery(sd, ed, so))
    case DailtTransactionCount(sd, ed, so) => Call("stats", "dailytxns", DateRangeQuery(sd, ed, so))
    case DailyAverageDifficulty(sd, ed, so) => Call("stats", "dailyavgdifficulty", DateRangeQuery(sd, ed, so))
    case DailyMarketCapHistory(sd, ed, so) => Call("stats", "ethdailymarketcap", DateRangeQuery(sd, ed, so))
    case DailyEthPriceHistory(sd, ed, so) => Call("stats", "ethdailyprice", DateRangeQuery(sd, ed, so))
  }

  // ----- All endpoints -------------------------------------------------------

  /** A call of any endpoint method, by section. */
  datatype Endpoint =
    | Accounts(accounts: AccountsEndpoint)
    | Contracts(contracts: ContractsEndpoint)
    | Transactions(transactions: TransactionsEndpoint)
    | Blocks(blocks: BlocksEndpoint)
    | Logs(logs: LogsEndpoint)
    | Proxy(proxy: ProxyEndpoint)
    | Tokens(tokens: TokensEndpoint)
    | GasTracker(gasTracker: GasTrackerEndpoint)
    | Stats(stats: StatsEndpoint)

  /** The module, action and record each endpoint method passes to get. */
  function Dispatch(e: Endpoint): (call: Call)
    ensures call.moduleName in ApiModules
  {
    match e
    case Accounts(a) => DispatchAccounts(a)
    case Contracts(c) => DispatchContracts(c)
    case Transactions(t) => DispatchTransactions(t)
    case Blocks(b) => DispatchBlocks(b)
    case Logs(l) => DispatchLogs(l)
    case Proxy(p) => DispatchProxy(p)
    case Tokens(t) => DispatchTokens(t)
    case GasTracker(g) => DispatchGasTracker(g)
    case Stats(s) => DispatchStats(s)
  }

  /** The query an endpoint call sends. */
  function EndpointQuery(c: AsyncClient, e: Endpoint): seq<Pair>
  {
    RequestQuery(c, Dispatch(e).moduleName, Dispatch(e).action, Dispatch(e).params)
  }

  // ----- Endpoints without parameters ----------------------------------------

  /** The methods that take no argument besides the client. */
  predicate TakesNoArguments(e: Endpoint)
  {
    e == Proxy(EthGetBlockNumber) || e == Proxy(EthGasPrice) || e == GasTracker(GasOracle)
    || e == Stats(TotalEthSupply) || e == Stats(TotalEth2Supply) || e == Stats(EthPrice) || e == Stats(TotalNodeCount)
  }

  /** Exactly the methods without arguments pass the unit record. */
  lemma UnitRecordIffNoArguments(e: Endpoint)
    ensures Dispatch(e).params == NoParams <==> TakesNoArguments(e)
  {
  }

  /** eth_blockNumber sends the three base pairs and nothing else. */
  lemma BlockNumberSendsOnlyBase(c: AsyncClient)
    ensures EndpointQuery(c, Proxy(EthGetBlockNumber))
         == [("module", S("proxy")), ("action", S("eth_blockNumber")), ("apikey", S(c.apiKey))]
  {
    UnitAddsNothing(c, "proxy", "eth_blockNumber");
  }

  // ----- Joined address lists ------------------------------------------------

  /** The server can split the balancemulti address field back into the n >= 1 comma-free addresses. */
  lemma BalanceMultiAddressesRecoverable(c: AsyncClient, addresses: seq<string>)
    requires |addresses| >= 1 && AddressList.NoComma(addresses)
    ensures exists field :: Lookup(EndpointQuery(c, Accounts(GetBalanceMulti(addresses))), "address") == Some(S(field))
                            && AddressList.Split(field, ',') == addresses
  {
    var call := DispatchAccounts(GetBalanceMulti(addresses));
    QueryComposition(c, call.moduleName, call.action, call.params);
    assert FieldNames(call.params)[0] == "address";
    AddressList.SplitJoin(addresses);
  }

  /** balance and balancemulti always ask for the "latest" block, which the caller cannot choose. */
  lemma BalanceTagLatest(e: AccountsEndpoint)
    requires e.GetBalance? || e.GetBalanceMulti?
    ensures DispatchAccounts(e).params.AddressTagQuery? && DispatchAccounts(e).params.tag == "latest"
  {
  }

  /** A single address goes through balancemulti unchanged. */
  lemma BalanceMultiSingle(address: string)
    ensures DispatchAccounts(GetBalanceMulti([address])).params.address == address
  {
  }

  /** The server can split the contract_creation address field back into the n >= 1 comma-free addresses. */
  lemma ContractCreationAddressesRecoverable(c: AsyncClient, contractAddresses: seq<string>)
    requires |contractAddresses| >= 1 && AddressList.NoComma(contractAddresses)
    ensures exists field ::
              Lookup(EndpointQuery(c, Contracts(ContractCreation(contractAddresses))), "contractaddresses") == Some(S(field))
              && AddressList.Split(field, ',') == contractAddresses
  {
    var call := DispatchContracts(ContractCreation(contractAddresses));
    QueryComposition(c, call.moduleName, call.action, call.params);
    assert FieldNames(call.params)[0] == "contractaddresses";
    AddressList.SplitJoin(contractAddresses);
  }

  // ----- Hex-tagged numbers --------------------------------------------------

  /** eth_getBlockByNumber sends the block number as a tag that reads back, and the flag as given. */
  lemma BlockByNumberTag(blockno: i64, showFullTx: bool)
    requires blockno >= 0
    ensures var p := DispatchProxy(EthGetBlockByNumber(blockno, showFullTx)).params;
            p.tag[..2] == "0x" && HexFormat.ParseDigits(p.tag[2..]) == blockno as int && p.boolean == showFullTx
  {
    HexFormat.HexTagShape(blockno);
  }

  /** The uncle and the transaction lookups send block number and index as tags that read back. */
  lemma BlockIndexTagsRecoverable(e: ProxyEndpoint)
    requires e.EthGetUncleByBlockNumberAndIndex? || e.EthGetTransactionByBlockNumberAndIndex?
    requires e.blockno >= 0 && e.index >= 0
    ensures var p := DispatchProxy(e).params;
            p.tag[..2] == "0x" && HexFormat.ParseDigits(p.tag[2..]) == e.blockno as int &&
            p.index[..2] == "0x" && HexFormat.ParseDigits(p.index[2..]) == e.index as int
  {
    HexFormat.HexTagShape(e.blockno);
    HexFormat.HexTagShape(e.index);
  }

  /** eth_estimateGas sends data before to, the record's declaration order, though the method lists to first. */
  lemma EstimateGasOrder(to: string, data: string, value: i64, gas: i64, gasPrice: i64)
    ensures Records.Encode(DispatchProxy(EthEstimateGas(to, data, value, gas, gasPrice)).params)
         == [("data", S(data)), ("to", S(to)), ("value", S(Tag(value))),
             ("gas", S(Tag(gas))), ("gasPrice", S(Tag(gasPrice)))]
  {
    EstimateGasEncoding(data, to, Tag(value), Tag(gas), Tag(gasPrice));
  }

  lemma EstimateGasEncoding(data: string, to: string, value: string, gas: string, gasPrice: string)
    ensures Records.Encode(EstimateGasQuery(data, to, value, gas, gasPrice))
         == [("data", S(data)), ("to", S(to)), ("value", S(value)), ("gas", S(gas)), ("gasPrice", S(gasPrice))]
  {
  }

  /** estimate_confirmation_time sends the gas price as a tag that reads back. */
  lemma ConfirmationTimeTag(gasPrice: i64)
    requires gasPrice >= 0
    ensures var p := DispatchGasTracker(EstimateConfirmationTime(gasPrice)).params;
            p.gasprice[..2] == "0x" && HexFormat.ParseDigits(p.gasprice[2..]) == gasPrice as int
  {
    HexFormat.HexTagShape(gasPrice);
  }

  // ----- Records built in another order than they serialize ------------------

  /** The three transfer-event methods give startblock before page; the record still encodes page first. */
  lemma TransferEventsOrder(e: AccountsEndpoint)
    requires e.GetErc20TransferEvents? || e.GetErc721TransferEvents? || e.GetErc1155TransferEvents?
    ensures Records.Encode(DispatchAccounts(e).params)
         == [("address", S(e.address)), ("contractaddress", S(e.contractAddress)), ("page", I(e.page)),
             ("offset", I(e.offset)), ("startblock", I(e.startBlock)), ("endblock", I(e.endBlock)),
             ("sort", S(e.sort))]
  {
  }

  /** The erc721 and erc1155 transfer-event methods send the same call for the same arguments. */
  lemma NftTransferEventsSameCall(address: string, contractAddress: string, startBlock: i64, endBlock: i64,
                                  page: i64, offset: i64, sort: string)
    ensures DispatchAccounts(GetErc721TransferEvents(address, contractAddress, startBlock, endBlock, page, offset, sort))
         == DispatchAccounts(GetErc1155TransferEvents(address, contractAddress, startBlock, endBlock, page, offset, sort))
  {
  }

  /** erc721_token_inventory_by_contract gives contractaddress first; address still encodes first. */
  lemma InventoryByContractOrder(contractAddress: string, address: string, page: i64, offset: i64)
    ensures Records.Encode(DispatchTokens(Erc721TokenInventoryByContract(contractAddress, address, page, offset)).params)
         == [("address", S(address)), ("contractaddress", S(contractAddress)), ("page", I(page)), ("offset", I(offset))]
  {
  }

  // ----- Arguments accepted and not sent -------------------------------------

  /** token_balance sends the same call whatever tag it is given, address first. */
  lemma TokenBalanceIgnoresTag(contractAddress: string, address: string, tag1: string, tag2: string)
    ensures DispatchTokens(TokenBalance(contractAddress, address, tag1))
         == DispatchTokens(TokenBalance(contractAddress, address, tag2))
    ensures Records.Encode(DispatchTokens(TokenBalance(contractAddress, address, tag1)).params)
         == [("address", S(address)), ("contractaddress", S(contractAddress))]
  {
  }

  /** token_supply_history sends the same call whatever offset, page and sort it is given. */
  lemma TokenSupplyHistoryIgnoresPaging(contractAddress: string, blockno: i64,
                                        offset1: i64, page1: i64, sort1: string,
                                        offset2: i64, page2: i64, sort2: string)
    ensures DispatchTokens(TokenSupplyHistory(contractAddress, blockno, offset1, page1, sort1))
         == DispatchTokens(TokenSupplyHistory(contractAddress, blockno, offset2, page2, sort2))
    ensures Records.Encode(DispatchTokens(TokenSupplyHistory(contractAddress, blockno, offset1, page1, sort1)).params)
         == [("contractaddress", S(contractAddress)), ("blockno", I(blockno))]
  {
  }

  /** token_balance_history sends the same call whatever offset, page and sort it is given, address first. */
  lemma TokenBalanceHistoryIgnoresPaging(contractAddress: string, address: string, blockno: i64,
                                         offset1: i64, page1: i64, sort1: string,
                                         offset2: i64, page2: i64, sort2: string)
    ensures DispatchTokens(TokenBalanceHistory(contractAddress, address, blockno, offset1, page1, sort1))
         == DispatchTokens(TokenBalanceHistory(contractAddress, address, blockno, offset2, page2, sort2))
    ensures Records.Encode(DispatchTokens(TokenBalanceHistory(contractAddress, address, blockno, offset1, page1, sort1)).params)
         == [("address", S(address)), ("contractaddress", S(contractAddress)), ("blockno", I(blockno))]
  {
  }

  /** token_holder_list sends the same call whatever sort it is given. */
  lemma TokenHolderListIgnoresSort(contractAddress: string, page: i64, offset: i64, sort1: string, sort2: string)
    ensures DispatchTokens(TokenHolderList(contractAddress, page, offset, sort1))
         == DispatchTokens(TokenHolderList(contractAddress, page, offset, sort2))
    ensures Records.Encode(DispatchTokens(TokenHolderList(contractAddress, page, offset, sort1)).params)
         == [("contractaddress", S(contractAddress)), ("page", I(page)), ("offset", I(offset))]
  {
  }
}
