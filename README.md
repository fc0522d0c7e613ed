# etherscan-rs: the query parameter layer, in Dafny

This project models the parameter layer of the etherscan-rs asynchronous
client: how each endpoint method's arguments become the query of the GET
request, and how the reply becomes the call's result.

- **Topic chain** (`topic_query.dfy`, module `TopicQuery`). The custom
  `Serialize` of `EventLogTopicPaginatedQuery` emits a bare sequence of
  values (no keys): `fromblock, toblock, topic0`; then `topic1` with the
  operator `topic0_1_opr`, `topic2` with `topic1_2_opr` and `topic3` with
  `topic2_3_opr`, each pair only if its topic is non-empty; then
  `page, offset`. `Serialize` is a method that appends step by step, as the
  source does. It is proved equal to `Encoded`, the same steps written as
  concatenations. `Encoded` is in turn proved equal to an independent
  description: the fixed head, then `Slots` of `PresentTopics` (the
  non-empty topics, by index), then the fixed tail. The three checks are
  independent, and the model keeps that: a later topic is emitted even when
  an earlier one is empty. The prefix assumption ("topic k+1 set means
  topic k set") is only a precondition of the extra lemma `PrefixChain`.
- **Flat records** (`records.dfy`, module `Records`). Each
  `#[derive(Serialize)]` query struct is a constructor of `Params`, named
  after the struct, with its fields in declaration order. `()` is
  `NoParams`. A record is its `Schema`: its field names (`FieldNames`) and,
  position for position, its values (`FieldValues`). `Encode` pairs them
  up, so every field is always present and in declaration order.
- **get** (`client.dfy`, module `Client`). `AsyncClient::get` is `Get`. It
  builds `RequestQuery`, which is the `BaseApiRequest` pairs
  (`module, action, apikey`) followed by the record's pairs. It hands the
  query to the transport, a function parameter `send`. It then returns the
  envelope's `result` verbatim (`ResultOf`), whatever the `status`, or
  passes the transport's error through.
- **Endpoint methods** (`endpoints.dfy`, module `Endpoints`). All 66
  endpoint methods, one datatype per `impl` block (Accounts, Contract,
  Transaction, Block, Logs, proxy, Tokens, Gas Tracker, Stats). Each method
  is a constructor carrying its arguments in the method's order. The
  section's `Dispatch…` function gives the module, the action and the record
  the method hands to `get`, with the same strings and the same argument
  handling as the method body: lists joined with ",", numbers turned into
  hex tags, fixed "latest" tags, the unit record, and arguments accepted
  but not sent. `Dispatch` joins the sections, and `EndpointQuery` is the
  query a call sends.
- **Comma join** (`address_list.dfy`, module `AddressList`).
  `addresses.join(",")` is `Join`. `Split` (one-character `str::split`)
  is its reference inverse.
- **Hex tag** (`hex_format.dfy`, module `HexFormat`).
  `format!("0x{:x}", n)` for an `i64` is `HexTag`. Non-negative n gives
  lowercase hex with no leading zeros. Negative n gives the 64-bit
  two's-complement pattern, i.e. the digits of n + 2^64. `ParseDigits`
  reads digits back.
- `values.dfy` (module `Values`) holds the shared scalar type
  `Elem = I(i64) | S(string) | B(bool)`, key/value pairs and `Lookup`.
  `Lookup` takes the first pair with the key. Every request query has
  distinct keys (`QueryKeys`), so the choice of match never matters.

The topic encoder always emits fromblock, toblock, topic0, page and offset,
so it emits 5, 7, 9 or 11 elements (`LengthValues`, `ExampleLengths`). Each
topic is checked on its own, so a later topic is emitted even after an empty
earlier one (`IndependentChecks`).

## Model

| member | source | states |
|---|---|---|
| TopicQuery.Encoded | src/lib.rs:159-177 | the output has at least 5 elements, always starts with fromblock, toblock, topic0 (even if topic0 is empty) and always ends with page, offset |
| TopicQuery.Serialize | src/lib.rs:155-179 | the elements appended one at a time, with three independently guarded topic/operator pairs, form exactly `Encoded(q)` |
| TopicQuery.EncodedByReference | src/lib.rs:159-177 | the output is the fixed head, then each non-empty optional topic followed by its operator, in index order, then the fixed tail |
| TopicQuery.LengthByPresentCount | src/lib.rs:159-177 | the output length is 5 + 2·m, where m is the number of non-empty topics among topic1..topic3 |
| TopicQuery.LengthValues | src/lib.rs:159-177 | the length is one of 5, 7, 9, 11, so the `Some(10)` hint is not a bound |
| TopicQuery.PresentTopicsIff | src/lib.rs:163-174 | the emitted optional topics are listed in strictly increasing index order, and index k is listed iff topic k is non-empty |
| TopicQuery.TopicSlot | src/lib.rs:163-174 | the i-th emitted optional topic is at position 3+2i, and the operator of the boundary before it is at 4+2i |
| TopicQuery.TopicEmittedIff | src/lib.rs:163-174 | topic k (1..3) is the i-th emitted optional topic for some i, at position 3+2i with its operator at 4+2i, iff it is non-empty |
| TopicQuery.NoOperatorWithoutItsTopic | src/lib.rs:163-174 | every operator position holds the operator of some boundary k, and the position before it holds the non-empty topic k |
| TopicQuery.IndependentChecks | src/lib.rs:163-174 | with topic1 empty and topic2 set, the output is fromblock, toblock, topic0, topic2, topic1_2_opr, page, offset |
| TopicQuery.PrefixChain | src/lib.rs:145-147 | when topics fill from the front, the emitted topics are exactly topic1..topic_m, in order |
| TopicQuery.ExampleLengths | src/lib.rs:159-177 | no optional topic gives 5 elements, only topic1 gives 7, all three give 11 |
| Records.Schema | src/lib.rs:21-300 | every record has exactly one value per declared field name |
| Records.FieldValues | src/lib.rs:21-300 | a record's values line up one to one with its field names |
| Records.Encode | src/lib.rs:12-300 | a flat record serializes to one pair per declared field, with keys in declaration order and each key's own field value |
| Records.FieldNamesDistinct | src/lib.rs:21-300 | no record declares a field name twice |
| Records.EveryFieldRecoverable | src/lib.rs:21-300 | looking up any declared field name in the serialized record gives that field's value |
| Records.UnitIsEmpty | src/lib.rs:647 | the unit record `()` contributes no pairs |
| Records.FieldNamesKnown | src/lib.rs:21-300 | every key a record serializes is one of the thirty field identifiers the structs declare |
| Records.BaseKeysAreNoFieldNames | src/lib.rs:12-17 | module, action and apikey are none of the struct field identifiers |
| Records.NoCollisionWithBase | src/lib.rs:12-300 | no endpoint record has a field named module, action or apikey |
| Records.BlockchainSizeDeclarationOrder | src/lib.rs:293-300 | the chain-size record encodes startdate, enddate, clienttype, syncmode, sort in that order |
| Client.EncodeBase | src/lib.rs:12-17 | the base record's keys are module, action, apikey, in that order |
| Client.RequestQuery | src/lib.rs:329-339 | the query is exactly [module, action, apikey] (with the client's key) followed by the endpoint record's pairs |
| Client.Get | src/lib.rs:327-347 | get succeeds iff the exchange on the request query succeeds, then with the envelope's `result`, and otherwise fails with the exchange's error |
| Client.QueryKeys | src/lib.rs:329-339 | the query's keys are the base keys followed by the record's field names, and no key occurs twice |
| Client.QueryComposition | src/lib.rs:329-339 | reading the query back gives the module, the action, the client's API key, and every endpoint field's value |
| Client.UnitAddsNothing | src/lib.rs:646-648 | a parameterless endpoint sends the three base pairs and nothing else |
| Client.ResultOf | src/lib.rs:336-346 | a decoded envelope yields its `result`, and a failed exchange yields its error |
| Client.ResultVerbatim | src/lib.rs:336-346 | an envelope (status, result) makes get return exactly that result, for any status |
| Client.StatusIgnored | src/lib.rs:305-346 | two envelopes with the same result and any statuses give the same answer |
| Client.FailurePropagates | src/lib.rs:336-343 | a transport or decoding error is returned as that same error, never as a default value |
| Endpoints.DispatchAccounts | src/lib.rs:353-483 | every Accounts method calls module "account" |
| Endpoints.DispatchContracts | src/lib.rs:487-509 | every Contract method calls module "contract" |
| Endpoints.DispatchTransactions | src/lib.rs:512-526 | every Transaction method calls module "transaction" |
| Endpoints.DispatchBlocks | src/lib.rs:529-598 | every Block method calls module "block" |
| Endpoints.DispatchLogs | src/lib.rs:602-611 | logs_by_address calls module "logs" |
| Endpoints.DispatchProxy | src/lib.rs:645-743 | every proxy method calls module "proxy" |
| Endpoints.DispatchTokens | src/lib.rs:746-823 | every Tokens method calls module "tokens" |
| Endpoints.DispatchGasTracker | src/lib.rs:826-864 | the Gas Tracker methods call module "gastracker", except the three daily ones, which call "stats" |
| Endpoints.DispatchStats | src/lib.rs:867-966 | every Stats method calls module "stats" |
| Endpoints.Dispatch | src/lib.rs:353-966 | every endpoint method calls one of the nine API modules |
| Endpoints.UnitRecordIffNoArguments | src/lib.rs:646-893 | an endpoint passes the unit record `()` iff it is one of the seven methods without arguments |
| Endpoints.BlockNumberSendsOnlyBase | src/lib.rs:646-648 | eth_get_block_number sends module proxy, action eth_blockNumber and the API key, and nothing else |
| Endpoints.BalanceTagLatest | src/lib.rs:354-368 | get_balance and get_balance_multi always send tag "latest" |
| Endpoints.BalanceMultiAddressesRecoverable | src/lib.rs:362-369 | for n ≥ 1 comma-free addresses, the address field balancemulti sends splits on "," back into the same list |
| Endpoints.BalanceMultiSingle | src/lib.rs:362-368 | a single address is sent unchanged |
| Endpoints.ContractCreationAddressesRecoverable | src/lib.rs:502-508 | for n ≥ 1 comma-free addresses, the contractaddresses field contract_creation sends splits on "," back into the same list |
| Endpoints.BlockByNumberTag | src/lib.rs:650-656 | eth_get_block_by_number sends the block number as "0x" and hex digits that read back as the given non-negative number, and the flag as given |
| Endpoints.BlockIndexTagsRecoverable | src/lib.rs:658-679 | the uncle and the transaction lookups send block number and index as "0x" and hex digits that read back as the given non-negative numbers |
| Endpoints.EstimateGasOrder | src/lib.rs:733-742 | eth_estimate_gas sends data, to, value, gas, gasPrice in the struct's order, even though the method lists `to` first, with the three numbers as hex tags |
| Endpoints.EstimateGasEncoding | src/lib.rs:221-228 | the estimate-gas record encodes data, to, value, gas, gasPrice in that order |
| Endpoints.ConfirmationTimeTag | src/lib.rs:827-832 | estimate_confirmation_time sends the gas price as "0x" and hex digits that read back as the given non-negative number |
| Endpoints.TransferEventsOrder | src/lib.rs:413-450 | the erc20, erc721 and erc1155 transfer-event methods take startblock before page, yet encode address, contractaddress, page, offset, startblock, endblock, sort |
| Endpoints.NftTransferEventsSameCall | src/lib.rs:426-450 | get_erc721_transfer_events and get_erc1155_transfer_events send the same module, action and record for the same arguments |
| Endpoints.InventoryByContractOrder | src/lib.rs:813-821 | erc721_token_inventory_by_contract takes the contract first, yet encodes address, contractaddress, page, offset |
| Endpoints.TokenBalanceIgnoresTag | src/lib.rs:754-760 | token_balance sends the same call whatever tag it is given, with fields address, contractaddress |
| Endpoints.TokenSupplyHistoryIgnoresPaging | src/lib.rs:762-768 | token_supply_history sends the same call whatever offset, page and sort it is given, with fields contractaddress, blockno |
| Endpoints.TokenBalanceHistoryIgnoresPaging | src/lib.rs:770-777 | token_balance_history sends the same call whatever offset, page and sort it is given, with fields address, contractaddress, blockno |
| Endpoints.TokenHolderListIgnoresSort | src/lib.rs:779-786 | token_holder_list sends the same call whatever sort it is given, with fields contractaddress, page, offset |
| AddressList.Join | src/lib.rs:363 | the joined string has length (sum of lengths) + (n−1)·|sep| for n ≥ 1, and an empty list joins to "" |
| AddressList.JoinSmallCases | src/lib.rs:363 | an empty list joins to "", and a single element is returned unchanged, with no comma added |
| AddressList.JoinCommaCount | src/lib.rs:363 | joining n ≥ 1 comma-free elements gives exactly n−1 commas |
| AddressList.SplitJoin | src/lib.rs:503 | splitting the join of n ≥ 1 comma-free elements on "," gives back the original list |
| AddressList.EmptyListDoesNotRoundTrip | src/lib.rs:363 | the empty list joins to "", which splits into [""], so the round trip needs n ≥ 1 |
| AddressList.JoinThree | src/lib.rs:503 | ["0xA", "0xB", "0xC"] joins to "0xA,0xB,0xC" |
| HexFormat.HexTag | src/lib.rs:652 | the tag is "0x" followed by at least one lowercase hex digit |
| HexFormat.BitPattern | src/lib.rs:652 | the value `{:x}` prints is below 2^64: n itself for n ≥ 0, n + 2^64 for negative n |
| HexFormat.DigitsCanonical | src/lib.rs:652 | the digits are non-empty lowercase hex, and the first digit is '0' only for 0 itself, printed "0" |
| HexFormat.ParseDigitsOfDigits | src/lib.rs:652 | reading the printed digits as base 16 gives the number back |
| HexFormat.DigitsOfParseDigits | src/lib.rs:652 | any canonical lowercase hex string is exactly what is printed for its own value |
| HexFormat.HexTagShape | src/lib.rs:737-739 | the tag is "0x" followed by 1 to 16 canonical digits, and those digits read back as the i64's bit pattern (as n itself for n ≥ 0) |
| HexFormat.HexTagInjective | src/lib.rs:661 | different i64 values get different tags |
| HexFormat.HexTagExamples | src/lib.rs:829 | 0 prints as "0x0" and 255 as "0xff" |
| HexFormat.HexTagOfMinusOne | src/lib.rs:652 | −1 prints as "0xffffffffffffffff", its 64-bit two's-complement pattern |

## Left out

- HTTP transport, `reqwest::Client`, `async`/`await`, and the API URL constants with their network selection (src/lib.rs:6-8, 312-343). These are I/O through libraries outside this model. The exchange is the function parameter `send` of `Get`, and the handle is dropped from `AsyncClient`.
- JSON decoding of the body into `ApiResponse`. It is part of `send`: a body that does not decode is one of its errors. Only the "take `result`" step is modelled.
- URL form-encoding of the query by `reqwest`. Pairs keep typed values (`I`, `S`, `B`) and are not rendered as text. This includes the fact that such an encoder would not accept the bare sequence the topic encoder produces. That encoder's only caller, `logs_by_topic`, is commented out (src/lib.rs:613-625).
- Errors raised by the serializer inside `serialize_element`/`serialize_seq` (the `?` in src/lib.rs:159-177). They come from a serializer that is not part of this model. `Serialize` models the path where every element is accepted.
- TopicQuery.Serialize: does not state the length bound itself. The bound is `LengthByPresentCount`/`LengthValues` about `Encoded`, which `Serialize` is proved equal to.
- The remote meaning of the action names. The model sends the action strings exactly as the source does: `get_erc721_transfer_events` and `get_erc1155_transfer_events` both send "tokennfttx", `erc721_token_inventory` and `erc721_token_inventory_by_contract` also send "tokennfttx", `token_holder_list` sends "tokennholderlist", and `contract_creation` sends "getsourcecode". Whether the server accepts them is outside this model.
- The commented-out methods `logs_by_topic` and `logs_by_address_topic` (src/lib.rs:613-640). They are not part of the program. The topic encoder they would use is modelled.
- Endpoints.Dispatch: it and the section functions (`DispatchAccounts` … `DispatchStats`) state only the module in their contracts. The action, the record and the argument handling of individual methods are stated by the lemmas beside them (joins, tags, unit records, field order, dropped arguments). For the plain methods the contract of `QueryComposition` covers their record.
- The `Debug` derivations and `AsyncClient::new` (it only stores the key; `AsyncClient(apiKey)` is the model).
- The test at src/lib.rs:969-985, which needs the live network.
