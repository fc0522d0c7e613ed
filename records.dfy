/**
 * The flat query records. Each `#[derive(Serialize)]` struct serializes as one
 * `key=value` pair per declared field, every field always present, in the
 * order the struct declares its fields. A record is modelled as a list of
 * field names (its schema) and a list of field values in the same order;
 * each struct is one constructor of `Params`, named after it, with the
 * struct's fields in declaration order.
 */
module Records {
  import opened Values

  datatype Params =
    | NoParams   // the unit value `()`, for endpoints without parameters
    | AddressTagQuery(address: string, tag: string)
    | TxListPaginatedQuery(address: string, startblock: i64, endblock: i64, page: i64, offset: i64, sort: string)
    | TxHashQuery(txhash: string)
    | BlockRangePaginatedQuery(startblock: i64, endblock: i64, page: i64, offset: i64, sort: string)
    | TokenEventsPaginatedQuery(address: string, contractaddress: string, page: i64, offset: i64,
                                startblock: i64, endblock: i64, sort: string)
    | AddressBlocktypePaginatedQuery(address: string, blocktype: string, page: i64, offset: i64, sort: string)
    | ContractByAddressBlockRangePaginatedQuery(address: string, contractaddress: string, page: i64, offset: i64,
                                                startblock: i64, endblock: i64, sort: string)
    | AddressBlockNumberQuery(address: string, blockno: i64)
    | AddressQuery(address: string)
    | ContractAddressQuery(contractaddress: string)
    | BlockNumberQuery(blockno: i64)
    | BlockTimestampQuery(timestamp: i64, closest: string)
    | DateRangeQuery(startdate: string, enddate: string, sort: string)
    | EventLogAddressPaginatedQuery(address: string, fromblock: i64, toblock: i64, page: i64, offset: i64)
    | BlockNumberBoolQuery(tag: string, boolean: bool)
    | BlockNumberIndexQuery(tag: string, index: string)
    | BlockNumberHexQuery(tag: string)
    | RawTxQuery(hex: string)
    | CallQuery(to: string, data: string, tag: string)
    | StoragePositionQuery(address: string, position: string, tag: string)
    | EstimateGasQuery(data: string, to: string, value: string, gas: string, gasPrice: string)
    | ContractAddressesQuery(contractaddresses: string)
    | ContractByAddressQuery(address: string, contractaddress: string)
    | ContractByAddressPaginatedQuery(address: string, contractaddress: string, page: i64, offset: i64)
    | ContractByBlockNumberQuery(contractaddress: string, blockno: i64)
    | ContractByAddressBlockNumberQuery(address: string, contractaddress: string, blockno: i64)
    | ContractAddressPaginatedQuery(contractaddress: string, page: i64, offset: i64)
    | AddressPaginatedQuery(address: string, page: i64, offset: i64)
    | GasPriceQuery(gasprice: string)
    | BlockchainSizeQuery(startdate: string, enddate: string, clienttype: string, syncmode: string, sort: string)

  // The serialized key of each struct field, which is the field's own identifier.
  const AddressKey: string := "address"
  const TagKey: string := "tag"
  const StartBlockKey: string := "startblock"
  const EndBlockKey: string := "endblock"
  const PageKey: string := "page"
  const OffsetKey: string := "offset"
  const SortKey: string := "sort"
  const TxHashKey: string := "txhash"
  const ContractAddressKey: string := "contractaddress"
  const BlockTypeKey: string := "blocktype"
  const BlockNoKey: string := "blockno"
  const TimestampKey: string := "timestamp"
  const ClosestKey: string := "closest"
  const StartDateKey: string := "startdate"
  const EndDateKey: string := "enddate"
  const FromBlockKey: string := "fromblock"
  const ToBlockKey: string := "toblock"
  const BooleanKey: string := "boolean"
  const IndexKey: string := "index"
  const HexKey: string := "hex"
  const ToKey: string := "to"
  const DataKey: string := "data"
  const PositionKey: string := "position"
  const ValueKey: string := "value"
  const GasKey: string := "gas"
  const GasPriceKey: string := "gasPrice"
  const ContractAddressesKey: string := "contractaddresses"
  const GasPriceLowerKey: string := "gasprice"
  const ClientTypeKey: string := "clienttype"
  const SyncModeKey: string := "syncmode"

  /** Every key any record serializes. */
  const AllFieldNames: set<string> := {
    AddressKey, TagKey, StartBlockKey, EndBlockKey, PageKey,
    OffsetKey, SortKey, TxHashKey, ContractAddressKey, BlockTypeKey,
    BlockNoKey, TimestampKey, ClosestKey, StartDateKey, EndDateKey,
    FromBlockKey, ToBlockKey, BooleanKey, IndexKey, HexKey,
    ToKey, DataKey, PositionKey, ValueKey, GasKey,
    GasPriceKey, ContractAddressesKey, GasPriceLowerKey, ClientTypeKey, SyncModeKey
  }

  /**
   * The record's schema and contents: its field names in declaration order,
   * and the value of each field, position for position.
   */
  function Schema(p: Params): (r: (seq<string>, seq<Elem>))
    ensures |r.0| == |r.1|
  {
    match p
    case NoParams =>
      ([], [])
    case AddressTagQuery(a, t) =>
      ([AddressKey, TagKey], [S(a), S(t)])
    case TxListPaginatedQuery(a, sb, eb, pg, off, so) =>
      ([AddressKey, StartBlockKey, EndBlockKey, PageKey, OffsetKey, SortKey],
       [S(a), I(sb), I(eb), I(pg), I(off), S(so)])
    case TxHashQuery(h) =>
      ([TxHashKey], [S(h)])
    case BlockRangePaginatedQuery(sb, eb, pg, off, so) =>
      ([StartBlockKey, EndBlockKey, PageKey, OffsetKey, SortKey], [I(sb), I(eb), I(pg), I(off), S(so)])
    case TokenEventsPaginatedQuery(a, c, pg, off, sb, eb, so) =>
      ([AddressKey, ContractAddressKey, PageKey, OffsetKey, StartBlockKey, EndBlockKey, SortKey],
       [S(a), S(c), I(pg), I(off), I(sb), I(eb), S(so)])
    case AddressBlocktypePaginatedQuery(a, bt, pg, off, so) =>
      ([AddressKey, BlockTypeKey, PageKey, OffsetKey, SortKey], [S(a), S(bt), I(pg), I(off), S(so)])
    case ContractByAddressBlockRangePaginatedQuery(a, c, pg, off, sb, eb, so) =>
      ([AddressKey, ContractAddressKey, PageKey, OffsetKey, StartBlockKey, EndBlockKey, SortKey],
       [S(a), S(c), I(pg), I(off), I(sb), I(eb), S(so)])
    case AddressBlockNumberQuery(a, bn) =>
      ([AddressKey, BlockNoKey], [S(a), I(bn)])
    case AddressQuery(a) =>
      ([AddressKey], [S(a)])
    case ContractAddressQuery(c) =>
      ([ContractAddressKey], [S(c)])
    case BlockNumberQuery(bn) =>
      ([BlockNoKey], [I(bn)])
    case BlockTimestampQuery(ts, cl) =>
      ([TimestampKey, ClosestKey], [I(ts), S(cl)])
    case DateRangeQuery(sd, ed, so) =>
      ([StartDateKey, EndDateKey, SortKey], [S(sd), S(ed), S(so)])
    case EventLogAddressPaginatedQuery(a, fb, tb, pg, off) =>
      ([AddressKey, FromBlockKey, ToBlockKey, PageKey, OffsetKey], [S(a), I(fb), I(tb), I(pg), I(off)])
    case BlockNumberBoolQuery(t, b) =>
      ([TagKey, BooleanKey], [S(t), B(b)])
    case BlockNumberIndexQuery(t, ix) =>
      ([TagKey, IndexKey], [S(t), S(ix)])
    case BlockNumberHexQuery(t) =>
      ([TagKey], [S(t)])
    case RawTxQuery(h) =>
      ([HexKey], [S(h)])
    case CallQuery(to, d, t) =>
      ([ToKey, DataKey, TagKey], [S(to), S(d), S(t)])
    case StoragePositionQuery(a, pos, t) =>
      ([AddressKey, PositionKey, TagKey], [S(a), S(pos), S(t)])
    case EstimateGasQuery(d, to, v, g, gp) =>
      ([DataKey, ToKey, ValueKey, GasKey, GasPriceKey], [S(d), S(to), S(v), S(g), S(gp)])
    case ContractAddressesQuery(cs) =>
      ([ContractAddressesKey], [S(cs)])
    case ContractByAddressQuery(a, c) =>
      ([AddressKey, ContractAddressKey], [S(a), S(c)])
    case ContractByAddressPaginatedQuery(a, c, pg, off) =>
      ([AddressKey, ContractAddressKey, PageKey, OffsetKey], [S(a), S(c), I(pg), I(off)])
    case ContractByBlockNumberQuery(c, bn) =>
      ([ContractAddressKey, BlockNoKey], [S(c), I(bn)])
    case ContractByAddressBlockNumberQuery(a, c, bn) =>
      ([AddressKey, ContractAddressKey, BlockNoKey], [S(a), S(c), I(bn)])
    case ContractAddressPaginatedQuery(c, pg, off) =>
      ([ContractAddressKey, PageKey, OffsetKey], [S(c), I(pg), I(off)])
    case AddressPaginatedQuery(a, pg, off) =>
      ([AddressKey, PageKey, OffsetKey], [S(a), I(pg), I(off)])
    case GasPriceQuery(gp) =>
      ([GasPriceLowerKey], [S(gp)])
    case BlockchainSizeQuery(sd, ed, ct, sm, so) =>
      ([StartDateKey, EndDateKey, ClientTypeKey, SyncModeKey, SortKey], [S(sd), S(ed), S(ct), S(sm), S(so)])
  }

  /** The field names of the record, in declaration order. */
  function FieldNames(p: Params): (ks: seq<string>)
  {
    Schema(p).0
  }

  /** The record's field values, one per field name. */
  function FieldValues(p: Params): (vs: seq<Elem>)
    ensures |vs| == |FieldNames(p)|
  {
    Schema(p).1
  }

  /** The derived serialization: one pair per declared field, none skipped, in declaration order. */
  function Encode(p: Params): (r: seq<Pair>)
    ensures |r| == |FieldNames(p)|
    ensures Keys(r) == FieldNames(p)
    ensures forall i :: 0 <= i < |r| ==> r[i] == (FieldNames(p)[i], FieldValues(p)[i])
  {
    Zip(FieldNames(p), FieldValues(p))
  }

  // The records in declaration order, split in four so that each proof by cases stays small.

  predicate FirstQuarter(p: Params)
  {
    p.NoParams? || p.AddressTagQuery? || p.TxListPaginatedQuery? || p.TxHashQuery?
    || p.BlockRangePaginatedQuery? || p.TokenEventsPaginatedQuery? || p.AddressBlocktypePaginatedQuery?
    || p.ContractByAddressBlockRangePaginatedQuery?
  }

  predicate SecondQuarter(p: Params)
  {
    p.AddressBlockNumberQuery? || p.AddressQuery? || p.ContractAddressQuery? || p.BlockNumberQuery?
    || p.BlockTimestampQuery? || p.DateRangeQuery? || p.EventLogAddressPaginatedQuery?
    || p.BlockNumberBoolQuery?
  }

  predicate ThirdQuarter(p: Params)
  {
    p.BlockNumberIndexQuery? || p.BlockNumberHexQuery? || p.RawTxQuery? || p.CallQuery?
    || p.StoragePositionQuery? || p.EstimateGasQuery? || p.ContractAddressesQuery?
    || p.ContractByAddressQuery?
  }

  predicate FourthQuarter(p: Params)
  {
    p.ContractByAddressPaginatedQuery? || p.ContractByBlockNumberQuery?
    || p.ContractByAddressBlockNumberQuery? || p.ContractAddressPaginatedQuery? || p.AddressPaginatedQuery?
    || p.GasPriceQuery? || p.BlockchainSizeQuery?
  }

  /** No record declares the same field twice. */
  lemma FieldNamesDistinct(p: Params)
    ensures Distinct(FieldNames(p))
  {
    if FirstQuarter(p) {
      FirstQuarterDistinct(p);
    } else if SecondQuarter(p) {
      SecondQuarterDistinct(p);
    } else if ThirdQuarter(p) {
      ThirdQuarterDistinct(p);
    } else {
      FourthQuarterDistinct(p);
    }
  }

  lemma FirstQuarterDistinct(p: Params)
    requires FirstQuarter(p)
    ensures Distinct(FieldNames(p))
  {
  }

  lemma SecondQuarterDistinct(p: Params)
    requires SecondQuarter(p)
    ensures Distinct(FieldNames(p))
  {
  }

  lemma ThirdQuarterDistinct(p: Params)
    requires ThirdQuarter(p)
    ensures Distinct(FieldNames(p))
  {
  }

  lemma FourthQuarterDistinct(p: Params)
    requires FourthQuarter(p)
    ensures Distinct(FieldNames(p))
  {
  }

  /** Every field can be read back from the serialized record under its own name. */
  lemma EveryFieldRecoverable(p: Params, i: nat)
    requires i < |FieldNames(p)|
    ensures Lookup(Encode(p), FieldNames(p)[i]) == Some(FieldValues(p)[i])
  {
    FieldNamesDistinct(p);
    LookupDistinct(Encode(p), i);
  }

  /** The unit record contributes no pairs. */
  lemma UnitIsEmpty()
    ensures Encode(NoParams) == []
  {
  }

  /** The names of the base fields every request starts with. */
  const BaseKeys: seq<string> := ["module", "action", "apikey"]

  /** Every key a record serializes is one of the known field identifiers. */
  lemma FieldNamesKnown(p: Params)
    ensures forall k :: k in FieldNames(p) ==> k in AllFieldNames
  {
    if FirstQuarter(p) {
      FirstQuarterKnown(p);
    } else if SecondQuarter(p) {
      SecondQuarterKnown(p);
    } else if ThirdQuarter(p) {
      ThirdQuarterKnown(p);
    } else {
      FourthQuarterKnown(p);
    }
  }

  lemma FirstQuarterKnown(p: Params)
    requires FirstQuarter(p)
    ensures forall k :: k in FieldNames(p) ==> k in AllFieldNames
  {
  }

  lemma SecondQuarterKnown(p: Params)
    requires SecondQuarter(p)
    ensures forall k :: k in FieldNames(p) ==> k in AllFieldNames
  {
  }

  lemma ThirdQuarterKnown(p: Params)
    requires ThirdQuarter(p)
    ensures forall k :: k in FieldNames(p) ==> k in AllFieldNames
  {
  }

  lemma FourthQuarterKnown(p: Params)
    requires FourthQuarter(p)
    ensures forall k :: k in FieldNames(p) ==> k in AllFieldNames
  {
  }

  lemma BaseKeysAreNoFieldNames()
    ensures forall k :: k in BaseKeys ==> k !in AllFieldNames
  {
  }

  /** No endpoint record declares a field named like a base field, so the two never collide. */
  lemma NoCollisionWithBase(p: Params)
    ensures forall k :: k in BaseKeys ==> k !in FieldNames(p)
  {
    FieldNamesKnown(p);
    BaseKeysAreNoFieldNames();
  }

  /** A chain-size record encodes all five fields in declaration order. */
  lemma BlockchainSizeDeclarationOrder(startDate: string, endDate: string, clientType: string,
                                       syncMode: string, sort: string)
    ensures Encode(BlockchainSizeQuery(startDate, endDate, clientType, syncMode, sort))
         == [("startdate", S(startDate)), ("enddate", S(endDate)), ("clienttype", S(clientType)),
             ("syncmode", S(syncMode)), ("sort", S(sort))]
  {
  }
}
