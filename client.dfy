/**
 * `AsyncClient::get`, the single funnel every endpoint goes through: the
 * base fields `module, action, apikey` are serialized first, the endpoint's
 * record after them, the GET is sent, and the envelope's `result` is
 * returned as it is, whatever its `status`.
 *
 * The HTTP exchange (sending to the API URL and decoding the JSON body into
 * an envelope) is a parameter, `send`: it is I/O through libraries that are
 * not part of this model.
 */
module Client {
  import opened Values
  import opened Records

  /** The client: its API key (the HTTP handle it also holds is not modelled). Immutable. */
  datatype AsyncClient = AsyncClient(apiKey: string)

  /** `BaseApiRequest`; `moduleName` serializes under the key "module". */
  datatype BaseApiRequest = BaseApiRequest(moduleName: string, action: string, apikey: string)

  /** `ApiResponse`, the two-field envelope of every reply. */
  datatype ApiResponse = ApiResponse(status: string, result: string)

  /** The single opaque error of a failed exchange or an undecodable body. */
  datatype HttpError = HttpError(reason: string)

  datatype Result<+T> = Ok(value: T) | Err(error: HttpError)

  /** The GET of one query and the decoding of its body. */
  type Transport = seq<Pair> -> Result<ApiResponse>

  /** The derived serialization of the base record, in declaration order. */
  function EncodeBase(b: BaseApiRequest): (r: seq<Pair>)
    ensures Keys(r) == BaseKeys
  {
    [("module", S(b.moduleName)), ("action", S(b.action)), ("apikey", S(b.apikey))]
  }

  /** The query `get` sends: the base query, then the endpoint's query. */
  function RequestQuery(c: AsyncClient, moduleName: string, action: string, params: Params): (q: seq<Pair>)
    ensures |q| == 3 + |FieldNames(params)|
    ensures q[..3] == [("module", S(moduleName)), ("action", S(action)), ("apikey", S(c.apiKey))]
    ensures q[3..] == Records.Encode(params)
  {
    EncodeBase(BaseApiRequest(moduleName, action, c.apiKey)) + Records.Encode(params)
  }

  /** The last step of `get`: the envelope's `result`, or the exchange's error. */
  function ResultOf(reply: Result<ApiResponse>): (r: Result<string>)
    ensures r.Ok? <==> reply.Ok?
    ensures reply.Ok? ==> r.value == reply.value.result
    ensures reply.Err? ==> r.error == reply.error
  {
    match reply
    case Ok(envelope) => Ok(envelope.result)
    case Err(e) => Err(e)
  }

  /**
   * `get(module, action, params)`: one exchange on the query built from the
   * client's key, the module, the action and the record; its answer is the
   * reply's `result`, or the reply's error.
   */
  function Get(c: AsyncClient, moduleName: string, action: string, params: Params, send: Transport): (r: Result<string>)
    ensures var reply := send(RequestQuery(c, moduleName, action, params));
            (r.Ok? <==> reply.Ok?) &&
            (reply.Ok? ==> r.value == reply.value.result) &&
            (reply.Err? ==> r.error == reply.error)
  {
    ResultOf(send(RequestQuery(c, moduleName, action, params)))
  }

  // ----- Properties of get ---------------------------------------------------

  /** The request query's keys are the base keys then the record's field names, all distinct. */
  lemma QueryKeys(c: AsyncClient, moduleName: string, action: string, params: Params)
    ensures Keys(RequestQuery(c, moduleName, action, params)) == BaseKeys + FieldNames(params)
    ensures Distinct(Keys(RequestQuery(c, moduleName, action, params)))
  {
    KeysAppend(EncodeBase(BaseApiRequest(moduleName, action, c.apiKey)), Records.Encode(params));
    NoCollisionWithBase(params);
    FieldNamesDistinct(params);
    DistinctAppend(BaseKeys, FieldNames(params));
  }

  /**
   * The server reads back, from the request query, the module, the action,
   * the client's API key and every field of the endpoint record as given.
   */
  lemma QueryComposition(c: AsyncClient, moduleName: string, action: string, params: Params)
    ensures Lookup(RequestQuery(c, moduleName, action, params), "module") == Some(S(moduleName))
    ensures Lookup(RequestQuery(c, moduleName, action, params), "action") == Some(S(action))
    ensures Lookup(RequestQuery(c, moduleName, action, params), "apikey") == Some(S(c.apiKey))
    ensures forall i :: 0 <= i < |FieldNames(params)| ==>
              Lookup(RequestQuery(c, moduleName, action, params), FieldNames(params)[i]) == Some(FieldValues(params)[i])
  {
    var q := RequestQuery(c, moduleName, action, params);
    var r := Records.Encode(params);
    QueryKeys(c, moduleName, action, params);
    LookupEveryKey(q);
    assert q[0].0 == "module" && q[1].0 == "action" && q[2].0 == "apikey";
    forall i | 0 <= i < |r|
      ensures Lookup(q, r[i].0) == Some(r[i].1)
    {
      assert q[3 + i] == r[i];
    }
  }

  /** An endpoint without parameters sends the three base pairs and nothing else. */
  lemma UnitAddsNothing(c: AsyncClient, moduleName: string, action: string)
    ensures RequestQuery(c, moduleName, action, NoParams)
         == [("module", S(moduleName)), ("action", S(action)), ("apikey", S(c.apiKey))]
  {
    assert RequestQuery(c, moduleName, action, NoParams) == RequestQuery(c, moduleName, action, NoParams)[..3];
  }

  /** A decoded envelope's `result` is returned verbatim; its `status` plays no part. */
  lemma ResultVerbatim(c: AsyncClient, moduleName: string, action: string, params: Params,
                       send: Transport, status: string, result: string)
    requires send(RequestQuery(c, moduleName, action, params)) == Ok(ApiResponse(status, result))
    ensures Get(c, moduleName, action, params, send) == Ok(result)
  {
  }

  /** Two replies that differ only in `status` give the same answer. */
  lemma StatusIgnored(c: AsyncClient, moduleName: string, action: string, params: Params,
                      send1: Transport, send2: Transport)
    requires send1(RequestQuery(c, moduleName, action, params)).Ok?
    requires send2(RequestQuery(c, moduleName, action, params)).Ok?
    requires send1(RequestQuery(c, moduleName, action, params)).value.result
          == send2(RequestQuery(c, moduleName, action, params)).value.result
    ensures Get(c, moduleName, action, params, send1) == Get(c, moduleName, action, params, send2)
  {
  }

  /** A failed exchange is returned as that same error, never as a default result. */
  lemma FailurePropagates(c: AsyncClient, moduleName: string, action: string, params: Params,
                          send: Transport, e: HttpError)
    requires send(RequestQuery(c, moduleName, action, params)) == Err(e)
    ensures Get(c, moduleName, action, params, send) == Err(e)
  {
  }
}
