/**
 * The request handler of the data API (api/data.js, lines 132-206): the
 * rate limit first, then the CORS headers, then dispatch on the HTTP
 * method. Responses are values; which store steps fail and the clock
 * reading are inputs.
 */
module DataApi {
  import opened Options
  import opened JsonValue
  import opened Validation
  import RateLimit
  import MarketStore

  /** The parts of an incoming request the handler reads. */
  datatype Request = Request(
    httpMethod: string,
    forwardedFor: Option<string>,   // the `x-forwarded-for` header
    remoteAddress: Option<string>,  // `req.connection.remoteAddress`
    body: Option<Json>)             // `req.body`; `None` when there is none

  datatype Payload =
    | NoBody                  // `res.end()`
    | Maps(value: Json)       // the market maps as JSON
    | Success                 // `{ success: true }`
    | Error(message: string)  // `{ error: message }`

  /** `cors` says whether the three `Access-Control-*` headers were set. */
  datatype Response = Response(status: int, cors: bool, payload: Payload)

  const TooManyRequests := "Too many requests. Please try again later."
  const InvalidFormat := "Invalid data format"
  const InvalidMap := "Invalid market map structure"
  const InvalidFirm := "Invalid firm structure"
  const NotAllowed := "Method not allowed"
  const InternalError := "Internal server error"

  /** Line 134: the first non-empty of the forwarded address and the socket address, else `'unknown'`. */
  function ClientId(req: Request): (id: string)
    ensures id != ""
    ensures req.forwardedFor.Some? && req.forwardedFor.value != "" ==> id == req.forwardedFor.value
    ensures (req.forwardedFor.None? || req.forwardedFor.value == "") && req.remoteAddress.Some? && req.remoteAddress.value != "" ==>
      id == req.remoteAddress.value
    ensures id == "unknown" || Some(id) == req.forwardedFor || Some(id) == req.remoteAddress
  {
    if req.forwardedFor.Some? && req.forwardedFor.value != "" then req.forwardedFor.value
    else if req.remoteAddress.Some? && req.remoteAddress.value != "" then req.remoteAddress.value
    else "unknown"
  }

  /** The 400 and 500 answers to a refused body (lines 164, 171, 178 and 203). */
  function Refusal(why: Rejection): (r: Response)
    ensures r.cors
    ensures r.status == 400 <==> why != Crash
    ensures r.status == 500 <==> why == Crash
    ensures r.payload.Error?
  {
    match why
    case BadFormat => Response(400, true, Error(InvalidFormat))
    case BadMap => Response(400, true, Error(InvalidMap))
    case BadFirm => Response(400, true, Error(InvalidFirm))
    case Crash => Response(500, true, Error(InternalError))
  }

  /** Refusals with different reasons are told apart by their responses. */
  lemma RefusalsDistinct(a: Rejection, b: Rejection)
    requires a != b
    ensures Refusal(a) != Refusal(b)
  {
  }

  /**
   * `handler(req, res)` at instant `now`, given whether the store read
   * fails and which step of a store write fails.
   */
  method Handle(limiter: RateLimit.RateLimiter, store: MarketStore.Store, req: Request, now: int,
                readFails: bool, writeFault: MarketStore.WriteFault)
    returns (resp: Response)
    modifies limiter, store
    ensures limiter.entries
         == old(limiter.entries)[ClientId(req) := RateLimit.Touch(RateLimit.Find(old(limiter.entries), ClientId(req)), now)]
    // Lines 137-140: over the limit, every method is refused, before the CORS headers and without the store.
    ensures !RateLimit.Admits(limiter.entries[ClientId(req)]) ==>
      resp == Response(429, false, Error(TooManyRequests)) && store.cell == old(store.cell) && store.published == old(store.published)
    ensures RateLimit.Admits(limiter.entries[ClientId(req)]) ==> resp.cors
    // Lines 147-150.
    ensures RateLimit.Admits(limiter.entries[ClientId(req)]) && req.httpMethod == "OPTIONS" ==>
      resp == Response(200, true, NoBody) && store.cell == old(store.cell) && store.published == old(store.published)
    // Lines 153-157: GET always answers 200 with what the store read gives.
    ensures RateLimit.Admits(limiter.entries[ClientId(req)]) && req.httpMethod == "GET" ==>
      resp.status == 200 && resp.payload.Maps? &&
      resp.payload.value == (if readFails || old(store.cell).None? then MarketStore.InitialMarketMapData else old(store.cell).value)
    // Lines 159-199: a refused body is answered from its reason and never written.
    ensures RateLimit.Admits(limiter.entries[ClientId(req)]) && req.httpMethod in {"POST", "PUT"} && Validate(req.body).Fail? ==>
      resp == Refusal(Validate(req.body).why) && store.cell == old(store.cell) && store.published == old(store.published)
    // An accepted body is written in its sanitised form: 200 when the write completes, 500 when it fails.
    ensures RateLimit.Admits(limiter.entries[ClientId(req)]) && req.httpMethod in {"POST", "PUT"} && Validate(req.body).Ok? ==>
      && store.cell == (if writeFault == MarketStore.SetFails then old(store.cell) else Some(Validate(req.body).value))
      && store.published == (if writeFault == MarketStore.Written then old(store.published) + [Validate(req.body).value]
                             else old(store.published))
      && resp == (if writeFault == MarketStore.Written then Response(200, true, Success) else Response(500, true, Error(InternalError)))
    // Line 201: any other method, DELETE included.
    ensures RateLimit.Admits(limiter.entries[ClientId(req)]) && req.httpMethod !in {"OPTIONS", "GET", "POST", "PUT"} ==>
      resp == Response(405, true, Error(NotAllowed)) && store.cell == old(store.cell) && store.published == old(store.published)
  {
    var clientId := ClientId(req);
    var allowed := limiter.CheckRateLimit(clientId, now);
    if !allowed {
      return Response(429, false, Error(TooManyRequests));
    }
    if req.httpMethod == "OPTIONS" {
      return Response(200, true, NoBody);
    }
    if req.httpMethod == "GET" {
      var marketMaps := store.GetMarketMaps(readFails, writeFault);
      return Response(200, true, Maps(marketMaps));
    }
    if req.httpMethod == "POST" || req.httpMethod == "PUT" {
      var checked := ValidateBody(req.body);
      if checked.Fail? {
        return Refusal(checked.why);
      }
      var ok := store.SetMarketMaps(checked.value, writeFault);
      if !ok {
        return Response(500, true, Error(InternalError));
      }
      return Response(200, true, Success);
    }
    return Response(405, true, Error(NotAllowed));
  }

  // The default maps against the validation of lines 163-194.

  /** A label with no white space at either end, not empty, within `cap`. */
  predicate Label(s: string, cap: nat) {
    s != [] && Tidy(s) && |s| <= cap
  }

  /** A row of the default data whose firm object is tidy. */
  predicate RowTidy(row: MarketStore.FirmRow) {
    && row.id != [] && Label(row.name, NameCap) && Label(row.category, LabelCap) && Label(row.subcategory, LabelCap)
    && (row.product.Some? ==> Label(row.product.value, NameCap))
  }

  /** The firm object of a tidy row without a product is a tidy firm. */
  lemma PlainFirmTidy(row: MarketStore.FirmRow)
    requires RowTidy(row) && row.product.None?
    ensures TidyFirm(MarketStore.FirmValue(row))
  {
    var fields := MarketStore.FirmValue(row).fields;
    assert Lookup(fields, "id") == Found(JStr(row.id));
    assert Lookup(fields, "name") == Lookup(fields[1..], "name") == Found(JStr(row.name));
    assert Lookup(fields, "category") == Lookup(fields[1..], "category") == Lookup(fields[2..], "category") == Found(JStr(row.category));
    assert Lookup(fields, "subcategory") == Lookup(fields[1..], "subcategory") == Lookup(fields[2..], "subcategory")
        == Lookup(fields[3..], "subcategory") == Found(JStr(row.subcategory));
    assert Lookup(fields, "product") == Lookup(fields[1..], "product") == Lookup(fields[2..], "product")
        == Lookup(fields[3..], "product") == Lookup(fields[4..], "product") == Undefined;
  }

  /** The firm object of a tidy row with a product is a tidy firm. */
  lemma ProductFirmTidy(row: MarketStore.FirmRow)
    requires RowTidy(row) && row.product.Some?
    ensures TidyFirm(MarketStore.FirmValue(row))
  {
    var fields := MarketStore.FirmValue(row).fields;
    assert Lookup(fields, "id") == Found(JStr(row.id));
    assert Lookup(fields, "name") == Lookup(fields[1..], "name") == Found(JStr(row.name));
    assert Lookup(fields, "category") == Lookup(fields[1..], "category") == Lookup(fields[2..], "category") == Found(JStr(row.category));
    assert Lookup(fields, "subcategory") == Lookup(fields[1..], "subcategory") == Lookup(fields[2..], "subcategory")
        == Lookup(fields[3..], "subcategory") == Found(JStr(row.subcategory));
    assert Lookup(fields, "product") == Lookup(fields[1..], "product") == Lookup(fields[2..], "product")
        == Lookup(fields[3..], "product") == Lookup(fields[4..], "product") == Found(JStr(row.product.value));
  }

  lemma SensingRowsTidy()
    ensures forall i :: 0 <= i < |MarketStore.SensingRows| ==> RowTidy(MarketStore.SensingRows[i])
  {
  }

  lemma DecidingRowsTidy()
    ensures forall i :: 0 <= i < |MarketStore.DecidingRows| ==> RowTidy(MarketStore.DecidingRows[i])
  {
  }

  lemma EffectingRowsTidy()
    ensures forall i :: 0 <= i < |MarketStore.EffectingRows| ==> RowTidy(MarketStore.EffectingRows[i])
  {
  }

  /** Every firm of the default data is tidy. */
  lemma InitialFirmsTidy()
    ensures forall f :: f in MarketStore.FirmValues(MarketStore.SensingRows + MarketStore.DecidingRows + MarketStore.EffectingRows) ==> TidyFirm(f)
  {
    var rows := MarketStore.SensingRows + MarketStore.DecidingRows + MarketStore.EffectingRows;
    SensingRowsTidy();
    DecidingRowsTidy();
    EffectingRowsTidy();
    forall i | 0 <= i < |rows|
      ensures TidyFirm(MarketStore.FirmValue(rows[i]))
    {
      if rows[i].product.Some? {
        ProductFirmTidy(rows[i]);
      } else {
        PlainFirmTidy(rows[i]);
      }
    }
  }

  /** The four properties of the map `CUAS` read back. */
  lemma CuasFields()
    ensures Get(MarketStore.CuasMap, "id") == Found(JStr("CUAS"))
    ensures Get(MarketStore.CuasMap, "name") == Found(JStr("CUAS"))
    ensures Get(MarketStore.CuasMap, "categories") == Found(JArr([JStr("Sensing"), JStr("Deciding"), JStr("Effecting")]))
    ensures Get(MarketStore.CuasMap, "firms") == Found(JArr(MarketStore.FirmValues(MarketStore.SensingRows + MarketStore.DecidingRows + MarketStore.EffectingRows)))
  {
    var fields := MarketStore.CuasMap.fields;
    assert Lookup(fields, "name") == Lookup(fields[1..], "name");
    assert Lookup(fields, "categories") == Lookup(fields[1..], "categories") == Lookup(fields[2..], "categories");
    assert Lookup(fields, "firms") == Lookup(fields[1..], "firms") == Lookup(fields[2..], "firms") == Lookup(fields[3..], "firms");
  }

  /** The map `CUAS` of the default data is tidy. */
  lemma InitialMapTidy()
    ensures TidyMap(MarketStore.CuasMap)
  {
    CuasFields();
    assert Label("CUAS", LabelCap);
    assert Label("Sensing", LabelCap) && Label("Deciding", LabelCap) && Label("Effecting", LabelCap);
    InitialFirmsTidy();
  }

  /**
   * The maps a first read stores (`initialMarketMapData`, lines 59-92) pass
   * the validation of lines 163-194 and are stored back exactly as they are.
   */
  lemma InitialDataAccepted()
    ensures Validate(Some(MarketStore.InitialMarketMapData)) == Ok(MarketStore.InitialMarketMapData)
  {
    var body := MarketStore.InitialMarketMapData;
    assert Entries(body) == [MarketStore.CuasMap];
    InitialMapTidy();
    TidyBodyUnchanged(Some(body));
  }
}
