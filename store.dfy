/**
 * The persistence of the data API (api/data.js, `getMarketMaps` and
 * `setMarketMaps`) against an abstract store: one cell holding the value
 * stored under the key `market_maps`, and the log of values published on
 * the channel `market_maps_updated`. Whether the store fails is an input:
 * `readFails` stands for any error while connecting or reading, and a
 * `WriteFault` says which step of a write fails, if any.
 */
module MarketStore {
  import opened Options
  import opened JsonValue

  datatype WriteFault = Written | SetFails | PublishFails

  /** One firm literal of the default data; only some of them carry a `product`. */
  datatype FirmRow = FirmRow(id: string, name: string, category: string, subcategory: string, product: Option<string>)

  /** The firm object a row writes, its properties in source order. */
  function FirmValue(row: FirmRow): Json {
    var fields := [("id", JStr(row.id)), ("name", JStr(row.name)), ("category", JStr(row.category)),
                   ("subcategory", JStr(row.subcategory))];
    JObj(if row.product.Some? then fields + [("product", JStr(row.product.value))] else fields)
  }

  function FirmValues(rows: seq<FirmRow>): (r: seq<Json>)
    ensures |r| == |rows| && forall i :: 0 <= i < |rows| ==> r[i] == FirmValue(rows[i])
  {
    seq(|rows|, i requires 0 <= i < |rows| => FirmValue(rows[i]))
  }

  /** The eight firms of the `Sensing` category (lines 65-73). */
  const SensingRows: seq<FirmRow> := [
    FirmRow("s1", "Chaos Industries", "Sensing", "Radar", None),
    FirmRow("s2", "Fortem Technologies", "Sensing", "Radar", None),
    FirmRow("s3", "Hidden Level", "Sensing", "Radar", None),
    FirmRow("s4", "MatrixSpace", "Sensing", "Radar", None),
    FirmRow("s5", "BLUEiQ", "Sensing", "Acoustic", None),
    FirmRow("s6", "Sky Fortress", "Sensing", "Acoustic", None),
    FirmRow("s7", "Squarehead Technology", "Sensing", "Acoustic", None),
    FirmRow("s8", "Enigma", "Sensing", "Crowdsourcing", None)
  ]

  /** The seven firms of the `Deciding` category (lines 74-81). */
  const DecidingRows: seq<FirmRow> := [
    FirmRow("d1", "Project Jeff Maas (DZYNE)", "Deciding", "Fire Control", None),
    FirmRow("d2", "SmartShooter", "Deciding", "Fire Control", None),
    FirmRow("d3", "ZeroMark", "Deciding", "Fire Control", None),
    FirmRow("d4", "Anduril Lattice", "Deciding", "C2", None),
    FirmRow("d5", "Dedrone", "Deciding", "C2", None),
    FirmRow("d6", "Northrop Grumman", "Deciding", "C2", Some("FAAD C2")),
    FirmRow("d7", "Palantir Maven Smart System", "Deciding", "C2", None)
  ]

  /** The seven firms of the `Effecting` category (lines 82-89). */
  const EffectingRows: seq<FirmRow> := [
    FirmRow("e1", "Thor Dynamics", "Effecting", "Laser", None),
    FirmRow("e2", "Anduril Pulsar", "Effecting", "Electronic Attack (jamming)", None),
    FirmRow("e3", "DZYNE", "Effecting", "Electronic Attack (jamming)", Some("Dronebuster")),
    FirmRow("e4", "Epirus", "Effecting", "HPM (High Power Microwave)", Some("Leonidas")),
    FirmRow("e5", "Project Brendan Nunan (PSI)", "Effecting", "HPM (High Power Microwave)", None),
    FirmRow("e6", "Hondoq", "Effecting", "EMP (Electro-Magnetic Pulse)", None),
    FirmRow("e7", "D-fend Solutions", "Effecting", "Cyber", None)
  ]

  /** The map `CUAS` (lines 60-91). */
  const CuasMap: Json :=
    JObj([
      ("id", JStr("CUAS")),
      ("name", JStr("CUAS")),
      ("categories", JArr([JStr("Sensing"), JStr("Deciding"), JStr("Effecting")])),
      ("firms", JArr(FirmValues(SensingRows + DecidingRows + EffectingRows)))
    ])

  /** `initialMarketMapData` (lines 59-92): the single map `CUAS` with its 22 firms, in source order. */
  const InitialMarketMapData: Json := JObj([("CUAS", CuasMap)])

  class Store {
    /** The value under `market_maps`, already parsed; `None` when the key is absent. */
    var cell: Option<Json>
    /** Every value published on `market_maps_updated`, oldest first. */
    var published: seq<Json>

    constructor (initial: Option<Json>)
      ensures cell == initial && published == []
    {
      cell := initial;
      published := [];
    }

    /**
     * `setMarketMaps` (lines 116-129): store the value, then publish the
     * same value. A failing step raises, and nothing after it happens; the
     * caller sees the failure as `ok == false`.
     */
    method SetMarketMaps(marketMaps: Json, fault: WriteFault) returns (ok: bool)
      modifies this
      ensures ok <==> fault == Written
      ensures cell == (if fault == SetFails then old(cell) else Some(marketMaps))
      ensures published == (if fault == Written then old(published) + [marketMaps] else old(published))
    {
      if fault == SetFails {
        return false;
      }
      cell := Some(marketMaps);
      if fault == PublishFails {
        return false;
      }
      published := published + [marketMaps];
      return true;
    }

    /**
     * `getMarketMaps` (lines 95-113): the stored value; on an empty store,
     * the initial data, written back first (a failure of that write is
     * caught and the initial data is still returned); on a read error, the
     * initial data with nothing written. It never raises.
     */
    method GetMarketMaps(readFails: bool, initFault: WriteFault) returns (marketMaps: Json)
      modifies this
      ensures readFails ==> marketMaps == InitialMarketMapData && cell == old(cell) && published == old(published)
      ensures !readFails && old(cell).Some? ==>
        marketMaps == old(cell).value && cell == old(cell) && published == old(published)
      ensures !readFails && old(cell).None? ==>
        && marketMaps == InitialMarketMapData
        && cell == (if initFault == SetFails then None else Some(InitialMarketMapData))
        && published == (if initFault == Written then old(published) + [InitialMarketMapData] else old(published))
    {
      if readFails {
        return InitialMarketMapData;
      }
      if cell.Some? {
        return cell.value;
      }
      var _ := SetMarketMaps(InitialMarketMapData, initFault);
      return InitialMarketMapData;
    }
  }
}
