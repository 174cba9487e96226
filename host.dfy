/**
 * The Magento host as the observer sees it: the configuration store, the
 * table of TaxJar-managed tax rates, the staging temp file, and an ordered
 * log of every call made into the host (remote fetches, configuration
 * writes, deletions, session messages, events, cache flushes).
 *
 * Answers the observer cannot predict (region lookup, remote responses,
 * which deletions fail, whether the temp file can be written, what
 * `taxjar/rate->create` returns) come from a fixed `World`.
 */
module Host {
  import opened Wrappers

  type RateId = int

  /** The `configuration` member of the remote configuration response. */
  datatype RemoteConfig = RemoteConfig(
    states: string,              // comma-separated state codes
    freightTaxable: bool,
    waitForRates: int,
    settings: map<string, string>)  // the fields read by the foreign taxjar/configuration model

  /** One per-jurisdiction record of the remote `rates` list. */
  datatype RateJson = RateJson(fields: map<string, string>)

  /** What `taxjar/rate->create` returns: the general and the freight-taxable rate id. */
  datatype Created = Created(rateId: Option<RateId>, shippingRateId: Option<RateId>)

  datatype MessageKind = Notice | Error | Success

  /** One call into the host, in the order it was made. */
  datatype Effect =
    | ResourceFetch(apiKey: string, url: string)
    | ConfigSave(path: string, value: Option<string>)
    | TaxBasisSet(config: RemoteConfig)
    | ShippingTaxabilitySet(config: RemoteConfig)
    | DisplaySettingsSet
    | ApiSettingsSet(apiKey: string)
    | LinkDeletion(rate: RateId)
    | RateDeletion(rate: RateId)
    | TempWrite(path: string, payload: seq<RateJson>)
    | TempRemoval(path: string)
    | RateCreation(record: RateJson)
    | RuleCreation(code: string, customerClass: int, productClass: int, rateIds: seq<RateId>)
    | SessionMessage(kind: MessageKind, text: string)
    | EventDispatch(name: string)
    | CacheFlush

  /** The answers of the host and of the remote API. */
  datatype World = World(
    regionCodes: map<string, string>,         // directory/region: region id to region code
    configs: map<string, RemoteConfig>,       // configuration responses by URL; a missing URL fails
    rateSets: map<string, seq<RateJson>>,     // rates responses by URL; a missing URL fails
    tmpDir: string,                           // Mage::getBaseDir('tmp')
    dirSeparator: string,                     // DS, the platform's directory separator
    tempWritable: bool,                       // whether file_put_contents succeeds
    linkDeleteFails: set<RateId>,             // rates whose tax/calculation delete throws
    rateDeleteFails: set<RateId>,             // rates whose own delete throws
    created: map<RateJson, Created>)          // taxjar/rate->create; a missing record gives no ids

  datatype HostState = HostState(
    config: map<string, Option<string>>,      // store configuration; None is a stored NULL
    rates: seq<RateId>,                       // TaxJar-managed rates, in collection order
    tempFile: Option<seq<RateJson>>,          // the staged rates, when the temp file exists
    log: seq<Effect>)

  const ApiKeyPath := "taxjar/config/apikey"
  const DebugPath := "taxjar/config/debug"
  const LastUpdatePath := "taxjar/config/last_update"
  const StatesPath := "taxjar/config/states"
  const FreightTaxablePath := "taxjar/config/freight_taxable"
  const RegionIdPath := "shipping/origin/region_id"
  const PostcodePath := "shipping/origin/postcode"

  /** `Mage::getStoreConfig`: an unset path reads as NULL. */
  function Get(config: map<string, Option<string>>, path: string): Option<string>
  {
    if path in config then config[path] else None
  }

  /** `directory/region->load($regionId)->getCode()`: NULL for no region or an unknown id. */
  function RegionCode(w: World, regionId: Option<string>): Option<string>
  {
    if regionId.Some? && regionId.value in w.regionCodes then Some(w.regionCodes[regionId.value]) else None
  }

  function CreateResult(w: World, rate: RateJson): Created
  {
    if rate in w.created then w.created[rate] else Created(None, None)
  }

  /** The rates left after deleting the ids in `gone`, in their order. */
  function Without(rates: seq<RateId>, gone: set<RateId>): (r: seq<RateId>)
    ensures forall x :: x in r <==> x in rates && x !in gone
    ensures |r| <= |rates|
  {
    if rates == [] then []
    else (if rates[0] in gone then [] else [rates[0]]) + Without(rates[1..], gone)
  }

  lemma {:induction false} WithoutTwice(rates: seq<RateId>, a: set<RateId>, b: set<RateId>)
    ensures Without(Without(rates, a), b) == Without(rates, a + b)
  {
    if rates != [] {
      WithoutTwice(rates[1..], a, b);
      var head := if rates[0] in a then [] else [rates[0]];
      assert Without(head + Without(rates[1..], a), b)
          == Without(head, b) + Without(Without(rates[1..], a), b) by {
        WithoutAppend(head, Without(rates[1..], a), b);
      }
    }
  }

  lemma {:induction false} WithoutAppend(x: seq<RateId>, y: seq<RateId>, gone: set<RateId>)
    ensures Without(x + y, gone) == Without(x, gone) + Without(y, gone)
  {
    if x == [] {
      assert x + y == y;
    } else {
      assert (x + y)[1..] == x[1..] + y;
      WithoutAppend(x[1..], y, gone);
    }
  }

  // The effect of each host call on the host state.

  function Emit(s: HostState, e: Effect): HostState
  {
    s.(log := s.log + [e])
  }

  /** `core/config->saveConfig($path, $value)`. */
  function Save(s: HostState, path: string, value: Option<string>): HostState
  {
    s.(config := s.config[path := value], log := s.log + [ConfigSave(path, value)])
  }

  /** `$rate->delete()`: the record goes unless the delete throws. */
  function DeleteRateStep(w: World, s: HostState, r: RateId): HostState
  {
    var s1 := Emit(s, RateDeletion(r));
    if r in w.rateDeleteFails then s1 else s1.(rates := Without(s1.rates, {r}))
  }

  /** `file_put_contents($path, serialize($rates))`. */
  function WriteTempStep(w: World, s: HostState, path: string, rates: seq<RateJson>): HostState
  {
    var s1 := Emit(s, TempWrite(path, rates));
    if w.tempWritable then s1.(tempFile := Some(rates)) else s1
  }

  /** `@unlink($path)`. */
  function RemoveTempStep(s: HostState, path: string): HostState
  {
    Emit(s, TempRemoval(path)).(tempFile := None)
  }

  /** The host, with the state the observer changes. */
  class Magento {
    const world: World
    var config: map<string, Option<string>>
    var rates: seq<RateId>
    var tempFile: Option<seq<RateJson>>
    var log: seq<Effect>

    function Snapshot(): HostState
      reads this
    {
      HostState(config, rates, tempFile, log)
    }

    constructor (world: World, config: map<string, Option<string>>, rates: seq<RateId>)
      ensures this.world == world
      ensures Snapshot() == HostState(config, rates, None, [])
    {
      this.world := world;
      this.config := config;
      this.rates := rates;
      this.tempFile := None;
      this.log := [];
    }

    function GetStoreConfig(path: string): Option<string>
      reads this
    {
      Get(config, path)
    }

    /** A call whose only trace is its place in the log (a message, an event, a setter). */
    method Record(e: Effect)
      modifies this
      ensures Snapshot() == Emit(old(Snapshot()), e)
    {
      log := log + [e];
    }

    method SaveConfig(path: string, value: Option<string>)
      modifies this
      ensures Snapshot() == Save(old(Snapshot()), path, value)
    {
      config := config[path := value];
      log := log + [ConfigSave(path, value)];
    }

    /** `$client->getResource($apiKey, $url)['configuration']`; None when the call fails. */
    method FetchConfiguration(apiKey: string, url: string) returns (r: Option<RemoteConfig>)
      modifies this
      ensures r.Some? <==> url in world.configs
      ensures r.Some? ==> r.value == world.configs[url]
      ensures Snapshot() == Emit(old(Snapshot()), ResourceFetch(apiKey, url))
    {
      log := log + [ResourceFetch(apiKey, url)];
      r := if url in world.configs then Some(world.configs[url]) else None;
    }

    /** `$client->getResource($apiKey, $url)`, keeping its `rates` list; None when the call fails. */
    method FetchRates(apiKey: string, url: string) returns (r: Option<seq<RateJson>>)
      modifies this
      ensures r.Some? <==> url in world.rateSets
      ensures r.Some? ==> r.value == world.rateSets[url]
      ensures Snapshot() == Emit(old(Snapshot()), ResourceFetch(apiKey, url))
    {
      log := log + [ResourceFetch(apiKey, url)];
      r := if url in world.rateSets then Some(world.rateSets[url]) else None;
    }

    /** Load and delete the tax/calculation row of a rate; false when it throws. */
    method DeleteLink(r: RateId) returns (ok: bool)
      modifies this
      ensures ok <==> r !in world.linkDeleteFails
      ensures Snapshot() == Emit(old(Snapshot()), LinkDeletion(r))
    {
      log := log + [LinkDeletion(r)];
      ok := r !in world.linkDeleteFails;
    }

    /** Delete a rate record; false when it throws. */
    method DeleteRate(r: RateId) returns (ok: bool)
      modifies this
      ensures ok <==> r !in world.rateDeleteFails
      ensures Snapshot() == DeleteRateStep(world, old(Snapshot()), r)
    {
      log := log + [RateDeletion(r)];
      ok := r !in world.rateDeleteFails;
      if ok {
        rates := Without(rates, {r});
      }
    }

    method WriteTemp(path: string, payload: seq<RateJson>) returns (ok: bool)
      modifies this
      ensures ok == world.tempWritable
      ensures Snapshot() == WriteTempStep(world, old(Snapshot()), path, payload)
    {
      log := log + [TempWrite(path, payload)];
      ok := world.tempWritable;
      if ok {
        tempFile := Some(payload);
      }
    }

    /**
     * `unserialize(file_get_contents($path))['rates']`: a missing file reads
     * as false, and iterating over its `rates` visits nothing.
     */
    function ReadTemp(): seq<RateJson>
      reads this
    {
      if tempFile.Some? then tempFile.value else []
    }

    method RemoveTemp(path: string)
      modifies this
      ensures Snapshot() == RemoveTempStep(old(Snapshot()), path)
    {
      log := log + [TempRemoval(path)];
      tempFile := None;
    }

    method CreateRate(rate: RateJson) returns (c: Created)
      modifies this
      ensures c == CreateResult(world, rate)
      ensures Snapshot() == Emit(old(Snapshot()), RateCreation(rate))
    {
      log := log + [RateCreation(rate)];
      c := CreateResult(world, rate);
    }
  }
}
