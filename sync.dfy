/**
 * The observer's two entry points as functions of the host state:
 * `execute` (the sync decision procedure and the order of its calls) and
 * `importRates` (rate creation and the two tax rules).
 */
module Sync {
  import opened Wrappers
  import opened Php
  import opened ZipCode
  import opened ApiUrls
  import opened Host
  import opened Purging

  const Version := "v2"
  const ImportEvent := "taxjar_salestax_import_rates"
  const ImportAfterEvent := "taxjar_salestax_import_rates_after"
  const UninstalledNotice := "TaxJar has been uninstalled. All tax rates have been removed."
  const DebugNotice := "Debug mode enabled. Tax rates have not been altered."
  const WaitNotice := "Your last rate update was too recent. Please wait at least 5 minutes and try again."
  const RegionMessage := "Please check that you have set a Region/State in Shipping Settings."
  const ZipMessage := "Please check that your zip code is a valid US zip code in Shipping Settings."
  const ImportedNotice := "TaxJar has added new rates to your database! Thanks for using TaxJar!"
  const GeneralRule := "Retail Customer-Taxable Goods-Rate 1"
  const ShippingRule := "Retail Customer-Shipping-Rate 1"

  function WriteMessage(tmpDir: string): string
  {
    "Could not write to your Magento temp directory. Please check permissions for " + tmpDir + "."
  }

  const TempFileBase := "tj_tmp.dat"

  /** `getTempFileName`: the fixed staging file in the host's temp directory. */
  function TempFileName(w: World): (path: string)
    ensures w.tmpDir + w.dirSeparator <= path
    ensures |path| == |w.tmpDir| + |w.dirSeparator| + |TempFileBase|
    ensures path[|path| - |TempFileBase|..] == TempFileBase
  {
    var dir := w.tmpDir + w.dirSeparator;
    assert (dir + TempFileBase)[|dir|..] == TempFileBase;
    dir + TempFileBase
  }

  /** Why `execute` stopped with an exception. */
  datatype Failure = MageException(message: string) | ClientFailure(url: string)

  datatype Outcome = Returned | Threw(failure: Failure)

  datatype Run = Run(outcome: Outcome, state: HostState)

  datatype Imported = Imported(newRates: seq<RateId>, freightTaxableRates: seq<RateId>, state: HostState)

  /** The API key with every whitespace character removed. */
  function ApiKey(s: HostState): string
  {
    StripWhitespace(AsString(Get(s.config, ApiKeyPath)))
  }

  function Region(w: World, s: HostState): Option<string>
  {
    RegionCode(w, Get(s.config, RegionIdPath))
  }

  function StoreZip(s: HostState): Option<string>
  {
    Get(s.config, PostcodePath)
  }

  predicate DebugMode(s: HostState)
  {
    Truthy(AsString(Get(s.config, DebugPath)))
  }

  /** The two sequences of configuration-model calls made on the proceed path. */
  function ConfigWrites(apiKey: string, cfg: RemoteConfig): seq<Effect>
  {
    [ConfigSave(StatesPath, Some(Serialize(Explode(',', cfg.states)))),
     TaxBasisSet(cfg), ShippingTaxabilitySet(cfg), DisplaySettingsSet, ApiSettingsSet(apiKey),
     ConfigSave(FreightTaxablePath, Some(BoolText(cfg.freightTaxable)))]
  }

  /** `execute`, step by step. */
  function ExecuteSpec(w: World, s: HostState): (r: Run)
    ensures !Truthy(ApiKey(s)) ==> r.outcome == Returned
    ensures r.state.config != s.config ==> !Truthy(ApiKey(s)) || (!DebugMode(s) && ValidZip(StoreZip(s)))
    ensures forall x :: x in r.state.rates ==> x in s.rates
  {
    var apiKey := ApiKey(s);
    if !Truthy(apiKey) then Uninstall(w, s)
    else if Region(w, s).None? then Run(Threw(MageException(RegionMessage)), s)
    else Synchronise(w, s, apiKey, Region(w, s).value)
  }

  /** The uninstall branch: notice, purge, `last_update` cleared, cache flushed. */
  function Uninstall(w: World, s: HostState): (r: Run)
    ensures r.outcome == Returned
    ensures s.log + [SessionMessage(Notice, UninstalledNotice)] <= r.state.log
    ensures r.state.log[|r.state.log| - 1] == CacheFlush
    ensures Get(r.state.config, LastUpdatePath) == None && r.state.tempFile == s.tempFile
    ensures forall x :: x in r.state.rates <==> x in s.rates && x in w.rateDeleteFails
  {
    var s1 := Emit(s, SessionMessage(Notice, UninstalledNotice));
    var s2 := Purge(w, s1);
    var s3 := Save(s2, LastUpdatePath, None);
    Run(Returned, Emit(s3, CacheFlush))
  }

  /** With a key and a region: fetch the configuration, the stops, the ZIP check, the rates. */
  function Synchronise(w: World, s: HostState, apiKey: string, region: string): (r: Run)
    ensures r.state.config != s.config ==> !DebugMode(s) && ValidZip(StoreZip(s))
    ensures forall x :: x in r.state.rates ==> x in s.rates
  {
    var configUrl := ConfigUrl(Version, region);
    var s1 := Emit(s, ResourceFetch(apiKey, configUrl));
    if configUrl !in w.configs then Run(Threw(ClientFailure(configUrl)), s1)
    else
      var cfg := w.configs[configUrl];
      if DebugMode(s) then Run(Returned, Emit(s1, SessionMessage(Notice, DebugNotice)))
      else if cfg.waitForRates > 0 then Run(Returned, Emit(s1, SessionMessage(Notice, WaitNotice)))
      else if !ValidZip(StoreZip(s)) then Run(Threw(MageException(ZipMessage)), s1)
      else
        var ratesUrl := RatesUrl(Version, region, StoreZip(s).value);
        var s2 := Emit(s1, ResourceFetch(apiKey, ratesUrl));
        if ratesUrl !in w.rateSets then Run(Threw(ClientFailure(ratesUrl)), s2)
        else Proceed(w, s2, apiKey, cfg, w.rateSets[ratesUrl])
  }

  /** The six configuration-model calls of the proceed path, applied in source order. */
  function ConfigStep(s: HostState, apiKey: string, cfg: RemoteConfig): HostState
  {
    Save(Emit(Emit(Emit(Emit(Save(s, StatesPath, Some(Serialize(Explode(',', cfg.states)))),
                             TaxBasisSet(cfg)), ShippingTaxabilitySet(cfg)), DisplaySettingsSet),
              ApiSettingsSet(apiKey)),
         FreightTaxablePath, Some(BoolText(cfg.freightTaxable)))
  }

  /** The proceed path once both fetches succeeded: writes, purge, staging, event. */
  function Proceed(w: World, s: HostState, apiKey: string, cfg: RemoteConfig, rates: seq<RateJson>): (r: Run)
    ensures r.outcome == Returned <==> w.tempWritable
    ensures Get(r.state.config, StatesPath) == Some(Serialize(Explode(',', cfg.states)))
    ensures Get(r.state.config, FreightTaxablePath) == Some(BoolText(cfg.freightTaxable))
    ensures r.state.tempFile == if w.tempWritable then Some(rates) else s.tempFile
    ensures forall x :: x in r.state.rates <==> x in s.rates && x in w.rateDeleteFails
  {
    var s6 := ConfigStep(s, apiKey, cfg);
    var s7 := Purge(w, s6);
    var s8 := WriteTempStep(w, s7, TempFileName(w), rates);
    if w.tempWritable then Run(Returned, Emit(Emit(s8, EventDispatch(ImportEvent)), CacheFlush))
    else Run(Threw(MageException(WriteMessage(w.tmpDir))), s8)
  }

  // ---- execute: one lemma per exit ----

  /** The uninstall branch on its own: its calls, and the rates it leaves. */
  lemma UninstallEffect(w: World, s: HostState)
    ensures var r := Uninstall(w, s);
      && r.outcome == Returned
      && r.state.log == s.log + [SessionMessage(Notice, UninstalledNotice)] + PurgeEffects(w, s.rates)
                        + [ConfigSave(LastUpdatePath, None), CacheFlush]
      && r.state.config == s.config[LastUpdatePath := None]
      && r.state.tempFile == s.tempFile
      && (forall x :: x in r.state.rates <==> x in s.rates && x in w.rateDeleteFails)
      && (forall e :: e in r.state.log[|s.log|..] ==> !e.ResourceFetch?)
  {
    UninstallLog(w, s);
    PurgeOnlyDeletes(w, s.rates);
    var delta := [SessionMessage(Notice, UninstalledNotice)] + PurgeEffects(w, s.rates)
                 + [ConfigSave(LastUpdatePath, None), CacheFlush];
    assert Uninstall(w, s).state.log[|s.log|..] == delta;
  }

  /** The calls of the uninstall branch, in source order. */
  lemma UninstallLog(w: World, s: HostState)
    ensures Uninstall(w, s).state.log
         == s.log + [SessionMessage(Notice, UninstalledNotice)] + PurgeEffects(w, s.rates)
            + [ConfigSave(LastUpdatePath, None), CacheFlush]
  {
    PurgeResult(w, Emit(s, SessionMessage(Notice, UninstalledNotice)));
  }

  /**
   * A key that is empty, "0" or all whitespace uninstalls: a notice, the
   * purge, `last_update` set to NULL and a cache flush; no remote call.
   */
  lemma UninstallPath(w: World, s: HostState)
    requires !Truthy(ApiKey(s))
    ensures var r := ExecuteSpec(w, s);
      && r.outcome == Returned
      && r.state.log == s.log + [SessionMessage(Notice, UninstalledNotice)] + PurgeEffects(w, s.rates)
                        + [ConfigSave(LastUpdatePath, None), CacheFlush]
      && r.state.config == s.config[LastUpdatePath := None]
      && r.state.tempFile == s.tempFile
      && (forall x :: x in r.state.rates <==> x in s.rates && x in w.rateDeleteFails)
      && (forall e :: e in r.state.log[|s.log|..] ==> !e.ResourceFetch?)
  {
    assert ExecuteSpec(w, s) == Uninstall(w, s);
    UninstallEffect(w, s);
  }

  /** Whitespace anywhere in the key is dropped, so a key of only blanks uninstalls. */
  lemma BlankKeyUninstalls(s: HostState)
    requires forall i :: 0 <= i < |AsString(Get(s.config, ApiKeyPath))| ==> IsSpace(AsString(Get(s.config, ApiKeyPath))[i])
    ensures !Truthy(ApiKey(s))
  {
    StripWhitespaceEmpty(AsString(Get(s.config, ApiKeyPath)));
  }

  /** No region: an exception before any remote call or change. */
  lemma MissingRegion(w: World, s: HostState)
    requires Truthy(ApiKey(s)) && Region(w, s).None?
    ensures ExecuteSpec(w, s) == Run(Threw(MageException(RegionMessage)), s)
  {
  }

  /** Debug mode still fetches the configuration once, then only adds a notice. */
  lemma DebugStop(w: World, s: HostState)
    requires Truthy(ApiKey(s)) && Region(w, s).Some?
    requires ConfigUrl(Version, Region(w, s).value) in w.configs
    requires DebugMode(s)
    ensures ExecuteSpec(w, s)
         == Run(Returned, s.(log := s.log + [ResourceFetch(ApiKey(s), ConfigUrl(Version, Region(w, s).value)),
                                             SessionMessage(Notice, DebugNotice)]))
  {
    assert ExecuteSpec(w, s) == Synchronise(w, s, ApiKey(s), Region(w, s).value);
  }

  /** A positive `wait_for_rates` stops after the configuration fetch with a notice. */
  lemma WaitStop(w: World, s: HostState)
    requires Truthy(ApiKey(s)) && Region(w, s).Some?
    requires ConfigUrl(Version, Region(w, s).value) in w.configs
    requires !DebugMode(s) && w.configs[ConfigUrl(Version, Region(w, s).value)].waitForRates > 0
    ensures ExecuteSpec(w, s)
         == Run(Returned, s.(log := s.log + [ResourceFetch(ApiKey(s), ConfigUrl(Version, Region(w, s).value)),
                                             SessionMessage(Notice, WaitNotice)]))
  {
    assert ExecuteSpec(w, s) == Synchronise(w, s, ApiKey(s), Region(w, s).value);
  }

  /** A rejected ZIP throws after the configuration fetch and before any write or purge. */
  lemma ZipRejected(w: World, s: HostState)
    requires Truthy(ApiKey(s)) && Region(w, s).Some?
    requires ConfigUrl(Version, Region(w, s).value) in w.configs
    requires !DebugMode(s) && w.configs[ConfigUrl(Version, Region(w, s).value)].waitForRates <= 0
    requires StoreZip(s).None? || !ContainsFiveDigits(StoreZip(s).value)
    ensures ExecuteSpec(w, s)
         == Run(Threw(MageException(ZipMessage)),
                s.(log := s.log + [ResourceFetch(ApiKey(s), ConfigUrl(Version, Region(w, s).value))]))
  {
    assert ExecuteSpec(w, s) == Synchronise(w, s, ApiKey(s), Region(w, s).value);
    ValidZipIff(StoreZip(s));
  }

  /** The configuration calls are logged in order; only `states` and `freight_taxable` are stored. */
  lemma ConfigStepEffect(s: HostState, apiKey: string, cfg: RemoteConfig)
    ensures ConfigStep(s, apiKey, cfg)
         == s.(config := s.config[StatesPath := Some(Serialize(Explode(',', cfg.states)))]
                                 [FreightTaxablePath := Some(BoolText(cfg.freightTaxable))],
               log := s.log + ConfigWrites(apiKey, cfg))
  {
  }

  /**
   * After both fetches: the configuration writes in source order, the purge
   * of the rates held at that point, the temp-file write, then the import
   * event and the flush, or an exception after the purge when the write fails.
   */
  lemma ProceedEffect(w: World, s: HostState, apiKey: string, cfg: RemoteConfig, rates: seq<RateJson>)
    ensures var r := Proceed(w, s, apiKey, cfg, rates);
      && r.outcome == (if w.tempWritable then Returned else Threw(MageException(WriteMessage(w.tmpDir))))
      && r.state.log == s.log + ConfigWrites(apiKey, cfg) + PurgeEffects(w, s.rates)
                        + [TempWrite(TempFileName(w), rates)]
                        + (if w.tempWritable then [EventDispatch(ImportEvent), CacheFlush] else [])
      && r.state.config == s.config[StatesPath := Some(Serialize(Explode(',', cfg.states)))]
                                   [FreightTaxablePath := Some(BoolText(cfg.freightTaxable))]
      && (forall x :: x in r.state.rates <==> x in s.rates && x in w.rateDeleteFails)
      && r.state.tempFile == (if w.tempWritable then Some(rates) else s.tempFile)
  {
    var s6 := ConfigStep(s, apiKey, cfg);
    ConfigStepEffect(s, apiKey, cfg);
    PurgeResult(w, s6);
    var s8 := WriteTempStep(w, Purge(w, s6), TempFileName(w), rates);
    assert Proceed(w, s, apiKey, cfg, rates)
        == if w.tempWritable then Run(Returned, Emit(Emit(s8, EventDispatch(ImportEvent)), CacheFlush))
           else Run(Threw(MageException(WriteMessage(w.tmpDir))), s8);
  }

  /**
   * The whole proceed path: the configuration fetch, the rates fetch (with
   * the ZIP as stored), then everything `ProceedEffect` states.
   */
  lemma ProceedPath(w: World, s: HostState)
    requires Truthy(ApiKey(s)) && Region(w, s).Some?
    requires ConfigUrl(Version, Region(w, s).value) in w.configs
    requires !DebugMode(s) && w.configs[ConfigUrl(Version, Region(w, s).value)].waitForRates <= 0
    requires StoreZip(s).Some? && ContainsFiveDigits(StoreZip(s).value)
    requires RatesUrl(Version, Region(w, s).value, StoreZip(s).value) in w.rateSets
    ensures var configUrl := ConfigUrl(Version, Region(w, s).value);
      var ratesUrl := RatesUrl(Version, Region(w, s).value, StoreZip(s).value);
      ExecuteSpec(w, s)
        == Proceed(w, Emit(Emit(s, ResourceFetch(ApiKey(s), configUrl)), ResourceFetch(ApiKey(s), ratesUrl)),
                   ApiKey(s), w.configs[configUrl], w.rateSets[ratesUrl])
  {
    ValidZipIff(StoreZip(s));
    assert ExecuteSpec(w, s) == Synchronise(w, s, ApiKey(s), Region(w, s).value);
  }

  // ---- importRates ----

  /** PHP truthiness of an id returned by `create`: set and non-zero. */
  predicate IdTruthy(id: Option<RateId>)
  {
    id.Some? && id.value != 0
  }

  /** The id kept from one `create` call: the general one, or the freight-taxable one. */
  function Pick(w: World, rate: RateJson, shipping: bool): seq<RateId>
  {
    var c := CreateResult(w, rate);
    var id := if shipping then c.shippingRateId else c.rateId;
    if IdTruthy(id) then [id.value] else []
  }

  /** The ids collected by the `foreach` of `importRates`, in visiting order. */
  function Picked(w: World, rates: seq<RateJson>, shipping: bool): (ids: seq<RateId>)
    ensures |ids| <= |rates|
    ensures forall k :: 0 <= k < |ids| ==> ids[k] != 0
  {
    if rates == [] then []
    else Picked(w, rates[..|rates| - 1], shipping) + Pick(w, rates[|rates| - 1], shipping)
  }

  /** One `create` call per staged record, in order. */
  function CreateEffects(rates: seq<RateJson>): (log: seq<Effect>)
    ensures |log| == |rates|
    ensures forall k :: 0 <= k < |rates| ==> log[k] == RateCreation(rates[k])
  {
    if rates == [] then [] else CreateEffects(rates[..|rates| - 1]) + [RateCreation(rates[|rates| - 1])]
  }

  /**
   * One more pass of the `foreach`: the ids and the calls the first `i + 1`
   * records give, from those of the first `i`.
   */
  lemma ImportStep(w: World, prefix: seq<Effect>, rates: seq<RateJson>, i: nat)
    requires i < |rates|
    ensures var id := CreateResult(w, rates[i]).rateId;
      Picked(w, rates[..i + 1], false)
        == if IdTruthy(id) then Picked(w, rates[..i], false) + [id.value] else Picked(w, rates[..i], false)
    ensures var id := CreateResult(w, rates[i]).shippingRateId;
      Picked(w, rates[..i + 1], true)
        == if IdTruthy(id) then Picked(w, rates[..i], true) + [id.value] else Picked(w, rates[..i], true)
    ensures prefix + CreateEffects(rates[..i + 1]) == prefix + CreateEffects(rates[..i]) + [RateCreation(rates[i])]
  {
    assert rates[..i + 1][..i] == rates[..i];
    var general := Picked(w, rates[..i], false);
    var freight := Picked(w, rates[..i], true);
    assert general + [] == general;
    assert freight + [] == freight;
  }

  /** `importRates`, step by step; `date` stands for `date('m-d-Y')`. */
  function ImportSpec(w: World, s: HostState, date: string): (r: Imported)
    ensures s.log <= r.state.log
    ensures Get(r.state.config, LastUpdatePath) == Some(date)
    ensures r.state.rates == s.rates && r.state.tempFile.None?
    ensures |r.newRates| + |r.freightTaxableRates| <= 2 * |if s.tempFile.Some? then s.tempFile.value else []|
  {
    var shippingTaxable := Truthy(AsString(Get(s.config, FreightTaxablePath)));
    var payload := if s.tempFile.Some? then s.tempFile.value else [];
    var general := Picked(w, payload, false);
    var freight := Picked(w, payload, true);
    var created := s.(log := s.log + CreateEffects(payload));
    Imported(general, freight, FinishImport(w, created, date, shippingTaxable, general, freight))
  }

  /** What `importRates` does after its loop: the date, the rules, the clean-up. */
  function FinishImport(w: World, s: HostState, date: string, shippingTaxable: bool,
                        general: seq<RateId>, freight: seq<RateId>): (r: HostState)
    ensures s.log <= r.log
    ensures Get(r.config, LastUpdatePath) == Some(date)
    ensures r.rates == s.rates && r.tempFile.None?
  {
    var s1 := Save(s, LastUpdatePath, Some(date));
    var s2 := Emit(s1, RuleCreation(GeneralRule, 2, 1, general));
    var s3 := if shippingTaxable then Emit(s2, RuleCreation(ShippingRule, 4, 2, freight)) else s2;
    var s4 := RemoveTempStep(s3, TempFileName(w));
    Emit(Emit(s4, SessionMessage(Success, ImportedNotice)), EventDispatch(ImportAfterEvent))
  }

  /** Collecting ids piece by piece: the lists keep the order of the records. */
  lemma {:induction false} PickedAppend(w: World, a: seq<RateJson>, b: seq<RateJson>, shipping: bool)
    ensures Picked(w, a + b, shipping) == Picked(w, a, shipping) + Picked(w, b, shipping)
    decreases |b|
  {
    if b != [] {
      var ab := a + b;
      assert ab[..|ab| - 1] == a + b[..|b| - 1];
      assert ab[|ab| - 1] == b[|b| - 1];
      PickedAppend(w, a, b[..|b| - 1], shipping);
    } else {
      assert a + b == a;
    }
  }

  /** An id is collected exactly when some record's `create` returned it as a truthy id. */
  lemma {:induction false} PickedMembers(w: World, rates: seq<RateJson>, shipping: bool)
    ensures forall id :: id in Picked(w, rates, shipping) <==>
      exists k :: 0 <= k < |rates| && Pick(w, rates[k], shipping) == [id]
  {
    if rates != [] {
      var init := rates[..|rates| - 1];
      PickedMembers(w, init, shipping);
      forall id
        ensures id in Picked(w, rates, shipping) <==> exists k :: 0 <= k < |rates| && Pick(w, rates[k], shipping) == [id]
      {
        if id in Picked(w, init, shipping) {
          var k :| 0 <= k < |init| && Pick(w, init[k], shipping) == [id];
          assert rates[k] == init[k];
        }
        if exists k :: 0 <= k < |rates| && Pick(w, rates[k], shipping) == [id] {
          var k :| 0 <= k < |rates| && Pick(w, rates[k], shipping) == [id];
          if k < |init| {
            assert init[k] == rates[k];
          }
        }
      }
    }
  }

  /** The calls after the loop, in source order; only `last_update` and the temp file change. */
  lemma FinishImportEffect(w: World, s: HostState, date: string, shippingTaxable: bool,
                           general: seq<RateId>, freight: seq<RateId>)
    ensures var r := FinishImport(w, s, date, shippingTaxable, general, freight);
      && r.log == s.log
           + [ConfigSave(LastUpdatePath, Some(date)), RuleCreation(GeneralRule, 2, 1, general)]
           + (if shippingTaxable then [RuleCreation(ShippingRule, 4, 2, freight)] else [])
           + [TempRemoval(TempFileName(w)), SessionMessage(Success, ImportedNotice), EventDispatch(ImportAfterEvent)]
      && r.config == s.config[LastUpdatePath := Some(date)]
      && r.rates == s.rates && r.tempFile.None?
  {
    var s2 := Emit(Save(s, LastUpdatePath, Some(date)), RuleCreation(GeneralRule, 2, 1, general));
    assert s2.log == s.log + [ConfigSave(LastUpdatePath, Some(date)), RuleCreation(GeneralRule, 2, 1, general)];
  }

  /**
   * The calls of `importRates`: one `create` per staged record, `last_update`,
   * the general rule with exactly the general ids (even when there are
   * none), the shipping rule only when `freight_taxable` is truthy, the
   * temp-file removal, the success message and the completion event.
   */
  lemma ImportCalls(w: World, s: HostState, date: string)
    ensures var payload := if s.tempFile.Some? then s.tempFile.value else [];
      var r := ImportSpec(w, s, date);
      && r.newRates == Picked(w, payload, false)
      && r.freightTaxableRates == Picked(w, payload, true)
      && r.state.log == s.log + CreateEffects(payload)
           + [ConfigSave(LastUpdatePath, Some(date)), RuleCreation(GeneralRule, 2, 1, r.newRates)]
           + (if Truthy(AsString(Get(s.config, FreightTaxablePath)))
              then [RuleCreation(ShippingRule, 4, 2, r.freightTaxableRates)] else [])
           + [TempRemoval(TempFileName(w)), SessionMessage(Success, ImportedNotice), EventDispatch(ImportAfterEvent)]
      && r.state.config == s.config[LastUpdatePath := Some(date)]
      && r.state.rates == s.rates && r.state.tempFile.None?
  {
    var payload := if s.tempFile.Some? then s.tempFile.value else [];
    FinishImportEffect(w, s.(log := s.log + CreateEffects(payload)), date,
                       Truthy(AsString(Get(s.config, FreightTaxablePath))),
                       Picked(w, payload, false), Picked(w, payload, true));
  }

  /**
   * A successful sync followed by an import in a later request, on the state
   * the sync left: the rules are built from the records just fetched, and the
   * shipping rule exists iff the remote configuration said freight is taxable.
   * The import dispatched inside the same request is not this case.
   */
  lemma SyncThenImport(w: World, s: HostState, date: string)
    requires Truthy(ApiKey(s)) && Region(w, s).Some?
    requires ConfigUrl(Version, Region(w, s).value) in w.configs
    requires !DebugMode(s) && w.configs[ConfigUrl(Version, Region(w, s).value)].waitForRates <= 0
    requires StoreZip(s).Some? && ContainsFiveDigits(StoreZip(s).value)
    requires RatesUrl(Version, Region(w, s).value, StoreZip(s).value) in w.rateSets
    requires w.tempWritable
    ensures var cfg := w.configs[ConfigUrl(Version, Region(w, s).value)];
      var rates := w.rateSets[RatesUrl(Version, Region(w, s).value, StoreZip(s).value)];
      var mid := ExecuteSpec(w, s).state;
      var r := ImportSpec(w, mid, date);
      && r.newRates == Picked(w, rates, false)
      && r.freightTaxableRates == Picked(w, rates, true)
      && r.state.log == mid.log + CreateEffects(rates)
           + [ConfigSave(LastUpdatePath, Some(date)), RuleCreation(GeneralRule, 2, 1, r.newRates)]
           + (if cfg.freightTaxable then [RuleCreation(ShippingRule, 4, 2, r.freightTaxableRates)] else [])
           + [TempRemoval(TempFileName(w)), SessionMessage(Success, ImportedNotice), EventDispatch(ImportAfterEvent)]
  {
    var configUrl := ConfigUrl(Version, Region(w, s).value);
    var ratesUrl := RatesUrl(Version, Region(w, s).value, StoreZip(s).value);
    var cfg := w.configs[configUrl];
    ProceedPath(w, s);
    ProceedEffect(w, Emit(Emit(s, ResourceFetch(ApiKey(s), configUrl)), ResourceFetch(ApiKey(s), ratesUrl)),
                  ApiKey(s), cfg, w.rateSets[ratesUrl]);
    var mid := ExecuteSpec(w, s).state;
    assert Get(mid.config, FreightTaxablePath) == Some(BoolText(cfg.freightTaxable));
    ImportCalls(w, mid, date);
  }
}
