/**
 * `Taxjar_SalesTax_Model_Observer`: the object the host calls on a
 * configuration save (`execute`) and on the import event (`importRates`).
 * Its fields are the ones the PHP code sets as it goes.
 */
module SalesTax {
  import opened Wrappers
  import opened Php
  import opened ZipCode
  import ApiUrls
  import opened Host
  import opened Purging
  import opened Sync

  class Observer {
    const host: Magento
    var version: string
    var regionCode: Option<string>
    var storeZip: Option<string>
    var newRates: seq<RateId>
    var freightTaxableRates: seq<RateId>

    constructor (host: Magento)
      ensures this.host == host
      ensures version == "" && regionCode.None? && storeZip.None?
      ensures newRates == [] && freightTaxableRates == []
    {
      this.host := host;
      version := "";
      regionCode := None;
      storeZip := None;
      newRates := [];
      freightTaxableRates := [];
    }

    /** `apiUrl($type)` on the version, region code and ZIP set by `execute`. */
    function ApiUrl(kind: string): (url: Option<string>)
      reads this
    {
      ApiUrls.ApiUrl(version, kind, AsString(regionCode), AsString(storeZip))
    }

    /**
     * `execute`: strip the key, then uninstall, throw on a missing region,
     * stop for debug or wait, throw on a bad ZIP, or fetch, write, purge and
     * stage the rates.
     */
    method Execute() returns (outcome: Outcome)
      modifies this, host
      ensures Run(outcome, host.Snapshot()) == ExecuteSpec(host.world, old(host.Snapshot()))
      ensures Truthy(ApiKey(old(host.Snapshot()))) ==>
        && version == Version
        && storeZip == StoreZip(old(host.Snapshot()))
        && regionCode == Region(host.world, old(host.Snapshot()))
      ensures !Truthy(ApiKey(old(host.Snapshot()))) ==>
        version == old(version) && storeZip == old(storeZip) && regionCode == old(regionCode)
      ensures newRates == old(newRates) && freightTaxableRates == old(freightTaxableRates)
    {
      ghost var initial := host.Snapshot();
      var apiKey := StripWhitespace(AsString(host.GetStoreConfig(ApiKeyPath)));
      if Truthy(apiKey) {
        version := Version;
        var regionId := host.GetStoreConfig(RegionIdPath);
        storeZip := host.GetStoreConfig(PostcodePath);
        regionCode := RegionCode(host.world, regionId);
        var validZip := PregMatch(AsString(storeZip));
        var debug := Truthy(AsString(host.GetStoreConfig(DebugPath)));

        if regionCode.None? {
          return Threw(MageException(RegionMessage));
        }
        assert ExecuteSpec(host.world, initial) == Synchronise(host.world, initial, apiKey, regionCode.value);
        var configUrl := ApiUrl("config").value;
        var configJson := host.FetchConfiguration(apiKey, configUrl);
        if configJson.None? {
          return Threw(ClientFailure(configUrl));
        }
        var cfg := configJson.value;

        if debug {
          host.Record(SessionMessage(Notice, DebugNotice));
          return Returned;
        }
        if cfg.waitForRates > 0 {
          host.Record(SessionMessage(Notice, WaitNotice));
          return Returned;
        }
        if !(validZip == 1 && storeZip.Some? && Trim(storeZip.value) != "") {
          return Threw(MageException(ZipMessage));
        }
        var ratesUrl := ApiUrl("rates").value;
        var ratesJson := host.FetchRates(apiKey, ratesUrl);
        if ratesJson.None? {
          return Threw(ClientFailure(ratesUrl));
        }

        ghost var fetched := host.Snapshot();
        assert Synchronise(host.world, initial, apiKey, regionCode.value)
            == Proceed(host.world, fetched, apiKey, cfg, ratesJson.value);
        host.SaveConfig(StatesPath, Some(Serialize(Explode(',', cfg.states))));
        host.Record(TaxBasisSet(cfg));
        host.Record(ShippingTaxabilitySet(cfg));
        host.Record(DisplaySettingsSet);
        host.Record(ApiSettingsSet(apiKey));
        host.SaveConfig(FreightTaxablePath, Some(BoolText(cfg.freightTaxable)));
        assert host.Snapshot() == ConfigStep(fetched, apiKey, cfg);
        PurgeExisting();

        var written := host.WriteTemp(TempFileName(host.world), ratesJson.value);
        if !written {
          assert host.Snapshot() == Proceed(host.world, fetched, apiKey, cfg, ratesJson.value).state;
          return Threw(MageException(WriteMessage(host.world.tmpDir)));
        }
        host.Record(EventDispatch(ImportEvent));
        host.Record(CacheFlush);
        assert host.Snapshot() == Proceed(host.world, fetched, apiKey, cfg, ratesJson.value).state;
      } else {
        assert ExecuteSpec(host.world, initial) == Uninstall(host.world, initial);
        host.Record(SessionMessage(Notice, UninstalledNotice));
        PurgeExisting();
        SetLastUpdateDate(None);
        host.Record(CacheFlush);
      }
      outcome := Returned;
    }

    /** `importRates`: create every staged rate, collect the ids, build the rules. */
    method ImportRates(date: string)
      modifies this, host
      ensures newRates == ImportSpec(host.world, old(host.Snapshot()), date).newRates
      ensures freightTaxableRates == ImportSpec(host.world, old(host.Snapshot()), date).freightTaxableRates
      ensures host.Snapshot() == ImportSpec(host.world, old(host.Snapshot()), date).state
      ensures version == old(version) && storeZip == old(storeZip) && regionCode == old(regionCode)
    {
      newRates := [];
      freightTaxableRates := [];
      var filename := TempFileName(host.world);
      var shippingTaxable := Truthy(AsString(host.GetStoreConfig(FreightTaxablePath)));
      var ratesJson := host.ReadTemp();

      ghost var start := host.Snapshot();
      ghost var w := host.world;
      var i := 0;
      while i < |ratesJson|
        invariant 0 <= i <= |ratesJson|
        invariant newRates == Picked(w, ratesJson[..i], false)
        invariant freightTaxableRates == Picked(w, ratesJson[..i], true)
        invariant host.config == start.config && host.rates == start.rates && host.tempFile == start.tempFile
        invariant host.log == start.log + CreateEffects(ratesJson[..i])
        invariant version == old(version) && storeZip == old(storeZip) && regionCode == old(regionCode)
      {
        var created := host.CreateRate(ratesJson[i]);
        ImportStep(w, start.log, ratesJson, i);
        if IdTruthy(created.rateId) {
          newRates := newRates + [created.rateId.value];
        }
        if IdTruthy(created.shippingRateId) {
          freightTaxableRates := freightTaxableRates + [created.shippingRateId.value];
        }
        i := i + 1;
      }
      assert ratesJson[..i] == ratesJson;
      ghost var created := host.Snapshot();
      assert created == start.(log := start.log + CreateEffects(ratesJson));

      SetLastUpdateDate(Some(date));
      host.Record(RuleCreation(GeneralRule, 2, 1, newRates));
      if shippingTaxable {
        host.Record(RuleCreation(ShippingRule, 4, 2, freightTaxableRates));
      }
      host.RemoveTemp(filename);
      host.Record(SessionMessage(Success, ImportedNotice));
      host.Record(EventDispatch(ImportAfterEvent));
      assert host.Snapshot()
          == FinishImport(w, created, date, shippingTaxable, newRates, freightTaxableRates);
      assert ImportSpec(w, start, date)
          == Imported(newRates, freightTaxableRates,
                      FinishImport(w, created, date, shippingTaxable, newRates, freightTaxableRates));
    }

    /** `purgeExisting`: both guarded deletions for every rate loaded at the start. */
    method PurgeExisting()
      modifies host
      ensures host.Snapshot() == Purge(host.world, old(host.Snapshot()))
    {
      var rates := host.rates;
      ghost var start := host.Snapshot();
      var i := 0;
      while i < |rates|
        invariant 0 <= i <= |rates|
        invariant PurgeAll(host.world, host.Snapshot(), rates[i..]) == Purge(host.world, start)
      {
        var r := rates[i];
        var ok := host.DeleteLink(r);
        if !ok {
          host.Record(SessionMessage(Error, LinkDeleteError));
        }
        ok := host.DeleteRate(r);
        if !ok {
          host.Record(SessionMessage(Error, RateDeleteError));
        }
        assert rates[i..][1..] == rates[i + 1..];
        i := i + 1;
      }
    }

    /** `setLastUpdateDate($date)`. */
    method SetLastUpdateDate(date: Option<string>)
      modifies host
      ensures host.Snapshot() == Save(old(host.Snapshot()), LastUpdatePath, date)
    {
      host.SaveConfig(LastUpdatePath, date);
    }
  }
}
