/** `apiUrl`: the two endpoints of the TaxJar plugin API. */
module ApiUrls {
  import opened Wrappers

  const ApiHost := "https://api.taxjar.com/"
  const ConfigPath := "configuration/"
  const RatesPath := "rates/"

  /** The versioned prefix every endpoint shares. */
  function Prefix(version: string): string
  {
    ApiHost + version + "/plugins/magento/"
  }

  function ConfigUrl(version: string, regionCode: string): string
  {
    Prefix(version) + ConfigPath + regionCode
  }

  /** The ZIP goes in exactly as stored: it is not trimmed. */
  function RatesUrl(version: string, regionCode: string, storeZip: string): string
  {
    Prefix(version) + RatesPath + regionCode + "/" + storeZip
  }

  /** `apiUrl($type)`: a URL for "config" and "rates", NULL for any other type. */
  function ApiUrl(version: string, kind: string, regionCode: string, storeZip: string): (url: Option<string>)
    ensures url.Some? <==> kind == "config" || kind == "rates"
    ensures url.Some? ==> Prefix(version) <= url.value
    ensures kind == "config" ==> ParseConfigUrl(version, url.value) == Some(regionCode)
    ensures kind == "rates" ==> |url.value| >= |storeZip| && url.value[|url.value| - |storeZip|..] == storeZip
  {
    if kind == "config" then
      ConfigUrlRoundTrip(version, regionCode);
      Some(ConfigUrl(version, regionCode))
    else if kind == "rates" then
      RatesUrlEndsWithZip(version, regionCode, storeZip);
      Some(RatesUrl(version, regionCode, storeZip))
    else None
  }

  /** Reads the region code back out of a configuration URL. */
  function ParseConfigUrl(version: string, url: string): Option<string>
  {
    var head := Prefix(version) + ConfigPath;
    if head <= url then Some(url[|head|..]) else None
  }

  /** The configuration URL loses nothing: the region code can be read back. */
  lemma ConfigUrlRoundTrip(version: string, regionCode: string)
    ensures ParseConfigUrl(version, ConfigUrl(version, regionCode)) == Some(regionCode)
  {
    var head := Prefix(version) + ConfigPath;
    assert ConfigUrl(version, regionCode) == head + regionCode;
  }

  /** Different regions ask for different configurations. */
  lemma ConfigUrlInjective(version: string, r1: string, r2: string)
    requires ConfigUrl(version, r1) == ConfigUrl(version, r2)
    ensures r1 == r2
  {
    ConfigUrlRoundTrip(version, r1);
    ConfigUrlRoundTrip(version, r2);
  }

  /** The rates URL ends with the stored ZIP, character for character. */
  lemma RatesUrlEndsWithZip(version: string, regionCode: string, zip: string)
    ensures var url := RatesUrl(version, regionCode, zip);
      |url| >= |zip| && url[|url| - |zip|..] == zip
  {
    var url := RatesUrl(version, regionCode, zip);
    var head := Prefix(version) + RatesPath + regionCode + "/";
    assert url == head + zip;
  }

  /** The versioned prefix for version v2, written out. */
  lemma VersionTwoPrefix()
    ensures Prefix("v2") == "https://api.taxjar.com/v2/plugins/magento/"
  {
  }

  /** The configuration URL `execute` requests, written out for version v2. */
  lemma VersionTwoConfigUrl(regionCode: string, storeZip: string)
    ensures ApiUrl("v2", "config", regionCode, storeZip)
         == Some("https://api.taxjar.com/v2/plugins/magento/configuration/" + regionCode)
  {
    VersionTwoPrefix();
    assert "https://api.taxjar.com/v2/plugins/magento/" + ConfigPath
        == "https://api.taxjar.com/v2/plugins/magento/configuration/";
  }

  /** The rates URL `execute` requests, written out for version v2. */
  lemma VersionTwoRatesUrl(regionCode: string, storeZip: string)
    ensures ApiUrl("v2", "rates", regionCode, storeZip)
         == Some("https://api.taxjar.com/v2/plugins/magento/rates/" + regionCode + "/" + storeZip)
  {
    VersionTwoPrefix();
    assert "https://api.taxjar.com/v2/plugins/magento/" + RatesPath
        == "https://api.taxjar.com/v2/plugins/magento/rates/";
  }
}
