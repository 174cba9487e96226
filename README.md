# TaxJar sales-tax observer for Magento, modelled in Dafny

This project models `Taxjar_SalesTax_Model_Observer`, the object that the
Magento 1 TaxJar extension calls in two situations:

- **When the TaxJar settings are saved** (`execute`). It reads the API key
  and strips out every whitespace character. An empty (or `"0"`) key means
  the extension is being uninstalled: every TaxJar rate is purged,
  `last_update` is cleared and the cache is flushed. Otherwise the method:
  - resolves the shipping-origin region and fetches the remote configuration;
  - stops with a notice in debug mode or when `wait_for_rates` is positive;
  - rejects a store ZIP code that has no five consecutive digits;
  - fetches the rates and stores the configuration;
  - purges the old rates and stages the new rates in a temp file;
  - dispatches the import event and flushes the cache.
- **On the import event** (`importRates`). It creates one rate per staged
  record and collects the general and the freight-taxable rate ids. It
  stamps `last_update`, creates the general tax rule and, when freight is
  taxable, the shipping rule. Finally it removes the temp file, adds a
  success message and dispatches the completion event.

Magento is modelled by `Host.Magento`, a class whose state is:
- the store configuration;
- the ids of the TaxJar rates it holds;
- the temp file;
- an ordered log of every call the observer makes on the host (`Effect`).

A fixed `World` value stands for everything the host answers that this code
cannot see:
- region codes;
- the remote responses, keyed by URL;
- which deletes fail;
- whether the temp directory is writable;
- what `taxjar/rate::create` returns.

Each observer method is proved to produce exactly the state and log of a
pure specification function: `Sync.ExecuteSpec`, `Sync.ImportSpec` or
`Purging.Purge`. Lemmas then state what the source promises about those
functions.

Modules:

- `Wrappers`: `Option`, PHP's NULL.
- `Php`: the PHP built-ins the observer relies on: truthiness,
  `preg_replace('/\s+/', '', …)`, `trim`, `explode`, `serialize` of a string
  list, and a boolean's string form.
- `ZipCode`: the unanchored `preg_match` ZIP check.
- `ApiUrls`: `apiUrl`.
- `Host`: the Magento host: its state, its calls and the `World` oracle.
- `Purging`: `purgeExisting`.
- `Sync`: `execute` and `importRates` as functions, with one lemma per exit path.
- `SalesTax`: the `Observer` class itself.

The model follows the code where it does something a reader may not
expect:
- The ZIP check is unanchored: "12345-678" and "ab12345" are accepted.
  `ZipCode.StrictZip` states the strict `^\d{5}(-\d{4})?$` form, and
  `ZipCode.StrictZipAccepted` shows that the code accepts at least that much.
- On uninstall, the "uninstalled" notice is added before the purge runs.
- Debug mode still fetches the remote configuration before it stops.
- Only the uninstall path and a fully successful sync flush the cache. Debug,
  wait and every exception leave it as it was.

## Model

| member | source | states |
|---|---|---|
| Php.StripWhitespace | app/code/community/Taxjar/SalesTax/Model/Observer.php:19 | the stripped key contains no whitespace character, keeps every non-whitespace character of the stored key, and is no longer than it |
| Php.StripWhitespaceAppend | app/code/community/Taxjar/SalesTax/Model/Observer.php:19 | stripping works piecewise, so the remaining characters keep their order |
| Php.StripWhitespaceKeeps | app/code/community/Taxjar/SalesTax/Model/Observer.php:19 | a key without whitespace is used unchanged |
| Php.StripWhitespaceEmpty | app/code/community/Taxjar/SalesTax/Model/Observer.php:19-21 | the stripped key is empty exactly when every character of the stored key is whitespace |
| Php.BoolText | app/code/community/Taxjar/SalesTax/Model/Observer.php:62 | the stored `freight_taxable` text is truthy exactly when the remote flag is true |
| Php.TrimLeft | app/code/community/Taxjar/SalesTax/Model/Observer.php:49 | the result is a suffix that starts with a non-trimmed character, and everything dropped is trimmed |
| Php.TrimRight | app/code/community/Taxjar/SalesTax/Model/Observer.php:49 | the result is a prefix that ends with a non-trimmed character, and everything dropped is trimmed |
| Php.Trim | app/code/community/Taxjar/SalesTax/Model/Observer.php:49 | `trim` returns a contiguous part of the ZIP that neither starts nor ends with a trimmed character, and every character it drops is a trimmed character |
| Php.TrimEmptyIff | app/code/community/Taxjar/SalesTax/Model/Observer.php:49 | `trim(zip) !== ''` fails exactly when the ZIP consists only of trimmed characters |
| Php.Explode | app/code/community/Taxjar/SalesTax/Model/Observer.php:56 | splitting the states list gives at least one piece, and no piece contains a comma |
| Php.ExplodeImplode | app/code/community/Taxjar/SalesTax/Model/Observer.php:56 | joining the pieces with the comma gives back the states text exactly |
| Php.NatText | app/code/community/Taxjar/SalesTax/Model/Observer.php:56 | the count `serialize` writes is made of digits only, with no leading zero except for 0 itself |
| Php.NatTextValue | app/code/community/Taxjar/SalesTax/Model/Observer.php:56 | the printed count reads back as the number it prints |
| Php.SerializeCount | app/code/community/Taxjar/SalesTax/Model/Observer.php:56 | the stored `states` value is a serialized array (`a:`) whose element count reads back as the number of states pieces |
| Php.SerializeEntryIndex | app/code/community/Taxjar/SalesTax/Model/Observer.php:56 | every serialized entry opens with `i:` and an index that reads back as the item's position, and no entry follows the last item |
| ZipCode.FirstMatch | app/code/community/Taxjar/SalesTax/Model/Observer.php:28 | the leftmost scan returns the first position where either alternative of the pattern matches, and none when no position does |
| ZipCode.PregMatch | app/code/community/Taxjar/SalesTax/Model/Observer.php:28 | `preg_match` returns 0 or 1, and 1 exactly when one alternative of the pattern matches at some position |
| ZipCode.PregMatchIffFiveDigits | app/code/community/Taxjar/SalesTax/Model/Observer.php:28 | `preg_match` returns 1 exactly when the ZIP contains five consecutive digits, because `\d{5}-\d{4}` never matches where `\d{5}` does not |
| ZipCode.ValidZipIff | app/code/community/Taxjar/SalesTax/Model/Observer.php:28-49 | the ZIP guard passes exactly when a ZIP is set and contains five consecutive digits; the `isset` and `trim` checks add nothing |
| ZipCode.ValidZip | app/code/community/Taxjar/SalesTax/Model/Observer.php:28-49 | an accepted ZIP is set and has at least five characters |
| ZipCode.StrictZipAccepted | app/code/community/Taxjar/SalesTax/Model/Observer.php:28 | every strict US ZIP or ZIP+4 is accepted |
| ZipCode.AcceptedAt | app/code/community/Taxjar/SalesTax/Model/Observer.php:28 | five digits anywhere in the ZIP make it accepted |
| ZipCode.AcceptsShortPlusFour | app/code/community/Taxjar/SalesTax/Model/Observer.php:28 | "12345-678" is accepted although it is not a strict ZIP+4 |
| ZipCode.AcceptsEmbeddedDigits | app/code/community/Taxjar/SalesTax/Model/Observer.php:28 | "ab12345" is accepted: the pattern is not anchored |
| ZipCode.RejectsFourDigits | app/code/community/Taxjar/SalesTax/Model/Observer.php:28 | "1234" is rejected |
| ZipCode.RejectsUnset | app/code/community/Taxjar/SalesTax/Model/Observer.php:49 | an unset ZIP is rejected |
| ApiUrls.ApiUrl | app/code/community/Taxjar/SalesTax/Model/Observer.php:130-140 | a URL only for "config" and "rates" (NULL otherwise), always under the versioned plugin prefix; the region code can be read back from the config URL, and the rates URL ends with the stored ZIP |
| ApiUrls.ConfigUrlRoundTrip | app/code/community/Taxjar/SalesTax/Model/Observer.php:136 | the region code is recovered from the configuration URL |
| ApiUrls.ConfigUrlInjective | app/code/community/Taxjar/SalesTax/Model/Observer.php:136 | different regions give different configuration URLs |
| ApiUrls.RatesUrlEndsWithZip | app/code/community/Taxjar/SalesTax/Model/Observer.php:138 | the rates URL ends with the ZIP as stored, untrimmed |
| ApiUrls.VersionTwoPrefix | app/code/community/Taxjar/SalesTax/Model/Observer.php:132-133 | with version v2 every URL starts `https://api.taxjar.com/v2/plugins/magento/` |
| ApiUrls.VersionTwoConfigUrl | app/code/community/Taxjar/SalesTax/Model/Observer.php:132-136 | with version v2 the configuration URL is `https://api.taxjar.com/v2/plugins/magento/configuration/<region>` |
| ApiUrls.VersionTwoRatesUrl | app/code/community/Taxjar/SalesTax/Model/Observer.php:132-138 | with version v2 the rates URL is `https://api.taxjar.com/v2/plugins/magento/rates/<region>/<zip>` |
| Host.Without | app/code/community/Taxjar/SalesTax/Model/Observer.php:161 | a rate stays in the table exactly when it was there and was not deleted |
| Host.WithoutTwice | app/code/community/Taxjar/SalesTax/Model/Observer.php:152-165 | two rounds of deletions equal one round deleting both sets |
| Host.WithoutAppend | app/code/community/Taxjar/SalesTax/Model/Observer.php:152-165 | deletions act on each part of the table independently |
| Host.Magento.Record | app/code/community/Taxjar/SalesTax/Model/Observer.php:57-60 | a call with no other trace (message, setter, event, flush) is appended to the log and changes nothing else |
| Host.Magento.SaveConfig | app/code/community/Taxjar/SalesTax/Model/Observer.php:176 | `saveConfig` stores the value under its path and is logged |
| Host.Magento.FetchConfiguration | app/code/community/Taxjar/SalesTax/Model/Observer.php:32-33 | the configuration returned for the URL, or none when the client fails; the request is logged |
| Host.Magento.FetchRates | app/code/community/Taxjar/SalesTax/Model/Observer.php:50 | the rate records returned for the URL, or none when the client fails; the request is logged |
| Host.Magento.DeleteLink | app/code/community/Taxjar/SalesTax/Model/Observer.php:154-155 | deleting the rate's calculation link succeeds unless the host fails it; the attempt is logged |
| Host.Magento.DeleteRate | app/code/community/Taxjar/SalesTax/Model/Observer.php:161 | deleting the rate succeeds unless the host fails it, and a deleted rate leaves the table |
| Host.Magento.WriteTemp | app/code/community/Taxjar/SalesTax/Model/Observer.php:65 | the write succeeds exactly when the temp directory is writable, and then the file holds the records |
| Host.Magento.CreateRate | app/code/community/Taxjar/SalesTax/Model/Observer.php:101 | `create` returns the host's pair of ids for the record; the call is logged |
| Host.Magento.RemoveTemp | app/code/community/Taxjar/SalesTax/Model/Observer.php:119 | the temp file is gone afterwards, whether or not it existed |
| Sync.TempFileName | app/code/community/Taxjar/SalesTax/Model/Observer.php:185-188 | the staging file lies in the temp directory, after the directory separator, and is named `tj_tmp.dat` |
| Purging.PurgeOne | app/code/community/Taxjar/SalesTax/Model/Observer.php:153-164 | one pass of the loop makes at least the two delete calls and does not enlarge the rate table |
| Purging.PurgeAll | app/code/community/Taxjar/SalesTax/Model/Observer.php:152-165 | the loop makes at least two calls per visited rate and does not enlarge the rate table |
| Purging.Purge | app/code/community/Taxjar/SalesTax/Model/Observer.php:148-166 | after `purgeExisting` the log has only grown, exactly the rates whose delete failed remain, and configuration and temp file are unchanged |
| Purging.PurgeOneLog | app/code/community/Taxjar/SalesTax/Model/Observer.php:153-164 | one pass logs the link delete, its error if it failed, the rate delete and its error if it failed |
| Purging.PurgeOneEffect | app/code/community/Taxjar/SalesTax/Model/Observer.php:153-164 | one pass logs the link delete, its error if it failed, the rate delete and its error if it failed, and removes the rate only when its delete succeeded |
| Purging.DeletedSplit | app/code/community/Taxjar/SalesTax/Model/Observer.php:152-165 | the rates a loop deletes are those of its first pass and those of the rest |
| Purging.PurgeAllLog | app/code/community/Taxjar/SalesTax/Model/Observer.php:152-165 | the loop logs the calls of every visited rate, in visiting order |
| Purging.PurgeAllRates | app/code/community/Taxjar/SalesTax/Model/Observer.php:152-165 | the loop removes exactly the visited rates whose delete succeeded, keeping the order of the rest |
| Purging.PurgeAllFrame | app/code/community/Taxjar/SalesTax/Model/Observer.php:152-165 | the loop changes neither the configuration nor the temp file |
| Purging.PurgeAllEffect | app/code/community/Taxjar/SalesTax/Model/Observer.php:152-165 | the whole loop: every visited rate's calls logged, exactly the rates whose delete succeeded removed, nothing else changed |
| Purging.PurgeResult | app/code/community/Taxjar/SalesTax/Model/Observer.php:148-166 | after a purge exactly the rates whose delete failed remain, in order; configuration and temp file unchanged |
| Purging.PurgeEffectsAppend | app/code/community/Taxjar/SalesTax/Model/Observer.php:152-165 | each rate's calls do not depend on the outcome for earlier rates |
| Purging.PurgeAttemptsEveryRate | app/code/community/Taxjar/SalesTax/Model/Observer.php:152-165 | every rate gets both delete attempts even when earlier ones failed; 2 to 4 calls per rate |
| Purging.PurgeOnlyDeletes | app/code/community/Taxjar/SalesTax/Model/Observer.php:152-165 | a purge makes only deletions and error messages |
| Purging.ErrorCountAppend | app/code/community/Taxjar/SalesTax/Model/Observer.php:157-163 | error messages add up over consecutive parts of the log |
| Purging.PurgeErrorCount | app/code/community/Taxjar/SalesTax/Model/Observer.php:153-164 | one error message per failed attempt, so at most two per rate |
| Sync.ExecuteSpec | app/code/community/Taxjar/SalesTax/Model/Observer.php:15-78 | a falsy key always returns normally; the configuration changes only on uninstall or once debug is off and the ZIP is accepted; no rate is ever added |
| Sync.Uninstall | app/code/community/Taxjar/SalesTax/Model/Observer.php:71-77 | the uninstall branch returns normally, logs the notice first and the flush last, clears `last_update`, leaves the temp file and keeps only the rates whose delete failed |
| Sync.Synchronise | app/code/community/Taxjar/SalesTax/Model/Observer.php:31-70 | with a key and a region, the configuration changes only when debug is off and the ZIP is accepted, and no rate is added |
| Sync.Proceed | app/code/community/Taxjar/SalesTax/Model/Observer.php:55-70 | returns normally exactly when the temp file can be written; `states` and `freight_taxable` hold the remote values; the temp file holds the fetched records when written; only rates whose delete failed remain |
| Sync.ConfigStepEffect | app/code/community/Taxjar/SalesTax/Model/Observer.php:55-62 | the six configuration calls are logged in source order and only `states` and `freight_taxable` are stored |
| Sync.UninstallEffect | app/code/community/Taxjar/SalesTax/Model/Observer.php:72-74 | the uninstall branch: the notice, then the purge, then `last_update` set to NULL, then the flush; only the rates whose delete failed remain; no remote request |
| Sync.UninstallLog | app/code/community/Taxjar/SalesTax/Model/Observer.php:72-77 | the uninstall branch's calls: notice, purge calls, `last_update` save, flush |
| Sync.UninstallPath | app/code/community/Taxjar/SalesTax/Model/Observer.php:71-77 | a falsy key: notice, purge, `last_update` set to NULL, flush, in that order, and no remote request |
| Sync.BlankKeyUninstalls | app/code/community/Taxjar/SalesTax/Model/Observer.php:18-21 | a key made only of whitespace counts as no key |
| Sync.MissingRegion | app/code/community/Taxjar/SalesTax/Model/Observer.php:31-36 | without a region code the sync throws before any request or change |
| Sync.DebugStop | app/code/community/Taxjar/SalesTax/Model/Observer.php:31-41 | debug mode fetches the configuration, adds its notice and changes nothing else |
| Sync.WaitStop | app/code/community/Taxjar/SalesTax/Model/Observer.php:43-47 | a positive `wait_for_rates` stops after the configuration fetch with the wait notice |
| Sync.ZipRejected | app/code/community/Taxjar/SalesTax/Model/Observer.php:49-53 | a ZIP without five consecutive digits throws after the configuration fetch, before any write or purge |
| Sync.ProceedEffect | app/code/community/Taxjar/SalesTax/Model/Observer.php:55-70 | the configuration writes in source order, the purge, the temp write, then the event and flush, or an exception after the purge when the write fails |
| Sync.ProceedPath | app/code/community/Taxjar/SalesTax/Model/Observer.php:31-65 | with a region, no stop and an accepted ZIP, the sync makes the two requests and then proceeds |
| Sync.ImportSpec | app/code/community/Taxjar/SalesTax/Model/Observer.php:86-122 | the import only adds to the log, sets `last_update` to the date, removes the temp file, leaves the rate table alone, and collects at most two ids per staged record |
| Sync.FinishImport | app/code/community/Taxjar/SalesTax/Model/Observer.php:112-121 | after the loop the log only grows, `last_update` holds the date, the temp file is gone and the rate table is unchanged |
| Sync.Picked | app/code/community/Taxjar/SalesTax/Model/Observer.php:100-110 | the collected ids are non-zero and there are no more of them than records |
| Sync.ImportStep | app/code/community/Taxjar/SalesTax/Model/Observer.php:100-110 | one more record appends its truthy general id and its truthy freight id, and one `create` call |
| Sync.CreateEffects | app/code/community/Taxjar/SalesTax/Model/Observer.php:100-101 | one `create` call per staged record, in order |
| Sync.PickedAppend | app/code/community/Taxjar/SalesTax/Model/Observer.php:100-110 | the collected ids keep the order of the records |
| Sync.PickedMembers | app/code/community/Taxjar/SalesTax/Model/Observer.php:103-109 | an id is collected exactly when some record's `create` returned it as a truthy id |
| Sync.FinishImportEffect | app/code/community/Taxjar/SalesTax/Model/Observer.php:112-121 | after the loop: `last_update`, the general rule, the shipping rule only when freight is taxable, the temp-file removal, the success message and the completion event, in that order |
| Sync.ImportCalls | app/code/community/Taxjar/SalesTax/Model/Observer.php:86-122 | the import's exact calls, including the general rule even with no ids, the shipping rule only when `freight_taxable` is truthy, and the removal of the temp file |
| Sync.SyncThenImport | app/code/community/Taxjar/SalesTax/Model/Observer.php:55-117 | an import run in a later request, on the state a successful sync left behind, builds its rules from the fetched records, and its shipping rule exists exactly when the remote configuration says freight is taxable |
| SalesTax.Observer.Execute | app/code/community/Taxjar/SalesTax/Model/Observer.php:15-78 | outcome and host state are those of `Sync.ExecuteSpec`; version, region code and ZIP are set only when the key is truthy |
| SalesTax.Observer.ImportRates | app/code/community/Taxjar/SalesTax/Model/Observer.php:86-122 | the two id lists and the host state are those of `Sync.ImportSpec` |
| SalesTax.Observer.PurgeExisting | app/code/community/Taxjar/SalesTax/Model/Observer.php:148-166 | the host state afterwards is `Purging.Purge` of the state before |
| SalesTax.Observer.SetLastUpdateDate | app/code/community/Taxjar/SalesTax/Model/Observer.php:174-177 | `last_update` holds the given date (or NULL), logged as a configuration save |

## Left out

- The internals of the Magento models the observer calls are out of scope,
  because their source is not part of this model. This covers
  `taxjar/client`, `taxjar/configuration`, `taxjar/rate`, `taxjar/rule`,
  `core/config`, `directory/region`, `tax/calculation` and the session
  singletons. Each call is recorded as an `Effect`, and its answer comes
  from `World`. In particular the four `taxjar/configuration` setters
  (`setTaxBasis`, `setShippingTaxability`, `setDisplaySettings` and
  `setApiSettings`, Observer.php:57-60) are log entries only. Their names
  say they write store configuration, and those writes are not modelled,
  so `Sync.ProceedEffect` and `Sync.ConfigStepEffect` state that only
  `states` and `freight_taxable` change among the values this model tracks.
- The HTTP client is reduced to a response per URL. A missing URL is a
  client exception. The response does not depend on the API key.
- JSON decoding is reduced to `freight_taxable` as a boolean and
  `wait_for_rates` as an integer. PHP's loose comparison of other JSON types
  is not modelled.
- The temp file is a single slot with a writability flag. `serialize` of
  the rates payload, reading the file back and `unserialize` are taken to be
  exact inverses. A file that is missing at import gives no records.
- Php.Serialize writes the element count, indices and lengths. It takes string
  lengths to be character counts, which holds only for ASCII text.
- Php.IsSpace is limited to the ASCII whitespace characters of `\s`, with
  no Unicode mode.
- `date('m-d-Y')`, `Mage::getBaseDir('tmp')` and the directory separator
  `DS` are inputs: the `date` parameter, `World.tmpDir` and
  `World.dirSeparator`.
- `set_time_limit` and `ignore_user_abort` are not modelled, because they
  do not affect the model's results.
- The cache flush is recorded as an effect and has no internals.
- Magento's store-configuration cache is not modelled: a saved value is read
  back at once.
- Event dispatch is recorded as an effect. In Magento the dispatch at
  Observer.php:66 runs `importRates` synchronously inside `execute`, so the
  import's calls come before the cache flush at Observer.php:77. Here the
  two are separate operations, and the import's calls are not placed inside
  the sync's log.
- Sync.SyncThenImport describes an import that runs in a later request,
  after the flush, and reads back the `freight_taxable` value the sync
  saved. It does not describe the import run by the dispatch inside the
  same request. There, if Magento's store-configuration cache still holds
  the value from before the save at Observer.php:62, the read at
  Observer.php:97 sees the previous sync's flag. That claim about the host
  is not checked here and not modelled.
- Host.Magento.CreateRate does not add the created rate to the host's rate
  table. For that reason the model does not state what a second sync
  purges.
- Exceptions from the unguarded host calls are not modelled: those calls
  always return. This covers:
  - the configuration setters and `saveConfig` (Observer.php:55-62, 176);
  - `directory/region->load` (Observer.php:27);
  - `getExistingRates()->load()` (Observer.php:150);
  - `$rate->create` (Observer.php:101) and `$rule->create` (Observer.php:113, 116);
  - `Mage::dispatchEvent` (Observer.php:66, 121);
  - the cache flush (Observer.php:77).

  In the program, such an exception ends the method at that call. The
  model cannot express that outcome. For example, a `create` that throws
  in the middle of the import loop means that no rule is created,
  `last_update` is not written and the temp file is not removed.
  `Sync.ImportSpec` and `Sync.ImportCalls` always describe a completed
  import.
- A failure to load the `tax/calculation` link is folded into the failure
  of its `delete`.
- Two syncs running at once and sharing the temp file are not modelled,
  because the model has no concurrency.
