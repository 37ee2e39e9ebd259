# Jomres plugin manager: a verified model of its core decisions

The Jomres plugin manager lists the plugins of the Jomres plugin server beside the installed
ones, installs and upgrades them, and keeps the licence status of the site. This project
models its sequential core in Dafny and proves properties of that model:

- **The minicomponent registry** (`registry.dfy`, `sorting.dfy`). This covers:
  - the file-name convention that turns a component file into an (event point, event name) pair;
  - the two-level table registerComponentFile fills, with the last writer winning and a collision flag;
  - the scan order and the safe-mode gating of regenerate_registry;
  - the sorting and de-duplication done by save_registry_file.
- **The iono key file** (`keys.dfy`). This covers:
  - the framing generate_key writes (reversed MD5 prefix and base64 payload, a SHA-1 suffix, hard-wrapped at 40 columns) and the round trip read_key undoes;
  - the server-reply codes;
  - the read_key status ladder, with its one-time regeneration of a stale key;
  - the constructor's result codes.

  MD5, SHA-1, base64 and serialize are opaque functions. Their only assumed properties are stated in the predicate `Keys.Lawful`: fixed digest lengths, no newline or space in their output, and decoding undoes encoding.
- **check_license_key** (`license.dfy`). This covers:
  - the normalisation of the licence server's JSON reply;
  - the one-day cache file;
  - the fields the check leaves;
  - the current plugin licences (status 1).
- **The plugin list** (`showplugins.dfy`, `versions.dfy`). This covers:
  - installed and third-party plugins;
  - the three-part minimum-version ladder;
  - the install action, row class, install link and button gating of each catalogue row;
  - the bootstrap class mapping;
  - the api/webhooks/general buckets with the retired filter;
  - the loop that moves retired rows to the front.
- **The plugin installer** (`addplugin.dfy`). This covers:
  - plugin-name sanitisation;
  - download permission and the key sent;
  - the plugin name of an uploaded archive;
  - the target directory;
  - the empty-name, version, dependency, exclusion and move errors;
  - discovery;
  - the next-step page.

`php.dfy` holds the PHP 7 semantics the code depends on:
- strpos, explode, str_replace, substr, strrev;
- numeric strings and the loose `==`, `<` and `<=` of strings, integers and null, with numeric strings compared as exact decimals rather than doubles (see "## Left out");
- `(int)` casts and in_array.

PHP integers are unbounded here. Directory listings, file contents, server replies, the clock and CMS detection are parameters.

As in the source:
- the registry and the two check classes are Dafny classes whose methods update their fields;
- loops are Dafny loops proved against specification functions;
- the pure string and comparison logic is functions with lemmas.

## Model

| member | source | states |
|---|---|---|
| Registry.ParseComponentFilename | minicomponent_registry.class.php:250-264 | the (event point, event name) pair of a file name; its two forms are stated by DoubleUnderscoreForm and ClassFileForm below |
| Registry.DoubleUnderscoreForm | minicomponent_registry.class.php:252-256 | with "__" after the first character, the event point is the text before the first "__" and the name is the next segment up to its first "." |
| Registry.ClassFileForm | minicomponent_registry.class.php:257-263 | otherwise the dots are removed and 8 characters dropped; the point is characters 1..5, and a name (from character 6) exists only when the point's integer value is in 1..99999 |
| Registry.ParseClassFile | minicomponent_registry.class.php:257-263 | a `jNNNNNname.class.php` name without inner dots or "__" parses to its five point characters and the rest, when the point is valid |
| Registry.NoUnderscorePair | minicomponent_registry.class.php:252 | a name whose parts are separated by single underscores never takes the "__" branch |
| Registry.ParseNumberedClassFile | minicomponent_registry.class.php:258-262 | a five-digit point with value 1..99999 is registered as (NNNNN, name) |
| Registry.FiveDigitsZero | minicomponent_registry.class.php:261 | five digits read as 0 only when all are zeros, so "00000" is rejected |
| Registry.ParseExampleAddPlugin | minicomponent_registry.class.php:257-263 | j16000addplugin.class.php gives ("16000", "addplugin") |
| Registry.ParseExamplePluginManager | minicomponent_registry.class.php:257-263 | j00005plugin_manager.class.php gives ("00005", "plugin_manager") |
| Registry.ParseUnnumberedClassFile | minicomponent_registry.class.php:260-262 | a point that does not start with a number yields no event name |
| Registry.ParseExampleRegistryFile | minicomponent_registry.class.php:257-263 | minicomponent_registry.class.php gets no name: its point "inico" reads as 0 |
| Registry.Extension | minicomponent_registry.class.php:265-268 | pathinfo's extension is the text after the last ".", absent without a dot |
| Registry.RegisterStep | minicomponent_registry.class.php:265-284 | one registerComponentFile call on the tables, as a function; what it changes is stated by RegisterStepEffect, RegisterStepDirs and CollisionFlagRaisedOnlyByOverride |
| Registry.IsRegistrable | minicomponent_registry.class.php:265-269 | the filter a file passes before it is recorded: a regular file, not an unwanted name, with an event name and a case-insensitive "php" extension; used by RegisterStepEffect and RegisterStepDirs |
| Registry.Insert | minicomponent_registry.class.php:282-283 | the recording branch: the directory appended and the entry set at (point, name); stated by InsertEffect |
| Registry.InsertEffect | minicomponent_registry.class.php:282-283 | registration sets exactly one entry, keeps every other entry and appends one directory |
| Registry.RegisterStepEffect | minicomponent_registry.class.php:265-284 | a registrable file (regular file, not unwanted in lower case, non-empty name, extension php) overwrites its own entry; the collision flag is raised exactly when it overwrites a component, remotecomponent or cms_specific_component entry; anything else changes nothing |
| Registry.RegisterStepDirs | minicomponent_registry.class.php:282 | the directory is appended exactly when the entry is recorded |
| Registry.CollisionFlagRaisedOnlyByOverride | minicomponent_registry.class.php:270-280 | the collision flag is never lowered and is raised only by an overriding collision |
| Registry.VisibleNames | minicomponent_registry.class.php:226-231 | the scanned sub-directories are exactly the names not starting with "." |
| Registry.ScanSubdirsStep | minicomponent_registry.class.php:233-245 | sub-directories are scanned in order, the first one before the others |
| Registry.ScanSubdirs | minicomponent_registry.class.php:232-243 | the given sub-directories of a plugin root scanned one after the other, each existing one as a listing; stated by ScanSubdirsStep, ScanSubdirsUntouched, ScanSubdirsLastWriter and ScanSubdirsNamed |
| Registry.ScanRoot | minicomponent_registry.class.php:220-248 | a plugin root: its visible sub-directories in sorted order, then ScanSubdirs; stated by ScanRootUntouched, ScanRootNamed and ScanRootLookup |
| Registry.SafeMode | minicomponent_registry.class.php:57-59 | the configured safe_mode, "0" when unset; stated by SafeModeScansOnlyBase, SafeModeOffScansAll and SafeModeDoubleZero |
| Registry.ScanBase | minicomponent_registry.class.php:60-63 | the tables emptied, then the core and the CMS-specific directories scanned; stated by ScanBaseLookup |
| Registry.Regenerated | minicomponent_registry.class.php:57-70 | the tables regenerate_registry builds: core, CMS-specific, then, when safe_mode is loosely equal to "0", core plugins, remote plugins and templates; stated by the SafeMode lemmas below and RegenerateRegistry |
| Registry.SafeModeScansOnlyBase | minicomponent_registry.class.php:57-70 | with a safe_mode not loosely equal to "0", only the core and CMS-specific directories are scanned |
| Registry.SafeModeOffScansAll | minicomponent_registry.class.php:59-70 | every safe_mode loosely equal to "0" scans exactly what an unset safe_mode scans |
| Registry.SafeModeDoubleZero | minicomponent_registry.class.php:64 | "00" differs from "0" but is loosely equal to it, so it leaves safe mode off |
| Registry.ScanListing | minicomponent_registry.class.php:210-217 | the register steps of one directory listing, in listing order; its properties are the ScanListing lemmas below |
| Registry.ScanListingKeepsKeys | minicomponent_registry.class.php:283 | a recorded pair stays recorded through later scans |
| Registry.ScanListingSnoc | minicomponent_registry.class.php:238-242 | scanning one more entry is one more registration step |
| Registry.ScanListingLastWriterWins | minicomponent_registry.class.php:283 | when a listing ends with a recorded file, that file's directory and event type are left at its pair, whatever the listing and the table held before |
| Registry.ScanListingLookup | minicomponent_registry.class.php:212-215 | after one listing, a pair any recorded file of it names holds that directory and event type; every other pair keeps its entry |
| Registry.ScanSubdirsUntouched | minicomponent_registry.class.php:232-243 | a pair that no scanned sub-directory names keeps its entry |
| Registry.ScanSubdirsLastWriter | minicomponent_registry.class.php:232-243 | the last sub-directory in scan order that names a pair decides its entry: that sub-directory's path and the root's event type |
| Registry.ScanSubdirsNamed | minicomponent_registry.class.php:232-243 | when some scanned sub-directory names a pair, its entry is the path of a sub-directory that names it, with the root's event type |
| Registry.ScanRootUntouched | minicomponent_registry.class.php:220-248 | a pair that no visible sub-directory of a plugin root names keeps its entry |
| Registry.ScanRootNamed | minicomponent_registry.class.php:220-248 | a pair that some visible sub-directory names ends up with the root's event type and the path of a visible sub-directory that names it |
| Registry.ScanRootLookup | minicomponent_registry.class.php:220-248 | both cases of a plugin-root scan: named pairs come from the root, all other pairs keep their entries |
| Registry.ScanBaseLookup | minicomponent_registry.class.php:60-63 | starting from empty tables, a CMS-specific file wins over a core file of the same pair, and a pair neither names has no entry |
| Registry.RegeneratedLookup | minicomponent_registry.class.php:57-70 | each pair's entry comes from the last scanned layer that names it: template overrides, then remote plugins, then core plugins, then the core and CMS-specific result; plugin layers only with safe mode off, templates only without AUTO_UPGRADE |
| Registry.ScanListingDirs | minicomponent_registry.class.php:282 | a scan appends the directory once per recorded file and nothing else |
| Registry.Export | minicomponent_registry.class.php:110-113 | the registry table in the order the file lists it, both key levels in byte order; stated by ExportInnerContents, ExportIsSortedContents and ExportFiveDigitPointsNumeric |
| Registry.ExportInnerContents | minicomponent_registry.class.php:111-113 | one event point's listing is in strictly increasing name order, with the map's entries |
| Registry.ExportIsSortedContents | minicomponent_registry.class.php:110-113 | both key levels of the written table are strictly increasing, and it has the map's keys and entries |
| Registry.ExportFiveDigitPointsNumeric | minicomponent_registry.class.php:110 | when every event point is five digits, the written points are in increasing numeric value, as ksort orders them |
| Registry.ExportTable | minicomponent_registry.class.php:110-113 | the nested ksort loops build that sorted listing |
| Registry.ExportInnerTable | minicomponent_registry.class.php:111-113 | the inner ksort pass builds one event point's listing in name order |
| Registry.MinicomponentRegistry.constructor | minicomponent_registry.class.php:9-15 | both tables start empty and the flag is false |
| Registry.MinicomponentRegistry.RegisterComponentFile | minicomponent_registry.class.php:249-285 | the tables after one registerComponentFile call |
| Registry.MinicomponentRegistry.ScanDirectory | minicomponent_registry.class.php:210-217 | the read loop over one directory registers its entries in order |
| Registry.MinicomponentRegistry.ScanPluginRoot | minicomponent_registry.class.php:220-248 | a plugin root's visible sub-directories are scanned in sorted order |
| Registry.MinicomponentRegistry.SaveRegistryFile | minicomponent_registry.class.php:98-118 | if the old file cannot be deleted, nothing changes and the result is false; otherwise the directories become sorted and duplicate-free with the same set, and the written table is sorted with the same contents |
| Registry.MinicomponentRegistry.RegenerateRegistry | minicomponent_registry.class.php:50-73 | the tables are rebuilt from empty, source by source in the fixed order, and then saved |
| Sorting.SortedElements | minicomponent_registry.class.php:108-109 | the set's elements in strictly increasing byte order, each once |
| Sorting.SortedSeqIsSortedSet | minicomponent_registry.class.php:108-110 | the sorted sequence is strictly increasing and holds exactly the set |
| Sorting.SameLengthDigitsOrder | minicomponent_registry.class.php:110 | on digit strings of one length, such as five-digit event points, byte order is numeric order |
| Keys.HardWrapLines | jomres_check_support_key.class.php:162 | every wrapped line has at most 40 characters, and all but the last have exactly 40 |
| Keys.KeyString | jomres_check_support_key.class.php:155-158 | K, the reversed MD5 of the time and auth string followed by the encoded data; stated by KeyStringHasNoNewline and FrameRoundTrip |
| Keys.Frame | jomres_check_support_key.class.php:155-162 | the file content: K and its SHA-1, wrapped at 40; stated by HardWrapLines, UnwrapHardWrap, FrameRoundTrip and FreshFrameAccepted |
| Keys.UnwrapHardWrap | jomres_check_support_key.class.php:190 | removing the newlines undoes the wrapping |
| Keys.KeyStringHasNoNewline | jomres_check_support_key.class.php:155-158 | K has no newline |
| Keys.CutKeySplits | jomres_check_support_key.class.php:191-192 | the last 40 characters are split off again exactly |
| Keys.CutWrapped | jomres_check_support_key.class.php:190-192 | on wrapped content, the newlines are stripped and then the hash is split off |
| Keys.Cut | jomres_check_support_key.class.php:190-196 | read_key's cutting of a file: newlines removed, then CutKey; stated by CutWrapped and FrameRoundTrip |
| Keys.CutKey | jomres_check_support_key.class.php:191-196 | the SHA-1 part is the last 40 characters, and the rest reversed is the MD5 part and the payload; stated by CutKeySplits and FrameRoundTrip |
| Keys.FrameRoundTrip | jomres_check_support_key.class.php:155-198 | read_key's cutting of generate_key's content gives back K, the SHA-1 hash, the MD5 prefix and the base64 payload, and the payload decodes to the data |
| Keys.UntouchedFilePasses | jomres_check_support_key.class.php:193-215 | an untouched file passes both hash checks; it is regenerated at key_age seconds old, and before that accepted with its data |
| Keys.FreshFrameAccepted | jomres_check_support_key.class.php:199-215 | a file written now is accepted with its data |
| Keys.Ladder | jomres_check_support_key.class.php:186-222 | the checks read_key makes of the file content, in order; its answers are stated by LadderCodes, UntouchedFilePasses and FreshFrameAccepted |
| Keys.ShaOk | jomres_check_support_key.class.php:193 | the loose comparison of sha1(K . auth) with the SHA-1 part; used by Ladder and stated by LadderCodes and UntouchedFilePasses |
| Keys.Md5Ok | jomres_check_support_key.class.php:199 | the loose comparison of md5(timestamp . auth) with the MD5 part; used by Ladder and stated by LadderCodes and UntouchedFilePasses |
| Keys.LicenseMismatch | jomres_check_support_key.class.php:209 | the stored licence key differs loosely from the object's own, null for undecodable data; stated by LadderCodes and ReadKeyAnswers |
| Keys.Expired | jomres_check_support_key.class.php:212 | the expiry is not after now and not loosely 1; stated by ExpiryOne and ExpiryOneLiteral |
| Keys.Status | jomres_check_support_key.class.php:209-215 | 4 on a licence-key mismatch, then 5 when expired, else 1; stated by LadderCodes and ReadKeyAnswers |
| Keys.LadderCodes | jomres_check_support_key.class.php:186-222 | a hash failure answers 2 or 3, an accepted file 1, 4 or 5, and otherwise the key is regenerated |
| Keys.ExpiryOne | jomres_check_support_key.class.php:212 | expiry 1 never expires; any other numeric expiry expires when it is not after now |
| Keys.ExpiryOneLiteral | jomres_check_support_key.class.php:212 | the expiry "1" never expires |
| Keys.Respond | jomres_check_support_key.class.php:132-154 | what generate_key makes of the server reply: a refusal code or the issued data; stated by IssuedData and RefusalCodes |
| Keys.IssuedData | jomres_check_support_key.class.php:147-154 | the issued data is fields 1 and 2 of the reply and the current time, with the server's host name and address when the reply's are empty |
| Keys.RefusalCodes | jomres_check_support_key.class.php:132-146 | a falsy reply gives 12; a first field loosely equal to 0, 2, 3 or 10 gives 8, 9, 5 or 4 |
| Keys.Generate | jomres_check_support_key.class.php:116-170 | generate_key's answer and the key file it leaves; stated by GenerateWrites, GenerateWritten and IssuedNow |
| Keys.GenerateWrites | jomres_check_support_key.class.php:160-169 | generate_key answers null exactly when the key is issued and written |
| Keys.GenerateWritten | jomres_check_support_key.class.php:155-166 | after null, the file holds the framed issued data |
| Keys.IssuedNow | jomres_check_support_key.class.php:148 | issued data carries the current time |
| Keys.GeneratedIsFresh | jomres_check_support_key.class.php:200 | a key generated now is not stale |
| Keys.ReadKeyModel | jomres_check_support_key.class.php:174-222 | read_key's answer and the state it leaves, with one regeneration of a stale key; stated by ReadKeyCode, ReadKeyAnswers and ReadKeyCodes |
| Keys.ReadKeyCode | jomres_check_support_key.class.php:186-222 | read_key answers the ladder's code, or 1 for a stale key |
| Keys.ReadKeyAnswers | jomres_check_support_key.class.php:186-222 | 0 without a file; otherwise the first failing check decides (SHA-1 2, MD5 3); a stale key gives 1; a fresh one gives 4, 5 or 1 |
| Keys.ReadKeyCodes | jomres_check_support_key.class.php:174-185 | read_key answers are between 0 and 5 |
| Keys.ReadGenerated | jomres_check_support_key.class.php:91-94 | reading a freshly generated file stores its data and answers its status |
| Keys.RegenerateAnswersOne | jomres_check_support_key.class.php:200-206 | a stale key answers 1; the regeneration's answer is left in result |
| Keys.Regenerate | jomres_check_support_key.class.php:200-206 | a stale key: generate again, and on success read the new file into result; the answer is 1; stated by RegenerateAnswersOne |
| Keys.ConstructModel | jomres_check_support_key.class.php:72-98 | the constructor's key file and result; stated by FirstInstallReadsIssuedKey and ConstructCodes |
| Keys.FirstInstallReadsIssuedKey | jomres_check_support_key.class.php:88-95 | a first install whose key is issued ends with the status of the issued data |
| Keys.ConstructCodes | jomres_check_support_key.class.php:80-95 | the constructor's result is always one of 0-5, 8-12 or 14 |
| Keys.IonoKeys.constructor | jomres_check_support_key.class.php:72-98 | the constructor's result and the key file it leaves, with key age 86400 by default |
| Keys.IonoKeys.GenerateKey | jomres_check_support_key.class.php:116-170 | generate_key's answer and the new key file |
| Keys.IonoKeys.ReadKey | jomres_check_support_key.class.php:186-222 | read_key's answer, key data and result field |
| Keys.IonoKeys.RegenerateKey | jomres_check_support_key.class.php:200-206 | the stale branch: delete, generate, and read again on success |
| LicenseCheck.OrUnknown | jomres_check_support_key.class.php:470-478 | null becomes "Unknown" and other values are kept |
| LicenseCheck.Normalise | jomres_check_support_key.class.php:464-483 | the server reply with its defaults filled in; stated by NormaliseFields |
| LicenseCheck.NormaliseFields | jomres_check_support_key.class.php:464-483 | normalised data has no null where the cache is read, keeps every value sent, and has license_valid "1" exactly for a JSON true |
| LicenseCheck.Fetch | jomres_check_support_key.class.php:440-487 | the licence data and the cache file after the cache is read or discarded and the server asked; stated by FreshCacheUsed and StaleCacheDiscarded |
| LicenseCheck.FreshCacheUsed | jomres_check_support_key.class.php:452-461 | a cache at most 86400 s old is used without the server and kept |
| LicenseCheck.StaleCacheDiscarded | jomres_check_support_key.class.php:452-487 | an older cache is deleted; a non-empty reply is normalised and cached; an empty one leaves the defaults |
| LicenseCheck.Apply | jomres_check_support_key.class.php:488-505 | the fields check_license_key sets from the licence data, with the trial flag under the loose test as written; stated by KeyValidFromServer, NoAnswerKeepsDefaults and TrialFlipsThroughCache |
| LicenseCheck.CheckModel | jomres_check_support_key.class.php:438-506 | one check_license_key call: Fetch then Apply; stated by KeyValidFromServer and NoAnswerKeepsDefaults |
| LicenseCheck.KeyValidFromServer | jomres_check_support_key.class.php:465-499 | after a fresh reply, key_valid is true exactly when it already was or the server sent true |
| LicenseCheck.NoAnswerKeepsDefaults | jomres_check_support_key.class.php:444-463 | an empty reply without a cache keeps key_valid and the defaults |
| LicenseCheck.CachedValidityAgrees | jomres_check_support_key.class.php:484-497 | the cached copy validates the key exactly when the reply does |
| LicenseCheck.TrialAsWritten | jomres_check_support_key.class.php:501-504 | the trial flag under the loose `== "Unknown"` as written; stated by TrialAsWrittenDisagrees and TrialFlipsThroughCache |
| LicenseCheck.TrialFlag | jomres_check_support_key.class.php:501-504 | the intended trial flag, where only the placeholder "Unknown" means no trial; stated by CachedTrialAgrees |
| LicenseCheck.CachedTrialAgrees | jomres_check_support_key.class.php:484-504 | the intended trial flag is the same for the fresh and the cached data |
| LicenseCheck.TrialAsWrittenDisagrees | jomres_check_support_key.class.php:501-504 | as written, a JSON true trial flag reads as no trial fresh but as trial from the cache |
| LicenseCheck.TrialFlipsThroughCache | jomres_check_support_key.class.php:484-504 | a check that gets a JSON true trial flag from the server reports no trial; the next check within a day, reading the cache it wrote, reports a trial |
| LicenseCheck.AllowedListJoins | jomres_check_support_key.class.php:493-496 | no list without the property; otherwise the text cut at commas joins back to the text |
| LicenseCheck.AllowedList | jomres_check_support_key.class.php:493-496 | allowed_plugins cut at commas, and empty when the property is not set; stated by AllowedListJoins and MissingAllowedPluginsFromCache |
| LicenseCheck.MissingAllowedPluginsFromCache | jomres_check_support_key.class.php:484-496 | a missing allowed_plugins gives no list when fresh, but [""] from the cache |
| LicenseCheck.CurrentLicences | j16000showplugins.class.php:461-472 | current licences map a subset of the plugin names, each to its own key |
| LicenseCheck.CurrentLicenceStatus | j16000showplugins.class.php:466-468 | a licence is current exactly when its status is loosely 1 |
| LicenseCheck.IsOne | j16000showplugins.class.php:467 | the loose `== 1` of a decoded licence status; stated by CurrentLicenceStatus and LicenceStatusExamples |
| LicenseCheck.LicenceStatusExamples | j16000showplugins.class.php:466 | 1, "1" and true are current; 0, 2, "0", "", null and "active" are not |
| LicenseCheck.SupportKeyCheck.constructor | jomres_check_support_key.class.php:408-418 | key_valid starts false, the shop closed, then the check runs as CheckModel, trial flag as written |
| LicenseCheck.SupportKeyCheck.CheckLicenseKey | jomres_check_support_key.class.php:438-506 | the fields after check_license_key are those of CheckModel, trial flag as written |
| LicenseCheck.SupportKeyCheck.LoadLicenseData | jomres_check_support_key.class.php:440-487 | the licence data and cache after reading, discarding and asking |
| LicenseCheck.SupportKeyCheck.ApplyLicenseData | jomres_check_support_key.class.php:488-505 | the fields after the licence data is applied are Apply of the old ones: key_valid only becomes true, and is_trial_license uses the loose test as written |
| Php.StrCmp | j16000showplugins.class.php:768-778 | loose comparison is numeric for two numeric strings, byte-wise otherwise, and always -1, 0 or 1 |
| Php.LooseEqNonNumeric | j16000showplugins.class.php:818 | against a non-numeric string, loose `==` is equality |
| Php.Cmp | j16000showplugins.class.php:765-768 | null compares as "" |
| Php.Explode | j16000showplugins.class.php:675 | explode always has one piece at least; the first is the text before the first delimiter |
| Php.ExplodeJoins | j16000showplugins.class.php:675 | the pieces join back to the string and contain no delimiter |
| Php.Substr | j16000showplugins.class.php:818-826 | substr never lengthens the string |
| Versions.Part | j16000showplugins.class.php:765-766 | list() reads a missing version part as null |
| Versions.Condition | j16000showplugins.class.php:768-780 | the three-disjunct version condition, also used by the installer's check (j16000addplugin.class.php:688-706); stated by ConditionIsLexicographic, NumericCondition and FixedMinimumExamples |
| Versions.ConditionIsLexicographic | j16000showplugins.class.php:768-780 | the three-disjunct ladder is lexicographic `min <= cur` over the part comparisons |
| Versions.DigitsCompare | j16000showplugins.class.php:768 | digit strings compare as their integer values |
| Versions.NumericCondition | j16000showplugins.class.php:765-780 | on integer versions the condition holds exactly when current >= minimum lexicographically |
| Versions.FixedMinimumExamples | jomres_check_support_key.class.php:272-290 | with minimum 9.9.6, 9.10.0, 10.0.0 and 9.9.6 pass and 9.9.5 fails |
| ShowPlugins.Scan | j16000showplugins.class.php:485-497 | every installed name before the scan is still there |
| ShowPlugins.ScanMembers | j16000showplugins.class.php:487-495 | a name is installed after a scan exactly when it was before or a visible entry carries it |
| ShowPlugins.ScanLastWins | j16000showplugins.class.php:494 | a name holds the data of the last visible entry carrying it |
| ShowPlugins.ThirdParty | j16000showplugins.class.php:498-502 | the third-party plugins are exactly the installed ones not in the catalogue, with their data |
| ShowPlugins.AddThirdParty | j16000showplugins.class.php:498-502 | the foreach adds ThirdParty to what was there |
| ShowPlugins.ScanDirectory | j16000showplugins.class.php:485-497 | the read loop computes Scan |
| ShowPlugins.CollectInstalled | j16000showplugins.class.php:485-531 | the two passes give the remote then core scan, and the third-party plugins of the result |
| ShowPlugins.SecondPassSuffices | j16000showplugins.class.php:498-531 | the second third-party pass subsumes the first |
| ShowPlugins.Licences | j16000showplugins.class.php:461-472 | no licences are collected under a valid key |
| ShowPlugins.ActionAndClass | j16000showplugins.class.php:676-693 | the install action and row class of a catalogue row; stated by ActionTable and UpdateOffered |
| ShowPlugins.ActionTable | j16000showplugins.class.php:676-693 | Install/"" when not installed; Reinstall/success, Update/highlight for an older local copy; error for a retired installed plugin |
| ShowPlugins.UpdateOffered | j16000showplugins.class.php:684-688 | Update is offered exactly for an installed, older plugin |
| ShowPlugins.BootstrapRowClasses | j16000showplugins.class.php:797-815 | with bootstrap a row is "" exactly when not installed, danger exactly when installed and retired, warning exactly when installed, not retired and older, success exactly when installed, not retired and not older; no catalogue row gets the info class |
| ShowPlugins.BootstrapClass | j16000showplugins.class.php:797-815 | the bootstrap switch from jQuery-UI to alert classes, "" by default; stated by BootstrapRowClasses |
| ShowPlugins.InstallLink | j16000showplugins.class.php:666-699 | the row's install link; stated by InstallLinkGating |
| ShowPlugins.PluginParam | j16000showplugins.class.php:666-674 | `$n`: the plugin name, with its licence key for a non-developer user who holds a current licence; stated by InstallLinkGating |
| ShowPlugins.InstallButton | j16000showplugins.class.php:781-796 | the row's install button; stated by InstallButtonGating and AllowedPluginsExtremes |
| ShowPlugins.NotAllowed | j16000showplugins.class.php:791 | allowed_plugins neither starts with "*" nor lists the plugin; stated by InstallButtonGating and AllowedPluginsExtremes |
| ShowPlugins.RowOf | j16000showplugins.class.php:663-816 | the row the page shows for one catalogue plugin: action, class, link and button |
| ShowPlugins.InstallLinkGating | j16000showplugins.class.php:666-699 | the link is set exactly for developer users or current licences, and carries the plugin key for a licence |
| ShowPlugins.InstallButtonGating | j16000showplugins.class.php:781-796 | blank when retired; else disabled unless allowed_plugins starts with "*" or lists the plugin; else active exactly for a passing version and a licence or developer user |
| ShowPlugins.AllowedPluginsExtremes | j16000showplugins.class.php:791-793 | an empty allowed list disables every button, and a leading "*" none |
| ShowPlugins.BucketOf | j16000showplugins.class.php:818-827 | the list a plugin goes into, by the loose substr tests; stated by BucketPrefix |
| ShowPlugins.BucketPrefix | j16000showplugins.class.php:818-827 | api_ names go to the api list and webhooks_ names to the webhooks list |
| ShowPlugins.Listed | j16000showplugins.class.php:818-844 | the rows of one list, in catalogue order; stated by BucketsPartition, ListedRowsShown and ListedStep |
| ShowPlugins.Shown | j16000showplugins.class.php:818-844 | a row is listed when its plugin is not retired, or is retired and installed; stated by ListedRowsShown and BucketsPartition |
| ShowPlugins.BucketsPartition | j16000showplugins.class.php:818-844 | the three lists hold every shown row once and nothing else |
| ShowPlugins.ListedRowsShown | j16000showplugins.class.php:818-844 | every listed row is a non-retired or installed plugin of its bucket |
| ShowPlugins.BuildRows | j16000showplugins.class.php:662-845 | the loop builds the three lists and the installed, outdated and retired names |
| ShowPlugins.ListedStep | j16000showplugins.class.php:818-844 | one more plugin appends its row to its bucket's list if it is shown |
| ShowPlugins.MoveRetiredFirst | j16000showplugins.class.php:846-855 | the loop leaves RetiredFirst of the list when there are retired plugins, else the list |
| ShowPlugins.MoveStep | j16000showplugins.class.php:848-853 | one step of the loop extends the arrangement by one element |
| ShowPlugins.FrontFirstStep | j16000showplugins.class.php:849-852 | a passing element goes in front and a failing one at the end |
| ShowPlugins.SplitSizes | j16000showplugins.class.php:846-855 | passing and failing elements share out the list |
| ShowPlugins.RetiredFirst | j16000showplugins.class.php:846-855 | the list after the retired rows are moved to the front; stated by RetiredFirstPermutes, RetiredRowsLead and RetiredFirstShape |
| ShowPlugins.RetiredFirstPermutes | j16000showplugins.class.php:846-855 | the reordering is a permutation |
| ShowPlugins.RetiredRowsLead | j16000showplugins.class.php:846-855 | every retired row comes before every other row |
| ShowPlugins.FrontFirstLeads | j16000showplugins.class.php:846-855 | passing elements come before failing ones |
| ShowPlugins.RetiredFirstShape | j16000showplugins.class.php:846-855 | the retired rows come in reverse order, the others in their original order |
| ShowPlugins.RetiredPluginMoves | j16000showplugins.class.php:846-855 | an installed retired plugin's row is moved to the front |
| AddPlugin.SanitiseOnce | j16000addplugin.class.php:445-446 | the two str_replace calls as written, used by the installer; stated by SanitiseOnceKeepsClean, SanitiseOnceLeavesMarker and SanitiseOnceProgress |
| AddPlugin.SanitiseOnceKeepsClean | j16000addplugin.class.php:445-446 | a name without markers is unchanged |
| AddPlugin.SanitiseOnceLeavesMarker | j16000addplugin.class.php:445-446 | as written, "<<x>x>" becomes "<x>", which still holds a marker |
| AddPlugin.SanitiseOnceProgress | j16000addplugin.class.php:445-446 | a pass keeps a clean name and shortens any other |
| AddPlugin.Sanitise | j16000addplugin.class.php:445-446 | the corrected sanitisation, repeated until no marker is left: its result holds neither marker |
| AddPlugin.SanitiseAgrees | j16000addplugin.class.php:445-446 | on clean names the corrected and the written sanitisation agree |
| AddPlugin.UploadedName | j16000addplugin.class.php:521-530 | the plugin name of an uploaded archive; stated by UploadedNameWithDash and UploadedNameWithoutDash |
| AddPlugin.UploadedNameWithDash | j16000addplugin.class.php:521-530 | with a "-", the name is the text between the first "-" and the next ".zip", or "" without ".zip" |
| AddPlugin.UploadedNameWithoutDash | j16000addplugin.class.php:521-523 | without "-", the name is the prefix before the first "." (or all of it) |
| AddPlugin.UploadedNameDashedExample | j16000addplugin.class.php:524-530 | "j-p.zip" gives "p" |
| AddPlugin.UploadedNamePlainExample | j16000addplugin.class.php:522-523 | "p.zip" gives "p" |
| AddPlugin.UploadedNameNoZipExample | j16000addplugin.class.php:527-529 | "a-b" gives "" |
| AddPlugin.DownloadPermission | j16000addplugin.class.php:456-475 | whether the plugin may be downloaded and with which key; stated by DownloadGranted |
| AddPlugin.DownloadGranted | j16000addplugin.class.php:456-475 | a download is granted exactly for a valid key (sending key_hash) or a status-1 licence (sending its key) |
| AddPlugin.TargetFolder | j16000addplugin.class.php:481-485 | uploads go to the remote-plugins directory and everything else to the core-plugins directory |
| AddPlugin.VersionTooOld | j16000addplugin.class.php:688-706 | the minimum-version error test; stated by VersionTooOldNumeric |
| AddPlugin.VersionTooOldNumeric | j16000addplugin.class.php:688-706 | on integer versions, the error is raised exactly when both have three parts and current < minimum |
| AddPlugin.ExtensionTypeExact | j16000addplugin.class.php:739 | the type test is exact equality with mambot, module or widget |
| AddPlugin.TypeIsExact | j16000addplugin.class.php:739 | loose equality with a word is equality |
| AddPlugin.TypeIs | j16000addplugin.class.php:739 | the plugin_info type is set and loosely equal to a word; stated by TypeIsExact |
| AddPlugin.ExtensionType | j16000addplugin.class.php:739 | the type is mambot, module or widget; stated by ExtensionTypeExact |
| AddPlugin.DependencyDiscoveryAsWritten | j16000addplugin.class.php:640-657 | the discovery flag after the dependency loop as written, used by the installer: only the last dependency counts; stated by DependencyDiscoveryAsWrittenAgrees and DependencyDiscoveryForgotten |
| AddPlugin.DependencyDiscovery | j16000addplugin.class.php:640-657 | the intended discovery flag after the loop; stated by DependencyDiscoveryAny |
| AddPlugin.AnyDiscovery | j16000addplugin.class.php:640-657 | the intended flag: some dependency installed and needed discovery; stated by AnyDiscoveryExists and DependencyDiscoveryAny |
| AddPlugin.AnyDiscoveryExists | j16000addplugin.class.php:640-657 | some dependency was installed and needs discovery |
| AddPlugin.DependencyDiscoveryAny | j16000addplugin.class.php:640-657 | after the corrected loop, discovery is required exactly when some installed dependency needs it |
| AddPlugin.DependencyDiscoveryAsWrittenAgrees | j16000addplugin.class.php:640-657 | the flag as written equals the intended one exactly when there are no dependencies, the last needs discovery, or none before it does |
| AddPlugin.DependencyDiscoveryForgotten | j16000addplugin.class.php:647 | as written, [needs discovery, does not] leaves false; corrected, true |
| AddPlugin.DependencyLinks | j16000addplugin.class.php:661-663 | no dependencies give no links |
| AddPlugin.MissingDependencies | j16000addplugin.class.php:659-664 | the error is the fixed text followed by each dependency's link in order |
| AddPlugin.NextStep | j16000addplugin.class.php:777-791 | the NEXT_STEP page; stated by NextStepTable |
| AddPlugin.NextStepTable | j16000addplugin.class.php:777-791 | widget to discover: plugins.php; other to discover: Joomla discover view; otherwise the plugin manager at #name |
| AddPlugin.Installer.constructor | j16000addplugin.class.php:427-446 | the plugin name is the request's after one pass of each str_replace: unchanged when it has no marker, shorter otherwise; nothing else is set |
| AddPlugin.Installer.TakeUploadedName | j16000addplugin.class.php:476-530 | for an upload the name is the archive's plugin name; otherwise it is unchanged |
| AddPlugin.Installer.CheckName | j16000addplugin.class.php:486-491 | an empty name without thirdparty records the error and stops in autoupgrade mode |
| AddPlugin.Installer.CheckVersion | j16000addplugin.class.php:688-706 | the version error is recorded exactly when VersionTooOld, and stops in autoupgrade mode |
| AddPlugin.Installer.CheckDependencies | j16000addplugin.class.php:635-665 | a failed check installs dependencies under a valid key, leaving the discovery flag as written, or records the missing-plugins error |
| AddPlugin.Installer.RecordDiscovery | j16000addplugin.class.php:640-657 | the loop, which resets the flag on every iteration, leaves DependencyDiscoveryAsWritten: the last dependency's flag |
| AddPlugin.Installer.CheckExclusions | j16000addplugin.class.php:667-679 | a failed exclusion check records its error and stops in autoupgrade mode |
| AddPlugin.Installer.Finish | j16000addplugin.class.php:725-769 | a failed move records the error; a moved plugin is installed, discovery set for an extension type on Joomla or WordPress, kept or false otherwise; autoupgrade returns the reply instead |
| AddPlugin.Installer.FinishPlain | j16000addplugin.class.php:748-765 | success without discovery: an unset flag becomes false |
| AddPlugin.Installer.ChooseNextStep | j16000addplugin.class.php:777-791 | the next step is NextStep only after a successful installation outside autoupgrade mode |

## Left out

- Network access (the plugin server, the licence server, the iono server) and the file system (reads, writes, deletions, directory creation, zip extraction, moving directories, include of cache or registry files) are left out. Replies, listings and file contents are parameters, and an answer such as "file deleted" is a field of the model state.
- HTML, templates, echoed messages, redirects and the page reload after a registry change are not modelled.
- MD5, SHA-1, base64 and serialize are opaque, with only the properties in `Keys.Lawful`.
- Plugin version numbers are cast to double in the source; here they are exact reals.
- Php.StrCmp: two numeric strings are compared by their exact decimal values. PHP 7 compares two integer strings that fit in 64 bits as integers but converts any other numeric string to a double, so Php.StrCmp, Php.LooseEq and Php.NumCmp differ from PHP where the doubles round or underflow: "0.1" == "0.10000000000000000001" and "1e-400" == "0" hold in PHP and not here. This touches the safe_mode test (minicomponent_registry.class.php:64) and the version comparisons of the plugin manager only for such values.
- Keys.IonoKeys.ReadKey: read_key recurses through generate_key without end when key_age <= 0. The model requires key_age > 0; the only caller uses the default 86400.
- The construction of remote_plugins from the server's JSON (sanitising, trimming, defaults, keying by name, j16000showplugins.class.php:478-484) is not modelled. The catalogue is a given sequence of records with distinct names.
- The iteration order of PHP arrays over installed and third-party plugins is not modelled: those collections are maps.
- The "encoded" flag of core plugins (j16000showplugins.class.php:509-522) and the third-party rows of the page (j16000showplugins.class.php:575-633) are display data and are left out.
- The Ioncube loader checks and redirects, save_key, delete_encoded_plugins, get_shop_status and the plugin_licenses include are not modelled. delete_encoded_plugins reads an undefined variable and exits; it is debugging glue.
- The recursive installation of a dependency goes through the event dispatcher, whose code is not part of this model. Each dependency's reply (success, discovery) is a parameter.
- The installer's "Oops, that key isn't valid" exit for a refused download (j16000addplugin.class.php:598-601) is the `Refused` answer of `AddPlugin.DownloadPermission`. The message and the early return are not part of the class.
- The upload error codes that throw an exception (j16000addplugin.class.php:548-551), the directory errors, the download, unzip and cleanup errors and the missing plugin_info error are I/O outcomes and are not modelled.
- The progress messages, the auto-installation messages and the ajax buttons of the installer are not modelled.
- plugin_info.php repeats the iono_keys class at its lines 13-254 with a constant metadata record. It is modelled once, from jomres_check_support_key.class.php.
- j16000removeplugin.class.php, j16000show_license_message.class.php and j00005plugin_manager.class.php are I/O and UI around other code, and are not part of this model.
- The CMS template scan is a parameter listing: the Joomla database query and the WordPress stylesheet directory are host calls.
- Registry.ExportIsSortedContents: both key levels are ordered by bytes. PHP 7's ksort with SORT_REGULAR orders integer keys and numeric-string keys by value (points "9" and "10" from the "__" form, or a point such as "1abcd" beside the integer key 16000), and it compares an integer key with a string key by the string's numeric value. The two orders agree when every event point is five digits (Registry.ExportFiveDigitPointsNumeric) and on event names that are not numeric.
- Registry.Export: the same byte order as ExportIsSortedContents, with the same gap for integer-like keys.
- Registry.ExportTable: builds Export's byte-ordered listing, not ksort's SORT_REGULAR order for integer-like keys.
- Registry.MinicomponentRegistry.SaveRegistryFile: the written table is Export's byte-ordered listing, with the same gap for integer-like keys. The directory list is also sorted by bytes, which is PHP's order for paths (paths are never numeric strings).
- Registry.ScanRoot: sort($docs) is modelled in byte order. PHP 7 orders two numeric directory names by value ("9" before "10"), and that order decides which file wins when two plugins register the same pair.
- Registry.MinicomponentRegistry.ScanPluginRoot: scans in ScanRoot's byte order, with the same gap for numeric directory names.
- The asort of registeredClasses before saving (minicomponent_registry.class.php:71) is not modelled. The tables are maps, and only the written file's order is part of the model.
- check_license_key's reply is modelled as a record whose fields are null, booleans, integers or strings. JSON floats, arrays and objects as field values are left out. So is a buffer that does not decode to an object (invalid JSON, or "0", which decodes to 0 so that `!empty` skips the copy).
- The cache file is modelled as the record its include defines, each field the string that was written. A value containing `"`, `\` or `$` does not survive the double-quoted PHP literal the file is written as, and that is not modelled.

## Findings

The classes follow the code as written in all three cases. Each corrected member states the evidently intended behaviour, and its property is proved beside the as-written one.

| source | as written | input that shows it | evidently intended | confidence | as-written member | corrected member |
|---|---|---|---|---|---|---|
| jomres_check_support_key.class.php:501-504 | `$license_data->is_trial_license == "Unknown"` is loose, and in PHP 7 `true == "Unknown"` holds | a fresh reply with is_trial_license = true | only the placeholder "Unknown" means no trial, so a trial licence reads as trial both fresh and from the cache | medium, not executed | LicenseCheck.TrialAsWrittenDisagrees | LicenseCheck.CachedTrialAgrees |
| j16000addplugin.class.php:445-446 | one str_replace pass per marker, so the pieces around a removed marker can form a new one | plugin name "<<x>x>" becomes "<x>" | no marker is left in the plugin name | low, not executed | AddPlugin.SanitiseOnceLeavesMarker | AddPlugin.Sanitise |
| j16000addplugin.class.php:640-657 | `$discovery_required = false` at the start of each iteration, so only the last dependency's flag survives | dependencies installed as (success, discovery), then (success, no discovery), for a plugin that is not a mambot, module or widget: the next step is the plugin manager, not the discover page | discovery is required when any installed dependency needs it | low, not executed | AddPlugin.DependencyDiscoveryForgotten | AddPlugin.DependencyDiscoveryAny |
