# Rules of a Selenium/TestNG automation harness, in Dafny

This project models the small, self-contained rules inside a Java
Selenium/TestNG test-automation framework and proves properties of them:

- **Locators** (`locators.dfy`, class `LocatorManager`): JSON locator files
  become tables from element name to `(type, value, description)`. The type is
  lower-cased and mapped to one of eight Selenium `By` strategies, with the
  aliases `css`/`cssselector`, `classname`/`class` and `tagname`/`tag`. Tables
  are cached per file name, and the cache can be cleared.
- **Configuration** (`configuration.dfy`, class `ConfigManager`): properties
  come from `config.properties`, then `env.properties`, then sixteen
  environment variables. Typed getters have defaults. `getInstance` is a
  singleton, held by `ConfigRegistry`.
- **Retry policy** (`listeners.dfy`, class `RetryAnalyzer`): a single counter
  that grants at most `maxRetryCount` retries.
- **Driver lifecycle** (`drivers.dfy`, class `DriverManager`): a thread-local
  driver slot and a shared driver for attach mode. Initialisation is
  dispatched to attach, remote or local. Quitting obeys the attach-mode flag.
- **Screenshot naming and cleanup** (`screenshots.dfy`): the file-name
  sanitiser, the `<name>_<yyyyMMdd_HHmmss>.png` path, the `element_` prefix,
  and which old files the cleanup deletes.
- **JSON helpers** (`json_utils.dfy`): `getValueByPath` over an abstract JSON
  tree, with Java's `String.split` semantics for the path, and the shallow,
  right-biased `mergeJson`.

`common.dfy` holds `Option` (Java `null`), `Result` (a thrown exception) and
the Java `int`/`long` ranges. `java_text.dfy` models the `String` and `Integer`
operations the core uses: `toLowerCase`, `equalsIgnoreCase`,
`Integer.parseInt` and `String.valueOf(int)`. Its round-trip lemma states that
parsing a printed `int` gives the value back.

Foreign libraries and the environment are inputs:

- a locator file or properties file arrives already parsed;
- the process environment is a map;
- the browser library is a `Launcher` function that says, for each request,
  whether it yields a driver or fails;
- the clock is a set of calendar fields or a millisecond count;
- the file system is a directory listing whose entries say whether their
  delete succeeds.

## Model

| member | source | states |
|---|---|---|
| `JavaText.ToLower` | src/main/java/com/automation/locators/LocatorManager.java:133 | lower-casing keeps the length and lower-cases each ASCII letter in place |
| `JavaText.ToLowerIdempotent` | src/main/java/com/automation/locators/LocatorManager.java:133 | a lower-cased type has no upper-case letter, and lower-casing it again changes nothing |
| `JavaText.LowerOfUpper` | src/main/java/com/automation/locators/LocatorManager.java:133 | lower-casing forgets the case the input was written in |
| `JavaText.EqualsIgnoreCaseIffSameLower` | src/main/java/com/automation/config/ConfigManager.java:127-129 | `equalsIgnoreCase` holds exactly when the lower-case forms are equal |
| `JavaText.ParseInt` | src/main/java/com/automation/config/ConfigManager.java:134-147 | `Integer.parseInt` succeeds exactly on the texts `JavaIntText` describes: digits, or a sign followed by at least one digit, within the 32-bit range (one further on the negative side); the value is that decimal number with its sign |
| `JavaText.IntToString` | src/main/java/com/automation/config/ConfigManager.java:143 | `String.valueOf(int)` gives digits without a leading zero (except for 0 itself), prefixed by `-` exactly for negative numbers |
| `JavaText.IntRoundTrip` | src/main/java/com/automation/config/ConfigManager.java:143 | parsing `String.valueOf(n)` gives back `n` for every Java `int` |
| `JavaText.NatRoundTrip` | src/main/java/com/automation/config/ConfigManager.java:143 | the digits of a non-negative `int` parse back to it |
| `JavaText.NegativeRoundTrip` | src/main/java/com/automation/config/ConfigManager.java:143 | `-` followed by the digits of a negative `int`'s magnitude parses back to it, down to -2^31 |
| `JavaText.NatDigitsValue` | src/main/java/com/automation/config/ConfigManager.java:143 | the decimal digits of a number read back as that number |
| `JsonUtils.Get` | src/main/java/com/automation/utils/JsonUtils.java:138 | `JsonNode.get` finds a child only when the node is an object holding that key |
| `JsonUtils.AsText` | src/main/java/com/automation/utils/JsonUtils.java:141 | `asText` gives a string node's string, a number's text, "true" or "false" for a boolean, "null" for a null node and "" for an array or object |
| `JsonUtils.RawSplitJoin` | src/main/java/com/automation/utils/JsonUtils.java:131 | cutting a path at every dot loses nothing: rejoining the pieces with dots gives the path back |
| `JsonUtils.RawSplitNoDots` | src/main/java/com/automation/utils/JsonUtils.java:131 | no piece of the cut path holds a dot, so with the rejoin property the pieces are determined by the path |
| `JsonUtils.DropTrailingEmptyShape` | src/main/java/com/automation/utils/JsonUtils.java:131 | dropping trailing empty pieces keeps a prefix, removes only empty pieces and leaves no empty last piece |
| `JsonUtils.SplitShape` | src/main/java/com/automation/utils/JsonUtils.java:131 | for a path with a dot, the pieces `split("\\.")` drops are all empty and its last kept piece is not |
| `JsonUtils.Split` | src/main/java/com/automation/utils/JsonUtils.java:131 | `split("\\.")` returns a dot-free path as its only piece; otherwise a prefix of the dot-separated pieces; no piece holds a dot |
| `JsonUtils.WalkAppend` | src/main/java/com/automation/utils/JsonUtils.java:134-139 | walking a concatenated segment list is walking its two halves in turn |
| `JsonUtils.Walk` | src/main/java/com/automation/utils/JsonUtils.java:134-139 | no segments leave the node as it is; once the node is missing it stays missing |
| `JsonUtils.ValueByPath` | src/main/java/com/automation/utils/JsonUtils.java:131-141 | a text exactly when walking the split path reaches a node, and then it is that node's `asText` |
| `JsonUtils.MissingSegmentGivesNull` | src/main/java/com/automation/utils/JsonUtils.java:134-141 | once a prefix of the segments reaches a missing node the lookup returns null |
| `JsonUtils.SingleSegmentIsDirectLookup` | src/main/java/com/automation/utils/JsonUtils.java:131-141 | a path without dots gives the text of the root's field of that name, or null |
| `JsonUtils.TwoSegments` | src/main/java/com/automation/utils/JsonUtils.java:131-141 | looking up `a.b`, for a dot-free `a` (possibly empty) and a non-empty dot-free `b`, is looking up `b` under the node `a` names |
| `JsonUtils.GetValueByPath` | src/main/java/com/automation/utils/JsonUtils.java:128-146 | the loop returns the text of the node the segments reach, null at the first missing segment, and an error when the document does not parse |
| `JsonUtils.MergeJson` | src/main/java/com/automation/utils/JsonUtils.java:163-173 | the merge succeeds exactly when both documents are objects; its keys are the union; the second object's values win; keys only in the first keep their values |
| `JsonUtils.MergeIsShallow` | src/main/java/com/automation/utils/JsonUtils.java:167 | a nested object under a shared key is replaced, not merged: fields only the first held are gone |
| `Locators.NewLocatorInfo` | src/main/java/com/automation/locators/LocatorManager.java:132-136 | the stored type is lower-case and equal to the given type ignoring case; value and description are kept |
| `Locators.ToBy` | src/main/java/com/automation/locators/LocatorManager.java:153-177 | `toBy` succeeds exactly for the eleven accepted names, passes the value through and picks a strategy the name belongs to; any other type is an error naming it |
| `Locators.StrategyFor` | src/main/java/com/automation/locators/LocatorManager.java:154-175 | the switch picks a strategy exactly for the eleven accepted names, and the name is among that strategy's names |
| `Locators.NamesSelectTheirStrategy` | src/main/java/com/automation/locators/LocatorManager.java:154-173 | every name and alias of a strategy, in a new LocatorInfo, converts to that strategy with the value unchanged |
| `Locators.TypeIsCaseInsensitive` | src/main/java/com/automation/locators/LocatorManager.java:133 | an upper-cased type converts to the same `By` as the original |
| `Locators.EqualIgnoringCaseSameBy` | src/main/java/com/automation/locators/LocatorManager.java:133-175 | two types equal ignoring case convert to the same result |
| `Locators.EntryInfo` | src/main/java/com/automation/locators/LocatorManager.java:66-75 | an entry reads exactly when it has both `type` and `value`; the stored type is the `type` text lower-cased (equal to it ignoring case), the value is the `value` text, the description is the `description` text or "" when absent |
| `Locators.NoLocatorsNodeGivesEmptyTable` | src/main/java/com/automation/locators/LocatorManager.java:62-64 | a file without a `locators` node gives the empty table |
| `Locators.LocatorFields` | src/main/java/com/automation/locators/LocatorManager.java:62-65 | an object under `locators` gives its fields; a missing `locators` node, or one that is not an object, gives no entries |
| `Locators.TableFrom` | src/main/java/com/automation/locators/LocatorManager.java:64-77 | the table has exactly the entries' names and each holds its own entry's info, all with lower-case types, unless some entry lacks its type or value |
| `Locators.BuildTable` | src/main/java/com/automation/locators/LocatorManager.java:65-76 | the entry-by-entry loop fills exactly the table `TableFrom` describes |
| `Locators.LoadFromDisk` | src/main/java/com/automation/locators/LocatorManager.java:52-77 | a missing file is an error naming its path under `src/main/resources/locators/`, an unreadable one a load error naming it, a parsed one the table of its `locators` entries; a loaded table has lower-case types |
| `Locators.LocatorIn` | src/main/java/com/automation/locators/LocatorManager.java:97-105 | a load error propagates; an absent element is an error; a present one goes through `toBy` |
| `Locators.LocatorManager.constructor` | src/main/java/com/automation/locators/LocatorManager.java:38 | the cache starts empty |
| `Locators.LocatorManager.Loaded` | src/main/java/com/automation/locators/LocatorManager.java:46-49 | what `loadLocators` returns: the cached table for a cached file, the file's own load otherwise; lower-case types while the cache is valid |
| `Locators.LocatorManager.LoadLocators` | src/main/java/com/automation/locators/LocatorManager.java:45-88 | a cached file is returned from the cache and nothing is read; otherwise the file is read and cached only on success; the cache holds only lower-case tables |
| `Locators.LocatorManager.GetLocator` | src/main/java/com/automation/locators/LocatorManager.java:96-106 | the result is the loaded table's element converted by `toBy`, or the load or missing-element error; a cached file leaves the cache as it was, an uncached one is added exactly when it loads |
| `Locators.LocatorManager.GetLocatorInfo` | src/main/java/com/automation/locators/LocatorManager.java:111-114 | the element's info, null when absent, or the load error; the cache changes as in `GetLocator` |
| `Locators.LocatorManager.ClearCache` | src/main/java/com/automation/locators/LocatorManager.java:119-122 | the cache is empty afterwards |
| `Locators.LoadTwiceServesCache` | src/main/java/com/automation/locators/LocatorManager.java:46-49 | after a successful load, a second load returns the same table whatever the files now hold |
| `Configuration.LoadFile` | src/main/java/com/automation/config/ConfigManager.java:64-71 | a loaded file's keys override existing ones, other keys survive, and an unreadable file changes nothing |
| `Configuration.ApplyEnv` | src/main/java/com/automation/config/ConfigManager.java:97-103 | the variables only add or overwrite keys: every key of the files survives, and any new key is one a mapping names |
| `Configuration.ApplyEnvUnmapped` | src/main/java/com/automation/config/ConfigManager.java:97-103 | a key that no mapping names is left as the files set it |
| `Configuration.ApplyEnvMapped` | src/main/java/com/automation/config/ConfigManager.java:97-103 | a mapped key takes its variable's value when that is set and non-empty; otherwise it keeps the files' value |
| `Configuration.EnvMappingsDistinct` | src/main/java/com/automation/config/ConfigManager.java:78-95 | there are sixteen mappings and no property key is listed twice |
| `Configuration.ConfigureUnmappedKey` | src/main/java/com/automation/config/ConfigManager.java:45-56 | for an unmapped key, `env.properties` overrides `config.properties`, keys only in `config.properties` survive, and the environment does not matter |
| `Configuration.ConfigureMappedKey` | src/main/java/com/automation/config/ConfigManager.java:45-56 | a set, non-empty variable overrides both files for its key; an unset or empty one leaves the files' value |
| `Configuration.Configure` | src/main/java/com/automation/config/ConfigManager.java:45-56 | every key of either file is configured, and a key no variable maps is configured only if one of the files holds it |
| `Configuration.ConfigManager.constructor` | src/main/java/com/automation/config/ConfigManager.java:27-30 | the properties are the layered configuration |
| `Configuration.ConfigManager.LoadConfiguration` | src/main/java/com/automation/config/ConfigManager.java:45-59 | defaults file, then environment file, then environment variables, in that order |
| `Configuration.ConfigManager.LoadPropertiesFile` | src/main/java/com/automation/config/ConfigManager.java:64-71 | the properties become the old ones overlaid with the file's |
| `Configuration.ConfigManager.LoadEnvironmentVariables` | src/main/java/com/automation/config/ConfigManager.java:76-104 | the loop over the sixteen mappings gives the fold `ApplyEnv` over them |
| `Configuration.ConfigManager.GetProperty` | src/main/java/com/automation/config/ConfigManager.java:109-115 | null exactly when the key is absent, otherwise the stored value |
| `Configuration.ConfigManager.GetPropertyOr` | src/main/java/com/automation/config/ConfigManager.java:120-122 | the default exactly when the key is absent |
| `Configuration.ConfigManager.GetBooleanProperty` | src/main/java/com/automation/config/ConfigManager.java:127-129 | true iff the key is present and its value equals "true" ignoring case |
| `Configuration.ParseBooleanMeansTrue` | src/main/java/com/automation/config/ConfigManager.java:128 | `Boolean.parseBoolean` is true exactly for the text that lower-cases to "true" |
| `Configuration.ConfigManager.GetIntProperty` | src/main/java/com/automation/config/ConfigManager.java:134-136 | 0 for an absent key, the parsed value for a valid one, a NumberFormatException otherwise |
| `Configuration.ConfigManager.GetIntPropertyOr` | src/main/java/com/automation/config/ConfigManager.java:141-147 | the default when the key is absent or its value is not a Java int, the parsed value otherwise; never an error |
| `Configuration.ConfigManager.GetBaseUrl` | src/main/java/com/automation/config/ConfigManager.java:150-152 | the `base.url` value, null when absent |
| `Configuration.ConfigManager.GetApiBaseUrl` | src/main/java/com/automation/config/ConfigManager.java:154-156 | the `api.base.url` value, null when absent |
| `Configuration.ConfigManager.GetBrowser` | src/main/java/com/automation/config/ConfigManager.java:158-160 | `browser`, defaulting to "chrome" |
| `Configuration.ConfigManager.IsHeadless` | src/main/java/com/automation/config/ConfigManager.java:162-164 | `headless` read as a boolean, false when absent |
| `Configuration.ConfigManager.IsRemoteExecution` | src/main/java/com/automation/config/ConfigManager.java:166-168 | `remote.execution` read as a boolean, false when absent |
| `Configuration.ConfigManager.GetRemoteUrl` | src/main/java/com/automation/config/ConfigManager.java:170-172 | the `remote.url` value, null when absent |
| `Configuration.ConfigManager.GetImplicitWait` | src/main/java/com/automation/config/ConfigManager.java:174-176 | `browser.implicit.wait` parsed as a Java `int` when it is one; 10 when it is absent or not a valid `int` |
| `Configuration.ConfigManager.GetExplicitWait` | src/main/java/com/automation/config/ConfigManager.java:178-180 | `browser.explicit.wait` parsed as a Java `int` when it is one; 30 when it is absent or not a valid `int` |
| `Configuration.ConfigManager.GetPageLoadTimeout` | src/main/java/com/automation/config/ConfigManager.java:182-184 | `browser.page.load.timeout` parsed as a Java `int` when it is one; 60 when it is absent or not a valid `int` |
| `Configuration.ConfigManager.ShouldTakeScreenshotOnFailure` | src/main/java/com/automation/config/ConfigManager.java:186-188 | `screenshot.on.failure` read as a boolean |
| `Configuration.ConfigManager.GetScreenshotPath` | src/main/java/com/automation/config/ConfigManager.java:190-192 | `screenshot.path`, defaulting to "target/screenshots" |
| `Configuration.ConfigManager.GetRetryCount` | src/main/java/com/automation/config/ConfigManager.java:194-196 | `retry.count` parsed as a Java `int` when it is one; 2 when it is absent or not a valid `int` |
| `Configuration.ConfigManager.IsAttachBrowserMode` | src/main/java/com/automation/config/ConfigManager.java:198-200 | `attach.browser` read as a boolean |
| `Configuration.ConfigManager.GetDebugPort` | src/main/java/com/automation/config/ConfigManager.java:202-204 | `debug.port` parsed as a Java `int` when it is one; 9222 when it is absent or not a valid `int` |
| `Configuration.ConfigManager.GetTestUsername` | src/main/java/com/automation/config/ConfigManager.java:206-208 | the `test.username` value, null when absent |
| `Configuration.ConfigManager.GetTestPassword` | src/main/java/com/automation/config/ConfigManager.java:210-212 | the `test.password` value, null when absent |
| `Configuration.ConfigRegistry.GetInstance` | src/main/java/com/automation/config/ConfigManager.java:35-40 | the first call builds the manager from the inputs; later calls return the same object |
| `Listeners.GrantedCount` | src/main/java/com/automation/listeners/RetryAnalyzer.java:24-30 | over n calls exactly min(n, max - count) retries are granted (none once the maximum is reached), and the count grows by that many |
| `Listeners.RefusalIsFinal` | src/main/java/com/automation/listeners/RetryAnalyzer.java:24-30 | after the first refused retry every later call is refused |
| `Listeners.CountBounded` | src/main/java/com/automation/listeners/RetryAnalyzer.java:15-25 | from 0, with a non-negative maximum, the count never exceeds the maximum |
| `Listeners.RetryAnalyzer.constructor` | src/main/java/com/automation/listeners/RetryAnalyzer.java:15-20 | the count starts at 0; the constant maximum is the configured retry count |
| `Listeners.RetryAnalyzer.Retry` | src/main/java/com/automation/listeners/RetryAnalyzer.java:23-31 | true iff the count was below the maximum; true adds exactly one to the count, false leaves it; the count stays within the maximum and the `int` range |
| `Drivers.LocalBrowser` | src/main/java/com/automation/driver/DriverManager.java:72-103 | the lower-cased name selects chrome, firefox, edge or safari, and nothing else |
| `Drivers.RemoteBrowser` | src/main/java/com/automation/driver/DriverManager.java:113-132 | the grid accepts chrome, firefox and edge only, as the local switch does |
| `Drivers.LocalInit` | src/main/java/com/automation/driver/DriverManager.java:71-107 | an unsupported name is an error naming it; for a supported one the local launch decides, and a driver it yields is the result |
| `Drivers.RemoteInit` | src/main/java/com/automation/driver/DriverManager.java:112-141 | the name is checked first, then the URL (an absent one is malformed), then the remote session: a driver it yields is the result, a malformed URL is an error naming it, a failed session is a driver failure |
| `Drivers.SafariIsLocalOnly` | src/main/java/com/automation/driver/DriverManager.java:96-131 | safari is a local browser and is refused for remote runs |
| `Drivers.BrowserNameIsCaseInsensitive` | src/main/java/com/automation/driver/DriverManager.java:72-113 | the browser name may be written in any case |
| `Drivers.AttachInit` | src/main/java/com/automation/driver/DriverManager.java:153-183 | the attached session if attaching works, else a browser started on the debug port, else an error |
| `Drivers.DriverManager.constructor` | src/main/java/com/automation/driver/DriverManager.java:31-36 | no driver, no shared driver, not initialised |
| `Drivers.DriverManager.GetDriver` | src/main/java/com/automation/driver/DriverManager.java:45-50 | the shared driver, present, when attach mode is on and it is initialised; the thread's slot otherwise |
| `Drivers.DriverManager.Settings` | src/main/java/com/automation/driver/DriverManager.java:188-198 | a current driver gets the configured implicit wait, page-load timeout and maximise flag; none without a driver |
| `Drivers.DriverManager.InitDriver` | src/main/java/com/automation/driver/DriverManager.java:55-66 | attach mode takes priority over remote, remote over local; each path changes only its own slot; the call succeeds exactly when the chosen path yields a driver (in attach mode, also when one is already attached), and then `getDriver` has a driver and it is configured |
| `Drivers.DriverManager.InitLocalDriver` | src/main/java/com/automation/driver/DriverManager.java:71-107 | the slot holds the new driver on success and is unchanged on error |
| `Drivers.DriverManager.InitRemoteDriver` | src/main/java/com/automation/driver/DriverManager.java:112-141 | the slot holds the new remote driver on success and is unchanged on error |
| `Drivers.DriverManager.InitAttachedBrowser` | src/main/java/com/automation/driver/DriverManager.java:147-166 | no-op when already initialised; otherwise attach or fall back; success leaves the shared driver initialised |
| `Drivers.DriverManager.StartBrowserWithDebugPort` | src/main/java/com/automation/driver/DriverManager.java:171-183 | a launched browser becomes the initialised shared driver; a failed launch changes nothing |
| `Drivers.DriverManager.QuitDriver` | src/main/java/com/automation/driver/DriverManager.java:268-286 | changes nothing in attach mode; otherwise the thread's driver is told to quit and the slot is emptied |
| `Drivers.DriverManager.ForceQuitAll` | src/main/java/com/automation/driver/DriverManager.java:291-317 | afterwards the slot is empty, the shared driver is null and not initialised; both drivers were told to quit, thread-local first |
| `Screenshots.ReplaceInvalid` | src/main/java/com/automation/utils/ScreenshotUtils.java:179 | each character outside `[a-zA-Z0-9.-]` becomes one `_`; the others stay in place |
| `Screenshots.SanitizeFileName` | src/main/java/com/automation/utils/ScreenshotUtils.java:174-180 | null or empty gives "screenshot"; otherwise characters are replaced one for one; the output is non-empty and made only of `[a-zA-Z0-9._-]` |
| `Screenshots.SanitizeIdempotent` | src/main/java/com/automation/utils/ScreenshotUtils.java:179 | sanitising twice equals sanitising once |
| `Screenshots.SanitizeKeepsCleanNames` | src/main/java/com/automation/utils/ScreenshotUtils.java:179 | a non-empty name made of allowed characters and underscores is unchanged |
| `Screenshots.TimestampShape` | src/main/java/com/automation/utils/ScreenshotUtils.java:76 | for a four-digit year the `yyyyMMdd_HHmmss` stamp has eight digits, an underscore and six digits |
| `Screenshots.Timestamp` | src/main/java/com/automation/utils/ScreenshotUtils.java:76 | the stamp is at least fifteen characters of digits with an underscore among them |
| `Screenshots.TimestampFields` | src/main/java/com/automation/utils/ScreenshotUtils.java:76 | for real calendar values with a four-digit year, the stamp's `yyyy`, `MM`, `dd`, `HH`, `mm` and `ss` digits read back as the year, month, day, hour, minute and second |
| `Screenshots.Padded` | src/main/java/com/automation/utils/ScreenshotUtils.java:76 | a numeric field prints as digits whose value is the number, zero-padded to exactly the width when it fits and unpadded when it is wider |
| `Screenshots.ScreenshotFileName` | src/main/java/com/automation/utils/ScreenshotUtils.java:77 | the name is the sanitised test name, `_`, the timestamp and `.png`, in that order |
| `Screenshots.FileNameHasNoSeparator` | src/main/java/com/automation/utils/ScreenshotUtils.java:77-78 | no test name can put a path separator into the file name |
| `Screenshots.SaveScreenshot` | src/main/java/com/automation/utils/ScreenshotUtils.java:74-97 | the path is the configured directory, the separator and the file name; a failed write is an error; the error carries the path, which the source only logs |
| `Screenshots.SaveElementScreenshot` | src/main/java/com/automation/utils/ScreenshotUtils.java:144-147 | saving an element screenshot is saving a screenshot named `element_` followed by the element name (or `null`); that file's name starts with `element_`, ends in `.png`, and lies in the screenshot directory |
| `Screenshots.ElementPathShape` | src/main/java/com/automation/utils/ScreenshotUtils.java:146 | any element name or timestamp gives a path inside the directory whose file name starts with `element_` and ends in `.png` |
| `Screenshots.ElementNamePrefix` | src/main/java/com/automation/utils/ScreenshotUtils.java:146 | the `element_` prefix survives sanitising; a null element name gives `element_null` |
| `Screenshots.ConcatNullable` | src/main/java/com/automation/utils/ScreenshotUtils.java:146 | Java string concatenation with a possibly-null operand: the prefix, then the string or "null" |
| `Screenshots.Cutoff` | src/main/java/com/automation/utils/ScreenshotUtils.java:200 | for clock values below 2^62 the cutoff is now minus daysOld days in milliseconds, without wrap-around |
| `Screenshots.WrapLong` | src/main/java/com/automation/utils/ScreenshotUtils.java:200 | Java `long` wrap-around: an in-range value is kept, any other differs from the result by a multiple of 2^64 |
| `Screenshots.RemovedExactly` | src/main/java/com/automation/utils/ScreenshotUtils.java:204-210 | a listed file is deleted exactly when it is a regular file modified strictly before the cutoff and its delete succeeds |
| `Screenshots.Removed` | src/main/java/com/automation/utils/ScreenshotUtils.java:204-210 | the deleted files are no more than those listed, each a listed regular file modified before the cutoff whose delete succeeds |
| `Screenshots.RemovedStep` | src/main/java/com/automation/utils/ScreenshotUtils.java:204-210 | each listed file is deleted after those before it, or skipped |
| `Screenshots.RemovedFrom` | src/main/java/com/automation/utils/ScreenshotUtils.java:196-203 | nothing is deleted when the directory is missing, is not a directory or cannot be listed |
| `Screenshots.CleanupOldScreenshots` | src/main/java/com/automation/utils/ScreenshotUtils.java:192-212 | the loop deletes exactly the files `RemovedFrom` selects, in listing order |

## Left out

- JSON parsing and serialisation, which Jackson does (`readTree`, `readValue`, `writeValueAsString`, `isValidJson`, `toJson`, `fromJson`, `readJsonFile`, `writeJsonFile`, `toMap`): documents arrive as trees and results are returned as trees. The key order of the merged `LinkedHashMap` is not modelled, because maps here are unordered. A number node holds the text `asText` prints for it, and producing that text is the parser's part: Jackson's `readTree` does not keep the document's numeral, so `1.50` becomes a `DoubleNode` printed `1.5` and `1e2` prints `100.0`. `getValueByPath` on such a numeral therefore returns the canonical text, not the document's.
- `Properties.load` parsing of `.properties` files, and the difference between a missing and an unreadable file: both become `None`, and the source treats them the same.
- Browser and driver construction: the `Launcher` input decides whether a launch succeeds. The Chrome, Firefox and Edge option sets and `WebDriverManager` setup are browser-side. Whether a grid URL is well formed is decided by the launcher, except that an absent URL is always malformed.
- `configureDriver` is modelled as the settings it sends (`Settings`), not as calls on a browser.
- `quit()` can throw, but the source swallows the exception and clears the slot anyway. So the model only records that quit was requested, in `quitSent`.
- ThreadLocal, ConcurrentHashMap and `synchronized`: one sequential thread, and the driver slot is a single field.
- The clock and the file system: timestamps are given as calendar fields, `currentTimeMillis` as a number, and directory listings, file writes and deletes as inputs. Directory creation in `saveScreenshot` succeeds or fails together with the write.
- Logging, and the screenshot capture calls (`takeScreenshot`, `takeScreenshotAsFile`, `takeScreenshotAsBase64`, `takeElementScreenshot`, `takeFullPageScreenshot`, `byteArrayToImage`, `getScreenshotDirectory`): they only delegate to Selenium or ImageIO, or return a configured value.
- JavaText.ToLower: folds ASCII letters only. Java's `toLowerCase` is Unicode- and locale-aware, so a few non-ASCII letters (the Kelvin sign, for one) could lower-case into an accepted locator or browser name in Java but not here. In the other direction, under a Turkish default locale `"ID".toLowerCase()` is `"ıd"` and `"FIREFOX"` becomes `"fırefox"`, so Java rejects names that `TypeIsCaseInsensitive` and `BrowserNameIsCaseInsensitive` accept; the model assumes a locale with ASCII case rules.
- JavaText.ParseInt: accepts ASCII digits only. Java's `Integer.parseInt` also accepts other Unicode decimal digits.
- Screenshots.SanitizeFileName: strings are sequences of Unicode code points, which matches what Java's regex replaces. Unpaired UTF-16 surrogates cannot be represented.
- A locator entry without `type` or `value` throws a NullPointerException in the source. The model returns `MalformedEntry` without the element's name.
- Screenshots.SaveScreenshot: the `SaveFailed` error carries the file path for the statement of the contract; the source's `RuntimeException("Failed to save screenshot")` does not, and the path appears only in its log line.
- `ParseBoolean` itself has no postcondition: its characterisation is the lemma `ParseBooleanMeansTrue`, which keeps literal-string reasoning out of every caller's proof.
- Drivers.LocalInit: the headless flag travels with every local launch request, Safari's included, although `new SafariDriver()` takes no options; the launcher input is free to ignore it there.
