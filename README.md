# ADBMarketingMobileCore configuration and extension core, in Dafny

This project models the process-wide state machine behind the `+` class methods of
`ADBMarketingMobileCore` (Adobe Marketing Mobile SDK 5.0.0b2, iOS). The only file of that SDK
available is its public header, which declares the methods and documents what they do; the SDK
itself is a closed binary. The model is therefore built from the doc comments, read as contracts.

The state consists of:

- a **base** configuration document, installed by `configureWithAppId:` (from a download) or by
  `configureWithFileInPath:` (from a local JSON file);
- the accumulated **updates** of `updateConfiguration:`;
- an optional **privacy override**, set by `setPrivacyStatus:`;
- the per-appid **download cache** and the **stored appid**;
- the write-once **app group**;
- the **extension registry**, a set of names.

The **effective configuration** is the base overlaid key by key by the updates. A nil-valued update
removes its key. The privacy status that `getPrivacyStatus:` reports is the override when one was
set. Otherwise it is the `global.privacy` value of the effective configuration.

Layout:

- `wrappers.dfy`: `Option`, which stands for a nullable argument.
- `configuration.dfy` (module `Configuration`): values, documents, the overlay, the privacy status
  read from a document, and `MergeUpdates`, the per-key loop that folds an update dictionary into
  the accumulated updates.
- `core_spec.dfy` (module `CoreSpec`): the state as a value and one pure transition per class
  method, plus `Relaunch`. `Run` executes a sequence of calls. The lemmas state the promised
  properties over single calls and over call sequences.
- `core.dfy` (module `MobileCore`): class `Core`. It has one field per piece of state and one
  `modifies this` method per class method. Each method is proved to perform the matching
  `CoreSpec` transition on `Snapshot()`. `PrivacyOverrideClient` shows what a caller can derive
  from those contracts alone: an override that outlives a re-download, and a nil update that
  removes a key.

Modelling choices the header leaves open:

- Configuration values are abstract. They are `Null`, `Text(s)`, or `Opaque(n)` for every other
  JSON value. `global.privacy` is read as `OptIn` for the text `optedin` and `OptOut` for
  `optedout`. Anything else, and an absent key, reads as `Unknown`. The header names the key but
  gives neither the encoding nor a default (ADBMarketingMobileCore.h:36-46).
- An accumulated update keeps its nil entries. A key removed by `updateConfiguration:` therefore
  stays removed under every later base, since updates are "applied over existing or new
  configurations" (lines 141-143). Deleting the nil entry from the accumulated updates instead
  would let a new base bring the key back, which those lines rule out.
- When both are given, the privacy override wins over an update of `global.privacy`.
- The privacy override is not written into the effective configuration. It only decides what
  `getPrivacyStatus:` reports, although lines 66-68 also call it "applied on top". Nothing else in
  the model reads `global.privacy`, so the difference cannot be observed.
- `configureWithFileInPath:` keeps the stored appid. After a relaunch, the appid's downloaded or
  cached configuration therefore replaces the file base. Line 84 ("replace any existing SDK
  configuration") also allows a reading where a file clears the stored appid.
- `setAppGroup:` follows the header literally (line 113). The first call of a launch records its
  argument, nil included, and every later call has no effect. A reading where a nil first call
  does not count is not modelled.
- A relaunch keeps the updates, the privacy override, the stored appid and the download cache. It
  drops the base and then downloads the stored appid again. The app group and the extension
  registry are also reset, because both have to be set up again in every launch
  (lines 112, 159-160).
- The header only advises calling `registerExtension` before other calls (lines 159-161). It does
  not say a late call fails, so the model does not reject late registrations.

## Model

| member | source | states |
|---|---|---|
| Configuration.Overlay | ACPTarget_iOS.framework/Frameworks/ACPCore_iOS.framework/Headers/ADBMarketingMobileCore.h:140-145 | the effective configuration takes every non-nil update, lacks every key updated to nil, and agrees with the base on every key no update names |
| Configuration.ConfiguredStatus | ACPTarget_iOS.framework/Frameworks/ACPCore_iOS.framework/Headers/ADBMarketingMobileCore.h:35-38 | the status is OptIn (OptOut) exactly when `global.privacy` holds the opted-in (opted-out) value |
| Configuration.MergeUpdates | ACPTarget_iOS.framework/Frameworks/ACPCore_iOS.framework/Headers/ADBMarketingMobileCore.h:140-147 | the per-key loop gives every key of the new dictionary its new value and keeps every other accumulated key, i.e. the right-biased union |
| Configuration.OverlayOfMerge | ACPTarget_iOS.framework/Frameworks/ACPCore_iOS.framework/Headers/ADBMarketingMobileCore.h:140-145 | overlaying the merged updates equals applying the new dictionary on top of the old effective configuration |
| CoreSpec.ApplyFetch | ACPTarget_iOS.framework/Frameworks/ACPCore_iOS.framework/Headers/ADBMarketingMobileCore.h:54-63 | a download replaces that appid's cache entry and becomes the base; a failure uses the cached document if any, and otherwise changes nothing |
| CoreSpec.ConfigureWithAppId | ACPTarget_iOS.framework/Frameworks/ACPCore_iOS.framework/Headers/ADBMarketingMobileCore.h:51-74 | nil changes nothing; otherwise the appid is stored and the download (or cache fallback) replaces only the base, leaving updates and privacy override on top |
| CoreSpec.ConfigureWithFileInPath | ACPTarget_iOS.framework/Frameworks/ACPCore_iOS.framework/Headers/ADBMarketingMobileCore.h:76-91 | nil or an unreadable/unparseable file changes nothing; otherwise the file's document replaces only the base |
| CoreSpec.UpdateConfiguration | ACPTarget_iOS.framework/Frameworks/ACPCore_iOS.framework/Headers/ADBMarketingMobileCore.h:137-149 | nil changes nothing; otherwise given keys are added or replaced, nil-valued keys vanish from the effective configuration, and every other key keeps its presence and value |
| CoreSpec.SetPrivacyStatus | ACPTarget_iOS.framework/Frameworks/ACPCore_iOS.framework/Headers/ADBMarketingMobileCore.h:125-135 | records the override and nothing else; the reported status is then the one set |
| CoreSpec.SetAppGroup | ACPTarget_iOS.framework/Frameworks/ACPCore_iOS.framework/Headers/ADBMarketingMobileCore.h:110-115 | the first call records its argument; once recorded every call leaves the state unchanged |
| CoreSpec.RegisterExtension | ACPTarget_iOS.framework/Frameworks/ACPCore_iOS.framework/Headers/ADBMarketingMobileCore.h:153-168 | YES exactly when the name is non-empty, unused and the class derives from ADBExtension; YES grows the registry by exactly that name, NO changes nothing |
| CoreSpec.Relaunch | ACPTarget_iOS.framework/Frameworks/ACPCore_iOS.framework/Headers/ADBMarketingMobileCore.h:59-60 | updates, privacy override, stored appid and cache persist (also lines 79-80, 128-130, 141-143); the base is rebuilt only from the stored appid's download or cache |
| CoreSpec.RunPreservesValid | ACPTarget_iOS.framework/Frameworks/ACPCore_iOS.framework/Headers/ADBMarketingMobileCore.h:156 | along any call sequence no registered extension name is empty |
| CoreSpec.InitialIsValid | ACPTarget_iOS.framework/Frameworks/ACPCore_iOS.framework/Headers/ADBMarketingMobileCore.h:156 | a fresh installation has no extension with an empty name |
| CoreSpec.RunKeepsPrivacyOverride | ACPTarget_iOS.framework/Frameworks/ACPCore_iOS.framework/Headers/ADBMarketingMobileCore.h:128-130 | no call other than setPrivacyStatus: changes the override, relaunches included |
| CoreSpec.PrivacyOverrideSticky | ACPTarget_iOS.framework/Frameworks/ACPCore_iOS.framework/Headers/ADBMarketingMobileCore.h:128-130 | after setPrivacyStatus:(s), getPrivacyStatus: reports s after any sequence of calls that does not set it again |
| CoreSpec.PrivacyWithoutOverride | ACPTarget_iOS.framework/Frameworks/ACPCore_iOS.framework/Headers/ADBMarketingMobileCore.h:35-38 | with no override the reported status is the effective `global.privacy` value |
| CoreSpec.UpdatesSurviveBaseChanges | ACPTarget_iOS.framework/Frameworks/ACPCore_iOS.framework/Headers/ADBMarketingMobileCore.h:65-68 | calls other than updateConfiguration: keep the updates, so the effective configuration is always the current base under them |
| CoreSpec.AppGroupWriteOnce | ACPTarget_iOS.framework/Frameworks/ACPCore_iOS.framework/Headers/ADBMarketingMobileCore.h:112-113 | once recorded, the app group is unchanged by any sequence of calls within the launch |
| CoreSpec.RegistryOnlyGrows | ACPTarget_iOS.framework/Frameworks/ACPCore_iOS.framework/Headers/ADBMarketingMobileCore.h:153-157 | within a launch, a registered extension stays registered |
| CoreSpec.DuplicateNameRejected | ACPTarget_iOS.framework/Frameworks/ACPCore_iOS.framework/Headers/ADBMarketingMobileCore.h:156-157 | a second registration under a taken name fails, and the two calls grow the registry by exactly one |
| CoreSpec.UpdateIdempotent | ACPTarget_iOS.framework/Frameworks/ACPCore_iOS.framework/Headers/ADBMarketingMobileCore.h:145 | applying the same update dictionary twice is applying it once, nil removals included |
| CoreSpec.FileBaseCommutesWithUpdate | ACPTarget_iOS.framework/Frameworks/ACPCore_iOS.framework/Headers/ADBMarketingMobileCore.h:84-87 | a local-file base and an update give the same state in either order |
| CoreSpec.RemoteBaseCommutesWithUpdate | ACPTarget_iOS.framework/Frameworks/ACPCore_iOS.framework/Headers/ADBMarketingMobileCore.h:65-68 | a downloaded base and an update give the same state in either order |
| CoreSpec.FailedFetchUsesCache | ACPTarget_iOS.framework/Frameworks/ACPCore_iOS.framework/Headers/ADBMarketingMobileCore.h:62-63 | a failed download with a cache entry yields the cached document under the updates |
| CoreSpec.FailedFetchWithoutCacheKeepsConfiguration | ACPTarget_iOS.framework/Frameworks/ACPCore_iOS.framework/Headers/ADBMarketingMobileCore.h:62-63 | a failed download with no cache entry leaves the effective configuration unchanged |
| CoreSpec.RemoteConfigurationSurvivesOfflineRelaunch | ACPTarget_iOS.framework/Frameworks/ACPCore_iOS.framework/Headers/ADBMarketingMobileCore.h:55-60 | a downloaded configuration is back after a relaunch even if the re-download fails |
| CoreSpec.FileConfigurationNotPreserved | ACPTarget_iOS.framework/Frameworks/ACPCore_iOS.framework/Headers/ADBMarketingMobileCore.h:79-80 | a readable file becomes the base, yet after a relaunch the state is exactly what it would have been without that file |
| MobileCore.Core.constructor | ACPTarget_iOS.framework/Frameworks/ACPCore_iOS.framework/Headers/ADBMarketingMobileCore.h:16 | a fresh installation: empty base, updates, cache and registry, no override, no appid, no app group |
| MobileCore.Core.ApplyDownload | ACPTarget_iOS.framework/Frameworks/ACPCore_iOS.framework/Headers/ADBMarketingMobileCore.h:54-63 | performs CoreSpec.ApplyFetch on the object's fields |
| MobileCore.Core.ConfigureWithAppId | ACPTarget_iOS.framework/Frameworks/ACPCore_iOS.framework/Headers/ADBMarketingMobileCore.h:74 | performs CoreSpec.ConfigureWithAppId; updates and override untouched; nil changes nothing |
| MobileCore.Core.ConfigureWithFileInPath | ACPTarget_iOS.framework/Frameworks/ACPCore_iOS.framework/Headers/ADBMarketingMobileCore.h:91 | performs CoreSpec.ConfigureWithFileInPath; updates and override untouched; nil or unreadable changes nothing |
| MobileCore.Core.UpdateConfiguration | ACPTarget_iOS.framework/Frameworks/ACPCore_iOS.framework/Headers/ADBMarketingMobileCore.h:149 | performs CoreSpec.UpdateConfiguration through the MergeUpdates loop; base and override untouched |
| MobileCore.Core.SetPrivacyStatus | ACPTarget_iOS.framework/Frameworks/ACPCore_iOS.framework/Headers/ADBMarketingMobileCore.h:135 | performs CoreSpec.SetPrivacyStatus |
| MobileCore.Core.GetPrivacyStatus | ACPTarget_iOS.framework/Frameworks/ACPCore_iOS.framework/Headers/ADBMarketingMobileCore.h:93-101 | returns the override if set, otherwise the `global.privacy` status of the base under the updates |
| MobileCore.Core.SetAppGroup | ACPTarget_iOS.framework/Frameworks/ACPCore_iOS.framework/Headers/ADBMarketingMobileCore.h:115 | performs CoreSpec.SetAppGroup; once recorded, nothing changes |
| MobileCore.Core.RegisterExtension | ACPTarget_iOS.framework/Frameworks/ACPCore_iOS.framework/Headers/ADBMarketingMobileCore.h:167-168 | performs CoreSpec.RegisterExtension; returns YES exactly on valid parameters and grows the registry by that name only then |
| MobileCore.Core.Relaunch | ACPTarget_iOS.framework/Frameworks/ACPCore_iOS.framework/Headers/ADBMarketingMobileCore.h:59-60 | performs CoreSpec.Relaunch; updates, override and stored appid persist |

## Left out

- The download, JSON parsing of files and responses, and on-disk persistence live in the closed binary. A download is the `FetchOutcome` parameter. A file read is the `disk` parameter, which maps each readable, parseable path to its document. The persisted data are plain fields.
- Asynchronous delivery: `getPrivacyStatus:` returns the status instead of passing it to a callback (line 101), and a download completes within the call that starts it.
- Concurrency and the completion order of overlapping downloads: the header says nothing about them.
- Objective-C class introspection and `NSError` construction (lines 163-168): whether the class derives from ADBExtension is the boolean `derivesFromExtension` of `ExtensionClass`, and the error is the NO result.
- `setLogLevel:` and `ADBMobileLogLevel`: logging only.
- `sdkVersion`: its literal value is not documented.
- `UNNotificationResponse` (line 12): an unused forward declaration.
- How the app group scopes storage: the group is recorded but changes nothing else.
- Concrete JSON value kinds: values other than text are abstract.
- ConfiguredStatus: the mapping of `global.privacy` texts, and `Unknown` for an absent key, are modelling choices. The header states neither.
