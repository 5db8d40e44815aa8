/**
 * ADBMarketingMobileCore: the SDK's process-wide state as an object whose
 * methods are the header's `+` class methods. Each method is proved to
 * perform the matching transition of module CoreSpec, where the promised
 * properties are proved; its own postconditions restate the ones a caller
 * relies on directly.
 */
module MobileCore {
  import opened Wrappers
  import opened Configuration
  import opened CoreSpec

  class Core {
    var base: Document
    var updates: Document
    var privacyOverride: Option<PrivacyStatus>
    var cache: map<string, Document>
    var storedAppId: Option<string>
    var appGroup: AppGroup
    var extensions: set<string>

    /** The abstract value of this object. */
    ghost function Snapshot(): State
      reads this
    {
      State(base, updates, privacyOverride, cache, storedAppId, appGroup, extensions)
    }

    /** The invariant of CoreSpec.Valid on the object's fields. */
    ghost predicate Valid()
      reads this
    {
      CoreSpec.Valid(Snapshot())
    }

    /** The SDK on a fresh installation. */
    constructor ()
      ensures Valid() && Snapshot() == Initial()
    {
      base := map[];
      updates := map[];
      privacyOverride := None;
      cache := map[];
      storedAppId := None;
      appGroup := NotYetSet;
      extensions := {};
    }

    /** Installs the outcome of downloading the configuration of `appid`. */
    method ApplyDownload(appid: string, fetch: FetchOutcome)
      modifies this
      ensures Snapshot() == ApplyFetch(old(Snapshot()), appid, fetch)
    {
      match fetch {
        case Downloaded(doc) =>
          cache := cache[appid := doc];
          base := doc;
        case DownloadFailed =>
          if appid in cache {
            base := cache[appid];
          }
      }
    }

    /** configureWithAppId: with the download's outcome as a parameter. */
    method ConfigureWithAppId(appid: Option<string>, fetch: FetchOutcome)
      requires Valid()
      modifies this
      ensures Valid()
      ensures Snapshot() == CoreSpec.ConfigureWithAppId(old(Snapshot()), appid, fetch)
      ensures updates == old(updates) && privacyOverride == old(privacyOverride)
      ensures appid.None? ==> Snapshot() == old(Snapshot())
    {
      if appid.Some? {
        storedAppId := appid;
        ApplyDownload(appid.value, fetch);
      }
    }

    /** configureWithFileInPath: with the readable, parseable files as `disk`. */
    method ConfigureWithFileInPath(path: Option<string>, disk: map<string, Document>)
      requires Valid()
      modifies this
      ensures Valid()
      ensures Snapshot() == CoreSpec.ConfigureWithFileInPath(old(Snapshot()), path, disk)
      ensures updates == old(updates) && privacyOverride == old(privacyOverride)
      ensures path.None? || path.value !in disk ==> Snapshot() == old(Snapshot())
    {
      if path.Some? && path.value in disk {
        base := disk[path.value];
      }
    }

    /** updateConfiguration: folds `config` into the accumulated updates. */
    method UpdateConfiguration(config: Option<Document>)
      requires Valid()
      modifies this
      ensures Valid()
      ensures Snapshot() == CoreSpec.UpdateConfiguration(old(Snapshot()), config)
      ensures base == old(base) && privacyOverride == old(privacyOverride)
      ensures config.None? ==> Snapshot() == old(Snapshot())
    {
      if config.Some? {
        updates := MergeUpdates(updates, config.value);
      }
    }

    /** setPrivacyStatus: */
    method SetPrivacyStatus(status: PrivacyStatus)
      requires Valid()
      modifies this
      ensures Valid()
      ensures Snapshot() == CoreSpec.SetPrivacyStatus(old(Snapshot()), status)
      ensures privacyOverride == Some(status)
    {
      privacyOverride := Some(status);
    }

    /** getPrivacyStatus:, delivering the status as a result instead of to a callback. */
    method GetPrivacyStatus() returns (status: PrivacyStatus)
      ensures status == PrivacyStatusOf(Snapshot())
      ensures privacyOverride.Some? ==> status == privacyOverride.value
      ensures privacyOverride.None? ==> status == ConfiguredStatus(Overlay(base, updates))
    {
      if privacyOverride.Some? {
        status := privacyOverride.value;
      } else {
        status := ConfiguredStatus(Overlay(base, updates));
      }
    }

    /** setAppGroup: only the first call has any effect. */
    method SetAppGroup(group: Option<string>)
      requires Valid()
      modifies this
      ensures Valid()
      ensures Snapshot() == CoreSpec.SetAppGroup(old(Snapshot()), group)
      ensures old(appGroup).Recorded? ==> Snapshot() == old(Snapshot())
    {
      if appGroup.NotYetSet? {
        appGroup := Recorded(group);
      }
    }

    /** registerExtension:error:, the NSError left out: NO is the error. */
    method RegisterExtension(ext: ExtensionClass) returns (ok: bool)
      requires Valid()
      modifies this
      ensures Valid()
      ensures (ok, Snapshot()) == CoreSpec.RegisterExtension(old(Snapshot()), ext)
      ensures ok <==> ext.name != "" && ext.name !in old(extensions) && ext.derivesFromExtension
      ensures extensions == if ok then old(extensions) + {ext.name} else old(extensions)
    {
      ok := ext.name != "" && ext.name !in extensions && ext.derivesFromExtension;
      if ok {
        extensions := extensions + {ext.name};
      }
    }

    /**
     * A relaunch of the application: what the header says persists is kept,
     * the rest of the process's state is reset, and the stored appid is
     * downloaded again with outcome `refetch`.
     */
    method Relaunch(refetch: FetchOutcome)
      requires Valid()
      modifies this
      ensures Valid()
      ensures Snapshot() == CoreSpec.Relaunch(old(Snapshot()), refetch)
      ensures updates == old(updates) && privacyOverride == old(privacyOverride)
      ensures storedAppId == old(storedAppId)
    {
      base := map[];
      appGroup := NotYetSet;
      extensions := {};
      if storedAppId.Some? {
        ApplyDownload(storedAppId.value, refetch);
      }
    }
  }

  /**
   * A client: what a caller can conclude from the contracts of Core alone.
   * The override set by setPrivacyStatus: outlives a re-download whose
   * document opts in, and a nil update removes a key set earlier.
   */
  method PrivacyOverrideClient()
  {
    var core := new Core();
    var downloaded := map[PrivacyKey := Text(OptedInText), "x" := Opaque(1)];
    core.ConfigureWithAppId(Some("A1"), Downloaded(downloaded));
    var status := core.GetPrivacyStatus();
    assert status == OptIn;

    core.SetPrivacyStatus(OptOut);
    status := core.GetPrivacyStatus();
    assert status == OptOut;

    core.ConfigureWithAppId(Some("A1"), Downloaded(map[PrivacyKey := Text(OptedInText)]));
    status := core.GetPrivacyStatus();
    assert status == OptOut;

    core.UpdateConfiguration(Some(map["x" := Opaque(5)]));
    core.UpdateConfiguration(Some(map["x" := Null]));
    assert "x" !in Effective(core.Snapshot());
  }
}
