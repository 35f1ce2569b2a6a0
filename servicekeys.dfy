/**
 * The fixed set of service keys the agent has ready-made clients for
 * (`IsKnownServiceKey`). The key strings are the service-key constants of
 * the EdgeX client contracts module.
 */
module ServiceKeys {

  const SupportNotificationsServiceKey: string := "edgex-support-notifications"
  const CoreCommandServiceKey: string := "edgex-core-command"
  const CoreDataServiceKey: string := "edgex-core-data"
  const CoreMetaDataServiceKey: string := "edgex-core-metadata"
  const ExportClientServiceKey: string := "edgex-export-client"
  const ExportDistroServiceKey: string := "edgex-export-distro"
  const SupportLoggingServiceKey: string := "edgex-support-logging"
  const SupportSchedulerServiceKey: string := "edgex-support-scheduler"
  const ConfigSeedServiceKey: string := "edgex-config-seed"

  const KnownServiceKeys: set<string> := {
    SupportNotificationsServiceKey, CoreCommandServiceKey, CoreDataServiceKey,
    CoreMetaDataServiceKey, ExportClientServiceKey, ExportDistroServiceKey,
    SupportLoggingServiceKey, SupportSchedulerServiceKey, ConfigSeedServiceKey
  }

  /** `IsKnownServiceKey`: true for exactly the nine listed keys. */
  function IsKnownServiceKey(serviceKey: string): (known: bool)
    ensures known <==>
      || serviceKey == SupportNotificationsServiceKey || serviceKey == CoreCommandServiceKey
      || serviceKey == CoreDataServiceKey || serviceKey == CoreMetaDataServiceKey
      || serviceKey == ExportClientServiceKey || serviceKey == ExportDistroServiceKey
      || serviceKey == SupportLoggingServiceKey || serviceKey == SupportSchedulerServiceKey
      || serviceKey == ConfigSeedServiceKey
  {
    serviceKey in KnownServiceKeys
  }

  /** The nine keys are distinct. */
  lemma NineKnownServiceKeys()
    ensures |KnownServiceKeys| == 9
  {
    var keys := [SupportNotificationsServiceKey, CoreCommandServiceKey, CoreDataServiceKey,
                 CoreMetaDataServiceKey, ExportClientServiceKey, ExportDistroServiceKey,
                 SupportLoggingServiceKey, SupportSchedulerServiceKey, ConfigSeedServiceKey];
    assert forall i, j :: 0 <= i < j < |keys| ==> keys[i] != keys[j];
    DistinctSeqToSet(keys);
    assert KnownServiceKeys == set k | k in keys;
  }

  lemma {:induction false} DistinctSeqToSet(keys: seq<string>)
    requires forall i, j :: 0 <= i < j < |keys| ==> keys[i] != keys[j]
    ensures |set k | k in keys| == |keys|
  {
    if keys != [] {
      var rest := keys[1..];
      DistinctSeqToSet(rest);
      assert (set k | k in keys) == {keys[0]} + (set k | k in rest);
      assert keys[0] !in (set k | k in rest);
    }
  }
}
