/** The execution platforms the modeler knows (client/src/util/Engines.js):
    a constant list of engine profiles and the lookup of a platform's latest
    stable version. */
module Engines {
  import opened Wrappers

  /** `ENGINES` */
  const Platform := "Camunda Platform"
  const Cloud := "Camunda Cloud"
  const AllEngines: seq<string> := [Platform, Cloud]

  datatype EngineProfile = EngineProfile(executionPlatform: string, executionPlatformVersions: seq<string>,
                                         latestStable: string)

  /** `ENGINE_PROFILES` */
  const EngineProfiles: seq<EngineProfile> := [
    EngineProfile(Platform, ["7.19.0", "7.18.0", "7.17.0", "7.16.0", "7.15.0"], "7.19.0"),
    EngineProfile(Cloud, ["8.2.0", "8.1.0", "8.0.0", "1.3.0", "1.2.0", "1.1.0", "1.0.0"], "8.2.0")
  ]

  /** `ENGINE_LABELS` */
  const EngineLabels: map<string, string> := map[
    Platform := "Camunda Platform 7",
    Cloud := "Camunda Platform 8"
  ]

  /** `profiles.find(p => p.executionPlatform === platform)`: the first
      profile for the platform, if there is one. */
  function FindProfile(profiles: seq<EngineProfile>, platform: string): (r: Option<EngineProfile>)
    ensures r.None? <==> forall i :: 0 <= i < |profiles| ==> profiles[i].executionPlatform != platform
    ensures r.Some? ==> r.value.executionPlatform == platform
    ensures r.Some? ==>
      exists i :: (0 <= i < |profiles| && profiles[i] == r.value
                   && forall j :: 0 <= j < i ==> profiles[j].executionPlatform != platform)
    decreases |profiles|
  {
    if |profiles| == 0 then None
    else if profiles[0].executionPlatform == platform then Some(profiles[0])
    else
      var r := FindProfile(profiles[1..], platform);
      assert forall i :: 1 <= i < |profiles| ==> profiles[i] == profiles[1..][i - 1];
      if r.Some? then
        var k :| 0 <= k < |profiles[1..]| && profiles[1..][k] == r.value
          && forall j :: 0 <= j < k ==> profiles[1..][j].executionPlatform != platform;
        assert profiles[k + 1] == r.value;
        r
      else r
  }

  /** `getLatestStable`: the latest stable version of the platform's profile;
      it throws for a platform without a profile. */
  function GetLatestStable(platform: string): (r: Result<string, string>)
    ensures r.Failure? <==> forall i :: 0 <= i < |EngineProfiles| ==> EngineProfiles[i].executionPlatform != platform
    ensures r.Success? ==>
      exists i :: (0 <= i < |EngineProfiles|
                   && EngineProfiles[i].executionPlatform == platform && r.value == EngineProfiles[i].latestStable)
    ensures r.Failure? ==> r.error == "no profile for platform <" + platform + ">"
  {
    match FindProfile(EngineProfiles, platform)
    case None => Failure("no profile for platform <" + platform + ">")
    case Some(profile) => Success(profile.latestStable)
  }

  /** Every profile's latest stable version is the first, newest, of its
      versions. */
  lemma LatestStableIsNewest()
    ensures forall i :: 0 <= i < |EngineProfiles| ==>
      |EngineProfiles[i].executionPlatformVersions| > 0
      && EngineProfiles[i].latestStable == EngineProfiles[i].executionPlatformVersions[0]
      && EngineProfiles[i].latestStable in EngineProfiles[i].executionPlatformVersions
  {
  }

  /** The profiles belong to distinct platforms and cover all engines, and
      every engine has a label: the lookup is unique and total over
      `ENGINES`. */
  lemma ProfilesCoverEngines()
    ensures forall i, j :: 0 <= i < j < |EngineProfiles| ==>
      EngineProfiles[i].executionPlatform != EngineProfiles[j].executionPlatform
    ensures forall k :: 0 <= k < |AllEngines| ==>
      exists i :: 0 <= i < |EngineProfiles| && EngineProfiles[i].executionPlatform == AllEngines[k]
    ensures forall k :: 0 <= k < |AllEngines| ==> AllEngines[k] in EngineLabels
  {
    assert EngineProfiles[0].executionPlatform == AllEngines[0];
    assert EngineProfiles[1].executionPlatform == AllEngines[1];
  }

  /** For each engine, the lookup succeeds with its profile's version. */
  lemma LatestStableOfEngines()
    ensures GetLatestStable(Platform) == Success("7.19.0")
    ensures GetLatestStable(Cloud) == Success("8.2.0")
  {
    assert EngineProfiles[0].executionPlatform == Platform;
    assert EngineProfiles[1].executionPlatform == Cloud;
    assert Platform != Cloud;
  }

  /** A platform without a profile makes the lookup fail. */
  lemma UnknownPlatformFails(platform: string)
    requires platform != Platform && platform != Cloud
    ensures GetLatestStable(platform).Failure?
  {
  }
}
