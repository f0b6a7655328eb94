/**
  saveRank.py: the store of daily rankings kept in rankings.json, and the main block
  that builds the list of overview URLs from apps.yaml, fetches one ranking per URL and
  files each under a key naming the app, the region and the platform.

  The main block builds the URL list and the key list in two separate passes that must
  stay index-aligned. As written, they pick the platforms by different rules; the model
  keeps that rule beside the corrected one, and the main block uses the corrected one.
 */
module SaveRank {
  import opened Wrappers
  import opened Strings
  import opened Chunking
  import opened JsonValues
  import opened Ranking

  // ---------------------------------------------------------------------------
  // save_rankings_to_file

  /**
    The dict `json.load` leaves in `all_rankings`: empty for a missing file or invalid
    JSON, the object's members for a JSON object. For any other JSON value the
    assignment `all_rankings[today] = ...` raises TypeError: None.
   */
  function Loaded(present: bool, stored: Option<Json>): Option<Entries> {
    if !present || stored.None? then Some([])
    else match stored.value
      case JObject(e) => Some(e)
      case _ => None
  }

  /** The dict written back: today's rankings set on what was loaded. */
  function Saved(present: bool, stored: Option<Json>, today: string, rankings: Json): Option<Entries> {
    match Loaded(present, stored)
    case None => None
    case Some(e) => Some(SetKey(e, today, rankings))
  }

  /**
    After a save, today's date holds exactly the given rankings and every other date keeps
    its entry; a missing file or invalid JSON leaves exactly `{today: rankings}`; only a
    valid JSON value that is not an object makes the save fail.
   */
  lemma SavedSpec(present: bool, stored: Option<Json>, today: string, rankings: Json)
    ensures var r := Saved(present, stored, today, rankings);
      (r.None? <==> present && stored.Some? && !stored.value.JObject?)
      && (r.Some? ==> Lookup(r.value, today) == Some(rankings))
      && (r.Some? && present && stored.Some? ==>
            forall d :: d != today ==> Lookup(r.value, d) == Lookup(stored.value.entries, d))
      && (r.Some? && present && stored.Some? ==> KeySet(r.value) == KeySet(stored.value.entries) + {today})
      && (!present || stored.None? ==> r == Some([(today, rankings)]))
  {
    assert KeyIndex([], today) == None;
    assert [] + [(today, rankings)] == [(today, rankings)];
  }

  /** Saving the same rankings twice on the same day leaves the same content as saving once. */
  lemma SaveIdempotent(present: bool, stored: Option<Json>, today: string, rankings: Json)
    requires Saved(present, stored, today, rankings).Some?
    ensures var once := Saved(present, stored, today, rankings).value;
      Saved(true, Some(JObject(once)), today, rankings) == Some(once)
  {
    var e := Loaded(present, stored).value;
    SetKeyIdempotent(e, today, rankings);
  }

  /** rankings.json: whether it exists, and what `json.load` reads from it (None when the JSON is invalid). */
  class RankingsFile {
    var present: bool
    var stored: Option<Json>

    constructor(present: bool, stored: Option<Json>)
      ensures this.present == present && this.stored == stored
    {
      this.present := present;
      this.stored := stored;
    }

    /** `save_rankings_to_file`: load, set today's entry, write back with `json.dump`. */
    method Save(today: string, rankings: Json) returns (ok: bool)
      modifies this
      ensures ok <==> Saved(old(present), old(stored), today, rankings).Some?
      ensures ok ==> present && stored == Some(JObject(Saved(old(present), old(stored), today, rankings).value))
      ensures !ok ==> present == old(present) && stored == old(stored)
    {
      var allRankings: Entries := [];
      if present && stored.Some? {
        if !stored.value.JObject? {
          return false;
        }
        allRankings := stored.value.entries;
      }
      allRankings := SetKey(allRankings, today, rankings);
      present := true;
      stored := Some(JObject(allRankings));
      return true;
    }
  }

  // ---------------------------------------------------------------------------
  // apps.yaml and the URL and key lists

  /**
    One app of apps.yaml. A platform is None when its key is absent; its id is "" when the
    key is present but the id is falsy (null, empty).
   */
  datatype App = App(id: string, regions: seq<string>, ios: Option<string>, android: Option<string>)

  datatype Platform = Ios | Android

  /** One (app, region, platform) the main block visits, with the platform's store id. */
  datatype Target = Target(appId: string, region: string, platform: Platform, storeId: string)

  /**
    Which platforms a pass picks: the URL pass needs the key present and the id truthy;
    the key pass as written needs only the key present.
   */
  datatype Rule = IdTruthy | KeyPresent

  predicate Picks(rule: Rule, id: Option<string>) {
    match rule
    case IdTruthy => id.Some? && id.value != ""
    case KeyPresent => id.Some?
  }

  function PlatformTarget(app: App, region: string, platform: Platform, id: Option<string>): Target {
    Target(app.id, region, platform, if id.Some? then id.value else "")
  }

  /** The platforms picked for one region, iOS before Android. */
  function RegionTargets(rule: Rule, app: App, region: string): seq<Target> {
    (if Picks(rule, app.ios) then [PlatformTarget(app, region, Ios, app.ios)] else [])
    + (if Picks(rule, app.android) then [PlatformTarget(app, region, Android, app.android)] else [])
  }

  /** The regions of one app, in order. */
  function RegionsTargets(rule: Rule, app: App, regions: seq<string>): seq<Target>
    decreases |regions|
  {
    if |regions| == 0 then []
    else RegionsTargets(rule, app, regions[..|regions| - 1]) + RegionTargets(rule, app, regions[|regions| - 1])
  }

  /** All apps, in order. */
  function AppsTargets(rule: Rule, apps: seq<App>): seq<Target>
    decreases |apps|
  {
    if |apps| == 0 then []
    else AppsTargets(rule, apps[..|apps| - 1]) + RegionsTargets(rule, apps[|apps| - 1], apps[|apps| - 1].regions)
  }

  function PlatformName(p: Platform): string {
    match p
    case Ios => "ios"
    case Android => "android"
  }

  /** The overview URL, with the region as written. */
  const OverviewUrl: string := "https://app.sensortower.com/overview/"

  function UrlOf(t: Target): string {
    OverviewUrl + t.storeId + "?country=" + t.region
  }

  /** `f"{app_id}_{region.lower()}_{platform}"`. */
  function KeyOf(t: Target): string {
    t.appId + "_" + LowerAscii(t.region) + "_" + PlatformName(t.platform)
  }

  /** The URL list: one URL per picked platform, app by app, region by region, iOS first. */
  function AppUrls(apps: seq<App>): seq<string> {
    MapSeq(UrlOf, AppsTargets(IdTruthy, apps))
  }

  /** `{key: ranking[key] for key in ['rank', 'category']}`; None when a key is missing (KeyError). */
  function Pick(ranking: Json): Option<Json> {
    if ranking.JObject? && HasKey(ranking.entries, "rank") && HasKey(ranking.entries, "category") then
      Some(JObject([("rank", Lookup(ranking.entries, "rank").value), ("category", Lookup(ranking.entries, "category").value)]))
    else None
  }

  /** The picked value holds exactly the rank and the category of the ranking. */
  lemma PickSpec(ranking: Json)
    ensures Pick(ranking).Some? <==> ranking.JObject? && HasKey(ranking.entries, "rank") && HasKey(ranking.entries, "category")
    ensures Pick(ranking).Some? ==>
      var e := Pick(ranking).value.entries;
      KeySet(e) == {"rank", "category"}
      && Lookup(e, "rank") == Lookup(ranking.entries, "rank")
      && Lookup(e, "category") == Lookup(ranking.entries, "category")
  {
    if Pick(ranking).Some? {
      var e := Pick(ranking).value.entries;
      assert KeySet(e) == {e[0].0, e[1].0};
    }
  }

  /** The first `n` rankings exist and each carries a rank and a category. */
  predicate Feasible(n: nat, rankings: seq<Json>) {
    n <= |rankings| && forall j :: 0 <= j < n ==> Pick(rankings[j]).Some?
  }

  /** The rank-and-category objects of the first `n` rankings. */
  function PickedValues(rankings: seq<Json>, n: nat): (r: seq<Json>)
    requires Feasible(n, rankings)
    ensures |r| == n
  {
    seq(n, j requires 0 <= j < n => Pick(rankings[j]).value)
  }

  /** The picks of fewer rankings are a prefix of the picks of more. */
  lemma PickedValuesPrefix(rankings: seq<Json>, n: nat, m: nat)
    requires Feasible(n, rankings) && m <= n
    ensures Feasible(m, rankings)
    ensures PickedValues(rankings, n)[..m] == PickedValues(rankings, m)
  {
  }

  /** `d[keys[0]] = values[0]; d[keys[1]] = values[1]; ...` on an empty dict. */
  function Assign(keys: seq<string>, values: seq<Json>): Entries
    requires |keys| <= |values|
    decreases |keys|
  {
    if |keys| == 0 then []
    else SetKey(Assign(keys[..|keys| - 1], values), keys[|keys| - 1], values[|keys| - 1])
  }

  /**
    The key pass: target `j` is filed under its key with the rank and category of
    `rankings[j]`. Running past the end of `rankings` (IndexError) or meeting a ranking
    without those keys (KeyError) raises: None.
   */
  function KeyMapping(targets: seq<Target>, rankings: seq<Json>): Option<Entries> {
    if Feasible(|targets|, rankings) then Some(Assign(MapSeq(KeyOf, targets), PickedValues(rankings, |targets|)))
    else None
  }

  /** The key pass as written in saveRank.py: a key for every platform whose key is present. */
  function KeyMappingAsWritten(apps: seq<App>, rankings: seq<Json>): Option<Entries> {
    KeyMapping(AppsTargets(KeyPresent, apps), rankings)
  }

  /** The key pass walking the same platforms as the URL pass. */
  function RankingKeys(apps: seq<App>, rankings: seq<Json>): Option<Entries> {
    KeyMapping(AppsTargets(IdTruthy, apps), rankings)
  }

  /**
    With one key for every URL, the keys and URLs come from the same list of platforms:
    key `j` and URL `j` name the same app, region and platform.
   */
  lemma KeysAlignWithUrls(apps: seq<App>)
    ensures |AppUrls(apps)| == |AppsTargets(IdTruthy, apps)|
    ensures forall j :: 0 <= j < |AppUrls(apps)| ==>
      AppUrls(apps)[j] == UrlOf(AppsTargets(IdTruthy, apps)[j])
  {
  }

  /** The keys in a list, as a set. */
  function KeysOf(keys: seq<string>): set<string> {
    set k | k in keys
  }

  predicate Distinct(keys: seq<string>) {
    forall i, j :: 0 <= i < j < |keys| ==> keys[i] != keys[j]
  }

  /** Assigning the keys in order writes exactly those keys. */
  lemma {:induction false} AssignKeys(keys: seq<string>, values: seq<Json>)
    requires |keys| <= |values|
    ensures KeySet(Assign(keys, values)) == KeysOf(keys)
    decreases |keys|
  {
    if |keys| == 0 {
      assert KeysOf(keys) == {};
    } else {
      var n := |keys| - 1;
      AssignKeys(keys[..n], values);
      KeysOfSnoc(keys);
    }
  }

  lemma KeysOfSnoc(keys: seq<string>)
    requires |keys| > 0
    ensures KeysOf(keys) == KeysOf(keys[..|keys| - 1]) + {keys[|keys| - 1]}
  {
    var n := |keys| - 1;
    assert keys == keys[..n] + [keys[n]];
  }

  /** With distinct keys, each key holds the value given with it. */
  lemma {:induction false} AssignValues(keys: seq<string>, values: seq<Json>)
    requires |keys| <= |values| && Distinct(keys)
    ensures forall j :: 0 <= j < |keys| ==> Lookup(Assign(keys, values), keys[j]) == Some(values[j])
    decreases |keys|
  {
    if |keys| > 0 {
      var n := |keys| - 1;
      var init := keys[..n];
      assert Distinct(init);
      AssignValues(init, values);
      forall j | 0 <= j < |keys| ensures Lookup(Assign(keys, values), keys[j]) == Some(values[j]) {
        if j < n {
          assert init[j] == keys[j] && keys[j] != keys[n];
        }
      }
    }
  }

  /**
    A successful key pass writes one key per target and no other; with distinct keys,
    target `j`'s key holds the rank and category of `rankings[j]`.
   */
  lemma KeyMappingSpec(targets: seq<Target>, rankings: seq<Json>)
    ensures KeyMapping(targets, rankings).Some? <==> Feasible(|targets|, rankings)
    ensures KeyMapping(targets, rankings).Some? ==>
      KeySet(KeyMapping(targets, rankings).value) == KeysOf(MapSeq(KeyOf, targets))
    ensures KeyMapping(targets, rankings).Some? && Distinct(MapSeq(KeyOf, targets)) ==>
      forall j :: 0 <= j < |targets| ==> Lookup(KeyMapping(targets, rankings).value, KeyOf(targets[j])) == Pick(rankings[j])
  {
    if Feasible(|targets|, rankings) {
      var keys := MapSeq(KeyOf, targets);
      var values := PickedValues(rankings, |targets|);
      AssignKeys(keys, values);
      if Distinct(keys) {
        AssignValues(keys, values);
      }
    }
  }

  /** Every platform key the app has carries a truthy id. */
  predicate IdsTruthy(app: App) {
    (app.ios.Some? ==> app.ios.value != "") && (app.android.Some? ==> app.android.value != "")
  }

  /**
    When every platform whose key is present has a truthy id, the two rules pick the same
    platforms, so the mapping as written agrees with the aligned one.
   */
  lemma {:induction false} AsWrittenAgreesWhenIdsTruthy(apps: seq<App>, rankings: seq<Json>)
    requires forall a :: 0 <= a < |apps| ==> IdsTruthy(apps[a])
    ensures AppsTargets(KeyPresent, apps) == AppsTargets(IdTruthy, apps)
    ensures KeyMappingAsWritten(apps, rankings) == RankingKeys(apps, rankings)
    decreases |apps|
  {
    if |apps| > 0 {
      var n := |apps| - 1;
      AsWrittenAgreesWhenIdsTruthy(apps[..n], rankings);
      SameRegionsTargets(apps[n], apps[n].regions);
    }
  }

  lemma {:induction false} SameRegionsTargets(app: App, regions: seq<string>)
    requires IdsTruthy(app)
    ensures RegionsTargets(KeyPresent, app, regions) == RegionsTargets(IdTruthy, app, regions)
    decreases |regions|
  {
    if |regions| > 0 {
      SameRegionsTargets(app, regions[..|regions| - 1]);
    }
  }

  /** The app of the counterexample: an iOS key with a null id, and an Android id. */
  function NullIosApp(): App {
    App("a", ["TW"], Some(""), Some("x"))
  }

  /** One app with one region: its targets are those of the region. */
  lemma SingleApp(rule: Rule, app: App)
    requires |app.regions| == 1
    ensures AppsTargets(rule, [app]) == RegionTargets(rule, app, app.regions[0])
  {
    assert [app][..0] == [];
    assert app.regions[..0] == [];
    assert RegionsTargets(rule, app, app.regions) == [] + RegionTargets(rule, app, app.regions[0]);
  }

  lemma NullIosTargets()
    ensures AppsTargets(KeyPresent, [NullIosApp()]) == [Target("a", "TW", Ios, ""), Target("a", "TW", Android, "x")]
    ensures AppsTargets(IdTruthy, [NullIosApp()]) == [Target("a", "TW", Android, "x")]
  {
    SingleApp(KeyPresent, NullIosApp());
    SingleApp(IdTruthy, NullIosApp());
  }

  lemma NullIosKeys()
    ensures KeyOf(Target("a", "TW", Ios, "")) == "a_tw_ios"
    ensures KeyOf(Target("a", "TW", Android, "x")) == "a_tw_android"
  {
    assert LowerAscii("TW") == "tw";
  }

  lemma NullIosAligned()
    ensures KeyMapping([Target("a", "TW", Android, "x")], [EmptyRank()]) == Some([("a_tw_android", Pick(EmptyRank()).value)])
  {
    NullIosKeys();
    assert HasKey(EmptyRank().entries, "rank") && HasKey(EmptyRank().entries, "category");
    assert Feasible(1, [EmptyRank()]);
    var keys := MapSeq(KeyOf, [Target("a", "TW", Android, "x")]);
    assert keys == ["a_tw_android"];
    assert keys[..0] == [];
    var values := PickedValues([EmptyRank()], 1);
    assert values[0] == Pick(EmptyRank()).value;
    assert Assign(keys, values) == SetKey([], "a_tw_android", values[0]);
    assert KeyIndex([], "a_tw_android") == None;
    assert [] + [("a_tw_android", Pick(EmptyRank()).value)] == [("a_tw_android", Pick(EmptyRank()).value)];
  }

  lemma NullIosUrls()
    ensures AppUrls([NullIosApp()]) == ["https://app.sensortower.com/overview/x?country=TW"]
  {
    NullIosTargets();
    var android := Target("a", "TW", Android, "x");
    assert UrlOf(android) == "https://app.sensortower.com/overview/x?country=TW";
    assert MapSeq(UrlOf, [android]) == [UrlOf(android)];
  }

  /**
    With a null iOS id, the URL pass visits only the Android page, but the key pass as
    written files that page's ranking under the iOS key and then runs past the end of the
    one-entry list (IndexError), so nothing is saved; the aligned pass files it under the
    Android key.
   */
  lemma NullIdMisaligns()
    ensures AppUrls([NullIosApp()]) == ["https://app.sensortower.com/overview/x?country=TW"]
    ensures |AppsTargets(KeyPresent, [NullIosApp()])| == 2
    ensures KeyOf(AppsTargets(KeyPresent, [NullIosApp()])[0]) == "a_tw_ios"
    ensures KeyMappingAsWritten([NullIosApp()], [EmptyRank()]) == None
    ensures RankingKeys([NullIosApp()], [EmptyRank()]) == Some([("a_tw_android", Pick(EmptyRank()).value)])
  {
    NullIosTargets();
    NullIosKeys();
    NullIosAligned();
    NullIosUrls();
  }

  // ---------------------------------------------------------------------------
  // The main block

  lemma RegionsTargetsSnoc(rule: Rule, app: App, regions: seq<string>, r: nat)
    requires r < |regions|
    ensures RegionsTargets(rule, app, regions[..r + 1]) == RegionsTargets(rule, app, regions[..r]) + RegionTargets(rule, app, regions[r])
  {
    assert regions[..r + 1][..r] == regions[..r];
  }

  lemma AppsTargetsSnoc(rule: Rule, apps: seq<App>, a: nat)
    requires a < |apps|
    ensures AppsTargets(rule, apps[..a + 1]) == AppsTargets(rule, apps[..a]) + RegionsTargets(rule, apps[a], apps[a].regions)
  {
    assert apps[..a + 1][..a] == apps[..a];
  }

  /** The first pass: for each app, each region, iOS then Android, the URL of every truthy id. */
  method BuildUrls(apps: seq<App>) returns (appUrls: seq<string>)
    ensures appUrls == AppUrls(apps)
  {
    appUrls := [];
    ghost var done: seq<Target> := [];
    for a := 0 to |apps|
      invariant done == AppsTargets(IdTruthy, apps[..a])
      invariant appUrls == MapSeq(UrlOf, done)
    {
      appUrls, done := AddAppUrls(apps[a], appUrls, done);
      AppsTargetsSnoc(IdTruthy, apps, a);
    }
    assert apps[..|apps|] == apps;
  }

  /** The inner loop of the URL pass, over the regions of one app. */
  method AddAppUrls(app: App, appUrls: seq<string>, ghost done: seq<Target>)
    returns (appUrls': seq<string>, ghost done': seq<Target>)
    requires appUrls == MapSeq(UrlOf, done)
    ensures done' == done + RegionsTargets(IdTruthy, app, app.regions)
    ensures appUrls' == MapSeq(UrlOf, done')
  {
    appUrls', done' := appUrls, done;
    assert app.regions[..0] == [];
    assert done + [] == done;
    for r := 0 to |app.regions|
      invariant done' == done + RegionsTargets(IdTruthy, app, app.regions[..r])
      invariant appUrls' == MapSeq(UrlOf, done')
    {
      ghost var before := done';
      appUrls', done' := AddRegionUrls(app, app.regions[r], appUrls', done');
      RegionsTargetsSnoc(IdTruthy, app, app.regions, r);
      ConcatAssoc(done, RegionsTargets(IdTruthy, app, app.regions[..r]), RegionTargets(IdTruthy, app, app.regions[r]));
    }
    assert app.regions[..|app.regions|] == app.regions;
  }

  /** The two `if`s of the inner loop of the URL pass. */
  method AddRegionUrls(app: App, region: string, appUrls: seq<string>, ghost done: seq<Target>)
    returns (appUrls': seq<string>, ghost done': seq<Target>)
    requires appUrls == MapSeq(UrlOf, done)
    ensures done' == done + RegionTargets(IdTruthy, app, region)
    ensures appUrls' == MapSeq(UrlOf, done')
  {
    appUrls', done' := appUrls, done;
    if app.ios.Some? && app.ios.value != "" {
      var t := PlatformTarget(app, region, Ios, app.ios);
      MapSeqSnoc(UrlOf, done', t);
      appUrls' := appUrls' + [OverviewUrl + app.ios.value + "?country=" + region];
      done' := done' + [t];
    }
    if app.android.Some? && app.android.value != "" {
      var t := PlatformTarget(app, region, Android, app.android);
      MapSeqSnoc(UrlOf, done', t);
      appUrls' := appUrls' + [OverviewUrl + app.android.value + "?country=" + region];
      done' := done' + [t];
    }
  }

  lemma {:induction false} RegionsTargetsPrefix(rule: Rule, app: App, regions: seq<string>, r: nat)
    requires r <= |regions|
    ensures |RegionsTargets(rule, app, regions[..r])| <= |RegionsTargets(rule, app, regions)|
    decreases |regions| - r
  {
    if r < |regions| {
      RegionsTargetsPrefix(rule, app, regions, r + 1);
      RegionsTargetsSnoc(rule, app, regions, r);
    } else {
      assert regions[..r] == regions;
    }
  }

  lemma {:induction false} AppsTargetsPrefix(rule: Rule, apps: seq<App>, a: nat)
    requires a <= |apps|
    ensures |AppsTargets(rule, apps[..a])| <= |AppsTargets(rule, apps)|
    decreases |apps| - a
  {
    if a < |apps| {
      AppsTargetsPrefix(rule, apps, a + 1);
      AppsTargetsSnoc(rule, apps, a);
    } else {
      assert apps[..a] == apps;
    }
  }

  /** Filing one more target: its key gets the rank and category of the next ranking. */
  lemma KeyMappingLast(targets: seq<Target>, t: Target, rankings: seq<Json>)
    ensures KeyMapping(targets + [t], rankings) ==
      if KeyMapping(targets, rankings).Some? && |targets| < |rankings| && Pick(rankings[|targets|]).Some?
      then Some(SetKey(KeyMapping(targets, rankings).value, KeyOf(t), Pick(rankings[|targets|]).value))
      else None
  {
    var n := |targets|;
    if Feasible(n + 1, rankings) {
      assert Feasible(n, rankings);
      AssignLast(MapSeq(KeyOf, targets), KeyOf(t), rankings);
      MapSeqSnoc(KeyOf, targets, t);
    } else if Feasible(n, rankings) && n < |rankings| && Pick(rankings[n]).Some? {
      assert Feasible(n + 1, rankings);
    }
  }

  /** Assigning one more key takes the next picked value and leaves the earlier assignments alone. */
  lemma AssignLast(keys: seq<string>, key: string, rankings: seq<Json>)
    requires Feasible(|keys| + 1, rankings)
    ensures Feasible(|keys|, rankings)
    ensures Assign(keys + [key], PickedValues(rankings, |keys| + 1))
      == SetKey(Assign(keys, PickedValues(rankings, |keys|)), key, Pick(rankings[|keys|]).value)
  {
    var n := |keys|;
    var values := PickedValues(rankings, n + 1);
    AssignSnoc(keys, key, values);
    PickedValuesPrefix(rankings, n + 1, n);
    AssignTake(keys, values);
    assert Some(values[n]) == Pick(rankings[n]);
  }

  lemma AssignSnoc(keys: seq<string>, key: string, values: seq<Json>)
    requires |keys| < |values|
    ensures Assign(keys + [key], values) == SetKey(Assign(keys, values), key, values[|keys|])
  {
    assert (keys + [key])[..|keys|] == keys;
  }

  lemma AssignTake(keys: seq<string>, values: seq<Json>)
    requires |keys| <= |values|
    ensures Assign(keys, values) == Assign(keys, values[..|keys|])
  {
    AssignPrefixValues(keys, values, values[..|keys|]);
  }

  /** Only the first `|keys|` values matter. */
  lemma {:induction false} AssignPrefixValues(keys: seq<string>, values: seq<Json>, others: seq<Json>)
    requires |keys| <= |values| && |keys| <= |others|
    requires forall j :: 0 <= j < |keys| ==> values[j] == others[j]
    ensures Assign(keys, values) == Assign(keys, others)
    decreases |keys|
  {
    if |keys| > 0 {
      AssignPrefixValues(keys[..|keys| - 1], values, others);
    }
  }

  /** A prefix that raises makes the whole mapping raise. */
  lemma PrefixRaises(prefix: seq<Target>, targets: seq<Target>, rankings: seq<Json>)
    requires |prefix| <= |targets| && KeyMapping(prefix, rankings).None?
    ensures KeyMapping(targets, rankings).None?
  {
  }

  /** One key of the second pass: `rankings[key] = {...}` from `app_rankings[index]`, then `index += 1`. */
  method AddKey(t: Target, appRankings: seq<Json>, acc: Entries, index: nat, ghost done: seq<Target>)
    returns (acc': Option<Entries>, index': nat)
    requires index == |done| && KeyMapping(done, appRankings) == Some(acc)
    ensures index' == index + 1
    ensures acc' == KeyMapping(done + [t], appRankings)
  {
    KeyMappingLast(done, t, appRankings);
    if index >= |appRankings| {
      return None, index + 1;
    }
    var value := Pick(appRankings[index]);
    if value.None? {
      return None, index + 1;
    }
    acc' := Some(SetKey(acc, KeyOf(t), value.value));
    index' := index + 1;
  }

  /** One `if` of the inner loop of the key pass: file `t` when `picked`; None when that raises. */
  method MaybeAddKey(picked: bool, t: Target, appRankings: seq<Json>, acc: Entries, index: nat, ghost done: seq<Target>)
    returns (acc': Option<Entries>, index': nat, ghost done': seq<Target>)
    requires index == |done| && KeyMapping(done, appRankings) == Some(acc)
    ensures done' == done + (if picked then [t] else [])
    ensures acc'.None? ==> KeyMapping(done', appRankings).None?
    ensures acc'.Some? ==> index' == |done'| && KeyMapping(done', appRankings) == acc'
  {
    if picked {
      acc', index' := AddKey(t, appRankings, acc, index, done);
      done' := done + [t];
    } else {
      acc', index', done' := Some(acc), index, done;
      assert done + [] == done;
    }
  }

  /** The two `if`s of the inner loop of the key pass; None when one of them raises. */
  method AddRegionKeys(rule: Rule, app: App, region: string, appRankings: seq<Json>, acc: Entries, index: nat,
                       ghost done: seq<Target>)
    returns (acc': Option<Entries>, index': nat, ghost done': seq<Target>)
    requires index == |done| && KeyMapping(done, appRankings) == Some(acc)
    ensures acc'.None? ==> KeyMapping(done + RegionTargets(rule, app, region), appRankings).None?
    ensures acc'.Some? ==> done' == done + RegionTargets(rule, app, region)
                           && index' == |done'| && KeyMapping(done', appRankings) == acc'
  {
    var ios := PlatformTarget(app, region, Ios, app.ios);
    var android := PlatformTarget(app, region, Android, app.android);
    ghost var iosPart := if Picks(rule, app.ios) then [ios] else [];
    ghost var androidPart := if Picks(rule, app.android) then [android] else [];
    assert RegionTargets(rule, app, region) == iosPart + androidPart;
    acc', index', done' := MaybeAddKey(Picks(rule, app.ios), ios, appRankings, acc, index, done);
    if acc'.None? {
      PrefixRaises(done', done + RegionTargets(rule, app, region), appRankings);
      return;
    }
    acc', index', done' := MaybeAddKey(Picks(rule, app.android), android, appRankings, acc'.value, index', done');
    ConcatAssoc(done, iosPart, androidPart);
  }

  /** The inner loop of the key pass, over the regions of one app; None when it raises. */
  method AddAppKeys(rule: Rule, app: App, appRankings: seq<Json>, acc: Entries, index: nat, ghost done: seq<Target>)
    returns (acc': Option<Entries>, index': nat, ghost done': seq<Target>)
    requires index == |done| && KeyMapping(done, appRankings) == Some(acc)
    ensures acc'.None? ==> KeyMapping(done + RegionsTargets(rule, app, app.regions), appRankings).None?
    ensures acc'.Some? ==> done' == done + RegionsTargets(rule, app, app.regions)
                           && index' == |done'| && KeyMapping(done', appRankings) == acc'
  {
    var current := acc;
    index', done' := index, done;
    assert app.regions[..0] == [];
    assert done + [] == done;
    for r := 0 to |app.regions|
      invariant done' == done + RegionsTargets(rule, app, app.regions[..r])
      invariant index' == |done'| && KeyMapping(done', appRankings) == Some(current)
    {
      RegionsTargetsSnoc(rule, app, app.regions, r);
      ConcatAssoc(done, RegionsTargets(rule, app, app.regions[..r]), RegionTargets(rule, app, app.regions[r]));
      var next;
      ghost var after;
      next, index', after := AddRegionKeys(rule, app, app.regions[r], appRankings, current, index', done');
      if next.None? {
        RegionsTargetsPrefix(rule, app, app.regions, r + 1);
        PrefixRaises(done' + RegionTargets(rule, app, app.regions[r]), done + RegionsTargets(rule, app, app.regions), appRankings);
        return None, index', done';
      }
      current, done' := next.value, after;
    }
    assert app.regions[..|app.regions|] == app.regions;
    acc' := Some(current);
  }

  /**
    The second pass of the main block under `rule`: `KeyPresent` is the pass as written,
    `IdTruthy` the one aligned with the URL pass; None when it raises.
   */
  method MapKeys(rule: Rule, apps: seq<App>, appRankings: seq<Json>) returns (rankings: Option<Entries>)
    ensures rankings == KeyMapping(AppsTargets(rule, apps), appRankings)
  {
    var acc: Entries := [];
    var index: nat := 0;
    ghost var done: seq<Target> := [];
    assert KeyMapping([], appRankings) == Some([]);
    for a := 0 to |apps|
      invariant done == AppsTargets(rule, apps[..a])
      invariant index == |done| && KeyMapping(done, appRankings) == Some(acc)
    {
      AppsTargetsSnoc(rule, apps, a);
      var next;
      ghost var after;
      next, index, after := AddAppKeys(rule, apps[a], appRankings, acc, index, done);
      if next.None? {
        AppsTargetsPrefix(rule, apps, a + 1);
        PrefixRaises(done + RegionsTargets(rule, apps[a], apps[a].regions), AppsTargets(rule, apps), appRankings);
        return None;
      }
      acc, done := next.value, after;
    }
    assert apps[..|apps|] == apps;
    rankings := Some(acc);
  }

  // ---------------------------------------------------------------------------
  // The whole main block

  /**
    What the main block saves under today's date: an empty dict when no URL was built,
    otherwise the aligned key pass over the rankings fetched for the URLs; None when the
    key pass raises (the exception is caught and nothing is saved).
   */
  function RankingsToSave(apps: seq<App>, loginOk: bool, visit: string -> Visit): Option<Entries> {
    var urls := AppUrls(apps);
    if |urls| == 0 then Some([]) else RankingKeys(apps, Collected(urls, loginOk, visit))
  }

  /** Every entry `get_ranking` appends carries a rank and a category. */
  lemma CollectedPickable(urls: seq<string>, loginOk: bool, visit: string -> Visit)
    ensures forall j :: 0 <= j < |Collected(urls, loginOk, visit)| ==> Pick(Collected(urls, loginOk, visit)[j]).Some?
  {
    var data := Collected(urls, loginOk, visit);
    CollectFromSpec(urls, visit);
    forall j | 0 <= j < |data| ensures Pick(data[j]).Some? {
      EntryForSpec(visit(urls[j]).page);
    }
  }

  /** The URL of each target, in order. */
  predicate UrlsOf(urls: seq<string>, targets: seq<Target>) {
    |urls| == |targets| && forall j :: 0 <= j < |targets| ==> urls[j] == UrlOf(targets[j])
  }

  /** A ranking for every target exactly when the login succeeded and every page loaded. */
  lemma FetchedFeasible(targets: seq<Target>, urls: seq<string>, loginOk: bool, visit: string -> Visit)
    requires UrlsOf(urls, targets)
    ensures Feasible(|targets|, Collected(urls, loginOk, visit)) <==>
      |targets| == 0 || (loginOk && forall j :: 0 <= j < |targets| ==> visit(UrlOf(targets[j])).Loaded?)
  {
    var data := Collected(urls, loginOk, visit);
    CollectFromSpec(urls, visit);
    CollectedPickable(urls, loginOk, visit);
    if |targets| > 0 && Feasible(|targets|, data) {
      assert loginOk;
      forall j | 0 <= j < |targets| ensures visit(UrlOf(targets[j])).Loaded? {
        assert urls[j] == UrlOf(targets[j]);
      }
    }
    if loginOk && forall j :: 0 <= j < |targets| ==> visit(UrlOf(targets[j])).Loaded? {
      forall j | 0 <= j < |urls| ensures visit(urls[j]).Loaded? {
        assert urls[j] == UrlOf(targets[j]);
      }
      CollectedAll(urls, visit);
    }
  }

  /** The ranking fetched for target `j` is the one parsed from the page of its URL. */
  lemma FetchedValues(targets: seq<Target>, urls: seq<string>, loginOk: bool, visit: string -> Visit)
    requires UrlsOf(urls, targets) && Feasible(|targets|, Collected(urls, loginOk, visit))
    ensures forall j :: 0 <= j < |targets| ==>
      visit(UrlOf(targets[j])).Loaded? && Collected(urls, loginOk, visit)[j] == EntryFor(visit(UrlOf(targets[j])).page)
  {
    CollectFromSpec(urls, visit);
    forall j | 0 <= j < |targets|
      ensures visit(UrlOf(targets[j])).Loaded? && Collected(urls, loginOk, visit)[j] == EntryFor(visit(UrlOf(targets[j])).page)
    {
      assert urls[j] == UrlOf(targets[j]);
    }
  }

  /** The key pass over the rankings fetched for the targets' URLs. */
  lemma FetchedMapping(targets: seq<Target>, urls: seq<string>, loginOk: bool, visit: string -> Visit)
    requires UrlsOf(urls, targets)
    ensures var r := KeyMapping(targets, Collected(urls, loginOk, visit));
      (r.Some? <==> |targets| == 0 || (loginOk && forall j :: 0 <= j < |targets| ==> visit(UrlOf(targets[j])).Loaded?))
      && (r.Some? ==> KeySet(r.value) == KeysOf(MapSeq(KeyOf, targets)))
      && (r.Some? && Distinct(MapSeq(KeyOf, targets)) ==>
            forall j :: 0 <= j < |targets| ==>
              Lookup(r.value, KeyOf(targets[j])) == Pick(EntryFor(visit(UrlOf(targets[j])).page)))
  {
    var data := Collected(urls, loginOk, visit);
    FetchedFeasible(targets, urls, loginOk, visit);
    KeyMappingSpec(targets, data);
    if Feasible(|targets|, data) {
      FetchedValues(targets, urls, loginOk, visit);
    }
  }

  /**
    Something is saved exactly when no URL was built, or the login succeeded and every
    page loaded; then the saved dict has one key per platform visited, and, with distinct
    keys, each key holds the rank and category parsed from the page of its own URL.
   */
  lemma RankingsToSaveSpec(apps: seq<App>, loginOk: bool, visit: string -> Visit)
    ensures var targets := AppsTargets(IdTruthy, apps);
      var r := RankingsToSave(apps, loginOk, visit);
      (r.Some? <==> |targets| == 0 || (loginOk && forall j :: 0 <= j < |targets| ==> visit(UrlOf(targets[j])).Loaded?))
      && (r.Some? ==> KeySet(r.value) == KeysOf(MapSeq(KeyOf, targets)))
      && (r.Some? && Distinct(MapSeq(KeyOf, targets)) ==>
            forall j :: 0 <= j < |targets| ==>
              Lookup(r.value, KeyOf(targets[j])) == Pick(EntryFor(visit(UrlOf(targets[j])).page)))
  {
    var targets := AppsTargets(IdTruthy, apps);
    KeysAlignWithUrls(apps);
    assert UrlsOf(AppUrls(apps), targets);
    FetchedMapping(targets, AppUrls(apps), loginOk, visit);
    if |targets| == 0 {
      assert KeysOf(MapSeq(KeyOf, targets)) == {};
    }
  }

  /**
    The main block: build the URLs, fetch their rankings, map them to keys and save them
    under today's date. Nothing is saved when the key pass raises.
   */
  method RunSaveRank(apps: seq<App>, loginOk: bool, visit: string -> Visit, today: string, file: RankingsFile)
    returns (saved: bool)
    modifies file
    ensures var r := RankingsToSave(apps, loginOk, visit);
      saved <==> r.Some? && Saved(old(file.present), old(file.stored), today, JObject(r.value)).Some?
    ensures saved ==> var r := RankingsToSave(apps, loginOk, visit);
      file.present && file.stored == Some(JObject(Saved(old(file.present), old(file.stored), today, JObject(r.value)).value))
    ensures !saved ==> file.present == old(file.present) && file.stored == old(file.stored)
  {
    var appUrls := BuildUrls(apps);
    var rankings: Entries := [];
    if |appUrls| > 0 {
      var appRankings := GetRanking(appUrls, loginOk, visit);
      var mapped := MapKeys(IdTruthy, apps, appRankings);
      if mapped.None? {
        return false;
      }
      rankings := mapped.value;
    }
    saved := file.Save(today, JObject(rankings));
  }
}
