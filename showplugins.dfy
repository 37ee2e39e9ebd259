/**
 * The decisions of the plugin manager page (j16000showplugins): which plugins are installed
 * and which of them are third-party, what each row of the remote catalogue offers (install
 * action, row class, install link and button), which list a row goes to, and the reordering
 * that puts retired rows first.
 */
module ShowPlugins {
  import opened Wrappers
  import opened Php
  import opened Versions
  import opened LicenseCheck

  // ---------------------------------------------------------------------------
  // Installed plugins
  // ---------------------------------------------------------------------------

  /**
   * The data array of an installed plugin's plugin_info class. Versions are taken as exact
   * numbers standing for PHP's doubles.
   */
  datatype PluginInfo = PluginInfo(name: string, version: real)

  /**
   * One entry of a plugin directory listing: the entry's name and, when the entry holds a
   * plugin_info.php that defines the class plugin_info_<entry>, that class's data.
   */
  datatype DirEntry = DirEntry(entry: string, info: Option<PluginInfo>)

  /** `substr($entry, 0, 1) != "."` and the plugin_info class exists. */
  predicate Visible(e: DirEntry)
  {
    Substr(e.entry, 0, Some(1)) != "." && e.info.Some?
  }

  /**
   * installed_plugins after reading the entries of one directory: the data of each visible
   * plugin is stored under the name its data gives, later entries overwriting earlier ones.
   */
  function Scan(installed: map<string, PluginInfo>, entries: seq<DirEntry>): (r: map<string, PluginInfo>)
    ensures installed.Keys <= r.Keys
    decreases |entries|
  {
    if entries == [] then installed
    else
      var e := entries[|entries| - 1];
      var before := Scan(installed, entries[..|entries| - 1]);
      if Visible(e) then before[e.info.value.name := e.info.value] else before
  }

  /** A name is installed after the scan exactly when it was before or some visible entry carries it. */
  lemma {:induction false} ScanMembers(installed: map<string, PluginInfo>, entries: seq<DirEntry>, k: string)
    ensures k in Scan(installed, entries) <==>
      k in installed || exists j :: 0 <= j < |entries| && Visible(entries[j]) && entries[j].info.value.name == k
    decreases |entries|
  {
    if entries != [] {
      var n := |entries| - 1;
      var front := entries[..n];
      ScanMembers(installed, front, k);
      if exists j :: 0 <= j < n && Visible(front[j]) && front[j].info.value.name == k {
        var j :| 0 <= j < n && Visible(front[j]) && front[j].info.value.name == k;
        assert entries[j] == front[j];
      }
      if exists j :: 0 <= j < |entries| && Visible(entries[j]) && entries[j].info.value.name == k {
        var j :| 0 <= j < |entries| && Visible(entries[j]) && entries[j].info.value.name == k;
        if j < n {
          assert front[j] == entries[j];
        }
      }
    }
  }

  /** The data stored under a name is that of the last visible entry carrying it. */
  lemma {:induction false} ScanLastWins(installed: map<string, PluginInfo>, entries: seq<DirEntry>, j: nat)
    requires j < |entries| && Visible(entries[j])
    requires forall j' :: j < j' < |entries| && Visible(entries[j']) ==> entries[j'].info.value.name != entries[j].info.value.name
    ensures entries[j].info.value.name in Scan(installed, entries)
    ensures Scan(installed, entries)[entries[j].info.value.name] == entries[j].info.value
    decreases |entries|
  {
    var n := |entries| - 1;
    if j < n {
      var front := entries[..n];
      assert front[j] == entries[j];
      forall j' | j < j' < |front| && Visible(front[j'])
        ensures front[j'].info.value.name != front[j].info.value.name
      {
        assert front[j'] == entries[j'];
      }
      ScanLastWins(installed, front, j);
    }
  }

  /** third_party_plugins: the installed plugins whose names are not in the remote catalogue. */
  function ThirdParty(installed: map<string, PluginInfo>, remoteNames: set<string>): (r: map<string, PluginInfo>)
    ensures r.Keys == installed.Keys - remoteNames
    ensures forall k :: k in r ==> r[k] == installed[k]
  {
    map k | k in installed && k !in remoteNames :: installed[k]
  }

  /**
   * The foreach over installed_plugins that copies each plugin missing from the remote
   * catalogue into third_party_plugins.
   */
  method AddThirdParty(installed: map<string, PluginInfo>, thirdParty: map<string, PluginInfo>, remoteNames: set<string>)
    returns (r: map<string, PluginInfo>)
    ensures r == thirdParty + ThirdParty(installed, remoteNames)
  {
    r := thirdParty;
    var todo := installed.Keys;
    while todo != {}
      invariant todo <= installed.Keys
      invariant r == thirdParty + map k | k in installed && k !in todo && k !in remoteNames :: installed[k]
      decreases |todo|
    {
      var k :| k in todo;
      if k !in remoteNames {
        r := r[k := installed[k]];
      }
      todo := todo - {k};
    }
  }

  /** The while ($d->read()) loop over one plugin directory. */
  method ScanDirectory(installed: map<string, PluginInfo>, entries: seq<DirEntry>) returns (r: map<string, PluginInfo>)
    ensures r == Scan(installed, entries)
  {
    r := installed;
    for i := 0 to |entries|
      invariant r == Scan(installed, entries[..i])
    {
      assert entries[..i + 1][..i] == entries[..i];
      if Visible(entries[i]) {
        r := r[entries[i].info.value.name := entries[i].info.value];
      }
    }
    assert entries[..|entries|] == entries;
  }

  /**
   * Both directory passes: the remote-plugins directory, then the core-plugins directory, each
   * followed by the third-party pass. A directory that cannot be opened is an empty listing
   * here; the second third-party pass then finds nothing new, as in the skipped block.
   */
  method CollectInstalled(remoteDir: seq<DirEntry>, coreDir: seq<DirEntry>, remoteNames: set<string>)
    returns (installed: map<string, PluginInfo>, thirdParty: map<string, PluginInfo>)
    ensures installed == Scan(Scan(map[], remoteDir), coreDir)
    ensures thirdParty == ThirdParty(installed, remoteNames)
  {
    installed := ScanDirectory(map[], remoteDir);
    thirdParty := AddThirdParty(installed, map[], remoteNames);
    var first := installed;
    installed := ScanDirectory(installed, coreDir);
    thirdParty := AddThirdParty(installed, thirdParty, remoteNames);
    SecondPassSuffices(first, installed, remoteNames);
  }

  /** The second third-party pass makes the first one redundant, since the scan only adds names. */
  lemma SecondPassSuffices(first: map<string, PluginInfo>, second: map<string, PluginInfo>, remoteNames: set<string>)
    requires first.Keys <= second.Keys
    ensures map[] + ThirdParty(first, remoteNames) + ThirdParty(second, remoteNames) == ThirdParty(second, remoteNames)
  {
    var a, b := ThirdParty(first, remoteNames), ThirdParty(second, remoteNames);
    assert (map[] + a + b).Keys == b.Keys;
  }

  // ---------------------------------------------------------------------------
  // One row of the remote catalogue
  // ---------------------------------------------------------------------------

  /** A plugin of the remote catalogue, as the remote_plugins array holds it. */
  datatype RemotePlugin = RemotePlugin(name: string, version: real, minJomresVer: string, retired: bool)

  /** What the page knows about the viewer and the site. */
  datatype Viewer = Viewer(
    keyValid: bool,                                 // the site key is valid: a developer user
    pluginLicences: map<string, PluginLicence>,     // the user's plugin licences
    allowedPlugins: seq<string>,                    // key_validation->allowed_plugins
    bootstrap: bool,                                // using_bootstrap()
    jomresVersion: seq<string>,                     // explode(".", the Jomres version)
    adminUrl: string)                               // JOMRES_SITEPAGE_URL_ADMIN

  /** current_licenses: collected only when the site key is not valid. */
  function Licences(v: Viewer): (r: map<string, string>)
    ensures v.keyValid ==> r == map[]
  {
    if v.keyValid then map[] else CurrentLicences(v.pluginLicences)
  }

  /** `$n`: the plugin parameter of the install link, with the plugin's licence key if it has one. */
  function PluginParam(v: Viewer, name: string): string
  {
    if v.keyValid then name
    else if name in Licences(v) then name + "&plugin_key=" + Licences(v)[name]
    else name
  }

  /**
   * The install action and the row class the catalogue loop assigns, in its order: a plugin
   * that is installed is offered a reinstall, or an update when its local version is older;
   * an installed retired plugin's row is marked as an error.
   */
  function ActionAndClass(rp: RemotePlugin, installed: map<string, PluginInfo>): (string, string)
  {
    if rp.name !in installed then ("Install", "")
    else
      var (action, cls) :=
        if installed[rp.name].version < rp.version then ("Update", "ui-state-highlight")
        else ("Reinstall", "ui-state-success");
      (action, if rp.retired then "ui-state-error" else cls)
  }

  /** The row class with bootstrap: the jQuery-UI classes replaced by alert classes, anything else by "". */
  function BootstrapClass(c: string): string
  {
    if c == "ui-state-success" then "alert alert-success"
    else if c == "ui-state-highlight" then "alert alert-warning"
    else if c == "freeplugin" then "alert alert-info"
    else if c == "ui-state-error" then "alert alert-danger"
    else ""
  }

  /** What `$r["INSTALL"]` ends as: not set, an install button, a disabled button, or "". */
  datatype Button = Unset | Active(text: string) | Disabled(text: string) | Blank

  /** `$key_validation->allowed_plugins[0] != "*" && !in_array($rp["name"], ...)`. */
  predicate NotAllowed(v: Viewer, name: string)
  {
    Cmp(Part(v.allowedPlugins, 0), Some("*")) != 0 && !InArray(name, v.allowedPlugins)
  }

  /** The install button: offered to licensed or developer users on a recent enough Jomres. */
  function InstallButton(v: Viewer, rp: RemotePlugin, text: string): Button
  {
    var offered :=
      if Condition(Explode(".", rp.minJomresVer), v.jomresVersion) && (rp.name in Licences(v) || v.keyValid)
      then Active(text) else Unset;
    var gated := if NotAllowed(v, rp.name) then Disabled(text) else offered;
    if rp.retired then Blank else gated
  }

  /** One row of the catalogue table, in the fields the decisions above fill. */
  datatype Row = Row(
    pluginName: string, installText: string, installLink: string, install: Button,
    rowClass: string, needsLaterJomres: bool)

  /** `$r["INSTALL_LINK"]`: the addplugin link for developer users and licensed plugins, else "". */
  function InstallLink(v: Viewer, name: string): string
  {
    if name in Licences(v) || v.keyValid then v.adminUrl + "&task=addplugin&plugin=" + PluginParam(v, name)
    else ""
  }

  function RowOf(v: Viewer, installed: map<string, PluginInfo>, rp: RemotePlugin): Row
  {
    var (action, cls) := ActionAndClass(rp, installed);
    Row(rp.name, action, InstallLink(v, rp.name), InstallButton(v, rp, action),
      if v.bootstrap then BootstrapClass(cls) else cls,
      !Condition(Explode(".", rp.minJomresVer), v.jomresVersion))
  }

  // ---------------------------------------------------------------------------
  // Properties of a row
  // ---------------------------------------------------------------------------

  /** The decision table of install action and row class. */
  lemma ActionTable(rp: RemotePlugin, installed: map<string, PluginInfo>)
    ensures rp.name !in installed ==> ActionAndClass(rp, installed) == ("Install", "")
    ensures rp.name in installed ==>
      var older := installed[rp.name].version < rp.version;
      ActionAndClass(rp, installed).0 == (if older then "Update" else "Reinstall") &&
      ActionAndClass(rp, installed).1 ==
        (if rp.retired then "ui-state-error" else if older then "ui-state-highlight" else "ui-state-success")
  {
  }

  /** An update is offered exactly for an installed plugin whose local version is older. */
  lemma UpdateOffered(rp: RemotePlugin, installed: map<string, PluginInfo>)
    ensures ActionAndClass(rp, installed).0 == "Update" <==>
      rp.name in installed && installed[rp.name].version < rp.version
    ensures ActionAndClass(rp, installed).1 == "ui-state-error" <==> rp.name in installed && rp.retired
  {
  }

  /**
   * A catalogue row never gets the free-plugin class; with bootstrap the four classes map one
   * to one: warning for an installed, older plugin and success for an installed, current one, when not retired.
   */
  lemma BootstrapRowClasses(v: Viewer, installed: map<string, PluginInfo>, rp: RemotePlugin)
    requires v.bootstrap
    ensures RowOf(v, installed, rp).rowClass in {"", "alert alert-success", "alert alert-warning", "alert alert-danger"}
    ensures RowOf(v, installed, rp).rowClass == "" <==> rp.name !in installed
    ensures RowOf(v, installed, rp).rowClass == "alert alert-danger" <==> rp.name in installed && rp.retired
    ensures RowOf(v, installed, rp).rowClass == "alert alert-warning" <==>
      rp.name in installed && !rp.retired && installed[rp.name].version < rp.version
    ensures RowOf(v, installed, rp).rowClass == "alert alert-success" <==>
      rp.name in installed && !rp.retired && !(installed[rp.name].version < rp.version)
  {
  }

  /** The install link is set exactly for developer users and plugins with a current licence. */
  lemma InstallLinkGating(v: Viewer, name: string)
    ensures InstallLink(v, name) != "" <==> v.keyValid || name in Licences(v)
    ensures v.keyValid ==> InstallLink(v, name) == v.adminUrl + "&task=addplugin&plugin=" + name
    ensures !v.keyValid && name in Licences(v) ==>
      InstallLink(v, name) == v.adminUrl + "&task=addplugin&plugin=" + name + "&plugin_key=" + Licences(v)[name]
  {
    if v.keyValid || name in Licences(v) {
      var tail := "&task=addplugin&plugin=" + PluginParam(v, name);
      assert InstallLink(v, name) == v.adminUrl + tail && |tail| > 0;
    }
  }

  /**
   * The install button: blank for a retired plugin; otherwise disabled when allowed_plugins
   * neither starts with "*" nor lists the plugin; otherwise active exactly for licensed or
   * developer users on a recent enough Jomres.
   */
  lemma InstallButtonGating(v: Viewer, rp: RemotePlugin, text: string)
    ensures InstallButton(v, rp, text) == Blank <==> rp.retired
    ensures InstallButton(v, rp, text) == Disabled(text) <==> !rp.retired && NotAllowed(v, rp.name)
    ensures InstallButton(v, rp, text) == Active(text) <==>
      !rp.retired && !NotAllowed(v, rp.name) && (rp.name in Licences(v) || v.keyValid) &&
      Condition(Explode(".", rp.minJomresVer), v.jomresVersion)
  {
  }

  /** An empty allowed_plugins list disables every button; a list starting with "*" disables none. */
  lemma AllowedPluginsExtremes(v: Viewer, name: string)
    ensures v.allowedPlugins == [] ==> NotAllowed(v, name)
    ensures |v.allowedPlugins| > 0 && v.allowedPlugins[0] == "*" ==> !NotAllowed(v, name)
  {
    if |v.allowedPlugins| > 0 && v.allowedPlugins[0] == "*" {
      LooseEqReflexive("*");
    }
  }

  // ---------------------------------------------------------------------------
  // Lists of rows
  // ---------------------------------------------------------------------------

  datatype Bucket = General | Api | Webhooks

  /** The list a row goes to, by the prefix of the plugin's name. */
  function BucketOf(name: string): Bucket
  {
    if LooseEq(Substr(name, 0, Some(4)), "api_") then Api
    else if LooseEq(Substr(name, 0, Some(9)), "webhooks_") then Webhooks
    else General
  }

  /** A name goes to the api list when it starts with "api_", to the webhooks list when it starts with "webhooks_". */
  lemma BucketPrefix(name: string)
    ensures BucketOf(name) == Api <==> |name| >= 4 && name[..4] == "api_"
    ensures BucketOf(name) == Webhooks <==> |name| >= 9 && name[..9] == "webhooks_"
  {
    NoNumericPrefix("api_");
    NoNumericPrefix("webhooks_");
    LooseEqNonNumeric(Substr(name, 0, Some(4)), "api_");
    LooseEqNonNumeric(Substr(name, 0, Some(9)), "webhooks_");
    if |name| >= 9 && name[..9] == "webhooks_" {
      assert Substr(name, 0, Some(4)) == name[..4];
      assert name[..4][0] == 'w';
    }
  }

  /** A row is listed when its plugin is not retired, or retired but installed. */
  predicate Shown(rp: RemotePlugin, installed: map<string, PluginInfo>)
  {
    (rp.retired && rp.name in installed) || !rp.retired
  }

  /** The rows listed in bucket b, in catalogue order. */
  function Listed(v: Viewer, installed: map<string, PluginInfo>, rps: seq<RemotePlugin>, b: Bucket): (r: seq<Row>)
    decreases |rps|
  {
    if rps == [] then []
    else
      var rp := rps[|rps| - 1];
      Listed(v, installed, rps[..|rps| - 1], b) +
        (if Shown(rp, installed) && BucketOf(rp.name) == b then [RowOf(v, installed, rp)] else [])
  }

  /** The rows of every shown plugin, in catalogue order. */
  function ShownRows(v: Viewer, installed: map<string, PluginInfo>, rps: seq<RemotePlugin>): (r: seq<Row>)
    decreases |rps|
  {
    if rps == [] then []
    else
      var rp := rps[|rps| - 1];
      ShownRows(v, installed, rps[..|rps| - 1]) + (if Shown(rp, installed) then [RowOf(v, installed, rp)] else [])
  }

  /** The names of the catalogue's plugins that satisfy p, in catalogue order. */
  function Pick(rps: seq<RemotePlugin>, p: RemotePlugin -> bool): (r: seq<string>)
    decreases |rps|
  {
    if rps == [] then []
    else Pick(rps[..|rps| - 1], p) + (if p(rps[|rps| - 1]) then [rps[|rps| - 1].name] else [])
  }

  /** The three lists together hold every shown row once, and nothing else. */
  lemma {:induction false} BucketsPartition(v: Viewer, installed: map<string, PluginInfo>, rps: seq<RemotePlugin>)
    ensures multiset(Listed(v, installed, rps, General)) + multiset(Listed(v, installed, rps, Api)) +
      multiset(Listed(v, installed, rps, Webhooks)) == multiset(ShownRows(v, installed, rps))
    decreases |rps|
  {
    if rps != [] {
      BucketsPartition(v, installed, rps[..|rps| - 1]);
    }
  }

  /** Every listed row belongs to a plugin that is not retired or is installed, and has that plugin's bucket. */
  lemma {:induction false} ListedRowsShown(v: Viewer, installed: map<string, PluginInfo>, rps: seq<RemotePlugin>, b: Bucket)
    ensures forall row :: row in Listed(v, installed, rps, b) ==>
      exists rp :: rp in rps && row == RowOf(v, installed, rp) && BucketOf(rp.name) == b &&
        (!rp.retired || rp.name in installed)
    decreases |rps|
  {
    if rps != [] {
      var front := rps[..|rps| - 1];
      ListedRowsShown(v, installed, front, b);
      forall row | row in Listed(v, installed, rps, b)
        ensures exists rp ::
          rp in rps && row == RowOf(v, installed, rp) && BucketOf(rp.name) == b && (!rp.retired || rp.name in installed)
      {
        if row in Listed(v, installed, front, b) {
          var rp :| rp in front && row == RowOf(v, installed, rp) && BucketOf(rp.name) == b &&
            (!rp.retired || rp.name in installed);
          assert rp in rps;
        } else {
          assert rps[|rps| - 1] in rps;
        }
      }
    }
  }

  /** The names the catalogue loop collects besides the rows. */
  datatype Names = Names(allInstalled: seq<string>, toUpgrade: seq<string>, retired: seq<string>)

  function InstalledTest(installed: map<string, PluginInfo>): RemotePlugin -> bool
  {
    (rp: RemotePlugin) => rp.name in installed
  }

  function OutdatedTest(installed: map<string, PluginInfo>): RemotePlugin -> bool
  {
    (rp: RemotePlugin) => rp.name in installed && installed[rp.name].version < rp.version
  }

  function RetiredInstalledTest(installed: map<string, PluginInfo>): RemotePlugin -> bool
  {
    (rp: RemotePlugin) => rp.name in installed && rp.retired
  }

  /** all_installed_plugins, plugins_needing_upgrading and retired_plugins for the catalogue. */
  function CollectedNames(installed: map<string, PluginInfo>, rps: seq<RemotePlugin>): Names
  {
    Names(Pick(rps, InstalledTest(installed)), Pick(rps, OutdatedTest(installed)),
      Pick(rps, RetiredInstalledTest(installed)))
  }

  /**
   * The foreach over remote_plugins: builds each row and appends it to its list, and collects
   * the installed, outdated and retired plugin names.
   */
  method BuildRows(v: Viewer, installed: map<string, PluginInfo>, remote: seq<RemotePlugin>)
    returns (general: seq<Row>, api: seq<Row>, webhooks: seq<Row>, names: Names)
    ensures general == Listed(v, installed, remote, General)
    ensures api == Listed(v, installed, remote, Api)
    ensures webhooks == Listed(v, installed, remote, Webhooks)
    ensures names == CollectedNames(installed, remote)
  {
    general, api, webhooks := [], [], [];
    var all, upgrade, retired := [], [], [];
    for i := 0 to |remote|
      invariant general == Listed(v, installed, remote[..i], General)
      invariant api == Listed(v, installed, remote[..i], Api)
      invariant webhooks == Listed(v, installed, remote[..i], Webhooks)
      invariant all == Pick(remote[..i], InstalledTest(installed))
      invariant upgrade == Pick(remote[..i], OutdatedTest(installed))
      invariant retired == Pick(remote[..i], RetiredInstalledTest(installed))
    {
      var rp := remote[i];
      ListedStep(v, installed, remote, i, General);
      ListedStep(v, installed, remote, i, Api);
      ListedStep(v, installed, remote, i, Webhooks);
      PickStep(remote, i, InstalledTest(installed));
      PickStep(remote, i, OutdatedTest(installed));
      PickStep(remote, i, RetiredInstalledTest(installed));
      if rp.name in installed {
        all := all + [rp.name];
        if installed[rp.name].version < rp.version {
          upgrade := upgrade + [rp.name];
        }
        if rp.retired {
          retired := retired + [rp.name];
        }
      }
      var r := RowOf(v, installed, rp);
      if Shown(rp, installed) {
        match BucketOf(rp.name)
        case Api => api := api + [r];
        case Webhooks => webhooks := webhooks + [r];
        case General => general := general + [r];
      }
    }
    assert remote[..|remote|] == remote;
    names := Names(all, upgrade, retired);
  }

  /** Listing one more plugin appends its row to the list of its bucket, if it is shown. */
  lemma ListedStep(v: Viewer, installed: map<string, PluginInfo>, remote: seq<RemotePlugin>, i: nat, b: Bucket)
    requires i < |remote|
    ensures Listed(v, installed, remote[..i + 1], b) == Listed(v, installed, remote[..i], b) +
      (if Shown(remote[i], installed) && BucketOf(remote[i].name) == b then [RowOf(v, installed, remote[i])] else [])
  {
    assert remote[..i + 1][..i] == remote[..i];
  }

  lemma PickStep(rps: seq<RemotePlugin>, i: nat, p: RemotePlugin -> bool)
    requires i < |rps|
    ensures Pick(rps[..i + 1], p) == Pick(rps[..i], p) + (if p(rps[i]) then [rps[i].name] else [])
  {
    assert rps[..i + 1][..i] == rps[..i];
  }

  // ---------------------------------------------------------------------------
  // Retired rows first
  // ---------------------------------------------------------------------------

  /** A row whose plugin name is in retired_plugins (in_array, loosely). */
  predicate IsRetiredRow(r: Row, retired: seq<string>)
  {
    InArray(r.pluginName, retired)
  }

  function RetiredTest(retired: seq<string>): Row -> bool
  {
    (r: Row) => IsRetiredRow(r, retired)
  }

  /** The elements of s that pass p, in order. */
  function Taken<T>(s: seq<T>, p: T -> bool): (r: seq<T>)
    decreases |s|
  {
    if s == [] then [] else Taken(s[..|s| - 1], p) + (if p(s[|s| - 1]) then [s[|s| - 1]] else [])
  }

  /** The elements of s that fail p, in order. */
  function Kept<T>(s: seq<T>, p: T -> bool): (r: seq<T>)
    decreases |s|
  {
    if s == [] then [] else Kept(s[..|s| - 1], p) + (if p(s[|s| - 1]) then [] else [s[|s| - 1]])
  }

  function Rev<T>(s: seq<T>): (r: seq<T>)
    ensures |r| == |s|
    decreases |s|
  {
    if s == [] then [] else [s[|s| - 1]] + Rev(s[..|s| - 1])
  }

  /** The elements that pass p, last one first, then the others in their order. */
  function FrontFirst<T>(s: seq<T>, p: T -> bool): seq<T>
  {
    Rev(Taken(s, p)) + Kept(s, p)
  }

  /** Every element taken passes the test; every element kept fails it. */
  lemma {:induction false} TakenPass<T>(s: seq<T>, p: T -> bool)
    ensures forall k :: 0 <= k < |Taken(s, p)| ==> p(Taken(s, p)[k])
    decreases |s|
  {
    if s != [] {
      TakenPass(s[..|s| - 1], p);
    }
  }

  lemma {:induction false} KeptFail<T>(s: seq<T>, p: T -> bool)
    ensures forall k :: 0 <= k < |Kept(s, p)| ==> !p(Kept(s, p)[k])
    decreases |s|
  {
    if s != [] {
      KeptFail(s[..|s| - 1], p);
    }
  }

  lemma {:induction false} RevIndex<T>(s: seq<T>)
    ensures forall k :: 0 <= k < |s| ==> Rev(s)[k] == s[|s| - 1 - k]
    decreases |s|
  {
    if s != [] {
      RevIndex(s[..|s| - 1]);
    }
  }

  /** The list after the loop: the retired rows, last one first, then the others in their order. */
  function RetiredFirst(rs: seq<Row>, retired: seq<string>): seq<Row>
  {
    FrontFirst(rs, RetiredTest(retired))
  }

  /**
   * The index loop that moves each retired row to the front (unset, then array_unshift,
   * which numbers the list 0..count-1 again); it runs only when retired_plugins is not empty.
   */
  method MoveRetiredFirst(rows: seq<Row>, retired: seq<string>) returns (out: seq<Row>)
    ensures out == if |retired| > 0 then RetiredFirst(rows, retired) else rows
  {
    out := rows;
    if 0 < |retired| {
      var count := |out|;
      var p := RetiredTest(retired);
      for i := 0 to count
        invariant out == Arranged(rows, p, i)
      {
        MoveStep(rows, p, i);
        if IsRetiredRow(out[i], retired) {
          assert p(out[i]);
          var move := out[i];
          out := [move] + out[..i] + out[i + 1..];
        }
      }
      assert rows[..count] == rows;
    }
  }

  /** The list once the loop has looked at the first i elements. */
  function Arranged<T>(s: seq<T>, p: T -> bool, i: nat): seq<T>
    requires i <= |s|
  {
    FrontFirst(s[..i], p) + s[i..]
  }

  /** One step of the loop: element i is still at index i, and moving it (or not) extends the arrangement. */
  lemma MoveStep<T>(s: seq<T>, p: T -> bool, i: nat)
    requires i < |s|
    ensures |Arranged(s, p, i)| == |s|
    ensures Arranged(s, p, i)[i] == s[i]
    ensures var out := Arranged(s, p, i);
      if p(s[i]) then [out[i]] + out[..i] + out[i + 1..] == Arranged(s, p, i + 1)
      else out == Arranged(s, p, i + 1)
  {
    var pre, x, rest := s[..i], s[i], s[i + 1..];
    var f := FrontFirst(pre, p);
    FrontFirstLength(pre, p);
    assert s[..i + 1] == pre + [x];
    assert s[i..] == [x] + rest;
    assert Arranged(s, p, i) == f + ([x] + rest);
    assert Arranged(s, p, i + 1) == FrontFirst(pre + [x], p) + rest;
    FrontFirstStep(pre, x, p);
    SpliceFront(f, x, rest);
  }

  /** Taking the element after f out and putting it in front. */
  lemma SpliceFront<T>(f: seq<T>, x: T, rest: seq<T>)
    ensures var out := f + ([x] + rest);
      && |out| == |f| + 1 + |rest| && out[|f|] == x
      && [out[|f|]] + out[..|f|] + out[|f| + 1..] == [x] + f + rest
      && out == (f + [x]) + rest
  {
    var out := f + ([x] + rest);
    assert out[..|f|] == f;
    assert out[|f| + 1..] == rest;
  }

  lemma FrontFirstLength<T>(s: seq<T>, p: T -> bool)
    ensures |FrontFirst(s, p)| == |s|
  {
    SplitSizes(s, p);
  }

  lemma RevSnoc<T>(t: seq<T>, x: T)
    ensures Rev(t + [x]) == [x] + Rev(t)
  {
    assert (t + [x])[..|t|] == t;
  }

  /** Looking at one more element puts it in front when it passes, and at the end otherwise. */
  lemma FrontFirstStep<T>(pre: seq<T>, x: T, p: T -> bool)
    ensures FrontFirst(pre + [x], p) == if p(x) then [x] + FrontFirst(pre, p) else FrontFirst(pre, p) + [x]
  {
    var t, k := Taken(pre, p), Kept(pre, p);
    SnocSplit(pre, x, p);
    if p(x) {
      assert Taken(pre + [x], p) == t + [x] && Kept(pre + [x], p) == k;
      RevSnoc(t, x);
      assert FrontFirst(pre + [x], p) == ([x] + Rev(t)) + k;
    } else {
      assert Taken(pre + [x], p) == t && Kept(pre + [x], p) == k + [x];
      assert FrontFirst(pre + [x], p) == Rev(t) + (k + [x]);
    }
  }

  lemma SnocSplit<T>(pre: seq<T>, x: T, p: T -> bool)
    ensures Taken(pre + [x], p) == Taken(pre, p) + (if p(x) then [x] else [])
    ensures Kept(pre + [x], p) == Kept(pre, p) + (if p(x) then [] else [x])
  {
    assert (pre + [x])[..|pre|] == pre;
  }

  /** The elements that pass and those that fail share out the sequence. */
  lemma {:induction false} SplitSizes<T>(s: seq<T>, p: T -> bool)
    ensures |Taken(s, p)| + |Kept(s, p)| == |s|
    decreases |s|
  {
    if s != [] {
      SplitSizes(s[..|s| - 1], p);
    }
  }

  lemma {:induction false} SplitMultiset<T>(s: seq<T>, p: T -> bool)
    ensures multiset(Taken(s, p)) + multiset(Kept(s, p)) == multiset(s)
    decreases |s|
  {
    if s != [] {
      SplitMultiset(s[..|s| - 1], p);
      assert s == s[..|s| - 1] + [s[|s| - 1]];
    }
  }

  lemma {:induction false} RevMultiset<T>(s: seq<T>)
    ensures multiset(Rev(s)) == multiset(s)
    decreases |s|
  {
    if s != [] {
      RevMultiset(s[..|s| - 1]);
      assert s == s[..|s| - 1] + [s[|s| - 1]];
    }
  }

  /** The reordering is a permutation of the rows. */
  lemma RetiredFirstPermutes(rs: seq<Row>, retired: seq<string>)
    ensures multiset(RetiredFirst(rs, retired)) == multiset(rs)
  {
    SplitMultiset(rs, RetiredTest(retired));
    RevMultiset(Taken(rs, RetiredTest(retired)));
  }

  /** After the reordering every retired row comes before every other row. */
  lemma RetiredRowsLead(rs: seq<Row>, retired: seq<string>)
    ensures forall i, j :: 0 <= i < j < |RetiredFirst(rs, retired)| && IsRetiredRow(RetiredFirst(rs, retired)[j], retired) ==>
      IsRetiredRow(RetiredFirst(rs, retired)[i], retired)
  {
    FrontFirstLeads(rs, RetiredTest(retired));
  }

  /** In FrontFirst(s, p) every element that passes p comes before every element that fails it. */
  lemma FrontFirstLeads<T>(s: seq<T>, p: T -> bool)
    ensures forall i, j :: 0 <= i < j < |FrontFirst(s, p)| && p(FrontFirst(s, p)[j]) ==> p(FrontFirst(s, p)[i])
  {
    var front, back := Rev(Taken(s, p)), Kept(s, p);
    var out := FrontFirst(s, p);
    TakenPass(s, p);
    KeptFail(s, p);
    RevIndex(Taken(s, p));
    assert forall k :: 0 <= k < |front| ==> p(out[k]);
    assert forall k :: |front| <= k < |out| ==> !p(out[k]);
  }

  /** The retired rows keep no order but the reverse one; the others keep theirs. */
  lemma RetiredFirstShape(rs: seq<Row>, retired: seq<string>)
    ensures var n := |Taken(rs, RetiredTest(retired))|;
      RetiredFirst(rs, retired)[..n] == Rev(Taken(rs, RetiredTest(retired))) &&
      RetiredFirst(rs, retired)[n..] == Kept(rs, RetiredTest(retired))
  {
  }

  /** A plugin that is retired and installed has its row moved to the front. */
  lemma RetiredPluginMoves(installed: map<string, PluginInfo>, remote: seq<RemotePlugin>, v: Viewer, rp: RemotePlugin)
    requires rp in remote && rp.retired && rp.name in installed
    ensures IsRetiredRow(RowOf(v, installed, rp), CollectedNames(installed, remote).retired)
  {
    var ret := CollectedNames(installed, remote).retired;
    PickHas(remote, RetiredInstalledTest(installed), rp);
    var k :| 0 <= k < |ret| && ret[k] == rp.name;
    LooseEqReflexive(rp.name);
  }

  lemma {:induction false} PickHas(rps: seq<RemotePlugin>, p: RemotePlugin -> bool, rp: RemotePlugin)
    requires rp in rps && p(rp)
    ensures rp.name in Pick(rps, p)
    decreases |rps|
  {
    if rps[|rps| - 1] != rp {
      var k :| 0 <= k < |rps| && rps[k] == rp;
      assert rps[..|rps| - 1][k] == rp;
      PickHas(rps[..|rps| - 1], p, rp);
    }
  }
}
