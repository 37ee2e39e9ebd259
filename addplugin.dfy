/**
 * The decisions of the plugin installer (j16000addplugin): the plugin name it works on,
 * whether it may download the plugin and with which key, where the plugin goes, when it
 * stops with an error, whether the CMS must discover the installed extension, and which page
 * the installer's "next" button leads to.
 */
module AddPlugin {
  import opened Wrappers
  import opened Php
  import opened Versions
  import opened LicenseCheck

  // ---------------------------------------------------------------------------
  // The plugin name
  // ---------------------------------------------------------------------------

  /** The marker an input filter leaves in a request value, plain and HTML-encoded. */
  const Marker: string := "<x>"
  const EncodedMarker: string := "&#60;x&#62;"

  /** Neither marker occurs in s. */
  predicate Clean(s: string)
  {
    StrPos(s, Marker).None? && StrPos(s, EncodedMarker).None?
  }

  /** The two str_replace calls as written: one left-to-right pass for each marker. */
  function SanitiseOnce(s: string): string
  {
    StrReplace(StrReplace(s, Marker, ""), EncodedMarker, "")
  }

  /** A name without markers comes through unchanged. */
  lemma SanitiseOnceKeepsClean(s: string)
    requires Clean(s)
    ensures SanitiseOnce(s) == s
  {
    StrReplaceAbsent(s, Marker, "");
    StrReplaceAbsent(s, EncodedMarker, "");
  }

  /** One pass can build a new marker out of the pieces around a removed one. */
  lemma SanitiseOnceLeavesMarker()
    ensures SanitiseOnce("<<x>x>") == "<x>"
    ensures !Clean(SanitiseOnce("<<x>x>"))
  {
    var s := "<<x>x>";
    assert s[..3][1] == '<' && Marker[1] == 'x';
    assert s[1..][..3] == Marker;
    assert s[1..][3..] == "x>";
    assert StrReplace("x>", Marker, "") == "x>";
    assert StrReplace(s[1..], Marker, "") == "x>";
    assert StrReplace(s, Marker, "") == "<x>";
    assert StrReplace("<x>", EncodedMarker, "") == "<x>";
    assert OccursAt("<x>", Marker, 0);
  }

  /** Removing a needle never lengthens a string. */
  lemma {:induction false} RemoveNoLonger(s: string, p: string)
    requires |p| > 0
    ensures |StrReplace(s, p, "")| <= |s|
    decreases |s|
  {
    if |s| >= |p| {
      if s[..|p|] == p {
        RemoveNoLonger(s[|p|..], p);
      } else {
        RemoveNoLonger(s[1..], p);
      }
    }
  }

  /** Removing a needle that occurs shortens the string. */
  lemma {:induction false} RemoveShrinks(s: string, p: string, j: nat)
    requires |p| > 0 && OccursAt(s, p, j)
    ensures |StrReplace(s, p, "")| < |s|
    decreases |s|
  {
    if s[..|p|] == p {
      RemoveNoLonger(s[|p|..], p);
    } else {
      assert s[0..|p|] == s[..|p|];
      assert s[1..][j - 1..j - 1 + |p|] == s[j..j + |p|];
      RemoveShrinks(s[1..], p, j - 1);
    }
  }

  /** A pass changes nothing on a clean name, and shortens any other name. */
  lemma SanitiseOnceProgress(s: string)
    ensures Clean(s) ==> SanitiseOnce(s) == s
    ensures !Clean(s) ==> |SanitiseOnce(s)| < |s|
  {
    if Clean(s) {
      SanitiseOnceKeepsClean(s);
    } else {
      var t := StrReplace(s, Marker, "");
      RemoveNoLonger(s, Marker);
      RemoveNoLonger(t, EncodedMarker);
      match StrPos(s, Marker)
      case Some(j) =>
        RemoveShrinks(s, Marker, j);
      case None =>
        StrReplaceAbsent(s, Marker, "");
        RemoveShrinks(s, EncodedMarker, StrPos(s, EncodedMarker).value);
    }
  }

  /** The intended sanitisation: the two passes repeated until no marker is left. */
  function Sanitise(s: string): (r: string)
    ensures Clean(r)
    decreases |s|
  {
    SanitiseOnceProgress(s);
    if Clean(s) then s else Sanitise(SanitiseOnce(s))
  }

  /** On names without markers the repeated and the single pass agree: both keep the name. */
  lemma SanitiseAgrees(s: string)
    requires Clean(s)
    ensures Sanitise(s) == s && SanitiseOnce(s) == s
  {
    SanitiseOnceKeepsClean(s);
  }

  /** The name an uploaded archive gives: after the first "-" up to ".zip", or else before the first ".". */
  function UploadedName(filename: string): string
  {
    var firstPart := Explode(".", filename)[0];
    if filename == "" then firstPart
    else
      match StrPos(filename, "-")
      case None => firstPart
      case Some(i) =>
        var rest := Substr(filename, i + 1, None);
        match StrPos(rest, ".zip")
        case None => ""
        case Some(j) => Substr(rest, 0, Some(j))
  }

  /** With a "-", the name is the text between the first "-" and the first ".zip" after it. */
  lemma UploadedNameWithDash(filename: string, i: nat)
    requires StrPos(filename, "-") == Some(i)
    ensures var rest := filename[i + 1..];
      match StrPos(rest, ".zip")
      case Some(j) => UploadedName(filename) == rest[..j] && StrPos(UploadedName(filename), ".zip").None? &&
        rest[..j] + ".zip" <= rest
      case None => UploadedName(filename) == ""
  {
    var rest := filename[i + 1..];
    SubstrSuffix(filename, i + 1);
    match StrPos(rest, ".zip")
    case None =>
    case Some(j) =>
      assert rest[..j + 4] == rest[..j] + ".zip";
      if StrPos(rest[..j], ".zip").Some? {
        OccursInPrefix(rest, ".zip", j, StrPos(rest[..j], ".zip").value);
      }
  }

  /** Without a "-", the name is the text before the first ".", or the whole name. */
  lemma UploadedNameWithoutDash(filename: string)
    requires StrPos(filename, "-").None?
    ensures var r := UploadedName(filename);
      r <= filename && '.' !in r && (r == filename || filename[|r|] == '.')
  {
    var r := UploadedName(filename);
    assert r == Explode(".", filename)[0];
    ExplodeJoins(".", filename);
    CharNotFound(r, '.');
    match StrPos(filename, ".")
    case None =>
    case Some(k) =>
      assert r == filename[..k];
  }

  /** A dashed archive name: the plugin name sits between the dash and ".zip". */
  lemma UploadedNameDashedExample()
    ensures UploadedName("j-p.zip") == "p"
  {
    var a := "j-p.zip";
    FirstOccurrence(a, "-", 1);
    assert a[1..2] == "-" && a[..1] == "j";
    assert a[2..] == "p.zip";
    assert "p.zip"[1..5] == ".zip" && "p.zip"[..1] == "p";
    FirstOccurrence("p.zip", ".zip", 1);
    UploadedNameWithDash(a, 1);
  }

  /** A plain archive name: the plugin name is the text before the first ".". */
  lemma UploadedNamePlainExample()
    ensures UploadedName("p.zip") == "p"
  {
    var b := "p.zip";
    FirstCharAbsent(b, "-");
    assert b[1..2] == "." && b[..1] == "p";
    FirstOccurrence(b, ".", 1);
  }

  /** A dashed name without ".zip" gives the empty plugin name. */
  lemma UploadedNameNoZipExample()
    ensures UploadedName("a-b") == ""
  {
    var c := "a-b";
    assert c[1..2] == "-" && c[..1] == "a";
    FirstOccurrence(c, "-", 1);
    assert c[2..] == "b";
    FirstCharAbsent("b", ".zip");
    UploadedNameWithDash(c, 1);
  }

  // ---------------------------------------------------------------------------
  // Download, target directory, version check
  // ---------------------------------------------------------------------------

  /** The download from the plugin server: refused, or granted with the key to send. */
  datatype Download = Refused | Granted(keySent: string)

  /** The site key's hash for a valid site key, else the plugin's own current licence key. */
  function DownloadPermission(keyValid: bool, keyHash: string, licences: map<string, PluginLicence>, name: string): Download
  {
    if keyValid then Granted(keyHash)
    else
      var current := CurrentLicences(licences);
      if name in current then Granted(current[name]) else Refused
  }

  /** A download is granted exactly for a valid site key or a plugin licence of status 1. */
  lemma DownloadGranted(keyValid: bool, keyHash: string, licences: map<string, PluginLicence>, name: string)
    ensures DownloadPermission(keyValid, keyHash, licences, name).Granted? <==>
      keyValid || (name in licences && IsOne(licences[name].status))
    ensures keyValid ==> DownloadPermission(keyValid, keyHash, licences, name) == Granted(keyHash)
    ensures !keyValid && name in licences && IsOne(licences[name].status) ==>
      DownloadPermission(keyValid, keyHash, licences, name) == Granted(licences[name].key)
  {
  }

  /** Where a plugin is installed. */
  datatype Folder = RemotePluginsFolder | CorePluginsFolder

  function TargetFolder(thirdparty: bool): (f: Folder)
    ensures f == RemotePluginsFolder <==> thirdparty
  {
    if thirdparty then RemotePluginsFolder else CorePluginsFolder
  }

  /**
   * The minimum-version error: raised only when both versions have exactly three parts and
   * the ladder fails.
   */
  predicate VersionTooOld(minVer: string, current: seq<string>)
  {
    var min := Explode(".", minVer);
    |min| == 3 && |current| == 3 && !Condition(min, current)
  }

  /** On integer versions of three parts the error is raised exactly when current < minimum. */
  lemma VersionTooOldNumeric(minVer: string, current: seq<string>)
    requires NumericVersion(Explode(".", minVer)) && NumericVersion(current)
    ensures var min := Explode(".", minVer);
      var m1, m2, m3 := DigitsValue(min[0]), DigitsValue(min[1]), DigitsValue(min[2]);
      var k1, k2, k3 := DigitsValue(current[0]), DigitsValue(current[1]), DigitsValue(current[2]);
      VersionTooOld(minVer, current) <==>
        (|min| == 3 && |current| == 3 && (k1 < m1 || (k1 == m1 && (k2 < m2 || (k2 == m2 && k3 < m3)))))
  {
    NumericCondition(Explode(".", minVer), current);
  }

  // ---------------------------------------------------------------------------
  // Discovery and the next step
  // ---------------------------------------------------------------------------

  datatype Cms = Joomla | WordPress | OtherCms

  /** The plugin_info type is set and loosely equal to the word w. */
  predicate TypeIs(typ: Option<string>, w: string)
  {
    typ.Some? && LooseEq(typ.value, w)
  }

  /** Compared with a word that is not numeric, the type test is plain equality. */
  lemma TypeIsExact(typ: Option<string>, w: string)
    requires !IsNumeric(w)
    ensures TypeIs(typ, w) <==> typ == Some(w)
  {
    if typ.Some? {
      LooseEqNonNumeric(typ.value, w);
    }
  }

  /** The plugin_info type is set and is mambot, module or widget. */
  predicate ExtensionType(typ: Option<string>)
  {
    TypeIs(typ, "mambot") || TypeIs(typ, "module") || TypeIs(typ, "widget")
  }

  /** The type test compares with words, so it is plain equality. */
  lemma ExtensionTypeExact(typ: Option<string>)
    ensures ExtensionType(typ) <==> typ == Some("mambot") || typ == Some("module") || typ == Some("widget")
  {
    NoNumericPrefix("mambot");
    NoNumericPrefix("module");
    NoNumericPrefix("widget");
    TypeIsExact(typ, "mambot");
    TypeIsExact(typ, "module");
    TypeIsExact(typ, "widget");
  }

  /** What a dependency's automatic installation reported. */
  datatype DependencyResult = DependencyResult(success: bool, discoveryRequired: bool)

  /** Some installed dependency needs discovery. */
  function AnyDiscovery(results: seq<DependencyResult>): bool
    decreases |results|
  {
    if results == [] then false
    else
      var last := results[|results| - 1];
      AnyDiscovery(results[..|results| - 1]) || (last.success && last.discoveryRequired)
  }

  /** AnyDiscovery is an existential over the results. */
  lemma {:induction false} AnyDiscoveryExists(results: seq<DependencyResult>)
    ensures AnyDiscovery(results) <==> exists k :: 0 <= k < |results| && results[k].success && results[k].discoveryRequired
    decreases |results|
  {
    if results != [] {
      var n := |results| - 1;
      var front := results[..n];
      AnyDiscoveryExists(front);
      assert forall k :: 0 <= k < n ==> front[k] == results[k];
      if AnyDiscovery(front) {
        var k :| 0 <= k < n && front[k].success && front[k].discoveryRequired;
        assert results[k] == front[k];
      }
    }
  }

  /**
   * `$discovery_required` after the dependency loop as written: each iteration first resets
   * it to false, so only the last dependency counts (outside autoupgrade mode).
   */
  function DependencyDiscoveryAsWritten(prior: Option<bool>, results: seq<DependencyResult>): Option<bool>
  {
    if results == [] then prior
    else
      var last := results[|results| - 1];
      Some(last.success && last.discoveryRequired)
  }

  /** `$discovery_required` after the dependency loop: set when any installed dependency needs discovery. */
  function DependencyDiscovery(prior: Option<bool>, results: seq<DependencyResult>): Option<bool>
  {
    if results == [] then prior else Some(AnyDiscovery(results))
  }

  /** After a non-empty loop, discovery is required exactly when some installed dependency needs it. */
  lemma DependencyDiscoveryAny(prior: Option<bool>, results: seq<DependencyResult>)
    ensures results == [] ==> DependencyDiscovery(prior, results) == prior
    ensures results != [] ==>
      DependencyDiscovery(prior, results) == Some(exists k :: 0 <= k < |results| && results[k].success && results[k].discoveryRequired)
  {
    AnyDiscoveryExists(results);
  }

  /**
   * The flag as written agrees with the intended one exactly when there are no dependencies,
   * the last one needs discovery, or none before the last does.
   */
  lemma DependencyDiscoveryAsWrittenAgrees(prior: Option<bool>, results: seq<DependencyResult>)
    ensures DependencyDiscoveryAsWritten(prior, results) == DependencyDiscovery(prior, results) <==>
      (results == [] || (results[|results| - 1].success && results[|results| - 1].discoveryRequired) ||
       !AnyDiscovery(results[..|results| - 1]))
  {
  }

  /** A dependency that needs discovery is forgotten as written when a later one does not. */
  lemma DependencyDiscoveryForgotten()
    ensures DependencyDiscoveryAsWritten(None, [DependencyResult(true, true), DependencyResult(true, false)]) == Some(false)
    ensures DependencyDiscovery(None, [DependencyResult(true, true), DependencyResult(true, false)]) == Some(true)
  {
    var rs := [DependencyResult(true, true), DependencyResult(true, false)];
    assert rs[..1] == [DependencyResult(true, true)];
    assert rs[..1][..0] == [];
  }

  /** The installer's link for installing one missing dependency by hand. */
  function DependencyLink(adminUrl: string, d: string): string
  {
    "<a href=\"" + adminUrl + "&task=addplugin&no_html=1&plugin=" + d + "\" target=\"_blank\">" + d + "</a>"
  }

  /** The links for the given dependencies, in order. */
  function DependencyLinks(adminUrl: string, deps: seq<string>): (r: string)
    ensures deps == [] ==> r == ""
    decreases |deps|
  {
    if deps == [] then "" else DependencyLinks(adminUrl, deps[..|deps| - 1]) + DependencyLink(adminUrl, deps[|deps| - 1])
  }

  const DependencyErrorPrefix: string :=
    " Failed dependencies check. Please ensure that you've installed the following plugins before attempting to install this one: "
  const ExclusionError: string :=
    " Failed plugin_check_exclusions check. Please ensure that you've un-installed the following plugins before attempting to install this one: "
  const MoveError: string := "There was an error while unpacking and moving the plugin"

  /** The error message for missing dependencies, built link by link. */
  method MissingDependencies(adminUrl: string, deps: seq<string>) returns (message: string)
    ensures message == DependencyErrorPrefix + DependencyLinks(adminUrl, deps)
  {
    message := DependencyErrorPrefix;
    for i := 0 to |deps|
      invariant message == DependencyErrorPrefix + DependencyLinks(adminUrl, deps[..i])
    {
      assert deps[..i + 1][..i] == deps[..i];
      message := message + DependencyLink(adminUrl, deps[i]);
    }
    assert deps[..|deps|] == deps;
  }

  /** The fixed pages the installer can lead to. */
  datatype Site = Site(liveSite: string, adminDirectory: string, adminUrl: string)

  /** `$output["NEXT_STEP"]` after a successful installation outside autoupgrade mode. */
  function NextStep(site: Site, discovery: Option<bool>, typ: Option<string>, name: string): string
  {
    if discovery == Some(true) then
      if TypeIs(typ, "widget") then site.liveSite + "/" + site.adminDirectory + "/plugins.php"
      else site.liveSite + "/" + site.adminDirectory + "/index.php?option=com_installer&view=discover"
    else site.adminUrl + "&task=showplugins#" + name
  }

  /** The next step: WordPress's plugins page for a widget to discover, Joomla's discover view for another extension, else the plugin manager at the plugin's anchor. */
  lemma NextStepTable(site: Site, discovery: Option<bool>, typ: Option<string>, name: string)
    ensures discovery == Some(true) && typ == Some("widget") ==>
      NextStep(site, discovery, typ, name) == site.liveSite + "/" + site.adminDirectory + "/plugins.php"
    ensures discovery == Some(true) && typ != Some("widget") ==>
      NextStep(site, discovery, typ, name) == site.liveSite + "/" + site.adminDirectory + "/index.php?option=com_installer&view=discover"
    ensures discovery != Some(true) ==>
      NextStep(site, discovery, typ, name) == site.adminUrl + "&task=showplugins#" + name
  {
    NoNumericPrefix("widget");
    TypeIsExact(typ, "widget");
  }

  /** What the installer reports back in autoupgrade mode. */
  datatype RetVals = RetVals(success: bool, discoveryRequired: bool)

  // ---------------------------------------------------------------------------
  // The installer run
  // ---------------------------------------------------------------------------

  const NoNameError: string := "Error, no plugin name passed"
  const VersionErrorPrefix: string := "Error, this plugin requires at least version "

  /**
   * The state the installer's constructor builds up: the plugin name, the error message,
   * the flags, the values returned in autoupgrade mode and the next step.
   */
  class Installer {
    var pluginName: string
    const thirdparty: bool
    const autoupgrade: bool
    var error: Option<string>
    var discoveryRequired: Option<bool>
    var installedOk: bool
    var retVals: Option<RetVals>
    var nextStep: string

    /** The request's plugin name after the two str_replace passes; nothing decided yet. */
    constructor(requested: string, thirdparty: bool, autoupgrade: bool)
      ensures pluginName == SanitiseOnce(requested)
      ensures Clean(requested) ==> pluginName == requested
      ensures !Clean(requested) ==> |pluginName| < |requested|
      ensures this.thirdparty == thirdparty && this.autoupgrade == autoupgrade
      ensures error.None? && discoveryRequired.None? && !installedOk && retVals.None? && nextStep == ""
    {
      SanitiseOnceProgress(requested);
      pluginName := SanitiseOnce(requested);
      this.thirdparty := thirdparty;
      this.autoupgrade := autoupgrade;
      error := None;
      discoveryRequired := None;
      installedOk := false;
      retVals := None;
      nextStep := "";
    }

    /** For an upload, the plugin name comes from the archive's file name. */
    method TakeUploadedName(filename: string)
      modifies this
      ensures pluginName == if thirdparty then UploadedName(filename) else old(pluginName)
      ensures error == old(error) && discoveryRequired == old(discoveryRequired) && installedOk == old(installedOk)
      ensures retVals == old(retVals) && nextStep == old(nextStep)
    {
      if thirdparty {
        pluginName := UploadedName(filename);
      }
    }

    /** An empty name outside an upload is an error; in autoupgrade mode the run stops there. */
    method CheckName() returns (stop: bool)
      modifies this
      ensures error == if |pluginName| == 0 && !thirdparty then Some(NoNameError) else old(error)
      ensures stop <==> |pluginName| == 0 && !thirdparty && autoupgrade
      ensures pluginName == old(pluginName) && discoveryRequired == old(discoveryRequired)
      ensures installedOk == old(installedOk) && retVals == old(retVals) && nextStep == old(nextStep)
    {
      stop := false;
      if |pluginName| == 0 && !thirdparty {
        error := Some(NoNameError);
        if autoupgrade {
          stop := true;
        }
      }
    }

    /** The plugin's minimum Jomres version against the running one. */
    method CheckVersion(minVer: string, current: seq<string>) returns (stop: bool)
      modifies this
      ensures error == if VersionTooOld(minVer, current) then Some(VersionErrorPrefix + minVer + " of Jomres") else old(error)
      ensures stop <==> VersionTooOld(minVer, current) && autoupgrade
      ensures pluginName == old(pluginName) && discoveryRequired == old(discoveryRequired)
      ensures installedOk == old(installedOk) && retVals == old(retVals) && nextStep == old(nextStep)
    {
      stop := false;
      var min := Explode(".", minVer);
      if |min| == 3 && |current| == 3 {
        var tooOld := true;
        if Condition(min, current) {
          tooOld := false;
        }
        if tooOld {
          error := Some(VersionErrorPrefix + minVer + " of Jomres");
          if autoupgrade {
            stop := true;
          }
        }
      }
    }

    /**
     * A failed dependency check: with a valid site key each dependency is installed
     * automatically (`results` are those installations' replies), otherwise the run records
     * an error listing the missing plugins.
     */
    method CheckDependencies(testResult: bool, keyValid: bool, adminUrl: string, deps: seq<string>,
                             results: seq<DependencyResult>)
      requires |results| == |deps|
      modifies this
      ensures discoveryRequired ==
        if !testResult && keyValid && !autoupgrade then DependencyDiscoveryAsWritten(old(discoveryRequired), results)
        else old(discoveryRequired)
      ensures error ==
        if !testResult && !keyValid then Some(DependencyErrorPrefix + DependencyLinks(adminUrl, deps))
        else old(error)
      ensures pluginName == old(pluginName) && installedOk == old(installedOk)
      ensures retVals == old(retVals) && nextStep == old(nextStep)
    {
      if !testResult {
        if keyValid {
          if !autoupgrade {
            RecordDiscovery(results);
          }
        } else {
          var message := MissingDependencies(adminUrl, deps);
          error := Some(message);
        }
      }
    }

    /**
     * The automatic installation of each dependency, outside autoupgrade mode: each
     * iteration first resets the flag, then sets it when that dependency needs discovery.
     */
    method RecordDiscovery(results: seq<DependencyResult>)
      modifies this
      ensures discoveryRequired == DependencyDiscoveryAsWritten(old(discoveryRequired), results)
      ensures error == old(error) && pluginName == old(pluginName) && installedOk == old(installedOk)
      ensures retVals == old(retVals) && nextStep == old(nextStep)
    {
      var prior := discoveryRequired;
      for i := 0 to |results|
        invariant discoveryRequired == DependencyDiscoveryAsWritten(prior, results[..i])
        invariant error == old(error) && pluginName == old(pluginName) && installedOk == old(installedOk)
        invariant retVals == old(retVals) && nextStep == old(nextStep)
      {
        var d := results[i];
        assert results[..i + 1][i] == d;
        discoveryRequired := Some(false);
        if d.success && d.discoveryRequired {
          discoveryRequired := Some(true);
        }
      }
      assert results[..|results|] == results;
    }

    /** A failed exclusion check is an error; in autoupgrade mode the run stops there. */
    method CheckExclusions(testResult: bool) returns (stop: bool)
      modifies this
      ensures error == if !testResult then Some(ExclusionError) else old(error)
      ensures stop <==> !testResult && autoupgrade
      ensures pluginName == old(pluginName) && discoveryRequired == old(discoveryRequired)
      ensures installedOk == old(installedOk) && retVals == old(retVals) && nextStep == old(nextStep)
    {
      stop := false;
      if !testResult {
        error := Some(ExclusionError);
        if autoupgrade {
          stop := true;
        }
      }
    }

    /**
     * After the plugin's files are moved into place (`moved`): success, and whether the CMS
     * must discover the plugin; a failed move is an error.
     */
    method Finish(moved: bool, typ: Option<string>, cms: Cms)
      modifies this
      ensures !moved ==> (error == Some(MoveError) && installedOk == old(installedOk) &&
        discoveryRequired == old(discoveryRequired) && retVals == old(retVals))
      ensures moved && !autoupgrade ==> (installedOk && retVals == old(retVals) &&
        discoveryRequired == (if ExtensionType(typ) && cms != OtherCms then Some(true)
          else if old(discoveryRequired).None? then Some(false) else old(discoveryRequired)))
      ensures moved && autoupgrade ==> (installedOk == old(installedOk) && discoveryRequired == old(discoveryRequired) &&
        retVals == Some(RetVals(true, ExtensionType(typ) && cms != OtherCms)))
      ensures moved ==> error == old(error)
      ensures pluginName == old(pluginName) && nextStep == old(nextStep)
    {
      if !moved {
        error := Some(MoveError);
      } else if ExtensionType(typ) {
        if cms == Joomla || cms == WordPress {
          if !autoupgrade {
            installedOk := true;
            discoveryRequired := Some(true);
          } else {
            retVals := Some(RetVals(true, true));
          }
        } else {
          FinishPlain();
        }
      } else {
        FinishPlain();
      }
    }

    /** The success of a plugin that needs no discovery. */
    method FinishPlain()
      modifies this
      ensures !autoupgrade ==> (installedOk && retVals == old(retVals) &&
        discoveryRequired == (if old(discoveryRequired).None? then Some(false) else old(discoveryRequired)))
      ensures autoupgrade ==> (installedOk == old(installedOk) && discoveryRequired == old(discoveryRequired) &&
        retVals == Some(RetVals(true, false)))
      ensures pluginName == old(pluginName) && error == old(error) && nextStep == old(nextStep)
    {
      if !autoupgrade {
        installedOk := true;
        if discoveryRequired.None? {
          discoveryRequired := Some(false);
        }
      } else {
        retVals := Some(RetVals(true, false));
      }
    }

    /** The next step is chosen only for a successful installation outside autoupgrade mode. */
    method ChooseNextStep(site: Site, typ: Option<string>)
      modifies this
      ensures nextStep == if !autoupgrade && installedOk then NextStep(site, discoveryRequired, typ, pluginName) else old(nextStep)
      ensures pluginName == old(pluginName) && error == old(error) && discoveryRequired == old(discoveryRequired)
      ensures installedOk == old(installedOk) && retVals == old(retVals)
    {
      if !autoupgrade && installedOk {
        nextStep := NextStep(site, discoveryRequired, typ, pluginName);
      }
    }
  }
}
