/**
 * The minicomponent registry (minicomponent_registry.class.php): it scans the directories
 * that hold minicomponents, recognises component files by their names, records each one
 * under its (event point, event name) pair, and normalises the tables before writing them
 * to the registry cache file.
 */
module Registry {
  import opened Wrappers
  import opened Php
  import opened Sorting

  /** One registered minicomponent: the directory that holds it and the kind of source. */
  datatype Entry = Entry(filepath: string, eventtype: string)

  /** A directory entry as `dir()->read()` returns it, with the answer `is_file` gives for it. */
  datatype DirEntry = DirEntry(name: string, isFile: bool)

  /**
   * A directory whose sub-directories hold plugins: its path (ending in the separator),
   * the names its listing returns, and the listing of every name that `dir()` can open.
   */
  datatype PluginRoot = PluginRoot(path: string, names: set<string>, subdirs: map<string, seq<DirEntry>>)

  /** The registry object's state: the two tables and the collision flag. */
  datatype Tables = Tables(classes: map<string, map<string, Entry>>, dirs: seq<string>, errorDetected: bool)

  /** What the file-name convention yields: an event point and an event name ("" for none). */
  datatype ParsedName = ParsedName(point: string, name: string)

  /** The directory separator JRDS. */
  const Separator: string := "/"

  /** Entries that are never registered, compared in lower case. */
  const UnwantedFolderContents: set<string> := {".", "..", "cvs", ".svn", "registry.php"}

  /** Event types whose entries, when overwritten, raise the collision flag. */
  const OverridingEventTypes: set<string> := {"component", "remotecomponent", "cms_specific_component"}

  // ---------------------------------------------------------------------------
  // The file-name convention
  // ---------------------------------------------------------------------------

  /**
   * The (event point, event name) pair of a file name. A name with "__" after its first
   * character is `point__name.ext`; any other name is read as `jNNNNNname.class.php`
   * once its dots are removed, and has an event name only when NNNNN is a number in 1..99999.
   */
  function ParseComponentFilename(filename: string): ParsedName
  {
    var pos := StrPos(filename, "__");
    if pos.Some? && pos.value > 0 then
      var bang := Explode("__", filename);
      ParsedName(bang[0], Explode(".", bang[1])[0])
    else
      var stripped := Substr(StrReplace(filename, ".", ""), 0, Some(-8));
      var point := Substr(stripped, 1, Some(5));
      var value := IntCast(point);
      ParsedName(point, if 0 < value && value <= 99999 then Substr(stripped, 6, None) else "")
  }

  /** The text of s before the first occurrence of d, or all of s. */
  function Before(s: string, d: string): (r: string)
    requires |d| > 0
    ensures StrPos(s, d).Some? ==> r == s[..StrPos(s, d).value]
    ensures StrPos(s, d).None? ==> r == s
  {
    Explode(d, s)[0]
  }

  /**
   * The `point__name.ext` form: the point is the text before the first "__", and the name is
   * the text after it, cut at the next "__" and then at the first ".".
   */
  lemma DoubleUnderscoreForm(filename: string)
    requires StrPos(filename, "__").Some? && StrPos(filename, "__").value > 0
    ensures var i := StrPos(filename, "__").value;
      var r := ParseComponentFilename(filename);
      r.point == filename[..i] && r.name == Before(Before(filename[i + 2..], "__"), ".")
  {
  }

  /**
   * The `jNNNNNname.class.php` form: with the dots removed and the last eight characters
   * dropped, the point is characters 1..5, and the name is the rest from character 6 on,
   * present only when the point's integer value is in 1..99999.
   */
  lemma ClassFileForm(filename: string)
    requires StrPos(filename, "__").None? || StrPos(filename, "__").value == 0
    ensures var stripped := StrReplace(filename, ".", "");
      var kept := if |stripped| >= 8 then stripped[..|stripped| - 8] else "";
      var point := if |kept| <= 1 then "" else kept[1..if |kept| < 6 then |kept| else 6];
      var r := ParseComponentFilename(filename);
      && r.point == point
      && (r.name != "" ==> 0 < IntCast(point) <= 99999 && |kept| > 6 && r.name == kept[6..])
      && (0 < IntCast(point) <= 99999 ==> r.name == Substr(kept, 6, None))
  {
    var stripped := StrReplace(filename, ".", "");
    SubstrDropLast8(stripped);
    var kept := if |stripped| >= 8 then stripped[..|stripped| - 8] else "";
    SubstrPointName(kept);
  }

  /** substr($s, 0, -8): all but the last eight characters. */
  lemma SubstrDropLast8(s: string)
    ensures Substr(s, 0, Some(-8)) == if |s| >= 8 then s[..|s| - 8] else ""
  {
  }

  /** substr($k, 1, 5) and substr($k, 6) of a stripped class file name. */
  lemma SubstrPointName(k: string)
    ensures Substr(k, 1, Some(5)) == if |k| <= 1 then "" else k[1..if |k| < 6 then |k| else 6]
    ensures Substr(k, 6, None) == if |k| > 6 then k[6..] else ""
  {
  }

  /** Removing the dot that ends `a.` when a has none. */
  lemma StripTrailingDot(a: string)
    requires '.' !in a
    ensures StrReplace(a + ".", ".", "") == a
  {
    RemoveCharConcat(a, ".", '.');
    RemoveCharAbsent(a, '.');
    assert StrReplace(".", ".", "") == "" + StrReplace("", ".", "");
  }

  /** Removing the dots of `a.b.c` when the three parts have none. */
  lemma StripTwoDots(a: string, b: string, c: string)
    requires '.' !in a && '.' !in b && '.' !in c
    ensures StrReplace((a + ".") + ((b + ".") + c), ".", "") == a + (b + c)
  {
    RemoveCharConcat(a + ".", (b + ".") + c, '.');
    RemoveCharConcat(b + ".", c, '.');
    StripTrailingDot(a);
    StripTrailingDot(b);
    RemoveCharAbsent(c, '.');
  }

  /**
   * A `jNNNNNname.class.php` file whose stem has no dot and no underscore pair: the point
   * is the five characters after the first and the name the rest, when the point is valid.
   */
  lemma ParseClassFile(stem: string)
    requires '.' !in stem && |stem| >= 6 && StrPos(stem + ".class.php", "__").None?
    ensures var r := ParseComponentFilename(stem + ".class.php");
      && r.point == stem[1..6]
      && r.name == if 0 < IntCast(stem[1..6]) <= 99999 then stem[6..] else ""
  {
    var f := stem + ".class.php";
    assert f == (stem + ".") + (("class" + ".") + "php");
    StripTwoDots(stem, "class", "php");
    var stripped := stem + "classphp";
    assert stripped[..|stripped| - 8] == stem;
  }

  /** A name with no "__" at all: either no underscore, or single underscores between parts. */
  lemma NoUnderscorePair(a: string, b: string)
    requires '_' !in a && '_' !in b
    ensures StrPos(a + b, "__").None? && StrPos(a + "_" + b, "__").None?
  {
    FirstCharAbsent(a + b, "__");
    var s := a + "_" + b;
    forall j | 0 <= j && j + 2 <= |s|
      ensures !OccursAt(s, "__", j)
    {
      assert s[j..j + 2][0] == s[j] && s[j..j + 2][1] == s[j + 1];
      if j < |a| {
        assert s[j] == a[j];
      } else if j > |a| {
        assert s[j] == b[j - |a| - 1];
      } else {
        assert s[j + 1] == b[0];
      }
    }
  }

  /** A string that starts with neither white space, a sign, a dot nor a digit reads as 0. */
  lemma NoLeadingNumber(s: string)
    requires |s| > 0 && !IsWs(s[0]) && !IsDigit(s[0]) && s[0] !in "+-."
    ensures IntCast(s) == 0
  {
    NoNumericPrefix(s);
  }

  /** The value of a five-digit string. */
  lemma FiveDigits(s: string)
    requires |s| == 5 && forall i :: 0 <= i < 5 ==> IsDigit(s[i])
    ensures IntCast(s) == DigitVal(s[0]) * 10000 + DigitVal(s[1]) * 1000 + DigitVal(s[2]) * 100 + DigitVal(s[3]) * 10 + DigitVal(s[4])
  {
    DigitsAreNumeric(s);
    assert s[..4][..3] == s[..3] && s[..3][..2] == s[..2] && s[..2][..1] == s[..1] && s[..1][..0] == [];
    assert DigitsValue(s[..1]) == DigitVal(s[0]);
    assert DigitsValue(s[..2]) == 10 * DigitVal(s[0]) + DigitVal(s[1]);
    assert DigitsValue(s[..3]) == 10 * DigitsValue(s[..2]) + DigitVal(s[2]);
    assert DigitsValue(s[..4]) == 10 * DigitsValue(s[..3]) + DigitVal(s[3]);
    assert DigitsValue(s) == 10 * DigitsValue(s[..4]) + DigitVal(s[4]);
    assert Shift(DigitsValue(s), 0) == DigitsValue(s);
  }

  /**
   * A `jNNNNNname.class.php` name whose five point characters are digits with a value in
   * 1..99999 is registered as (NNNNN, name).
   */
  lemma ParseNumberedClassFile(stem: string)
    requires '.' !in stem && |stem| >= 6 && StrPos(stem + ".class.php", "__").None?
    requires forall i :: 1 <= i < 6 ==> IsDigit(stem[i])
    requires stem[1..6] != "00000"
    ensures ParseComponentFilename(stem + ".class.php") == ParsedName(stem[1..6], stem[6..])
  {
    ParseClassFile(stem);
    var point := stem[1..6];
    FiveDigits(point);
    FiveDigitsZero(point);
  }

  /** Five digits read as 0 only when they are all zeros. */
  lemma FiveDigitsZero(s: string)
    requires |s| == 5 && forall i :: 0 <= i < 5 ==> IsDigit(s[i])
    ensures IntCast(s) == 0 <==> s == "00000"
  {
    FiveDigits(s);
    if IntCast(s) == 0 {
      assert s == "00000";
    }
  }

  /** The core file j16000addplugin.class.php handles event 16000 under the name addplugin. */
  lemma ParseExampleAddPlugin()
    ensures ParseComponentFilename("j16000addplugin" + ".class.php") == ParsedName("16000", "addplugin")
  {
    var stem := "j16000addplugin";
    NoUnderscorePair(stem, ".class.php");
    assert stem[1..6] == "16000" && stem[6..] == "addplugin";
    ParseNumberedClassFile(stem);
  }

  /** j00005plugin_manager.class.php handles event 00005 under the name plugin_manager. */
  lemma ParseExamplePluginManager()
    ensures ParseComponentFilename("j00005plugin" + "_" + "manager" + ".class.php") == ParsedName("00005", "plugin_manager")
  {
    var a, b := "j00005plugin", "manager";
    var stem := a + "_" + b;
    assert stem + ".class.php" == a + "_" + (b + ".class.php");
    NoUnderscorePair(a, b + ".class.php");
    assert stem[1..6] == a[1..6] == "00005" && stem[6..] == "plugin_manager";
    ParseNumberedClassFile(stem);
  }

  /** A `jNNNNNname.class.php` name whose point does not start a number gets no event name. */
  lemma ParseUnnumberedClassFile(stem: string)
    requires '.' !in stem && |stem| >= 6 && StrPos(stem + ".class.php", "__").None?
    requires !IsWs(stem[1]) && !IsDigit(stem[1]) && stem[1] !in "+-."
    ensures ParseComponentFilename(stem + ".class.php").name == ""
  {
    ParseClassFile(stem);
    NoLeadingNumber(stem[1..6]);
  }

  /** minicomponent_registry.class.php is not registered: its point "inico" reads as 0. */
  lemma ParseExampleRegistryFile()
    ensures ParseComponentFilename("minicomponent" + "_" + "registry" + ".class.php").name == ""
  {
    var a, b := "minicomponent", "registry";
    var stem := a + "_" + b;
    assert stem + ".class.php" == a + "_" + (b + ".class.php");
    NoUnderscorePair(a, b + ".class.php");
    assert stem[1] == 'i';
    ParseUnnumberedClassFile(stem);
  }

  /** The index of the last occurrence of c in s. */
  function LastIndexOf(s: string, c: char): (r: Option<nat>)
    ensures r.Some? ==> r.value < |s| && s[r.value] == c && c !in s[r.value + 1..]
    ensures r.None? ==> c !in s
  {
    if |s| == 0 then None
    else if s[|s| - 1] == c then Some(|s| - 1)
    else
      var r := LastIndexOf(s[..|s| - 1], c);
      assert s == s[..|s| - 1] + [s[|s| - 1]];
      r
  }

  /** pathinfo()'s "extension": the text after the last "." of the name, when it has one. */
  function Extension(filename: string): (r: Option<string>)
    ensures r.Some? <==> '.' in filename
    ensures r.Some? ==> var k := |filename| - |r.value|;
      k > 0 && filename[k - 1] == '.' && filename[k..] == r.value && '.' !in r.value
  {
    match LastIndexOf(filename, '.')
    case None => None
    case Some(i) => Some(filename[i + 1..])
  }

  /** The filter applied before a parsed file name is registered (line 269). */
  predicate IsRegistrable(filename: string, isFile: bool, parsed: ParsedName)
  {
    && isFile
    && StrToLower(filename) !in UnwantedFolderContents
    && parsed.name != ""
    && match Extension(filename)
       case Some(ext) => StrToLower(ext) == "php"
       case None => false
  }

  // ---------------------------------------------------------------------------
  // Table updates
  // ---------------------------------------------------------------------------

  /** True when registering (point, name) would overwrite an entry that raises a collision. */
  predicate Collides(t: Tables, point: string, name: string)
  {
    point in t.classes && name in t.classes[point]
    && t.classes[point][name].eventtype in OverridingEventTypes
  }

  /** Recording the file at (point, name): the registrable branch of registerComponentFile. */
  function Insert(t: Tables, filePath: string, point: string, name: string, eventType: string): Tables
  {
    var inner := if point in t.classes then t.classes[point] else map[];
    Tables(
      t.classes[point := inner[name := Entry(filePath, eventType)]],
      t.dirs + [filePath],
      t.errorDetected || Collides(t, point, name))
  }

  /** registerComponentFile: the tables after offering one directory entry. */
  function RegisterStep(t: Tables, filePath: string, filename: string, eventType: string, isFile: bool): Tables
  {
    var parsed := ParseComponentFilename(filename);
    if !IsRegistrable(filename, isFile, parsed) then t
    else Insert(t, filePath, parsed.point, parsed.name, eventType)
  }

  /** The entry at (point, name), if any. */
  function Lookup(t: Tables, point: string, name: string): Option<Entry>
  {
    if point in t.classes && name in t.classes[point] then Some(t.classes[point][name]) else None
  }

  /** Insert sets one entry, leaves every other one, and appends one directory. */
  lemma InsertEffect(t: Tables, filePath: string, point: string, name: string, eventType: string)
    ensures var t' := Insert(t, filePath, point, name, eventType);
      && Lookup(t', point, name) == Some(Entry(filePath, eventType))
      && (forall p, n :: (p, n) != (point, name) ==> Lookup(t', p, n) == Lookup(t, p, n))
      && t'.dirs == t.dirs + [filePath]
      && t'.errorDetected == (t.errorDetected || (Lookup(t, point, name).Some? && Lookup(t, point, name).value.eventtype in OverridingEventTypes))
  {
  }

  /**
   * A registrable file sets exactly its own entry (overwriting an earlier one), appends its
   * directory, and raises the collision flag exactly when it overwrites an entry of type
   * component, remotecomponent or cms_specific_component. Anything else changes nothing.
   */
  lemma RegisterStepEffect(t: Tables, filePath: string, filename: string, eventType: string, isFile: bool)
    ensures var parsed := ParseComponentFilename(filename);
      var t' := RegisterStep(t, filePath, filename, eventType, isFile);
      if IsRegistrable(filename, isFile, parsed) then
        && Lookup(t', parsed.point, parsed.name) == Some(Entry(filePath, eventType))
        && (forall p, n :: (p, n) != (parsed.point, parsed.name) ==> Lookup(t', p, n) == Lookup(t, p, n))
        && t'.dirs == t.dirs + [filePath]
        && t'.errorDetected == (t.errorDetected || Collides(t, parsed.point, parsed.name))
      else
        t' == t
  {
    var parsed := ParseComponentFilename(filename);
    InsertEffect(t, filePath, parsed.point, parsed.name, eventType);
  }

  /** A step appends the directory being scanned exactly when it records the entry. */
  lemma RegisterStepDirs(t: Tables, filePath: string, e: DirEntry, eventType: string)
    ensures var t' := RegisterStep(t, filePath, e.name, eventType, e.isFile);
      t'.dirs == if Accepted(e) then t.dirs + [filePath] else t.dirs
  {
  }

  /** The collision flag is never lowered, and it is raised only by an overriding collision. */
  lemma CollisionFlagRaisedOnlyByOverride(t: Tables, filePath: string, filename: string, eventType: string, isFile: bool)
    ensures var parsed := ParseComponentFilename(filename);
      var t' := RegisterStep(t, filePath, filename, eventType, isFile);
      && (t.errorDetected ==> t'.errorDetected)
      && (!t.errorDetected && t'.errorDetected <==>
            !t.errorDetected && IsRegistrable(filename, isFile, parsed)
            && Lookup(t, parsed.point, parsed.name).Some?
            && Lookup(t, parsed.point, parsed.name).value.eventtype in OverridingEventTypes)
  {
    RegisterStepEffect(t, filePath, filename, eventType, isFile);
  }

  /** Offering the entries of one directory listing in the order `read()` returns them. */
  function ScanListing(t: Tables, path: string, entries: seq<DirEntry>, eventType: string): Tables
    decreases |entries|
  {
    if entries == [] then t
    else ScanListing(RegisterStep(t, path, entries[0].name, eventType, entries[0].isFile), path, entries[1..], eventType)
  }

  /** A name that does not start with "." (the filter on plugin sub-directories). */
  predicate Visible(name: string)
  {
    Substr(name, 0, Some(1)) != "."
  }

  /** The sub-directory names of a plugin root that are scanned. */
  function VisibleNames(root: PluginRoot): (r: set<string>)
    ensures forall x :: x in r <==> x in root.names && (|x| == 0 || x[0] != '.')
  {
    set x | x in root.names && Visible(x)
  }

  /** Scanning the given sub-directories of a plugin root one after the other. */
  function ScanSubdirs(t: Tables, root: PluginRoot, docs: seq<string>, eventType: string): Tables
    decreases |docs|
  {
    if docs == [] then t
    else
      var doc := docs[0];
      var t' := if doc in root.subdirs then ScanListing(t, root.path + doc + Separator, root.subdirs[doc], eventType) else t;
      ScanSubdirs(t', root, docs[1..], eventType)
  }

  /** The first sub-directory is scanned before the others. */
  lemma ScanSubdirsStep(t: Tables, root: PluginRoot, docs: seq<string>, eventType: string)
    requires docs != []
    ensures ScanSubdirs(t, root, docs, eventType)
         == ScanSubdirs(if docs[0] in root.subdirs then ScanListing(t, root.path + docs[0] + Separator, root.subdirs[docs[0]], eventType) else t,
                        root, docs[1..], eventType)
  {
  }

  /** A plugin root: its visible sub-directories in sorted order. */
  ghost function ScanRoot(t: Tables, root: PluginRoot, eventType: string): Tables
  {
    ScanSubdirs(t, root, SortedSeq(VisibleNames(root)), eventType)
  }

  // ---------------------------------------------------------------------------
  // Regeneration
  // ---------------------------------------------------------------------------

  /** The directories the registry is rebuilt from, as their listings. */
  datatype Sources = Sources(
    appPath: string, core: seq<DirEntry>,
    cmsSpecificPath: string, cmsSpecific: seq<DirEntry>,
    corePlugins: PluginRoot,
    remotePlugins: PluginRoot,
    templates: Option<PluginRoot>)

  /** The configuration's safe_mode, "0" when it is not set. */
  function SafeMode(safeMode: Option<string>): string
  {
    safeMode.GetOr("0")
  }

  /** The core and CMS-specific directories, scanned whatever the configuration. */
  function ScanBase(errorDetected: bool, src: Sources): Tables
  {
    var t0 := Tables(map[], [], errorDetected);
    var t1 := ScanListing(t0, src.appPath, src.core, "core");
    ScanListing(t1, src.cmsSpecificPath, src.cmsSpecific, "cms_specific_component")
  }

  /**
   * regenerate_registry before saving: both tables emptied (the collision flag is left as
   * it was), then core, CMS-specific, and, only when safe_mode is loosely == "0", core plugins, remote
   * plugins and (unless AUTO_UPGRADE is defined) the CMS template's overrides.
   */
  ghost function Regenerated(errorDetected: bool, src: Sources, safeMode: Option<string>, autoUpgrade: bool): Tables
  {
    var t2 := ScanBase(errorDetected, src);
    if !LooseEq(SafeMode(safeMode), "0") then t2
    else
      var t3 := ScanRoot(t2, src.corePlugins, "core-plugin");
      var t4 := ScanRoot(t3, src.remotePlugins, "remotecomponent");
      if !autoUpgrade && src.templates.Some? then ScanRoot(t4, src.templates.value, "cmstemplate") else t4
  }

  /**
   * Before the plugins: a file in the CMS-specific directory wins over a core file of the same
   * pair, and a pair neither names has no entry.
   */
  lemma ScanBaseLookup(errorDetected: bool, src: Sources, p: string, n: string)
    ensures Lookup(ScanBase(errorDetected, src), p, n) ==
      if ListingNames(src.cmsSpecific, p, n) then Some(Entry(src.cmsSpecificPath, "cms_specific_component"))
      else if ListingNames(src.core, p, n) then Some(Entry(src.appPath, "core"))
      else None
  {
    var t0 := Tables(map[], [], errorDetected);
    var t1 := ScanListing(t0, src.appPath, src.core, "core");
    ScanListingLookup(t0, src.appPath, src.core, "core", p, n);
    ScanListingLookup(t1, src.cmsSpecificPath, src.cmsSpecific, "cms_specific_component", p, n);
  }

  /**
   * The entry regenerate_registry leaves at (p, n) comes from the last scanned layer that
   * names the pair: template overrides over remote plugins over core plugins over what the
   * core and CMS-specific directories left; the plugin layers count only with safe mode off,
   * and the template layer only without AUTO_UPGRADE.
   */
  lemma RegeneratedLookup(errorDetected: bool, src: Sources, safeMode: Option<string>, autoUpgrade: bool, p: string, n: string)
    ensures var r := Lookup(Regenerated(errorDetected, src, safeMode, autoUpgrade), p, n);
      var plugins := LooseEq(SafeMode(safeMode), "0");
      var fromTemplate := plugins && !autoUpgrade && src.templates.Some? && RootNames(src.templates.value, p, n);
      var fromRemote := plugins && !fromTemplate && RootNames(src.remotePlugins, p, n);
      var fromCorePlugin := plugins && !fromTemplate && !fromRemote && RootNames(src.corePlugins, p, n);
      && (fromTemplate ==> FromRoot(r, src.templates.value, "cmstemplate", p, n))
      && (fromRemote ==> FromRoot(r, src.remotePlugins, "remotecomponent", p, n))
      && (fromCorePlugin ==> FromRoot(r, src.corePlugins, "core-plugin", p, n))
      && (!fromTemplate && !fromRemote && !fromCorePlugin ==> r == Lookup(ScanBase(errorDetected, src), p, n))
  {
    if LooseEq(SafeMode(safeMode), "0") {
      var t2 := ScanBase(errorDetected, src);
      var t3 := ScanRoot(t2, src.corePlugins, "core-plugin");
      var t4 := ScanRoot(t3, src.remotePlugins, "remotecomponent");
      ScanRootLookup(t2, src.corePlugins, "core-plugin", p, n);
      ScanRootLookup(t3, src.remotePlugins, "remotecomponent", p, n);
      if !autoUpgrade && src.templates.Some? {
        ScanRootLookup(t4, src.templates.value, "cmstemplate", p, n);
      }
    }
  }

  /** With safe mode on (a value not loosely equal to "0"), only the core and CMS-specific directories are scanned. */
  lemma SafeModeScansOnlyBase(errorDetected: bool, src: Sources, safeMode: Option<string>, autoUpgrade: bool)
    requires safeMode.Some? && !LooseEq(safeMode.value, "0")
    ensures Regenerated(errorDetected, src, safeMode, autoUpgrade) == ScanBase(errorDetected, src)
  {
  }

  /**
   * Any safe_mode loosely equal to "0" scans exactly what an unset safe_mode scans: the
   * plugins and templates too.
   */
  lemma SafeModeOffScansAll(errorDetected: bool, src: Sources, safeMode: Option<string>, autoUpgrade: bool)
    requires LooseEq(SafeMode(safeMode), "0")
    ensures Regenerated(errorDetected, src, safeMode, autoUpgrade) == Regenerated(errorDetected, src, None, autoUpgrade)
  {
    LooseEqReflexive("0");
  }

  /** "00" is a safe_mode that leaves safe mode off, as the loose comparison reads it. */
  lemma SafeModeDoubleZero()
    ensures LooseEq(SafeMode(Some("00")), "0") && SafeMode(Some("00")) != "0"
  {
    var zz, z := "00", "0";
    DigitsAreNumeric(zz);
    DigitsAreNumeric(z);
    assert DigitsValue(zz) == 10 * DigitsValue(zz[..1]) && zz[..1] == z;
  }

  /** An entry that is present stays present through any later scan (possibly overwritten). */
  lemma {:induction false} ScanListingKeepsKeys(t: Tables, path: string, entries: seq<DirEntry>, eventType: string, p: string, n: string)
    requires Lookup(t, p, n).Some?
    ensures Lookup(ScanListing(t, path, entries, eventType), p, n).Some?
    decreases |entries|
  {
    if entries != [] {
      var t' := RegisterStep(t, path, entries[0].name, eventType, entries[0].isFile);
      RegisterStepEffect(t, path, entries[0].name, eventType, entries[0].isFile);
      ScanListingKeepsKeys(t', path, entries[1..], eventType, p, n);
    }
  }

  /** Offering one more entry after a listing is one more step. */
  lemma {:induction false} ScanListingSnoc(t: Tables, path: string, entries: seq<DirEntry>, e: DirEntry, eventType: string)
    ensures ScanListing(t, path, entries + [e], eventType)
         == RegisterStep(ScanListing(t, path, entries, eventType), path, e.name, eventType, e.isFile)
    decreases |entries|
  {
    if entries == [] {
      assert ScanListing(t, path, [e], eventType) == ScanListing(RegisterStep(t, path, e.name, eventType, e.isFile), path, [], eventType);
    } else {
      var t1 := RegisterStep(t, path, entries[0].name, eventType, entries[0].isFile);
      assert (entries + [e])[1..] == entries[1..] + [e];
      ScanListingSnoc(t1, path, entries[1..], e, eventType);
    }
  }

  /**
   * The last writer wins: when the last entry of a listing is recorded, its pair holds
   * that file's directory and event type, whatever came before it.
   */
  lemma ScanListingLastWriterWins(t: Tables, path: string, entries: seq<DirEntry>, e: DirEntry, eventType: string)
    requires Accepted(e)
    ensures var parsed := ParseComponentFilename(e.name);
      Lookup(ScanListing(t, path, entries + [e], eventType), parsed.point, parsed.name) == Some(Entry(path, eventType))
  {
    ScanListingSnoc(t, path, entries, e, eventType);
    RegisterStepEffect(ScanListing(t, path, entries, eventType), path, e.name, eventType, e.isFile);
  }

  /** Whether a directory entry is recorded by registerComponentFile. */
  predicate Accepted(e: DirEntry)
  {
    IsRegistrable(e.name, e.isFile, ParseComponentFilename(e.name))
  }

  /** The entry is recorded, at the pair (p, n). */
  predicate NamesPair(e: DirEntry, p: string, n: string)
  {
    Accepted(e) && ParseComponentFilename(e.name) == ParsedName(p, n)
  }

  /** Some entry of the listing is recorded at (p, n). */
  predicate ListingNames(entries: seq<DirEntry>, p: string, n: string)
  {
    exists k :: 0 <= k < |entries| && NamesPair(entries[k], p, n)
  }

  lemma ListingNamesCons(entries: seq<DirEntry>, p: string, n: string)
    requires entries != []
    ensures ListingNames(entries, p, n) <==> NamesPair(entries[0], p, n) || ListingNames(entries[1..], p, n)
  {
    if ListingNames(entries, p, n) && !NamesPair(entries[0], p, n) {
      var k :| 0 <= k < |entries| && NamesPair(entries[k], p, n);
      assert entries[1..][k - 1] == entries[k];
    }
    if ListingNames(entries[1..], p, n) {
      var k :| 0 <= k < |entries[1..]| && NamesPair(entries[1..][k], p, n);
      assert entries[k + 1] == entries[1..][k];
    }
  }

  /**
   * After scanning one listing, a pair holds this directory and event type exactly when some
   * recorded file of the listing names it (every file of a listing is recorded with the same
   * entry, so the last writer and any writer agree); every other pair keeps its entry.
   */
  lemma {:induction false} ScanListingLookup(t: Tables, path: string, entries: seq<DirEntry>, eventType: string, p: string, n: string)
    ensures Lookup(ScanListing(t, path, entries, eventType), p, n) ==
      if ListingNames(entries, p, n) then Some(Entry(path, eventType)) else Lookup(t, p, n)
    decreases |entries|
  {
    if entries != [] {
      var t' := RegisterStep(t, path, entries[0].name, eventType, entries[0].isFile);
      RegisterStepEffect(t, path, entries[0].name, eventType, entries[0].isFile);
      ScanListingLookup(t', path, entries[1..], eventType, p, n);
      ListingNamesCons(entries, p, n);
    }
  }

  /** The listing of sub-directory doc of a plugin root records a file at (p, n). */
  predicate SubdirNames(root: PluginRoot, doc: string, p: string, n: string)
  {
    doc in root.subdirs && ListingNames(root.subdirs[doc], p, n)
  }

  /** No sub-directory scanned records a file at (p, n): the pair keeps its entry. */
  lemma {:induction false} ScanSubdirsUntouched(t: Tables, root: PluginRoot, docs: seq<string>, eventType: string, p: string, n: string)
    requires forall j :: 0 <= j < |docs| ==> !SubdirNames(root, docs[j], p, n)
    ensures Lookup(ScanSubdirs(t, root, docs, eventType), p, n) == Lookup(t, p, n)
    decreases |docs|
  {
    if docs != [] {
      var doc := docs[0];
      var t' := if doc in root.subdirs then ScanListing(t, root.path + doc + Separator, root.subdirs[doc], eventType) else t;
      if doc in root.subdirs {
        ScanListingLookup(t, root.path + doc + Separator, root.subdirs[doc], eventType, p, n);
      }
      assert forall j :: 0 <= j < |docs[1..]| ==> docs[1..][j] == docs[j + 1];
      ScanSubdirsUntouched(t', root, docs[1..], eventType, p, n);
    }
  }

  /**
   * The last sub-directory (in scan order) that records a file at (p, n) decides its entry:
   * that sub-directory's path and the root's event type.
   */
  lemma {:induction false} ScanSubdirsLastWriter(t: Tables, root: PluginRoot, docs: seq<string>, eventType: string, p: string, n: string, i: nat)
    requires i < |docs| && SubdirNames(root, docs[i], p, n)
    requires forall j :: i < j < |docs| ==> !SubdirNames(root, docs[j], p, n)
    ensures Lookup(ScanSubdirs(t, root, docs, eventType), p, n) == Some(Entry(root.path + docs[i] + Separator, eventType))
    decreases |docs|
  {
    var doc, later := docs[0], docs[1..];
    ScanSubdirsStep(t, root, docs, eventType);
    if i == 0 {
      var t' := ScanListing(t, root.path + doc + Separator, root.subdirs[doc], eventType);
      ScanListingLookup(t, root.path + doc + Separator, root.subdirs[doc], eventType, p, n);
      forall j | 0 <= j < |later|
        ensures !SubdirNames(root, later[j], p, n)
      {
        assert later[j] == docs[j + 1];
      }
      ScanSubdirsUntouched(t', root, later, eventType, p, n);
    } else {
      var t' := if doc in root.subdirs then ScanListing(t, root.path + doc + Separator, root.subdirs[doc], eventType) else t;
      forall j | i - 1 < j < |later|
        ensures !SubdirNames(root, later[j], p, n)
      {
        assert later[j] == docs[j + 1];
      }
      assert later[i - 1] == docs[i];
      ScanSubdirsLastWriter(t', root, later, eventType, p, n, i - 1);
    }
  }

  /** Some visible sub-directory of the root records a file at (p, n). */
  predicate RootNames(root: PluginRoot, p: string, n: string)
  {
    exists d :: d in VisibleNames(root) && SubdirNames(root, d, p, n)
  }

  /**
   * An entry that comes from a plugin root: the root's event type and the path of a visible
   * sub-directory whose listing records a file at (p, n).
   */
  predicate FromRoot(o: Option<Entry>, root: PluginRoot, eventType: string, p: string, n: string)
  {
    exists d :: d in VisibleNames(root) && SubdirNames(root, d, p, n) && o == Some(Entry(root.path + d + Separator, eventType))
  }

  /** Scanning a plugin root leaves a pair no visible sub-directory names as it was. */
  lemma ScanRootUntouched(t: Tables, root: PluginRoot, eventType: string, p: string, n: string)
    requires !RootNames(root, p, n)
    ensures Lookup(ScanRoot(t, root, eventType), p, n) == Lookup(t, p, n)
  {
    var docs := SortedSeq(VisibleNames(root));
    SortedSeqIsSortedSet(VisibleNames(root));
    forall j | 0 <= j < |docs|
      ensures !SubdirNames(root, docs[j], p, n)
    {
      assert docs[j] in VisibleNames(root);
    }
    ScanSubdirsUntouched(t, root, docs, eventType, p, n);
  }

  /**
   * Scanning a plugin root gives a pair some visible sub-directory names the root's event
   * type and the path of one of those sub-directories (the last in sorted order).
   */
  lemma ScanRootNamed(t: Tables, root: PluginRoot, eventType: string, p: string, n: string)
    requires RootNames(root, p, n)
    ensures FromRoot(Lookup(ScanRoot(t, root, eventType), p, n), root, eventType, p, n)
  {
    var docs := SortedSeq(VisibleNames(root));
    SortedSeqIsSortedSet(VisibleNames(root));
    var d :| d in VisibleNames(root) && SubdirNames(root, d, p, n);
    assert d in docs;
    var i := ScanSubdirsNamed(t, root, docs, eventType, p, n, d);
    assert docs[i] in VisibleNames(root);
    assert ScanRoot(t, root, eventType) == ScanSubdirs(t, root, docs, eventType);
  }

  /** Scanning a plugin root, both cases: a pair it names comes from it, any other keeps its entry. */
  lemma ScanRootLookup(t: Tables, root: PluginRoot, eventType: string, p: string, n: string)
    ensures RootNames(root, p, n) ==> FromRoot(Lookup(ScanRoot(t, root, eventType), p, n), root, eventType, p, n)
    ensures !RootNames(root, p, n) ==> Lookup(ScanRoot(t, root, eventType), p, n) == Lookup(t, p, n)
  {
    if RootNames(root, p, n) {
      ScanRootNamed(t, root, eventType, p, n);
    } else {
      ScanRootUntouched(t, root, eventType, p, n);
    }
  }

  /** Some listed sub-directory names (p, n): the last one that does decides its entry. */
  lemma ScanSubdirsNamed(t: Tables, root: PluginRoot, docs: seq<string>, eventType: string, p: string, n: string, d: string) returns (i: nat)
    requires d in docs && SubdirNames(root, d, p, n)
    ensures i < |docs| && SubdirNames(root, docs[i], p, n)
    ensures Lookup(ScanSubdirs(t, root, docs, eventType), p, n) == Some(Entry(root.path + docs[i] + Separator, eventType))
  {
    var i0 :| 0 <= i0 < |docs| && docs[i0] == d;
    i := LastNaming(root, docs, p, n, i0);
    ScanSubdirsLastWriter(t, root, docs, eventType, p, n, i);
  }

  /** The last index at or after i0 whose sub-directory names (p, n). */
  lemma {:induction false} LastNaming(root: PluginRoot, docs: seq<string>, p: string, n: string, i0: nat) returns (i: nat)
    requires i0 < |docs| && SubdirNames(root, docs[i0], p, n)
    ensures i0 <= i < |docs| && SubdirNames(root, docs[i], p, n)
    ensures forall j :: i < j < |docs| ==> !SubdirNames(root, docs[j], p, n)
    decreases |docs| - i0
  {
    if j :| i0 < j < |docs| && SubdirNames(root, docs[j], p, n) {
      i := LastNaming(root, docs, p, n, j);
    } else {
      i := i0;
    }
  }

  /** The number of entries of a listing that are recorded. */
  function AcceptedCount(entries: seq<DirEntry>): nat
  {
    if entries == [] then 0 else (if Accepted(entries[0]) then 1 else 0) + AcceptedCount(entries[1..])
  }

  /** k copies of x. */
  function Repeat(x: string, k: nat): (r: seq<string>)
    ensures |r| == k && forall i :: 0 <= i < k ==> r[i] == x
  {
    if k == 0 then [] else [x] + Repeat(x, k - 1)
  }

  /** Scanning a directory appends its path once for every file it records, and nothing else. */
  lemma {:induction false} ScanListingDirs(t: Tables, path: string, entries: seq<DirEntry>, eventType: string)
    ensures ScanListing(t, path, entries, eventType).dirs == t.dirs + Repeat(path, AcceptedCount(entries))
    decreases |entries|
  {
    if entries != [] {
      var t1 := RegisterStep(t, path, entries[0].name, eventType, entries[0].isFile);
      RegisterStepDirs(t, path, entries[0], eventType);
      ScanListingDirs(t1, path, entries[1..], eventType);
      if Accepted(entries[0]) {
        assert Repeat(path, AcceptedCount(entries)) == [path] + Repeat(path, AcceptedCount(entries[1..]));
      }
    }
  }

  // ---------------------------------------------------------------------------
  // Normalisation for the registry file
  // ---------------------------------------------------------------------------

  /** The set of values in a sequence. */
  function Elements(s: seq<string>): (r: set<string>)
    ensures forall x :: x in r <==> x in s
  {
    set x | x in s
  }

  /** One event point's entries as the registry file lists them: sorted by event name. */
  ghost function ExportInner(m: map<string, Entry>): seq<(string, Entry)>
  {
    var names := SortedSeq(m.Keys);
    SortedSeqIsSortedSet(m.Keys);
    seq(|names|, i requires 0 <= i < |names| => (names[i], m[names[i]]))
  }

  /** The registeredClasses table as the registry file lists it: both key levels sorted. */
  ghost function Export(classes: map<string, map<string, Entry>>): seq<(string, seq<(string, Entry)>)>
  {
    var points := SortedSeq(classes.Keys);
    SortedSeqIsSortedSet(classes.Keys);
    seq(|points|, i requires 0 <= i < |points| => (points[i], ExportInner(classes[points[i]])))
  }

  /** The keys of a listing, in order. */
  function KeysOf<V>(kv: seq<(string, V)>): seq<string>
  {
    seq(|kv|, i requires 0 <= i < |kv| => kv[i].0)
  }

  /** One event point's listing holds its entries in strictly increasing name order. */
  lemma ExportInnerContents(m: map<string, Entry>)
    ensures var inner := ExportInner(m);
      && KeysOf(inner) == SortedSeq(m.Keys)
      && StrictlySorted(KeysOf(inner))
      && (forall n :: n in m <==> n in KeysOf(inner))
      && forall j :: 0 <= j < |inner| ==> inner[j].0 in m && m[inner[j].0] == inner[j].1
  {
    SortedSeqIsSortedSet(m.Keys);
    var inner := ExportInner(m);
    assert KeysOf(inner) == SortedSeq(m.Keys);
  }

  /**
   * The exported table holds the same contents as the map: its keys are strictly increasing
   * at both levels, they are exactly the map's keys, and every listed entry is the map's.
   */
  lemma ExportIsSortedContents(classes: map<string, map<string, Entry>>)
    ensures var ex := Export(classes);
      && StrictlySorted(KeysOf(ex))
      && (forall p :: p in classes <==> p in KeysOf(ex))
      && forall i :: 0 <= i < |ex| ==> ex[i].0 in classes && ex[i].1 == ExportInner(classes[ex[i].0])
  {
    SortedSeqIsSortedSet(classes.Keys);
    var ex := Export(classes);
    assert KeysOf(ex) == SortedSeq(classes.Keys);
  }

  /** An event point of the class-file form: five decimal digits. */
  predicate FiveDigitPoint(p: string)
  {
    |p| == 5 && forall i :: 0 <= i < 5 ==> IsDigit(p[i])
  }

  /**
   * When every event point is five digits, the written table lists the points in increasing
   * numeric value, the order ksort gives them.
   */
  lemma ExportFiveDigitPointsNumeric(classes: map<string, map<string, Entry>>)
    requires forall p :: p in classes ==> FiveDigitPoint(p)
    ensures var ks := KeysOf(Export(classes));
      forall i, j :: 0 <= i < j < |ks| ==> DigitsValue(ks[i]) < DigitsValue(ks[j])
  {
    ExportIsSortedContents(classes);
    var ks := KeysOf(Export(classes));
    forall i, j | 0 <= i < j < |ks|
      ensures DigitsValue(ks[i]) < DigitsValue(ks[j])
    {
      assert ks[i] in classes && ks[j] in classes;
      SameLengthDigitsOrder(ks[i], ks[j]);
    }
  }

  /** The table as the registry file lists it, built by the two nested `ksort` passes. */
  method ExportTable(classes: map<string, map<string, Entry>>) returns (exported: seq<(string, seq<(string, Entry)>)>)
    ensures exported == Export(classes)
  {
    var points := SortedElements(classes.Keys);
    ExportLength(classes);
    exported := [];
    var i := 0;
    while i < |points|
      invariant 0 <= i <= |points| == |Export(classes)|
      invariant exported == Export(classes)[..i]
    {
      ExportAt(classes, i);
      var inner := ExportInnerTable(classes[points[i]]);
      PrefixSnoc(Export(classes), i);
      exported := exported + [(points[i], inner)];
      i := i + 1;
    }
  }

  /** One event point's entries, built by the inner `ksort` pass. */
  method ExportInnerTable(m: map<string, Entry>) returns (inner: seq<(string, Entry)>)
    ensures inner == ExportInner(m)
  {
    var names := SortedElements(m.Keys);
    ExportInnerOf(m, names);
    inner := seq(|names|, j requires 0 <= j < |names| => (names[j], m[names[j]]));
  }

  /** A prefix one longer is the prefix and the next element. */
  lemma PrefixSnoc<T>(s: seq<T>, i: nat)
    requires i < |s|
    ensures s[..i + 1] == s[..i] + [s[i]]
  {
  }

  /** The written table has one listing per event point. */
  lemma ExportLength(classes: map<string, map<string, Entry>>)
    ensures |SortedSeq(classes.Keys)| == |classes.Keys| == |Export(classes)|
  {
    SortedSeqIsSortedSet(classes.Keys);
  }

  /** One event point's listing, built from its sorted names. */
  lemma ExportInnerOf(m: map<string, Entry>, names: seq<string>)
    requires names == SortedSeq(m.Keys)
    ensures forall x :: x in names ==> x in m
    ensures seq(|names|, j requires 0 <= j < |names| => (names[j], m[names[j]])) == ExportInner(m)
  {
    SortedSeqIsSortedSet(m.Keys);
  }

  /** The i-th point of the written table and its listing. */
  lemma ExportAt(classes: map<string, map<string, Entry>>, i: nat)
    requires i < |classes.Keys|
    ensures |SortedSeq(classes.Keys)| == |classes.Keys|
    ensures var point := SortedSeq(classes.Keys)[i];
      point in classes && Export(classes)[i] == (point, ExportInner(classes[point]))
  {
    SortedSeqIsSortedSet(classes.Keys);
    assert SortedSeq(classes.Keys)[i] in classes.Keys;
  }

  // ---------------------------------------------------------------------------
  // The registry object
  // ---------------------------------------------------------------------------

  class MinicomponentRegistry {
    var registeredClasses: map<string, map<string, Entry>>
    var miniComponentDirectories: seq<string>
    var errorDetected: bool

    function Current(): Tables
      reads this
    {
      Tables(registeredClasses, miniComponentDirectories, errorDetected)
    }

    /** The tables start empty (loading an existing registry file is not modelled). */
    constructor ()
      ensures Current() == Tables(map[], [], false)
    {
      registeredClasses := map[];
      miniComponentDirectories := [];
      errorDetected := false;
    }

    /** registerComponentFile */
    method RegisterComponentFile(filePath: string, filename: string, eventType: string, isFile: bool)
      modifies this
      ensures Current() == RegisterStep(old(Current()), filePath, filename, eventType, isFile)
    {
      var parsed := ParseComponentFilename(filename);
      if IsRegistrable(filename, isFile, parsed) {
        var point, name := parsed.point, parsed.name;
        if point in registeredClasses && name in registeredClasses[point]
          && registeredClasses[point][name].eventtype in OverridingEventTypes
        {
          errorDetected := true;
        }
        var inner := if point in registeredClasses then registeredClasses[point] else map[];
        miniComponentDirectories := miniComponentDirectories + [filePath];
        registeredClasses := registeredClasses[point := inner[name := Entry(filePath, eventType)]];
      }
    }

    /** The `while ($entry = $d->read())` loop over one directory. */
    method ScanDirectory(path: string, entries: seq<DirEntry>, eventType: string)
      modifies this
      ensures Current() == ScanListing(old(Current()), path, entries, eventType)
    {
      var i := 0;
      while i < |entries|
        invariant 0 <= i <= |entries|
        invariant ScanListing(Current(), path, entries[i..], eventType) == ScanListing(old(Current()), path, entries, eventType)
      {
        assert entries[i..][1..] == entries[i + 1..];
        RegisterComponentFile(path, entries[i].name, eventType, entries[i].isFile);
        i := i + 1;
      }
    }

    /**
     * getMiniCorePluginsClasses, getMiniComponentRemoteClasses and the directory loop of
     * getMiniComponentCmsTemplateClasses: the visible sub-directories, sorted, each scanned.
     */
    method ScanPluginRoot(root: PluginRoot, eventType: string)
      modifies this
      ensures Current() == ScanRoot(old(Current()), root, eventType)
    {
      var docs := SortedElements(VisibleNames(root));
      var i := 0;
      while i < |docs|
        invariant 0 <= i <= |docs|
        invariant ScanSubdirs(Current(), root, docs[i..], eventType) == ScanRoot(old(Current()), root, eventType)
      {
        var doc := docs[i];
        ScanSubdirsStep(Current(), root, docs[i..], eventType);
        assert docs[i..][0] == doc && docs[i..][1..] == docs[i + 1..];
        if doc in root.subdirs {
          ScanDirectory(root.path + doc + Separator, root.subdirs[doc], eventType);
        }
        i := i + 1;
      }
    }

    /**
     * save_registry_file: when an existing registry file cannot be deleted nothing changes
     * and the result is false; otherwise the directory list becomes sorted and duplicate-free
     * and the returned listing is the table with both key levels sorted.
     */
    method SaveRegistryFile(deleteFails: bool) returns (ok: bool, exported: seq<(string, seq<(string, Entry)>)>)
      modifies this
      ensures ok == !deleteFails
      ensures registeredClasses == old(registeredClasses) && errorDetected == old(errorDetected)
      ensures !ok ==> miniComponentDirectories == old(miniComponentDirectories) && exported == []
      ensures ok ==> miniComponentDirectories == SortedSeq(Elements(old(miniComponentDirectories)))
      ensures ok ==> exported == Export(registeredClasses)
    {
      if deleteFails {
        return false, [];
      }
      miniComponentDirectories := SortedElements(Elements(miniComponentDirectories));
      exported := ExportTable(registeredClasses);
      ok := true;
    }

    /**
     * regenerate_registry: rebuilds both tables from the sources in their fixed order and
     * saves them. The page reload, the deletion of cached files and the shortcode rebuild
     * are I/O and are not modelled.
     */
    method RegenerateRegistry(src: Sources, safeMode: Option<string>, autoUpgrade: bool, deleteFails: bool)
      returns (exported: seq<(string, seq<(string, Entry)>)>)
      modifies this
      ensures var t := Regenerated(old(errorDetected), src, safeMode, autoUpgrade);
        && registeredClasses == t.classes
        && errorDetected == t.errorDetected
        && miniComponentDirectories == (if deleteFails then t.dirs else SortedSeq(Elements(t.dirs)))
        && exported == (if deleteFails then [] else Export(t.classes))
    {
      var mode := SafeMode(safeMode);
      registeredClasses := map[];
      miniComponentDirectories := [];
      ScanDirectory(src.appPath, src.core, "core");
      ScanDirectory(src.cmsSpecificPath, src.cmsSpecific, "cms_specific_component");
      if LooseEq(mode, "0") {
        ScanPluginRoot(src.corePlugins, "core-plugin");
        ScanPluginRoot(src.remotePlugins, "remotecomponent");
        if !autoUpgrade && src.templates.Some? {
          ScanPluginRoot(src.templates.value, "cmstemplate");
        }
      }
      var ok;
      ok, exported := SaveRegistryFile(deleteFails);
    }
  }
}
