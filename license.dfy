/**
 * jomres_check_support_key::check_license_key: the licence server's answer about the site key
 * is normalised, cached for a day, and copied into the object's fields (key_valid,
 * allowed_plugins, is_trial_license, ...).
 */
module LicenseCheck {
  import opened Wrappers
  import opened Php

  // ---------------------------------------------------------------------------
  // PHP values
  // ---------------------------------------------------------------------------

  /** A scalar that json_decode produces, or that a property holds; a missing property reads as null. */
  datatype Json = JNull | JBool(b: bool) | JInt(i: int) | JStr(s: string)

  /** `(string) $v`: null and false are "", true is "1". */
  function StrVal(v: Json): string
  {
    match v
    case JNull => ""
    case JBool(b) => if b then "1" else ""
    case JInt(i) => IntToStr(i)
    case JStr(s) => s
  }

  /** `(bool) $v`, which is also `$v == true`. */
  predicate Truthy(v: Json)
  {
    match v
    case JNull => false
    case JBool(b) => b
    case JInt(i) => i != 0
    case JStr(s) => !Empty(s)
  }

  /**
   * `$v == $t` for a string t in PHP 7: null is compared as "", a boolean with t read as a
   * boolean, an integer with t read as a number, a string loosely.
   */
  predicate LooseEqStr(v: Json, t: string)
  {
    match v
    case JNull => t == ""
    case JBool(b) => b == !Empty(t)
    case JInt(i) => LooseEqInt(t, i)
    case JStr(s) => LooseEq(s, t)
  }

  // ---------------------------------------------------------------------------
  // Licence data
  // ---------------------------------------------------------------------------

  /** The decoded reply of check_key.php; the key's status arrives as `status`. */
  datatype Reply = Reply(
    licenseName: Json, expires: Json, status: Json, owner: Json,
    licenseValid: Json, allowsPlugins: Json, isTrial: Json, allowedPlugins: Json)

  /** The `$license_data` object. */
  datatype LicenseData = LicenseData(
    licenseName: Json, expires: Json, keyStatus: Json, owner: Json,
    licenseValid: Json, allowsPlugins: Json, isTrial: Json, allowedPlugins: Json)

  /** The values `$license_data` starts with; allowed_plugins is not set. */
  function Defaults(): LicenseData
  {
    LicenseData(JStr("Unknown"), JStr("Unknown"), JStr("Unknown"), JStr("Unknown"),
      JBool(false), JBool(false), JBool(false), JNull)
  }

  /** A null value replaced by "Unknown". */
  function OrUnknown(v: Json): (r: Json)
    ensures r != JNull
    ensures v != JNull ==> r == v
  {
    if v.JNull? then JStr("Unknown") else v
  }

  /**
   * The normalisation of a fresh reply: license_valid becomes "1" for a boolean true and "0"
   * for anything else; a null expires, allows_plugins or is_trial_license becomes "Unknown";
   * key_status is the reply's status, or "Unknown" when it has none.
   */
  function Normalise(r: Reply): LicenseData
  {
    LicenseData(r.licenseName, OrUnknown(r.expires), OrUnknown(r.status), r.owner,
      JStr(if r.licenseValid == JBool(true) then "1" else "0"),
      OrUnknown(r.allowsPlugins), OrUnknown(r.isTrial), r.allowedPlugins)
  }

  /** What including the cache file defines: the eight fields, each as a string. */
  datatype CacheRecord = CacheRecord(
    licenseName: string, expires: string, keyStatus: string, owner: string,
    licenseValid: string, allowsPlugins: string, isTrial: string, allowedPlugins: string)

  /** The cache file written for some licence data: every field converted to a string. */
  function ToCache(d: LicenseData): CacheRecord
  {
    CacheRecord(StrVal(d.licenseName), StrVal(d.expires), StrVal(d.keyStatus), StrVal(d.owner),
      StrVal(d.licenseValid), StrVal(d.allowsPlugins), StrVal(d.isTrial), StrVal(d.allowedPlugins))
  }

  /** The licence data read back from the cache file. */
  function FromCache(c: CacheRecord): LicenseData
  {
    LicenseData(JStr(c.licenseName), JStr(c.expires), JStr(c.keyStatus), JStr(c.owner),
      JStr(c.licenseValid), JStr(c.allowsPlugins), JStr(c.isTrial), JStr(c.allowedPlugins))
  }

  /** The caching period: a cache file more than this many seconds old is discarded. */
  const CacheSeconds := 86400

  /**
   * The world check_license_key sees: the configured key, the cache file's age, the server's
   * reply and what json_decode makes of it.
   */
  datatype Env = Env(licenseKey: string, cacheAge: int, buffer: string, decoded: Reply)

  /**
   * The licence data check_license_key ends with, and the cache file it leaves: a cache file
   * at most a day old is read, an older one deleted; without a usable cache file, or when
   * forced, the server is asked and a non-empty reply is normalised and cached.
   */
  function Fetch(cache: Option<CacheRecord>, env: Env, force: bool): (LicenseData, Option<CacheRecord>)
  {
    var (d1, cache1) :=
      match cache
      case None => (Defaults(), None)
      case Some(c) => if CacheSeconds < env.cacheAge then (Defaults(), None) else (FromCache(c), Some(c));
    if (cache1.None? || force) && env.buffer != "" then
      var d2 := Normalise(env.decoded);
      (d2, Some(ToCache(d2)))
    else (d1, cache1)
  }

  /** The comma-separated list of allowed plugins; none when the property is not set. */
  function AllowedList(v: Json): seq<string>
  {
    if v.JNull? then [] else Explode(",", StrVal(v))
  }

  /** The trial flag as written: `== "Unknown"` is a loose comparison. */
  function TrialAsWritten(v: Json): bool
  {
    Truthy(if LooseEqStr(v, "Unknown") then JBool(false) else v)
  }

  /** The trial flag as intended: only the placeholder "Unknown" counts as no trial. */
  function TrialFlag(v: Json): bool
  {
    Truthy(if v == JStr("Unknown") then JBool(false) else v)
  }

  /** The fields of a jomres_check_support_key object, and the cache file. */
  datatype CheckState = CheckState(
    keyHash: string, keyValid: bool, shopStatus: string,
    expires: Json, keyStatus: Json, owner: Json, licenseName: Json,
    allowedPlugins: seq<string>, allowsPlugins: Json, isTrialLicense: bool,
    cacheFile: Option<CacheRecord>)

  /**
   * The end of check_license_key: key_valid only ever becomes true; the other fields are
   * copied from the licence data, allowed_plugins split on ",", and is_trial_license is the
   * trial flag under the loose test as written.
   */
  function Apply(st: CheckState, d: LicenseData): CheckState
  {
    st.(keyValid := st.keyValid || Truthy(d.licenseValid),
      expires := d.expires, keyStatus := d.keyStatus, owner := d.owner, licenseName := d.licenseName,
      allowedPlugins := AllowedList(d.allowedPlugins), allowsPlugins := d.allowsPlugins,
      isTrialLicense := TrialAsWritten(d.isTrial))
  }

  /** check_license_key: key_hash is the configured key; the data is fetched, then applied. */
  function CheckModel(st: CheckState, env: Env, force: bool): CheckState
  {
    var (d, cache') := Fetch(st.cacheFile, env, force);
    Apply(st.(keyHash := env.licenseKey, cacheFile := cache'), d)
  }

  // ---------------------------------------------------------------------------
  // Properties
  // ---------------------------------------------------------------------------

  /**
   * Normalised data has no null in the fields the cache file is read for, keeps every value
   * the server did send, and says "1" for licence validity exactly when the server sent true.
   */
  lemma NormaliseFields(r: Reply)
    ensures var d := Normalise(r);
      && d.expires != JNull && d.keyStatus != JNull && d.allowsPlugins != JNull && d.isTrial != JNull
      && (r.expires != JNull ==> d.expires == r.expires)
      && (r.status != JNull ==> d.keyStatus == r.status)
      && (r.allowsPlugins != JNull ==> d.allowsPlugins == r.allowsPlugins)
      && (r.isTrial != JNull ==> d.isTrial == r.isTrial)
      && (r.status == JNull ==> d.keyStatus == JStr("Unknown"))
      && (d.licenseValid == JStr("1") <==> r.licenseValid == JBool(true))
      && (d.licenseValid != JStr("1") ==> d.licenseValid == JStr("0"))
  {
  }

  /**
   * A cache file at most a day old is used without asking the server: the result does not
   * depend on the reply, and the file is kept.
   */
  lemma FreshCacheUsed(cache: CacheRecord, env: Env, buffer: string)
    requires env.cacheAge <= CacheSeconds
    ensures Fetch(Some(cache), env, false) == (FromCache(cache), Some(cache))
    ensures Fetch(Some(cache), env, false) == Fetch(Some(cache), env.(buffer := buffer), false)
  {
  }

  /**
   * A cache file more than a day old is discarded: the server's non-empty reply is normalised
   * and cached, and an empty reply leaves the defaults and no cache file.
   */
  lemma StaleCacheDiscarded(cache: CacheRecord, env: Env, force: bool)
    requires CacheSeconds < env.cacheAge
    ensures env.buffer != "" ==>
      Fetch(Some(cache), env, force) == (Normalise(env.decoded), Some(ToCache(Normalise(env.decoded))))
    ensures env.buffer == "" ==> Fetch(Some(cache), env, force) == (Defaults(), None)
    ensures Fetch(Some(cache), env, force) == Fetch(None, env, force)
  {
  }

  /**
   * After a fresh reply the key is valid exactly when it was already valid or the server sent
   * license_valid as the boolean true; a string "true" or the number 1 does not count.
   */
  lemma KeyValidFromServer(st: CheckState, env: Env, force: bool)
    requires st.cacheFile.None? || force
    requires env.buffer != ""
    ensures CheckModel(st, env, force).keyValid <==> st.keyValid || env.decoded.licenseValid == JBool(true)
  {
  }

  /** An empty reply without a cache file leaves key_valid as it was and every default in place. */
  lemma NoAnswerKeepsDefaults(st: CheckState, env: Env, force: bool)
    requires st.cacheFile.None? && env.buffer == ""
    ensures var st' := CheckModel(st, env, force);
      && st'.keyValid == st.keyValid
      && st'.expires == JStr("Unknown") && st'.keyStatus == JStr("Unknown")
      && st'.allowedPlugins == [] && !st'.isTrialLicense && st'.cacheFile.None?
  {
  }

  /** The data cached for a reply validates the key exactly when the reply itself does. */
  lemma CachedValidityAgrees(r: Reply)
    ensures Truthy(FromCache(ToCache(Normalise(r))).licenseValid) == Truthy(Normalise(r).licenseValid)
  {
  }

  /** A decimal text is empty() exactly when the integer is 0. */
  lemma IntTextEmpty(i: int)
    ensures Empty(IntToStr(i)) <==> i == 0
  {
    IntToStrZero(i);
  }

  /**
   * The intended trial flag is the same whether the normalised data is used directly or read
   * back from the cache file.
   */
  lemma CachedTrialAgrees(r: Reply)
    ensures TrialFlag(FromCache(ToCache(Normalise(r))).isTrial) == TrialFlag(Normalise(r).isTrial)
  {
    var v := Normalise(r).isTrial;
    if v.JInt? {
      IntTextEmpty(v.i);
      if v.i != 0 {
        assert IntToStr(v.i) != "Unknown" by {
          assert IntToStr(v.i)[0] != 'U';
        }
      }
    }
  }

  /**
   * As written, a reply whose is_trial_license is the boolean true is reported as no trial
   * (true == "Unknown" holds loosely), while the same data read back from the cache says trial.
   */
  lemma TrialAsWrittenDisagrees(r: Reply, t: string)
    requires r.isTrial == JBool(true) && t == "Unknown"
    ensures !TrialAsWritten(Normalise(r).isTrial)
    ensures TrialAsWritten(FromCache(ToCache(Normalise(r))).isTrial)
    ensures TrialFlag(Normalise(r).isTrial)
  {
    assert !Empty(t);
    assert LooseEqStr(JBool(true), t);
    assert StrVal(JBool(true)) == "1";
    var one := "1";
    assert !LooseEq(one, t) by {
      NoNumericPrefix(t);
      assert one != t;
      assert StrCmp(one, t) != 0;
    }
  }

  /**
   * A check that asks the server and gets is_trial_license as the boolean true reports no
   * trial; the next check within a day, which reads the cache file it wrote, reports a trial.
   */
  lemma TrialFlipsThroughCache(st: CheckState, env: Env, force: bool, later: Env)
    requires (st.cacheFile.None? || force) && env.buffer != "" && env.decoded.isTrial == JBool(true)
    requires later.cacheAge <= CacheSeconds
    ensures !CheckModel(st, env, force).isTrialLicense
    ensures CheckModel(CheckModel(st, env, force), later, false).isTrialLicense
  {
    TrialAsWrittenDisagrees(env.decoded, "Unknown");
  }

  /**
   * allowed_plugins: no list when the property is missing, otherwise its text cut at every
   * comma, and joining the list with commas gives the text back.
   */
  lemma AllowedListJoins(v: Json)
    ensures v.JNull? ==> AllowedList(v) == []
    ensures v != JNull ==> |AllowedList(v)| >= 1 && Implode(",", AllowedList(v)) == StrVal(v)
    ensures forall k :: 0 <= k < |AllowedList(v)| ==> ',' !in AllowedList(v)[k]
  {
    if v != JNull {
      var parts := AllowedList(v);
      ExplodeJoins(",", StrVal(v));
      forall k | 0 <= k < |parts|
        ensures ',' !in parts[k]
      {
        CharNotFound(parts[k], ',');
      }
    }
  }

  /** A reply without allowed_plugins gives no list when fresh, but the list [""] from the cache. */
  lemma MissingAllowedPluginsFromCache(r: Reply)
    requires r.allowedPlugins == JNull
    ensures AllowedList(Normalise(r).allowedPlugins) == []
    ensures AllowedList(FromCache(ToCache(Normalise(r))).allowedPlugins) == [""]
  {
    FirstCharAbsent("", ",");
  }

  // ---------------------------------------------------------------------------
  // Plugin licences
  // ---------------------------------------------------------------------------

  /** One of the user's plugin licences: its status as decoded and its licence key. */
  datatype PluginLicence = PluginLicence(status: Json, key: string)

  /** `$v == 1`: null is false, a boolean is compared with true, a string is read as a number. */
  predicate IsOne(v: Json)
  {
    match v
    case JNull => false
    case JBool(b) => b
    case JInt(i) => i == 1
    case JStr(s) => LooseEqInt(s, 1)
  }

  /**
   * current_licenses: plugin name to licence key, for the plugin licences of status 1 only
   * (an absent or empty list of plugin licences gives none).
   */
  function CurrentLicences(pl: map<string, PluginLicence>): (r: map<string, string>)
    ensures r.Keys <= pl.Keys
    ensures forall k :: k in r ==> r[k] == pl[k].key
  {
    map k | k in pl && IsOne(pl[k].status) :: pl[k].key
  }

  /** A licence is current exactly when its status is loosely 1. */
  lemma CurrentLicenceStatus(pl: map<string, PluginLicence>, k: string)
    requires k in pl
    ensures k in CurrentLicences(pl) <==> IsOne(pl[k].status)
  {
  }

  /** Statuses 1, "1" and true make a licence current; 0, 2, "0", "", null and "active" do not. */
  lemma LicenceStatusExamples()
    ensures IsOne(JInt(1)) && IsOne(JStr("1")) && IsOne(JBool(true))
    ensures !IsOne(JInt(0)) && !IsOne(JInt(2)) && !IsOne(JStr("0")) && !IsOne(JStr(""))
    ensures !IsOne(JNull) && !IsOne(JStr("active"))
  {
    assert DigitsValue("1") == 1 && DigitsValue("0") == 0;
    DigitsAreNumeric("1");
    DigitsAreNumeric("0");
    assert Shift(1, 0) == 1 && Shift(0, 0) == 0;
    NoNumericPrefix("active");
    assert ParseNumericPrefix("").NoNumber?;
  }

  // ---------------------------------------------------------------------------
  // The object
  // ---------------------------------------------------------------------------

  class SupportKeyCheck {
    var keyHash: string
    var keyValid: bool
    var shopStatus: string
    var expires: Json
    var keyStatus: Json
    var owner: Json
    var licenseName: Json
    var allowedPlugins: seq<string>
    var allowsPlugins: Json
    var isTrialLicense: bool
    /** The cache file license_key_check_cache.php, if it exists. */
    var cacheFile: Option<CacheRecord>

    function State(): CheckState
      reads this
    {
      CheckState(keyHash, keyValid, shopStatus, expires, keyStatus, owner, licenseName,
        allowedPlugins, allowsPlugins, isTrialLicense, cacheFile)
    }

    /** __construct: key_valid is false and the shop closed before the first check. */
    constructor (cache: Option<CacheRecord>, env: Env)
      ensures State() == CheckModel(CheckState("", false, "CLOSED", JNull, JNull, JNull, JNull, [], JNull, false, cache), env, false)
    {
      keyHash, keyValid, shopStatus := "", false, "CLOSED";
      expires, keyStatus, owner, licenseName := JNull, JNull, JNull, JNull;
      allowedPlugins, allowsPlugins, isTrialLicense := [], JNull, false;
      cacheFile := cache;
      new;
      CheckLicenseKey(env, false);
    }

    /** check_license_key($force) */
    method CheckLicenseKey(env: Env, force: bool)
      modifies this
      ensures State() == CheckModel(old(State()), env, force)
    {
      keyHash := env.licenseKey;
      var data := LoadLicenseData(env, force);
      ApplyLicenseData(data);
    }

    /** The first part of check_license_key: the cache file is read or discarded, the server asked. */
    method LoadLicenseData(env: Env, force: bool) returns (data: LicenseData)
      modifies this
      ensures (data, cacheFile) == Fetch(old(cacheFile), env, force)
      ensures State() == old(State()).(cacheFile := cacheFile)
    {
      data := Defaults();
      if cacheFile.Some? {
        if CacheSeconds < env.cacheAge {
          cacheFile := None;
        } else {
          data := FromCache(cacheFile.value);
        }
      }
      if cacheFile.None? || force {
        var buffer := env.buffer;
        if buffer != "" {
          data := Normalise(env.decoded);
          cacheFile := Some(ToCache(data));
        }
      }
    }

    /** The second part of check_license_key: the licence data is copied into the fields. */
    method ApplyLicenseData(data: LicenseData)
      modifies this
      ensures State() == Apply(old(State()), data)
    {
      expires := data.expires;
      keyStatus := data.keyStatus;
      owner := data.owner;
      licenseName := data.licenseName;
      allowedPlugins := AllowedList(data.allowedPlugins);
      if Truthy(data.licenseValid) {
        keyValid := true;
      }
      allowsPlugins := data.allowsPlugins;
      isTrialLicense := TrialAsWritten(data.isTrial);
    }
  }
}
