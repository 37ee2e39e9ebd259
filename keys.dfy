/**
 * The iono licence key file (class iono_keys in jomres_check_support_key.class.php): the
 * server's reply is turned into key data, framed with an MD5 prefix and a SHA-1 suffix,
 * reversed, wrapped at 40 columns and written to a file; reading the file undoes the
 * framing step by step and answers with a status code.
 */
module Keys {
  import opened Wrappers
  import opened Php

  // ---------------------------------------------------------------------------
  // Opaque primitives
  // ---------------------------------------------------------------------------

  /** The data stored in a key file; a field the server did not send is null (None). */
  datatype KeyData = KeyData(licenseKey: Option<string>, expiry: Option<string>, hostname: string, ip: string, timestamp: int)

  /**
   * The library functions the framing relies on, as values: md5 and sha1 hex digests
   * (RFC 1321, RFC 3174), base64 (section 4 of RFC 4648), serialize/unserialize of the key
   * data array, and urldecode.
   */
  datatype Crypto = Crypto(
    md5: string -> string,
    sha1: string -> string,
    base64Encode: string -> string,
    base64Decode: string -> string,
    serialize: KeyData -> string,
    unserialize: string -> Option<KeyData>,
    urlDecode: string -> string)

  /**
   * The properties of the primitives the key file relies on: fixed digest lengths, no
   * newline or space in any digest or base64 text, and decoding undoes encoding.
   */
  ghost predicate Lawful(c: Crypto)
  {
    && (forall s :: |c.md5(s)| == 32 && '\n' !in c.md5(s) && ' ' !in c.md5(s))
    && (forall s :: |c.sha1(s)| == 40 && '\n' !in c.sha1(s) && ' ' !in c.sha1(s))
    && (forall s :: '\n' !in c.base64Encode(s) && ' ' !in c.base64Encode(s))
    && (forall s :: c.base64Decode(c.base64Encode(s)) == s)
    && (forall d :: c.unserialize(c.serialize(d)) == Some(d))
  }

  // ---------------------------------------------------------------------------
  // Wrapping at 40 columns
  // ---------------------------------------------------------------------------

  /** The pieces of s of w characters each, the last one possibly shorter. */
  function Chunks(s: string, w: nat): (parts: seq<string>)
    requires w > 0
    ensures |parts| >= 1
    ensures forall k :: 0 <= k < |parts| - 1 ==> |parts[k]| == w
    ensures |parts[|parts| - 1]| <= w
    decreases |s|
  {
    if |s| <= w then [s] else [s[..w]] + Chunks(s[w..], w)
  }

  /**
   * wordwrap(s, 40, "\n", true) on a string with no space and no newline: the string cut
   * into lines of 40 characters, the last one possibly shorter, with no trailing break.
   */
  function HardWrap(s: string): string
  {
    Implode("\n", Chunks(s, 40))
  }

  /** Every line of the wrapped text holds at most 40 characters, and all but the last exactly 40. */
  lemma HardWrapLines(s: string)
    ensures var lines := Chunks(s, 40);
      HardWrap(s) == Implode("\n", lines)
      && (forall k :: 0 <= k < |lines| - 1 ==> |lines[k]| == 40)
      && |lines[|lines| - 1]| <= 40
  {
  }

  /** Removing the newlines of the wrapped text gives the text back. */
  lemma {:induction false} UnwrapHardWrap(s: string)
    requires '\n' !in s
    ensures StrReplace(HardWrap(s), "\n", "") == s
    decreases |s|
  {
    if |s| <= 40 {
      RemoveCharAbsent(s, '\n');
    } else {
      var head, tail := s[..40], s[40..];
      assert Chunks(s, 40)[1..] == Chunks(tail, 40);
      assert HardWrap(s) == (head + "\n") + HardWrap(tail);
      RemoveCharConcat(head + "\n", HardWrap(tail), '\n');
      RemoveCharConcat(head, "\n", '\n');
      RemoveCharAbsent(head, '\n');
      assert StrReplace("\n", "\n", "") == "" + StrReplace("", "\n", "");
      UnwrapHardWrap(tail);
      assert head + tail == s;
    }
  }

  // ---------------------------------------------------------------------------
  // Framing
  // ---------------------------------------------------------------------------

  /** `$x . ""` for an integer: its decimal text. */
  function TimestampText(data: Option<KeyData>): string
  {
    match data
    case Some(d) => IntToStr(d.timestamp)
    case None => ""
  }

  /** The timestamp as a number; a key that did not unserialize has none, which counts as 0. */
  function TimestampValue(data: Option<KeyData>): int
  {
    match data
    case Some(d) => d.timestamp
    case None => 0
  }

  /** K = strrev(md5(now . auth) . base64(serialize(data))): the key string before its hash. */
  function KeyString(c: Crypto, auth: string, now: int, data: KeyData): string
  {
    Reverse(c.md5(IntToStr(now) + auth) + c.base64Encode(c.serialize(data)))
  }

  /** The file content generate_key writes: K followed by sha1(K . auth), wrapped at 40. */
  function Frame(c: Crypto, auth: string, now: int, data: KeyData): string
  {
    var k := KeyString(c, auth, now, data);
    HardWrap(k + c.sha1(k + auth))
  }

  /** The pieces read_key cuts a file into. */
  datatype Pieces = Pieces(keyString: string, shaHash: string, keyHash: string, payload: string)

  /** read_key's cutting: newlines removed, the last 40 characters are the SHA-1 part, the
   * rest reversed is the 32-character MD5 part followed by the base64 payload. */
  function Cut(content: string): Pieces
  {
    CutKey(StrReplace(content, "\n", ""))
  }

  /** The cutting after the newlines are gone. */
  function CutKey(key: string): Pieces
  {
    var n := |key|;
    var keyString := Substr(key, 0, Some(n - 40));
    var rev := Reverse(keyString);
    Pieces(keyString, Substr(key, n - 40, Some(n)), Substr(rev, 0, Some(32)), Substr(rev, 32, None))
  }

  /** K holds no newline: it is a reversed MD5 digest followed by base64 text. */
  lemma KeyStringHasNoNewline(c: Crypto, auth: string, now: int, data: KeyData)
    requires Lawful(c)
    ensures var k := KeyString(c, auth, now, data);
      '\n' !in k && |k| >= 32 && Reverse(k) == c.md5(IntToStr(now) + auth) + c.base64Encode(c.serialize(data))
  {
    var prefix, body := c.md5(IntToStr(now) + auth), c.base64Encode(c.serialize(data));
    assert '\n' !in prefix + body;
    ReverseKeepsAbsent(prefix + body, '\n');
    ReverseReverse(prefix + body);
  }

  /** Reversing a string adds no character. */
  lemma ReverseKeepsAbsent(t: string, ch: char)
    requires ch !in t
    ensures ch !in Reverse(t)
  {
    var r := Reverse(t);
    forall i | 0 <= i < |r|
      ensures r[i] != ch
    {
      assert r[i] == t[|t| - 1 - i];
    }
  }

  /** Cutting k followed by a 40-character hash h gives back k and h. */
  lemma CutKeySplits(k: string, h: string)
    requires |h| == 40
    ensures var p := CutKey(k + h);
      p.keyString == k && p.shaHash == h
      && p.keyHash == Substr(Reverse(k), 0, Some(32)) && p.payload == Substr(Reverse(k), 32, None)
  {
    var key := k + h;
    assert key[..|k|] == k && key[|k|..] == h;
  }

  /** Cutting the wrapped text of k followed by a 40-character hash h gives back k and h. */
  lemma CutWrapped(k: string, h: string)
    requires '\n' !in k && '\n' !in h && |h| == 40
    ensures Cut(HardWrap(k + h)) == CutKey(k + h)
  {
    assert '\n' !in k + h;
    UnwrapHardWrap(k + h);
  }

  /** Cutting a 32-character prefix off a concatenation. */
  lemma SubstrAtPrefix(a: string, b: string)
    requires |a| == 32
    ensures Substr(a + b, 0, Some(32)) == a && Substr(a + b, 32, None) == b
  {
    assert (a + b)[..32] == a && (a + b)[32..] == b;
  }

  /**
   * The framing round trip: cutting what generate_key writes gives back K, its SHA-1 hash,
   * the MD5 prefix and the base64 payload exactly, and the payload decodes to the data.
   */
  lemma FrameRoundTrip(c: Crypto, auth: string, now: int, data: KeyData)
    requires Lawful(c)
    ensures var k := KeyString(c, auth, now, data);
      Cut(Frame(c, auth, now, data))
      == Pieces(k, c.sha1(k + auth), c.md5(IntToStr(now) + auth), c.base64Encode(c.serialize(data)))
    ensures Decoded(c, Cut(Frame(c, auth, now, data))) == Some(data)
  {
    var prefix, body := c.md5(IntToStr(now) + auth), c.base64Encode(c.serialize(data));
    var k := KeyString(c, auth, now, data);
    var h := c.sha1(k + auth);
    KeyStringHasNoNewline(c, auth, now, data);
    CutWrapped(k, h);
    CutKeySplits(k, h);
    SubstrAtPrefix(prefix, body);
  }

  // ---------------------------------------------------------------------------
  // The status ladder of read_key
  // ---------------------------------------------------------------------------

  /** What the generation and the reading of a key file depend on. */
  datatype WriteOutcome = OpenFails | WriteFails | Written

  /** The licence server's reply and the host as PHP sees them. */
  datatype Server = Server(content: string, serverName: string, serverAddr: string, write: WriteOutcome)

  /** The object's fixed settings: primitives, server, licence key, auth string, clock, key age. */
  datatype Ctx = Ctx(c: Crypto, srv: Server, licenseKey: string, auth: string, now: int, keyAge: int)

  /** `$key_data["license_key"] != $this->license_key`, with null for a key that did not unserialize. */
  predicate LicenseMismatch(x: Ctx, data: Option<KeyData>)
  {
    var stored := match data case Some(d) => d.licenseKey case None => None;
    Cmp(stored, Some(x.licenseKey)) != 0
  }

  /**
   * `$expiry <= $now && $expiry != 1`: a string expiry is read as a number; null is below
   * every integer when compared as a boolean and differs from 1.
   */
  predicate Expired(expiry: Option<string>, now: int)
  {
    match expiry
    case None => true
    case Some(e) => NumCmp(NumValue(e), Num(now, 0)) <= 0 && !LooseEqInt(e, 1)
  }

  /** The checks after the key is known to be fresh: 4, 5 or 1. */
  function Status(x: Ctx, data: Option<KeyData>): int
  {
    if LicenseMismatch(x, data) then 4
    else if Expired(match data case Some(d) => d.expiry case None => None, x.now) then 5
    else 1
  }

  /** The outcome of reading one file's content. */
  datatype Verdict = Reject(code: int) | Refresh | Accept(code: int, data: Option<KeyData>)

  /** The decoded data of a file. */
  function Decoded(c: Crypto, p: Pieces): Option<KeyData>
  {
    c.unserialize(c.base64Decode(p.payload))
  }

  /** The SHA-1 check of line 193. */
  predicate ShaOk(x: Ctx, p: Pieces)
  {
    LooseEq(x.c.sha1(p.keyString + x.auth), p.shaHash)
  }

  /** The MD5 check of line 199. */
  predicate Md5Ok(x: Ctx, p: Pieces)
  {
    LooseEq(x.c.md5(TimestampText(Decoded(x.c, p)) + x.auth), p.keyHash)
  }

  /** read_key on the content of an existing file, before any regeneration. */
  function Ladder(x: Ctx, content: string): Verdict
  {
    var p := Cut(content);
    if !ShaOk(x, p) then Reject(2)
    else if !Md5Ok(x, p) then Reject(3)
    else
      var data := Decoded(x.c, p);
      if x.keyAge <= x.now - TimestampValue(data) then Refresh
      else Accept(Status(x, data), data)
  }

  /**
   * A file written at time ts with the same auth string and left untouched passes both hash
   * checks; it is regenerated when it is key_age or more seconds old, and otherwise accepted
   * with the data that was written.
   */
  lemma UntouchedFilePasses(x: Ctx, ts: int, data: KeyData)
    requires Lawful(x.c) && data.timestamp == ts
    ensures var p := Cut(Frame(x.c, x.auth, ts, data));
      && ShaOk(x, p) && Md5Ok(x, p)
      && Ladder(x, Frame(x.c, x.auth, ts, data))
         == if x.keyAge <= x.now - ts then Refresh else Accept(Status(x, Some(data)), Some(data))
  {
    FrameRoundTrip(x.c, x.auth, ts, data);
    var k := KeyString(x.c, x.auth, ts, data);
    LooseEqReflexive(x.c.sha1(k + x.auth));
    LooseEqReflexive(x.c.md5(IntToStr(ts) + x.auth));
  }

  /** A file written just now is accepted with its data (key_age > 0). */
  lemma FreshFrameAccepted(x: Ctx, d: KeyData)
    requires Lawful(x.c) && x.keyAge > 0 && d.timestamp == x.now
    ensures Ladder(x, Frame(x.c, x.auth, x.now, d)) == Accept(Status(x, Some(d)), Some(d))
  {
    UntouchedFilePasses(x, x.now, d);
  }

  /** The ladder only answers with the codes read_key documents. */
  lemma LadderCodes(x: Ctx, content: string)
    ensures match Ladder(x, content)
      case Reject(k) => k == 2 || k == 3
      case Accept(k, _) => k == 1 || k == 4 || k == 5
      case Refresh => true
  {
  }

  /** An expiry of "1" never expires; any other numeric expiry expires once it is not after now. */
  lemma ExpiryOne(e: string, now: int)
    requires IsNumeric(e)
    ensures LooseEqInt(e, 1) ==> !Expired(Some(e), now)
    ensures !LooseEqInt(e, 1) ==> (Expired(Some(e), now) <==> NumCmp(NumValue(e), Num(now, 0)) <= 0)
  {
  }

  /** The expiry "1" itself, whatever the clock says. */
  lemma ExpiryOneLiteral(now: int)
    ensures !Expired(Some("1"), now)
  {
    DigitsAreNumeric("1");
    assert DigitsValue("1") == 1;
  }

  // ---------------------------------------------------------------------------
  // generate_key
  // ---------------------------------------------------------------------------

  /** The server's answer: a refusal code, or the data to write. */
  datatype Response = Refused(code: int) | Issued(data: KeyData)

  /** The i-th field of a list() assignment: null when the reply is too short. */
  function Field(parts: seq<string>, i: nat): Option<string>
  {
    if i < |parts| then Some(parts[i]) else None
  }

  /** `empty()` on a field that may be null. */
  predicate EmptyField(f: Option<string>)
  {
    f.None? || Empty(f.value)
  }

  /**
   * generate_key's handling of the reply: a falsy reply is 12; otherwise the first field of
   * the url-decoded reply is compared loosely with 0, 2, 3 and 10 in that order (8, 9, 5, 4);
   * otherwise fields 1 to 4 are the licence key, expiry, host name and address, the empty
   * ones of the last two replaced by the server's own, stamped with now.
   */
  function Respond(x: Ctx): Response
  {
    if Empty(x.srv.content) then Refused(12)
    else
      var parts := Explode("|", x.c.urlDecode(x.srv.content));
      var head := parts[0];
      if LooseEqInt(head, 0) then Refused(8)
      else if LooseEqInt(head, 2) then Refused(9)
      else if LooseEqInt(head, 3) then Refused(5)
      else if LooseEqInt(head, 10) then Refused(4)
      else
        var host := Field(parts, 3);
        var ip := Field(parts, 4);
        Issued(KeyData(
          Field(parts, 1), Field(parts, 2),
          if EmptyField(host) then x.srv.serverName else host.value,
          if EmptyField(ip) then x.srv.serverAddr else ip.value,
          x.now))
  }

  /** What generate_key answers (null for success) and what the key file then holds. */
  function Generate(x: Ctx, file: Option<string>): (Option<int>, Option<string>)
  {
    match Respond(x)
    case Refused(code) => (Some(code), file)
    case Issued(d) =>
      match x.srv.write
      case OpenFails => (Some(10), file)
      case WriteFails => (Some(11), Some(""))
      case Written => (None, Some(Frame(x.c, x.auth, x.now, d)))
  }

  /**
   * The issued data: stamped with now, fields 1 and 2 of the reply, and a host name and
   * address that are the reply's when not empty and the server's otherwise.
   */
  lemma IssuedData(x: Ctx)
    requires Respond(x).Issued?
    ensures var d := Respond(x).data;
      var parts := Explode("|", x.c.urlDecode(x.srv.content));
      && !Empty(x.srv.content)
      && d.timestamp == x.now
      && d.licenseKey == Field(parts, 1) && d.expiry == Field(parts, 2)
      && (EmptyField(Field(parts, 3)) ==> d.hostname == x.srv.serverName)
      && (!EmptyField(Field(parts, 3)) ==> d.hostname == parts[3])
      && (EmptyField(Field(parts, 4)) ==> d.ip == x.srv.serverAddr)
      && (!EmptyField(Field(parts, 4)) ==> d.ip == parts[4])
  {
  }

  /**
   * The refusals: a reply that is "" or "0" gives 12; one whose first field loosely equals
   * 0, 2, 3 or 10 gives 8, 9, 5 or 4. In particular a first field that does not start with a
   * number counts as 0, a disabled licence.
   */
  lemma RefusalCodes(x: Ctx)
    ensures Empty(x.srv.content) <==> Respond(x) == Refused(12)
    ensures !Empty(x.srv.content) ==>
      var head := Explode("|", x.c.urlDecode(x.srv.content))[0];
      (ParseNumericPrefix(head).NoNumber? ==> Respond(x) == Refused(8))
  {
  }

  /** generate_key answers null exactly when the key is issued and the file is written. */
  lemma GenerateWrites(x: Ctx, file: Option<string>)
    ensures Generate(x, file).0.None? <==> Respond(x).Issued? && x.srv.write == Written
    ensures Generate(x, file).0.Some? ==> Generate(x, file).0.value in {4, 5, 8, 9, 10, 11, 12}
  {
  }

  /** When generate_key answers null, the file holds the framed data it was issued. */
  lemma GenerateWritten(x: Ctx, file: Option<string>)
    requires Generate(x, file).0.None?
    ensures Respond(x).Issued? && x.srv.write == Written
    ensures Generate(x, file).1 == Some(Frame(x.c, x.auth, x.now, Respond(x).data))
  {
  }

  /** Issued data is stamped with the current time. */
  lemma IssuedNow(x: Ctx)
    requires Respond(x).Issued?
    ensures Respond(x).data.timestamp == x.now
  {
  }

  // ---------------------------------------------------------------------------
  // read_key with its regeneration
  // ---------------------------------------------------------------------------

  /** What has been stored in key_data: nothing yet, false (no data decoded), or the data. */
  datatype Slot = Unset | Undecodable | Loaded(data: KeyData)

  /** The mutable part of an iono_keys object, with the key file's content (None: no file). */
  datatype KeyState = KeyState(file: Option<string>, result: Option<int>, keyData: Slot)

  /** 1 when reading the file would regenerate it, else 0: read_key recurses at most once. */
  function StaleRank(x: Ctx, file: Option<string>): nat
  {
    if file.Some? && Ladder(x, file.value).Refresh? then 1 else 0
  }

  /** A key generated just now is never stale (key_age > 0). */
  lemma GeneratedIsFresh(x: Ctx)
    requires Lawful(x.c) && x.keyAge > 0
    requires Generate(x, None).0.None?
    ensures StaleRank(x, Generate(x, None).1) == 0
  {
    GenerateWritten(x, None);
    IssuedNow(x);
    FreshFrameAccepted(x, Respond(x).data);
  }

  /**
   * read_key: 0 without a file; 2 or 3 on a hash mismatch; a stale key is deleted, generated
   * again (and read again when generation succeeded) and the answer is 1; otherwise key_data
   * is stored and the answer is 4, 5 or 1.
   */
  function ReadKeyModel(x: Ctx, s: KeyState): (int, KeyState)
    requires Lawful(x.c) && x.keyAge > 0
    decreases StaleRank(x, s.file), 1
  {
    match s.file
    case None => (0, s)
    case Some(content) =>
      match Ladder(x, content)
      case Reject(k) => (k, s)
      case Accept(k, data) => (k, s.(keyData := if data.Some? then Loaded(data.value) else Undecodable))
      case Refresh => Regenerate(x, s)
  }

  /**
   * read_key on a stale key: the file is deleted and generated again; when generation answers
   * null the new file is read and its answer is left in result. The answer is 1.
   */
  function Regenerate(x: Ctx, s: KeyState): (int, KeyState)
    requires Lawful(x.c) && x.keyAge > 0
    decreases 1, 0
  {
    var (g, file') := Generate(x, None);
    var s1 := s.(file := file', result := g);
    if g.None? then
      GeneratedIsFresh(x);
      var (k2, s2) := ReadKeyModel(x, s1);
      (1, s2.(result := Some(k2)))
    else (1, s1)
  }

  /** The answer of read_key is the ladder's code, or 1 for a stale key. */
  lemma ReadKeyCode(x: Ctx, s: KeyState)
    requires Lawful(x.c) && x.keyAge > 0
    ensures ReadKeyModel(x, s).0 ==
      match s.file
      case None => 0
      case Some(content) =>
        match Ladder(x, content)
        case Reject(k) => k
        case Accept(k, _) => k
        case Refresh => 1
  {
  }

  /**
   * The order of the checks: with no file the answer is 0; otherwise the first failing check
   * decides (SHA-1 2, MD5 3), a stale key answers 1, and a fresh one answers 4, 5 or 1.
   */
  lemma ReadKeyAnswers(x: Ctx, s: KeyState)
    requires Lawful(x.c) && x.keyAge > 0
    ensures var (k, _) := ReadKeyModel(x, s);
      && (s.file.None? <==> k == 0)
      && (s.file.Some? ==>
           var p := Cut(s.file.value);
           && (!ShaOk(x, p) <==> k == 2)
           && (ShaOk(x, p) && !Md5Ok(x, p) <==> k == 3)
           && (ShaOk(x, p) && Md5Ok(x, p) ==>
                 k == if x.keyAge <= x.now - TimestampValue(Decoded(x.c, p)) then 1 else Status(x, Decoded(x.c, p))))
  {
    ReadKeyCode(x, s);
    if s.file.Some? {
      LadderCodes(x, s.file.value);
    }
  }

  /** read_key's answers are 0 to 5. */
  lemma ReadKeyCodes(x: Ctx, s: KeyState)
    requires Lawful(x.c) && x.keyAge > 0
    ensures 0 <= ReadKeyModel(x, s).0 <= 5
  {
    ReadKeyCode(x, s);
    if s.file.Some? {
      LadderCodes(x, s.file.value);
    }
  }

  /** Reading a file generated just now stores its data and answers with its status. */
  lemma ReadGenerated(x: Ctx, s: KeyState, d: KeyData)
    requires Lawful(x.c) && x.keyAge > 0 && d.timestamp == x.now
    requires s.file == Some(Frame(x.c, x.auth, x.now, d))
    ensures ReadKeyModel(x, s) == (Status(x, Some(d)), s.(keyData := Loaded(d)))
  {
    FreshFrameAccepted(x, d);
  }

  /**
   * A stale key answers 1 whatever the regeneration gives; the regeneration's own answer,
   * or the answer of reading the new file, is what is left in result, and the new file's
   * data is stored.
   */
  lemma RegenerateAnswersOne(x: Ctx, s: KeyState)
    requires Lawful(x.c) && x.keyAge > 0
    ensures var (k, s') := Regenerate(x, s);
      var (g, file') := Generate(x, None);
      && k == 1
      && s'.file == file'
      && (g.Some? ==> s'.result == g && s'.keyData == s.keyData)
      && (g.None? ==> s'.result == Some(Status(x, Some(Respond(x).data))) && s'.keyData == Loaded(Respond(x).data))
  {
    var (g, file') := Generate(x, None);
    if g.None? {
      GenerateWritten(x, None);
      IssuedNow(x);
      ReadGenerated(x, s.(file := file', result := g), Respond(x).data);
    }
  }

  /**
   * The constructor's result: 14 without a licence key, a key file or two core-plugin
   * directories; then 4 without an auth string; then the answer of reading the existing file,
   * or of generating one (read back when generation answered null).
   */
  function ConstructModel(x: Ctx, file: Option<string>, pluginDirs: nat): KeyState
    requires Lawful(x.c) && x.keyAge > 0
  {
    var s0 := KeyState(file, None, Unset);
    if Empty(x.licenseKey) && file.None? && pluginDirs < 2 then s0.(result := Some(14))
    else if Empty(x.auth) then s0.(result := Some(4))
    else if file.Some? then
      var (k, s1) := ReadKeyModel(x, s0);
      s1.(result := Some(k))
    else
      var (g, file') := Generate(x, file);
      var s1 := s0.(file := file', result := g);
      if g.None? then
        var (k, s2) := ReadKeyModel(x, s1);
        s2.(result := Some(k))
      else s1
  }

  /**
   * A first installation (no key file) whose key is issued and written ends with the status
   * of the issued data (licence and expiry checks), and that data is stored.
   */
  lemma FirstInstallReadsIssuedKey(x: Ctx, pluginDirs: nat)
    requires Lawful(x.c) && x.keyAge > 0
    requires !Empty(x.licenseKey) && !Empty(x.auth)
    requires Respond(x).Issued? && x.srv.write == Written
    ensures var s := ConstructModel(x, None, pluginDirs);
      && s.result == Some(Status(x, Some(Respond(x).data)))
      && s.keyData == Loaded(Respond(x).data)
      && s.file == Some(Frame(x.c, x.auth, x.now, Respond(x).data))
  {
    GenerateWrites(x, None);
    GenerateWritten(x, None);
    IssuedNow(x);
    var (g, file') := Generate(x, None);
    ReadGenerated(x, KeyState(file', g, Unset), Respond(x).data);
  }

  /** The constructor's result is always one of the documented codes. */
  lemma ConstructCodes(x: Ctx, file: Option<string>, pluginDirs: nat)
    requires Lawful(x.c) && x.keyAge > 0
    ensures var r := ConstructModel(x, file, pluginDirs).result;
      r.Some? && r.value in {0, 1, 2, 3, 4, 5, 8, 9, 10, 11, 12, 14}
  {
    var s0 := KeyState(file, None, Unset);
    if file.Some? {
      ReadKeyCodes(x, s0);
    } else {
      GenerateWrites(x, file);
      var (g, file') := Generate(x, file);
      if g.None? {
        ReadKeyCodes(x, s0.(file := file', result := g));
      }
    }
  }

  // ---------------------------------------------------------------------------
  // The object
  // ---------------------------------------------------------------------------

  class IonoKeys {
    const crypto: Crypto
    const server: Server
    const licenseKey: string
    const remoteAuth: string
    const keyAge: int
    const now: int
    var keyFile: Option<string>
    var result: Option<int>
    var keyData: Slot

    function Settings(): Ctx
    {
      Ctx(crypto, server, licenseKey, remoteAuth, now, keyAge)
    }

    function State(): KeyState
      reads this
    {
      KeyState(keyFile, result, keyData)
    }

    /**
     * __construct: the key file, the clock and the number of core-plugin directories are
     * given; the default key age is 86400 seconds.
     */
    constructor (c: Crypto, srv: Server, license: string, auth: string, file: Option<string>, age: int, time: int, pluginDirs: nat)
      requires Lawful(c) && age > 0
      ensures Settings() == Ctx(c, srv, license, auth, time, age)
      ensures State() == ConstructModel(Settings(), file, pluginDirs)
    {
      crypto, server, licenseKey, remoteAuth, keyAge, now := c, srv, license, auth, age, time;
      keyFile, result, keyData := file, None, Unset;
      new;
      if Empty(license) && file.None? && pluginDirs < 2 {
        result := Some(14);
      } else if Empty(auth) {
        result := Some(4);
      } else if file.Some? {
        var k := ReadKey();
        result := Some(k);
      } else {
        var g := GenerateKey();
        result := g;
        if g.None? {
          var k := ReadKey();
          result := Some(k);
        }
      }
    }

    /** generate_key: the answer (None for PHP's null) and the new content of the key file. */
    method GenerateKey() returns (code: Option<int>)
      modifies this
      ensures (code, keyFile) == Generate(Settings(), old(keyFile))
      ensures result == old(result) && keyData == old(keyData)
    {
      var x := Settings();
      var response := Respond(x);
      if response.Refused? {
        return Some(response.code);
      }
      match server.write
      case OpenFails =>
        code := Some(10);
      case WriteFails =>
        keyFile := Some("");
        code := Some(11);
      case Written =>
        keyFile := Some(Frame(crypto, remoteAuth, now, response.data));
        code := None;
    }

    /** read_key */
    method ReadKey() returns (code: int)
      requires Lawful(crypto) && keyAge > 0
      modifies this
      ensures (code, State()) == ReadKeyModel(Settings(), old(State()))
      decreases StaleRank(Settings(), keyFile), 1
    {
      if keyFile.None? {
        return 0;
      }
      var x := Settings();
      match Ladder(x, keyFile.value)
      case Reject(k) =>
        code := k;
      case Accept(k, data) =>
        keyData := if data.Some? then Loaded(data.value) else Undecodable;
        code := k;
      case Refresh =>
        code := RegenerateKey();
    }

    /** The stale-key branch of read_key: unlink, generate_key, and read_key again on success. */
    method RegenerateKey() returns (code: int)
      requires Lawful(crypto) && keyAge > 0
      modifies this
      ensures (code, State()) == Regenerate(Settings(), old(State()))
      decreases 1, 0
    {
      var x := Settings();
      keyFile := None;
      var g := GenerateKey();
      result := g;
      if g.None? {
        GeneratedIsFresh(x);
        var k2 := ReadKey();
        result := Some(k2);
      }
      code := 1;
    }
  }
}
