/**
 * PrefStore: the application's settings, kept in the platform's shared
 * preferences, seen as an in-memory map from key to typed value. Every
 * getter supplies its per-key default when the key is absent; storing a
 * null string removes the key, as SharedPreferences.Editor.putString does.
 */
module Prefs {
  import opened Wrappers
  import opened JavaText

  // Keys.
  const PREF_MAX_SYNCED_DATE := "max_synced_date"
  const PREF_LOGIN_USER := "login_user"
  const PREF_LOGIN_PASSWORD := "login_password"
  const PREF_REFERENCE_UID := "reference_uid"
  const PREF_SERVER_ADDRESS := "server_address"
  const PREF_SERVER_PROTOCOL := "server_protocol"
  const PREF_SERVER_AUTHENTICATION := "server_authentication"
  const PREF_OAUTH_TOKEN := "oauth_token"
  const PREF_OAUTH_TOKEN_SECRET := "oauth_token_secret"
  const PREF_IMAP_FOLDER := "imap_folder"
  const PREF_ENABLE_AUTO_SYNC := "enable_auto_sync"
  const PREF_INCOMING_TIMEOUT_SECONDS := "incoming_timeout_seconds"
  const PREF_REGULAR_TIMEOUT_SECONDS := "regular_timeout_seconds"
  const PREF_LAST_SYNC := "last_sync"
  const PREF_MAX_ITEMS_PER_SYNC := "max_items_per_sync"
  const PREF_MAX_ITEMS_PER_RESTORE := "max_items_per_restore"
  const PREF_MARK_AS_READ := "mark_as_read"
  const PREF_MARK_AS_READ_ON_RESTORE := "mark_as_read_on_restore"
  const PREF_PREFILLED := "prefilled"
  const PREF_CONNECTED := "connected"
  const PREF_WIFI_ONLY := "wifi_only"
  const PREF_FIRST_USE := "first_use"
  const PREF_UPGRADE_MESSAGE_SEEN := "upgrade_message_seen"

  // Defaults.
  const DEFAULT_MAX_SYNCED_DATE: int := -1
  const DEFAULT_IMAP_FOLDER := "SMS"
  const DEFAULT_ENABLE_AUTO_SYNC := false
  const DEFAULT_INCOMING_TIMEOUT_SECONDS: int := 60 * 3
  const DEFAULT_REGULAR_TIMEOUT_SECONDS: int := 2 * 60 * 60
  const DEFAULT_LAST_SYNC: int := -1
  const DEFAULT_MAX_ITEMS_PER_SYNC := "-1"
  const DEFAULT_MAX_ITEMS_PER_RESTORE := "-1"
  const DEFAULT_MARK_AS_READ := true
  const DEFAULT_MARK_AS_READ_ON_RESTORE := true
  const DEFAULT_SERVER_ADDRESS := "imap.gmail.com:993"
  const DEFAULT_SERVER_PROTOCOL := "ssl"

  /** The keys clearSyncData removes: credentials and sync progress. */
  const SYNC_DATA_KEYS: set<string> :=
    {PREF_LOGIN_USER, PREF_LOGIN_PASSWORD, PREF_OAUTH_TOKEN, PREF_OAUTH_TOKEN_SECRET,
     PREF_MAX_SYNCED_DATE, PREF_LAST_SYNC}

  datatype AuthMode = Plain | XOAuth

  /** A stored preference value, tagged with the accessor family that wrote it. */
  datatype PrefValue = StrVal(s: string) | IntVal(i: int) | LongVal(l: int) | BoolVal(b: bool)

  /** Which accessor family the application uses for a key; Other for keys it never reads. */
  datatype Kind = StringKind | IntKind | LongKind | BoolKind | Other

  function KindOf(key: string): Kind {
    if key in {PREF_LOGIN_USER, PREF_LOGIN_PASSWORD, PREF_REFERENCE_UID, PREF_SERVER_ADDRESS,
               PREF_SERVER_PROTOCOL, PREF_SERVER_AUTHENTICATION, PREF_OAUTH_TOKEN,
               PREF_OAUTH_TOKEN_SECRET, PREF_IMAP_FOLDER, PREF_MAX_ITEMS_PER_SYNC,
               PREF_MAX_ITEMS_PER_RESTORE}
    then StringKind
    else if key in {PREF_MAX_SYNCED_DATE, PREF_LAST_SYNC} then LongKind
    else if key in {PREF_INCOMING_TIMEOUT_SECONDS, PREF_REGULAR_TIMEOUT_SECONDS} then IntKind
    else if key in {PREF_ENABLE_AUTO_SYNC, PREF_MARK_AS_READ, PREF_MARK_AS_READ_ON_RESTORE,
                    PREF_PREFILLED, PREF_CONNECTED, PREF_WIFI_ONLY, PREF_FIRST_USE,
                    PREF_UPGRADE_MESSAGE_SEEN}
    then BoolKind
    else Other
  }

  /** A value of the right family, and for ints and longs inside the Java range. */
  predicate Fits(v: PrefValue, k: Kind) {
    match k
    case StringKind => v.StrVal?
    case IntKind => v.IntVal? && INT_MIN <= v.i <= INT_MAX
    case LongKind => v.LongVal? && LONG_MIN <= v.l <= LONG_MAX
    case BoolKind => v.BoolVal?
    case Other => true
  }

  /** A stored authentication mode that AuthMode.valueOf accepts once upper-cased. */
  predicate KnownAuthMode(s: string) {
    ToUpperAscii(s) == "PLAIN" || ToUpperAscii(s) == "XOAUTH"
  }

  /**
   * The store as the application leaves it: every key holds a value of the
   * family its accessors use (so no getter throws ClassCastException), and a
   * stored authentication mode names an AuthMode.
   */
  predicate WellTyped(values: map<string, PrefValue>) {
    && (forall k :: k in values ==> Fits(values[k], KindOf(k)))
    && (PREF_SERVER_AUTHENTICATION in values ==>
          var v := values[PREF_SERVER_AUTHENTICATION];
          v.StrVal? && KnownAuthMode(v.s))
  }

  /** isValidImapFolder's accepted characters: ASCII letters, '.' and '/'. */
  predicate IsFolderChar(c: char) {
    ('a' <= c <= 'z') || ('A' <= c <= 'Z') || c == '.' || c == '/'
  }

  /**
   * isValidImapFolder: scan the name and reject it at the first character
   * that is not an ASCII letter, '.' or '/'. The empty name is valid.
   */
  method IsValidImapFolder(imapFolder: string) returns (valid: bool)
    ensures valid <==> forall i :: 0 <= i < |imapFolder| ==> IsFolderChar(imapFolder[i])
  {
    var i := 0;
    while i < |imapFolder|
      invariant 0 <= i <= |imapFolder|
      invariant forall j :: 0 <= j < i ==> IsFolderChar(imapFolder[j])
    {
      var currChar := imapFolder[i];
      if !(('a' <= currChar <= 'z') || ('A' <= currChar <= 'Z') || currChar == '.' || currChar == '/') {
        return false;
      }
      i := i + 1;
    }
    return true;
  }

  /** The shared preferences of the application. */
  class PrefStore {
    var values: map<string, PrefValue>

    ghost predicate Valid()
      reads this
    {
      WellTyped(values)
    }

    /** A store holding the given well-typed contents. */
    constructor (initial: map<string, PrefValue>)
      requires WellTyped(initial)
      ensures values == initial
      ensures Valid()
    {
      values := initial;
    }

    // ------------------------------------------------ SharedPreferences

    /** getString(key, def). */
    function GetString(key: string, def: Option<string>): (r: Option<string>)
      reads this
      requires Valid() && KindOf(key) == StringKind
      ensures key in values ==> r == Some(values[key].s)
      ensures key !in values ==> r == def
    {
      if key in values then Some(values[key].s) else def
    }

    /** getLong(key, def). */
    function GetLong(key: string, def: int): (r: int)
      reads this
      requires Valid() && KindOf(key) == LongKind
      ensures key in values ==> r == values[key].l && LONG_MIN <= r <= LONG_MAX
      ensures key !in values ==> r == def
    {
      if key in values then values[key].l else def
    }

    /** getInt(key, def). */
    function GetInt(key: string, def: int): (r: int)
      reads this
      requires Valid() && KindOf(key) == IntKind
      ensures key in values ==> r == values[key].i && INT_MIN <= r <= INT_MAX
      ensures key !in values ==> r == def
    {
      if key in values then values[key].i else def
    }

    /** getBoolean(key, def). */
    function GetBool(key: string, def: bool): (r: bool)
      reads this
      requires Valid() && KindOf(key) == BoolKind
      ensures key in values ==> r == values[key].b
      ensures key !in values ==> r == def
    {
      if key in values then values[key].b else def
    }

    /** edit().putString(key, s).commit(): a null string removes the key. */
    method PutString(key: string, s: Option<string>)
      modifies this
      requires Valid() && KindOf(key) == StringKind && key != PREF_SERVER_AUTHENTICATION
      ensures Valid()
      ensures values == if s.Some? then old(values)[key := StrVal(s.value)] else old(values) - {key}
      ensures GetString(key, None) == s
    {
      if s.Some? {
        values := values[key := StrVal(s.value)];
      } else {
        values := values - {key};
      }
    }

    /** edit().putLong(key, v).commit(). */
    method PutLong(key: string, v: int)
      modifies this
      requires Valid() && KindOf(key) == LongKind && LONG_MIN <= v <= LONG_MAX
      ensures Valid()
      ensures values == old(values)[key := LongVal(v)]
      ensures GetLong(key, DEFAULT_MAX_SYNCED_DATE) == v
    {
      values := values[key := LongVal(v)];
    }

    /** edit().putBoolean(key, b).commit(). */
    method PutBool(key: string, b: bool)
      modifies this
      requires Valid() && KindOf(key) == BoolKind
      ensures Valid()
      ensures values == old(values)[key := BoolVal(b)]
      ensures GetBool(key, !b) == b
    {
      values := values[key := BoolVal(b)];
    }

    // ------------------------------------------------------- sync state

    /** getMaxSyncedDate: the stored watermark, -1 when none was stored. */
    function GetMaxSyncedDate(): (r: int)
      reads this
      requires Valid()
      ensures PREF_MAX_SYNCED_DATE !in values ==> r == DEFAULT_MAX_SYNCED_DATE
      ensures PREF_MAX_SYNCED_DATE in values ==> r == values[PREF_MAX_SYNCED_DATE].l
      ensures LONG_MIN <= r <= LONG_MAX
    {
      GetLong(PREF_MAX_SYNCED_DATE, DEFAULT_MAX_SYNCED_DATE)
    }

    predicate IsMaxSyncedDateSet()
      reads this
    {
      PREF_MAX_SYNCED_DATE in values
    }

    /** setMaxSyncedDate: store the watermark; it reads back and nothing else changes. */
    method SetMaxSyncedDate(maxSyncedDate: int)
      modifies this
      requires Valid() && LONG_MIN <= maxSyncedDate <= LONG_MAX
      ensures Valid()
      ensures values == old(values)[PREF_MAX_SYNCED_DATE := LongVal(maxSyncedDate)]
      ensures GetMaxSyncedDate() == maxSyncedDate && IsMaxSyncedDateSet()
    {
      PutLong(PREF_MAX_SYNCED_DATE, maxSyncedDate);
    }

    /** getLastSync: -1 when no sync time was stored. */
    function GetLastSync(): (r: int)
      reads this
      requires Valid()
      ensures PREF_LAST_SYNC !in values ==> r == DEFAULT_LAST_SYNC
      ensures PREF_LAST_SYNC in values ==> r == values[PREF_LAST_SYNC].l
    {
      GetLong(PREF_LAST_SYNC, DEFAULT_LAST_SYNC)
    }

    /** setLastSync: store the current time, here a parameter, in milliseconds. */
    method SetLastSync(now: int)
      modifies this
      requires Valid() && LONG_MIN <= now <= LONG_MAX
      ensures Valid()
      ensures values == old(values)[PREF_LAST_SYNC := LongVal(now)]
      ensures GetLastSync() == now
    {
      PutLong(PREF_LAST_SYNC, now);
    }

    /** isFirstSync: no watermark has been stored yet. */
    predicate IsFirstSync()
      reads this
    {
      PREF_MAX_SYNCED_DATE !in values
    }

    /** The state in which isFirstUse answers true. */
    predicate FirstUsePending()
      reads this
    {
      IsFirstSync() && PREF_FIRST_USE !in values
    }

    /**
     * isFirstUse: true exactly when no watermark is stored and the first-use
     * marker is absent, and a true answer writes the marker, so that after
     * any call the next one answers false.
     */
    method IsFirstUse() returns (first: bool)
      modifies this
      requires Valid()
      ensures Valid()
      ensures first == old(FirstUsePending())
      ensures old(PREF_MAX_SYNCED_DATE in values) ==> !first
      ensures first ==> values == old(values)[PREF_FIRST_USE := BoolVal(false)]
      ensures !first ==> values == old(values)
      ensures !FirstUsePending()
    {
      if PREF_MAX_SYNCED_DATE !in values && PREF_FIRST_USE !in values {
        PutBool(PREF_FIRST_USE, false);
        return true;
      } else {
        return false;
      }
    }

    /**
     * clearSyncData: remove the credentials, the tokens, the watermark and
     * the last-sync time, and nothing else.
     */
    method ClearSyncData()
      modifies this
      requires Valid()
      ensures Valid()
      ensures values == old(values) - SYNC_DATA_KEYS
      ensures forall k :: k in old(values) && k !in SYNC_DATA_KEYS ==> k in values && values[k] == old(values)[k]
      ensures IsFirstSync() && GetMaxSyncedDate() == DEFAULT_MAX_SYNCED_DATE && GetLastSync() == DEFAULT_LAST_SYNC
      ensures GetLoginUsername().None? && GetLoginPassword().None? && !HasOauthTokens()
    {
      values := values - SYNC_DATA_KEYS;
    }

    // ------------------------------------------------------ credentials

    function GetLoginUsername(): (r: Option<string>)
      reads this
      requires Valid()
      ensures r.Some? <==> PREF_LOGIN_USER in values
      ensures r.Some? ==> r.value == values[PREF_LOGIN_USER].s
    {
      GetString(PREF_LOGIN_USER, None)
    }

    /** setLoginUsername: a null name removes the stored one. */
    method SetLoginUsername(s: Option<string>)
      modifies this
      requires Valid()
      ensures Valid()
      ensures values == if s.Some? then old(values)[PREF_LOGIN_USER := StrVal(s.value)] else old(values) - {PREF_LOGIN_USER}
      ensures GetLoginUsername() == s
    {
      PutString(PREF_LOGIN_USER, s);
    }

    function GetLoginPassword(): (r: Option<string>)
      reads this
      requires Valid()
      ensures r.Some? <==> PREF_LOGIN_PASSWORD in values
      ensures r.Some? ==> r.value == values[PREF_LOGIN_PASSWORD].s
    {
      GetString(PREF_LOGIN_PASSWORD, None)
    }

    function GetOauthToken(): (r: Option<string>)
      reads this
      requires Valid()
      ensures r.Some? <==> PREF_OAUTH_TOKEN in values
      ensures r.Some? ==> r.value == values[PREF_OAUTH_TOKEN].s
    {
      GetString(PREF_OAUTH_TOKEN, None)
    }

    function GetOauthTokenSecret(): (r: Option<string>)
      reads this
      requires Valid()
      ensures r.Some? <==> PREF_OAUTH_TOKEN_SECRET in values
      ensures r.Some? ==> r.value == values[PREF_OAUTH_TOKEN_SECRET].s
    {
      GetString(PREF_OAUTH_TOKEN_SECRET, None)
    }

    /** hasOauthTokens: both the token and its secret are stored. */
    function HasOauthTokens(): (r: bool)
      reads this
      requires Valid()
      ensures r <==> PREF_OAUTH_TOKEN in values && PREF_OAUTH_TOKEN_SECRET in values
    {
      GetOauthToken().Some? && GetOauthTokenSecret().Some?
    }

    /** setOauthTokens: store (or, for null, remove) the token and the secret. */
    method SetOauthTokens(token: Option<string>, secret: Option<string>)
      modifies this
      requires Valid()
      ensures Valid()
      ensures forall k :: k != PREF_OAUTH_TOKEN && k != PREF_OAUTH_TOKEN_SECRET ==>
        (k in values <==> k in old(values)) && (k in values ==> values[k] == old(values)[k])
      ensures GetOauthToken() == token && GetOauthTokenSecret() == secret
      ensures HasOauthTokens() <==> token.Some? && secret.Some?
    {
      PutString(PREF_OAUTH_TOKEN, token);
      PutString(PREF_OAUTH_TOKEN_SECRET, secret);
    }

    /**
     * getAuthMode: the stored mode upper-cased, XOAUTH when none is stored.
     * Valid() guarantees the stored text names a mode, so valueOf never throws.
     */
    function GetAuthMode(): (r: AuthMode)
      reads this
      requires Valid()
      ensures r == Plain <==>
        PREF_SERVER_AUTHENTICATION in values && ToUpperAscii(values[PREF_SERVER_AUTHENTICATION].s) == "PLAIN"
      ensures PREF_SERVER_AUTHENTICATION !in values ==> r == XOAuth
    {
      var mode := GetString(PREF_SERVER_AUTHENTICATION, Some("XOAUTH")).value;
      if ToUpperAscii(mode) == "PLAIN" then Plain else XOAuth
    }

    predicate IsLoginUsernameSet()
      reads this
      requires Valid()
    {
      GetLoginUsername().Some?
    }

    /**
     * isLoginInformationSet: with PLAIN authentication a user name and a
     * password are stored; otherwise both OAuth tokens and a user name are.
     */
    function IsLoginInformationSet(): (r: bool)
      reads this
      requires Valid()
      ensures GetAuthMode() == Plain ==>
        (r <==> PREF_LOGIN_USER in values && PREF_LOGIN_PASSWORD in values)
      ensures GetAuthMode() != Plain ==>
        (r <==> PREF_OAUTH_TOKEN in values && PREF_OAUTH_TOKEN_SECRET in values && PREF_LOGIN_USER in values)
    {
      if GetAuthMode() == Plain then IsLoginUsernameSet() && GetLoginPassword().Some?
      else HasOauthTokens() && GetLoginUsername().Some?
    }

    // ----------------------------------------------------------- server

    /** getServerAddress: imap.gmail.com:993 when none is stored. */
    function GetServerAddress(): (r: string)
      reads this
      requires Valid()
      ensures PREF_SERVER_ADDRESS !in values ==> r == DEFAULT_SERVER_ADDRESS
      ensures PREF_SERVER_ADDRESS in values ==> r == values[PREF_SERVER_ADDRESS].s
    {
      GetString(PREF_SERVER_ADDRESS, Some(DEFAULT_SERVER_ADDRESS)).value
    }

    /** setServerAddress: a null address removes the stored one, so the default returns. */
    method SetServerAddress(serverAddress: Option<string>)
      modifies this
      requires Valid()
      ensures Valid()
      ensures values == if serverAddress.Some? then old(values)[PREF_SERVER_ADDRESS := StrVal(serverAddress.value)]
        else old(values) - {PREF_SERVER_ADDRESS}
      ensures GetServerAddress() == if serverAddress.Some? then serverAddress.value else DEFAULT_SERVER_ADDRESS
    {
      PutString(PREF_SERVER_ADDRESS, serverAddress);
    }

    /** getServerProtocol: ssl when none is stored. */
    function GetServerProtocol(): (r: string)
      reads this
      requires Valid()
      ensures PREF_SERVER_PROTOCOL !in values ==> r == DEFAULT_SERVER_PROTOCOL
      ensures PREF_SERVER_PROTOCOL in values ==> r == values[PREF_SERVER_PROTOCOL].s
    {
      GetString(PREF_SERVER_PROTOCOL, Some(DEFAULT_SERVER_PROTOCOL)).value
    }

    /** isGmail: the server address is imap.gmail.com:993, ignoring case; true when none is stored. */
    function IsGmail(): (r: bool)
      reads this
      requires Valid()
      ensures r <==> EqualsIgnoreCaseAscii(DEFAULT_SERVER_ADDRESS, GetServerAddress())
      ensures PREF_SERVER_ADDRESS !in values ==> r
    {
      EqualsIgnoreCaseAscii("imap.gmail.com:993", GetServerAddress())
    }

    /** useXOAuth: XOAUTH authentication against Gmail's server. */
    function UseXOAuth(): (r: bool)
      reads this
      requires Valid()
      ensures r <==> GetAuthMode() == XOAuth && EqualsIgnoreCaseAscii(DEFAULT_SERVER_ADDRESS, GetServerAddress())
      ensures PREF_SERVER_AUTHENTICATION !in values && PREF_SERVER_ADDRESS !in values ==> r
    {
      GetAuthMode() == XOAuth && IsGmail()
    }

    // -------------------------------------------------------- threading

    function GetReferenceUid(): (r: Option<string>)
      reads this
      requires Valid()
      ensures r.Some? <==> PREF_REFERENCE_UID in values
      ensures r.Some? ==> r.value == values[PREF_REFERENCE_UID].s
    {
      GetString(PREF_REFERENCE_UID, None)
    }

    /** setReferenceUid: the token reads back and nothing else changes. */
    method SetReferenceUid(referenceUid: Option<string>)
      modifies this
      requires Valid()
      ensures Valid()
      ensures values == if referenceUid.Some? then old(values)[PREF_REFERENCE_UID := StrVal(referenceUid.value)]
        else old(values) - {PREF_REFERENCE_UID}
      ensures GetReferenceUid() == referenceUid
    {
      PutString(PREF_REFERENCE_UID, referenceUid);
    }

    // ----------------------------------------------------------- folder

    /** getImapFolder: SMS when none is stored. */
    function GetImapFolder(): (r: string)
      reads this
      requires Valid()
      ensures PREF_IMAP_FOLDER !in values ==> r == DEFAULT_IMAP_FOLDER
      ensures PREF_IMAP_FOLDER in values ==> r == values[PREF_IMAP_FOLDER].s
    {
      GetString(PREF_IMAP_FOLDER, Some(DEFAULT_IMAP_FOLDER)).value
    }

    predicate IsImapFolderSet()
      reads this
    {
      PREF_IMAP_FOLDER in values
    }

    /** setImapFolder: a null folder removes the stored one, so the default returns. */
    method SetImapFolder(imapFolder: Option<string>)
      modifies this
      requires Valid()
      ensures Valid()
      ensures values == if imapFolder.Some? then old(values)[PREF_IMAP_FOLDER := StrVal(imapFolder.value)]
        else old(values) - {PREF_IMAP_FOLDER}
      ensures GetImapFolder() == if imapFolder.Some? then imapFolder.value else DEFAULT_IMAP_FOLDER
      ensures IsImapFolderSet() <==> imapFolder.Some?
    {
      PutString(PREF_IMAP_FOLDER, imapFolder);
    }

    // ------------------------------------------------------ batch sizes

    /**
     * getStringAsInt: the stored text (or the default text) parsed as an
     * int; when that does not parse, the default text parsed instead.
     */
    function GetStringAsInt(key: string, def: string): (r: int)
      reads this
      requires Valid() && KindOf(key) == StringKind
      requires ParseInt(Some(def)).Some?
      ensures key in values && ParseInt(Some(values[key].s)).Some? ==> r == ParseInt(Some(values[key].s)).value
      ensures key !in values || ParseInt(Some(values[key].s)).None? ==> r == ParseInt(Some(def)).value
      ensures INT_MIN <= r <= INT_MAX
    {
      match ParseInt(GetString(key, Some(def)))
      case Some(n) => n
      case None => ParseInt(Some(def)).value
    }

    /** getMaxItemsPerSync: the stored count, or -1 when it is unset or malformed. */
    function GetMaxItemsPerSync(): (r: int)
      reads this
      requires Valid()
      ensures var stored := if PREF_MAX_ITEMS_PER_SYNC in values then ParseInt(Some(values[PREF_MAX_ITEMS_PER_SYNC].s)) else None;
        r == if stored.Some? then stored.value else -1
    {
      assert ParseInt(Some(DEFAULT_MAX_ITEMS_PER_SYNC)) == Some(-1) by {
        assert NatToDecimal(1) == "1";
        DecimalRoundTrip(-1, INT_MIN, INT_MAX);
      }
      GetStringAsInt(PREF_MAX_ITEMS_PER_SYNC, DEFAULT_MAX_ITEMS_PER_SYNC)
    }

    /** getMaxItemsPerRestore: the stored count, or -1 when it is unset or malformed. */
    function GetMaxItemsPerRestore(): (r: int)
      reads this
      requires Valid()
      ensures var stored := if PREF_MAX_ITEMS_PER_RESTORE in values then ParseInt(Some(values[PREF_MAX_ITEMS_PER_RESTORE].s)) else None;
        r == if stored.Some? then stored.value else -1
    {
      assert ParseInt(Some(DEFAULT_MAX_ITEMS_PER_RESTORE)) == Some(-1) by {
        assert NatToDecimal(1) == "1";
        DecimalRoundTrip(-1, INT_MIN, INT_MAX);
      }
      GetStringAsInt(PREF_MAX_ITEMS_PER_RESTORE, DEFAULT_MAX_ITEMS_PER_RESTORE)
    }

    // ------------------------------------------------------------ flags

    function IsWifiOnly(): (r: bool)
      reads this
      requires Valid()
      ensures PREF_WIFI_ONLY !in values ==> !r
      ensures PREF_WIFI_ONLY in values ==> r == values[PREF_WIFI_ONLY].b
    {
      GetBool(PREF_WIFI_ONLY, false)
    }

    /** isEnableAutoSync: off when nothing is stored. */
    function IsEnableAutoSync(): (r: bool)
      reads this
      requires Valid()
      ensures PREF_ENABLE_AUTO_SYNC !in values ==> r == DEFAULT_ENABLE_AUTO_SYNC
      ensures PREF_ENABLE_AUTO_SYNC in values ==> r == values[PREF_ENABLE_AUTO_SYNC].b
    {
      GetBool(PREF_ENABLE_AUTO_SYNC, DEFAULT_ENABLE_AUTO_SYNC)
    }

    predicate IsEnableAutoSyncSet()
      reads this
    {
      PREF_ENABLE_AUTO_SYNC in values
    }

    method SetEnableAutoSync(enableAutoSync: bool)
      modifies this
      requires Valid()
      ensures Valid()
      ensures values == old(values)[PREF_ENABLE_AUTO_SYNC := BoolVal(enableAutoSync)]
      ensures IsEnableAutoSync() == enableAutoSync && IsEnableAutoSyncSet()
    {
      PutBool(PREF_ENABLE_AUTO_SYNC, enableAutoSync);
    }

    /** getIncomingTimeoutSecs: three minutes when nothing is stored. */
    function GetIncomingTimeoutSecs(): (r: int)
      reads this
      requires Valid()
      ensures PREF_INCOMING_TIMEOUT_SECONDS !in values ==> r == DEFAULT_INCOMING_TIMEOUT_SECONDS
      ensures PREF_INCOMING_TIMEOUT_SECONDS in values ==> r == values[PREF_INCOMING_TIMEOUT_SECONDS].i
    {
      GetInt(PREF_INCOMING_TIMEOUT_SECONDS, DEFAULT_INCOMING_TIMEOUT_SECONDS)
    }

    /** getRegularTimeoutSecs: two hours when nothing is stored. */
    function GetRegularTimeoutSecs(): (r: int)
      reads this
      requires Valid()
      ensures PREF_REGULAR_TIMEOUT_SECONDS !in values ==> r == DEFAULT_REGULAR_TIMEOUT_SECONDS
      ensures PREF_REGULAR_TIMEOUT_SECONDS in values ==> r == values[PREF_REGULAR_TIMEOUT_SECONDS].i
    {
      GetInt(PREF_REGULAR_TIMEOUT_SECONDS, DEFAULT_REGULAR_TIMEOUT_SECONDS)
    }

    /** getMarkAsRead: on when nothing is stored. */
    function GetMarkAsRead(): (r: bool)
      reads this
      requires Valid()
      ensures PREF_MARK_AS_READ !in values ==> r == DEFAULT_MARK_AS_READ
      ensures PREF_MARK_AS_READ in values ==> r == values[PREF_MARK_AS_READ].b
    {
      GetBool(PREF_MARK_AS_READ, DEFAULT_MARK_AS_READ)
    }

    method SetMarkAsRead(markAsRead: bool)
      modifies this
      requires Valid()
      ensures Valid()
      ensures values == old(values)[PREF_MARK_AS_READ := BoolVal(markAsRead)]
      ensures GetMarkAsRead() == markAsRead
    {
      PutBool(PREF_MARK_AS_READ, markAsRead);
    }

    /** getMarkAsReadOnRestore: on when nothing is stored. */
    function GetMarkAsReadOnRestore(): (r: bool)
      reads this
      requires Valid()
      ensures PREF_MARK_AS_READ_ON_RESTORE !in values ==> r == DEFAULT_MARK_AS_READ_ON_RESTORE
      ensures PREF_MARK_AS_READ_ON_RESTORE in values ==> r == values[PREF_MARK_AS_READ_ON_RESTORE].b
    {
      GetBool(PREF_MARK_AS_READ_ON_RESTORE, DEFAULT_MARK_AS_READ_ON_RESTORE)
    }

    method SetMarkAsReadOnRestore(markAsRead: bool)
      modifies this
      requires Valid()
      ensures Valid()
      ensures values == old(values)[PREF_MARK_AS_READ_ON_RESTORE := BoolVal(markAsRead)]
      ensures GetMarkAsReadOnRestore() == markAsRead
    {
      PutBool(PREF_MARK_AS_READ_ON_RESTORE, markAsRead);
    }

    /**
     * showUpgradeMessage: answer true, and remember having done so, the
     * first time the old application is found installed. Whether it is
     * installed is a package-manager query, here a parameter.
     */
    method ShowUpgradeMessage(oldAppInstalled: bool) returns (show: bool)
      modifies this
      requires Valid()
      ensures Valid()
      ensures show <==> oldAppInstalled && !old(GetBool(PREF_UPGRADE_MESSAGE_SEEN, false))
      ensures show ==> values == old(values)[PREF_UPGRADE_MESSAGE_SEEN := BoolVal(true)]
      ensures !show ==> values == old(values)
      ensures show ==> GetBool(PREF_UPGRADE_MESSAGE_SEEN, false)
    {
      var seen := GetBool(PREF_UPGRADE_MESSAGE_SEEN, false);
      if !seen && oldAppInstalled {
        PutBool(PREF_UPGRADE_MESSAGE_SEEN, true);
        return true;
      } else {
        return false;
      }
    }
  }

  /** A second isFirstUse call right after the first always answers false. */
  method FirstUseAnswersTrueOnce(store: PrefStore) returns (first: bool, second: bool)
    modifies store
    requires store.Valid()
    ensures store.Valid()
    ensures first == old(store.FirstUsePending())
    ensures !second
  {
    first := store.IsFirstUse();
    second := store.IsFirstUse();
  }
}
