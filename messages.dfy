/**
 * messageFromHashMap as a value: one SMS row and the people cache in, one
 * mail message (or the exception that escaped) and the updated cache out.
 */
module Messages {
  import opened Wrappers
  import opened JavaText
  import opened Collaborators
  import opened Identity
  import opened People

  // Column names and the inbox type code of Android's SMS provider (SmsConsts).
  const COL_ID := "_id"
  const COL_ADDRESS := "address"
  const COL_BODY := "body"
  const COL_TYPE := "type"
  const COL_DATE := "date"
  const COL_THREAD_ID := "thread_id"
  const COL_READ := "read"
  const COL_STATUS := "status"
  const COL_PROTOCOL := "protocol"
  const COL_SERVICE_CENTER := "service_center"
  const MESSAGE_TYPE_INBOX := 1

  /** The headers messageFromHashMap sets: Message-ID, References and CursorToMessage.Headers. */
  datatype Header =
    | MsgId | Refs
    | SmsId | SmsAddress | SmsType | SmsDate | SmsThread | SmsRead | SmsStatus | SmsProtocol
    | SmsServiceCenter | SmsBackupTime | SmsVersion

  /** The name each header is written under. */
  function HeaderName(h: Header): string {
    match h
    case MsgId => "Message-ID"
    case Refs => "References"
    case SmsId => "X-smssync-id"
    case SmsAddress => "X-smssync-address"
    case SmsType => "X-smssync-type"
    case SmsDate => "X-smssync-date"
    case SmsThread => "X-smssync-thread"
    case SmsRead => "X-smssync-read"
    case SmsStatus => "X-smssync-status"
    case SmsProtocol => "X-smssync-protocol"
    case SmsServiceCenter => "X-smssync-service_center"
    case SmsBackupTime => "X-smssync-backup-time"
    case SmsVersion => "X-smssync-version"
  }

  /** The eleven X-smssync headers. */
  const SMSSYNC_HEADERS: set<Header> :=
    {SmsId, SmsAddress, SmsType, SmsDate, SmsThread, SmsRead, SmsStatus, SmsProtocol,
     SmsServiceCenter, SmsBackupTime, SmsVersion}

  /**
   * One cursor row: every column read as a string (an absent key is a null
   * cell) and the date column as cursor.getLong returned it.
   */
  datatype Row = Row(fields: map<string, string>, date: int)

  /** msgMap.get(column). */
  function Field(row: Row, column: string): Option<string> {
    if column in row.fields then Some(row.fields[column]) else None
  }

  /**
   * The parts of the MimeMessage that messageFromHashMap sets. A header
   * whose value was null is kept, with None.
   */
  datatype Message = Message(
    subject: string,
    from: Address,
    to: Address,
    body: Option<string>,
    sentDate: Option<int>,
    internalDate: Option<int>,
    headers: map<Header, Option<string>>,
    seen: bool)

  /** The exceptions that can escape a conversion. */
  datatype ConversionError =
    | NumberFormat      // Integer.valueOf on a null or malformed type column
    | NullPointer       // createMessageId on a null address once the date has parsed
    | IllegalArgument   // new ArrayList(maxEntries) with a negative capacity

  /** The engine's fixed settings: collaborators, user address, reference token, mark-as-read, version. */
  datatype Config = Config(env: Env, user: Address, reference: string, markAsRead: bool, version: Option<string>)

  /** What messageFromHashMap returns or throws, and the cache it leaves behind. */
  datatype Built = Built(result: Result<Message, ConversionError>, cache: Cache)

  /** The address column, trimmed; null stays null. */
  function TrimmedAddress(row: Row): Option<string> {
    match Field(row, COL_ADDRESS)
    case None => None
    case Some(a) => Some(Trim(a))
  }

  /** REFERENCE_UID_TEMPLATE "<%s.%s@sms-backup-plus.local>" filled with the token and the person id. */
  function ReferencesHeader(reference: string, personId: Option<string>): string {
    "<" + reference + "." + JavaStr(personId) + MSG_ID_SUFFIX
  }

  /** The References header and the eleven X-smssync headers. */
  function MetadataHeaders(cfg: Config, row: Row, address: Option<string>, person: PersonRecord, backupTime: string)
    : map<Header, Option<string>>
  {
    map[
      Refs := Some(ReferencesHeader(cfg.reference, person.id)),
      SmsId := Field(row, COL_ID),
      SmsAddress := address,
      SmsType := Field(row, COL_TYPE),
      SmsDate := Field(row, COL_DATE),
      SmsThread := Field(row, COL_THREAD_ID),
      SmsRead := Field(row, COL_READ),
      SmsStatus := Field(row, COL_STATUS),
      SmsProtocol := Field(row, COL_PROTOCOL),
      SmsServiceCenter := Field(row, COL_SERVICE_CENTER),
      SmsBackupTime := Some(backupTime),
      SmsVersion := cfg.version]
  }

  /**
   * messageFromHashMap once the person is chosen: parse the type (uncaught),
   * orient From/To by it, set the dates and the Message-ID only when the
   * date parses, and always set References, the metadata headers and SEEN.
   */
  function Outcome(cfg: Config, row: Row, person: PersonRecord, backupTime: string): Result<Message, ConversionError> {
    var address := TrimmedAddress(row);
    match ParseInt(Field(row, COL_TYPE))
    case None => Err(NumberFormat)
    case Some(messageType) =>
      var date := ParseLong(Field(row, COL_DATE));
      if date.Some? && address.None? then Err(NullPointer)
      else
        var inbox := messageType == MESSAGE_TYPE_INBOX;
        var idHeader :=
          if date.Some?
          then map[MsgId := Some(MessageId(cfg.env.md5, date.value, address.value, messageType))]
          else map[];
        Ok(Message(
          "SMS with " + JavaStr(person.name),
          if inbox then person.address else cfg.user,
          if inbox then cfg.user else person.address,
          Field(row, COL_BODY),
          date,
          date,
          idHeader + MetadataHeaders(cfg, row, address, person, backupTime),
          cfg.markAsRead))
  }

  /**
   * messageFromHashMap: look the person up only when the trimmed address is
   * non-empty, fall back to the unknown-person record, then build.
   */
  function Build(cfg: Config, cache: Cache, row: Row, backupTime: string): Built {
    var address := TrimmedAddress(row);
    var looked :=
      if address.Some? && |address.value| > 0
      then CachedLookup(cfg.env.directory, cfg.env.codec, cache, address.value)
      else Resolution(None, cache);
    var person := if looked.person.Some? then looked.person.value else UnknownPerson(cfg.env.codec, address);
    Built(Outcome(cfg, row, person, backupTime), looked.cache)
  }

  /** The person a row is about, resolved straight from the directory with no cache. */
  function Correspondent(cfg: Config, row: Row): PersonRecord {
    var address := TrimmedAddress(row);
    var found :=
      if address.Some? && |address.value| > 0
      then Resolve(cfg.env.directory, cfg.env.codec, RemoveAll(address.value, '/'))
      else None;
    if found.Some? then found.value else UnknownPerson(cfg.env.codec, address)
  }

  /** The metadata headers of `m` carry the row's own columns. */
  predicate BuiltFrom(m: Message, row: Row) {
    && SMSSYNC_HEADERS <= m.headers.Keys
    && m.headers[SmsId] == Field(row, COL_ID)
    && m.headers[SmsAddress] == TrimmedAddress(row)
    && m.headers[SmsType] == Field(row, COL_TYPE)
    && m.headers[SmsDate] == Field(row, COL_DATE)
    && m.headers[SmsThread] == Field(row, COL_THREAD_ID)
    && m.headers[SmsRead] == Field(row, COL_READ)
    && m.headers[SmsStatus] == Field(row, COL_STATUS)
    && m.headers[SmsProtocol] == Field(row, COL_PROTOCOL)
    && m.headers[SmsServiceCenter] == Field(row, COL_SERVICE_CENTER)
    && m.body == Field(row, COL_BODY)
  }

  /**
   * Over a coherent cache, a row turns into what its correspondent straight
   * from the directory gives; the cache stays coherent, keeps every old
   * entry, and is untouched when the trimmed address is null or empty.
   */
  lemma BuildUsesCorrespondent(cfg: Config, cache: Cache, row: Row, backupTime: string)
    requires Coherent(cfg.env.directory, cfg.env.codec, cache)
    ensures var b := Build(cfg, cache, row, backupTime);
      && b.result == Outcome(cfg, row, Correspondent(cfg, row), backupTime)
      && Coherent(cfg.env.directory, cfg.env.codec, b.cache)
      && Extends(cache, b.cache)
      && (TrimmedAddress(row).None? || TrimmedAddress(row).value == [] ==> b.cache == cache)
  {
    var address := TrimmedAddress(row);
    if address.Some? && |address.value| > 0 {
      CachedLookupTransparent(cfg.env.directory, cfg.env.codec, cache, address.value);
    }
  }

  /** What a row turns into does not depend on which coherent cache it meets. */
  lemma BuildIgnoresCache(cfg: Config, c1: Cache, c2: Cache, row: Row, backupTime: string)
    requires Coherent(cfg.env.directory, cfg.env.codec, c1)
    requires Coherent(cfg.env.directory, cfg.env.codec, c2)
    ensures Build(cfg, c1, row, backupTime).result == Build(cfg, c2, row, backupTime).result
  {
    BuildUsesCorrespondent(cfg, c1, row, backupTime);
    BuildUsesCorrespondent(cfg, c2, row, backupTime);
  }

  /**
   * An address that is null, blank, or unknown to the directory gives the
   * unknown-person record: id and name are the trimmed address, and the
   * mail address is its encoded local part at unknown.person.
   */
  lemma UnknownCorrespondent(cfg: Config, row: Row)
    requires var address := TrimmedAddress(row);
      address.None? || address.value == []
      || Resolve(cfg.env.directory, cfg.env.codec, RemoveAll(address.value, '/')).None?
    ensures var address := TrimmedAddress(row);
      var person := Correspondent(cfg, row);
      && person.id == address && person.name == address
      && person.address == Address(Some(JavaStr(EncodeLocal(cfg.env.codec, address)) + "@" + UNKNOWN_PERSON), None)
  {
  }

  /**
   * A row fails only when its type column does not parse, or when its date
   * parses but its address column is null; nothing else aborts it.
   */
  lemma OutcomeFailsOnlyOn(cfg: Config, row: Row, person: PersonRecord, backupTime: string)
    ensures var r := Outcome(cfg, row, person, backupTime);
      && (r == Err(NumberFormat) <==> ParseInt(Field(row, COL_TYPE)).None?)
      && (r == Err(NullPointer) <==>
            ParseInt(Field(row, COL_TYPE)).Some? && ParseLong(Field(row, COL_DATE)).Some?
            && Field(row, COL_ADDRESS).None?)
      && (r.Err? ==> r.error != IllegalArgument)
  {
  }

  /**
   * Addressing: the subject names the person, who is the sender of an inbox
   * message and the recipient of any other.
   */
  lemma OutcomeAddressing(cfg: Config, row: Row, person: PersonRecord, backupTime: string)
    ensures var r := Outcome(cfg, row, person, backupTime);
      r.Ok? ==>
        && r.value.subject == "SMS with " + JavaStr(person.name)
        && (ParseInt(Field(row, COL_TYPE)) == Some(MESSAGE_TYPE_INBOX) ==>
              r.value.from == person.address && r.value.to == cfg.user)
        && (ParseInt(Field(row, COL_TYPE)) != Some(MESSAGE_TYPE_INBOX) ==>
              r.value.from == cfg.user && r.value.to == person.address)
  {
  }

  /**
   * Headers and flags: an unparsable date leaves out the dates and the
   * Message-ID but still yields the message; a parsable one sets both dates
   * and the Message-ID of (date, trimmed address, type). References, all
   * eleven X-smssync headers and SEEN = mark-as-read are always set.
   */
  lemma OutcomeHeaders(cfg: Config, row: Row, person: PersonRecord, backupTime: string)
    ensures var r := Outcome(cfg, row, person, backupTime);
      var date := ParseLong(Field(row, COL_DATE));
      && (ParseInt(Field(row, COL_TYPE)).Some? && date.None? ==> r.Ok?)
      && (r.Ok? ==>
        && BuiltFrom(r.value, row)
        && r.value.seen == cfg.markAsRead
        && r.value.headers[Refs] == Some(ReferencesHeader(cfg.reference, person.id))
        && r.value.headers[SmsBackupTime] == Some(backupTime)
        && r.value.headers[SmsVersion] == cfg.version
        && (MsgId in r.value.headers <==> date.Some?)
        && r.value.sentDate == date && r.value.internalDate == date
        && (date.Some? ==>
              r.value.headers[MsgId]
              == Some(MessageId(cfg.env.md5, date.value, TrimmedAddress(row).value,
                                ParseInt(Field(row, COL_TYPE)).value))))
  {
    var address := TrimmedAddress(row);
    var meta := MetadataHeaders(cfg, row, address, person, backupTime);
    MetadataHeadersContent(cfg, row, address, person, backupTime);
    var r := Outcome(cfg, row, person, backupTime);
    if r.Ok? {
      var messageType := ParseInt(Field(row, COL_TYPE)).value;
      var date := ParseLong(Field(row, COL_DATE));
      var idHeader: map<Header, Option<string>> :=
        if date.Some?
        then map[MsgId := Some(MessageId(cfg.env.md5, date.value, address.value, messageType))]
        else map[];
      assert r.value.headers == idHeader + meta;
      assert forall k :: k in meta ==> r.value.headers[k] == meta[k];
    }
  }

  /** The metadata header map holds the row's columns, and never a Message-ID. */
  lemma MetadataHeadersContent(cfg: Config, row: Row, address: Option<string>, person: PersonRecord, backupTime: string)
    ensures var h := MetadataHeaders(cfg, row, address, person, backupTime);
      && SMSSYNC_HEADERS <= h.Keys
      && Refs in h && MsgId !in h
      && h[Refs] == Some(ReferencesHeader(cfg.reference, person.id))
      && h[SmsId] == Field(row, COL_ID)
      && h[SmsAddress] == address
      && h[SmsType] == Field(row, COL_TYPE)
      && h[SmsDate] == Field(row, COL_DATE)
      && h[SmsThread] == Field(row, COL_THREAD_ID)
      && h[SmsRead] == Field(row, COL_READ)
      && h[SmsStatus] == Field(row, COL_STATUS)
      && h[SmsProtocol] == Field(row, COL_PROTOCOL)
      && h[SmsServiceCenter] == Field(row, COL_SERVICE_CENTER)
      && h[SmsBackupTime] == Some(backupTime)
      && h[SmsVersion] == cfg.version
  {
  }
}
