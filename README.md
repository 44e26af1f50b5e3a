# SMS Backup+ conversion engine and preference store, in Dafny

This project models two parts of SMS Backup+, an Android application that
backs SMS messages up to an IMAP mailbox.

**`CursorToMessage`** turns rows of the SMS database into e-mail messages.
- Each row is a map from column name to string, plus a numeric date.
- The engine walks the rows in cursor order, builds one message per row and
  keeps a running maximum of the row dates: the watermark that the next sync
  starts from.
- It stops after `maxEntries` messages.
- It resolves each correspondent through a contact directory, behind a
  people cache. At the end of a batch that returns normally, the cache is
  emptied if it holds more than 100 entries. A batch that throws leaves the
  cache as the converted rows left it, oversized or not.
- A message whose date parses gets a deterministic `Message-ID` (an MD5
  digest in hex); one whose date does not parse gets none.
- Every message gets a `References` header that threads by person, and
  eleven `X-smssync-*` headers carrying the row's columns.

**`PrefStore`** is the application's settings. Here they are an in-memory
map from key to typed value.
- Getters fall back to per-key defaults.
- Setters write a key; storing a null string removes it.
- `clearSyncData` drops credentials and sync progress.
- `isFirstUse` answers true once.
- A few pure predicates decide whether login details are complete and
  whether XOAuth applies.

Files:
- `wrappers.dfy`: `Option` and `Result`.
- `java_text.dfy`: the parts of `java.lang.String`, `Integer` and `Long`
  the core relies on. These are `trim`, `replaceAll` of one character,
  `endsWith`, ASCII case mapping, `Integer.valueOf` / `Long.valueOf` with
  their 32- and 64-bit ranges, `Long.toString`, and UTF-8 encoding.
- `collaborators.dfy`: the code the core calls but that is not modelled, as
  uninterpreted functions.
  - `Md5`: the MD5 digest (RFC 1321), a function to 16 bytes.
  - `Codec`: the RFC 2047 local-part and display-name encoders.
  - `Directory`: the contacts directory. `findByPhone` maps an address to
    an optional (person id, name, number); `emailsOf` maps a person id to
    their e-mail addresses.
- `identity.dfy`: `createMessageId` and `generateReferenceValue`.
- `people.dfy`:
  - `PersonRecord`;
  - `isGmailAddress`, `getUnknownEmail` and `getEmail`;
  - the read-through cache of `lookupPerson`, as the function
    `CachedLookup`.
- `messages.dfy`: the message record and the conversion of one row
  (`messageFromHashMap`) as functions.
- `conversion.dfy`:
  - the batch (`cursorToMessageArray`) as a function `ConvertBatch`, with
    its cache-free reference `ConvertAll`;
  - the class `CursorToMessage`, whose methods are proved equal to those
    functions.
- `pref_store.dfy`: the class `PrefStore` and the method `IsValidImapFolder`.

How the proofs fit together:
- The class methods update the people cache in place. Each method's
  postcondition equates its result and new cache with a pure function of
  its inputs and old cache.
- The cache invariant `Coherent` says every cached key is slash-free and
  holds what the directory resolves it to. Under it, the cache is shown to
  be transparent: a batch converts every consumed row exactly as a
  cache-free lookup would.
- From that, the lemmas about `ConvertBatch` derive the count, order and
  content of the messages, the watermark, the first error, and the cache
  after the call.

Exceptions the Java code throws and does not catch become the `Err` cases
of `ConversionError`:
- `NumberFormat`: `Integer.valueOf` on a missing or malformed `type` column.
- `NullPointer`: a null `address` column whose `date` parses, when
  `createMessageId` reads the address's bytes.
- `IllegalArgument`: `new ArrayList(maxEntries)` with a negative capacity.

The model follows the code where the code and its documentation differ:
- **Watermark.** The watermark covers only the rows that were consumed.
  When the loop stops at `maxEntries`, later rows' dates do not raise it.
- **Errors abort the batch.** A row whose type does not parse aborts the
  whole batch: nothing is returned and the cache is not trimmed. Rows
  converted before it still leave their entries in the people cache.
- **`maxEntries == 0`.** With a capacity of 0 the cap never fires and
  every row is consumed.
- **IMAP folder names.** The documentation of `isValidImapFolder` says
  only letters are accepted. The code also accepts `.` and `/`, and the
  empty name.
- **Cache keys.** `lookupPerson` probes the cache with the address as
  given but stores the record under the slash-stripped address. An
  address containing `/` therefore never hits the cache; it is looked up
  again each time, with the same result.
- **Message-ID collisions.** The three parts fed to the digest are not
  separated, so different rows can share a `Message-ID`. For example, date
  1000 with address `5551234` and date 10005 with address `551234` (both
  type 1) get the same one.

## Model

| member | source | states |
|---|---|---|
| `JavaText.Trim` | src/com/zegoggles/smssync/CursorToMessage.java:142 | the trimmed address has no leading or trailing whitespace/control character, and is empty iff the whole string was such characters |
| `JavaText.TrimCutsEnds` | src/com/zegoggles/smssync/CursorToMessage.java:142 | `trim` returns a slice `s[i..j]` of its input, and every character cut off before `i` or after `j` is a character up to U+0020 |
| `JavaText.RemoveAll` | src/com/zegoggles/smssync/CursorToMessage.java:227 | `replaceAll("/", "")` leaves no `/`, keeps only characters of the input, is no longer than it, and is the identity on slash-free input |
| `JavaText.RemoveAllCounts` | src/com/zegoggles/smssync/CursorToMessage.java:227 | every `/` is removed and every other character keeps its number of occurrences |
| `JavaText.RemoveAllAppend` | src/com/zegoggles/smssync/CursorToMessage.java:227 | removal works piecewise: removing from `a + b` is removing from `a`, then from `b`, so the kept characters stay in order |
| `JavaText.RemoveAllChar` | src/com/zegoggles/smssync/CursorToMessage.java:227 | on one character, removal deletes it if it is the pattern and keeps it otherwise |
| `JavaText.ParseInt` | src/com/zegoggles/smssync/CursorToMessage.java:159 | `Integer.valueOf` succeeds only on a non-null string, with a value in the 32-bit range |
| `JavaText.ParseLong` | src/com/zegoggles/smssync/CursorToMessage.java:173 | `Long.valueOf` succeeds only on a non-null string, with a value in the 64-bit range |
| `JavaText.ParseDecimalSpec` | src/com/zegoggles/smssync/CursorToMessage.java:159 | the decimal parser accepts exactly an optional `-` followed by one or more ASCII digits whose value lies in the range, and returns that value |
| `JavaText.ParseIntSpec` | src/com/zegoggles/smssync/CursorToMessage.java:159 | `Integer.valueOf`: null throws; a string parses iff it is `-`? digits with a value in the 32-bit range, and then to that value |
| `JavaText.ParseLongSpec` | src/com/zegoggles/smssync/CursorToMessage.java:173 | `Long.valueOf`: null throws; a string parses iff it is `-`? digits with a value in the 64-bit range, and then to that value |
| `JavaText.ParseIntRange` | src/com/zegoggles/smssync/CursorToMessage.java:159 | the texts of -2147483648 and 2147483647 parse to themselves; those of 2147483648 and -2147483649 throw |
| `JavaText.ParseIntTexts` | src/com/zegoggles/smssync/CursorToMessage.java:159 | leading zeros are accepted (`007` is 7); `+1`, `-`, the empty string and ` 1` throw |
| `JavaText.IntToDecimal` | src/com/zegoggles/smssync/CursorToMessage.java:207 | `Long.toString` gives a non-empty text |
| `JavaText.IntToDecimalSpec` | src/com/zegoggles/smssync/CursorToMessage.java:207 | `Long.toString(n)` is the digits of `|n|`, with a `-` when `n` is negative; neither the text nor the digits after the `-` start with `0`, except `0` itself |
| `JavaText.DecimalRoundTrip` | src/com/zegoggles/smssync/CursorToMessage.java:207 | parsing `Long.toString(n)` gives back `n` for every `n` in range |
| `JavaText.DigitsValueOfDecimal` | src/com/zegoggles/smssync/CursorToMessage.java:207 | the decimal digits of `n` denote `n` |
| `JavaText.Utf8Append` | src/com/zegoggles/smssync/CursorToMessage.java:207-209 | UTF-8 encoding distributes over concatenation, so three successive `digest.update` calls digest the UTF-8 of the concatenated text |
| `JavaText.Utf8Char` | src/com/zegoggles/smssync/CursorToMessage.java:207-209 | a character encodes to 1 to 4 bytes: one byte (itself) iff it is below U+0080, two iff below U+0800, three iff below U+10000 |
| `JavaText.Utf8CharLayout` | src/com/zegoggles/smssync/CursorToMessage.java:207-209 | the lead byte of a 2-, 3- or 4-byte encoding lies in `C0-DF`, `E0-EF` or `F0-F7`, every later byte in `80-BF`, and the payload bits decode to the character |
| `JavaText.Utf8CharInjective` | src/com/zegoggles/smssync/CursorToMessage.java:207-209 | distinct characters have distinct encodings |
| `JavaText.Utf8` | src/com/zegoggles/smssync/CursorToMessage.java:207-209 | `getBytes("UTF-8")` yields 1 to 4 bytes per character, and no bytes only for the empty string |
| `JavaText.Utf8Single` | src/com/zegoggles/smssync/CursorToMessage.java:207-209 | a one-character string encodes as that character's own UTF-8 sequence; with `Utf8Append` this makes the bytes of any string its characters' encodings in order |
| `JavaText.Utf8Ascii` | src/com/zegoggles/smssync/CursorToMessage.java:207-209 | an ASCII string encodes to its own character codes, one byte each |
| `JavaText.JavaStr` | src/com/zegoggles/smssync/CursorToMessage.java:182 | string conversion of a possibly-null string: the string itself, or `null` for a null reference (see also :155) |
| `JavaText.ToUpperAscii` | src/com/zegoggles/smssync/PrefStore.java:177 | `toUpperCase` keeps the length and maps each character through ASCII upper-casing |
| `JavaText.EqualsIgnoreCaseAscii` | src/com/zegoggles/smssync/PrefStore.java:355 | `equalsIgnoreCase` holds iff the two strings upper-case to the same string |
| `Collaborators.EncodeLocal` | src/com/zegoggles/smssync/CursorToMessage.java:300-302 | null passes through; any other string goes to the local-part encoder |
| `Collaborators.EncodeDisplayName` | src/com/zegoggles/smssync/CursorToMessage.java:304-306 | null passes through; any other string goes to the display-name encoder |
| `Identity.HexByte` | src/com/zegoggles/smssync/CursorToMessage.java:213 | `%02x` gives two lowercase hex digits whose value is the byte |
| `Identity.Hex` | src/com/zegoggles/smssync/CursorToMessage.java:211-214 | the hex text of a digest has two lowercase hex digits per byte |
| `Identity.UnhexHex` | src/com/zegoggles/smssync/CursorToMessage.java:211-214 | hex encoding is injective: decoding it gives the bytes back |
| `Identity.CreateMessageId` | src/com/zegoggles/smssync/CursorToMessage.java:203-221 | the StringBuilder loop yields exactly `MessageId` of (date, address, type), a deterministic value |
| `Identity.MessageIdFormat` | src/com/zegoggles/smssync/CursorToMessage.java:203-215 | the id is `<` + 32 lowercase hex digits + `@sms-backup-plus.local>`, and the hex decodes to the MD5 of UTF-8(decimal date) ++ UTF-8(address) ++ UTF-8(decimal type) (see also :46) |
| `Identity.MessageIdIgnoresFieldBoundaries` | src/com/zegoggles/smssync/CursorToMessage.java:207-209 | (1000, "5551234", 1) and (10005, "551234", 1) get the same Message-ID, since the fields are not separated |
| `Identity.Base36Digit` | src/com/zegoggles/smssync/CursorToMessage.java:324 | `Integer.toString(d, 36)` of `d` below 10 is the character `'0' + d`, otherwise the lowercase letter `'a' + d - 10` |
| `Identity.GenerateReferenceValue` | src/com/zegoggles/smssync/CursorToMessage.java:318-327 | whatever the random draws, the token has 24 characters from `0-9a-y`, and never `z` |
| `People.GmailSuffixRule` | src/com/zegoggles/smssync/CursorToMessage.java:313-316 | any string ending in `gmail.com` or `googlemail.com` is a Gmail address, including `x@notgmail.com`, while `a@gmail.com.au` is not; and every Gmail address has one of the two suffixes |
| `People.FirstGmail` | src/com/zegoggles/smssync/CursorToMessage.java:279-288 | finds the first address ending in `gmail.com` or `googlemail.com`: none before it qualifies, and none at all when it finds nothing (see also :313-316) |
| `People.GetUnknownEmail` | src/com/zegoggles/smssync/CursorToMessage.java:308-311 | the result ends in `@unknown.email`, preceded by the encoded trimmed number, or `unknown_number` when the number is null (see also :56-58) |
| `People.PrimaryEmailSelection` | src/com/zegoggles/smssync/CursorToMessage.java:264-298 | with a positive id, the first Gmail address wins wherever it stands, else the first address; with no addresses or a non-positive id, the unknown address |
| `People.GetEmail` | src/com/zegoggles/smssync/CursorToMessage.java:264-298 | the scanning loop with its `break` returns `PrimaryEmail`, the selection rule above |
| `People.CachedLookupTransparent` | src/com/zegoggles/smssync/CursorToMessage.java:223-262 | over a coherent cache, a lookup returns the directory's answer for the slash-stripped address, keeps the cache coherent, never changes an old entry, and adds at most the stripped key |
| `People.SlashedAddressMisses` | src/com/zegoggles/smssync/CursorToMessage.java:224-227 | an address containing `/` is never a cache key, yet it still resolves to the stripped address's person (see also :255) |
| `People.CachedLookupIdempotent` | src/com/zegoggles/smssync/CursorToMessage.java:223-262 | looking the same address up twice in a row: the second lookup returns the same person and changes nothing |
| `Messages.BuildUsesCorrespondent` | src/com/zegoggles/smssync/CursorToMessage.java:139-153 | over a coherent cache, a row converts as with the person straight from the directory; the cache stays coherent and extended, and is untouched for a null or blank address |
| `Messages.BuildIgnoresCache` | src/com/zegoggles/smssync/CursorToMessage.java:139-197 | the message built from a row is the same whichever coherent cache is in place |
| `Messages.UnknownCorrespondent` | src/com/zegoggles/smssync/CursorToMessage.java:148-153 | an unresolved, null or blank address gives a record with id = name = the trimmed address and mail address `encodeLocal(address)@unknown.person` |
| `Messages.OutcomeFailsOnlyOn` | src/com/zegoggles/smssync/CursorToMessage.java:172-179 | a row fails with NumberFormat iff its type does not parse, with NullPointer iff the type and date parse and the address is null, and never otherwise (see also :159, :203-208) |
| `Messages.OutcomeAddressing` | src/com/zegoggles/smssync/CursorToMessage.java:155-168 | the subject is `"SMS with " + name`; an inbox message (type 1) is from the person to the user, any other type from the user to the person |
| `Messages.OutcomeHeaders` | src/com/zegoggles/smssync/CursorToMessage.java:172-194 | an unparsable date still gives a message, without dates or Message-ID. A parsable date sets both dates and the Message-ID of (date, trimmed address, type). References is `<token.personId@sms-backup-plus.local>`; all eleven X-smssync headers carry the row's columns, the backup time and the version; SEEN equals mark-as-read |
| `Messages.MetadataHeadersContent` | src/com/zegoggles/smssync/CursorToMessage.java:182-193 | the always-set header map holds References and all eleven X-smssync headers with their values, and no Message-ID |
| `Conversion.Outcomes` | src/com/zegoggles/smssync/CursorToMessage.java:109-119 | reference definition, not code: one outcome per row, in row order, each that row's own conversion; `ConvertBatchReference` and `CollectShape` tie it to the loop |
| `Conversion.ConsumedCount` | src/com/zegoggles/smssync/CursorToMessage.java:120-123 | reference definition of the loop's stopping rule: it consumes all rows when `maxEntries` is 0, else `min(rows, maxEntries)`; `ConvertBatchReference` and `RowsPastCapIgnored` use it (see also :104) |
| `Conversion.CollectShape` | src/com/zegoggles/smssync/CursorToMessage.java:109-124 | collecting outcomes gives one value per outcome, in order, or fails iff some outcome fails, with the first failure's error |
| `Conversion.ConvertRowsIsConvertAll` | src/com/zegoggles/smssync/CursorToMessage.java:109-124 | over a coherent cache, the cache-threading walk computes the cache-free reference and leaves a coherent, extended cache |
| `Conversion.ConvertRowsStep` | src/com/zegoggles/smssync/CursorToMessage.java:109-119 | loop proof step for `CursorToMessageArray`: converting one more row extends the converted prefix by that row's message, threading the cache |
| `Conversion.WatermarkStep` | src/com/zegoggles/smssync/CursorToMessage.java:112-115 | loop proof step for `CursorToMessageArray`: the watermark of one more row is raised to that row's date only if the date is larger |
| `Conversion.ConvertRowsErrorSticky` | src/com/zegoggles/smssync/CursorToMessage.java:119 | once a prefix fails, no later row is converted and the outcome and cache stay as they were |
| `Conversion.WatermarkIsMaximum` | src/com/zegoggles/smssync/CursorToMessage.java:112-115 | the watermark is at least -1 and every row's date, and is -1 or one of the dates: the maximum of -1 and the dates (see also :105) |
| `Conversion.ConvertBatchReference` | src/com/zegoggles/smssync/CursorToMessage.java:102-134 | a batch is the cache-free conversion of the consumed rows with their watermark. On success the cache is coherent and has at most 100 entries: it was emptied or kept every old entry |
| `Conversion.ConvertBatchMessages` | src/com/zegoggles/smssync/CursorToMessage.java:104-124 | a successful batch has one message per consumed row, in cursor order, each that row's own conversion |
| `Conversion.ConvertBatchFirstError` | src/com/zegoggles/smssync/CursorToMessage.java:119 | a failed batch fails with the error of a consumed row before which every consumed row converts (see also :159) |
| `Conversion.ConvertBatchCarriesRows` | src/com/zegoggles/smssync/CursorToMessage.java:183-191 | each message of a batch carries its own row's id, address, type, date, thread, read, status, protocol, service centre and body (see also :116-119) |
| `Conversion.RowOutcomeCarriesRow` | src/com/zegoggles/smssync/CursorToMessage.java:183-191 | a converted row's message carries that row's columns and body (see also :157) |
| `Conversion.ConvertBatchWatermark` | src/com/zegoggles/smssync/CursorToMessage.java:112-115 | `maxDate` is the maximum of -1 and the dates of the consumed rows only (see also :105, :120-123) |
| `Conversion.ConvertBatchOk` | src/com/zegoggles/smssync/CursorToMessage.java:125-133 | loop proof step for `CursorToMessageArray`: when the consumed rows convert, the result holds their messages and watermark, and an oversized cache is emptied |
| `Conversion.ConvertBatchErr` | src/com/zegoggles/smssync/CursorToMessage.java:119 | loop proof step for `CursorToMessageArray`: when a consumed row throws, the batch throws that error and the cache is not trimmed |
| `Conversion.LoopStep` | src/com/zegoggles/smssync/CursorToMessage.java:109-123 | loop proof step for `CursorToMessageArray`: one successful iteration of the loop extends the converted prefix by the new message |
| `Conversion.ConvertRowsFailsAt` | src/com/zegoggles/smssync/CursorToMessage.java:119 | loop proof step for `CursorToMessageArray`: when row `i` is the first to throw, the walk over the first `i + 1` rows ends with that row's error and cache |
| `Conversion.ConvertRowsFailedPrefix` | src/com/zegoggles/smssync/CursorToMessage.java:119 | loop proof step for `CursorToMessageArray`: once a prefix has failed, every longer prefix fails with the same error and cache |
| `Conversion.LoopStop` | src/com/zegoggles/smssync/CursorToMessage.java:119 | loop proof step for `CursorToMessageArray`: a row that throws inside the loop ends the whole batch with that error |
| `Conversion.NegativeCapacityRejected` | src/com/zegoggles/smssync/CursorToMessage.java:104 | loop proof step for `CursorToMessageArray`: a negative `maxEntries` throws IllegalArgument before any row is read, leaving the cache alone |
| `Conversion.RowsPastCapIgnored` | src/com/zegoggles/smssync/CursorToMessage.java:120-123 | once the cap is reached, rows after it (whatever their dates) change neither the messages, the watermark nor the cache |
| `Conversion.ConvertBatchIgnoresCache` | src/com/zegoggles/smssync/CursorToMessage.java:102-134 | the batch result does not depend on which coherent cache it starts from (see also :68) |
| `Conversion.CursorToMessage.constructor` | src/com/zegoggles/smssync/CursorToMessage.java:88-100 | empty cache and the user's address. A stored reference token is reused and the store left unchanged; otherwise a fresh 24-character token is generated and stored. Mark-as-read comes from the store |
| `Conversion.CursorToMessage.LookupPerson` | src/com/zegoggles/smssync/CursorToMessage.java:223-262 | a cache hit returns the cached record with no change; a directory miss returns none and leaves the cache alone; a hit stores the record under the slash-stripped address |
| `Conversion.CursorToMessage.MessageFromHashMap` | src/com/zegoggles/smssync/CursorToMessage.java:136-197 | the message (or exception) and the new cache are those of `Build` on the old cache |
| `Conversion.CursorToMessage.CursorToMessageArray` | src/com/zegoggles/smssync/CursorToMessage.java:102-134 | the result and the new cache are those of `ConvertBatch` on the old cache, so every `ConvertBatch` lemma above holds of the loop |
| `Prefs.IsValidImapFolder` | src/com/zegoggles/smssync/PrefStore.java:234-250 | valid iff every character is an ASCII letter, `.` or `/`; the empty name is valid |
| `Prefs.PrefStore.constructor` | src/com/zegoggles/smssync/PrefStore.java:117-119 | a store over the given well-typed contents |
| `Prefs.PrefStore.GetString` | src/com/zegoggles/smssync/PrefStore.java:135-137 | `getString(key, def)`: the stored string if present, else the default |
| `Prefs.PrefStore.GetLong` | src/com/zegoggles/smssync/PrefStore.java:121-123 | `getLong(key, def)`: the stored 64-bit value if present, else the default |
| `Prefs.PrefStore.GetInt` | src/com/zegoggles/smssync/PrefStore.java:273-276 | `getInt(key, def)`: the stored 32-bit value if present, else the default |
| `Prefs.PrefStore.GetBool` | src/com/zegoggles/smssync/PrefStore.java:293-295 | `getBoolean(key, def)`: the stored flag if present, else the default |
| `Prefs.PrefStore.PutString` | src/com/zegoggles/smssync/PrefStore.java:139-141 | `putString` writes only that key, and a null string removes it; reading it back gives what was put |
| `Prefs.PrefStore.PutLong` | src/com/zegoggles/smssync/PrefStore.java:129-133 | `putLong` writes only that key; reading it back gives the value |
| `Prefs.PrefStore.PutBool` | src/com/zegoggles/smssync/PrefStore.java:297-301 | `putBoolean` writes only that key; reading it back gives the value |
| `Prefs.PrefStore.GetMaxSyncedDate` | src/com/zegoggles/smssync/PrefStore.java:121-123 | the stored date, or -1 when absent (see also :82) |
| `Prefs.PrefStore.SetMaxSyncedDate` | src/com/zegoggles/smssync/PrefStore.java:121-133 | only `max_synced_date` changes, and reading it back gives the value set |
| `Prefs.PrefStore.GetLastSync` | src/com/zegoggles/smssync/PrefStore.java:283-285 | the stored time, or -1 when absent (see also :97) |
| `Prefs.PrefStore.SetLastSync` | src/com/zegoggles/smssync/PrefStore.java:287-291 | only `last_sync` changes, to the current time passed in |
| `Prefs.PrefStore.IsFirstUse` | src/com/zegoggles/smssync/PrefStore.java:313-327 | true iff no sync date is stored and `first_use` is not yet written; a true answer writes `first_use` and nothing else, after which it is never true again |
| `Prefs.FirstUseAnswersTrueOnce` | src/com/zegoggles/smssync/PrefStore.java:317-327 | two calls in a row: the second is always false |
| `Prefs.PrefStore.ClearSyncData` | src/com/zegoggles/smssync/PrefStore.java:329-338 | removes exactly `login_user`, `login_password`, `oauth_token`, `oauth_token_secret`, `max_synced_date` and `last_sync`; every other key keeps its value, and the store reads as a first sync |
| `Prefs.PrefStore.GetLoginUsername` | src/com/zegoggles/smssync/PrefStore.java:135-137 | `getString` with a null default: non-null iff `login_user` is stored, and then the stored string |
| `Prefs.PrefStore.SetLoginUsername` | src/com/zegoggles/smssync/PrefStore.java:139-141 | only `login_user` changes, and reads back as set (null removes it) |
| `Prefs.PrefStore.GetLoginPassword` | src/com/zegoggles/smssync/PrefStore.java:143-145 | `getString` with a null default: non-null iff `login_password` is stored, and then the stored string |
| `Prefs.PrefStore.GetOauthToken` | src/com/zegoggles/smssync/PrefStore.java:154-156 | `getString` with a null default: non-null iff `oauth_token` is stored, and then the stored string |
| `Prefs.PrefStore.GetOauthTokenSecret` | src/com/zegoggles/smssync/PrefStore.java:158-160 | `getString` with a null default: non-null iff `oauth_token_secret` is stored, and then the stored string |
| `Prefs.PrefStore.HasOauthTokens` | src/com/zegoggles/smssync/PrefStore.java:162-165 | true iff both the token and the secret are stored |
| `Prefs.PrefStore.SetOauthTokens` | src/com/zegoggles/smssync/PrefStore.java:167-172 | only the two token keys change and read back as set; tokens are present iff both are non-null |
| `Prefs.PrefStore.GetAuthMode` | src/com/zegoggles/smssync/PrefStore.java:174-178 | PLAIN iff the stored mode upper-cases to `PLAIN`; XOAUTH when none is stored |
| `Prefs.PrefStore.IsLoginInformationSet` | src/com/zegoggles/smssync/PrefStore.java:184-194 | in PLAIN mode, true iff username and password are both stored; in any other mode, iff token, secret and username are all stored (see also :162-165) |
| `Prefs.PrefStore.GetServerAddress` | src/com/zegoggles/smssync/PrefStore.java:340-342 | the stored address, or `imap.gmail.com:993` when absent (see also :110) |
| `Prefs.PrefStore.SetServerAddress` | src/com/zegoggles/smssync/PrefStore.java:344-348 | only `server_address` changes, and reads back as set, or as the default after a null |
| `Prefs.PrefStore.GetServerProtocol` | src/com/zegoggles/smssync/PrefStore.java:350-352 | the stored protocol, or `ssl` when absent (see also :113) |
| `Prefs.PrefStore.IsGmail` | src/com/zegoggles/smssync/PrefStore.java:354-356 | true iff the server address equals `imap.gmail.com:993` ignoring case, hence true when none is stored |
| `Prefs.PrefStore.UseXOAuth` | src/com/zegoggles/smssync/PrefStore.java:174-182 | true iff the mode is XOAUTH and the server is Gmail ignoring case, hence true on an empty store (see also :354-356) |
| `Prefs.PrefStore.GetReferenceUid` | src/com/zegoggles/smssync/PrefStore.java:196-198 | non-null iff stored, and then the stored token |
| `Prefs.PrefStore.SetReferenceUid` | src/com/zegoggles/smssync/PrefStore.java:196-204 | only `reference_uid` changes, and reads back as set |
| `Prefs.PrefStore.GetImapFolder` | src/com/zegoggles/smssync/PrefStore.java:206-208 | the stored folder, or `SMS` when absent (see also :85) |
| `Prefs.PrefStore.SetImapFolder` | src/com/zegoggles/smssync/PrefStore.java:206-212 | only `imap_folder` changes; it reads back as set, or as `SMS` after a null, and counts as set iff non-null (see also :252-256) |
| `Prefs.PrefStore.GetStringAsInt` | src/com/zegoggles/smssync/PrefStore.java:226-232 | the stored string parsed as a 32-bit int when it parses, otherwise the parsed default (also when absent) |
| `Prefs.PrefStore.GetMaxItemsPerSync` | src/com/zegoggles/smssync/PrefStore.java:214-216 | the stored count when it parses, otherwise -1 (unset or malformed) (see also :100) |
| `Prefs.PrefStore.GetMaxItemsPerRestore` | src/com/zegoggles/smssync/PrefStore.java:218-220 | the stored count when it parses, otherwise -1 (unset or malformed) (see also :102) |
| `Prefs.PrefStore.IsWifiOnly` | src/com/zegoggles/smssync/PrefStore.java:222-224 | the stored flag, or false when absent |
| `Prefs.PrefStore.IsEnableAutoSync` | src/com/zegoggles/smssync/PrefStore.java:258-261 | the stored flag, or false when absent (see also :88) |
| `Prefs.PrefStore.SetEnableAutoSync` | src/com/zegoggles/smssync/PrefStore.java:263-271 | only `enable_auto_sync` changes; it reads back as set and counts as set |
| `Prefs.PrefStore.GetIncomingTimeoutSecs` | src/com/zegoggles/smssync/PrefStore.java:273-276 | the stored timeout, or 180 seconds when absent (see also :91) |
| `Prefs.PrefStore.GetRegularTimeoutSecs` | src/com/zegoggles/smssync/PrefStore.java:278-281 | the stored timeout, or 7200 seconds when absent (see also :94) |
| `Prefs.PrefStore.GetMarkAsRead` | src/com/zegoggles/smssync/PrefStore.java:293-295 | the stored flag, or true when absent (see also :105) |
| `Prefs.PrefStore.SetMarkAsRead` | src/com/zegoggles/smssync/PrefStore.java:297-301 | only `mark_as_read` changes, and reads back as set |
| `Prefs.PrefStore.GetMarkAsReadOnRestore` | src/com/zegoggles/smssync/PrefStore.java:303-305 | the stored flag, or true when absent (see also :107) |
| `Prefs.PrefStore.SetMarkAsReadOnRestore` | src/com/zegoggles/smssync/PrefStore.java:307-311 | only `mark_as_read_on_restore` changes, and reads back as set |
| `Prefs.PrefStore.ShowUpgradeMessage` | src/com/zegoggles/smssync/PrefStore.java:371-380 | true iff the old application is installed and the message was not yet seen; a true answer records it as seen, and nothing else changes |

The predicates `IsMaxSyncedDateSet`, `IsFirstSync`, `IsLoginUsernameSet`,
`IsImapFolderSet` and `IsEnableAutoSyncSet` model `isMaxSyncedDateSet`
(PrefStore.java:125-127), `isFirstSync` (:313-315), `isLoginUsernameSet`
(:184-186), `isImapFolderSet` (:210-212) and `isEnableAutoSyncSet`
(:263-265). Each is a key-presence test, used in the contracts above.

## Left out

- The Android cursors over the SMS database and the contacts directory are
  platform I/O. The SMS rows are a sequence of `Row` values: column strings
  plus the value `cursor.getLong` gives for the date, taken as given. How
  `getLong` coerces a non-numeric date is not modelled.
- `findByPhone` stands for the phone query. A query rejected with
  IllegalArgumentException is the same as no match, as in the source.
- The directory is fixed for the engine's lifetime: it is a constant field
  of `CursorToMessage`. Contact edits made while records sit in the people
  cache, which would make a cached record stale, are not modelled.
- The directory returns no null e-mail entries. In the source a null entry
  would make `isGmailAddress` throw.
- MD5 (RFC 1321) and the RFC 2047 encoders of mime4j are uninterpreted
  functions. Only how their results are used is modelled.
- The k9 mail objects (`MimeMessage`, `Address`, `TextBody`, `Flag`) become
  a `Message` record with a header map. A header is stored with an
  optional value, so setting a header to null is recorded as a null value;
  k9's own handling of null header values is not modelled.
- `new Date().toGMTString()` is wall-clock time. The backup time is one
  string passed to a batch, so every message of a batch carries the same
  backup time; in the source each message reads the clock itself.
- `PrefStore.getVersion` is a package-manager query; the version string is
  passed to the engine's constructor.
- `Math.random()` is a nondeterministic choice of a digit in 0..34 per
  character.
- `GenerateReferenceValue` takes no e-mail argument, because the source
  ignores it.
- `Integer.valueOf` and `Long.valueOf` follow the Java 6 class library the
  application was built against: an optional `-`, then one or more ASCII
  digits. A leading `+` is rejected; Java accepts it only from Java 7 on.
  Non-ASCII Unicode digits, which Java also accepts, are left out.
- Java strings are sequences of UTF-16 code units; a `string` here is a
  sequence of Unicode scalar values. A lone surrogate, which
  `getBytes("UTF-8")` replaces by `?`, cannot occur in the model.
- `toUpperCase` and `equalsIgnoreCase` are modelled on ASCII letters only,
  not Java's full Unicode case mapping.
- `Trim` removes characters up to U+0020, as `String.trim` does.
- Persistence of SharedPreferences (`commit`) is not modelled; the store is
  an in-memory map.
- `getOAuthConsumer` builds a foreign XOAuth consumer and is not part of
  this model.
- `isOldSmsBackupInstalled` is a package-manager query. Its answer is the
  parameter `oldAppInstalled` of `ShowUpgradeMessage`.
- Prefs.PrefStore.GetAuthMode: `AuthMode.valueOf` throws on an unknown
  stored mode. That exception path is excluded by the store invariant
  `WellTyped`, which requires a stored mode to name an `AuthMode`.
- Reading a key through the wrong typed getter throws ClassCastException
  in the source. The same invariant rules this out: every key holds a value
  of the family its accessors use.
- Logging (`Log.e`, `Log.v`) is left out.
- SmsConsts.java is not part of this model. Its column names appear as the
  `COL_*` constants.
