/**
 * cursorToMessageArray: the batch conversion of SMS rows, first as values
 * (what a batch yields from a cache and a cursor), then as the stateful
 * CursorToMessage engine whose methods are proved to compute those values.
 */
module Conversion {
  import opened Wrappers
  import opened JavaText
  import opened Collaborators
  import opened Identity
  import opened People
  import opened Messages
  import opened Prefs

  /** The messages converted so far (or the exception that stopped them) and the cache. */
  datatype Converted = Converted(result: Result<seq<Message>, ConversionError>, cache: Cache)

  /** CursorToMessage.ConversionResult. */
  datatype ConversionResult = ConversionResult(maxDate: int, messageList: seq<Message>)

  /** What cursorToMessageArray returns or throws, and the cache it leaves behind. */
  datatype Batch = Batch(result: Result<ConversionResult, ConversionError>, cache: Cache)

  /**
   * messageFromHashMap applied to the rows in cursor order, threading the
   * cache; the first exception stops the walk.
   */
  function ConvertRows(cfg: Config, cache: Cache, rows: seq<Row>, backupTime: string): Converted
    decreases |rows|
  {
    if rows == [] then Converted(Ok([]), cache)
    else
      var prior := ConvertRows(cfg, cache, rows[..|rows| - 1], backupTime);
      if prior.result.Err? then prior
      else
        var b := Build(cfg, prior.cache, rows[|rows| - 1], backupTime);
        match b.result
        case Err(e) => Converted(Err(e), b.cache)
        case Ok(m) => Converted(Ok(prior.result.value + [m]), b.cache)
  }

  /** One row converted against the directory directly, with no cache. */
  function RowOutcome(cfg: Config, row: Row, backupTime: string): Result<Message, ConversionError> {
    Outcome(cfg, row, Correspondent(cfg, row), backupTime)
  }

  /** Every row's outcome, in row order. */
  function Outcomes(cfg: Config, rows: seq<Row>, backupTime: string): (r: seq<Result<Message, ConversionError>>)
    ensures |r| == |rows|
    ensures forall j :: 0 <= j < |rows| ==> r[j] == RowOutcome(cfg, rows[j], backupTime)
  {
    seq(|rows|, j requires 0 <= j < |rows| => RowOutcome(cfg, rows[j], backupTime))
  }

  /** All the values in order, or the first error. */
  function Collect<T, E>(outs: seq<Result<T, E>>): Result<seq<T>, E>
    decreases |outs|
  {
    if outs == [] then Ok([])
    else
      match Collect(outs[..|outs| - 1])
      case Err(e) => Err(e)
      case Ok(vs) =>
        match outs[|outs| - 1]
        case Err(e) => Err(e)
        case Ok(v) => Ok(vs + [v])
  }

  /** The cache-free reference: every row's message in order, or the first row's error. */
  function ConvertAll(cfg: Config, rows: seq<Row>, backupTime: string): Result<seq<Message>, ConversionError> {
    Collect(Outcomes(cfg, rows, backupTime))
  }

  /** The running maximum of cursorToMessageArray: -1, raised by every row's date. */
  function Watermark(rows: seq<Row>): int
    decreases |rows|
  {
    if rows == [] then DEFAULT_MAX_SYNCED_DATE
    else
      var w := Watermark(rows[..|rows| - 1]);
      var d := rows[|rows| - 1].date;
      if d > w then d else w
  }

  /** How many rows the loop consumes: all when maxEntries is 0, else at most maxEntries. */
  function ConsumedCount(n: nat, maxEntries: nat): (k: nat)
    ensures k <= n
    ensures maxEntries == 0 ==> k == n
    ensures maxEntries > 0 ==> k == if n < maxEntries then n else maxEntries
  {
    if maxEntries == 0 || n < maxEntries then n else maxEntries
  }

  /**
   * cursorToMessageArray as a value: a negative capacity throws before any
   * row is read; otherwise the consumed rows are converted, the watermark
   * covers exactly them, and on a normal return a cache holding more than
   * MAX_PEOPLE_CACHE_SIZE entries is emptied.
   */
  function ConvertBatch(cfg: Config, cache: Cache, rows: seq<Row>, maxEntries: int, backupTime: string): Batch {
    if maxEntries < 0 then Batch(Err(IllegalArgument), cache)
    else
      var k := ConsumedCount(|rows|, maxEntries);
      var c := ConvertRows(cfg, cache, rows[..k], backupTime);
      match c.result
      case Err(e) => Batch(Err(e), c.cache)
      case Ok(msgs) =>
        Batch(Ok(ConversionResult(Watermark(rows[..k]), msgs)),
              if |c.cache| > MAX_PEOPLE_CACHE_SIZE then map[] else c.cache)
  }

  // ------------------------------------------------------------ lemmas

  /**
   * Over a coherent cache the batch walk computes the cache-free reference,
   * and leaves a coherent cache that kept every old entry.
   */
  lemma {:induction false} ConvertRowsIsConvertAll(cfg: Config, cache: Cache, rows: seq<Row>, backupTime: string)
    requires Coherent(cfg.env.directory, cfg.env.codec, cache)
    ensures var c := ConvertRows(cfg, cache, rows, backupTime);
      && c.result == ConvertAll(cfg, rows, backupTime)
      && Coherent(cfg.env.directory, cfg.env.codec, c.cache)
      && Extends(cache, c.cache)
    decreases |rows|
  {
    if rows != [] {
      var prior := ConvertRows(cfg, cache, rows[..|rows| - 1], backupTime);
      ConvertRowsIsConvertAll(cfg, cache, rows[..|rows| - 1], backupTime);
      OutcomesPrefix(cfg, rows, |rows| - 1, backupTime);
      if prior.result.Ok? {
        BuildUsesCorrespondent(cfg, prior.cache, rows[|rows| - 1], backupTime);
      }
    }
  }

  /**
   * Collecting yields one value per outcome, in order, when all succeed;
   * it fails exactly when some outcome fails, with the first failure's error.
   */
  lemma {:induction false} CollectShape<T, E>(outs: seq<Result<T, E>>)
    ensures var r := Collect(outs);
      && (r.Ok? ==> |r.value| == |outs| && forall j :: 0 <= j < |outs| ==> outs[j] == Ok(r.value[j]))
      && (r.Err? <==> exists j :: 0 <= j < |outs| && outs[j].Err?)
      && (r.Err? ==>
            exists j :: 0 <= j < |outs| && outs[j] == Err(r.error) && forall i :: 0 <= i < j ==> outs[i].Ok?)
    decreases |outs|
  {
    if outs != [] {
      var n := |outs| - 1;
      var front := outs[..n];
      CollectShape(front);
      assert forall j :: 0 <= j < n ==> front[j] == outs[j];
      var prior := Collect(front);
      if prior.Err? {
        var j :| 0 <= j < n && front[j] == Err(prior.error) && forall i :: 0 <= i < j ==> front[i].Ok?;
        assert outs[j] == Err(prior.error);
      } else if outs[n].Err? {
        assert forall i :: 0 <= i < n ==> outs[i].Ok?;
      } else {
        var r := Collect(outs);
        assert forall j :: 0 <= j < n ==> r.value[j] == prior.value[j];
      }
    }
  }

  /** Converting a prefix is collecting the outcomes of that prefix. */
  lemma OutcomesPrefix(cfg: Config, rows: seq<Row>, n: nat, backupTime: string)
    requires n <= |rows|
    ensures Outcomes(cfg, rows[..n], backupTime) == Outcomes(cfg, rows, backupTime)[..n]
  {
  }

  /** One more row: the unfolding of ConvertRows the engine's loop follows. */
  lemma ConvertRowsStep(cfg: Config, cache: Cache, rows: seq<Row>, i: nat, backupTime: string)
    requires i < |rows|
    ensures var prior := ConvertRows(cfg, cache, rows[..i], backupTime);
      var b := Build(cfg, prior.cache, rows[i], backupTime);
      ConvertRows(cfg, cache, rows[..i + 1], backupTime)
      == if prior.result.Err? then prior
         else if b.result.Err? then Converted(Err(b.result.error), b.cache)
         else Converted(Ok(prior.result.value + [b.result.value]), b.cache)
  {
    assert rows[..i + 1][..i] == rows[..i];
  }

  /** One more row: the unfolding of Watermark the engine's loop follows. */
  lemma WatermarkStep(rows: seq<Row>, i: nat)
    requires i < |rows|
    ensures Watermark(rows[..i + 1]) == if rows[i].date > Watermark(rows[..i]) then rows[i].date else Watermark(rows[..i])
  {
    assert rows[..i + 1][..i] == rows[..i];
  }

  /** A stopped walk stays stopped: rows after a failure change neither the error nor the cache. */
  lemma {:induction false} ConvertRowsErrorSticky(cfg: Config, cache: Cache, rows: seq<Row>, i: nat, backupTime: string)
    requires i <= |rows|
    requires ConvertRows(cfg, cache, rows[..i], backupTime).result.Err?
    ensures ConvertRows(cfg, cache, rows, backupTime) == ConvertRows(cfg, cache, rows[..i], backupTime)
    decreases |rows|
  {
    if i < |rows| {
      var front := rows[..|rows| - 1];
      assert front[..i] == rows[..i];
      ConvertRowsErrorSticky(cfg, cache, front, i, backupTime);
    } else {
      assert rows[..i] == rows;
    }
  }

  /**
   * The watermark is the maximum of -1 and the rows' dates: at least -1,
   * at least every date, and either -1 or one of the dates.
   */
  lemma {:induction false} WatermarkIsMaximum(rows: seq<Row>)
    ensures Watermark(rows) >= DEFAULT_MAX_SYNCED_DATE
    ensures forall j :: 0 <= j < |rows| ==> Watermark(rows) >= rows[j].date
    ensures Watermark(rows) == DEFAULT_MAX_SYNCED_DATE || exists j :: 0 <= j < |rows| && Watermark(rows) == rows[j].date
    decreases |rows|
  {
    if rows != [] {
      var n := |rows| - 1;
      WatermarkIsMaximum(rows[..n]);
      assert forall j :: 0 <= j < n ==> rows[..n][j] == rows[j];
    }
  }

  /**
   * Over a coherent cache with a non-negative capacity, a batch yields the
   * cache-free reference on the consumed rows with their watermark, and
   * leaves a coherent cache of at most MAX_PEOPLE_CACHE_SIZE entries on
   * success, either emptied or still holding every old entry.
   */
  lemma ConvertBatchReference(cfg: Config, cache: Cache, rows: seq<Row>, maxEntries: int, backupTime: string)
    requires Coherent(cfg.env.directory, cfg.env.codec, cache)
    requires maxEntries >= 0
    ensures var b := ConvertBatch(cfg, cache, rows, maxEntries, backupTime);
      var consumed := rows[..ConsumedCount(|rows|, maxEntries)];
      && b.result == (match ConvertAll(cfg, consumed, backupTime)
                      case Ok(ms) => Ok(ConversionResult(Watermark(consumed), ms))
                      case Err(e) => Err(e))
      && Coherent(cfg.env.directory, cfg.env.codec, b.cache)
      && (b.result.Ok? ==> |b.cache| <= MAX_PEOPLE_CACHE_SIZE && (b.cache == map[] || Extends(cache, b.cache)))
  {
    var consumed := rows[..ConsumedCount(|rows|, maxEntries)];
    ConvertRowsIsConvertAll(cfg, cache, consumed, backupTime);
  }

  /**
   * The messages of a successful batch: one per consumed row, in cursor
   * order, each that row's own conversion.
   */
  lemma ConvertBatchMessages(cfg: Config, cache: Cache, rows: seq<Row>, maxEntries: int, backupTime: string)
    requires Coherent(cfg.env.directory, cfg.env.codec, cache)
    requires maxEntries >= 0
    ensures var b := ConvertBatch(cfg, cache, rows, maxEntries, backupTime);
      var k := ConsumedCount(|rows|, maxEntries);
      b.result.Ok? ==>
        && |b.result.value.messageList| == k
        && forall j :: 0 <= j < k ==> RowOutcome(cfg, rows[j], backupTime) == Ok(b.result.value.messageList[j])
  {
    var k := ConsumedCount(|rows|, maxEntries);
    var consumed := rows[..k];
    var outs := Outcomes(cfg, consumed, backupTime);
    ConvertBatchReference(cfg, cache, rows, maxEntries, backupTime);
    CollectShape(outs);
    var r := Collect(outs);
    if r.Ok? {
      forall j | 0 <= j < k
        ensures RowOutcome(cfg, rows[j], backupTime) == Ok(r.value[j])
      {
        assert consumed[j] == rows[j];
        assert outs[j] == Ok(r.value[j]);
      }
    }
  }

  /**
   * A batch fails exactly with the error of the first consumed row that
   * fails: every consumed row before it converts.
   */
  lemma ConvertBatchFirstError(cfg: Config, cache: Cache, rows: seq<Row>, maxEntries: int, backupTime: string)
    requires Coherent(cfg.env.directory, cfg.env.codec, cache)
    requires maxEntries >= 0
    ensures var b := ConvertBatch(cfg, cache, rows, maxEntries, backupTime);
      b.result.Err? ==>
        exists j :: 0 <= j < ConsumedCount(|rows|, maxEntries)
          && RowOutcome(cfg, rows[j], backupTime) == Err(b.result.error)
          && forall i :: 0 <= i < j ==> RowOutcome(cfg, rows[i], backupTime).Ok?
  {
    var k := ConsumedCount(|rows|, maxEntries);
    var consumed := rows[..k];
    var outs := Outcomes(cfg, consumed, backupTime);
    ConvertBatchReference(cfg, cache, rows, maxEntries, backupTime);
    CollectShape(outs);
    var r := Collect(outs);
    if r.Err? {
      var j :| 0 <= j < k && outs[j] == Err(r.error) && forall i :: 0 <= i < j ==> outs[i].Ok?;
      assert consumed[j] == rows[j];
      forall i | 0 <= i < j
        ensures RowOutcome(cfg, rows[i], backupTime).Ok?
      {
        assert consumed[i] == rows[i];
        assert outs[i].Ok?;
      }
    }
  }

  /** Each message of a successful batch carries its own row's columns in its headers and body. */
  lemma ConvertBatchCarriesRows(cfg: Config, cache: Cache, rows: seq<Row>, maxEntries: int, backupTime: string)
    requires Coherent(cfg.env.directory, cfg.env.codec, cache)
    requires maxEntries >= 0
    ensures var b := ConvertBatch(cfg, cache, rows, maxEntries, backupTime);
      b.result.Ok? ==>
        && |b.result.value.messageList| == ConsumedCount(|rows|, maxEntries)
        && forall j :: 0 <= j < ConsumedCount(|rows|, maxEntries) ==> BuiltFrom(b.result.value.messageList[j], rows[j])
  {
    ConvertBatchMessages(cfg, cache, rows, maxEntries, backupTime);
    var b := ConvertBatch(cfg, cache, rows, maxEntries, backupTime);
    if b.result.Ok? {
      var msgs := b.result.value.messageList;
      forall j | 0 <= j < ConsumedCount(|rows|, maxEntries)
        ensures BuiltFrom(msgs[j], rows[j])
      {
        RowOutcomeCarriesRow(cfg, rows[j], backupTime, msgs[j]);
      }
    }
  }

  /** A row's successful conversion carries the row's columns. */
  lemma RowOutcomeCarriesRow(cfg: Config, row: Row, backupTime: string, m: Message)
    requires RowOutcome(cfg, row, backupTime) == Ok(m)
    ensures BuiltFrom(m, row)
  {
    OutcomeHeaders(cfg, row, Correspondent(cfg, row), backupTime);
  }

  /**
   * The watermark of a successful batch is the maximum of -1 and the dates
   * of the consumed rows only.
   */
  lemma ConvertBatchWatermark(cfg: Config, cache: Cache, rows: seq<Row>, maxEntries: int, backupTime: string)
    requires maxEntries >= 0
    ensures var b := ConvertBatch(cfg, cache, rows, maxEntries, backupTime);
      var k := ConsumedCount(|rows|, maxEntries);
      b.result.Ok? ==>
        && b.result.value.maxDate >= DEFAULT_MAX_SYNCED_DATE
        && (forall j :: 0 <= j < k ==> b.result.value.maxDate >= rows[j].date)
        && (b.result.value.maxDate == DEFAULT_MAX_SYNCED_DATE
            || exists j :: 0 <= j < k && b.result.value.maxDate == rows[j].date)
  {
    var k := ConsumedCount(|rows|, maxEntries);
    var consumed := rows[..k];
    WatermarkIsMaximum(consumed);
    var b := ConvertBatch(cfg, cache, rows, maxEntries, backupTime);
    if b.result.Ok? {
      var w := b.result.value.maxDate;
      assert w == Watermark(consumed);
      assert forall j :: 0 <= j < k ==> consumed[j] == rows[j];
      if w != DEFAULT_MAX_SYNCED_DATE {
        var j :| 0 <= j < k && w == consumed[j].date;
        assert w == rows[j].date;
      }
    }
  }
  /** A batch whose consumed rows all convert: the messages, their watermark, the trimmed cache. */
  lemma ConvertBatchOk(cfg: Config, cache: Cache, rows: seq<Row>, maxEntries: int, backupTime: string,
                       msgs: seq<Message>, c: Cache)
    requires maxEntries >= 0
    requires ConvertRows(cfg, cache, rows[..ConsumedCount(|rows|, maxEntries)], backupTime) == Converted(Ok(msgs), c)
    ensures ConvertBatch(cfg, cache, rows, maxEntries, backupTime)
      == Batch(Ok(ConversionResult(Watermark(rows[..ConsumedCount(|rows|, maxEntries)]), msgs)),
               if |c| > MAX_PEOPLE_CACHE_SIZE then map[] else c)
  {
  }

  /** A batch whose consumed rows stop at an error: that error, and the cache as it stood. */
  lemma ConvertBatchErr(cfg: Config, cache: Cache, rows: seq<Row>, maxEntries: int, backupTime: string,
                        e: ConversionError, c: Cache)
    requires maxEntries >= 0
    requires ConvertRows(cfg, cache, rows[..ConsumedCount(|rows|, maxEntries)], backupTime) == Converted(Err(e), c)
    ensures ConvertBatch(cfg, cache, rows, maxEntries, backupTime) == Batch(Err(e), c)
  {
  }

  /**
   * The engine's loop step: if the consumed prefix converted to `msgs` and
   * the next row builds to `built` from that cache, the longer prefix
   * converts to `msgs` plus the new message.
   */
  lemma LoopStep(cfg: Config, cache: Cache, rows: seq<Row>, maxEntries: int, i: nat, backupTime: string,
                 msgs: seq<Message>, c: Cache, built: Result<Message, ConversionError>, c2: Cache)
    requires maxEntries >= 0 && i < ConsumedCount(|rows|, maxEntries)
    requires ConvertRows(cfg, cache, rows[..i], backupTime) == Converted(Ok(msgs), c)
    requires Built(built, c2) == Build(cfg, c, rows[i], backupTime)
    requires built.Ok?
    ensures ConvertRows(cfg, cache, rows[..i + 1], backupTime) == Converted(Ok(msgs + [built.value]), c2)
  {
    ConvertRowsStep(cfg, cache, rows, i, backupTime);
  }

  /** A walk whose row `i` is the first to throw ends there with that row's error and cache. */
  lemma ConvertRowsFailsAt(cfg: Config, cache: Cache, rows: seq<Row>, i: nat, backupTime: string,
                           msgs: seq<Message>, c: Cache, e: ConversionError, c2: Cache)
    requires i < |rows|
    requires ConvertRows(cfg, cache, rows[..i], backupTime) == Converted(Ok(msgs), c)
    requires Built(Err(e), c2) == Build(cfg, c, rows[i], backupTime)
    ensures ConvertRows(cfg, cache, rows[..i + 1], backupTime) == Converted(Err(e), c2)
  {
    ConvertRowsStep(cfg, cache, rows, i, backupTime);
  }

  /** A failed prefix fixes the outcome of every longer prefix. */
  lemma ConvertRowsFailedPrefix(cfg: Config, cache: Cache, rows: seq<Row>, j: nat, k: nat, backupTime: string,
                                e: ConversionError, c2: Cache)
    requires j <= k <= |rows|
    requires ConvertRows(cfg, cache, rows[..j], backupTime) == Converted(Err(e), c2)
    ensures ConvertRows(cfg, cache, rows[..k], backupTime) == Converted(Err(e), c2)
  {
    assert rows[..k][..j] == rows[..j];
    ConvertRowsErrorSticky(cfg, cache, rows[..k], j, backupTime);
  }

  /** The engine's loop stopping at a row's error: the whole batch stops there. */
  lemma LoopStop(cfg: Config, cache: Cache, rows: seq<Row>, maxEntries: int, i: nat, backupTime: string,
                 msgs: seq<Message>, c: Cache, e: ConversionError, c2: Cache)
    requires maxEntries >= 0 && i < ConsumedCount(|rows|, maxEntries)
    requires ConvertRows(cfg, cache, rows[..i], backupTime) == Converted(Ok(msgs), c)
    requires Built(Err(e), c2) == Build(cfg, c, rows[i], backupTime)
    ensures ConvertBatch(cfg, cache, rows, maxEntries, backupTime) == Batch(Err(e), c2)
  {
    ConvertRowsFailsAt(cfg, cache, rows, i, backupTime, msgs, c, e, c2);
    ConvertRowsFailedPrefix(cfg, cache, rows, i + 1, ConsumedCount(|rows|, maxEntries), backupTime, e, c2);
    ConvertBatchErr(cfg, cache, rows, maxEntries, backupTime, e, c2);
  }

  /** A negative capacity throws IllegalArgumentException and leaves the cache alone. */
  lemma NegativeCapacityRejected(cfg: Config, cache: Cache, rows: seq<Row>, maxEntries: int, backupTime: string)
    requires maxEntries < 0
    ensures ConvertBatch(cfg, cache, rows, maxEntries, backupTime) == Batch(Err(IllegalArgument), cache)
  {
  }

  /**
   * Rows past the cap are never read: with a positive capacity that the
   * cursor reaches, appending rows (whatever their dates) changes neither the
   * messages, nor the watermark, nor the cache.
   */
  lemma RowsPastCapIgnored(cfg: Config, cache: Cache, rows: seq<Row>, extra: seq<Row>, maxEntries: int, backupTime: string)
    requires 0 < maxEntries <= |rows|
    ensures ConvertBatch(cfg, cache, rows + extra, maxEntries, backupTime)
      == ConvertBatch(cfg, cache, rows, maxEntries, backupTime)
  {
    assert (rows + extra)[..maxEntries] == rows[..maxEntries];
  }

  /** What a batch yields does not depend on which coherent cache it starts from. */
  lemma ConvertBatchIgnoresCache(cfg: Config, c1: Cache, c2: Cache, rows: seq<Row>, maxEntries: int, backupTime: string)
    requires Coherent(cfg.env.directory, cfg.env.codec, c1)
    requires Coherent(cfg.env.directory, cfg.env.codec, c2)
    ensures ConvertBatch(cfg, c1, rows, maxEntries, backupTime).result
      == ConvertBatch(cfg, c2, rows, maxEntries, backupTime).result
  {
    if maxEntries >= 0 {
      var k := ConsumedCount(|rows|, maxEntries);
      ConvertRowsIsConvertAll(cfg, c1, rows[..k], backupTime);
      ConvertRowsIsConvertAll(cfg, c2, rows[..k], backupTime);
    }
  }

  // ------------------------------------------------------------ engine

  /** CursorToMessage: the conversion engine, with its people cache. */
  class CursorToMessage {
    const env: Env
    const userAddress: Address
    const referenceValue: string
    const markAsRead: bool
    const version: Option<string>
    var peopleCache: Cache

    /** The engine's fixed settings as one value. */
    function Settings(): Config {
      Config(env, userAddress, referenceValue, markAsRead, version)
    }

    /** The people cache agrees with the directory. */
    ghost predicate Valid()
      reads this
    {
      Coherent(env.directory, env.codec, peopleCache)
    }

    /**
     * The constructor: an empty cache, the user's address, the reference
     * token stored in the preferences (or a fresh one, which is stored), and
     * the mark-as-read setting. The application version is passed in.
     */
    constructor (prefs: PrefStore, userEmail: Option<string>, env: Env, version: Option<string>)
      modifies prefs
      requires prefs.Valid()
      ensures Valid() && prefs.Valid()
      ensures peopleCache == map[]
      ensures this.env == env && this.version == version
      ensures userAddress == Address(userEmail, None)
      ensures old(prefs.GetReferenceUid()).Some? ==>
        referenceValue == old(prefs.GetReferenceUid()).value && prefs.values == old(prefs.values)
      ensures old(prefs.GetReferenceUid()).None? ==>
        IsReferenceToken(referenceValue)
        && prefs.values == old(prefs.values)[PREF_REFERENCE_UID := StrVal(referenceValue)]
      ensures prefs.GetReferenceUid() == Some(referenceValue)
      ensures markAsRead == prefs.GetMarkAsRead()
    {
      this.env := env;
      this.version := version;
      peopleCache := map[];
      userAddress := Address(userEmail, None);
      var stored := prefs.GetReferenceUid();
      if stored.None? {
        var token := GenerateReferenceValue();
        prefs.SetReferenceUid(Some(token));
        referenceValue := token;
      } else {
        referenceValue := stored.value;
      }
      markAsRead := prefs.GetMarkAsRead();
    }

    /**
     * lookupPerson: probe the cache with the address as given; on a miss
     * query the directory with the slash-stripped address, build the record
     * from the match and store it under the stripped address.
     */
    method LookupPerson(address: string) returns (record: Option<PersonRecord>)
      modifies this
      requires Valid()
      ensures Valid()
      ensures Resolution(record, peopleCache) == CachedLookup(env.directory, env.codec, old(peopleCache), address)
      ensures record == Resolve(env.directory, env.codec, RemoveAll(address, '/'))
      ensures address in old(peopleCache) ==> record == Some(old(peopleCache)[address]) && peopleCache == old(peopleCache)
      ensures record.None? ==> peopleCache == old(peopleCache)
      ensures record.Some? && address !in old(peopleCache) ==>
        peopleCache == old(peopleCache)[RemoveAll(address, '/') := record.value]
    {
      CachedLookupTransparent(env.directory, env.codec, peopleCache, address);
      var key := address;
      if key !in peopleCache {
        key := RemoveAll(address, '/');
        var found := env.directory.findByPhone(key);
        if found.None? {
          return None;
        }
        var m := found.value;
        var primaryEmail := GetEmail(env.directory, env.codec, m.number, m.personId);
        var rec := PersonRecord(Some(IntToDecimal(m.personId)), m.name,
                                Address(Some(primaryEmail), EncodeDisplayName(env.codec, m.name)));
        peopleCache := peopleCache[key := rec];
      }
      record := Some(peopleCache[key]);
    }

    /**
     * messageFromHashMap: resolve the person, then assemble the message; the
     * type parse and, once the date parses, a null address throw.
     */
    method MessageFromHashMap(row: Row, backupTime: string) returns (result: Result<Message, ConversionError>)
      modifies this
      requires Valid()
      ensures Valid()
      ensures Built(result, peopleCache) == Build(Settings(), old(peopleCache), row, backupTime)
    {
      var record: Option<PersonRecord> := None;
      var address := Field(row, COL_ADDRESS);
      if address.Some? {
        address := Some(Trim(address.value));
        if |address.value| > 0 {
          record := LookupPerson(address.value);
        }
      }
      var person := if record.None? then UnknownPerson(env.codec, address) else record.value;
      assert address == TrimmedAddress(row);
      assert Build(Settings(), old(peopleCache), row, backupTime)
        == Built(Outcome(Settings(), row, person, backupTime), peopleCache);

      var messageType := ParseInt(Field(row, COL_TYPE));
      if messageType.None? {
        return Err(NumberFormat);
      }
      var inbox := messageType.value == MESSAGE_TYPE_INBOX;
      var from := if inbox then person.address else userAddress;
      var to := if inbox then userAddress else person.address;

      var idHeader: map<Header, Option<string>> := map[];
      var date := ParseLong(Field(row, COL_DATE));
      if date.Some? {
        if address.None? {
          return Err(NullPointer);
        }
        var id := CreateMessageId(env.md5, date.value, address.value, messageType.value);
        idHeader := map[MsgId := Some(id)];
      }
      var headers := idHeader + MetadataHeaders(Settings(), row, address, person, backupTime);
      result := Ok(Message("SMS with " + JavaStr(person.name), from, to, Field(row, COL_BODY),
                           date, date, headers, markAsRead));
    }

    /**
     * cursorToMessageArray: convert rows in cursor order until the cursor
     * ends or maxEntries messages are made, tracking the largest date of the
     * consumed rows; then empty an oversized people cache.
     */
    method CursorToMessageArray(rows: seq<Row>, maxEntries: int, backupTime: string)
      returns (result: Result<ConversionResult, ConversionError>)
      modifies this
      requires Valid()
      ensures Valid()
      ensures Batch(result, peopleCache) == ConvertBatch(Settings(), old(peopleCache), rows, maxEntries, backupTime)
    {
      if maxEntries < 0 {
        return Err(IllegalArgument);
      }
      ghost var cache0 := peopleCache;
      ghost var k := ConsumedCount(|rows|, maxEntries);
      var messageList: seq<Message> := [];
      var maxDate := DEFAULT_MAX_SYNCED_DATE;
      var i := 0;
      while i < |rows|
        invariant 0 <= i <= k
        invariant maxEntries > 0 ==> i < maxEntries
        invariant |messageList| == i
        invariant ConvertRows(Settings(), cache0, rows[..i], backupTime) == Converted(Ok(messageList), peopleCache)
        invariant maxDate == Watermark(rows[..i])
        invariant Valid()
        decreases |rows| - i
      {
        var date := rows[i].date;
        if date > maxDate {
          maxDate := date;
        }
        WatermarkStep(rows, i);
        ghost var before := peopleCache;
        var built := MessageFromHashMap(rows[i], backupTime);
        if built.Err? {
          LoopStop(Settings(), cache0, rows, maxEntries, i, backupTime, messageList, before, built.error, peopleCache);
          return Err(built.error);
        }
        LoopStep(Settings(), cache0, rows, maxEntries, i, backupTime, messageList, before, built, peopleCache);
        messageList := messageList + [built.value];
        i := i + 1;
        if |messageList| == maxEntries {
          break;
        }
      }
      assert i == k;
      ConvertBatchOk(Settings(), cache0, rows, maxEntries, backupTime, messageList, peopleCache);
      if |peopleCache| > MAX_PEOPLE_CACHE_SIZE {
        peopleCache := map[];
      }
      result := Ok(ConversionResult(maxDate, messageList));
    }
  }
}
