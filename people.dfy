/**
 * Person resolution of CursorToMessage: the e-mail choice of getEmail, the
 * synthesised fallback addresses, and the read-through people cache of
 * lookupPerson, as values. The class in module Conversion runs them in place.
 */
module People {
  import opened Wrappers
  import opened JavaText
  import opened Collaborators

  const UNKNOWN_NUMBER := "unknown_number"
  const UNKNOWN_EMAIL := "unknown.email"
  const UNKNOWN_PERSON := "unknown.person"
  const MAX_PEOPLE_CACHE_SIZE := 100

  /** A mail address: the address proper and an optional display name (k9's Address). */
  datatype Address = Address(email: Option<string>, personal: Option<string>)

  /** CursorToMessage.PersonRecord: directory id, display name and the address used in From/To. */
  datatype PersonRecord = PersonRecord(id: Option<string>, name: Option<string>, address: Address)

  /** mPeopleCache. */
  type Cache = map<string, PersonRecord>

  // ------------------------------------------------------------- getEmail

  /** isGmailAddress: a plain suffix test, so "x@notgmail.com" passes as well. */
  predicate IsGmailAddress(email: string) {
    EndsWith(email, "gmail.com") || EndsWith(email, "googlemail.com")
  }

  /**
   * The suffix rule of isGmailAddress: any text ending in "gmail.com" or
   * "googlemail.com" counts, whatever precedes it, so "x@notgmail.com" is
   * taken for a Gmail address; anything else, "gmail.com.au" included, is not.
   */
  lemma GmailSuffixRule(local: string, other: string)
    ensures IsGmailAddress(local + "gmail.com")
    ensures IsGmailAddress(local + "googlemail.com")
    ensures IsGmailAddress("x@notgmail.com")
    ensures !IsGmailAddress("a@gmail.com.au")
    ensures IsGmailAddress(other) ==>
      (exists p :: other == p + "gmail.com") || (exists p :: other == p + "googlemail.com")
  {
    assert (local + "gmail.com")[|local|..] == "gmail.com";
    assert (local + "googlemail.com")[|local|..] == "googlemail.com";
    assert "x@notgmail.com"[5..] == "gmail.com";
    if IsGmailAddress(other) {
      if EndsWith(other, "gmail.com") {
        assert other == other[..|other| - 9] + "gmail.com";
      } else {
        assert other == other[..|other| - 14] + "googlemail.com";
      }
    }
  }

  /** The position of the first Gmail address in a list, if there is one. */
  function FirstGmail(emails: seq<string>): (r: Option<nat>)
    ensures r.Some? ==> r.value < |emails| && IsGmailAddress(emails[r.value])
    ensures r.Some? ==> forall j :: 0 <= j < r.value ==> !IsGmailAddress(emails[j])
    ensures r.None? ==> forall j :: 0 <= j < |emails| ==> !IsGmailAddress(emails[j])
  {
    if emails == [] then None
    else if IsGmailAddress(emails[0]) then Some(0)
    else match FirstGmail(emails[1..])
      case None => None
      case Some(i) => Some(i + 1)
  }

  /** getUnknownEmail: the encoded, trimmed number (or "unknown_number") at the domain unknown.email. */
  function GetUnknownEmail(codec: Codec, number: Option<string>): (r: string)
    ensures EndsWith(r, "@" + UNKNOWN_EMAIL)
    ensures r[..|r| - |"@" + UNKNOWN_EMAIL|]
      == codec.encodeAddressLocalPart(Trim(if number.Some? then number.value else UNKNOWN_NUMBER))
  {
    var no := if number.None? then UNKNOWN_NUMBER else number.value;
    var local := codec.encodeAddressLocalPart(Trim(no));
    var suffix := "@" + UNKNOWN_EMAIL;
    assert (local + suffix)[..|local|] == local;
    assert (local + suffix)[|local|..] == suffix;
    local + suffix
  }

  /** The address getEmail returns for a person with the given id and matched number. */
  function PrimaryEmail(dir: Directory, codec: Codec, number: Option<string>, personId: int): string {
    var emails := if personId > 0 then dir.emailsOf(personId) else [];
    if emails == [] then GetUnknownEmail(codec, number)
    else match FirstGmail(emails)
      case Some(i) => emails[i]
      case None => emails[0]
  }

  /**
   * The selection rule of getEmail: with a positive id and a stored Gmail
   * address, the first Gmail address wins wherever it stands; otherwise the
   * first stored address; with no stored address or a non-positive id, the
   * synthesised unknown address.
   */
  lemma PrimaryEmailSelection(dir: Directory, codec: Codec, number: Option<string>, personId: int)
    ensures var emails := dir.emailsOf(personId);
      var r := PrimaryEmail(dir, codec, number, personId);
      && (personId > 0 && (exists g :: 0 <= g < |emails| && IsGmailAddress(emails[g])) ==>
            IsGmailAddress(r) && r in emails)
      && (forall g :: (personId > 0 && 0 <= g < |emails| && IsGmailAddress(emails[g])
            && (forall j :: 0 <= j < g ==> !IsGmailAddress(emails[j]))) ==> r == emails[g])
      && (personId > 0 && emails != [] && (forall j :: 0 <= j < |emails| ==> !IsGmailAddress(emails[j])) ==>
            r == emails[0])
      && (personId <= 0 || emails == [] ==> r == GetUnknownEmail(codec, number))
  {
    var emails := dir.emailsOf(personId);
    forall g | personId > 0 && 0 <= g < |emails| && IsGmailAddress(emails[g])
      && (forall j :: 0 <= j < g ==> !IsGmailAddress(emails[j]))
      ensures PrimaryEmail(dir, codec, number, personId) == emails[g]
    {
      var f := FirstGmail(emails);
      assert f.Some?;
      assert f.value == g;
    }
  }

  /**
   * getEmail: scan the person's stored addresses, remembering the first one
   * and stopping at the first Gmail address; fall back to getUnknownEmail.
   */
  method GetEmail(dir: Directory, codec: Codec, number: Option<string>, personId: int) returns (email: string)
    ensures email == PrimaryEmail(dir, codec, number, personId)
  {
    var primaryEmail: Option<string> := None;
    if personId > 0 {
      var emails := dir.emailsOf(personId);
      var firstEmail: Option<string> := None;
      var gmailEmail: Option<string> := None;
      var i := 0;
      while i < |emails|
        invariant 0 <= i <= |emails|
        invariant firstEmail == if i == 0 then None else Some(emails[0])
        invariant gmailEmail.None?
        invariant forall j :: 0 <= j < i ==> !IsGmailAddress(emails[j])
      {
        var tmpEmail := emails[i];
        if firstEmail.None? {
          firstEmail := Some(tmpEmail);
        }
        if IsGmailAddress(tmpEmail) {
          gmailEmail := Some(tmpEmail);
          assert FirstGmail(emails) == Some(i);
          break;
        }
        i := i + 1;
      }
      primaryEmail := if gmailEmail.Some? then gmailEmail else firstEmail;
    }
    if primaryEmail.None? {
      email := GetUnknownEmail(codec, number);
    } else {
      email := primaryEmail.value;
    }
  }

  // --------------------------------------------------------- lookupPerson

  /** The record lookupPerson builds from a directory match. */
  function DirectoryRecord(dir: Directory, codec: Codec, m: PhoneMatch): PersonRecord {
    PersonRecord(
      Some(IntToDecimal(m.personId)),
      m.name,
      Address(Some(PrimaryEmail(dir, codec, m.number, m.personId)), EncodeDisplayName(codec, m.name)))
  }

  /** Resolution straight from the directory, with no cache: the reference the cache must agree with. */
  function Resolve(dir: Directory, codec: Codec, key: string): Option<PersonRecord> {
    match dir.findByPhone(key)
    case None => None
    case Some(m) => Some(DirectoryRecord(dir, codec, m))
  }

  /** The record messageFromHashMap makes up when no person was resolved. */
  function UnknownPerson(codec: Codec, address: Option<string>): PersonRecord {
    PersonRecord(address, address, Address(Some(JavaStr(EncodeLocal(codec, address)) + "@" + UNKNOWN_PERSON), None))
  }

  /** What a lookup returns, and the cache it leaves behind. */
  datatype Resolution = Resolution(person: Option<PersonRecord>, cache: Cache)

  /**
   * lookupPerson: probe the cache with the address as given; on a miss,
   * strip '/', ask the directory, and on a match store the record under the
   * stripped address.
   */
  function CachedLookup(dir: Directory, codec: Codec, cache: Cache, address: string): Resolution {
    if address in cache then Resolution(Some(cache[address]), cache)
    else
      var key := RemoveAll(address, '/');
      match Resolve(dir, codec, key)
      case None => Resolution(None, cache)
      case Some(record) => Resolution(Some(record), cache[key := record])
  }

  /**
   * The cache invariant: every key is slash-free (only stripped addresses
   * are written) and holds exactly what the directory resolves it to.
   */
  predicate Coherent(dir: Directory, codec: Codec, cache: Cache) {
    forall k :: k in cache ==> '/' !in k && Resolve(dir, codec, k) == Some(cache[k])
  }

  /** The cache only gains entries, and keeps the old ones as they were. */
  predicate Extends(old_: Cache, new_: Cache) {
    old_.Keys <= new_.Keys && forall k :: k in old_ ==> new_[k] == old_[k]
  }

  /**
   * The cache is transparent: over a coherent cache a lookup returns what
   * the directory returns for the slash-stripped address, keeps the cache
   * coherent and only adds the stripped address to it.
   */
  lemma CachedLookupTransparent(dir: Directory, codec: Codec, cache: Cache, address: string)
    requires Coherent(dir, codec, cache)
    ensures var r := CachedLookup(dir, codec, cache, address);
      && r.person == Resolve(dir, codec, RemoveAll(address, '/'))
      && Coherent(dir, codec, r.cache)
      && Extends(cache, r.cache)
      && r.cache.Keys <= cache.Keys + {RemoveAll(address, '/')}
  {
    if address in cache {
      assert '/' !in address;
      assert RemoveAll(address, '/') == address;
    }
  }

  /**
   * The cache is probed with the address as given but written under the
   * stripped one, so an address containing '/' never hits it.
   */
  lemma SlashedAddressMisses(dir: Directory, codec: Codec, cache: Cache, address: string)
    requires Coherent(dir, codec, cache)
    requires '/' in address
    ensures address !in cache
    ensures CachedLookup(dir, codec, cache, address).person == Resolve(dir, codec, RemoveAll(address, '/'))
  {
  }

  /** Looking the same address up twice in a row changes nothing the second time. */
  lemma CachedLookupIdempotent(dir: Directory, codec: Codec, cache: Cache, address: string)
    ensures var r := CachedLookup(dir, codec, cache, address);
      CachedLookup(dir, codec, r.cache, address) == r
  {
    var r := CachedLookup(dir, codec, cache, address);
    var key := RemoveAll(address, '/');
    if address in cache {
      assert r == Resolution(Some(cache[address]), cache);
    } else {
      match Resolve(dir, codec, key)
      case None =>
        assert r == Resolution(None, cache);
      case Some(record) =>
        assert r.cache == cache[key := record];
        if address in r.cache {
          assert address == key;
        } else {
          assert r.cache[key := record] == r.cache;
          assert CachedLookup(dir, codec, r.cache, address) == Resolution(Some(record), r.cache[key := record]);
        }
    }
  }
}
