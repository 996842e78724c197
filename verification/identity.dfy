/**
 * The identity directory (discord-bot/bot.js:103-225): a cache from lowercased names to Discord
 * ids and in-game phone numbers, rebuilt from the `op_users` collection at most every five
 * minutes, and the name lookups and display formats that read it.
 */
module Identity {
  import opened Wrappers
  import opened Text

  /** `DISCORD_ID_CACHE_TTL`: five minutes. */
  const CacheTtlMs: int := 5 * 60 * 1000

  /** The fields of an `op_users` document the cache reads; "" stands for a missing or falsy field. */
  datatype UserDoc = UserDoc(docId: string, discordId: string, icPhone: string, firstName: string, fullName: string)

  /** Which of the two caches: Discord ids or in-game phones. */
  datatype Field = DiscordIdField | IcPhoneField

  function ValueOf(u: UserDoc, f: Field): string
  {
    match f
    case DiscordIdField => u.discordId
    case IcPhoneField => u.icPhone
  }

  /** `if (name) { if (value) cache[name.toLowerCase()] = value; }` */
  function Put(m: map<string, string>, name: string, v: string): map<string, string>
  {
    if name != "" && v != "" then m[Lower(name) := v] else m
  }

  /** The first word of the full name, used as a key only when the document has no first name. */
  function FirstPartKey(u: UserDoc): string
  {
    if u.fullName != "" && u.firstName == "" then FirstWord(u.fullName) else ""
  }

  /** One pass of the `forEach` body for one document (discord-bot/bot.js:124-160). */
  function File(m: map<string, string>, u: UserDoc, f: Field): map<string, string>
  {
    var v := ValueOf(u, f);
    Put(Put(Put(Put(m, u.docId, v), u.firstName, v), u.fullName, v), FirstPartKey(u), v)
  }

  /** The lowercased names a document is filed under. */
  function NameKeys(u: UserDoc): set<string>
  {
    set name | name in {u.docId, u.firstName, u.fullName, FirstPartKey(u)} && name != "" :: Lower(name)
  }

  /** The cache rebuilt from a snapshot, documents taken in snapshot order. */
  function Index(docs: seq<UserDoc>, f: Field): map<string, string>
  {
    if docs == [] then map[] else File(Index(docs[..|docs| - 1], f), docs[|docs| - 1], f)
  }

  /** Taking one more document of the snapshot files it on top of the cache built so far. */
  lemma IndexStep(docs: seq<UserDoc>, i: int)
    requires 0 <= i < |docs|
    ensures Index(docs[..i + 1], DiscordIdField) == File(Index(docs[..i], DiscordIdField), docs[i], DiscordIdField)
    ensures Index(docs[..i + 1], IcPhoneField) == File(Index(docs[..i], IcPhoneField), docs[i], IcPhoneField)
  {
    assert docs[..i + 1][..i] == docs[..i];
  }

  /** One `Put` adds the lowercased name when both name and value are set, and nothing else. */
  lemma PutAt(m: map<string, string>, name: string, v: string, k: string)
    ensures k in Put(m, name, v) <==> k in m || (name != "" && v != "" && k == Lower(name))
    ensures name != "" && v != "" && k == Lower(name) ==> Put(m, name, v)[k] == v
    ensures !(name != "" && v != "" && k == Lower(name)) && k in m ==> Put(m, name, v)[k] == m[k]
  {
  }

  /** The name keys of a document, one name at a time. */
  lemma NameKeysAt(u: UserDoc, k: string)
    ensures k in NameKeys(u) <==>
      (u.docId != "" && k == Lower(u.docId)) || (u.firstName != "" && k == Lower(u.firstName)) ||
      (u.fullName != "" && k == Lower(u.fullName)) || (FirstPartKey(u) != "" && k == Lower(FirstPartKey(u)))
  {
    var names := {u.docId, u.firstName, u.fullName, FirstPartKey(u)};
    assert u.docId in names && u.firstName in names && u.fullName in names && FirstPartKey(u) in names;
  }

  /** Filing a document adds exactly its name keys, all pointing at its value. */
  lemma FileAt(m: map<string, string>, u: UserDoc, f: Field, k: string)
    ensures k in File(m, u, f) <==> k in m || (k in NameKeys(u) && ValueOf(u, f) != "")
    ensures k in NameKeys(u) && ValueOf(u, f) != "" ==> File(m, u, f)[k] == ValueOf(u, f)
    ensures !(k in NameKeys(u) && ValueOf(u, f) != "") && k in m ==> File(m, u, f)[k] == m[k]
  {
    var v := ValueOf(u, f);
    var m1 := Put(m, u.docId, v);
    var m2 := Put(m1, u.firstName, v);
    var m3 := Put(m2, u.fullName, v);
    PutAt(m, u.docId, v, k);
    PutAt(m1, u.firstName, v, k);
    PutAt(m2, u.fullName, v, k);
    PutAt(m3, FirstPartKey(u), v, k);
    NameKeysAt(u, k);
  }

  /** Every cached value is non-empty, so a present key is also a truthy one. */
  lemma {:induction false} IndexValuesNonEmpty(docs: seq<UserDoc>, f: Field, k: string)
    requires k in Index(docs, f)
    ensures Index(docs, f)[k] != ""
  {
    if docs != [] {
      var prefix := docs[..|docs| - 1];
      FileAt(Index(prefix, f), docs[|docs| - 1], f, k);
      if !(k in NameKeys(docs[|docs| - 1]) && ValueOf(docs[|docs| - 1], f) != "") {
        IndexValuesNonEmpty(prefix, f, k);
      }
    }
  }

  /**
   * The last document filed under a key, among those with a value, decides what the key maps to.
   */
  lemma {:induction false} IndexLastWriter(docs: seq<UserDoc>, f: Field, i: int, k: string)
    requires 0 <= i < |docs|
    requires k in NameKeys(docs[i]) && ValueOf(docs[i], f) != ""
    requires forall j :: i < j < |docs| ==> !(k in NameKeys(docs[j]) && ValueOf(docs[j], f) != "")
    ensures k in Index(docs, f) && Index(docs, f)[k] == ValueOf(docs[i], f)
  {
    var prefix := docs[..|docs| - 1];
    FileAt(Index(prefix, f), docs[|docs| - 1], f, k);
    if i < |docs| - 1 {
      IndexLastWriter(prefix, f, i, k);
    }
  }

  /** A key is cached only if some document of the snapshot is filed under it with that value. */
  lemma {:induction false} IndexSound(docs: seq<UserDoc>, f: Field, k: string)
    requires k in Index(docs, f)
    ensures exists i :: 0 <= i < |docs| && k in NameKeys(docs[i]) && ValueOf(docs[i], f) == Index(docs, f)[k]
  {
    var prefix := docs[..|docs| - 1];
    var last := docs[|docs| - 1];
    FileAt(Index(prefix, f), last, f, k);
    if k in NameKeys(last) && ValueOf(last, f) != "" {
      assert Index(docs, f)[k] == ValueOf(last, f);
      assert docs[|docs| - 1] == last;
    } else {
      assert Index(docs, f)[k] == Index(prefix, f)[k];
      IndexSound(prefix, f, k);
      var i :| 0 <= i < |prefix| && k in NameKeys(prefix[i]) && ValueOf(prefix[i], f) == Index(prefix, f)[k];
      assert docs[i] == prefix[i];
    }
  }

  /**
   * `getDiscordIdByName` and `getIcPhoneByName` (discord-bot/bot.js:171-217), each over its own
   * cache: the lowercased full name, then the lowercased first space-separated word, else null.
   */
  function LookupByName(m: map<string, string>, name: string): Option<string>
  {
    if name == "" then None
    else if Lower(name) in m && m[Lower(name)] != "" then Some(m[Lower(name)])
    else
      var first := Lower(FirstWord(name));
      if first != "" && first in m && m[first] != "" then Some(m[first]) else None
  }

  /** Lookups ignore letter case. */
  lemma LookupIgnoresCase(m: map<string, string>, name: string)
    ensures LookupByName(m, Lower(name)) == LookupByName(m, name)
  {
    FirstWordOfLower(name);
    LowerIdempotent(name);
    LowerIdempotent(FirstWord(name));
  }

  /** A name a user is filed under finds that user's value, unless a later document took the key. */
  lemma LookupFindsFiledName(docs: seq<UserDoc>, f: Field, i: int, name: string)
    requires 0 <= i < |docs| && name != ""
    requires name in {docs[i].docId, docs[i].firstName, docs[i].fullName}
    requires ValueOf(docs[i], f) != ""
    requires forall j :: i < j < |docs| ==> !(Lower(name) in NameKeys(docs[j]) && ValueOf(docs[j], f) != "")
    ensures LookupByName(Index(docs, f), name) == Some(ValueOf(docs[i], f))
  {
    assert Lower(name) in NameKeys(docs[i]);
    IndexLastWriter(docs, f, i, Lower(name));
  }

  /**
   * A full name nobody is filed under still finds the user filed under its first word
   * ("Somchai Jaidee" finds the user whose first name is "somchai").
   */
  lemma LookupFallsBackToFirstWord(docs: seq<UserDoc>, f: Field, i: int, name: string)
    requires 0 <= i < |docs| && name != ""
    requires Lower(name) !in Index(docs, f)
    requires FirstWord(name) != "" && Lower(FirstWord(name)) in NameKeys(docs[i])
    requires ValueOf(docs[i], f) != ""
    requires forall j :: i < j < |docs| ==> !(Lower(FirstWord(name)) in NameKeys(docs[j]) && ValueOf(docs[j], f) != "")
    ensures LookupByName(Index(docs, f), name) == Some(ValueOf(docs[i], f))
  {
    IndexLastWriter(docs, f, i, Lower(FirstWord(name)));
  }

  /** Both caches, as the view builders read them. */
  datatype Directory = Directory(ids: map<string, string>, phones: map<string, string>)

  /** `formatWithMention(name)` (discord-bot/bot.js:192-196). */
  function FormatWithMention(dir: Directory, name: string): string
  {
    if name == "" then ""
    else match LookupByName(dir.ids, name)
      case Some(id) => "<@" + id + ">"
      case None => name
  }

  /** A linked name becomes a mention of its id, an unlinked one stays as written, "" stays "". */
  lemma MentionOrName(dir: Directory, name: string)
    ensures name == "" ==> FormatWithMention(dir, name) == ""
    ensures LookupByName(dir.ids, name).Some? ==>
      FormatWithMention(dir, name) == "<@" + LookupByName(dir.ids, name).value + ">"
    ensures LookupByName(dir.ids, name).None? ==> FormatWithMention(dir, name) == name
  {
  }

  /** A mention does not depend on how the name is capitalised. */
  lemma MentionIgnoresCase(dir: Directory, name: string)
    requires LookupByName(dir.ids, name).Some?
    ensures FormatWithMention(dir, Lower(name)) == FormatWithMention(dir, name)
  {
    LookupIgnoresCase(dir.ids, name);
  }

  /** `formatNameWithIC(name, {useMention})` (discord-bot/bot.js:220-225). */
  function FormatNameWithIC(dir: Directory, name: string, useMention: bool): string
  {
    if name == "" then ""
    else
      var display := if useMention then FormatWithMention(dir, name) else name;
      match LookupByName(dir.phones, name)
      case Some(phone) => display + " (📞 " + phone + ")"
      case None => display
  }

  /** The phone suffix is appended to the display name exactly when a phone is found. */
  lemma PhoneSuffixOnlyWhenKnown(dir: Directory, name: string, useMention: bool)
    requires name != ""
    ensures var display := if useMention then FormatWithMention(dir, name) else name;
      var r := FormatNameWithIC(dir, name, useMention);
      |display| <= |r| && r[..|display|] == display &&
      (LookupByName(dir.phones, name).Some? <==> |r| > |display|) &&
      (LookupByName(dir.phones, name).Some? ==> r[|display|..] == " (📞 " + LookupByName(dir.phones, name).value + ")")
  {
    var display := if useMention then FormatWithMention(dir, name) else name;
    var r := FormatNameWithIC(dir, name, useMention);
    match LookupByName(dir.phones, name)
    case Some(phone) =>
      var suffix := " (📞 " + phone + ")";
      assert r == display + suffix;
      assert r[..|display|] == display && r[|display|..] == suffix;
    case None =>
      assert r == display;
  }

  /** The module-level cache state: both maps and the time of the last rebuild. */
  datatype CacheState = CacheState(dir: Directory, loadedAt: int)

  /**
   * What `loadDiscordIdCache` (discord-bot/bot.js:110-168) leaves behind. `snapshot` is the read
   * of `op_users`; None stands for a failed read, which is logged and keeps the old cache.
   */
  function Reload(s: CacheState, dbReady: bool, now: int, snapshot: Option<seq<UserDoc>>): CacheState
  {
    if !dbReady then s
    else if now - s.loadedAt < CacheTtlMs && |s.dir.ids| > 0 then s
    else match snapshot
      case None => s
      case Some(docs) => CacheState(Directory(Index(docs, DiscordIdField), Index(docs, IcPhoneField)), now)
  }

  /** A cache younger than the TTL that holds at least one Discord id is not reloaded. */
  lemma FreshCacheKept(s: CacheState, now: int, snapshot: Option<seq<UserDoc>>)
    requires now - s.loadedAt < CacheTtlMs && |s.dir.ids| > 0
    ensures Reload(s, true, now, snapshot) == s
  {
  }

  /**
   * A rebuild replaces the cache: a name no document of the new snapshot is filed under is gone,
   * whatever the old cache held.
   */
  lemma RebuildForgetsUnfiledNames(s: CacheState, now: int, docs: seq<UserDoc>, k: string)
    requires !(now - s.loadedAt < CacheTtlMs && |s.dir.ids| > 0)
    requires forall i :: 0 <= i < |docs| ==> k !in NameKeys(docs[i])
    ensures k !in Reload(s, true, now, Some(docs)).dir.ids
    ensures k !in Reload(s, true, now, Some(docs)).dir.phones
    ensures Reload(s, true, now, Some(docs)).loadedAt == now
  {
    if k in Index(docs, DiscordIdField) {
      IndexSound(docs, DiscordIdField, k);
    }
    if k in Index(docs, IcPhoneField) {
      IndexSound(docs, IcPhoneField, k);
    }
  }

  /** The module-level `discordIdCache`, `icPhoneCache` and `discordIdCacheTime`. */
  class IdentityCache {
    var discordIds: map<string, string>
    var icPhones: map<string, string>
    var loadedAt: int

    function State(): CacheState
      reads this
    {
      CacheState(Directory(discordIds, icPhones), loadedAt)
    }

    constructor ()
      ensures State() == CacheState(Directory(map[], map[]), 0)
    {
      discordIds := map[];
      icPhones := map[];
      loadedAt := 0;
    }

    /** `loadDiscordIdCache()`: rebuild both maps document by document when the cache is stale. */
    method Load(dbReady: bool, now: int, snapshot: Option<seq<UserDoc>>)
      modifies this
      ensures State() == Reload(old(State()), dbReady, now, snapshot)
    {
      if !dbReady {
        return;
      }
      if now - loadedAt < CacheTtlMs && |discordIds| > 0 {
        return;
      }
      if snapshot.None? {
        return;
      }
      var docs := snapshot.value;
      discordIds := map[];
      icPhones := map[];
      var i := 0;
      while i < |docs|
        invariant 0 <= i <= |docs|
        invariant discordIds == Index(docs[..i], DiscordIdField)
        invariant icPhones == Index(docs[..i], IcPhoneField)
      {
        var u := docs[i];
        // by document id, by first name, by full name, by the first word of the full name
        discordIds := Put(discordIds, u.docId, u.discordId);
        icPhones := Put(icPhones, u.docId, u.icPhone);
        discordIds := Put(discordIds, u.firstName, u.discordId);
        icPhones := Put(icPhones, u.firstName, u.icPhone);
        discordIds := Put(discordIds, u.fullName, u.discordId);
        icPhones := Put(icPhones, u.fullName, u.icPhone);
        var firstPart := FirstPartKey(u);
        discordIds := Put(discordIds, firstPart, u.discordId);
        icPhones := Put(icPhones, firstPart, u.icPhone);
        IndexStep(docs, i);
        i := i + 1;
      }
      assert docs[..|docs|] == docs;
      loadedAt := now;
    }
  }
}
