/**
 * Long-term memory (`MimirMemory` in `backend/core/memory.py`): one vector store per user,
 * kept in a directory named after the sanitised user id. The vector database is modelled by
 * what it holds: `disk` maps each store directory to its documents in the order they were
 * added, and a similarity search is the list of page contents it returned, in result order.
 */
module Memory {
  import opened Wrappers
  import opened Text
  import opened Json
  import DailyJournal

  const BaseDir: string := "mimir_memory_db"
  const LegacyUser: string := "Matt Burchett"

  /** The directory of a user's store: the same sanitised id the journal uses. */
  function PersistDir(userId: string): string {
    BaseDir + "/" + DailyJournal.SafeId(userId)
  }

  /** Two user ids that differ only in characters the sanitiser drops share one directory. */
  lemma SharedStoreDirectory(userId: string, dropped: string)
    requires forall i | 0 <= i < |dropped| :: !DailyJournal.IdChar(dropped[i])
    ensures PersistDir(userId + dropped) == PersistDir(userId)
  {
    KeepAppend(userId, dropped);
    KeepNone(dropped);
    assert DailyJournal.KeepIdChars(userId) + [] == DailyJournal.KeepIdChars(userId);
  }

  lemma {:induction false} KeepNone(s: string)
    requires forall i | 0 <= i < |s| :: !DailyJournal.IdChar(s[i])
    ensures DailyJournal.KeepIdChars(s) == []
  {
    if s != [] {
      assert forall i | 0 <= i < |s| - 1 :: s[1..][i] == s[i + 1];
      KeepNone(s[1..]);
    }
  }

  lemma {:induction false} KeepAppend(a: string, b: string)
    ensures DailyJournal.KeepIdChars(a + b) == DailyJournal.KeepIdChars(a) + DailyJournal.KeepIdChars(b)
  {
    if a != [] {
      assert (a + b)[1..] == a[1..] + b;
      KeepAppend(a[1..], b);
    } else {
      assert a + b == b;
    }
  }

  /** A directory inside the base directory, where every store `get_vector_store` opens lives. */
  predicate UnderBase(dir: string) {
    StartsWith(dir, BaseDir + "/")
  }

  /**
   * Whether the user's directory exists. The base directory always does (the memory creates
   * it), and a user id that sanitises to "" names the base directory itself, since joining the
   * base with an empty name gives the base again.
   */
  predicate DirExists(disk: map<string, seq<Document>>, userId: string) {
    DailyJournal.SafeId(userId) == "" || PersistDir(userId) in disk
  }

  /**
   * The disk after `shutil.rmtree` of the user's directory: that directory alone, or every store
   * under the base directory when the sanitised id is empty.
   */
  function Wipe(disk: map<string, seq<Document>>, userId: string): (r: map<string, seq<Document>>)
    ensures r.Keys <= disk.Keys
    ensures forall d | d in r :: r[d] == disk[d]
    ensures PersistDir(userId) !in r
  {
    if DailyJournal.SafeId(userId) == "" then
      assert UnderBase(PersistDir(userId)) by {
        assert PersistDir(userId)[..|BaseDir + "/"|] == BaseDir + "/";
      }
      map d | d in disk && !UnderBase(d) :: disk[d]
    else disk - {PersistDir(userId)}
  }

  /**
   * Deleting a user whose id keeps no letter, digit, space, '_' or '-' (or only spaces) removes
   * every user's store, not just one.
   */
  lemma EmptyIdWipesAll(disk: map<string, seq<Document>>, userId: string, other: string)
    requires DailyJournal.SafeId(userId) == ""
    ensures DirExists(disk, userId)
    ensures PersistDir(other) !in Wipe(disk, userId)
  {
    assert PersistDir(other)[..|BaseDir + "/"|] == BaseDir + "/";
  }

  /** With a non-empty sanitised id, every other directory stays as it was. */
  lemma WipeKeepsOthers(disk: map<string, seq<Document>>, userId: string, dir: string)
    requires DailyJournal.SafeId(userId) != "" && dir in disk && dir != PersistDir(userId)
    ensures dir in Wipe(disk, userId) && Wipe(disk, userId)[dir] == disk[dir]
  {
  }

  datatype Document = Document(content: string, metadata: map<string, Json>)

  /**
   * An open store: the user id it was opened for, whose directory it lives in, and which
   * opening of a store it was.
   */
  datatype Handle = Handle(owner: string, serial: nat)

  // ---------------------------------------------------------------------------------------
  // Recall
  // ---------------------------------------------------------------------------------------

  /** Room left for the cut document must exceed this many characters. */
  const CutMinimum: int := 100

  function Total(docs: seq<string>): nat {
    if docs == [] then 0 else |docs[0]| + Total(docs[1..])
  }

  /**
   * The parts `recall` joins, given the room left: whole documents while they fit; the first
   * one that does not fit is cut to the room and marked with "...", if more than 100
   * characters of room are left, and the scan stops there.
   */
  function Parts(docs: seq<string>, room: int): seq<string> {
    if docs == [] then []
    else if |docs[0]| > room then
      (if room > CutMinimum then [docs[0][..room] + "..."] else [])
    else [docs[0]] + Parts(docs[1..], room - |docs[0]|)
  }

  /** How many documents are kept whole. */
  function Taken(docs: seq<string>, room: int): (n: nat)
    ensures n <= |docs|
  {
    if docs == [] || |docs[0]| > room then 0 else 1 + Taken(docs[1..], room - |docs[0]|)
  }

  /** The cut piece that follows the whole documents, if there is one. */
  function CutAfter(docs: seq<string>, n: nat, room: int): seq<string>
    requires n <= |docs|
  {
    if n < |docs| && room - Total(docs[..n]) > CutMinimum && room - Total(docs[..n]) < |docs[n]|
    then [docs[n][..room - Total(docs[..n])] + "..."]
    else []
  }

  /**
   * What `recall` keeps: the first `n` documents whole, which together fit the limit; the
   * next one is the first that would overflow it; after them at most one cut piece of
   * exactly the room left plus "...".
   */
  lemma {:induction false} PartsShape(docs: seq<string>, room: int)
    ensures var n := Taken(docs, room);
      (n > 0 ==> Total(docs[..n]) <= room) &&
      (n < |docs| ==> Total(docs[..n]) + |docs[n]| > room) &&
      Parts(docs, room) == docs[..n] + CutAfter(docs, n, room)
  {
    if docs != [] && |docs[0]| <= room {
      var rest := docs[1..];
      var room' := room - |docs[0]|;
      PartsShape(rest, room');
      var n := Taken(docs, room);
      var m := Taken(rest, room');
      assert n == m + 1;
      assert docs[..n][1..] == rest[..m];
      assert Total(docs[..n]) == |docs[0]| + Total(rest[..m]);
      if m < |rest| {
        assert docs[n] == rest[m];
      }
      assert docs[..n] == [docs[0]] + rest[..m];
      assert CutAfter(docs, n, room) == CutAfter(rest, m, room');
    } else if docs != [] {
      assert docs[..0] == [];
    }
  }

  /** The whole documents recalled never exceed the limit. */
  lemma WholeWithinLimit(docs: seq<string>, maxChars: int)
    requires Taken(docs, maxChars) > 0
    ensures Total(docs[..Taken(docs, maxChars)]) <= maxChars
  {
    PartsShape(docs, maxChars);
  }

  /** Nothing found, nothing recalled. */
  lemma NothingFound(maxChars: int)
    ensures Join(Parts([], maxChars), "\n") == ""
  {
  }

  // ---------------------------------------------------------------------------------------
  // The memory
  // ---------------------------------------------------------------------------------------

  /** The memory: the store cache by raw user id, how many stores were opened, and the disk. */
  class MimirMemory {
    var stores: map<string, Handle>
    var openings: nat
    var disk: map<string, seq<Document>>

    /** Every cached store was opened for its user, and no two share an opening. */
    predicate Valid()
      reads this
    {
      (forall u | u in stores :: stores[u].owner == u && stores[u].serial < openings) &&
      (forall u, v | u in stores && v in stores && u != v :: stores[u].serial != stores[v].serial)
    }

    constructor(disk: map<string, seq<Document>>)
      ensures Valid() && stores == map[] && openings == 0 && this.disk == disk
    {
      stores := map[];
      openings := 0;
      this.disk := disk;
    }

    /**
     * `get_vector_store`: the cached store of the user, or a new one in the user's directory,
     * which is cached; at most one store per user id is open at a time.
     */
    method GetVectorStore(userId: string) returns (h: Handle)
      requires Valid()
      modifies this
      ensures Valid() && userId in stores && h == stores[userId] && h.owner == userId
      ensures userId in old(stores) ==> h == old(stores)[userId] && stores == old(stores) && openings == old(openings)
      ensures userId !in old(stores) ==>
        h == Handle(userId, old(openings)) && stores == old(stores)[userId := h] && openings == old(openings) + 1
      ensures disk == old(disk)
    {
      if userId !in stores {
        h := Handle(userId, openings);
        stores := stores[userId := h];
        openings := openings + 1;
      }
      h := stores[userId];
    }

    /**
     * `remember`: one document is added to the user's store, with the caller's metadata and
     * "user_id" set to this user whatever the caller passed.
     */
    method Remember(text: string, userId: string, metadata: Option<map<string, Json>>)
      requires Valid()
      modifies this
      ensures Valid() && userId in stores
      ensures var dir := PersistDir(userId);
        var doc := Document(text, metadata.GetOr(map[])["user_id" := JStr(userId)]);
        disk == old(disk)[dir := (if dir in old(disk) then old(disk)[dir] else []) + [doc]]
      ensures userId in old(stores) ==> stores == old(stores)
    {
      var meta := if metadata.Some? then metadata.value else map[];
      meta := meta["user_id" := JStr(userId)];
      var doc := Document(text, meta);
      assert doc == Document(text, metadata.GetOr(map[])["user_id" := JStr(userId)]);
      var store := GetVectorStore(userId);
      var dir := PersistDir(store.owner);
      assert dir == PersistDir(userId) && disk == old(disk);
      var docs := if dir in disk then disk[dir] else [];
      disk := disk[dir := docs + [doc]];
    }

    /**
     * `recall`: the contents the search returned, in result order, whole while they fit the
     * limit and then at most one cut piece, joined with newlines; "" when nothing was found.
     */
    method Recall(userId: string, results: seq<string>, maxChars: int) returns (r: string)
      requires Valid()
      modifies this
      ensures Valid() && userId in stores && disk == old(disk)
      ensures r == Join(Parts(results, maxChars), "\n")
    {
      var store := GetVectorStore(userId);
      if results == [] {
        return "";
      }
      var contextParts := [];
      var totalChars := 0;
      var i := 0;
      while i < |results|
        invariant 0 <= i <= |results|
        invariant contextParts + Parts(results[i..], maxChars - totalChars) == Parts(results, maxChars)
      {
        var content := results[i];
        if totalChars + |content| > maxChars {
          var remaining := maxChars - totalChars;
          if remaining > CutMinimum {
            contextParts := contextParts + [content[..remaining] + "..."];
          }
          assert contextParts == Parts(results, maxChars);
          break;
        }
        assert results[i..][1..] == results[i + 1..];
        contextParts := contextParts + [content];
        totalChars := totalChars + |content|;
        i := i + 1;
      }
      assert i == |results| ==> results[i..] == [];
      assert contextParts == Parts(results, maxChars);
      return Join(contextParts, "\n");
    }

    /**
     * `delete_memory`: the legacy user is refused and nothing changes; any other user's cached
     * store is dropped and the directory, when it exists, removed, which fails only when
     * removal raises.
     */
    method DeleteMemory(userId: string, removalFails: bool) returns (ok: bool)
      requires Valid()
      modifies this
      ensures Valid()
      ensures ok <==> userId != LegacyUser && !(DirExists(old(disk), userId) && removalFails)
      ensures stores == if userId == LegacyUser then old(stores) else old(stores) - {userId}
      ensures disk == if userId != LegacyUser && DirExists(old(disk), userId) && !removalFails
                      then Wipe(old(disk), userId) else old(disk)
      ensures openings == old(openings)
    {
      if userId == LegacyUser {
        return false;
      }
      var dir := PersistDir(userId);
      if userId in stores {
        stores := stores - {userId};
      }
      if DailyJournal.SafeId(userId) == "" || dir in disk {
        if removalFails {
          return false;
        }
        disk := Wipe(disk, userId);
        return true;
      }
      return true;
    }
  }

  /**
   * The legacy guard compares the raw id while the directory comes from the sanitised one, so
   * deleting the legacy id with, say, "!" appended passes the guard and removes the legacy
   * user's store.
   */
  lemma LegacyGuardBypassed(disk: map<string, seq<Document>>, dropped: string)
    requires dropped != [] && forall i | 0 <= i < |dropped| :: !DailyJournal.IdChar(dropped[i])
    requires PersistDir(LegacyUser) in disk
    ensures LegacyUser + dropped != LegacyUser
    ensures PersistDir(LegacyUser + dropped) in disk
    ensures PersistDir(LegacyUser) !in disk - {PersistDir(LegacyUser + dropped)}
  {
    SharedStoreDirectory(LegacyUser, dropped);
    assert |LegacyUser + dropped| > |LegacyUser|;
  }
}
