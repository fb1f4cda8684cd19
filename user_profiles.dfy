/**
 * User profiles (`UserManager` in `backend/core/user_manager.py`): a map from the
 * authentication id to the profile, loaded once from a JSON file and written back whole after
 * every change. The file is modelled by what it decodes to; the clock's ISO timestamp is the
 * parameter `now`.
 */
module UserProfiles {
  import opened Wrappers
  import opened Json

  datatype UserProfile = UserProfile(authId: string, email: string, displayName: string, createdAt: string)

  /** The profile file: missing, not JSON, or the JSON value it holds. */
  datatype StoredFile = Missing | Garbled | Saved(data: Json)

  /** `profile.dict()`: the four fields under their Python names. */
  function ProfileJson(p: UserProfile): Json {
    JObj(map["auth_id" := JStr(p.authId), "email" := JStr(p.email),
             "display_name" := JStr(p.displayName), "created_at" := JStr(p.createdAt)])
  }

  /**
   * `UserProfile(**record)`: a dict holding the four fields as strings; other keys are
   * ignored, anything else fails validation.
   */
  function ProfileOf(record: Json): Option<UserProfile> {
    match (GetStr(record, "auth_id"), GetStr(record, "email"), GetStr(record, "display_name"), GetStr(record, "created_at"))
    case (Some(a), Some(e), Some(d), Some(c)) => Some(UserProfile(a, e, d, c))
    case _ => None
  }

  /** A profile survives being written and read back. */
  lemma ProfileRoundTrip(p: UserProfile)
    ensures ProfileOf(ProfileJson(p)) == Some(p)
  {
    var j := ProfileJson(p);
    assert Get(j, "auth_id") == Some(JStr(p.authId));
    assert Get(j, "email") == Some(JStr(p.email)) by {
      assert "email" != "auth_id" by { assert |"email"| != |"auth_id"|; }
    }
    assert Get(j, "display_name") == Some(JStr(p.displayName)) by {
      assert "display_name" !in {"auth_id", "email", "created_at"} by {
        assert |"display_name"| == 12;
      }
    }
    assert Get(j, "created_at") == Some(JStr(p.createdAt)) by {
      assert "created_at" != "auth_id" && "created_at" != "email" by {
        assert |"created_at"| == 10;
      }
    }
  }

  /** What the file's JSON yields: every record a valid profile, or a failure. */
  function Decoded(data: Json): Option<map<string, UserProfile>> {
    if data.JObj? && forall k | k in data.fields :: ProfileOf(data.fields[k]).Some?
    then Some(map k | k in data.fields :: ProfileOf(data.fields[k]).value)
    else None
  }

  /** `_load_profiles`: a missing file gives no profiles, and so does any failure to load. */
  function Loaded(file: StoredFile): (r: map<string, UserProfile>) {
    match file
    case Saved(data) => Decoded(data).GetOr(map[])
    case _ => map[]
  }

  /** `_save_profiles`: the whole map, each profile under its key. */
  function Encoded(profiles: map<string, UserProfile>): Json {
    JObj(map k | k in profiles :: ProfileJson(profiles[k]))
  }

  /** Reading back what a save wrote gives the map that was saved. */
  lemma SaveLoadRoundTrip(profiles: map<string, UserProfile>)
    ensures Loaded(Saved(Encoded(profiles))) == profiles
  {
    var data := Encoded(profiles);
    forall k | k in data.fields
      ensures ProfileOf(data.fields[k]) == Some(profiles[k])
    {
      ProfileRoundTrip(profiles[k]);
    }
    var decoded := map k | k in data.fields :: ProfileOf(data.fields[k]).value;
    assert decoded.Keys == profiles.Keys;
    assert decoded == profiles;
  }

  /**
   * Loading is all or nothing: one record that fails validation discards the profiles read
   * before it, so the map is empty.
   */
  lemma OneBadRecordLoadsNothing(data: Json, key: string)
    requires data.JObj? && key in data.fields && ProfileOf(data.fields[key]).None?
    ensures Loaded(Saved(data)) == map[]
  {
  }

  /** The record under `key` is taken as it stands, whatever `auth_id` it carries. */
  lemma LoadedUnderFileKey(data: Json, key: string)
    requires Decoded(data).Some? && key in data.fields
    ensures key in Loaded(Saved(data)) && Loaded(Saved(data))[key] == ProfileOf(data.fields[key]).value
  {
  }

  /** The profile store, with the file it writes to. */
  class UserManager {
    var profiles: map<string, UserProfile>
    var file: StoredFile

    /** `__init__`: the profiles are those the file holds, or none. */
    constructor(file: StoredFile)
      ensures this.file == file && profiles == Loaded(file)
    {
      this.file := file;
      var loaded := map[];
      if file.Saved? {
        var records := LoadRecords(file.data);
        loaded := records.GetOr(map[]);
      }
      profiles := loaded;
    }

    /** `get_profile`: the profile stored under the id, if any. */
    function GetProfile(authId: string): (r: Option<UserProfile>)
      reads this
      ensures r.Some? <==> authId in profiles
      ensures r.Some? ==> r.value == profiles[authId]
    {
      if authId in profiles then Some(profiles[authId]) else None
    }

    /** `_save_profiles`: the file then holds exactly the map, which reads back unchanged. */
    method SaveProfiles()
      modifies this
      ensures file == Saved(Encoded(profiles)) && Loaded(file) == profiles
      ensures profiles == old(profiles)
    {
      file := Saved(Encoded(profiles));
      SaveLoadRoundTrip(profiles);
    }

    /**
     * `create_profile`: a new profile stamped `now` is stored under the id, replacing any
     * profile there; the others stay, and the map is saved.
     */
    method CreateProfile(authId: string, email: string, displayName: string, now: string) returns (p: UserProfile)
      modifies this
      ensures p == UserProfile(authId, email, displayName, now)
      ensures profiles == old(profiles)[authId := p]
      ensures GetProfile(authId) == Some(p)
      ensures forall other | other != authId :: GetProfile(other) == old(GetProfile(other))
      ensures file == Saved(Encoded(profiles)) && Loaded(file) == profiles
    {
      p := UserProfile(authId, email, displayName, now);
      profiles := profiles[authId := p];
      SaveProfiles();
    }

    /**
     * `update_profile`: only the display name of an existing profile changes, and the map is
     * saved; an unknown id gives `None` and changes nothing, the file included.
     */
    method UpdateProfile(authId: string, displayName: string) returns (r: Option<UserProfile>)
      modifies this
      ensures if authId in old(profiles) then
          r == Some(old(profiles)[authId].(displayName := displayName)) &&
          profiles == old(profiles)[authId := r.value] &&
          file == Saved(Encoded(profiles)) && Loaded(file) == profiles
        else r == None && profiles == old(profiles) && file == old(file)
    {
      if authId in profiles {
        var updated := profiles[authId].(displayName := displayName);
        profiles := profiles[authId := updated];
        SaveProfiles();
        return Some(updated);
      }
      return None;
    }
  }

  /**
   * The record loop of `_load_profiles`: each record in turn becomes a profile under its key;
   * the first one that fails validation abandons the load.
   */
  method LoadRecords(data: Json) returns (r: Option<map<string, UserProfile>>)
    ensures r == Decoded(data)
  {
    if !data.JObj? {
      return None;
    }
    var records := data.fields;
    var loaded: map<string, UserProfile> := map[];
    var remaining := records.Keys;
    while remaining != {}
      invariant remaining <= records.Keys
      invariant loaded.Keys == records.Keys - remaining
      invariant forall k | k in loaded :: ProfileOf(records[k]) == Some(loaded[k])
      decreases remaining
    {
      var k :| k in remaining;
      var profile := ProfileOf(records[k]);
      if profile.None? {
        return None;
      }
      loaded := loaded[k := profile.value];
      remaining := remaining - {k};
    }
    assert forall k | k in records :: ProfileOf(records[k]).Some? by {
      forall k | k in records ensures ProfileOf(records[k]).Some? {
        assert k in loaded;
      }
    }
    assert loaded == map k | k in records :: ProfileOf(records[k]).value;
    return Some(loaded);
  }
}
