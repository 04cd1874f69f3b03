/**
 * `logic/user_profiles.py`: named user profiles kept in one JSON file.
 * The file is the `file` field of a `ProfileStore`: `None` when it does not
 * exist, otherwise the dictionary it holds.  Every operation loads the whole
 * dictionary; the writing ones save it back.
 */
module UserProfiles {
  import opened Common

  /** A JSON value as `json.load` returns it. */
  datatype Json =
    | JNull
    | JBool(b: bool)
    | JInt(i: int)       // a number without fraction or exponent
    | JFloat(f: real)    // any other number, such as 75.5
    | JString(s: string)
    | JArray(items: seq<Json>)
    | JObject(fields: map<string, Json>)

  type Profiles = map<string, Json>

  /** `{}`, what `get_profile` answers for an unknown name. */
  const EmptyProfile := JObject(map[])

  class ProfileStore {
    /** The contents of `data/user_profiles.json`, or `None` when the file is missing. */
    var file: Option<Profiles>

    constructor (initial: Option<Profiles>)
      ensures file == initial
    {
      file := initial;
    }

    /** `load_profiles`: a missing file loads as the empty dictionary. */
    function LoadProfiles(): (r: Profiles)
      reads this
      ensures file.None? ==> r == map[]
      ensures file.Some? ==> r == file.value
    {
      match file
      case None => map[]
      case Some(p) => p
    }

    /** `save_profiles`: the file now exists and holds `profiles`. */
    method SaveProfiles(profiles: Profiles)
      modifies this
      ensures file == Some(profiles)
    {
      file := Some(profiles);
    }

    /** `get_profile`: the stored profile, or `{}` for a name that is not there. */
    function GetProfile(name: string): (r: Json)
      reads this
      ensures name in LoadProfiles() ==> r == LoadProfiles()[name]
      ensures name !in LoadProfiles() ==> r == EmptyProfile
    {
      var profiles := LoadProfiles();
      if name in profiles then profiles[name] else EmptyProfile
    }

    /** `get_profile_names`: every stored name exactly once (the order of a dictionary's keys is not modelled). */
    method GetProfileNames() returns (names: seq<string>)
      ensures forall n :: n in names <==> n in LoadProfiles()
      ensures forall i, j :: 0 <= i < j < |names| ==> names[i] != names[j]
      ensures |names| == |LoadProfiles()|
    {
      var keys := LoadProfiles().Keys;
      var remaining := keys;
      names := [];
      while remaining != {}
        invariant remaining <= keys
        invariant forall n :: n in names <==> n in keys && n !in remaining
        invariant forall i, j :: 0 <= i < j < |names| ==> names[i] != names[j]
        invariant |names| + |remaining| == |keys|
        decreases |remaining|
      {
        var n :| n in remaining;
        names := names + [n];
        remaining := remaining - {n};
      }
    }

    /** `update_profile`: the name now maps to `data`; every other profile is as it was. */
    method UpdateProfile(name: string, data: Json)
      modifies this
      ensures file == Some(old(LoadProfiles())[name := data])
      ensures GetProfile(name) == data
      ensures forall n :: n != name ==> (n in LoadProfiles() <==> n in old(LoadProfiles()))
      ensures forall n :: n != name ==> GetProfile(n) == old(GetProfile(n))
    {
      var profiles := LoadProfiles();
      profiles := profiles[name := data];
      SaveProfiles(profiles);
    }

    /**
     * `delete_profile`: a stored name is removed and the rest saved back; for a
     * name that is not stored nothing is saved, so a missing file stays missing.
     */
    method DeleteProfile(name: string)
      modifies this
      ensures name in old(LoadProfiles()) ==> file == Some(old(LoadProfiles()) - {name})
      ensures name !in old(LoadProfiles()) ==> file == old(file)
      ensures name !in LoadProfiles() && GetProfile(name) == EmptyProfile
      ensures forall n :: n != name ==> (n in LoadProfiles() <==> n in old(LoadProfiles()))
      ensures forall n :: n != name ==> GetProfile(n) == old(GetProfile(n))
    {
      var profiles := LoadProfiles();
      if name in profiles {
        profiles := profiles - {name};
        SaveProfiles(profiles);
      }
    }
  }
}
