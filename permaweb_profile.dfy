/**
 * The profile component's in-browser stand-in for its AO process: a table
 * of profiles keyed by wallet address, with a `create_profile` handler and
 * two read handlers, `get_profile` (by profile id) and
 * `get_profile_by_address`.
 */
module PermawebProfile {
  import opened Wrappers
  import Assoc
  import S = JsString

  datatype Profile = Profile(
    id: string,
    username: string,
    displayName: string,
    description: string,
    thumbnail: string,
    banner: string,
    owner: string,
    createdAt: int)

  /** Wallet address to profile, in the order the addresses were first stored. */
  type Profiles = seq<(string, Profile)>

  /** The handler arguments that are read; `None` is a field that is `undefined`. */
  datatype Args = Args(
    username: Option<string>,
    displayName: Option<string>,
    description: Option<string>,
    thumbnail: Option<string>,
    banner: Option<string>,
    profileId: Option<string>,
    address: Option<string>)

  /** What a handler returns when it succeeds. */
  datatype Reply = Saved(profileId: string) | Found(profile: Profile)

  type Outcome = Result<Reply, string>

  const MustBeAuthenticated := "Must be authenticated"
  const NamesRequired := "Username and displayName are required"
  const IdRequired := "Profile ID is required"
  const ProfileNotFound := "Profile not found"
  const AddressRequired := "Wallet address is required"
  const NoProfileForAddress := "No profile found for this address"
  const IdPrefix := "profile_"

  function UnknownHandler(handler: string): string
  {
    "Unknown handler: " + handler
  }

  /** `!x` for an optional string: absent or empty. */
  predicate Missing(x: Option<string>)
  {
    x.None? || x.value == ""
  }

  /** `x || ""`. */
  function OrEmpty(x: Option<string>): (r: string)
    ensures Missing(x) ==> r == ""
    ensures !Missing(x) ==> r == x.value
  {
    if x.Some? then x.value else ""
  }

  /** `profile_${caller.substring(0, 8)}`. */
  function ProfileId(caller: string): string
  {
    IdPrefix + S.Substring(caller, 0, 8)
  }

  /** The profile `create_profile` builds for `caller` at time `now`. */
  function NewProfile(args: Args, caller: string, now: int): Profile
    requires !Missing(args.username) && !Missing(args.displayName)
  {
    Profile(ProfileId(caller), args.username.value, args.displayName.value,
            OrEmpty(args.description), OrEmpty(args.thumbnail), OrEmpty(args.banner), caller, now)
  }

  /** The `create_profile` handler: its reply and the new table. */
  function CreateProfile(profiles: Profiles, args: Args, caller: string, now: int): (Outcome, Profiles)
  {
    if caller == "" then (Err(MustBeAuthenticated), profiles)
    else if Missing(args.username) || Missing(args.displayName) then (Err(NamesRequired), profiles)
    else
      var p := NewProfile(args, caller, now);
      (Ok(Saved(p.id)), Assoc.Put(profiles, caller, p))
  }

  /** The last of `ps` whose id is `id`: what the `forEach` over the profiles leaves in `foundProfile`. */
  function LastWithId(ps: seq<Profile>, id: string): Option<Profile>
  {
    if ps == [] then None
    else if ps[|ps| - 1].id == id then Some(ps[|ps| - 1])
    else LastWithId(ps[..|ps| - 1], id)
  }

  /** The `get_profile` handler. */
  function GetProfile(profiles: Profiles, args: Args): Outcome
  {
    if Missing(args.profileId) then Err(IdRequired)
    else
      var found := LastWithId(Assoc.Values(profiles), args.profileId.value);
      if found.Some? then Ok(Found(found.value)) else Err(ProfileNotFound)
  }

  /** The `get_profile_by_address` handler. */
  function GetProfileByAddress(profiles: Profiles, args: Args): Outcome
  {
    if Missing(args.address) then Err(AddressRequired)
    else
      var stored := Assoc.Get(profiles, args.address.value);
      if stored.Some? then Ok(Found(stored.value)) else Err(NoProfileForAddress)
  }

  /** `simulateLuaExecution(handler, args, caller)` at time `now`: the reply and the new table. */
  function Execute(profiles: Profiles, handler: string, args: Args, caller: string, now: int): (Outcome, Profiles)
  {
    if handler == "create_profile" then CreateProfile(profiles, args, caller, now)
    else if handler == "get_profile" then (GetProfile(profiles, args), profiles)
    else if handler == "get_profile_by_address" then (GetProfileByAddress(profiles, args), profiles)
    else (Err(UnknownHandler(handler)), profiles)
  }

  // ---------------------------------------------------------------- what the handlers promise

  /**
   * `create_profile` fails without a caller, then without a username or
   * display name, in that order, and a failure leaves the table alone.
   */
  lemma CreateErrors(profiles: Profiles, args: Args, caller: string, now: int)
    ensures var (r, next) := CreateProfile(profiles, args, caller, now);
      (caller == "" ==> r == Err(MustBeAuthenticated))
      && (caller != "" && (Missing(args.username) || Missing(args.displayName)) ==> r == Err(NamesRequired))
      && (r.Err? ==> next == profiles)
      && (r.Ok? <==> caller != "" && !Missing(args.username) && !Missing(args.displayName))
  {
  }

  /**
   * A successful `create_profile` stores under the caller's address, replacing
   * any earlier profile there, a profile owned by the caller whose id is
   * "profile_" and the first eight characters of the address, with empty
   * description, thumbnail and banner when those are not given; it replies
   * with that id and leaves every other address alone.
   */
  lemma CreateStores(profiles: Profiles, args: Args, caller: string, now: int)
    requires caller != "" && !Missing(args.username) && !Missing(args.displayName)
    ensures var (r, next) := CreateProfile(profiles, args, caller, now);
      var p := Assoc.Get(next, caller).value;
      Assoc.Get(next, caller).Some?
      && p.owner == caller && p.createdAt == now
      && p.id == IdPrefix + caller[..if |caller| < 8 then |caller| else 8]
      && p.username == args.username.value && p.displayName == args.displayName.value
      && p.description == OrEmpty(args.description)
      && p.thumbnail == OrEmpty(args.thumbnail) && p.banner == OrEmpty(args.banner)
      && r == Ok(Saved(p.id))
      && (forall a :: a != caller ==> Assoc.Get(next, a) == Assoc.Get(profiles, a))
  {
  }

  /** A create keeps the addresses distinct. */
  lemma CreateUnique(profiles: Profiles, args: Args, caller: string, now: int)
    requires Assoc.UniqueKeys(profiles)
    ensures Assoc.UniqueKeys(CreateProfile(profiles, args, caller, now).1)
  {
    if caller != "" && !Missing(args.username) && !Missing(args.displayName) {
      Assoc.PutUnique(profiles, caller, NewProfile(args, caller, now));
    }
  }

  /**
   * The profile found by id is the last one in table order with that id,
   * and there is none exactly when no profile has it.
   */
  lemma {:induction false} LastWithIdSpec(ps: seq<Profile>, id: string)
    ensures LastWithId(ps, id).None? <==> forall k :: 0 <= k < |ps| ==> ps[k].id != id
    ensures LastWithId(ps, id).Some? ==>
      exists k :: 0 <= k < |ps| && ps[k] == LastWithId(ps, id).value && ps[k].id == id
                  && forall l :: k < l < |ps| ==> ps[l].id != id
  {
    if ps != [] && ps[|ps| - 1].id != id {
      var init := ps[..|ps| - 1];
      LastWithIdSpec(init, id);
      var r := LastWithId(ps, id);
      if r.Some? {
        var k :| 0 <= k < |init| && init[k] == r.value && init[k].id == id
                 && forall l :: k < l < |init| ==> init[l].id != id;
        assert ps[k] == r.value;
      }
    } else if ps != [] {
      assert ps[|ps| - 1] == LastWithId(ps, id).value;
    }
  }

  /**
   * `get_profile` needs an id, replies with a profile carrying that id, the
   * last such in table order, and fails with 'Profile not found' exactly
   * when no profile carries it.
   */
  lemma GetProfileSpec(profiles: Profiles, args: Args)
    ensures var r := GetProfile(profiles, args);
      (Missing(args.profileId) <==> r == Err(IdRequired))
      && (!Missing(args.profileId) ==>
            (r == Err(ProfileNotFound) <==> forall k :: 0 <= k < |profiles| ==> profiles[k].1.id != args.profileId.value))
      && (r.Ok? ==>
            r.value.Found? && r.value.profile.id == args.profileId.value
            && exists k :: 0 <= k < |profiles| && profiles[k].1 == r.value.profile
                        && forall l :: k < l < |profiles| ==> profiles[l].1.id != args.profileId.value)
  {
    if !Missing(args.profileId) {
      var vs := Assoc.Values(profiles);
      LastWithIdSpec(vs, args.profileId.value);
    }
  }

  /** `get_profile_by_address` needs an address and replies with what is stored under it. */
  lemma GetByAddressSpec(profiles: Profiles, args: Args)
    ensures var r := GetProfileByAddress(profiles, args);
      (Missing(args.address) <==> r == Err(AddressRequired))
      && (!Missing(args.address) ==>
            (r == Err(NoProfileForAddress) <==> args.address.value !in Assoc.Keys(profiles))
            && (r.Ok? ==> Assoc.Get(profiles, args.address.value) == Some(r.value.profile)))
  {
  }

  /** Only `create_profile` changes the table; an unknown handler is an error naming it. */
  lemma ExecuteReads(profiles: Profiles, handler: string, args: Args, caller: string, now: int)
    requires handler != "create_profile"
    ensures Execute(profiles, handler, args, caller, now).1 == profiles
    ensures handler != "get_profile" && handler != "get_profile_by_address" ==>
      Execute(profiles, handler, args, caller, now).0 == Err(UnknownHandler(handler))
  {
  }

  /** Creating a profile for a new address and then asking for its id finds the new profile. */
  lemma CreateThenGetById(profiles: Profiles, args: Args, caller: string, now: int, readArgs: Args)
    requires caller != "" && !Missing(args.username) && !Missing(args.displayName)
    requires caller !in Assoc.Keys(profiles)
    requires readArgs.profileId == Some(ProfileId(caller))
    ensures GetProfile(CreateProfile(profiles, args, caller, now).1, readArgs)
         == Ok(Found(NewProfile(args, caller, now)))
  {
    var p := NewProfile(args, caller, now);
    Assoc.PutNew(profiles, caller, p);
    LastIsFound(profiles + [(caller, p)], readArgs);
  }

  /** `get_profile` for the id of the last profile in the table finds that profile. */
  lemma LastIsFound(profiles: Profiles, readArgs: Args)
    requires profiles != [] && readArgs.profileId == Some(profiles[|profiles| - 1].1.id)
    requires profiles[|profiles| - 1].1.id != ""
    ensures GetProfile(profiles, readArgs) == Ok(Found(profiles[|profiles| - 1].1))
  {
    var vs := Assoc.Values(profiles);
    assert vs[|vs| - 1] == profiles[|profiles| - 1].1;
  }

  /** The dry run's caller 'BOB_WALLET_ADDRESS' gets the id 'profile_BOB_WALL'. */
  lemma DryRunBobId()
    ensures ProfileId("BOB_WALLET_ADDRESS") == "profile_BOB_WALL"
  {
    assert S.Substring("BOB_WALLET_ADDRESS", 0, 8) == "BOB_WALLET_ADDRESS"[0..8];
  }

  /** The dry run's create with only a description fails and stores nothing. */
  lemma DryRunMissingFields(profiles: Profiles, description: string, now: int)
    ensures Execute(profiles, "create_profile", Args(None, None, Some(description), None, None, None, None),
                    "MISSING_FIELDS_TEST", now)
         == (Err(NamesRequired), profiles)
  {
  }

  // ---------------------------------------------------------------- the component

  /** The profile component in simulation mode. */
  class Simulator {
    var simulatedProfiles: Profiles

    constructor()
      ensures simulatedProfiles == []
    {
      simulatedProfiles := [];
    }

    /** The `forEach` over `Object.values(simulatedProfiles)` that remembers the last profile with the id. */
    method FindProfile(profileId: string) returns (foundProfile: Option<Profile>)
      ensures foundProfile == LastWithId(Assoc.Values(simulatedProfiles), profileId)
    {
      var values := Assoc.Values(simulatedProfiles);
      foundProfile := None;
      var i := 0;
      while i < |values|
        invariant i <= |values|
        invariant foundProfile == LastWithId(values[..i], profileId)
      {
        assert values[..i + 1][..i] == values[..i];
        if values[i].id == profileId {
          foundProfile := Some(values[i]);
        }
        i := i + 1;
      }
      assert values[..i] == values;
    }

    /** `simulateLuaExecution`: a create assigns into a copy of the table and stores the copy. */
    method SimulateLuaExecution(handler: string, args: Args, caller: string, now: int) returns (r: Outcome)
      modifies this
      ensures (r, simulatedProfiles) == Execute(old(simulatedProfiles), handler, args, caller, now)
    {
      if handler == "create_profile" {
        if caller == "" {
          r := Err(MustBeAuthenticated);
        } else if Missing(args.username) || Missing(args.displayName) {
          r := Err(NamesRequired);
        } else {
          var newProfile := Profile(IdPrefix + S.Substring(caller, 0, 8), args.username.value,
                                    args.displayName.value, OrEmpty(args.description),
                                    OrEmpty(args.thumbnail), OrEmpty(args.banner), caller, now);
          var updatedProfiles := simulatedProfiles;
          updatedProfiles := Assoc.Put(updatedProfiles, caller, newProfile);
          simulatedProfiles := updatedProfiles;
          r := Ok(Saved(newProfile.id));
        }
      } else if handler == "get_profile" {
        if Missing(args.profileId) {
          r := Err(IdRequired);
        } else {
          var foundProfile := FindProfile(args.profileId.value);
          if foundProfile.Some? {
            r := Ok(Found(foundProfile.value));
          } else {
            r := Err(ProfileNotFound);
          }
        }
      } else if handler == "get_profile_by_address" {
        if Missing(args.address) {
          r := Err(AddressRequired);
        } else {
          var stored := Assoc.Get(simulatedProfiles, args.address.value);
          if stored.Some? {
            r := Ok(Found(stored.value));
          } else {
            r := Err(NoProfileForAddress);
          }
        }
      } else {
        r := Err(UnknownHandler(handler));
      }
    }
  }
}
