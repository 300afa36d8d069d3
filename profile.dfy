/**
 * The profile screen's state: the three edited fields, whether the profile is
 * the mandatory first-launch setup, the user row last emitted by the database,
 * the "first launch complete" preference, the rows written to the database and
 * the navigate-home events sent.
 *
 * Each coroutine runs as one atomic step; the preference read at start-up and
 * the database's emissions are inputs.
 */
module Profile {
  import opened Wrappers
  import opened Strings
  import opened Entities

  /** The user `saveProfile` writes: the trimmed fields, on the existing row (keeping its id) or on a new one. */
  function ProfileUser(existing: Option<User>, name: string, address: string, vehicleNumber: string): (u: User)
  {
    var id := if existing.Some? then existing.value.id else DefaultUserId;
    User(id, Trim(name), Trim(address), Trim(vehicleNumber))
  }

  /**
   * Whether `saveProfile` writes `u`: some field is non-empty, or there is no
   * row yet. It skips the write exactly when a row exists and all three typed
   * fields are blank.
   */
  predicate ShouldWrite(existing: Option<User>, u: User)
  {
    u.name != "" || u.address != "" || u.vehicleNumber != "" || existing.None?
  }

  lemma SkipsOnlyBlankEdits(existing: Option<User>, name: string, address: string, vehicleNumber: string)
    ensures !ShouldWrite(existing, ProfileUser(existing, name, address, vehicleNumber))
        <==> existing.Some? && AllWhitespace(name) && AllWhitespace(address) && AllWhitespace(vehicleNumber)
  {
    TrimBlank(name);
    TrimBlank(address);
    TrimBlank(vehicleNumber);
  }

  /**
   * The saved profile keeps the existing row's id (or takes the default one),
   * and its fields are the typed ones without surrounding whitespace.
   */
  lemma SavedProfile(existing: Option<User>, name: string, address: string, vehicleNumber: string)
    ensures var u := ProfileUser(existing, name, address, vehicleNumber);
      && u.id == (if existing.Some? then existing.value.id else DefaultUserId)
      && u.name == Trim(name) && u.address == Trim(address) && u.vehicleNumber == Trim(vehicleNumber)
      && (u.name != [] ==> !IsWhitespace(u.name[0]) && !IsWhitespace(u.name[|u.name| - 1]))
      && (u.address != [] ==> !IsWhitespace(u.address[0]) && !IsWhitespace(u.address[|u.address| - 1]))
      && (u.vehicleNumber != [] ==> !IsWhitespace(u.vehicleNumber[0]) && !IsWhitespace(u.vehicleNumber[|u.vehicleNumber| - 1]))
  {
    TrimIsSlice(name);
    TrimIsSlice(address);
    TrimIsSlice(vehicleNumber);
  }

  /**
   * Saving again, once the written row has been emitted back into the fields,
   * writes the same row: saving is idempotent.
   */
  lemma SaveIdempotent(existing: Option<User>, name: string, address: string, vehicleNumber: string)
    ensures var u := ProfileUser(existing, name, address, vehicleNumber);
      ProfileUser(Some(u), u.name, u.address, u.vehicleNumber) == u
  {
    TrimIdempotent(name);
    TrimIdempotent(address);
    TrimIdempotent(vehicleNumber);
  }

  /** The row `skipProfile` writes when there is none. */
  const EmptyUser := User(DefaultUserId, "", "", "")

  /** Every observable part of the view-model, and the effects it has had. */
  datatype Snapshot = Snapshot(
    name: string,
    address: string,
    vehicleNumber: string,
    isInitialSetup: bool,
    user: Option<User>,
    firstLaunchComplete: bool,
    writes: seq<User>,
    navigations: nat)

  /** The rows `saveProfile` writes from the state `s`: the trimmed profile, when `ShouldWrite` allows it. */
  function SaveWrites(s: Snapshot): seq<User>
  {
    var u := ProfileUser(s.user, s.name, s.address, s.vehicleNumber);
    if ShouldWrite(s.user, u) then [u] else []
  }

  /** The rows `skipProfile` writes from the state `s`: an empty one, when no row exists. */
  function SkipWrites(s: Snapshot): seq<User>
  {
    if s.user.None? then [EmptyUser] else []
  }

  /** The state after `saveProfile` or `skipProfile` wrote `written`: launch complete, setup over, one navigation. */
  function Completed(s: Snapshot, written: seq<User>): Snapshot
  {
    s.(writes := s.writes + written, firstLaunchComplete := true, isInitialSetup := false,
       navigations := s.navigations + 1)
  }

  /**
   * Save and skip both leave the first launch complete, end the mandatory
   * setup and navigate home exactly once; they keep the typed fields; and
   * from a state with no row yet each writes exactly one.
   */
  lemma CompletionSpec(s: Snapshot, written: seq<User>)
    requires written == SaveWrites(s) || written == SkipWrites(s)
    ensures var r := Completed(s, written);
      && r.firstLaunchComplete && !r.isInitialSetup && r.navigations == s.navigations + 1
      && r.name == s.name && r.address == s.address && r.vehicleNumber == s.vehicleNumber && r.user == s.user
      && (s.user.None? ==> |r.writes| == |s.writes| + 1)
      && |s.writes| <= |r.writes| <= |s.writes| + 1 && r.writes[..|s.writes|] == s.writes
  {
  }

  class ProfileViewModel {
    var name: string
    var address: string
    var vehicleNumber: string
    var isInitialSetup: bool
    /** `_user`: the row last emitted by `getUser()`. */
    var user: Option<User>
    /** The stored `KEY_FIRST_LAUNCH_COMPLETE` preference. */
    var firstLaunchComplete: bool
    /** The rows passed to `insertOrUpdateUser`, in order. */
    var writes: seq<User>
    /** The number of events emitted on `navigateToHome`. */
    var navigations: nat

    function Observed(): Snapshot
      reads this
    {
      Snapshot(name, address, vehicleNumber, isInitialSetup, user, firstLaunchComplete, writes, navigations)
    }

    /** `init`: empty fields, and the mandatory setup exactly while the first launch is not complete. */
    constructor(storedFlag: bool)
      ensures Observed() == Snapshot("", "", "", !storedFlag, None, storedFlag, [], 0)
    {
      name, address, vehicleNumber := "", "", "";
      isInitialSetup := !storedFlag;
      user := None;
      firstLaunchComplete := storedFlag;
      writes, navigations := [], 0;
    }

    /** An emission of `getUser()`: the fields take the user's values, or "" without a user. */
    method OnUserEmitted(emitted: Option<User>)
      modifies this
      ensures name == (if emitted.Some? then emitted.value.name else "")
      ensures address == (if emitted.Some? then emitted.value.address else "")
      ensures vehicleNumber == (if emitted.Some? then emitted.value.vehicleNumber else "")
      ensures Observed() == old(Observed()).(user := emitted, name := name, address := address, vehicleNumber := vehicleNumber)
    {
      user := emitted;
      name := if emitted.Some? then emitted.value.name else "";
      address := if emitted.Some? then emitted.value.address else "";
      vehicleNumber := if emitted.Some? then emitted.value.vehicleNumber else "";
    }

    method OnNameChange(text: string)
      modifies this
      ensures Observed() == old(Observed()).(name := text)
    {
      name := text;
    }

    method OnAddressChange(text: string)
      modifies this
      ensures Observed() == old(Observed()).(address := text)
    {
      address := text;
    }

    method OnVehicleNumberChange(text: string)
      modifies this
      ensures Observed() == old(Observed()).(vehicleNumber := text)
    {
      vehicleNumber := text;
    }

    /**
     * `saveProfile`: writes the trimmed profile when `ShouldWrite` says so,
     * then completes the first launch, ends the setup and navigates home once.
     * The edited fields stay as typed until the database emits again.
     */
    method SaveProfile()
      modifies this
      ensures Observed() == Completed(old(Observed()), SaveWrites(old(Observed())))
    {
      var userToSave := ProfileUser(user, name, address, vehicleNumber);
      if ShouldWrite(user, userToSave) {
        writes := writes + [userToSave];
      }
      firstLaunchComplete := true;
      isInitialSetup := false;
      navigations := navigations + 1;
    }

    /** `skipProfile`: an empty row only when there is none, then the same completion as a save. */
    method SkipProfile()
      modifies this
      ensures Observed() == Completed(old(Observed()), SkipWrites(old(Observed())))
    {
      if user.None? {
        writes := writes + [User(DefaultUserId, "", "", "")];
      }
      firstLaunchComplete := true;
      isInitialSetup := false;
      navigations := navigations + 1;
    }
  }
}
