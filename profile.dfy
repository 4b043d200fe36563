/** The profile screen: one record, `profileData`, edited in place while
    `editing` is on and written whole under the `userProfile` key. */
module Profile {
  import opened Entities

  const EmptyProfile: ProfileData := ProfileData("", "", "", "", "", "", "")

  /** The longest age the age input accepts. */
  const MaxAgeLength: nat := 3

  /** The blood groups the selector offers. */
  const BloodGroups: seq<string> := ["A+", "A-", "B+", "B-", "AB+", "AB-", "O+", "O-"]

  predicate HasStoredProfile(storage: Storage)
  {
    ProfileKey in storage && storage[ProfileKey].UserProfile?
  }

  class ProfileScreen {
    var profileData: ProfileData
    var editing: bool
    var storage: Storage

    /** Mounting the screen: not editing, and the stored profile loaded
        over the empty one when there is one. */
    constructor Mount(storage: Storage)
      ensures this.storage == storage && !editing
      ensures profileData == if HasStoredProfile(storage) then storage[ProfileKey].profile else EmptyProfile
    {
      this.storage := storage;
      editing := false;
      profileData := EmptyProfile;
      new;
      LoadProfile();
    }

    /** `loadProfile`: `if (saved) setProfileData(saved)`. */
    method LoadProfile()
      modifies this
      ensures HasStoredProfile(storage) ==> profileData == storage[ProfileKey].profile
      ensures !HasStoredProfile(storage) ==> profileData == old(profileData)
      ensures editing == old(editing) && storage == old(storage)
    {
      if HasStoredProfile(storage) {
        profileData := storage[ProfileKey].profile;
      }
    }

    /** The edit button. */
    method StartEditing()
      modifies this
      ensures editing
      ensures profileData == old(profileData) && storage == old(storage)
    {
      editing := true;
    }

    /** The text inputs, each replacing one field of `profileData`. They
        are editable only while editing, none of them writes the blood
        group, and the age input holds at most three characters. */
    method ChangeProfile(data: ProfileData)
      requires editing
      requires data.bloodGroup == profileData.bloodGroup
      requires |data.age| <= MaxAgeLength
      modifies this
      ensures profileData == data
      ensures editing == old(editing) && storage == old(storage)
    {
      profileData := data;
    }

    /** A blood-group button, shown only while editing: only that field
        changes. */
    method SelectBloodGroup(group: string)
      requires editing
      requires group in BloodGroups
      modifies this
      ensures profileData == old(profileData).(bloodGroup := group)
      ensures editing == old(editing) && storage == old(storage)
    {
      profileData := profileData.(bloodGroup := group);
    }

    /** `handleSave`: without a full name nothing is written and editing
        goes on; otherwise the profile is written as it stands and editing
        ends. */
    method HandleSave() returns (saved: bool)
      modifies this
      ensures saved <==> old(profileData.fullName) != ""
      ensures !saved ==> unchanged(this)
      ensures saved ==>
        && storage == old(storage)[ProfileKey := UserProfile(old(profileData))]
        && profileData == old(profileData)
        && !editing
    {
      if profileData.fullName == "" {
        return false;
      }
      storage := storage[ProfileKey := UserProfile(profileData)];
      editing := false;
      saved := true;
    }

    /** The cancel button: stop editing and reload the stored profile,
        dropping unsaved changes when one is stored. */
    method Cancel()
      modifies this
      ensures !editing && storage == old(storage)
      ensures profileData == if HasStoredProfile(storage) then storage[ProfileKey].profile else old(profileData)
    {
      editing := false;
      LoadProfile();
    }
  }
}
