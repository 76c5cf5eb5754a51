/**
 * The profile dialog: a committed profile, a draft the edit form writes to,
 * and an editing flag; plus the avatar initials computed from the committed
 * name by splitting it on single spaces and taking each word's first letter.
 */
module Profile {

  import opened Wrappers
  import opened Auth
  import opened Strings

  datatype ProfileInfo = ProfileInfo(name: string, email: string, phone: string, address: string, bio: string)

  const DEFAULT_NAME: string := "John Doe"
  const DEFAULT_EMAIL: string := "john.doe@example.com"
  const DEFAULT_PHONE: string := "+1 (555) 123-4567"
  const DEFAULT_ADDRESS: string := "123 Main St, New York, NY 10001"
  const DEFAULT_BIO: string := "Food lover and frequent orderer. Always looking for new flavors!"

  /** The profile the dialog opens with: the user's name and email when present and non-empty, placeholders otherwise. */
  function InitialProfile(user: Option<User>): (p: ProfileInfo)
    ensures p.name == (if user.Some? && user.value.name != "" then user.value.name else DEFAULT_NAME)
    ensures p.email == (if user.Some? && user.value.email != "" then user.value.email else DEFAULT_EMAIL)
    ensures p.phone == DEFAULT_PHONE && p.address == DEFAULT_ADDRESS && p.bio == DEFAULT_BIO
    ensures p.name != "" && p.email != ""
  {
    var name := if user.Some? && user.value.name != "" then user.value.name else DEFAULT_NAME;
    var email := if user.Some? && user.value.email != "" then user.value.email else DEFAULT_EMAIL;
    ProfileInfo(name, email, DEFAULT_PHONE, DEFAULT_ADDRESS, DEFAULT_BIO)
  }

  // ---------------------------------------------------------------------------
  // Initials

  /** Splitting on ' ' as strings split: n spaces give n + 1 pieces, empty ones included. */
  function Split(s: string): (parts: seq<string>)
    decreases |s|
    ensures |parts| >= 1
    ensures forall k :: 0 <= k < |parts| ==> ' ' !in parts[k]
  {
    if s == [] then [""]
    else if s[0] == ' ' then [""] + Split(s[1..])
    else
      var rest := Split(s[1..]);
      [[s[0]] + rest[0]] + rest[1..]
  }

  /** The first character of each piece, joined; an empty piece has none and contributes nothing. */
  function FirstChars(parts: seq<string>): (r: string)
    decreases |parts|
    ensures |r| <= |parts|
  {
    if parts == [] then []
    else (if parts[0] == [] then [] else [parts[0][0]]) + FirstChars(parts[1..])
  }

  function Initials(name: string): string
  {
    FirstChars(Split(name))
  }

  /**
   * The reference: the characters of `s` that are not spaces and come first or
   * right after a space (`atStart` says whether the position before `s` counts
   * as a word boundary).
   */
  function WordStarts(s: string, atStart: bool): (r: string)
    decreases |s|
    ensures ' ' !in r
  {
    if s == [] then []
    else (if s[0] != ' ' && atStart then [s[0]] else []) + WordStarts(s[1..], s[0] == ' ')
  }

  /** Splitting loses nothing: joining the pieces with spaces gives the name back. */
  lemma {:induction false} JoinSplit(s: string)
    decreases |s|
    ensures JoinWithSpaces(Split(s)) == s
  {
    if s != [] {
      var rest := Split(s[1..]);
      JoinSplit(s[1..]);
      if s[0] == ' ' {
        assert ([""] + rest)[1..] == rest;
        assert s == [' '] + s[1..];
      } else if |rest| == 1 {
        assert s == [s[0]] + s[1..];
      } else {
        var first := [s[0]] + rest[0];
        assert ([first] + rest[1..])[1..] == rest[1..];
        assert rest == [rest[0]] + rest[1..];
        assert JoinWithSpaces(rest) == rest[0] + " " + JoinWithSpaces(rest[1..]);
        assert s == [s[0]] + s[1..];
      }
    }
  }

  /** Each piece's first character, joined, is exactly the word starts of the name. */
  lemma {:induction false} FirstCharsOfSplit(s: string)
    decreases |s|
    ensures FirstChars(Split(s)) == WordStarts(s, true)
    ensures FirstChars(Split(s)[1..]) == WordStarts(s, false)
  {
    if s != [] {
      var rest := Split(s[1..]);
      FirstCharsOfSplit(s[1..]);
      if s[0] == ' ' {
        assert ([""] + rest)[1..] == rest;
      } else {
        var first := [s[0]] + rest[0];
        assert ([first] + rest[1..])[1..] == rest[1..];
      }
    }
  }

  /** The initials are the first letter of every word; runs of spaces add nothing. */
  lemma InitialsAreWordStarts(name: string)
    ensures Initials(name) == WordStarts(name, true)
    ensures ' ' !in Initials(name)
  {
    FirstCharsOfSplit(name);
  }

  lemma InitialsOfDefaultName()
    ensures Initials(DEFAULT_NAME) == "JD"
  {
    InitialsAreWordStarts(DEFAULT_NAME);
    assert DEFAULT_NAME[1..] == "ohn Doe";
  }

  // ---------------------------------------------------------------------------
  // The dialog

  class ProfileDialog {

    var isEditing: bool
    /** What the dialog shows and the avatar is computed from. */
    var profile: ProfileInfo
    /** What the edit form writes to. */
    var editedProfile: ProfileInfo

    /** Outside editing, the draft is the profile. */
    ghost predicate Valid()
      reads this
    {
      !isEditing ==> editedProfile == profile
    }

    /** Not editing; the draft starts as the profile. */
    constructor (user: Option<User>)
      ensures Valid() && !isEditing
      ensures profile == InitialProfile(user) && editedProfile == profile
    {
      isEditing := false;
      profile := InitialProfile(user);
      editedProfile := profile;
    }

    function AvatarInitials(): string
      reads this
    {
      Initials(profile.name)
    }

    /** "Edit" is offered only outside editing; the draft is left as it is. */
    method StartEditing()
      requires Valid() && !isEditing
      modifies this
      ensures Valid() && isEditing
      ensures profile == old(profile) && editedProfile == old(editedProfile)
    {
      isEditing := true;
    }

    /** "Save": the draft becomes the profile and editing ends. */
    method Save()
      requires Valid() && isEditing
      modifies this
      ensures Valid() && !isEditing
      ensures profile == old(editedProfile) && editedProfile == old(editedProfile)
    {
      profile := editedProfile;
      isEditing := false;
    }

    /** "Cancel": the draft goes back to the profile, which is unchanged, and editing ends. */
    method Cancel()
      requires Valid() && isEditing
      modifies this
      ensures Valid() && !isEditing
      ensures profile == old(profile) && editedProfile == old(profile)
    {
      editedProfile := profile;
      isEditing := false;
    }

    // The inputs exist only while editing; each replaces one field of the draft.

    method EditName(name: string)
      requires Valid() && isEditing
      modifies this
      ensures Valid() && isEditing
      ensures editedProfile == old(editedProfile).(name := name) && profile == old(profile)
    {
      editedProfile := editedProfile.(name := name);
    }

    method EditEmail(email: string)
      requires Valid() && isEditing
      modifies this
      ensures Valid() && isEditing
      ensures editedProfile == old(editedProfile).(email := email) && profile == old(profile)
    {
      editedProfile := editedProfile.(email := email);
    }

    method EditPhone(phone: string)
      requires Valid() && isEditing
      modifies this
      ensures Valid() && isEditing
      ensures editedProfile == old(editedProfile).(phone := phone) && profile == old(profile)
    {
      editedProfile := editedProfile.(phone := phone);
    }

    method EditAddress(address: string)
      requires Valid() && isEditing
      modifies this
      ensures Valid() && isEditing
      ensures editedProfile == old(editedProfile).(address := address) && profile == old(profile)
    {
      editedProfile := editedProfile.(address := address);
    }

    method EditBio(bio: string)
      requires Valid() && isEditing
      modifies this
      ensures Valid() && isEditing
      ensures editedProfile == old(editedProfile).(bio := bio) && profile == old(profile)
    {
      editedProfile := editedProfile.(bio := bio);
    }
  }

  /**
   * Renaming and cancelling leaves the avatar as it was; renaming and saving
   * shows the new initials.
   */
  method EditSession(user: Option<User>, newName: string) returns (afterCancel: string, afterSave: string)
    ensures afterCancel == Initials(InitialProfile(user).name)
    ensures afterSave == Initials(newName)
  {
    var d := new ProfileDialog(user);
    d.StartEditing();
    d.EditName(newName);
    d.Cancel();
    afterCancel := d.AvatarInitials();
    d.StartEditing();
    d.EditName(newName);
    d.Save();
    afterSave := d.AvatarInitials();
  }
}
