/** The user's profile page: the stored sign-up document, and a modal that edits it. */
module Profile {
  import opened Optional
  import opened Text
  import opened Records
  import opened JsValues
  import opened Forms
  import opened UserStatistic

  /** `2 * 1024 * 1024`: the largest picture accepted, in bytes. */
  const MaxImageBytes := 2 * 1024 * 1024

  datatype ImageCheck = TooLarge | NotAnImage | Accepted

  /** `handleImageChange`'s checks: the size first, then the MIME type. */
  function CheckImage(file: FileInfo): (r: ImageCheck)
    ensures r == TooLarge <==> file.size > MaxImageBytes
    ensures r == NotAnImage <==> file.size <= MaxImageBytes && !StartsWith(file.mimeType, "image/")
    ensures r == Accepted <==> file.size <= MaxImageBytes && StartsWith(file.mimeType, "image/")
  {
    if file.size > MaxImageBytes then TooLarge
    else if !StartsWith(file.mimeType, "image/") then NotAnImage
    else Accepted
  }

  /** The text stored under `errors.image`; empty once a picture is accepted. */
  function ImageMessage(c: ImageCheck): (m: string)
    ensures m == "" <==> c == Accepted
  {
    match c
    case TooLarge => "File size exceeds 2MB"
    case NotAnImage => "Only image files are allowed"
    case Accepted => ""
  }

  /** A picture of 2 MB or less with an `image/` type is accepted; anything larger never is. */
  lemma ImageLimits(file: FileInfo)
    ensures file.size == MaxImageBytes && file.mimeType == "image/png" ==> CheckImage(file) == Accepted
    ensures file.size == MaxImageBytes + 1 ==> ImageMessage(CheckImage(file)) == "File size exceeds 2MB"
  {
    assert StartsWith("image/png", "image/");
  }

  /** The sign-up document as the page holds it. */
  function AccountRecord(u: UserAccount): (r: Record)
    ensures r.Keys == {"_id", "fullName", "email", "phoneNumber", "image"}
    ensures Get(r, "_id") == Str(u.id) && Get(r, "email") == Str(u.email)
  {
    map["_id" := Str(u.id), "fullName" := Str(u.fullName), "email" := Str(u.email),
        "phoneNumber" := Str(u.phoneNumber), "image" := FromOption(u.image)]
  }

  /** The four fields the modal edits. */
  function FormKeys(): set<string> {
    {"fullName", "email", "phoneNumber", "image"}
  }

  /** `openModal`: the four fields copied from the profile. */
  function ProfileForm(profile: Record): (r: Record)
    ensures r.Keys == FormKeys()
    ensures forall k :: k in FormKeys() ==> r[k] == Get(profile, k)
  {
    map k | k in FormKeys() :: Get(profile, k)
  }

  /** The two inputs that call `handleChange`; the e-mail input is disabled. */
  datatype TextField = FullName | PhoneNumber

  function FieldKey(f: TextField): (k: string)
    ensures k in FormKeys() && k != "image"
  {
    match f
    case FullName => "fullName"
    case PhoneNumber => "phoneNumber"
  }

  function ProfileRules(): seq<Rule> {
    [Rule("fullName", "Full Name is required"), Rule("phoneNumber", "Phone Number is required")]
  }

  /** `validateForm`. */
  method ValidateProfile(data: Record) returns (errors: map<string, string>)
    ensures errors == MissingFields(data, ProfileRules())
  {
    errors := map[];
    errors := CheckRequired(data, errors, "fullName", "Full Name is required");
    errors := CheckRequired(data, errors, "phoneNumber", "Phone Number is required");
  }

  /** A profile is saved exactly when the name and the phone number are filled in; each gap has its message. */
  lemma ProfileErrorsExact(data: Record)
    ensures MissingFields(data, ProfileRules()) == map[] <==> Truthy(Get(data, "fullName")) && Truthy(Get(data, "phoneNumber"))
    ensures !Truthy(Get(data, "fullName")) ==> MissingFields(data, ProfileRules())["fullName"] == "Full Name is required"
    ensures !Truthy(Get(data, "phoneNumber")) ==> MissingFields(data, ProfileRules())["phoneNumber"] == "Phone Number is required"
  {
    NoMissingFieldsIff(data, ProfileRules());
    assert DistinctKeys(ProfileRules());
    if !Truthy(Get(data, "fullName")) {
      RequireFromMessage(data, map[], ProfileRules(), 0, 0);
    }
    if !Truthy(Get(data, "phoneNumber")) {
      RequireFromMessage(data, map[], ProfileRules(), 0, 1);
    }
  }

  /** `editedProfile.image instanceof File ? <uploaded URL> : editedProfile.image`. */
  function ImageUrl(image: Value, uploadedUrl: string): (r: Value)
    ensures image.FileRef? ==> r == Str(uploadedUrl)
    ensures !image.FileRef? ==> r == image
  {
    if image.FileRef? then Str(uploadedUrl) else image
  }

  /** `updatedData`: the edited fields with the picture replaced by its URL. */
  function UpdatedData(edited: Record, uploadedUrl: string): (r: Record)
    ensures r.Keys == edited.Keys + {"image"}
    ensures !Get(r, "image").FileRef?
    ensures forall k :: k != "image" ==> Get(r, k) == Get(edited, k)
  {
    SetField(edited, "image", ImageUrl(Get(edited, "image"), uploadedUrl))
  }

  const ProfilePathPrefix := "/profile/"

  /** `/profile/${profileData._id}`. */
  function ProfilePath(profile: Record): string {
    ProfilePathPrefix + PathText(Get(profile, "_id"))
  }

  /** `setProfileData(updatedData)`: the page's profile after a save, as written. */
  function SavedProfileAsWritten(current: Record, updated: Record): Record {
    updated
  }

  /**
   * As written, the saved profile is the four form fields alone: its `_id` is
   * gone, so the next save in the same visit goes to `/profile/undefined`.
   */
  lemma SecondSaveLosesId(u: UserAccount, uploadedUrl: string)
    ensures ProfilePath(AccountRecord(u)) == ProfilePathPrefix + u.id
    ensures ProfilePath(SavedProfileAsWritten(AccountRecord(u), UpdatedData(ProfileForm(AccountRecord(u)), uploadedUrl)))
            == ProfilePathPrefix + "undefined"
  {
    var updated := UpdatedData(ProfileForm(AccountRecord(u)), uploadedUrl);
    assert "_id" !in updated;
  }

  /** `{ ...profileData, ...updatedData }`: the saved fields over the stored document. */
  function SavedProfile(current: Record, updated: Record): (r: Record)
    ensures r.Keys == current.Keys + updated.Keys
    ensures forall k :: k in updated ==> Get(r, k) == updated[k]
    ensures forall k :: k !in updated ==> Get(r, k) == Get(current, k)
  {
    current + updated
  }

  /** Saving the form's fields keeps the document's `_id`, so every later save goes to the same path. */
  lemma SavedProfileKeepsPath(current: Record, edited: Record, uploadedUrl: string)
    requires edited.Keys == FormKeys()
    ensures ProfilePath(SavedProfile(current, UpdatedData(edited, uploadedUrl))) == ProfilePath(current)
  {
    assert "_id" !in UpdatedData(edited, uploadedUrl);
  }

  /** The page's state. */
  class ProfileEditor {
    var profileData: Option<Record>
    var editedProfile: Record
    var errors: map<string, string>
    var imagePreview: Option<string>
    var isModalOpen: bool

    /** The modal always holds exactly the four profile fields. */
    ghost predicate Valid()
      reads this
    {
      editedProfile.Keys == FormKeys()
    }

    constructor ()
      ensures Valid()
      ensures profileData == None && errors == map[] && imagePreview == None && !isModalOpen
      ensures forall k :: k in FormKeys() ==> editedProfile[k] == Str("")
    {
      profileData := None;
      editedProfile := map k | k in FormKeys() :: Str("");
      errors, imagePreview, isModalOpen := map[], None, false;
    }

    /** The `/signup` list arrived: the first document with the user's e-mail, if any, becomes the profile. */
    method ProfileFetched(users: seq<UserAccount>, email: string)
      modifies this`profileData
      ensures FindUserByEmail(users, email).Some? ==> profileData == Some(AccountRecord(FindUserByEmail(users, email).value))
      ensures FindUserByEmail(users, email).None? ==> profileData == old(profileData)
      ensures profileData.Some? && profileData != old(profileData) ==> Get(profileData.value, "email") == Str(email)
    {
      var found := FindUserByEmail(users, email);
      if found.Some? {
        profileData := Some(AccountRecord(found.value));
      }
    }

    /** `openModal`: only once a profile is loaded. */
    method OpenModal()
      requires Valid()
      modifies this`editedProfile, this`isModalOpen
      ensures Valid()
      ensures old(profileData).Some? ==> editedProfile == ProfileForm(profileData.value) && isModalOpen
      ensures old(profileData).None? ==> editedProfile == old(editedProfile) && isModalOpen == old(isModalOpen)
    {
      if profileData.Some? {
        editedProfile := ProfileForm(profileData.value);
        isModalOpen := true;
      }
    }

    method CloseModal()
      modifies this`isModalOpen
      ensures !isModalOpen
    {
      isModalOpen := false;
    }

    /** `handleChange`. */
    method HandleChange(field: TextField, value: string)
      requires Valid()
      modifies this`editedProfile
      ensures Valid()
      ensures editedProfile == SetField(old(editedProfile), FieldKey(field), Str(value))
    {
      editedProfile := SetField(editedProfile, FieldKey(field), Str(value));
    }

    /**
     * `handleImageChange`: no file, nothing happens; a rejected file sets the
     * image error and clears the preview; an accepted one clears the error,
     * shows its object URL and goes into the form.
     */
    method HandleImageChange(file: Option<FileInfo>, objectUrl: string)
      requires Valid()
      modifies this`errors, this`imagePreview, this`editedProfile
      ensures Valid()
      ensures file.None? ==> errors == old(errors) && imagePreview == old(imagePreview) && editedProfile == old(editedProfile)
      ensures file.Some? ==> errors == old(errors)["image" := ImageMessage(CheckImage(file.value))]
      ensures file.Some? && CheckImage(file.value) != Accepted ==> imagePreview == None && editedProfile == old(editedProfile)
      ensures file.Some? && CheckImage(file.value) == Accepted
              ==> imagePreview == Some(objectUrl) && editedProfile == SetField(old(editedProfile), "image", FileRef(file.value))
    {
      if file.Some? {
        var check := CheckImage(file.value);
        errors := errors["image" := ImageMessage(check)];
        if check == Accepted {
          imagePreview := Some(objectUrl);
          editedProfile := SetField(editedProfile, "image", FileRef(file.value));
        } else {
          imagePreview := None;
        }
      }
    }

    /**
     * `saveChanges`: the validation errors replace the shown ones; an
     * error-free form is sent (its picture, if a file, replaced by the URL
     * the image host returned) to the loaded profile's path, and a reply of
     * success merges it into the profile and closes the modal. Without a
     * loaded profile the path throws and nothing is sent.
     */
    method SaveChanges(uploadedUrl: string, succeeded: bool) returns (r: Option<PutRequest>)
      requires Valid()
      modifies this`errors, this`profileData, this`isModalOpen
      ensures Valid()
      ensures errors == MissingFields(editedProfile, ProfileRules())
      ensures r.Some? <==> errors == map[] && old(profileData).Some?
      ensures r.Some? ==> r.value == PutRequest(ProfilePath(old(profileData).value), Some(UpdatedData(editedProfile, uploadedUrl)))
      ensures profileData == if r.Some? && succeeded then Some(SavedProfile(old(profileData).value, UpdatedData(editedProfile, uploadedUrl))) else old(profileData)
      ensures isModalOpen == if r.Some? && succeeded then false else old(isModalOpen)
      ensures profileData.Some? && old(profileData).Some? ==> ProfilePath(profileData.value) == ProfilePath(old(profileData).value)
    {
      var validation := ValidateProfile(editedProfile);
      errors := validation;
      if |validation| > 0 || profileData.None? {
        return None;
      }
      var updated := UpdatedData(editedProfile, uploadedUrl);
      r := Some(PutRequest(ProfilePath(profileData.value), Some(updated)));
      if succeeded {
        SavedProfileKeepsPath(profileData.value, editedProfile, uploadedUrl);
        profileData := Some(SavedProfile(profileData.value, updated));
        isModalOpen := false;
      }
    }
  }
}
