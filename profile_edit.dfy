/** The profile editor: a draft of the user's fields, seeded from the current
    user with defaults, edited field by field, and saved all at once only when
    the four required fields are filled in. */
module ProfileEdit {
  import opened Types
  import opened ListToggle
  import opened NumberParsing
  import opened UserContext

  /** The draft: every editable field of the user; the id, the completeness
      flag and the two pictures are not part of it. */
  datatype FormData = FormData(
    firstName: string,
    lastName: string,
    age: int,
    gender: Gender,
    nationality: string,
    email: string,
    phone: string,
    japaneseLevel: JapaneseLevel,
    nearestStationHome: string,
    walkTimeHome: int,
    nearestStationSchool: string,
    walkTimeSchool: int,
    postalCode: string,
    prefecture: string,
    city: string,
    address: string,
    visaType: string,
    preferredDays: seq<string>,
    preferredJobTypes: seq<string>,
    workExperience: string)

  /** `n || fallback` on numbers. */
  function OrDefault(n: int, fallback: int): int {
    if n == 0 then fallback else n
  }

  /** The editable fields of a stored user. */
  function FormOf(u: User): FormData {
    FormData(u.firstName, u.lastName, u.age, u.gender, u.nationality, u.email, u.phone,
             u.japaneseLevel, u.nearestStationHome, u.walkTimeHome, u.nearestStationSchool,
             u.walkTimeSchool, u.postalCode, u.prefecture, u.city, u.address, u.visaType,
             u.preferredDays, u.preferredJobTypes, u.workExperience)
  }

  /** The draft the editor opens with: without a user, empty text, age 20,
      walk times 5, gender male and level N5; with a user, its fields, where a
      zero age or walk time falls back to the same defaults. */
  function InitialForm(user: Option<User>): (f: FormData)
    ensures user.None? ==>
      f == FormData("", "", 20, Male, "", "", "", N5, "", 5, "", 5, "", "", "", "", "", [], [], "")
    ensures user.Some? ==> f == FormOf(user.value).(
      age := if user.value.age == 0 then 20 else user.value.age,
      walkTimeHome := if user.value.walkTimeHome == 0 then 5 else user.value.walkTimeHome,
      walkTimeSchool := if user.value.walkTimeSchool == 0 then 5 else user.value.walkTimeSchool)
    ensures f.age != 0 && f.walkTimeHome != 0 && f.walkTimeSchool != 0
  {
    match user
    case None =>
      FormData("", "", 20, Male, "", "", "", N5, "", 5, "", 5, "", "", "", "", "", [], [], "")
    case Some(u) =>
      FormData(u.firstName, u.lastName, OrDefault(u.age, 20), u.gender, u.nationality, u.email, u.phone,
               u.japaneseLevel, u.nearestStationHome, OrDefault(u.walkTimeHome, 5), u.nearestStationSchool,
               OrDefault(u.walkTimeSchool, 5), u.postalCode, u.prefecture, u.city, u.address, u.visaType,
               u.preferredDays, u.preferredJobTypes, u.workExperience)
  }

  /** `parseInt(text) || 20`: NaN and zero (also "-0") become 20. */
  function AgeFromInput(text: string): (age: int)
    ensures age != 0
    ensures ParseInt(text).None? ==> age == 20
    ensures ParseInt(text).Some? ==> age == OrDefault(ParseInt(text).value, 20)
  {
    match ParseInt(text)
    case None => 20
    case Some(n) => OrDefault(n, 20)
  }

  /** Typing the decimal numeral of an age stores that age, except that 0
      is stored as 20. */
  lemma AgeFromDecimal(n: nat)
    ensures AgeFromInput(Decimal(n)) == if n == 0 then 20 else n
  {
    ParseDecimal(n);
  }

  /** The names of the required fields that are empty, in the order
      firstName, lastName, email, phone. */
  function MissingFields(f: FormData): (missing: seq<string>)
    ensures |missing| <= 4
    ensures missing == [] <==> f.firstName != "" && f.lastName != "" && f.email != "" && f.phone != ""
    ensures "phone" in missing <==> f.phone == ""
    ensures "email" in missing <==> f.email == ""
    ensures "firstName" in missing <==> f.firstName == ""
    ensures "lastName" in missing <==> f.lastName == ""
  {
    (if f.firstName == "" then ["firstName"] else [])
    + (if f.lastName == "" then ["lastName"] else [])
    + (if f.email == "" then ["email"] else [])
    + (if f.phone == "" then ["phone"] else [])
  }

  datatype SaveOutcome = Rejected(missing: seq<string>) | Saved(user: User)

  /** The user a save writes: the current user's id when it has a non-empty
      one, otherwise the fresh id; then the draft; and the completeness flag
      set. The pictures are not in the draft, so the record has none. */
  function SaveResult(f: FormData, current: Option<User>, freshId: string): (o: SaveOutcome)
    ensures o.Saved? <==> MissingFields(f) == []
    ensures o.Rejected? ==> o.missing == MissingFields(f)
  {
    if |MissingFields(f)| > 0 then Rejected(MissingFields(f))
    else
      var id := if current.Some? && current.value.id != "" then current.value.id else freshId;
      Saved(User(id, f.firstName, f.lastName, f.age, f.gender, f.nationality, None,
                 f.nearestStationHome, f.walkTimeHome, f.nearestStationSchool, f.walkTimeSchool,
                 f.postalCode, f.prefecture, f.city, f.address, f.email, f.phone, f.visaType, None,
                 f.japaneseLevel, f.preferredDays, f.preferredJobTypes, f.workExperience, true))
  }

  /** A save goes through exactly when the four required fields are
      non-empty, whatever their format; the saved record carries the draft
      unchanged, is marked complete, keeps the current id when there is one,
      and drops both pictures: it replaces the user as a whole. */
  lemma SaveSpec(f: FormData, current: Option<User>, freshId: string)
    ensures SaveResult(f, current, freshId).Saved? <==>
      f.firstName != "" && f.lastName != "" && f.email != "" && f.phone != ""
    ensures SaveResult(f, current, freshId).Rejected? ==>
      SaveResult(f, current, freshId).missing != []
    ensures SaveResult(f, current, freshId).Saved? ==>
      var u := SaveResult(f, current, freshId).user;
      FormOf(u) == f && u.isProfileComplete
      && u.profilePicture == None && u.visaStatusImage == None
      && u.id == (if current.Some? && current.value.id != "" then current.value.id else freshId)
  {
  }

  /** Saving a draft and opening the editor again shows the same draft. */
  lemma SaveThenReopen(f: FormData, current: Option<User>, freshId: string)
    requires f.age != 0 && f.walkTimeHome != 0 && f.walkTimeSchool != 0
    requires SaveResult(f, current, freshId).Saved?
    ensures InitialForm(Some(SaveResult(f, current, freshId).user)) == f
  {
    SaveSpec(f, current, freshId);
  }

  /** The editor's state: the draft and the user holder it saves into. */
  class EditProfileModal {
    const userStore: UserStore
    var formData: FormData

    constructor (userStore: UserStore)
      ensures this.userStore == userStore
      ensures formData == InitialForm(userStore.user)
    {
      this.userStore := userStore;
      formData := InitialForm(userStore.user);
    }

    method SetFirstName(text: string)
      modifies this`formData
      ensures formData == old(formData).(firstName := text)
    {
      formData := formData.(firstName := text);
    }

    method SetLastName(text: string)
      modifies this`formData
      ensures formData == old(formData).(lastName := text)
    {
      formData := formData.(lastName := text);
    }

    method SetNationality(text: string)
      modifies this`formData
      ensures formData == old(formData).(nationality := text)
    {
      formData := formData.(nationality := text);
    }

    method SetEmail(text: string)
      modifies this`formData
      ensures formData == old(formData).(email := text)
    {
      formData := formData.(email := text);
    }

    method SetPhone(text: string)
      modifies this`formData
      ensures formData == old(formData).(phone := text)
    {
      formData := formData.(phone := text);
    }

    /** The age field: the typed text is parsed, with 20 for NaN and zero. */
    method SetAge(text: string)
      modifies this`formData
      ensures formData == old(formData).(age := AgeFromInput(text))
    {
      formData := formData.(age := AgeFromInput(text));
    }

    method SetGender(g: Gender)
      modifies this`formData
      ensures formData == old(formData).(gender := g)
    {
      formData := formData.(gender := g);
    }

    method SetJapaneseLevel(level: JapaneseLevel)
      modifies this`formData
      ensures formData == old(formData).(japaneseLevel := level)
    {
      formData := formData.(japaneseLevel := level);
    }

    /** Flips one preferred day; no other field of the draft changes. */
    method ToggleDay(day: string)
      modifies this`formData
      ensures formData == old(formData).(preferredDays := Toggle(old(formData).preferredDays, day))
      ensures day in formData.preferredDays <==> day !in old(formData).preferredDays
    {
      formData := formData.(preferredDays := Toggle(formData.preferredDays, day));
    }

    /** Flips one preferred job type; no other field of the draft changes. */
    method ToggleJobType(jobType: string)
      modifies this`formData
      ensures formData == old(formData).(preferredJobTypes := Toggle(old(formData).preferredJobTypes, jobType))
      ensures jobType in formData.preferredJobTypes <==> jobType !in old(formData).preferredJobTypes
    {
      formData := formData.(preferredJobTypes := Toggle(formData.preferredJobTypes, jobType));
    }

    /** With a required field empty, the user is alerted and nothing is
        written; otherwise the whole new record replaces the user. `freshId`
        stands for the clock reading used when there is no id to keep. */
    method HandleSave(freshId: string) returns (alerted: bool)
      modifies userStore
      ensures alerted <==> SaveResult(formData, old(userStore.user), freshId).Rejected?
      ensures alerted ==> userStore.user == old(userStore.user)
      ensures !alerted ==> userStore.user == Some(SaveResult(formData, old(userStore.user), freshId).user)
    {
      var outcome := SaveResult(formData, userStore.user, freshId);
      if outcome.Rejected? {
        alerted := true;
        return;
      }
      alerted := false;
      userStore.SetUser(outcome.user);
    }
  }
}
