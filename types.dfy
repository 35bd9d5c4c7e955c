/** The records shared by the screens: a job listing, an application
    (one decision about one job) and the user's profile. */
module Types {

  datatype Option<+T> = None | Some(value: T)

  /** A job listing of the catalogue; it is never changed once loaded. */
  datatype Job = Job(
    id: string,
    title: string,
    jobType: string,
    salary: string,
    japaneseLevel: string,
    commuteTime: string,
    location: string,
    workDays: seq<string>,
    highlights: seq<string>)

  /** The two decisions a swipe can record. */
  datatype Status = Chosen | Refused

  /** One recorded decision. `id` and `appliedAt` come from the clock in the
      application and are opaque values here. */
  datatype Application = Application(
    id: string,
    jobId: string,
    userId: string,
    status: Status,
    appliedAt: int)

  datatype Gender = Male | Female | Other

  datatype JapaneseLevel = N1 | N2 | N3 | N4 | N5

  /** The user's profile. The two optional pictures are the only optional
      fields of the record. */
  datatype User = User(
    id: string,
    firstName: string,
    lastName: string,
    age: int,
    gender: Gender,
    nationality: string,
    profilePicture: Option<string>,
    nearestStationHome: string,
    walkTimeHome: int,
    nearestStationSchool: string,
    walkTimeSchool: int,
    postalCode: string,
    prefecture: string,
    city: string,
    address: string,
    email: string,
    phone: string,
    visaType: string,
    visaStatusImage: Option<string>,
    japaneseLevel: JapaneseLevel,
    preferredDays: seq<string>,
    preferredJobTypes: seq<string>,
    workExperience: string,
    isProfileComplete: bool)
}
