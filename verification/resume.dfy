/**
 The résumé document (src/models/Resume.ts): a record owned by a user, with
 optional text fields, ordered lists of skills, work experiences and
 educations (sub-documents without an `_id` of their own), a template id
 limited to the eight catalogue ids with "classic" as its default, and
 store-managed creation and update times. Its JSON and plain-object forms
 carry `id`, the hexadecimal string of the 12-byte ObjectId `_id`.
 */
module Resumes {
  import opened Common
  import opened JsDates
  import opened Templates

  /** A byte of an ObjectId. */
  type Byte = b: int | 0 <= b < 256

  /** A MongoDB ObjectId: twelve bytes. */
  type ObjectId = s: seq<Byte> | |s| == 12 witness [0, 0, 0, 0, 0, 0, 0, 0, 0, 0, 0, 0]

  /** A work-experience entry; it has no `_id`, so it is a plain value. */
  datatype WorkExperience = WorkExperience(
    position: Option<string>,
    company: Option<string>,
    startDate: Option<TimeValue>,
    endDate: Option<TimeValue>,
    description: Option<string>)

  /** An education entry; it has no `_id` either. */
  datatype Education = Education(
    degree: Option<string>,
    school: Option<string>,
    startDate: Option<TimeValue>,
    endDate: Option<TimeValue>)

  /** The text fields a résumé may have, each optional. */
  datatype ResumeText = ResumeText(
    title: Option<string>,
    description: Option<string>,
    photoUrl: Option<string>,
    colorHex: Option<string>,
    borderStyle: Option<string>,
    summary: Option<string>,
    firstName: Option<string>,
    lastName: Option<string>,
    jobTitle: Option<string>,
    city: Option<string>,
    country: Option<string>,
    phone: Option<string>,
    email: Option<string>)

  /** A stored résumé. Array paths always exist (Mongoose starts them empty). */
  datatype Resume = Resume(
    id: ObjectId,
    userId: string,
    text: ResumeText,
    templateId: string,
    skills: seq<string>,
    workExperiences: seq<WorkExperience>,
    educations: seq<Education>,
    createdAt: TimeValue,
    updatedAt: TimeValue)

  /** A résumé as schema validation lets it into the collection: a
      non-empty owner and one of the eight template ids. */
  predicate Stored(r: Resume)
  {
    r.userId != "" && r.templateId in TemplateKeys
  }

  /** What a caller hands to `create`: `None` for a path it leaves out. */
  datatype ResumeInput = ResumeInput(
    userId: Option<string>,
    text: ResumeText,
    templateId: Option<string>,
    skills: Option<seq<string>>,
    workExperiences: Option<seq<WorkExperience>>,
    educations: Option<seq<Education>>)

  /** Why validation failed: the required user id is missing or empty, or
      the template id is not one of the enumerated values. */
  datatype ResumeError = UserIdRequired | TemplateIdNotInEnum(value: string)

  /** The `templateId` path: its default when absent, an enum error for a
      value outside the eight catalogue ids. */
  function TemplateIdPath(value: Option<string>): (r: Result<string, ResumeError>)
    ensures value.None? ==> r == Ok(DefaultTemplateId)
    ensures value.Some? ==> (r.Ok? <==> value.value in TemplateKeys)
    ensures r.Ok? ==> r.value in TemplateKeys
    ensures value.Some? && r.Ok? ==> r.value == value.value
  {
    match value
    case None => Ok(DefaultTemplateId)
    case Some(t) => if t in TemplateKeys then Ok(t) else Err(TemplateIdNotInEnum(t))
  }

  /** `Resume.create(input)` with a fresh ObjectId at time `now`: defaults
      applied, the user id required, both timestamps set to `now`. */
  function Create(input: ResumeInput, id: ObjectId, now: TimeValue): (r: Result<Resume, ResumeError>)
    ensures r.Ok? <==> Truthy(input.userId) && TemplateIdPath(input.templateId).Ok?
    ensures !Truthy(input.userId) ==> r == Err(UserIdRequired)
    ensures r.Ok? ==> Stored(r.value)
    ensures r.Ok? ==> (r.value.id == id && Some(r.value.userId) == input.userId && r.value.text == input.text
                       && r.value.createdAt == now && r.value.updatedAt == now
                       && r.value.templateId in TemplateKeys)
    ensures r.Ok? && input.templateId.None? ==> r.value.templateId == "classic"
    ensures r.Ok? ==> r.value.skills == (if input.skills.Some? then input.skills.value else [])
    ensures r.Ok? ==> r.value.workExperiences == (if input.workExperiences.Some? then input.workExperiences.value else [])
    ensures r.Ok? ==> r.value.educations == (if input.educations.Some? then input.educations.value else [])
  {
    if !Truthy(input.userId) then Err(UserIdRequired)
    else match TemplateIdPath(input.templateId)
      case Err(e) => Err(e)
      case Ok(templateId) =>
        Ok(Resume(id, input.userId.value, input.text, templateId,
          match input.skills case Some(s) => s case None => [],
          match input.workExperiences case Some(w) => w case None => [],
          match input.educations case Some(e) => e case None => [],
          now, now))
  }

  /** What a save does to the photo: a new upload stores its URL, `null`
      removes the stored one, and leaving the photo out keeps it. */
  datatype PhotoChange = NewPhoto(url: string) | RemovePhoto | PhotoUnchanged

  /** `$set` of one optional path: a value in the update replaces the stored
      one, and a path absent from the update keeps it. */
  function SetPath<T>(update: Option<T>, stored: Option<T>): (r: Option<T>)
    ensures update.Some? ==> r == update
    ensures update.None? ==> r == stored
  {
    if update.Some? then update else stored
  }

  /** The photo URL after a save. */
  function PhotoUrlAfter(change: PhotoChange, stored: Option<string>): (r: Option<string>)
    ensures change.NewPhoto? ==> r == Some(change.url)
    ensures change == RemovePhoto ==> r == None
    ensures change == PhotoUnchanged ==> r == stored
  {
    match change
    case NewPhoto(url) => Some(url)
    case RemovePhoto => None
    case PhotoUnchanged => stored
  }

  /** The text fields after a save: the paths present in the update replace
      the stored ones, and the photo URL follows the photo change alone (the
      photo is taken out of the update, so the update's own `photoUrl` is
      never written). */
  function MergeText(stored: ResumeText, update: ResumeText, photo: PhotoChange): (r: ResumeText)
    ensures r.photoUrl == PhotoUrlAfter(photo, stored.photoUrl)
    ensures update.title.Some? ==> r.title == update.title
    ensures update.title.None? ==> r.title == stored.title
    ensures update.description.Some? ==> r.description == update.description
    ensures update.description.None? ==> r.description == stored.description
    ensures update.colorHex.Some? ==> r.colorHex == update.colorHex
    ensures update.colorHex.None? ==> r.colorHex == stored.colorHex
    ensures update.borderStyle.Some? ==> r.borderStyle == update.borderStyle
    ensures update.borderStyle.None? ==> r.borderStyle == stored.borderStyle
    ensures update.summary.Some? ==> r.summary == update.summary
    ensures update.summary.None? ==> r.summary == stored.summary
    ensures update.firstName.Some? ==> r.firstName == update.firstName
    ensures update.firstName.None? ==> r.firstName == stored.firstName
    ensures update.lastName.Some? ==> r.lastName == update.lastName
    ensures update.lastName.None? ==> r.lastName == stored.lastName
    ensures update.jobTitle.Some? ==> r.jobTitle == update.jobTitle
    ensures update.jobTitle.None? ==> r.jobTitle == stored.jobTitle
    ensures update.city.Some? ==> r.city == update.city
    ensures update.city.None? ==> r.city == stored.city
    ensures update.country.Some? ==> r.country == update.country
    ensures update.country.None? ==> r.country == stored.country
    ensures update.phone.Some? ==> r.phone == update.phone
    ensures update.phone.None? ==> r.phone == stored.phone
    ensures update.email.Some? ==> r.email == update.email
    ensures update.email.None? ==> r.email == stored.email
  {
    ResumeText(
      SetPath(update.title, stored.title),
      SetPath(update.description, stored.description),
      PhotoUrlAfter(photo, stored.photoUrl),
      SetPath(update.colorHex, stored.colorHex),
      SetPath(update.borderStyle, stored.borderStyle),
      SetPath(update.summary, stored.summary),
      SetPath(update.firstName, stored.firstName),
      SetPath(update.lastName, stored.lastName),
      SetPath(update.jobTitle, stored.jobTitle),
      SetPath(update.city, stored.city),
      SetPath(update.country, stored.country),
      SetPath(update.phone, stored.phone),
      SetPath(update.email, stored.email))
  }

  /** An update that names no text path. */
  const NoTextUpdate := ResumeText(None, None, None, None, None, None, None, None, None, None, None, None, None)

  /** What the editor's save action sends for an existing résumé: the text
      paths it sets (`None` for a path left out), the photo change, the
      template id, and the three arrays (`None` when left out). */
  datatype ResumeUpdate = ResumeUpdate(
    text: ResumeText,
    photo: PhotoChange,
    templateId: Option<string>,
    skills: Option<seq<string>>,
    workExperiences: Option<seq<WorkExperience>>,
    educations: Option<seq<Education>>)

  /** Saving an edit of a stored résumé at time `now`
      (`findByIdAndUpdate` with validators on, in the editor's save action):
      only the paths present in the update are set, the photo URL changes
      only with a new upload or a removal, a template id in the update must
      be one of the eight ids, `updatedAt` becomes `now`, and the id, owner
      and creation time are kept. */
  function Save(resume: Resume, update: ResumeUpdate, now: TimeValue): (r: Result<Resume, ResumeError>)
    ensures r.Ok? <==> update.templateId.None? || update.templateId.value in TemplateKeys
    ensures r.Err? ==> r.error == TemplateIdNotInEnum(update.templateId.value)
    ensures r.Ok? ==> r.value.templateId == (if update.templateId.Some? then update.templateId.value else resume.templateId)
    ensures r.Ok? ==> r.value.id == resume.id && r.value.userId == resume.userId
    ensures r.Ok? ==> r.value.createdAt == resume.createdAt && r.value.updatedAt == now
    ensures r.Ok? ==> r.value.text == MergeText(resume.text, update.text, update.photo)
    ensures r.Ok? ==> r.value.skills == (if update.skills.Some? then update.skills.value else resume.skills)
    ensures r.Ok? ==> r.value.workExperiences
                      == (if update.workExperiences.Some? then update.workExperiences.value else resume.workExperiences)
    ensures r.Ok? ==> r.value.educations == (if update.educations.Some? then update.educations.value else resume.educations)
    ensures r.Ok? && Stored(resume) ==> Stored(r.value)
  {
    var kept := match update.templateId
      case None => Ok(resume.templateId)
      case Some(_) => TemplateIdPath(update.templateId);
    match kept
    case Err(e) => Err(e)
    case Ok(t) =>
      Ok(resume.(text := MergeText(resume.text, update.text, update.photo), templateId := t,
                 skills := match update.skills case Some(s) => s case None => resume.skills,
                 workExperiences := match update.workExperiences case Some(w) => w case None => resume.workExperiences,
                 educations := match update.educations case Some(e) => e case None => resume.educations,
                 updatedAt := now))
  }

  /** A save whose photo is left unchanged keeps the stored photo URL,
      whatever the rest of the update says. */
  lemma SaveKeepsPhotoUnlessChanged(resume: Resume, update: ResumeUpdate, now: TimeValue)
    requires update.photo == PhotoUnchanged
    requires Save(resume, update, now).Ok?
    ensures Save(resume, update, now).value.text.photoUrl == resume.text.photoUrl
  {
  }

  /** An update that sets nothing changes only the update time. */
  lemma EmptySaveTouchesOnlyUpdateTime(resume: Resume, now: TimeValue)
    ensures Save(resume, ResumeUpdate(NoTextUpdate, PhotoUnchanged, None, None, None, None), now)
            == Ok(resume.(updatedAt := now))
  {
  }

  /** Saving the same update twice at the same time is the same as saving it
      once. */
  lemma SaveIdempotent(resume: Resume, update: ResumeUpdate, now: TimeValue)
    requires Save(resume, update, now).Ok?
    ensures Save(Save(resume, update, now).value, update, now) == Save(resume, update, now)
  {
  }

  /** The lower-case hexadecimal digit for `d`. */
  function HexDigit(d: nat): (c: char)
    requires d < 16
  {
    if d < 10 then ('0' as int + d) as char else ('a' as int + d - 10) as char
  }

  /** The value of a lower-case hexadecimal digit, if `c` is one. */
  function HexValue(c: char): (d: Option<nat>)
    ensures d.Some? <==> '0' <= c <= '9' || 'a' <= c <= 'f'
    ensures d.Some? ==> d.value < 16 && HexDigit(d.value) == c
  {
    if '0' <= c <= '9' then Some(c as nat - '0' as nat)
    else if 'a' <= c <= 'f' then Some(c as nat - 'a' as nat + 10)
    else None
  }

  /** `toHexString()`: two lower-case hexadecimal digits per byte, high
      nibble first. */
  function ToHex(bytes: seq<Byte>): (s: string)
    ensures |s| == 2 * |bytes|
    ensures forall i :: 0 <= i < |s| ==> HexValue(s[i]).Some?
  {
    if bytes == [] then "" else [HexDigit(bytes[0] / 16), HexDigit(bytes[0] % 16)] + ToHex(bytes[1..])
  }

  /** The byte two hexadecimal digits stand for, high nibble first. */
  function ParseByte(hi: char, lo: char): (r: Option<Byte>)
    ensures r.Some? <==> HexValue(hi).Some? && HexValue(lo).Some?
  {
    match (HexValue(hi), HexValue(lo))
    case (Some(h), Some(l)) => Some(h * 16 + l)
    case _ => None
  }

  /** Reading a hexadecimal string back into bytes; `None` for an odd length
      or a character that is not a lower-case hexadecimal digit. */
  function ParseHex(s: string): (r: Option<seq<Byte>>)
    ensures r.Some? ==> 2 * |r.value| == |s|
    decreases |s|
  {
    if s == [] then Some([])
    else if |s| < 2 then None
    else match ParseByte(s[0], s[1])
      case None => None
      case Some(b) =>
        match ParseHex(s[2..])
        case None => None
        case Some(rest) => Some([b] + rest)
  }

  /** The two digits of a byte read back as the byte. */
  lemma ByteRoundTrip(b: Byte)
    ensures ParseByte(HexDigit(b / 16), HexDigit(b % 16)) == Some(b)
  {
    assert HexValue(HexDigit(b / 16)) == Some(b / 16);
    assert HexValue(HexDigit(b % 16)) == Some(b % 16);
  }

  /** Reading back the hexadecimal form of bytes gives the bytes. */
  lemma {:induction false} HexRoundTrip(bytes: seq<Byte>)
    ensures ParseHex(ToHex(bytes)) == Some(bytes)
    decreases |bytes|
  {
    if bytes != [] {
      var s := ToHex(bytes);
      assert s[0] == HexDigit(bytes[0] / 16) && s[1] == HexDigit(bytes[0] % 16);
      assert s[2..] == ToHex(bytes[1..]);
      ByteRoundTrip(bytes[0]);
      HexRoundTrip(bytes[1..]);
      assert [bytes[0]] + bytes[1..] == bytes;
    }
  }

  /** The JSON (and plain-object) form of a résumé: the stored fields plus
      `id`, the string form of `_id`. */
  datatype ResumeJson = ResumeJson(objectId: ObjectId, id: string, resume: Resume)

  /** `resume.toJSON()` / `resume.toObject()`. */
  function ToJson(resume: Resume): (j: ResumeJson)
    ensures j.objectId == resume.id && j.resume == resume
    ensures |j.id| == 24
    ensures ParseHex(j.id) == Some(resume.id)
  {
    HexRoundTrip(resume.id);
    ResumeJson(resume.id, ToHex(resume.id), resume)
  }

  /** Two résumés with different ObjectIds serialise with different ids, so
      `id` identifies a résumé as well as `_id` does. */
  lemma JsonIdsDistinct(a: Resume, b: Resume)
    requires a.id != b.id
    ensures ToJson(a).id != ToJson(b).id
  {
    HexRoundTrip(a.id);
    HexRoundTrip(b.id);
  }
}
