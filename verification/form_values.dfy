/**
 Turning résumé data from the server into form values (src/lib/utils.ts):
 `mapToResumeValues` and the JSON replacer `fileReplacer`. The server data
 follows src/lib/types.ts: the stored text fields, optional lists whose
 dates are `Date` objects (server) or strings (client), and the template id.
 The form values follow `ResumeValues`, whose definition is not part of this
 model; its fields are the ones `mapToResumeValues` writes, plus the
 optional `templateId` that the editor and the preview read.
 */
module FormValues {
  import opened Common
  import opened JsDates
  import opened Resumes

  /** A date as it reaches `mapToResumeValues`: absent (`undefined` or
      `null`), a string, or a `Date` object. */
  datatype DateInput = NoDate | DateString(text: string) | DateObject(date: JsDate)

  /** A work-experience entry of the server or client data. */
  datatype WorkInput = WorkInput(
    position: Option<string>,
    company: Option<string>,
    startDate: DateInput,
    endDate: DateInput,
    description: Option<string>)

  /** An education entry of the server or client data. */
  datatype EducationInput = EducationInput(
    degree: Option<string>,
    school: Option<string>,
    startDate: DateInput,
    endDate: DateInput)

  /** `ResumeServerData | ResumeClientData`. */
  datatype ResumeData = ResumeData(
    id: string,
    userId: string,
    text: ResumeText,
    templateId: Option<string>,
    skills: Option<seq<string>>,
    workExperiences: Option<seq<WorkInput>>,
    educations: Option<seq<EducationInput>>,
    createdAt: DateInput,
    updatedAt: DateInput)

  /** A work-experience entry of the form values; dates are `YYYY-MM-DD`. */
  datatype WorkValues = WorkValues(
    position: Option<string>,
    company: Option<string>,
    startDate: Option<string>,
    endDate: Option<string>,
    description: Option<string>)

  /** An education entry of the form values. */
  datatype EducationValues = EducationValues(
    degree: Option<string>,
    school: Option<string>,
    startDate: Option<string>,
    endDate: Option<string>)

  /** The form values of a résumé. */
  datatype ResumeValues = ResumeValues(
    id: Option<string>,
    title: Option<string>,
    description: Option<string>,
    photo: Option<string>,
    firstName: Option<string>,
    lastName: Option<string>,
    jobTitle: Option<string>,
    city: Option<string>,
    country: Option<string>,
    phone: Option<string>,
    email: Option<string>,
    workExperiences: Option<seq<WorkValues>>,
    educations: Option<seq<EducationValues>>,
    skills: Option<seq<string>>,
    borderStyle: Option<string>,
    colorHex: Option<string>,
    summary: Option<string>,
    templateId: Option<string>)

  /** `toISOString()` threw: the RangeError of an Invalid Date. */
  datatype DateError = InvalidTimeValue

  /** `out` is `value || undefined`: a non-empty string kept as it is, and
      nothing for an absent or empty one. */
  predicate NormalisedFrom(out: Option<string>, value: Option<string>)
  {
    if Truthy(value) then out == value else out == None
  }

  /** What a date becomes in the form, stated independently of how it is
      computed: nothing for a falsy date; for a string, its longest prefix
      without a `T` (cut just before the first `T`); for a valid `Date`, its
      UTC calendar date as ISO 8601 writes it. */
  predicate DateTruncated(out: Option<string>, d: DateInput)
  {
    match d
    case NoDate => out == None
    case DateString(s) =>
      if s == "" then out == None
      else out.Some? && |out.value| <= |s| && out.value == s[..|out.value|] && 'T' !in out.value
           && (|out.value| < |s| ==> s[|out.value|] == 'T')
    case DateObject(date) =>
      date.ValidDate? && out == Some(CalendarDateText(CalendarDateOf(date.time)))
  }

  /** The conversion `mapToResumeValues` applies to one date. A `Date`
      object is truthy even when invalid, so an Invalid Date reaches
      `toISOString` and throws. */
  function ConvertDate(d: DateInput): (r: Result<Option<string>, DateError>)
    ensures r.Err? <==> d == DateObject(InvalidDate)
    ensures r.Ok? ==> DateTruncated(r.value, d)
  {
    match d
    case NoDate => Ok(None)
    case DateString(s) => if s == "" then Ok(None) else Ok(Some(BeforeFirst(s, 'T')))
    case DateObject(date) =>
      match ToIsoString(date)
      case None => Err(InvalidTimeValue)
      case Some(iso) =>
        IsoDatePart(date.time);
        Ok(Some(BeforeFirst(iso, 'T')))
  }

  /** Converting an already-converted date changes nothing: the form's
      non-empty dates are fixed points of the truncation. */
  lemma ConvertDateIdempotent(d: DateInput)
    requires ConvertDate(d).Ok? && ConvertDate(d).value.Some? && ConvertDate(d).value.value != ""
    ensures ConvertDate(DateString(ConvertDate(d).value.value)) == ConvertDate(d)
  {
    BeforeFirstNoSeparator(ConvertDate(d).value.value, 'T');
  }

  /** A string without the separator is its own first piece. */
  lemma {:induction false} BeforeFirstNoSeparator(s: string, c: char)
    requires c !in s
    ensures BeforeFirst(s, c) == s
    decreases |s|
  {
    if s != [] {
      BeforeFirstNoSeparator(s[1..], c);
      assert [s[0]] + s[1..] == s;
    }
  }

  /** One work-experience entry of `mapToResumeValues`. */
  function ConvertWork(e: WorkInput): (r: Result<WorkValues, DateError>)
    ensures r.Ok? <==> ConvertDate(e.startDate).Ok? && ConvertDate(e.endDate).Ok?
    ensures r.Ok? ==> (NormalisedFrom(r.value.position, e.position) && NormalisedFrom(r.value.company, e.company)
                       && NormalisedFrom(r.value.description, e.description))
    ensures r.Ok? ==> DateTruncated(r.value.startDate, e.startDate) && DateTruncated(r.value.endDate, e.endDate)
  {
    match (ConvertDate(e.startDate), ConvertDate(e.endDate))
    case (Ok(start), Ok(end)) =>
      Ok(WorkValues(OrUndefined(e.position), OrUndefined(e.company), start, end, OrUndefined(e.description)))
    case _ => Err(InvalidTimeValue)
  }

  /** One education entry of `mapToResumeValues`. */
  function ConvertEducation(e: EducationInput): (r: Result<EducationValues, DateError>)
    ensures r.Ok? <==> ConvertDate(e.startDate).Ok? && ConvertDate(e.endDate).Ok?
    ensures r.Ok? ==> NormalisedFrom(r.value.degree, e.degree) && NormalisedFrom(r.value.school, e.school)
    ensures r.Ok? ==> DateTruncated(r.value.startDate, e.startDate) && DateTruncated(r.value.endDate, e.endDate)
  {
    match (ConvertDate(e.startDate), ConvertDate(e.endDate))
    case (Ok(start), Ok(end)) =>
      Ok(EducationValues(OrUndefined(e.degree), OrUndefined(e.school), start, end))
    case _ => Err(InvalidTimeValue)
  }

  /** `workExperiences?.map(...)` on a present list: entry by entry, same
      length and order; the first throwing entry makes the whole call throw. */
  function ConvertWorkList(es: seq<WorkInput>): (r: Result<seq<WorkValues>, DateError>)
    ensures r.Ok? <==> forall i :: 0 <= i < |es| ==> ConvertWork(es[i]).Ok?
    ensures r.Ok? ==> |r.value| == |es| && forall i :: 0 <= i < |es| ==> ConvertWork(es[i]) == Ok(r.value[i])
  {
    if es == [] then Ok([])
    else match (ConvertWork(es[0]), ConvertWorkList(es[1..]))
      case (Ok(first), Ok(rest)) =>
        assert forall i :: 1 <= i < |es| ==> es[i] == es[1..][i - 1];
        Ok([first] + rest)
      case (Err(e), _) => Err(e)
      case (_, Err(e)) =>
        assert forall i :: 0 <= i < |es| - 1 ==> es[1..][i] == es[i + 1];
        Err(e)
  }

  /** `educations?.map(...)` on a present list. */
  function ConvertEducationList(es: seq<EducationInput>): (r: Result<seq<EducationValues>, DateError>)
    ensures r.Ok? <==> forall i :: 0 <= i < |es| ==> ConvertEducation(es[i]).Ok?
    ensures r.Ok? ==> |r.value| == |es| && forall i :: 0 <= i < |es| ==> ConvertEducation(es[i]) == Ok(r.value[i])
  {
    if es == [] then Ok([])
    else match (ConvertEducation(es[0]), ConvertEducationList(es[1..]))
      case (Ok(first), Ok(rest)) =>
        assert forall i :: 1 <= i < |es| ==> es[i] == es[1..][i - 1];
        Ok([first] + rest)
      case (Err(e), _) => Err(e)
      case (_, Err(e)) =>
        assert forall i :: 0 <= i < |es| - 1 ==> es[1..][i] == es[i + 1];
        Err(e)
  }

  /** `list?.map(f)` for a list that may be absent. */
  function MapWork(es: Option<seq<WorkInput>>): (r: Result<Option<seq<WorkValues>>, DateError>)
    ensures es.None? ==> r == Ok(None)
    ensures es.Some? ==> (r.Ok? <==> ConvertWorkList(es.value).Ok?)
    ensures es.Some? && r.Ok? ==> r.value == Some(ConvertWorkList(es.value).value)
  {
    match es
    case None => Ok(None)
    case Some(list) =>
      match ConvertWorkList(list)
      case Ok(values) => Ok(Some(values))
      case Err(e) => Err(e)
  }

  /** `list?.map(f)` for an education list that may be absent. */
  function MapEducations(es: Option<seq<EducationInput>>): (r: Result<Option<seq<EducationValues>>, DateError>)
    ensures es.None? ==> r == Ok(None)
    ensures es.Some? ==> (r.Ok? <==> ConvertEducationList(es.value).Ok?)
    ensures es.Some? && r.Ok? ==> r.value == Some(ConvertEducationList(es.value).value)
  {
    match es
    case None => Ok(None)
    case Some(list) =>
      match ConvertEducationList(list)
      case Ok(values) => Ok(Some(values))
      case Err(e) => Err(e)
  }

  /** The form values built from the data, with `templateId` given by the
      caller: the shared body of the as-written and the corrected mapping. */
  function BuildValues(data: ResumeData, templateId: Option<string>): (r: Result<ResumeValues, DateError>)
    ensures r.Ok? <==> MapWork(data.workExperiences).Ok? && MapEducations(data.educations).Ok?
    ensures r.Ok? ==> r.value.id == Some(data.id) && r.value.templateId == templateId
    ensures r.Ok? ==> (NormalisedFrom(r.value.title, data.text.title)
                       && NormalisedFrom(r.value.description, data.text.description)
                       && NormalisedFrom(r.value.photo, data.text.photoUrl)
                       && NormalisedFrom(r.value.firstName, data.text.firstName)
                       && NormalisedFrom(r.value.lastName, data.text.lastName)
                       && NormalisedFrom(r.value.jobTitle, data.text.jobTitle)
                       && NormalisedFrom(r.value.city, data.text.city)
                       && NormalisedFrom(r.value.country, data.text.country)
                       && NormalisedFrom(r.value.phone, data.text.phone)
                       && NormalisedFrom(r.value.email, data.text.email)
                       && NormalisedFrom(r.value.summary, data.text.summary))
    ensures r.Ok? ==> (r.value.skills == data.skills && r.value.borderStyle == data.text.borderStyle
                       && r.value.colorHex == data.text.colorHex)
    ensures r.Ok? ==> (r.value.workExperiences == MapWork(data.workExperiences).value
                       && r.value.educations == MapEducations(data.educations).value)
  {
    match (MapWork(data.workExperiences), MapEducations(data.educations))
    case (Ok(work), Ok(educations)) =>
      var t := data.text;
      Ok(ResumeValues(Some(data.id), OrUndefined(t.title), OrUndefined(t.description), OrUndefined(t.photoUrl),
        OrUndefined(t.firstName), OrUndefined(t.lastName), OrUndefined(t.jobTitle), OrUndefined(t.city),
        OrUndefined(t.country), OrUndefined(t.phone), OrUndefined(t.email), work, educations,
        data.skills, t.borderStyle, t.colorHex, OrUndefined(t.summary), templateId))
    case _ => Err(InvalidTimeValue)
  }

  /** `mapToResumeValues(data)` as written: the template id is not copied,
      so the form values never carry one. */
  function MapToResumeValuesAsWritten(data: ResumeData): (r: Result<ResumeValues, DateError>)
    ensures r.Ok? ==> r.value.templateId == None
    ensures r.Ok? <==> MapWork(data.workExperiences).Ok? && MapEducations(data.educations).Ok?
  {
    BuildValues(data, None)
  }

  /** `mapToResumeValues(data)` with the template id copied through, as the
      previews that read it need. */
  function MapToResumeValues(data: ResumeData): (r: Result<ResumeValues, DateError>)
    ensures r.Ok? ==> r.value.templateId == data.templateId
    ensures r.Ok? <==> MapWork(data.workExperiences).Ok? && MapEducations(data.educations).Ok?
    ensures r.Ok? ==> MapToResumeValuesAsWritten(data) == Ok(r.value.(templateId := None))
  {
    BuildValues(data, data.templateId)
  }

  /** Every date of the data, in the order the mapping visits them. */
  predicate NoInvalidDates(data: ResumeData)
  {
    (data.workExperiences.Some? ==>
      forall e :: e in data.workExperiences.value ==>
        e.startDate != DateObject(InvalidDate) && e.endDate != DateObject(InvalidDate))
    && (data.educations.Some? ==>
      forall e :: e in data.educations.value ==>
        e.startDate != DateObject(InvalidDate) && e.endDate != DateObject(InvalidDate))
  }

  /** The mapping throws exactly when some entry holds an Invalid Date. */
  lemma MappingFailsOnlyOnInvalidDates(data: ResumeData)
    ensures MapToResumeValues(data).Ok? <==> NoInvalidDates(data)
  {
    if data.workExperiences.Some? {
      var es := data.workExperiences.value;
      assert (forall i :: 0 <= i < |es| ==> ConvertWork(es[i]).Ok?)
        <==> (forall e :: e in es ==> e.startDate != DateObject(InvalidDate) && e.endDate != DateObject(InvalidDate));
    }
    if data.educations.Some? {
      var es := data.educations.value;
      assert (forall i :: 0 <= i < |es| ==> ConvertEducation(es[i]).Ok?)
        <==> (forall e :: e in es ==> e.startDate != DateObject(InvalidDate) && e.endDate != DateObject(InvalidDate));
    }
  }

  /** Every date in the form values is free of `T`: truncation leaves no
      time-of-day part behind. */
  lemma FormDatesHaveNoTime(data: ResumeData)
    requires MapToResumeValues(data).Ok?
    ensures var v := MapToResumeValues(data).value;
      v.workExperiences.Some? ==>
        forall w :: w in v.workExperiences.value ==>
          (w.startDate.Some? ==> 'T' !in w.startDate.value) && (w.endDate.Some? ==> 'T' !in w.endDate.value)
    ensures var v := MapToResumeValues(data).value;
      v.educations.Some? ==>
        forall w :: w in v.educations.value ==>
          (w.startDate.Some? ==> 'T' !in w.startDate.value) && (w.endDate.Some? ==> 'T' !in w.endDate.value)
  {
    var v := MapToResumeValues(data).value;
    forall w | v.workExperiences.Some? && w in v.workExperiences.value
      ensures (w.startDate.Some? ==> 'T' !in w.startDate.value) && (w.endDate.Some? ==> 'T' !in w.endDate.value)
    {
      var es := data.workExperiences.value;
      var i :| 0 <= i < |v.workExperiences.value| && v.workExperiences.value[i] == w;
      assert ConvertWork(es[i]) == Ok(w);
      DateTruncatedHasNoTime(w.startDate, es[i].startDate);
      DateTruncatedHasNoTime(w.endDate, es[i].endDate);
    }
    forall w | v.educations.Some? && w in v.educations.value
      ensures (w.startDate.Some? ==> 'T' !in w.startDate.value) && (w.endDate.Some? ==> 'T' !in w.endDate.value)
    {
      var es := data.educations.value;
      var i :| 0 <= i < |v.educations.value| && v.educations.value[i] == w;
      assert ConvertEducation(es[i]) == Ok(w);
      DateTruncatedHasNoTime(w.startDate, es[i].startDate);
      DateTruncatedHasNoTime(w.endDate, es[i].endDate);
    }
  }

  /** A truncated date never holds a `T`. */
  lemma DateTruncatedHasNoTime(out: Option<string>, d: DateInput)
    requires DateTruncated(out, d)
    ensures out.Some? ==> 'T' !in out.value
  {
  }

  /** The server data of a stored résumé: its dates are `Date` objects. */
  function ServerDataOf(resume: Resume, id: string): (data: ResumeData)
    ensures NoInvalidDates(data)
    ensures data.templateId == Some(resume.templateId) && data.userId == resume.userId
    ensures data.workExperiences.Some? && |data.workExperiences.value| == |resume.workExperiences|
  {
    ResumeData(id, resume.userId, resume.text, Some(resume.templateId), Some(resume.skills),
      Some(seq(|resume.workExperiences|, i requires 0 <= i < |resume.workExperiences| =>
        var e := resume.workExperiences[i];
        WorkInput(e.position, e.company, AsDate(e.startDate), AsDate(e.endDate), e.description))),
      Some(seq(|resume.educations|, i requires 0 <= i < |resume.educations| =>
        var e := resume.educations[i];
        EducationInput(e.degree, e.school, AsDate(e.startDate), AsDate(e.endDate)))),
      DateObject(ValidDate(resume.createdAt)), DateObject(ValidDate(resume.updatedAt)))
  }

  /** A stored date as the server hands it over. */
  function AsDate(t: Option<TimeValue>): (d: DateInput)
    ensures d != DateObject(InvalidDate)
    ensures t.None? <==> d == NoDate
  {
    match t
    case None => NoDate
    case Some(v) => DateObject(ValidDate(v))
  }

  /** A stored résumé always maps to form values, and the corrected mapping
      hands its template on while the mapping as written loses it. */
  lemma StoredResumeMaps(resume: Resume, id: string)
    ensures MapToResumeValues(ServerDataOf(resume, id)).Ok?
    ensures MapToResumeValues(ServerDataOf(resume, id)).value.templateId == Some(resume.templateId)
    ensures MapToResumeValuesAsWritten(ServerDataOf(resume, id)).value.templateId == None
  {
    MappingFailsOnlyOnInvalidDates(ServerDataOf(resume, id));
  }

  /** A file chosen in the form: its metadata and its contents. */
  datatype File = File(name: string, size: nat, mimeType: string, lastModified: int, contents: seq<Byte>)

  /** A value `JSON.stringify` meets: a `File`, or any other value `V`. */
  datatype JsonInput<V> = FileValue(file: File) | OtherValue(value: V)

  /** What the replacer hands back: a summary of a file, or the value. */
  datatype Replaced<V> = FileSummary(name: string, size: nat, mimeType: string, lastModified: int) | Unchanged(value: V)

  /** `fileReplacer(key, value)`: a `File` becomes its name, size, type and
      modification time (its contents are dropped); every other value is
      returned as it is, whatever the key. */
  function FileReplacer<V>(key: string, value: JsonInput<V>): (r: Replaced<V>)
    ensures value.OtherValue? <==> r.Unchanged?
    ensures value.OtherValue? ==> r.value == value.value
    ensures value.FileValue? ==> (r.name == value.file.name && r.size == value.file.size
                                  && r.mimeType == value.file.mimeType && r.lastModified == value.file.lastModified)
  {
    match value
    case FileValue(f) => FileSummary(f.name, f.size, f.mimeType, f.lastModified)
    case OtherValue(v) => Unchanged(v)
  }

  /** Two files that differ only in contents are replaced by the same
      summary: the replacer keeps metadata only. */
  lemma ReplacerForgetsContents<V>(key: string, f: File, contents: seq<Byte>)
    ensures FileReplacer<V>(key, FileValue(f)) == FileReplacer<V>(key, FileValue(f.(contents := contents)))
  {
  }
}
