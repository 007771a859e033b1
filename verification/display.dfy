/**
 The display rules the seven template components share
 (src/components/templates/{creative,elegant,tech,compact,professional,minimal,modern}),
 and the points where a component departs from them. A component is modelled
 as a function from the form values to a view record: which sections appear
 and in which order, which entries, contact lines and date labels they show,
 and which radius and colour tokens are chosen. `formatDate` stays
 uninterpreted: a label records the raw date and the pattern it is formatted
 with.
 */
module Display {
  import opened Common
  import opened Seqs
  import opened FormValues

  /** The seven template components with their own display rules. */
  datatype Variant = Creative | Elegant | Tech | Compact | Professional | Minimal | Modern

  // ---------------------------------------------------------------------
  // Blank entries

  /** `Object.values(exp).filter(Boolean).length > 0`: some field of the
      work entry is a non-empty string. */
  predicate WorkNotBlank(e: WorkValues)
  {
    Truthy(e.position) || Truthy(e.company) || Truthy(e.startDate) || Truthy(e.endDate) || Truthy(e.description)
  }

  /** The same test for an education entry. */
  predicate EducationNotBlank(e: EducationValues)
  {
    Truthy(e.degree) || Truthy(e.school) || Truthy(e.startDate) || Truthy(e.endDate)
  }

  /** A list the form values may leave out, read as empty when absent. */
  function Entries<T>(list: Option<seq<T>>): seq<T>
  {
    match list
    case Some(s) => s
    case None => []
  }

  function WorkNotBlankTest(): WorkValues -> bool
  {
    e => WorkNotBlank(e)
  }

  function EducationNotBlankTest(): EducationValues -> bool
  {
    e => EducationNotBlank(e)
  }

  /** `workExperienceNotEmpty`: the work entries a template lists. Every
      non-blank entry is kept, as often as it occurs, no blank one is, and the
      order is the form's; the list is empty exactly when every entry is
      blank. */
  function VisibleWork(list: Option<seq<WorkValues>>): (r: seq<WorkValues>)
    ensures IsSubsequence(r, Entries(list))
    ensures forall e :: multiset(r)[e] == if WorkNotBlank(e) then multiset(Entries(list))[e] else 0
    ensures |r| > 0 <==> exists i :: 0 <= i < |Entries(list)| && WorkNotBlank(Entries(list)[i])
  {
    var s := Entries(list);
    FilterIsSubsequence(s, WorkNotBlankTest());
    FilterCounts(s, WorkNotBlankTest());
    FilterMembers(s, WorkNotBlankTest());
    Filter(s, WorkNotBlankTest())
  }

  /** `educationNotEmpty`: the education entries a template lists, by the
      same rule. */
  function VisibleEducations(list: Option<seq<EducationValues>>): (r: seq<EducationValues>)
    ensures IsSubsequence(r, Entries(list))
    ensures forall e :: multiset(r)[e] == if EducationNotBlank(e) then multiset(Entries(list))[e] else 0
    ensures |r| > 0 <==> exists i :: 0 <= i < |Entries(list)| && EducationNotBlank(Entries(list)[i])
  {
    var s := Entries(list);
    FilterIsSubsequence(s, EducationNotBlankTest());
    FilterCounts(s, EducationNotBlankTest());
    FilterMembers(s, EducationNotBlankTest());
    Filter(s, EducationNotBlankTest())
  }

  /** Clearing the fields of an entry removes it from the display and
      changes nothing else: the other entries keep their order. */
  lemma {:induction false} BlankWorkEntryHidden(before: seq<WorkValues>, e: WorkValues, after: seq<WorkValues>)
    requires !WorkNotBlank(e)
    ensures VisibleWork(Some(before + [e] + after)) == VisibleWork(Some(before + after))
  {
    FilterConcat(before + [e], after, WorkNotBlankTest());
    FilterConcat(before, [e], WorkNotBlankTest());
    FilterCons(e, [], WorkNotBlankTest());
    FilterConcat(before, after, WorkNotBlankTest());
  }

  // ---------------------------------------------------------------------
  // Contact

  /** `hasContact = city || country || phone || email`. */
  predicate HasContact(v: ResumeValues)
  {
    Truthy(v.city) || Truthy(v.country) || Truthy(v.phone) || Truthy(v.email)
  }

  /** The location line, shown when city or country is set: both joined by
      ", ", or the one that is set. */
  function Location(city: Option<string>, country: Option<string>): (r: Option<string>)
    ensures r.Some? <==> Truthy(city) || Truthy(country)
    ensures r.Some? ==> r.value != ""
  {
    if Truthy(city) && Truthy(country) then Some(city.value + ", " + country.value)
    else if Truthy(city) then city
    else if Truthy(country) then country
    else None
  }

  /** The location line is what the markup
      `{city}{city && country ? ", " : ""}{country}` renders, with an absent
      value rendering as nothing. */
  lemma LocationIsRenderedJoin(city: Option<string>, country: Option<string>)
    requires Truthy(city) || Truthy(country)
    ensures Location(city, country) == Some(Text(city) + (if Truthy(city) && Truthy(country) then ", " else "") + Text(country))
  {
    if !Truthy(city) {
      assert Text(city) == "";
      assert Text(city) + "" + Text(country) == country.value;
    } else if !Truthy(country) {
      assert Text(country) == "";
      assert Text(city) + "" + Text(country) == city.value;
    }
  }

  /** The one-item list of a non-empty string, else the empty list. */
  function ItemIf(s: Option<string>): (r: seq<string>)
    ensures Truthy(s) ==> r == [s.value]
    ensures !Truthy(s) ==> r == []
  {
    if Truthy(s) then [s.value] else []
  }

  /** Whether a template has a contact section of its own; Tech and Minimal
      put the contact lines inside an always-present header block. */
  predicate HasContactSection(variant: Variant)
  {
    variant != Tech && variant != Minimal
  }

  /** Minimal's contact items: city, country, phone and email, each its own
      item when non-empty, never joined. */
  function SeparateItems(v: ResumeValues): (lines: seq<string>)
    ensures |lines| > 0 <==> HasContact(v)
    ensures |lines| <= 4
    ensures forall i :: 0 <= i < |lines| ==> lines[i] != ""
    ensures Truthy(v.city) && Truthy(v.country) ==> |lines| >= 2 && lines[0] == v.city.value && lines[1] == v.country.value
    ensures Truthy(v.email) ==> |lines| > 0 && lines[|lines| - 1] == v.email.value
  {
    var tail := ItemIf(v.phone) + ItemIf(v.email);
    assert Truthy(v.email) ==> tail[|tail| - 1] == v.email.value;
    ItemIf(v.city) + (ItemIf(v.country) + tail)
  }

  /** The contact lines of the other templates: the location line, then
      phone, then email. */
  function JoinedLines(v: ResumeValues): (lines: seq<string>)
    ensures |lines| > 0 <==> HasContact(v)
    ensures |lines| <= 3
    ensures forall i :: 0 <= i < |lines| ==> lines[i] != ""
    ensures Truthy(v.city) && Truthy(v.country) ==> |lines| > 0 && lines[0] == v.city.value + ", " + v.country.value
    ensures Truthy(v.email) ==> |lines| > 0 && lines[|lines| - 1] == v.email.value
  {
    (match Location(v.city, v.country) case Some(l) => [l] case None => []) + ItemIf(v.phone) + ItemIf(v.email)
  }

  /** The contact lines a template shows: joined for six templates, separate
      items for Minimal. The lines are empty exactly when the contact gate
      is closed, whichever the template. */
  function ContactLines(variant: Variant, v: ResumeValues): (lines: seq<string>)
    ensures |lines| > 0 <==> HasContact(v)
    ensures forall i :: 0 <= i < |lines| ==> lines[i] != ""
  {
    if variant == Minimal then SeparateItems(v) else JoinedLines(v)
  }

  // ---------------------------------------------------------------------
  // Border radius

  /** `BorderStyles`: square, circle, or any other value. */
  datatype BorderStyle = Square | Circle | OtherStyle

  /** The enumeration value a `borderStyle` string stands for. */
  function StyleOf(borderStyle: Option<string>): (b: BorderStyle)
    ensures b == Square <==> borderStyle == Some("square")
    ensures b == Circle <==> borderStyle == Some("circle")
  {
    if borderStyle == Some("square") then Square
    else if borderStyle == Some("circle") then Circle
    else OtherStyle
  }

  /** The radius of the photo when the style is neither square nor circle. */
  function DefaultPhotoRadius(variant: Variant): (r: string)
    ensures r != "0px" && r != "9999px"
  {
    match variant
    case Creative => "20%"
    case Elegant => "14px"
    case Professional => "8px"
    case Tech => "10%"
    case Compact => "10%"
    case Minimal => "10%"
    case Modern => "10%"
  }

  /** The photo's `borderRadius`: 0px for square, 9999px for circle, the
      template's own default otherwise. */
  function PhotoRadius(variant: Variant, borderStyle: Option<string>): (r: string)
    ensures borderStyle == Some("square") ==> r == "0px"
    ensures borderStyle == Some("circle") ==> r == "9999px"
    ensures StyleOf(borderStyle) == OtherStyle ==> r == DefaultPhotoRadius(variant)
  {
    match StyleOf(borderStyle)
    case Square => "0px"
    case Circle => "9999px"
    case OtherStyle => DefaultPhotoRadius(variant)
  }

  /** The radius tells the style apart: two border styles give the same photo
      radius in a template only when they are the same enumeration value. */
  lemma PhotoRadiusDeterminesStyle(variant: Variant, a: Option<string>, b: Option<string>)
    requires PhotoRadius(variant, a) == PhotoRadius(variant, b)
    ensures StyleOf(a) == StyleOf(b)
  {
  }

  /** The skill badges' `borderRadius`: only Tech and Minimal set one, 0px,
      9999px or 4px. */
  function BadgeRadius(variant: Variant, borderStyle: Option<string>): (r: Option<string>)
    ensures r.Some? <==> variant == Tech || variant == Minimal
    ensures r.Some? && StyleOf(borderStyle) != OtherStyle ==> r.value == PhotoRadius(variant, borderStyle)
    ensures r.Some? && StyleOf(borderStyle) == OtherStyle ==> r.value == "4px"
  {
    if variant == Tech || variant == Minimal then
      Some(match StyleOf(borderStyle) case Square => "0px" case Circle => "9999px" case OtherStyle => "4px")
    else None
  }

  // ---------------------------------------------------------------------
  // Date labels

  /** The `formatDate` patterns in use: "MMM yyyy", "MM/yyyy", "MMMM yyyy". */
  datatype DatePattern = ShortMonthYear | NumericMonthYear | LongMonthYear

  /** `formatDate(date, pattern)`, left uninterpreted. */
  datatype FormattedDate = FormattedDate(date: string, pattern: DatePattern)

  /** What follows the separator: a formatted end date, a word standing for
      an open end, or nothing. */
  datatype LabelEnd = EndDate(formatted: FormattedDate) | EndWord(word: string) | NoEnd

  /** A date label: start, separator, end. */
  datatype DateLabel = DateLabel(start: FormattedDate, separator: string, end: LabelEnd)

  /** The pattern dates are formatted with. */
  function PatternOf(variant: Variant): DatePattern
  {
    match variant
    case Tech => NumericMonthYear
    case Professional => LongMonthYear
    case _ => ShortMonthYear
  }

  /** The word for an open-ended job. */
  function PresentWord(variant: Variant): (w: string)
    ensures w == "Present" || w == "present"
  {
    if variant == Tech then "present" else "Present"
  }

  /** The separator between start and end as the Elegant source spells it: a
      space, the three characters U+00E2 U+20AC U+201C (the UTF-8 bytes of an
      en dash read as Windows-1252) and a space. */
  const ElegantSeparatorAsWritten: string := " â€“ "

  /** The separator between start and end as the templates render it: a
      hyphen between spaces, except Elegant's garbled one. */
  function Separator(variant: Variant): (s: string)
    ensures |s| >= 3 && s[0] == ' ' && s[|s| - 1] == ' '
    ensures variant != Elegant ==> |s| == 3 && s[1] == '-'
    ensures variant == Elegant ==> s == ElegantSeparatorAsWritten
  {
    if variant == Elegant then ElegantSeparatorAsWritten else " - "
  }

  /** The separator as intended: an en dash for Elegant, a hyphen for the
      others, with a space on each side. */
  function IntendedSeparator(variant: Variant): (s: string)
    ensures |s| == 3 && s[0] == ' ' && s[2] == ' '
    ensures s[1] == (if variant == Elegant then '–' else '-')
  {
    if variant == Elegant then " – " else " - "
  }

  /** The Elegant separator as written is not an en dash between spaces: the
      label shows five characters where three were meant. */
  lemma ElegantSeparatorGarbled()
    ensures |Separator(Elegant)| == 5 && '–' !in Separator(Elegant)
    ensures Separator(Elegant) != IntendedSeparator(Elegant)
  {
  }

  /** The intended separator differs from the rendered one exactly for
      Elegant. */
  lemma SeparatorCorrectedOnlyForElegant(variant: Variant)
    ensures Separator(variant) == IntendedSeparator(variant) <==> variant != Elegant
  {
    if variant == Elegant {
      ElegantSeparatorGarbled();
    }
  }

  /** A work entry's label: shown only with a start date; it ends in the
      formatted end date, or in the template's word for "present". */
  function WorkDateLabel(variant: Variant, e: WorkValues): (l: Option<DateLabel>)
    ensures l.Some? <==> Truthy(e.startDate)
    ensures l.Some? ==> l.value.start == FormattedDate(e.startDate.value, PatternOf(variant))
                        && l.value.separator == Separator(variant)
    ensures l.Some? && Truthy(e.endDate) ==> l.value.end == EndDate(FormattedDate(e.endDate.value, PatternOf(variant)))
    ensures l.Some? && !Truthy(e.endDate) ==> l.value.end == EndWord(PresentWord(variant))
  {
    if !Truthy(e.startDate) then None
    else
      var pattern := PatternOf(variant);
      Some(DateLabel(FormattedDate(e.startDate.value, pattern), Separator(variant),
        if Truthy(e.endDate) then EndDate(FormattedDate(e.endDate.value, pattern)) else EndWord(PresentWord(variant))))
  }

  /** An education entry's label: shown only with a start date; the
      separator and end are appended only when the end date is set. */
  function EducationDateLabel(variant: Variant, e: EducationValues): (l: Option<DateLabel>)
    ensures l.Some? <==> Truthy(e.startDate)
    ensures l.Some? ==> l.value.start == FormattedDate(e.startDate.value, PatternOf(variant))
    ensures l.Some? && Truthy(e.endDate) ==> l.value.separator == Separator(variant)
                                             && l.value.end == EndDate(FormattedDate(e.endDate.value, PatternOf(variant)))
    ensures l.Some? && !Truthy(e.endDate) ==> l.value.separator == "" && l.value.end == NoEnd
  {
    if !Truthy(e.startDate) then None
    else
      var pattern := PatternOf(variant);
      if Truthy(e.endDate) then
        Some(DateLabel(FormattedDate(e.startDate.value, pattern), Separator(variant), EndDate(FormattedDate(e.endDate.value, pattern))))
      else
        Some(DateLabel(FormattedDate(e.startDate.value, pattern), "", NoEnd))
  }

  /** Work and education labels over the same dates agree, except that an
      open-ended job says "present" where an education says nothing. */
  lemma LabelsDifferOnlyInOpenEnd(variant: Variant, w: WorkValues, d: EducationValues)
    requires w.startDate == d.startDate && w.endDate == d.endDate
    ensures Truthy(w.endDate) ==> WorkDateLabel(variant, w) == EducationDateLabel(variant, d)
    ensures Truthy(w.startDate) && !Truthy(w.endDate) ==>
      WorkDateLabel(variant, w).value.end.EndWord? && EducationDateLabel(variant, d).value.end == NoEnd
  {
  }

  // ---------------------------------------------------------------------
  // Entries

  /** How a work entry is shown. */
  datatype WorkEntry = WorkEntry(position: string, company: string, dateLabel: Option<DateLabel>, description: Option<string>)

  /** How an education entry is shown. */
  datatype EducationEntry = EducationEntry(degree: string, school: string, dateLabel: Option<DateLabel>)

  /** Whether a template drops the description block of a work entry when the
      description is empty. */
  predicate GatesDescription(variant: Variant)
  {
    variant == Tech || variant == Minimal
  }

  /** One work entry: Tech and Minimal show the description only when it is
      non-empty; the others always render its paragraph. */
  function WorkEntryOf(variant: Variant, e: WorkValues): (w: WorkEntry)
    ensures w.dateLabel == WorkDateLabel(variant, e)
    ensures GatesDescription(variant) ==> (w.description.Some? <==> Truthy(e.description))
    ensures !GatesDescription(variant) ==> w.description.Some?
    ensures w.description.Some? ==> w.description.value == Text(e.description)
  {
    WorkEntry(Text(e.position), Text(e.company), WorkDateLabel(variant, e),
      if GatesDescription(variant) && !Truthy(e.description) then None else Some(Text(e.description)))
  }

  /** The work entries a template shows, one per visible entry, in order. */
  function WorkEntries(variant: Variant, v: ResumeValues): (r: seq<WorkEntry>)
    ensures |r| == |VisibleWork(v.workExperiences)|
    ensures forall i :: 0 <= i < |r| ==> r[i] == WorkEntryOf(variant, VisibleWork(v.workExperiences)[i])
  {
    var visible := VisibleWork(v.workExperiences);
    seq(|visible|, i requires 0 <= i < |visible| => WorkEntryOf(variant, visible[i]))
  }

  /** The education entries a template shows, one per visible entry, in
      order. */
  function EducationEntries(variant: Variant, v: ResumeValues): (r: seq<EducationEntry>)
    ensures |r| == |VisibleEducations(v.educations)|
    ensures forall i :: 0 <= i < |r| ==>
      r[i] == EducationEntry(Text(VisibleEducations(v.educations)[i].degree), Text(VisibleEducations(v.educations)[i].school),
                             EducationDateLabel(variant, VisibleEducations(v.educations)[i]))
  {
    var visible := VisibleEducations(v.educations);
    seq(|visible|, i requires 0 <= i < |visible| =>
      EducationEntry(Text(visible[i].degree), Text(visible[i].school), EducationDateLabel(variant, visible[i])))
  }

  // ---------------------------------------------------------------------
  // Colours

  /** The colour of headings and accents: Creative, Elegant, Compact and
      Professional fall back to their own colour when `colorHex` is empty;
      Tech, Minimal and Modern pass `colorHex` through, so an empty one sets
      no colour. */
  function Accent(variant: Variant, colorHex: Option<string>): (c: Option<string>)
    ensures Truthy(colorHex) ==> c == colorHex
    ensures variant in {Tech, Minimal, Modern} ==> c == colorHex
    ensures !Truthy(colorHex) && variant !in {Tech, Minimal, Modern} ==> Truthy(c)
  {
    match variant
    case Creative => Some(OrElse(colorHex, "#7c3aed"))
    case Elegant => Some(OrElse(colorHex, "#92400e"))
    case Compact => Some(OrElse(colorHex, "#059669"))
    case Professional => Some(OrElse(colorHex, "#0369a1"))
    case _ => colorHex
  }

  /** The accent is set whatever the colour exactly for the four templates
      with a fallback; the other three leave it unset without a colour. */
  lemma AccentAlwaysSet(variant: Variant)
    ensures (forall colorHex :: Truthy(Accent(variant, colorHex))) <==> variant in {Creative, Elegant, Compact, Professional}
  {
    if variant !in {Creative, Elegant, Compact, Professional} {
      assert !Truthy(Accent(variant, None));
    }
  }

  /** The Modern sidebar background as written: `colorHex + "15" || "#f3f4f6"`. */
  function ModernSidebarAsWritten(colorHex: Option<string>): (c: string)
    ensures c != "#f3f4f6"
    ensures |c| >= 2 && c[|c| - 2..] == "15"
    ensures Truthy(colorHex) ==> c == colorHex.value + "15"
  {
    OrElse(Some(JsConcat(colorHex, "15")), "#f3f4f6")
  }

  /** The fallback never applies: without a colour the background is
      "undefined15", which is not a colour at all, or "15". */
  lemma ModernSidebarFallbackDead(colorHex: Option<string>)
    ensures ModernSidebarAsWritten(colorHex) == JsConcat(colorHex, "15")
    ensures colorHex == None ==> ModernSidebarAsWritten(colorHex) == "undefined15"
    ensures colorHex == Some("") ==> ModernSidebarAsWritten(colorHex) == "15"
  {
  }

  /** The Modern sidebar background as intended, in the form Compact uses:
      the colour with "15" appended, or #f3f4f6 without a colour. */
  function ModernSidebar(colorHex: Option<string>): (c: string)
    ensures Truthy(colorHex) ==> c == colorHex.value + "15"
    ensures !Truthy(colorHex) ==> c == "#f3f4f6"
  {
    if Truthy(colorHex) then colorHex.value + "15" else "#f3f4f6"
  }

  /** The correction changes only the no-colour case. */
  lemma ModernSidebarAgreesWithColour(colorHex: Option<string>)
    ensures Truthy(colorHex) <==> ModernSidebar(colorHex) == ModernSidebarAsWritten(colorHex)
  {
  }

  /** The tinted sidebar background of the templates that have one. */
  function SidebarBackground(variant: Variant, colorHex: Option<string>): (c: Option<string>)
    ensures c.Some? <==> variant in {Creative, Compact, Professional, Modern}
    ensures c.Some? ==> c.value != ""
    ensures c.Some? && Truthy(colorHex) ==> |colorHex.value| <= |c.value| && c.value[..|colorHex.value|] == colorHex.value
    ensures variant == Modern && colorHex == None ==> c == Some("undefined15")
  {
    match variant
    case Creative => Some(if Truthy(colorHex) then colorHex.value + "08" else "#7c3aed08")
    case Compact => Some(if Truthy(colorHex) then colorHex.value + "0D" else "#f3f4f6")
    case Professional => Some(OrElse(colorHex, "#0369a1"))
    case Modern => ModernSidebarFallbackDead(colorHex); Some(ModernSidebarAsWritten(colorHex))
    case _ => None
  }

  /** The Modern skill badges' colour: `colorHex || "#6366f1"`. */
  function ModernBadgeColor(colorHex: Option<string>): (c: string)
    ensures c != ""
    ensures Truthy(colorHex) ==> c == colorHex.value
  {
    OrElse(colorHex, "#6366f1")
  }

  // ---------------------------------------------------------------------
  // Sections

  /** The section components of the templates. `PersonalInfo` is Tech's
      always-present block of photo, name and contact lines. */
  datatype Section = Header | PersonalInfo | Photo | Contact | Skills | Summary | Experience | Education

  /** The sections of a template in document order. */
  function Layout(variant: Variant): (s: seq<Section>)
    ensures Summary in s && Experience in s && Education in s && Skills in s
    ensures Contact in s <==> HasContactSection(variant)
    ensures Photo in s <==> HasContactSection(variant)
    ensures PersonalInfo in s <==> variant == Tech
  {
    match variant
    case Creative => [Header, Photo, Summary, Experience, Education, Contact, Skills]
    case Elegant => [Header, Photo, Contact, Skills, Summary, Experience, Education]
    case Tech => [PersonalInfo, Skills, Education, Summary, Experience]
    case Minimal => [Header, Summary, Experience, Education, Skills]
    case _ => [Photo, Contact, Skills, Header, Summary, Experience, Education]
  }

  /** Which of the optional sections have something to show. */
  datatype Visibility = Visibility(photo: bool, contact: bool, skills: bool, summary: bool, experience: bool, education: bool)

  /** The photo when there is one, the contact block when its gate is open,
      skills when the list is non-empty, the summary when it is non-empty,
      and the entry sections when an entry survives the blank filter. */
  function VisibilityOf(v: ResumeValues): (vis: Visibility)
    ensures vis.photo <==> Truthy(v.photo)
    ensures vis.contact <==> HasContact(v)
    ensures vis.skills <==> |Entries(v.skills)| > 0
    ensures vis.summary <==> Truthy(v.summary)
    ensures vis.experience <==> |VisibleWork(v.workExperiences)| > 0
    ensures vis.education <==> |VisibleEducations(v.educations)| > 0
  {
    Visibility(Truthy(v.photo), HasContact(v), |Entries(v.skills)| > 0, Truthy(v.summary),
      |VisibleWork(v.workExperiences)| > 0, |VisibleEducations(v.educations)| > 0)
  }

  /** Whether a section renders: headers and Tech's personal block always,
      the others only with something to show. */
  predicate Shown(s: Section, vis: Visibility)
  {
    match s
    case Header => true
    case PersonalInfo => true
    case Photo => vis.photo
    case Contact => vis.contact
    case Skills => vis.skills
    case Summary => vis.summary
    case Experience => vis.experience
    case Education => vis.education
  }

  function ShownTest(vis: Visibility): Section -> bool
  {
    s => Shown(s, vis)
  }

  /** The sections a template renders: those of its layout that have
      something to show, in layout order. */
  function ShownSections(variant: Variant, v: ResumeValues): (r: seq<Section>)
    ensures IsSubsequence(r, Layout(variant))
    ensures forall s :: s in r <==> s in Layout(variant) && Shown(s, VisibilityOf(v))
  {
    var vis := VisibilityOf(v);
    FilterIsSubsequence(Layout(variant), ShownTest(vis));
    FilterMembers(Layout(variant), ShownTest(vis));
    Filter(Layout(variant), ShownTest(vis))
  }

  /** Minimal renders its sections in the fixed order header, summary,
      experience, education, skills, and always starts with the header. */
  lemma MinimalSectionOrder(v: ResumeValues)
    ensures IsSubsequence(ShownSections(Minimal, v), [Header, Summary, Experience, Education, Skills])
    ensures |ShownSections(Minimal, v)| > 0 && ShownSections(Minimal, v)[0] == Header
  {
    var l := [Header, Summary, Experience, Education, Skills];
    FilterCons(Header, l[1..], ShownTest(VisibilityOf(v)));
    assert [Header] + l[1..] == l;
  }

  // ---------------------------------------------------------------------
  // The whole view

  /** What a template shows for a set of form values. */
  datatype ResumeView = ResumeView(
    sections: seq<Section>,
    jobTitle: Option<string>,
    photoRadius: Option<string>,
    contactLines: seq<string>,
    skills: seq<string>,
    skillBadgeRadius: Option<string>,
    work: seq<WorkEntry>,
    educations: seq<EducationEntry>,
    accent: Option<string>,
    sidebarBackground: Option<string>,
    modernBadgeColor: Option<string>)

  /** The job-title line: Tech always renders it, the others only when it is
      non-empty. */
  function JobTitleLine(variant: Variant, jobTitle: Option<string>): (r: Option<string>)
    ensures variant == Tech ==> r == Some(Text(jobTitle))
    ensures variant != Tech ==> r == OrUndefined(jobTitle)
  {
    if variant == Tech then Some(Text(jobTitle)) else OrUndefined(jobTitle)
  }

  /** A template rendered over form values. */
  function Render(variant: Variant, v: ResumeValues): (r: ResumeView)
    ensures IsSubsequence(r.sections, Layout(variant))
    ensures forall s :: s in r.sections <==> s in Layout(variant) && Shown(s, VisibilityOf(v))
    ensures r.photoRadius.Some? <==> Truthy(v.photo)
    ensures r.photoRadius.Some? ==> r.photoRadius.value == PhotoRadius(variant, v.borderStyle)
    ensures r.modernBadgeColor.Some? <==> variant == Modern
    ensures variant == Modern ==> r.modernBadgeColor == Some(ModernBadgeColor(v.colorHex))
  {
    ResumeView(
      ShownSections(variant, v),
      JobTitleLine(variant, v.jobTitle),
      if Truthy(v.photo) then Some(PhotoRadius(variant, v.borderStyle)) else None,
      ContactLines(variant, v),
      Entries(v.skills),
      BadgeRadius(variant, v.borderStyle),
      WorkEntries(variant, v),
      EducationEntries(variant, v),
      Accent(variant, v.colorHex),
      SidebarBackground(variant, v.colorHex),
      if variant == Modern then Some(ModernBadgeColor(v.colorHex)) else None)
  }

  /** Over any layout that has the section, a section is rendered exactly
      when it has something to show. */
  lemma SectionShown(layout: seq<Section>, vis: Visibility, s: Section)
    requires s in layout
    ensures s in Filter(layout, ShownTest(vis)) <==> Shown(s, vis)
  {
    FilterMembers(layout, ShownTest(vis));
  }

  /** The entry sections appear exactly when they list an entry. */
  lemma EntrySectionsMatchEntries(variant: Variant, v: ResumeValues)
    ensures Experience in ShownSections(variant, v) <==> |WorkEntries(variant, v)| > 0
    ensures Education in ShownSections(variant, v) <==> |EducationEntries(variant, v)| > 0
  {
    var l := Layout(variant);
    var vis := VisibilityOf(v);
    SectionShown(l, vis, Experience);
    SectionShown(l, vis, Education);
  }

  /** The skills section appears exactly when there is a skill, the summary
      exactly when it is non-empty. */
  lemma TextSectionsMatchContent(variant: Variant, v: ResumeValues)
    ensures Skills in ShownSections(variant, v) <==> |Entries(v.skills)| > 0
    ensures Summary in ShownSections(variant, v) <==> Truthy(v.summary)
  {
    var l := Layout(variant);
    var vis := VisibilityOf(v);
    SectionShown(l, vis, Skills);
    SectionShown(l, vis, Summary);
  }

  /** Where a template has its own contact and photo sections, they appear
      exactly when they have lines or a photo to show; Tech and Minimal show
      their header block whatever the values. */
  lemma ContactAndPhotoSections(variant: Variant, v: ResumeValues)
    ensures HasContactSection(variant) ==> (Contact in ShownSections(variant, v) <==> |ContactLines(variant, v)| > 0)
    ensures HasContactSection(variant) ==> (Photo in ShownSections(variant, v) <==> Truthy(v.photo))
    ensures !HasContactSection(variant) ==> (Header in ShownSections(variant, v) || PersonalInfo in ShownSections(variant, v))
  {
    var l := Layout(variant);
    var vis := VisibilityOf(v);
    if HasContactSection(variant) {
      SectionShown(l, vis, Contact);
      SectionShown(l, vis, Photo);
    } else if variant == Tech {
      SectionShown(l, vis, PersonalInfo);
    } else {
      SectionShown(l, vis, Header);
    }
  }
}
