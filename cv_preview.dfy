/**
 The text content of the CV preview: a pure projection of a form snapshot
 to a sequence of lines, each tagged with the kind of element that shows
 it. Empty fields render as empty text; there are no placeholders.

 Layout: title, name, contact line, the "Experience" heading and three
 lines per experience, the "Education" heading and two lines per
 education, the "Skills" heading and one bullet per skill.
 */
module CvPreview {
  import opened CvForm

  /** The element kinds of the preview: page title, name, contact paragraph,
      section heading, entry heading, small print, paragraph, list bullet. */
  datatype Tag = Title | NameHeading | Contact | SectionHeading | EntryHeading | Small | Paragraph | Bullet

  datatype Line = Line(tag: Tag, text: string)

  const HeaderLines := 6  // title, name, contact, and the three section headings

  function ContactText(p: PersonalInfo): string {
    p.email + " | " + p.phone
  }

  function ExperienceHeading(e: Experience): string {
    e.position + " at " + e.company
  }

  function EducationDetail(e: Education): string {
    e.institution + ", " + e.year
  }

  /** The three lines of one experience: heading (position at company), duration, description. */
  function ExperienceBlock(e: Experience): seq<Line> {
    [Line(EntryHeading, ExperienceHeading(e)), Line(Small, e.duration), Line(Paragraph, e.description)]
  }

  /** The two lines of one education: degree, then institution and year. */
  function EducationBlock(e: Education): seq<Line> {
    [Line(EntryHeading, e.degree), Line(Paragraph, EducationDetail(e))]
  }

  /** `experiences.map(...)`: one block per experience, in sequence order. */
  function ExperienceLines(s: seq<Experience>): (r: seq<Line>)
    ensures |r| == 3 * |s|
    decreases |s|
  {
    if s == [] then [] else ExperienceLines(s[..|s| - 1]) + ExperienceBlock(s[|s| - 1])
  }

  /** `educations.map(...)`: one block per education, in sequence order. */
  function EducationLines(s: seq<Education>): (r: seq<Line>)
    ensures |r| == 2 * |s|
    decreases |s|
  {
    if s == [] then [] else EducationLines(s[..|s| - 1]) + EducationBlock(s[|s| - 1])
  }

  /** `skills.map(...)`: one bullet per skill, in sequence order. */
  function SkillLines(s: seq<string>): (r: seq<Line>)
    ensures |r| == |s|
    decreases |s|
  {
    if s == [] then [] else SkillLines(s[..|s| - 1]) + [Line(Bullet, s[|s| - 1])]
  }

  /** Experience k renders as lines 3k, 3k+1, 3k+2 of the experience section. */
  lemma {:induction false} ExperienceLinesAt(s: seq<Experience>, k: int)
    requires 0 <= k < |s|
    ensures var r := ExperienceLines(s);
      && r[3 * k] == Line(EntryHeading, s[k].position + " at " + s[k].company)
      && r[3 * k + 1] == Line(Small, s[k].duration)
      && r[3 * k + 2] == Line(Paragraph, s[k].description)
    decreases |s|
  {
    var init := s[..|s| - 1];
    if k < |s| - 1 {
      ExperienceLinesAt(init, k);
      assert s[k] == init[k];
    }
  }

  /** Education k renders as lines 2k and 2k+1 of the education section. */
  lemma {:induction false} EducationLinesAt(s: seq<Education>, k: int)
    requires 0 <= k < |s|
    ensures var r := EducationLines(s);
      && r[2 * k] == Line(EntryHeading, s[k].degree)
      && r[2 * k + 1] == Line(Paragraph, s[k].institution + ", " + s[k].year)
    decreases |s|
  {
    var init := s[..|s| - 1];
    if k < |s| - 1 {
      EducationLinesAt(init, k);
      assert s[k] == init[k];
    }
  }

  /** Skill k renders as bullet k of the skills list. */
  lemma {:induction false} SkillLinesAt(s: seq<string>, k: int)
    requires 0 <= k < |s|
    ensures SkillLines(s)[k] == Line(Bullet, s[k])
    decreases |s|
  {
    var init := s[..|s| - 1];
    if k < |s| - 1 {
      SkillLinesAt(init, k);
      assert s[k] == init[k];
    }
  }

  /** Where each section starts in the preview. */
  const ExperienceStart: nat := 4
  function EducationStart(st: Snapshot): nat { 5 + 3 * |st.experiences| }
  function SkillStart(st: Snapshot): nat { 6 + 3 * |st.experiences| + 2 * |st.educations| }

  /** The four lines above the experience entries. */
  function HeadLines(p: PersonalInfo): seq<Line> {
    [Line(Title, "CV Preview"), Line(NameHeading, p.name), Line(Contact, ContactText(p)),
     Line(SectionHeading, "Experience")]
  }

  /** The preview of a snapshot. */
  function Render(st: Snapshot): (r: seq<Line>)
    ensures |r| == HeaderLines + 3 * |st.experiences| + 2 * |st.educations| + |st.skills|
    ensures r[0] == Line(Title, "CV Preview")
    ensures r[1] == Line(NameHeading, st.personalInfo.name)
    ensures r[2] == Line(Contact, st.personalInfo.email + " | " + st.personalInfo.phone)
    ensures r[3] == Line(SectionHeading, "Experience")
  {
    HeadLines(st.personalInfo) + ExperienceLines(st.experiences)
      + [Line(SectionHeading, "Education")] + EducationLines(st.educations)
      + [Line(SectionHeading, "Skills")] + SkillLines(st.skills)
  }

  /** The three sections sit one after the other, each under its heading. */
  lemma RenderSections(st: Snapshot)
    ensures var r := Render(st);
      && r[ExperienceStart..EducationStart(st) - 1] == ExperienceLines(st.experiences)
      && r[EducationStart(st) - 1] == Line(SectionHeading, "Education")
      && r[EducationStart(st)..SkillStart(st) - 1] == EducationLines(st.educations)
      && r[SkillStart(st) - 1] == Line(SectionHeading, "Skills")
      && r[SkillStart(st)..] == SkillLines(st.skills)
  {
  }

  /** Experience k of the snapshot shows at lines 4+3k .. 4+3k+2 of the preview. */
  lemma ExperienceShownAt(st: Snapshot, k: int)
    requires 0 <= k < |st.experiences|
    ensures var r := Render(st); var e := st.experiences[k];
      && r[4 + 3 * k] == Line(EntryHeading, e.position + " at " + e.company)
      && r[4 + 3 * k + 1] == Line(Small, e.duration)
      && r[4 + 3 * k + 2] == Line(Paragraph, e.description)
  {
    var r := Render(st);
    var ex := ExperienceLines(st.experiences);
    RenderSections(st);
    ExperienceLinesAt(st.experiences, k);
    assert r[4 + 3 * k] == ex[3 * k];
    assert r[4 + 3 * k + 1] == ex[3 * k + 1];
    assert r[4 + 3 * k + 2] == ex[3 * k + 2];
  }

  /** Education k shows at lines EducationStart+2k and EducationStart+2k+1. */
  lemma EducationShownAt(st: Snapshot, k: int)
    requires 0 <= k < |st.educations|
    ensures var r := Render(st); var e := st.educations[k]; var b := EducationStart(st);
      && r[b + 2 * k] == Line(EntryHeading, e.degree)
      && r[b + 2 * k + 1] == Line(Paragraph, e.institution + ", " + e.year)
  {
    var r := Render(st);
    var b := EducationStart(st);
    var ed := EducationLines(st.educations);
    RenderSections(st);
    EducationLinesAt(st.educations, k);
    assert r[b + 2 * k] == ed[2 * k];
    assert r[b + 2 * k + 1] == ed[2 * k + 1];
  }

  /** Skill k shows as bullet SkillStart+k. */
  lemma SkillShownAt(st: Snapshot, k: int)
    requires 0 <= k < |st.skills|
    ensures Render(st)[SkillStart(st) + k] == Line(Bullet, st.skills[k])
  {
    var r := Render(st);
    RenderSections(st);
    SkillLinesAt(st.skills, k);
    assert r[SkillStart(st) + k] == SkillLines(st.skills)[k];
  }

  /** The lines of a concatenation are the concatenation of the lines: entries render independently. */
  lemma {:induction false} ExperienceLinesConcat(a: seq<Experience>, b: seq<Experience>)
    ensures ExperienceLines(a + b) == ExperienceLines(a) + ExperienceLines(b)
    decreases |b|
  {
    if b == [] {
      assert a + b == a;
    } else {
      var init := b[..|b| - 1];
      assert (a + b)[..|a + b| - 1] == a + init;
      ExperienceLinesConcat(a, init);
    }
  }

  /** Editing experience i changes only the three preview lines of block i. */
  lemma ExperienceEditIsLocal(st: Snapshot, i: int, f: ExperienceField, v: string)
    requires 0 <= i < |st.experiences|
    ensures var st' := st.(experiences := ChangeExperience(st.experiences, i, f, v));
      && |Render(st')| == |Render(st)|
      && forall j :: 0 <= j < |Render(st)| && !(4 + 3 * i <= j < 4 + 3 * i + 3) ==> Render(st')[j] == Render(st)[j]
  {
    var st' := st.(experiences := ChangeExperience(st.experiences, i, f, v));
    forall j | 0 <= j < |Render(st)| && !(4 + 3 * i <= j < 4 + 3 * i + 3) ensures Render(st')[j] == Render(st)[j] {
      OtherLineUnchanged(st, st', i, j);
    }
  }

  /** Two snapshots that differ only in experience i agree on every preview line outside block i. */
  lemma OtherLineUnchanged(st: Snapshot, st': Snapshot, i: int, j: int)
    requires st'.personalInfo == st.personalInfo && st'.educations == st.educations && st'.skills == st.skills
    requires |st'.experiences| == |st.experiences|
    requires forall k :: 0 <= k < |st.experiences| && k != i ==> st'.experiences[k] == st.experiences[k]
    requires 0 <= j < |Render(st)| && !(4 + 3 * i <= j < 4 + 3 * i + 3)
    ensures Render(st')[j] == Render(st)[j]
  {
    if 4 <= j < EducationStart(st) - 1 {
      OtherExperienceLineUnchanged(st, st', i, j);
    } else if EducationStart(st) - 1 <= j {
      LineAfterExperiencesUnchanged(st, st', j);
    }
  }

  lemma OtherExperienceLineUnchanged(st: Snapshot, st': Snapshot, i: int, j: int)
    requires st'.personalInfo == st.personalInfo && |st'.experiences| == |st.experiences|
    requires forall k :: 0 <= k < |st.experiences| && k != i ==> st'.experiences[k] == st.experiences[k]
    requires 4 <= j < EducationStart(st) - 1 && !(4 + 3 * i <= j < 4 + 3 * i + 3)
    ensures Render(st')[j] == Render(st)[j]
  {
    var k := (j - 4) / 3;
    assert k != i && 0 <= k < |st.experiences|;
    ExperienceLineAt(st, j);
    ExperienceLineAt(st', j);
    ExperienceLinesAt(st.experiences, k);
    ExperienceLinesAt(st'.experiences, k);
  }

  lemma LineAfterExperiencesUnchanged(st: Snapshot, st': Snapshot, j: int)
    requires st'.educations == st.educations && st'.skills == st.skills
    requires |st'.experiences| == |st.experiences|
    requires EducationStart(st) - 1 <= j < |Render(st)|
    ensures Render(st')[j] == Render(st)[j]
  {
  }

  /** Line j of the experience section of the preview is line j-4 of `ExperienceLines`. */
  lemma ExperienceLineAt(st: Snapshot, j: int)
    requires 4 <= j < EducationStart(st) - 1
    ensures Render(st)[j] == ExperienceLines(st.experiences)[j - 4]
  {
  }

  /** The preview of the state at mount. */
  lemma InitialPreview()
    ensures Render(InitialSnapshot) == [
      Line(Title, "CV Preview"), Line(NameHeading, ""), Line(Contact, " | "),
      Line(SectionHeading, "Experience"),
      Line(EntryHeading, " at "), Line(Small, ""), Line(Paragraph, ""),
      Line(SectionHeading, "Education"),
      Line(EntryHeading, ""), Line(Paragraph, ", "),
      Line(SectionHeading, "Skills"),
      Line(Bullet, "")]
  {
    assert [EmptyExperience][..0] == [];
    assert [EmptyEducation][..0] == [];
    assert [EmptySkill][..0] == [];
    assert ExperienceLines([EmptyExperience]) == ExperienceBlock(EmptyExperience);
    assert EducationLines([EmptyEducation]) == EducationBlock(EmptyEducation);
    assert SkillLines([EmptySkill]) == [Line(Bullet, "")];
    assert ExperienceHeading(EmptyExperience) == " at ";
    assert EducationDetail(EmptyEducation) == ", ";
    assert ContactText(EmptyPersonalInfo) == " | ";
  }
}
