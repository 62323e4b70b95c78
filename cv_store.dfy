/**
 The CV builder's form state: the four state slices of the component and
 the handlers that replace one slice each. Each handler's new slice is the
 pure transition of the same name in `CvForm` applied to the old slice; the
 other three slices are left as they were.
 */
module CvStore {
  import opened CvForm
  import CvPreview

  class Store {
    var personalInfo: PersonalInfo
    var experiences: seq<Experience>
    var educations: seq<Education>
    var skills: seq<string>

    /** The current value of all four slices. */
    function Current(): Snapshot
      reads this
    {
      Snapshot(personalInfo, experiences, educations, skills)
    }

    /** The preview, re-derived from the current state: one line per header, three per
        experience, two per education, one per skill, with the name and the contact line on top. */
    function Preview(): (r: seq<CvPreview.Line>)
      reads this
      ensures |r| == CvPreview.HeaderLines + 3 * |experiences| + 2 * |educations| + |skills|
      ensures r[1] == CvPreview.Line(CvPreview.NameHeading, personalInfo.name)
      ensures r[2] == CvPreview.Line(CvPreview.Contact, personalInfo.email + " | " + personalInfo.phone)
    {
      CvPreview.Render(Current())
    }

    /** Mount: blank personal details and one blank entry in each collection. */
    constructor ()
      ensures Current() == InitialSnapshot
    {
      personalInfo := EmptyPersonalInfo;
      experiences := [EmptyExperience];
      educations := [EmptyEducation];
      skills := [EmptySkill];
    }

    method HandlePersonalInfoChange(field: PersonalField, value: string)
      modifies this
      ensures personalInfo == ChangePersonalInfo(old(personalInfo), field, value)
      ensures experiences == old(experiences) && educations == old(educations) && skills == old(skills)
    {
      personalInfo := ChangePersonalInfo(personalInfo, field, value);
    }

    method HandleExperienceChange(index: int, field: ExperienceField, value: string)
      modifies this
      ensures experiences == ChangeExperience(old(experiences), index, field, value)
      ensures personalInfo == old(personalInfo) && educations == old(educations) && skills == old(skills)
    {
      experiences := ChangeExperience(experiences, index, field, value);
    }

    method HandleEducationChange(index: int, field: EducationField, value: string)
      modifies this
      ensures educations == ChangeEducation(old(educations), index, field, value)
      ensures personalInfo == old(personalInfo) && experiences == old(experiences) && skills == old(skills)
    {
      educations := ChangeEducation(educations, index, field, value);
    }

    method HandleSkillChange(index: int, value: string)
      modifies this
      ensures skills == ChangeSkill(old(skills), index, value)
      ensures personalInfo == old(personalInfo) && experiences == old(experiences) && educations == old(educations)
    {
      skills := ChangeSkill(skills, index, value);
    }

    method AddExperience()
      modifies this
      ensures experiences == CvForm.AddExperience(old(experiences))
      ensures personalInfo == old(personalInfo) && educations == old(educations) && skills == old(skills)
    {
      experiences := CvForm.AddExperience(experiences);
    }

    method AddEducation()
      modifies this
      ensures educations == CvForm.AddEducation(old(educations))
      ensures personalInfo == old(personalInfo) && experiences == old(experiences) && skills == old(skills)
    {
      educations := CvForm.AddEducation(educations);
    }

    method AddSkill()
      modifies this
      ensures skills == CvForm.AddSkill(old(skills))
      ensures personalInfo == old(personalInfo) && experiences == old(experiences) && educations == old(educations)
    {
      skills := CvForm.AddSkill(skills);
    }

    method RemoveExperience(index: int)
      modifies this
      ensures experiences == CvForm.RemoveExperience(old(experiences), index)
      ensures personalInfo == old(personalInfo) && educations == old(educations) && skills == old(skills)
    {
      experiences := CvForm.RemoveExperience(experiences, index);
    }

    method RemoveEducation(index: int)
      modifies this
      ensures educations == CvForm.RemoveEducation(old(educations), index)
      ensures personalInfo == old(personalInfo) && experiences == old(experiences) && skills == old(skills)
    {
      educations := CvForm.RemoveEducation(educations, index);
    }

    method RemoveSkill(index: int)
      modifies this
      ensures skills == CvForm.RemoveSkill(old(skills), index)
      ensures personalInfo == old(personalInfo) && experiences == old(experiences) && educations == old(educations)
    {
      skills := CvForm.RemoveSkill(skills, index);
    }
  }

  /** Two appends give three blank experiences; removing index 1 keeps the
      entries that were at 0 and 2, in that order. Checked from the handlers' contracts alone. */
  method AddRemoveSession() {
    var store := new Store();
    store.AddExperience();
    store.AddExperience();
    assert |store.experiences| == 3;
    assert forall k :: 0 <= k < 3 ==> IsBlankExperience(store.experiences[k]);
    assert |store.Preview()| == 6 + 3 * 3 + 2 + 1;
    assert store.Preview()[4] == CvPreview.Line(CvPreview.EntryHeading, " at ") by {
      CvPreview.ExperienceShownAt(store.Current(), 0);
    }
    store.HandleExperienceChange(0, Company, "A");
    store.HandleExperienceChange(2, Company, "C");
    var before := store.experiences;
    store.RemoveExperience(1);
    assert store.experiences == [before[0], before[2]];
    assert store.experiences[0].company == "A" && store.experiences[1].company == "C";
  }

  /** Two edits of one entry leave its other fields blank, and the preview shows both. */
  method EditSession() {
    var store := new Store();
    store.HandleExperienceChange(0, Company, "Acme");
    store.HandleExperienceChange(0, Position, "Engineer");
    ExperienceByFields(store.experiences[0], Experience("Acme", "Engineer", "", ""));
    assert store.experiences == [Experience("Acme", "Engineer", "", "")];
    assert store.Preview()[4] == CvPreview.Line(CvPreview.EntryHeading, "Engineer" + " at " + "Acme") by {
      CvPreview.ExperienceShownAt(store.Current(), 0);
    }
  }

  /** An index no entry has changes nothing, and the last entry can be removed. */
  method EdgeSession() {
    var store := new Store();
    store.HandleSkillChange(5, "Dafny");
    assert store.skills == [""];
    store.RemoveSkill(0);
    assert store.skills == [];
  }
}
