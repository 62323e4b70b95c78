/**
 The records the CV builder edits and the pure state transitions behind
 its change, add and remove handlers. Every text field is a string that
 starts out empty; an input names the field it edits by one of the fixed
 field names below.
 */
module CvForm {
  import opened ArrayOps

  datatype PersonalInfo = PersonalInfo(name: string, email: string, phone: string)
  datatype Experience = Experience(company: string, position: string, duration: string, description: string)
  datatype Education = Education(institution: string, degree: string, year: string)

  /** The `name` attributes of the inputs, one enumeration per record type. */
  datatype PersonalField = Name | Email | Phone
  datatype ExperienceField = Company | Position | Duration | Description
  datatype EducationField = Institution | Degree | Year

  /** The whole form state at one moment: what the preview is drawn from. */
  datatype Snapshot = Snapshot(
    personalInfo: PersonalInfo,
    experiences: seq<Experience>,
    educations: seq<Education>,
    skills: seq<string>)

  const EmptyPersonalInfo := PersonalInfo("", "", "")
  const EmptyExperience := Experience("", "", "", "")
  const EmptyEducation := Education("", "", "")
  const EmptySkill: string := ""

  /** The state at mount: blank personal details and one blank entry per collection. */
  const InitialSnapshot := Snapshot(EmptyPersonalInfo, [EmptyExperience], [EmptyEducation], [EmptySkill])

  // Field access by name, i.e. `record[fieldName]`.

  function PersonalValue(p: PersonalInfo, f: PersonalField): string {
    match f
    case Name => p.name
    case Email => p.email
    case Phone => p.phone
  }

  function ExperienceValue(e: Experience, f: ExperienceField): string {
    match f
    case Company => e.company
    case Position => e.position
    case Duration => e.duration
    case Description => e.description
  }

  function EducationValue(e: Education, f: EducationField): string {
    match f
    case Institution => e.institution
    case Degree => e.degree
    case Year => e.year
  }

  predicate IsBlankPersonalInfo(p: PersonalInfo) {
    forall f :: PersonalValue(p, f) == ""
  }

  predicate IsBlankExperience(e: Experience) {
    forall f :: ExperienceValue(e, f) == ""
  }

  predicate IsBlankEducation(e: Education) {
    forall f :: EducationValue(e, f) == ""
  }

  // Object spread with a computed key, `{ ...record, [fieldName]: value }`: the
  // record-level update that the change handlers apply to one record.

  function WithPersonal(p: PersonalInfo, f: PersonalField, v: string): (r: PersonalInfo)
    ensures forall g :: PersonalValue(r, g) == if g == f then v else PersonalValue(p, g)
  {
    match f
    case Name => p.(name := v)
    case Email => p.(email := v)
    case Phone => p.(phone := v)
  }

  function WithExperience(e: Experience, f: ExperienceField, v: string): (r: Experience)
    ensures forall g :: ExperienceValue(r, g) == if g == f then v else ExperienceValue(e, g)
  {
    match f
    case Company => e.(company := v)
    case Position => e.(position := v)
    case Duration => e.(duration := v)
    case Description => e.(description := v)
  }

  function WithEducation(e: Education, f: EducationField, v: string): (r: Education)
    ensures forall g :: EducationValue(r, g) == if g == f then v else EducationValue(e, g)
  {
    match f
    case Institution => e.(institution := v)
    case Degree => e.(degree := v)
    case Year => e.(year := v)
  }

  /** A record is determined by its field values. */
  lemma ExperienceByFields(a: Experience, b: Experience)
    requires forall f :: ExperienceValue(a, f) == ExperienceValue(b, f)
    ensures a == b
  {
    assert ExperienceValue(a, Company) == ExperienceValue(b, Company);
    assert ExperienceValue(a, Position) == ExperienceValue(b, Position);
    assert ExperienceValue(a, Duration) == ExperienceValue(b, Duration);
    assert ExperienceValue(a, Description) == ExperienceValue(b, Description);
  }

  /** The initial state: every personal field is empty and each collection holds one blank entry. */
  lemma InitialSnapshotIsBlank()
    ensures IsBlankPersonalInfo(InitialSnapshot.personalInfo)
    ensures |InitialSnapshot.experiences| == 1 && IsBlankExperience(InitialSnapshot.experiences[0])
    ensures |InitialSnapshot.educations| == 1 && IsBlankEducation(InitialSnapshot.educations[0])
    ensures InitialSnapshot.skills == [""]
  {
  }

  // handlePersonalInfoChange

  /** The handler's transition of the personal-info slice: it applies the spread to the one
      record, so it states the handler's promise on the named field and on the other two. */
  function ChangePersonalInfo(p: PersonalInfo, f: PersonalField, v: string): (r: PersonalInfo)
    ensures PersonalValue(r, f) == v
    ensures forall g :: g != f ==> PersonalValue(r, g) == PersonalValue(p, g)
  {
    WithPersonal(p, f, v)
  }

  // handleExperienceChange, handleEducationChange, handleSkillChange

  function ChangeExperience(s: seq<Experience>, index: int, f: ExperienceField, v: string): (r: seq<Experience>)
    ensures |r| == |s|
    ensures 0 <= index < |s| ==> ExperienceValue(r[index], f) == v
    ensures 0 <= index < |s| ==>
      forall g :: g != f ==> ExperienceValue(r[index], g) == ExperienceValue(s[index], g)
    ensures forall j :: 0 <= j < |s| && j != index ==> r[j] == s[j]
    ensures !(0 <= index < |s|) ==> r == s
  {
    UpdateAt(s, index, (e: Experience) => WithExperience(e, f, v))
  }

  function ChangeEducation(s: seq<Education>, index: int, f: EducationField, v: string): (r: seq<Education>)
    ensures |r| == |s|
    ensures 0 <= index < |s| ==> EducationValue(r[index], f) == v
    ensures 0 <= index < |s| ==>
      forall g :: g != f ==> EducationValue(r[index], g) == EducationValue(s[index], g)
    ensures forall j :: 0 <= j < |s| && j != index ==> r[j] == s[j]
    ensures !(0 <= index < |s|) ==> r == s
  {
    UpdateAt(s, index, (e: Education) => WithEducation(e, f, v))
  }

  function ChangeSkill(s: seq<string>, index: int, v: string): (r: seq<string>)
    ensures |r| == |s|
    ensures 0 <= index < |s| ==> r[index] == v
    ensures forall j :: 0 <= j < |s| && j != index ==> r[j] == s[j]
    ensures !(0 <= index < |s|) ==> r == s
  {
    UpdateAt(s, index, (_: string) => v)
  }

  // addExperience, addEducation, addSkill

  function AddExperience(s: seq<Experience>): (r: seq<Experience>)
    ensures |r| == |s| + 1
    ensures r[..|s|] == s
    ensures IsBlankExperience(r[|s|])
  {
    Append(s, EmptyExperience)
  }

  function AddEducation(s: seq<Education>): (r: seq<Education>)
    ensures |r| == |s| + 1
    ensures r[..|s|] == s
    ensures IsBlankEducation(r[|s|])
  {
    Append(s, EmptyEducation)
  }

  function AddSkill(s: seq<string>): (r: seq<string>)
    ensures |r| == |s| + 1
    ensures r[..|s|] == s
    ensures r[|s|] == ""
  {
    Append(s, EmptySkill)
  }

  // removeExperience, removeEducation, removeSkill

  function RemoveExperience(s: seq<Experience>, index: int): (r: seq<Experience>)
    ensures 0 <= index < |s| ==> |r| == |s| - 1 && r == s[..index] + s[index + 1..]
    ensures !(0 <= index < |s|) ==> r == s
  {
    RemoveAt(s, index)
  }

  function RemoveEducation(s: seq<Education>, index: int): (r: seq<Education>)
    ensures 0 <= index < |s| ==> |r| == |s| - 1 && r == s[..index] + s[index + 1..]
    ensures !(0 <= index < |s|) ==> r == s
  {
    RemoveAt(s, index)
  }

  function RemoveSkill(s: seq<string>, index: int): (r: seq<string>)
    ensures 0 <= index < |s| ==> |r| == |s| - 1 && r == s[..index] + s[index + 1..]
    ensures !(0 <= index < |s|) ==> r == s
  {
    RemoveAt(s, index)
  }

  /** No minimum length is kept: removing the only entry leaves an empty collection. */
  lemma RemovingLastEntryEmpties<T>(x: T)
    ensures RemoveAt([x], 0) == []
  {
  }

  /** Edits of two different fields of the same entry do not interfere, in either order. */
  lemma ExperienceEditsCommute(s: seq<Experience>, index: int, f: ExperienceField, v: string,
                               g: ExperienceField, w: string)
    requires f != g
    ensures ChangeExperience(ChangeExperience(s, index, f, v), index, g, w)
         == ChangeExperience(ChangeExperience(s, index, g, w), index, f, v)
  {
  }

  /** A later edit of the same field overwrites an earlier one. */
  lemma ExperienceEditOverwrites(s: seq<Experience>, index: int, f: ExperienceField, v: string, w: string)
    ensures ChangeExperience(ChangeExperience(s, index, f, v), index, f, w) == ChangeExperience(s, index, f, w)
  {
  }

  /** Appending an entry and then removing it gives back the collection. */
  lemma AddThenRemoveExperience(s: seq<Experience>)
    ensures RemoveExperience(AddExperience(s), |s|) == s
  {
  }
}
