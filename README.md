# CV builder form state, in Dafny

This project models the form state store of the `CVBuilder` React component
(`src/app/CvBuilder.tsx`) and the text of its live preview. The component
keeps four state slices: one `PersonalInfo` record (name, email, phone) and three
ordered, index-addressed lists. These are experiences (company, position,
duration, description), educations (institution, degree, year) and skills
(bare strings). Each of the three lists has three handlers. A change handler
edits one field of the entry at an index. An add handler appends one blank
entry. A remove handler deletes the entry at an index. Personal info has only a
change handler, which is addressed by field name and takes no index. The preview is a pure projection
of the four slices to text, in list order.

Files and modules:

- `array_ops.dfy`, module `ArrayOps`: the JavaScript array operations the
  handlers are built from. These are `map` and `filter` with an index-aware
  callback, and the spread-append `[...prev, x]`. They are written as recursive
  functions on `seq`. Lemmas relate them to plain slicing: an update at an
  index, a deletion `s[..i] + s[i+1..]`, and no-ops for an index no entry has.
- `cv_form.dfy`, module `CvForm`: the three record types. It also holds the
  field names as closed enumerations (`Name | Email | Phone`,
  `Company | Position | Duration | Description`, `Institution | Degree | Year`),
  the state at mount, and one pure transition per handler.
- `cv_preview.dfy`, module `CvPreview`: the preview as a sequence of
  `Line(tag, text)`. The tag names the kind of element that shows the text.
  The lemmas say which line shows which field of which entry, and that
  editing one experience changes only that entry's three lines.
- `cv_store.dfy`, module `CvStore`: class `Store` with the four slices as
  fields. It has one method per handler. Each method replaces its slice with
  the matching `CvForm` transition and leaves the other three unchanged.
  `Store.Preview` is the preview of the current state. Three client methods
  replay example sessions, using only the contracts of the methods and the
  preview lemmas.

Indices are modelled as `int`. The handlers accept any index. A negative or
too-large index matches no position in the `map` test `i === index` or the
`filter` test `i !== index`, so the list is left unchanged, and the model
requires nothing of the index. No minimum length is kept: removing the only
entry leaves an empty list.

## Model

| member | source | states |
|---|---|---|
| `ArrayOps.MapWithIndex` | src/app/CvBuilder.tsx:25 | `prev.map((x, i) => …)` keeps the length, and element i of the result is the callback applied to `s[i]` and `i` |
| `ArrayOps.FilterWithIndex` | src/app/CvBuilder.tsx:49 | `prev.filter((x, i) => …)` never grows the list and keeps only elements of the input |
| `ArrayOps.FilterKeepingAll` | src/app/CvBuilder.tsx:49 | a filter whose predicate accepts every position returns the list unchanged |
| `ArrayOps.FilterDroppingOne` | src/app/CvBuilder.tsx:49 | a filter whose predicate rejects exactly position k returns `s[..k] + s[k+1..]` |
| `ArrayOps.UpdateAt` | src/app/CvBuilder.tsx:24-34 | map-with-index-test keeps the length and replaces entry `index` only; every other entry is unchanged; an index outside `[0, |s|)` leaves the list equal to the input |
| `ArrayOps.RemoveAt` | src/app/CvBuilder.tsx:48-58 | filter-with-index-test gives `s[..index] + s[index+1..]` for a valid index and the input itself for any other index |
| `ArrayOps.Append` | src/app/CvBuilder.tsx:36-46 | spread-append adds exactly one element; the old list is an unchanged prefix and the new last element is the one appended |
| `ArrayOps.RemoveAtShifts` | src/app/CvBuilder.tsx:48-58 | removal at a valid index shortens by one; entries before the index stay in place and later entries move down by one, in order |
| `ArrayOps.RemoveAppended` | src/app/CvBuilder.tsx:36-58 | removing the element just appended gives back the original list |
| `ArrayOps.UpdateAtTwice` | src/app/CvBuilder.tsx:24-34 | two updates of the same index are one update with the composed change |
| `CvForm.WithPersonal` | src/app/CvBuilder.tsx:21 | `{ ...prev, [name]: value }` on personal info sets the named field to the value and keeps the other fields |
| `CvForm.WithExperience` | src/app/CvBuilder.tsx:25 | the spread with a computed key on an experience sets the named field and keeps the other three |
| `CvForm.WithEducation` | src/app/CvBuilder.tsx:29 | the spread with a computed key on an education sets the named field and keeps the other two |
| `CvForm.InitialSnapshotIsBlank` | src/app/CvBuilder.tsx:15-18 | at mount name, email and phone are empty, and each list holds exactly one entry whose fields are all empty |
| `CvForm.ChangePersonalInfo` | src/app/CvBuilder.tsx:20-22 | the named personal field now holds the value; the other two fields are unchanged |
| `CvForm.ChangeExperience` | src/app/CvBuilder.tsx:24-26 | same length; for a valid index the entry's named field holds the value and its other fields are as before; other entries are unchanged; an out-of-range index changes nothing |
| `CvForm.ChangeEducation` | src/app/CvBuilder.tsx:28-30 | same as for experiences, over institution, degree and year |
| `CvForm.ChangeSkill` | src/app/CvBuilder.tsx:32-34 | same length; a valid index now holds the new skill text; other skills are unchanged; an out-of-range index changes nothing |
| `CvForm.AddExperience` | src/app/CvBuilder.tsx:36-38 | one more entry; the old list is an unchanged prefix; every field of the new last entry is empty |
| `CvForm.AddEducation` | src/app/CvBuilder.tsx:40-42 | one more entry; the old list is an unchanged prefix; every field of the new last entry is empty |
| `CvForm.AddSkill` | src/app/CvBuilder.tsx:44-46 | one more skill; the old list is an unchanged prefix; the new last skill is empty |
| `CvForm.RemoveExperience` | src/app/CvBuilder.tsx:48-50 | a valid index gives one entry fewer, `s[..i] + s[i+1..]`; any other index changes nothing |
| `CvForm.RemoveEducation` | src/app/CvBuilder.tsx:52-54 | a valid index gives one entry fewer, `s[..i] + s[i+1..]`; any other index changes nothing |
| `CvForm.RemoveSkill` | src/app/CvBuilder.tsx:56-58 | a valid index gives one skill fewer, `s[..i] + s[i+1..]`; any other index changes nothing |
| `CvForm.RemovingLastEntryEmpties` | src/app/CvBuilder.tsx:48-58 | no minimum length is kept: removing the only entry leaves an empty list |
| `CvForm.ExperienceEditsCommute` | src/app/CvBuilder.tsx:24-26 | edits of two different fields of one entry give the same list in either order |
| `CvForm.ExperienceEditOverwrites` | src/app/CvBuilder.tsx:24-26 | a later edit of the same field of the same entry overwrites the earlier one |
| `CvForm.AddThenRemoveExperience` | src/app/CvBuilder.tsx:36-50 | adding an experience and removing it again, at the last index, gives back the list |
| `CvPreview.ExperienceLines` | src/app/CvBuilder.tsx:81-87 | the experience section has three lines per experience |
| `CvPreview.EducationLines` | src/app/CvBuilder.tsx:90-95 | the education section has two lines per education |
| `CvPreview.SkillLines` | src/app/CvBuilder.tsx:99-101 | the skills list has one bullet per skill |
| `CvPreview.ExperienceLinesAt` | src/app/CvBuilder.tsx:81-87 | experience k is shown at lines 3k to 3k+2 of its section: position + " at " + company, then duration, then description |
| `CvPreview.EducationLinesAt` | src/app/CvBuilder.tsx:90-95 | education k is shown at lines 2k and 2k+1 of its section: degree, then institution + ", " + year |
| `CvPreview.SkillLinesAt` | src/app/CvBuilder.tsx:99-101 | skill k is bullet k of the list |
| `CvPreview.ExperienceLinesConcat` | src/app/CvBuilder.tsx:81-87 | the lines of two concatenated lists are the concatenated lines: each entry renders on its own, in list order |
| `CvPreview.Render` | src/app/CvBuilder.tsx:73-105 | the preview has 6 + 3·experiences + 2·educations + skills lines; it starts with the title, the name, and email + " \| " + phone, then the "Experience" heading |
| `CvPreview.RenderSections` | src/app/CvBuilder.tsx:80-102 | the experience, education and skills sections follow one another, each under its heading |
| `CvPreview.ExperienceShownAt` | src/app/CvBuilder.tsx:81-87 | experience k of the state is shown at preview lines 4+3k to 4+3k+2 |
| `CvPreview.EducationShownAt` | src/app/CvBuilder.tsx:89-95 | education k of the state is shown at the two preview lines after the education heading plus 2k |
| `CvPreview.SkillShownAt` | src/app/CvBuilder.tsx:97-102 | skill k of the state is shown as the k-th bullet after the skills heading |
| `CvPreview.ExperienceEditIsLocal` | src/app/CvBuilder.tsx:24-26 | after an edit of experience i the re-derived preview has the same length and differs from the old one only in block i |
| `CvPreview.InitialPreview` | src/app/CvBuilder.tsx:73-105 | the preview at mount, line by line: empty fields show as empty text, leaving only the separators " \| ", " at " and ", " |
| `CvStore.Store.Preview` | src/app/CvBuilder.tsx:73-105 | the memoised preview of the current slices: its length is fixed by the three list lengths, and the name and "email \| phone" lines show the current personal info |
| `CvStore.Store.constructor` | src/app/CvBuilder.tsx:15-18 | a new store holds the state at mount |
| `CvStore.Store.HandlePersonalInfoChange` | src/app/CvBuilder.tsx:20-22 | personal info becomes `ChangePersonalInfo` of the old value; the three lists are unchanged |
| `CvStore.Store.HandleExperienceChange` | src/app/CvBuilder.tsx:24-26 | experiences become `ChangeExperience` of the old list; the other slices are unchanged |
| `CvStore.Store.HandleEducationChange` | src/app/CvBuilder.tsx:28-30 | educations become `ChangeEducation` of the old list; the other slices are unchanged |
| `CvStore.Store.HandleSkillChange` | src/app/CvBuilder.tsx:32-34 | skills become `ChangeSkill` of the old list; the other slices are unchanged |
| `CvStore.Store.AddExperience` | src/app/CvBuilder.tsx:36-38 | experiences get one blank entry appended; the other slices are unchanged |
| `CvStore.Store.AddEducation` | src/app/CvBuilder.tsx:40-42 | educations get one blank entry appended; the other slices are unchanged |
| `CvStore.Store.AddSkill` | src/app/CvBuilder.tsx:44-46 | skills get one empty skill appended; the other slices are unchanged |
| `CvStore.Store.RemoveExperience` | src/app/CvBuilder.tsx:48-50 | experiences lose the entry at the index, if there is one; the other slices are unchanged |
| `CvStore.Store.RemoveEducation` | src/app/CvBuilder.tsx:52-54 | educations lose the entry at the index, if there is one; the other slices are unchanged |
| `CvStore.Store.RemoveSkill` | src/app/CvBuilder.tsx:56-58 | skills lose the entry at the index, if there is one; the other slices are unchanged |

## Left out

- `downloadCV` (src/app/CvBuilder.tsx:60-71) is not modelled. It finds the preview element in the DOM, rasterises it with `html2canvas` and triggers a download of `my_cv.png`. This is asynchronous browser I/O with no state of the form involved. Its only decision is doing nothing when the element is absent.
- The JSX layout, Tailwind classes, `framer-motion` animation props and the `Input`/`Textarea`/`Button` widgets (src/app/CvBuilder.tsx:107-282) are presentation, so they are not modelled. The preview keeps only the text of each element and a tag for its kind.
- React mechanics are not modelled: `useState` batching, `useCallback`/`useMemo` memoisation and list `key`s. A handler is modelled as the state transition its setter applies.
- The computed key `[e.target.name]` is modelled over the fixed field names the inputs supply. An arbitrary key string, which would add a new property to the record, is not modelled.
- Object identity is not modelled: `map` hands back the untouched entries as the same objects (src/app/CvBuilder.tsx:25, 29, 33). The model has values only, so "unchanged" means equal values.
- Indices are integers. A non-integer JavaScript number would also match no entry, but the inputs never supply one.
- `CvPreview.ExperienceEditIsLocal`: locality of a preview change is proved for experience edits only. Education and skill edits are covered by `EducationShownAt` and `SkillShownAt`, which pin each line to its entry.
