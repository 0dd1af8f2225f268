/** The registration form's draft: its defaults, the handlers that change it
    one field or one education entry at a time, and the submit branch that
    turns it into a create or an update request. */
module RegistrationForm {
  import opened UserTypes

  /** The top-level text inputs of the draft, by their `name` attribute. */
  datatype TextField = FullName | Constituency | Party | Position | DateOfBirth | Vision

  /** What one change event on a top-level input carries: a text input's new
      value, or the gender radio button that was picked. */
  datatype InputChange = SetText(field: TextField, value: string) | SetGender(gender: Gender)

  /** The three inputs of an education entry. */
  datatype EducationField = Degree | College | GraduationYear

  /** The request a submit hands to the store. */
  datatype Submission = CreateRequest(userData: UserDetails) | UpdateRequest(user: UserDetails)

  function TextOf(d: UserDetails, f: TextField): string
  {
    match f
    case FullName => d.fullName
    case Constituency => d.constituency
    case Party => d.party
    case Position => d.position
    case DateOfBirth => d.dateOfBirth
    case Vision => d.vision
  }

  function WithText(d: UserDetails, f: TextField, v: string): UserDetails
  {
    match f
    case FullName => d.(fullName := v)
    case Constituency => d.(constituency := v)
    case Party => d.(party := v)
    case Position => d.(position := v)
    case DateOfBirth => d.(dateOfBirth := v)
    case Vision => d.(vision := v)
  }

  function EntryFieldOf(e: Education, f: EducationField): string
  {
    match f
    case Degree => e.degree
    case College => e.college
    case GraduationYear => e.graduationYear
  }

  function WithEntryField(e: Education, f: EducationField, v: string): Education
  {
    match f
    case Degree => e.(degree := v)
    case College => e.(college := v)
    case GraduationYear => e.(graduationYear := v)
  }

  /** `photo || ''`: an absent or empty photo becomes the empty URL. */
  function PhotoOrEmpty(photo: Option<Photo>): (r: Option<Photo>)
    ensures r.Some?
    ensures photo.Some? && photo != Some(PhotoUrl("")) ==> r == photo
    ensures photo.None? || photo == Some(PhotoUrl("")) ==> r == Some(PhotoUrl(""))
  {
    if photo.None? || photo == Some(PhotoUrl("")) then Some(PhotoUrl("")) else photo
  }

  /** The draft a form starts from. Creating: empty text, gender male, one
      blank education entry, empty photo. Editing: the edited record's text
      fields, gender and education list (even an empty one, which is still
      truthy), its photo if it has one. Never an id, contact field or timestamp. */
  function InitialFormData(editingUser: Option<UserDetails>): (d: UserDetails)
    ensures d.id.None? && d.phone.None? && d.email.None? && d.address.None?
    ensures d.city.None? && d.state.None? && d.zipCode.None?
    ensures d.createdAt.None? && d.updatedAt.None? && d.publishedAt.None?
    ensures editingUser.None? ==>
              (forall f :: TextOf(d, f) == "") && d.gender == Male &&
              d.education == [BlankEducation] && d.photo == Some(PhotoUrl(""))
    ensures editingUser.Some? ==>
              (forall f :: TextOf(d, f) == TextOf(editingUser.value, f)) &&
              d.gender == editingUser.value.gender && d.education == editingUser.value.education &&
              d.photo == PhotoOrEmpty(editingUser.value.photo)
  {
    match editingUser
    case None =>
      UserDetails(None, "", "", "", "", "", Male, "", [BlankEducation], Some(PhotoUrl("")),
                  None, None, None, None, None, None, None, None, None)
    case Some(u) =>
      UserDetails(None, u.fullName, u.constituency, u.party, u.position, u.dateOfBirth,
                  u.gender, u.vision, u.education, PhotoOrEmpty(u.photo),
                  None, None, None, None, None, None, None, None, None)
  }

  /** `{...prev, [name]: value}`: the named field takes the value and nothing
      else changes; writing the old value back gives the old draft. */
  function ApplyInput(d: UserDetails, change: InputChange): (r: UserDetails)
    ensures r.education == d.education && r.id == d.id && r.photo == d.photo
    ensures change.SetText? ==>
              TextOf(r, change.field) == change.value && r.gender == d.gender &&
              (forall f :: f != change.field ==> TextOf(r, f) == TextOf(d, f)) &&
              WithText(r, change.field, TextOf(d, change.field)) == d
    ensures change.SetGender? ==>
              r.gender == change.gender && (forall f :: TextOf(r, f) == TextOf(d, f)) &&
              r.(gender := d.gender) == d
  {
    match change
    case SetText(field, value) => WithText(d, field, value)
    case SetGender(gender) => d.(gender := gender)
  }

  /** The education list with field `field` of entry `index` set to `value`:
      same length, that entry's other fields and every other entry unchanged. */
  function SetEntryField(list: seq<Education>, index: nat, field: EducationField, value: string): (r: seq<Education>)
    requires index < |list|
    ensures |r| == |list|
    ensures EntryFieldOf(r[index], field) == value
    ensures WithEntryField(r[index], field, EntryFieldOf(list[index], field)) == list[index]
    ensures forall f :: f != field ==> EntryFieldOf(r[index], f) == EntryFieldOf(list[index], f)
    ensures forall k :: 0 <= k < |list| && k != index ==> r[k] == list[k]
  {
    list[index := WithEntryField(list[index], field, value)]
  }

  /** `list.filter((_, i) => i !== index)`: drops exactly the entry at
      `index` when there is one, and nothing otherwise. */
  function WithoutIndex(list: seq<Education>, index: int): (r: seq<Education>)
    ensures 0 <= index < |list| ==>
              |r| == |list| - 1 &&
              (forall k :: 0 <= k < index ==> r[k] == list[k]) &&
              (forall k :: index <= k < |r| ==> r[k] == list[k + 1])
    ensures !(0 <= index < |list|) ==> r == list
    decreases |list|
  {
    if list == [] then []
    else (if index == 0 then [] else [list[0]]) + WithoutIndex(list[1..], index - 1)
  }

  /** Re-submitting an edit without touching the form sends the edited record
      back without its contact details and timestamps, and with an absent
      photo turned into the empty URL: the draft never carries them. */
  lemma UnchangedEditDropsContactDetails(u: UserDetails)
    ensures InitialFormData(Some(u)).(id := u.id) ==
              u.(photo := PhotoOrEmpty(u.photo),
                 phone := None, email := None, address := None, city := None, state := None, zipCode := None,
                 createdAt := None, updatedAt := None, publishedAt := None)
  {
  }

  /** The form component: its `editingUser` prop and the draft. The prop can
      change while the component stays mounted; the draft then stays. */
  class DraftForm {
    var editingUser: Option<UserDetails>
    var formData: UserDetails

    /** The form's rule: the draft keeps at least one education entry. */
    predicate HasEducation()
      reads this
    {
      |formData.education| >= 1
    }

    constructor (editingUser: Option<UserDetails>)
      ensures this.editingUser == editingUser
      ensures formData == InitialFormData(editingUser)
      ensures HasEducation() <==> editingUser.None? || |editingUser.value.education| >= 1
    {
      this.editingUser := editingUser;
      formData := InitialFormData(editingUser);
    }

    /** The parent re-renders the mounted form with a new `editingUser` prop:
        the draft, held in component state, is kept as it is. */
    method ReceiveEditingUser(e: Option<UserDetails>)
      modifies this`editingUser
      ensures editingUser == e
    {
      editingUser := e;
    }

    method HandleInputChange(change: InputChange)
      modifies this`formData
      ensures formData == ApplyInput(old(formData), change)
      ensures old(HasEducation()) ==> HasEducation()
    {
      formData := ApplyInput(formData, change);
    }

    /** Copies the list, overwrites one entry of the copy, installs the copy. */
    method HandleEducationChange(index: nat, field: EducationField, value: string)
      requires index < |formData.education|
      modifies this`formData
      ensures formData == old(formData).(education := SetEntryField(old(formData.education), index, field, value))
      ensures old(HasEducation()) ==> HasEducation()
    {
      var updatedEducation := formData.education;
      updatedEducation := updatedEducation[index := WithEntryField(updatedEducation[index], field, value)];
      formData := formData.(education := updatedEducation);
    }

    method AddEducation()
      modifies this`formData
      ensures formData == old(formData).(education := old(formData.education) + [BlankEducation])
      ensures HasEducation()
    {
      formData := formData.(education := formData.education + [BlankEducation]);
    }

    /** Refused while only one entry is left. */
    method RemoveEducation(index: int)
      modifies this`formData
      ensures |old(formData.education)| > 1 ==>
                formData == old(formData).(education := WithoutIndex(old(formData.education), index))
      ensures |old(formData.education)| <= 1 ==> formData == old(formData)
      ensures old(HasEducation()) ==> HasEducation()
    {
      if |formData.education| > 1 {
        formData := formData.(education := WithoutIndex(formData.education, index));
      }
    }

    /** Editing: an update carrying the draft and the edited record's id, the
        draft kept. Creating: a create of the draft, then the draft reset. */
    method HandleSubmit() returns (request: Submission)
      modifies this`formData
      ensures editingUser.Some? ==>
                request == UpdateRequest(old(formData).(id := editingUser.value.id)) && formData == old(formData)
      ensures editingUser.None? ==>
                request == CreateRequest(old(formData)) && formData == InitialFormData(None)
      ensures old(HasEducation()) ==> HasEducation()
    {
      if editingUser.Some? {
        request := UpdateRequest(formData.(id := editingUser.value.id));
      } else {
        request := CreateRequest(formData);
        formData := InitialFormData(editingUser);
      }
    }
  }
}
