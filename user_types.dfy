/** The records shared by the store, the API client and the form: a registered
    candidate profile (UserDetails), its education entries, and the photo
    reference. Optional properties of the TypeScript interfaces are Options;
    a property that is absent and one that is `undefined` are the same here. */
module UserTypes {

  datatype Option<+T> = None | Some(value: T)

  datatype Gender = Male | Female

  /** One education entry; `id` is only present on entries the CMS has stored. */
  datatype Education = Education(id: Option<string>, degree: string, college: string, graduationYear: string)

  /** The CMS media object is kept opaque except for the fields that identify it. */
  datatype StrapiMedia = StrapiMedia(id: int, name: string, url: string)

  /** `photo` is either a URL / data-URL string or a stored media object. */
  datatype Photo = PhotoUrl(url: string) | PhotoMedia(media: StrapiMedia)

  /** A candidate profile. `id` is absent on drafts and present once stored.
      The contact fields are optional: drafts built by the registration form
      never carry them. The timestamps are set by the CMS only. */
  datatype UserDetails = UserDetails(
    id: Option<string>,
    fullName: string,
    constituency: string,
    party: string,
    position: string,
    dateOfBirth: string,
    gender: Gender,
    vision: string,
    education: seq<Education>,
    photo: Option<Photo>,
    phone: Option<string>,
    email: Option<string>,
    address: Option<string>,
    city: Option<string>,
    state: Option<string>,
    zipCode: Option<string>,
    createdAt: Option<string>,
    updatedAt: Option<string>,
    publishedAt: Option<string>)

  /** The entry the form adds: every field empty, no id. */
  const BlankEducation: Education := Education(None, "", "", "")

  /** No two records share an id. Two records without an id count as sharing
      one, because `undefined === undefined` is what the store compares. */
  ghost predicate UniqueIds(users: seq<UserDetails>)
  {
    forall i, j :: 0 <= i < j < |users| ==> users[i].id != users[j].id
  }

  /** `id` occurs as the id of some record. */
  ghost predicate HasId(users: seq<UserDetails>, id: Option<string>)
  {
    exists k :: 0 <= k < |users| && users[k].id == id
  }
}
