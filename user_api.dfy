/** The CMS client's data mappings: the `{id, attributes}` item shape the CMS
    answers with, the `{data: …}` envelope it expects on writes, and the list
    normalisation of `getAll`. The HTTP calls around them are not modelled. */
module UserApi {
  import opened UserTypes

  /** One record as the CMS returns it: a numeric id beside the attributes. */
  datatype StrapiItem = StrapiItem(id: nat, attributes: UserDetails)

  /** The `{data: …}` envelope of CMS requests and responses. */
  datatype DataEnvelope<T> = DataEnvelope(data: T)

  /** `Partial<UserDetails>`: every property may be absent. */
  datatype UserPatch = UserPatch(
    id: Option<string>,
    fullName: Option<string>,
    constituency: Option<string>,
    party: Option<string>,
    position: Option<string>,
    dateOfBirth: Option<string>,
    gender: Option<Gender>,
    vision: Option<string>,
    education: Option<seq<Education>>,
    photo: Option<Photo>,
    phone: Option<string>,
    email: Option<string>,
    address: Option<string>,
    city: Option<string>,
    state: Option<string>,
    zipCode: Option<string>,
    createdAt: Option<string>,
    updatedAt: Option<string>,
    publishedAt: Option<string>)

  /** A whole record seen as a partial one: every property present. */
  function PatchOf(u: UserDetails): UserPatch
  {
    UserPatch(u.id, Some(u.fullName), Some(u.constituency), Some(u.party), Some(u.position),
              Some(u.dateOfBirth), Some(u.gender), Some(u.vision), Some(u.education), u.photo,
              u.phone, u.email, u.address, u.city, u.state, u.zipCode,
              u.createdAt, u.updatedAt, u.publishedAt)
  }

  // ---------------------------------------------------------------------------
  // Decimal rendering of the CMS's numeric ids (`id.toString()`).

  predicate IsDigit(c: char) { '0' <= c <= '9' }

  predicate IsDecimal(s: string)
  {
    |s| > 0 && forall k :: 0 <= k < |s| ==> IsDigit(s[k])
  }

  function DigitChar(d: nat): (c: char)
    requires d < 10
    ensures IsDigit(c) && c as int - '0' as int == d
  {
    ('0' as int + d) as char
  }

  function DigitValue(c: char): (d: nat)
    requires IsDigit(c)
    ensures d < 10
  {
    c as int - '0' as int
  }

  /** The decimal digits of `n`, most significant first, without leading zeros. */
  function NatToString(n: nat): (s: string)
    ensures IsDecimal(s)
    ensures s[0] == '0' <==> n == 0
    decreases n
  {
    if n < 10 then [DigitChar(n)] else NatToString(n / 10) + [DigitChar(n % 10)]
  }

  /** The value of a string of decimal digits. */
  function ParseDecimal(s: string): nat
    requires forall k :: 0 <= k < |s| ==> IsDigit(s[k])
    decreases |s|
  {
    if |s| == 0 then 0
    else ParseDecimal(s[..|s| - 1]) * 10 + DigitValue(s[|s| - 1])
  }

  /** Reading back the decimal rendering gives the number. */
  lemma {:induction false} ParseNatToString(n: nat)
    ensures ParseDecimal(NatToString(n)) == n
    decreases n
  {
    if n >= 10 {
      var prefix := NatToString(n / 10);
      var s := NatToString(n);
      assert s[..|s| - 1] == prefix;
      ParseNatToString(n / 10);
    }
  }

  /** Two numeric ids render as the same string only when they are equal. */
  lemma NatToStringInjective(m: nat, n: nat)
    ensures NatToString(m) == NatToString(n) <==> m == n
  {
    ParseNatToString(m);
    ParseNatToString(n);
  }

  // ---------------------------------------------------------------------------
  // The three transforms.

  /** Flattens a CMS item: every attribute is kept, and the id is the decimal
      rendering of the item's numeric id unless the attributes carry their own
      `id`, which is spread after it and so wins. */
  function TransformStrapiUser(item: StrapiItem): (r: UserDetails)
    ensures r.(id := item.attributes.id) == item.attributes
    ensures item.attributes.id.Some? ==> r.id == item.attributes.id
    ensures item.attributes.id.None? ==>
              r.id.Some? && IsDecimal(r.id.value) && ParseDecimal(r.id.value) == item.id &&
              (r.id.value[0] == '0' ==> item.id == 0)
  {
    ParseNatToString(item.id);
    item.attributes.(id := if item.attributes.id.Some? then item.attributes.id
                           else Some(NatToString(item.id)))
  }

  /** Wraps a draft (a record without id) for a create request. */
  function TransformUserForStrapi(u: UserDetails): (r: DataEnvelope<UserDetails>)
    requires u.id.None?
    ensures r.data == u
  {
    DataEnvelope(u)
  }

  /** Wraps a partial record for an update request, without its `id`. */
  function TransformUserUpdateForStrapi(p: UserPatch): (r: DataEnvelope<UserPatch>)
    ensures r.data.id.None?
    ensures r.data.(id := p.id) == p
  {
    DataEnvelope(p.(id := None))
  }

  /** `getAll`'s normalisation: the transform applied to each item, in order. */
  function GetAllNormalize(items: seq<StrapiItem>): (r: seq<UserDetails>)
    ensures |r| == |items|
    ensures forall k :: 0 <= k < |items| ==> r[k] == TransformStrapiUser(items[k])
  {
    if items == [] then [] else [TransformStrapiUser(items[0])] + GetAllNormalize(items[1..])
  }

  // ---------------------------------------------------------------------------
  // Properties relating the transforms.

  /** Creating a draft and reading it back as a CMS item gives the draft again,
      plus the decimal rendering of the assigned id. */
  lemma CreateRoundTrip(n: nat, u: UserDetails)
    requires u.id.None?
    ensures TransformStrapiUser(StrapiItem(n, TransformUserForStrapi(u).data)).(id := None) == u
    ensures TransformStrapiUser(StrapiItem(n, TransformUserForStrapi(u).data)).id == Some(NatToString(n))
  {
  }

  /** An update request for a whole record carries exactly the record minus its id. */
  lemma UpdateEnvelopeOfRecord(u: UserDetails)
    ensures TransformUserUpdateForStrapi(PatchOf(u)).data == PatchOf(u.(id := None))
  {
  }

  /** Items with distinct numeric ids and no id among their attributes
      normalise to records with distinct ids. */
  lemma GetAllUniqueIds(items: seq<StrapiItem>)
    requires forall k :: 0 <= k < |items| ==> items[k].attributes.id.None?
    requires forall i, j :: 0 <= i < j < |items| ==> items[i].id != items[j].id
    ensures UniqueIds(GetAllNormalize(items))
  {
    forall i, j | 0 <= i < j < |items| {
      NatToStringInjective(items[i].id, items[j].id);
    }
  }
}
