/** The data the pipeline reads from the API and the normalised record it produces. */
module Records {
  import opened Common

  /** One entry of the `location_identifiers` list. */
  datatype LocationIdentifier = LocationIdentifier(
    value: Field<string>,
    locationType: Field<string>,
    permalink: Field<string>)

  /** A social-media property such as `facebook`: an object whose `value` member is the link. */
  datatype SocialLink = SocialLink(value: Field<string>)

  /** The property bag of an organization. A list entry of `location_identifiers` is None when
      it is not a JSON object; a social member is Null when it is null or not an object. */
  datatype Properties = Properties(
    rankOrg: Field<int>,
    name: Field<string>,
    shortDescription: Field<string>,
    websiteUrl: Field<string>,
    createdAt: Field<string>,
    updatedAt: Field<string>,
    entityDefId: Field<string>,
    permalink: Field<string>,
    imageId: Field<string>,
    imageUrl: Field<string>,
    facetIds: Field<seq<string>>,
    locationIdentifiers: Field<seq<Option<LocationIdentifier>>>,
    facebook: Field<SocialLink>,
    linkedin: Field<SocialLink>,
    twitter: Field<SocialLink>)

  /** `{}` read as a property bag: every member missing. */
  const EmptyProperties: Properties := Properties(
    Absent, Absent, Absent, Absent, Absent, Absent, Absent, Absent,
    Absent, Absent, Absent, Absent, Absent, Absent, Absent)

  /** An organization as the search and detail endpoints return it. `properties` is Null when
      it is null or not an object. */
  datatype Entity = Entity(uuid: Field<string>, properties: Field<Properties>)

  /** A normalised location: `{value, type, permalink}`. */
  datatype Location = Location(value: Option<string>, locationType: Option<string>, permalink: Option<string>)

  /** The normalised social links: always the three keys facebook, linkedin and twitter. */
  datatype SocialMedia = SocialMedia(facebook: Option<string>, linkedin: Option<string>, twitter: Option<string>)

  /** The flat record the pipeline builds for one company. `websiteContent` and `gptAnalysis`
      are dict keys that may be missing altogether (Absent) or hold None (Null). */
  datatype CompanyRecord = CompanyRecord(
    uuid: Option<string>,
    rankOrg: Option<int>,
    name: Option<string>,
    description: Option<string>,
    website: Option<string>,
    createdAt: Option<string>,
    updatedAt: Option<string>,
    entityDefId: Option<string>,
    permalink: Option<string>,
    imageId: Option<string>,
    imageUrl: Option<string>,
    facetIds: Option<seq<string>>,
    locations: seq<Location>,
    socialMedia: SocialMedia,
    websiteContent: Field<string>,
    gptAnalysis: Field<string>)

  /** A call the pipeline makes to the outside world, in the order it makes them. */
  datatype Request =
    | Search(afterId: Option<string>, limit: nat)
    | Details(uuid: string)
    | FetchPage(url: string)
    | Completion(chunk: string)
}
