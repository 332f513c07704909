/** Data model of the identity fetcher (fetcher/identity.go): the records the
    provider adapters produce, the one-per-adapter IdentityEntry they send to
    FetchIdentity, and the merged IdentityList it returns. */
module IdentityTypes {

  /** Number of adapters FetchIdentity starts and waits for. */
  const IdentityApiCount: nat := 3

  datatype Option<+T> = None | Some(value: T)

  /** A Go `error` value, kept only as its text. */
  datatype Error = Error(text: string)

  /** What one provider request yields once the HTTP sender and the JSON
      decoder (both outside this model) have run: the request failed, the
      body did not decode, or the decoded value. */
  datatype Response<+T> = FetchFailed(err: Error) | DecodeFailed(err: Error) | Decoded(value: T)

  /** The DataSource tag of a record: which adapter produced it. */
  datatype DataSource = ContextSource | SuperrareSource | PoapSource | SybilSource

  datatype OpenSeaIdentity = OpenSeaIdentity(homepage: string, username: string, dataSource: DataSource)

  datatype TwitterIdentity = TwitterIdentity(handle: string, dataSource: DataSource)

  datatype SuperrareIdentity = SuperrareIdentity(
    homepage: string,
    username: string,
    location: string,
    bio: string,
    instagramLink: string,
    twitterLink: string,
    steemitLink: string,
    website: string,
    spotifyLink: string,
    soundCloudLink: string,
    dataSource: DataSource)

  datatype RaribleIdentity = RaribleIdentity(homepage: string, username: string, dataSource: DataSource)

  datatype ContextIdentity = ContextIdentity(username: string, website: string, followerCount: int, dataSource: DataSource)

  datatype ZoraIdentity = ZoraIdentity(website: string, username: string, dataSource: DataSource)

  datatype FoundationIdentity = FoundationIdentity(website: string, username: string, dataSource: DataSource)

  /** Its real fields are defined elsewhere; `username` stands in for them, since
      the merge only copies the record whole. */
  datatype ShowtimeIdentity = ShowtimeIdentity(username: string, dataSource: DataSource)

  datatype EnsIdentity = EnsIdentity(ens: string, dataSource: DataSource)

  /** Another holder of a token of the same attendance event. */
  datatype PoapRecommendation = PoapRecommendation(tokenId: string, address: string, eventId: int)

  /** One attendance token of the address, with its event's metadata. */
  datatype PoapIdentity = PoapIdentity(
    eventId: int,
    eventSupply: int,
    year: int,
    supply: int,
    tokenId: string,
    owner: string,
    createdDate: string,
    eventDesc: string,
    fancyId: string,
    eventName: string,
    eventUrl: string,
    imageUrl: string,
    country: string,
    city: string,
    startDate: string,
    endDate: string,
    expiryDate: string,
    dataSource: DataSource,
    recommendations: seq<PoapRecommendation>)

  /** The message one adapter sends on the channel: an error with a stage
      label, and zero or one record per kind plus a list of attendance tokens.
      Like the Go struct, nothing stops an entry from carrying both an error
      and data. */
  datatype IdentityEntry = IdentityEntry(
    err: Option<Error>,
    msg: string,
    openSea: Option<OpenSeaIdentity>,
    twitter: Option<TwitterIdentity>,
    superrare: Option<SuperrareIdentity>,
    rarible: Option<RaribleIdentity>,
    context: Option<ContextIdentity>,
    zora: Option<ZoraIdentity>,
    foundation: Option<FoundationIdentity>,
    showtime: Option<ShowtimeIdentity>,
    poap: seq<PoapIdentity>,
    ens: Option<EnsIdentity>)
  {
    predicate Failed() {
      err.Some?
    }

    /** No per-kind record, no attendance token and no ENS name. */
    predicate Blank() {
      openSea == None && twitter == None && superrare == None && rarible == None &&
      context == None && zora == None && foundation == None && showtime == None &&
      poap == [] && ens == None
    }
  }

  /** Go's zero IdentityEntry, the value every adapter starts from. */
  const EmptyEntry: IdentityEntry :=
    IdentityEntry(None, "", None, None, None, None, None, None, None, None, [], None)

  /** An entry carrying only an error and its stage label. */
  function FailedEntry(e: Error, stage: string): (r: IdentityEntry)
    ensures r.Failed() && r.Blank() && r.msg == stage
  {
    EmptyEntry.(err := Some(e), msg := stage)
  }

  /** The aggregate FetchIdentity returns: one list per kind, in arrival
      order, and a single ENS name. */
  datatype IdentityList = IdentityList(
    openSea: seq<OpenSeaIdentity>,
    twitter: seq<TwitterIdentity>,
    superrare: seq<SuperrareIdentity>,
    rarible: seq<RaribleIdentity>,
    context: seq<ContextIdentity>,
    zora: seq<ZoraIdentity>,
    foundation: seq<FoundationIdentity>,
    showtime: seq<ShowtimeIdentity>,
    poap: seq<PoapIdentity>,
    ens: string)

  /** Go's zero IdentityEntryList. */
  const EmptyList: IdentityList := IdentityList([], [], [], [], [], [], [], [], [], "")
}
