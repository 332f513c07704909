/** processSuperrare (fetcher/identity.go:149-192): one profile request; the
    decoded profile becomes a Superrare record, attached only when at least
    one of its nine text fields is non-empty. */
module SuperrareAdapter {
  import opened IdentityTypes

  const FetchFailedStage := "[processSuperrare] fetch identity failed"
  const DecodeFailedStage := "[processSuperrare] identity response json unmarshal failednti"

  /** The `Result` object of the decoded SuperrareProfile. */
  datatype SuperrareProfile = SuperrareProfile(
    username: string,
    location: string,
    bio: string,
    instagramLink: string,
    twitterLink: string,
    steemitLink: string,
    website: string,
    spotifyLink: string,
    soundCloudLink: string)

  /** The nine text fields of a profile, in declaration order. */
  function Fields(p: SuperrareProfile): (r: seq<string>)
    ensures |r| == 9
  {
    [p.username, p.location, p.bio, p.instagramLink, p.twitterLink,
     p.steemitLink, p.website, p.spotifyLink, p.soundCloudLink]
  }

  /** The candidate record built from a profile, tagged as coming from this adapter. */
  function Record(p: SuperrareProfile): SuperrareIdentity {
    SuperrareIdentity("", p.username, p.location, p.bio, p.instagramLink, p.twitterLink,
                      p.steemitLink, p.website, p.spotifyLink, p.soundCloudLink, SuperrareSource)
  }

  /** The non-empty guard, as the source writes it. */
  predicate HasPresence(p: SuperrareProfile) {
    p.username != "" || p.location != "" || p.bio != "" || p.instagramLink != "" ||
    p.twitterLink != "" || p.steemitLink != "" || p.website != "" ||
    p.spotifyLink != "" || p.soundCloudLink != ""
  }

  /** The guard holds exactly when some field of the profile is non-empty. */
  lemma PresenceIsSomeField(p: SuperrareProfile)
    ensures HasPresence(p) <==> exists i :: 0 <= i < 9 && Fields(p)[i] != ""
  {
    var f := Fields(p);
    if HasPresence(p) {
      if p.username != "" { assert f[0] != ""; }
      else if p.location != "" { assert f[1] != ""; }
      else if p.bio != "" { assert f[2] != ""; }
      else if p.instagramLink != "" { assert f[3] != ""; }
      else if p.twitterLink != "" { assert f[4] != ""; }
      else if p.steemitLink != "" { assert f[5] != ""; }
      else if p.website != "" { assert f[6] != ""; }
      else if p.spotifyLink != "" { assert f[7] != ""; }
      else { assert f[8] != ""; }
    }
  }

  /** The entry processSuperrare sends. A failed request or decode gives an
      error and no record; otherwise the record is attached iff some field
      of the profile is non-empty, and it carries every field of the profile. */
  function ProcessSuperrare(response: Response<SuperrareProfile>): (r: IdentityEntry)
    ensures !response.Decoded? ==> r.Failed() && r.Blank()
    ensures response.FetchFailed? ==> r.msg == FetchFailedStage
    ensures response.DecodeFailed? ==> r.msg == DecodeFailedStage
    ensures response.Decoded? ==> !r.Failed() && r.msg == ""
    ensures response.Decoded? ==>
      (r.superrare.Some? <==> exists i :: 0 <= i < 9 && Fields(response.value)[i] != "")
    ensures r.superrare.Some? ==>
      var rec := r.superrare.value;
      rec.dataSource == SuperrareSource && rec.homepage == "" &&
      [rec.username, rec.location, rec.bio, rec.instagramLink, rec.twitterLink,
       rec.steemitLink, rec.website, rec.spotifyLink, rec.soundCloudLink] == Fields(response.value)
    ensures r.openSea == None && r.twitter == None && r.rarible == None && r.context == None &&
      r.zora == None && r.foundation == None && r.showtime == None && r.poap == [] && r.ens == None
  {
    match response
    case FetchFailed(e) => FailedEntry(e, FetchFailedStage)
    case DecodeFailed(e) => FailedEntry(e, DecodeFailedStage)
    case Decoded(profile) =>
      PresenceIsSomeField(profile);
      if HasPresence(profile) then EmptyEntry.(superrare := Some(Record(profile))) else EmptyEntry
  }
}
