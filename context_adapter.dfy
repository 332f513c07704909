/** processContext (fetcher/identity.go:71-147): one request to the
    aggregator endpoint, whose decoded answer holds an ENS map, lists of
    sub-profiles tagged by contract address, and a follower count. Each
    sub-profile whose contract is one of six known addresses overwrites the
    record of that kind; any other contract is dropped. */
module ContextAdapter {
  import opened IdentityTypes

  const FetchFailedStage := "[processContext] fetch identity failed"
  const DecodeFailedStage := "[processContext] identity response json unmarshal failed"

  /** The kinds the demultiplexing switch knows, in the order of its cases. */
  datatype Kind = SuperrareKind | OpenSeaKind | RaribleKind | FoundationKind | ZoraKind | ContextKind

  /** The six contract-address constants the switch compares against. Their
      values are configuration outside this model. */
  datatype ContractIds = ContractIds(
    superrare: string, openSea: string, rarible: string,
    foundation: string, zora: string, context: string)
  {
    function Of(k: Kind): string {
      match k
      case SuperrareKind => superrare
      case OpenSeaKind => openSea
      case RaribleKind => rarible
      case FoundationKind => foundation
      case ZoraKind => zora
      case ContextKind => context
    }

    /** Go refuses two equal constant cases in one switch, so the six
        constants the source compiles with are pairwise different. */
    predicate Distinct() {
      forall k1: Kind, k2: Kind :: k1 != k2 ==> Of(k1) != Of(k2)
    }
  }

  /** One sub-profile of the decoded response. */
  datatype ContextProfile = ContextProfile(contract: string, url: string, username: string, website: string)

  /** The decoded ContextAppResp. Profiles are listed in the order the loop
      visits them. */
  datatype ContextAppResp = ContextAppResp(
    ens: map<string, string>,
    profiles: seq<seq<ContextProfile>>,
    followerCount: int)

  /** The switch on a contract address: the first case that matches, or none. */
  function Classify(contract: string, ids: ContractIds): (r: Option<Kind>)
    ensures r.Some? ==> contract == ids.Of(r.value)
    ensures r.None? <==> forall k: Kind :: contract != ids.Of(k)
  {
    if contract == ids.superrare then Some(SuperrareKind)
    else if contract == ids.openSea then Some(OpenSeaKind)
    else if contract == ids.rarible then Some(RaribleKind)
    else if contract == ids.foundation then Some(FoundationKind)
    else if contract == ids.zora then Some(ZoraKind)
    else if contract == ids.context then Some(ContextKind)
    else None
  }

  /** The sub-profiles in the order the nested loop visits them. */
  function Flatten(profiles: seq<seq<ContextProfile>>): seq<ContextProfile> {
    if profiles == [] then []
    else Flatten(profiles[..|profiles| - 1]) + profiles[|profiles| - 1]
  }

  /** Index of the last sub-profile the switch sends to kind `k`, or -1. */
  function LastMatch(flat: seq<ContextProfile>, k: Kind, ids: ContractIds): (i: int)
    ensures -1 <= i < |flat|
    ensures i >= 0 ==> Classify(flat[i].contract, ids) == Some(k)
    ensures forall j :: i < j < |flat| ==> Classify(flat[j].contract, ids) != Some(k)
  {
    if flat == [] then -1
    else if Classify(flat[|flat| - 1].contract, ids) == Some(k) then |flat| - 1
    else LastMatch(flat[..|flat| - 1], k, ids)
  }

  /** The sub-profile whose fields end up in the record of kind `k`. */
  function Matched(flat: seq<ContextProfile>, k: Kind, ids: ContractIds): Option<ContextProfile> {
    var i := LastMatch(flat, k, ids);
    if i < 0 then None else Some(flat[i])
  }

  // The records one sub-profile becomes, one per case of the switch.

  function SuperrareRecord(p: ContextProfile): SuperrareIdentity {
    SuperrareIdentity(p.url, p.username, "", "", "", "", "", "", "", "", ContextSource)
  }

  function OpenSeaRecord(p: ContextProfile): OpenSeaIdentity {
    OpenSeaIdentity(p.url, p.username, ContextSource)
  }

  function RaribleRecord(p: ContextProfile): RaribleIdentity {
    RaribleIdentity(p.url, p.username, ContextSource)
  }

  function FoundationRecord(p: ContextProfile): FoundationIdentity {
    FoundationIdentity(p.website, p.username, ContextSource)
  }

  function ZoraRecord(p: ContextProfile): ZoraIdentity {
    ZoraIdentity(p.website, p.username, ContextSource)
  }

  function ContextRecord(p: ContextProfile, followerCount: int): ContextIdentity {
    ContextIdentity(p.username, p.website, followerCount, ContextSource)
  }

  function EnsOf(address: string, ens: map<string, string>): Option<EnsIdentity> {
    if address in ens then Some(EnsIdentity(ens[address], ContextSource)) else None
  }

  /** The entry built from a decoded response once the sub-profiles `flat`
      have been visited. */
  function Demuxed(address: string, app: ContextAppResp, ids: ContractIds, flat: seq<ContextProfile>): IdentityEntry {
    var sr, os, ra := Matched(flat, SuperrareKind, ids), Matched(flat, OpenSeaKind, ids), Matched(flat, RaribleKind, ids);
    var fo, zo, cx := Matched(flat, FoundationKind, ids), Matched(flat, ZoraKind, ids), Matched(flat, ContextKind, ids);
    EmptyEntry.(
      ens := EnsOf(address, app.ens),
      superrare := if sr.Some? then Some(SuperrareRecord(sr.value)) else None,
      openSea := if os.Some? then Some(OpenSeaRecord(os.value)) else None,
      rarible := if ra.Some? then Some(RaribleRecord(ra.value)) else None,
      foundation := if fo.Some? then Some(FoundationRecord(fo.value)) else None,
      zora := if zo.Some? then Some(ZoraRecord(zo.value)) else None,
      context := if cx.Some? then Some(ContextRecord(cx.value, app.followerCount)) else None)
  }

  /** The entry processContext sends. */
  function ContextEntry(address: string, response: Response<ContextAppResp>, ids: ContractIds): (r: IdentityEntry)
    ensures r.twitter == None && r.showtime == None && r.poap == []
    ensures !response.Decoded? ==> r.Failed() && r.Blank()
    ensures response.FetchFailed? ==> r.msg == FetchFailedStage
    ensures response.DecodeFailed? ==> r.msg == DecodeFailedStage
    ensures response.Decoded? ==> !r.Failed() && r.msg == ""
    ensures response.Decoded? ==>
      (r.ens.Some? <==> address in response.value.ens) &&
      (r.ens.Some? ==> r.ens.value == EnsIdentity(response.value.ens[address], ContextSource))
    ensures r.superrare.Some? ==> r.superrare.value.dataSource == ContextSource
    ensures r.openSea.Some? ==> r.openSea.value.dataSource == ContextSource
    ensures r.rarible.Some? ==> r.rarible.value.dataSource == ContextSource
    ensures r.foundation.Some? ==> r.foundation.value.dataSource == ContextSource
    ensures r.zora.Some? ==> r.zora.value.dataSource == ContextSource
    ensures r.context.Some? ==>
      r.context.value.dataSource == ContextSource && r.context.value.followerCount == response.value.followerCount
  {
    match response
    case FetchFailed(e) => FailedEntry(e, FetchFailedStage)
    case DecodeFailed(e) => FailedEntry(e, DecodeFailedStage)
    case Decoded(app) => Demuxed(address, app, ids, Flatten(app.profiles))
  }

  /** Visiting one more sub-profile changes only the slot of the kind its
      contract selects, to that sub-profile. */
  lemma MatchedSnoc(flat: seq<ContextProfile>, p: ContextProfile, k: Kind, ids: ContractIds)
    ensures Matched(flat + [p], k, ids) ==
      if Classify(p.contract, ids) == Some(k) then Some(p) else Matched(flat, k, ids)
  {
    assert (flat + [p])[..|flat|] == flat;
  }

  /** One turn of the inner loop: the first case of the switch that the
      sub-profile's contract matches overwrites that kind's record. */
  lemma DemuxedSnoc(address: string, app: ContextAppResp, ids: ContractIds, flat: seq<ContextProfile>, p: ContextProfile)
    ensures var before, after := Demuxed(address, app, ids, flat), Demuxed(address, app, ids, flat + [p]);
      match Classify(p.contract, ids)
      case Some(SuperrareKind) => after == before.(superrare := Some(SuperrareRecord(p)))
      case Some(OpenSeaKind) => after == before.(openSea := Some(OpenSeaRecord(p)))
      case Some(RaribleKind) => after == before.(rarible := Some(RaribleRecord(p)))
      case Some(FoundationKind) => after == before.(foundation := Some(FoundationRecord(p)))
      case Some(ZoraKind) => after == before.(zora := Some(ZoraRecord(p)))
      case Some(ContextKind) => after == before.(context := Some(ContextRecord(p, app.followerCount)))
      case None => after == before
  {
    forall k: Kind {
      MatchedSnoc(flat, p, k, ids);
    }
  }

  /** A sub-profile with an unknown contract changes nothing, wherever it
      appears in the response. */
  lemma {:induction false} UnknownContractIgnored(a: seq<ContextProfile>, p: ContextProfile, b: seq<ContextProfile>, k: Kind, ids: ContractIds)
    requires Classify(p.contract, ids) == None
    ensures Matched(a + [p] + b, k, ids) == Matched(a + b, k, ids)
  {
    if b == [] {
      assert a + [p] + b == a + [p];
      assert a + b == a;
      MatchedSnoc(a, p, k, ids);
    } else {
      var init, last := b[..|b| - 1], b[|b| - 1];
      UnknownContractIgnored(a, p, init, k, ids);
      assert a + [p] + b == (a + [p] + init) + [last];
      assert a + b == (a + init) + [last];
      MatchedSnoc(a + [p] + init, last, k, ids);
      MatchedSnoc(a + init, last, k, ids);
    }
  }

  /** The same at the level of the entry: dropping a sub-profile with an
      unknown contract from the response leaves the entry unchanged. */
  lemma ContextIgnoresUnknown(address: string, app: ContextAppResp, ids: ContractIds,
                              a: seq<ContextProfile>, p: ContextProfile, b: seq<ContextProfile>)
    requires Classify(p.contract, ids) == None
    ensures Demuxed(address, app, ids, a + [p] + b) == Demuxed(address, app, ids, a + b)
  {
    forall k: Kind {
      UnknownContractIgnored(a, p, b, k, ids);
    }
  }

  /** Some sub-profile of `flat` carries contract `c`. */
  predicate Carries(flat: seq<ContextProfile>, c: string) {
    exists j :: 0 <= j < |flat| && flat[j].contract == c
  }

  /** `flat[i]` is the last sub-profile carrying contract `c`. */
  predicate LastCarrier(flat: seq<ContextProfile>, c: string, i: int) {
    0 <= i < |flat| && flat[i].contract == c &&
    forall j :: i < j < |flat| ==> flat[j].contract != c
  }

  /** With the six constants distinct, the slot of kind `k` is filled iff some
      sub-profile carries that kind's contract, and it holds the fields of
      the last such sub-profile. */
  lemma MatchedByContract(flat: seq<ContextProfile>, k: Kind, ids: ContractIds)
    requires ids.Distinct()
    ensures Matched(flat, k, ids).Some? <==> Carries(flat, ids.Of(k))
    ensures Matched(flat, k, ids).Some? ==>
      exists i :: LastCarrier(flat, ids.Of(k), i) && Matched(flat, k, ids).value == flat[i]
  {
    var i := LastMatch(flat, k, ids);
    forall j | 0 <= j < |flat|
      ensures Classify(flat[j].contract, ids) == Some(k) <==> flat[j].contract == ids.Of(k)
    {
      var c := Classify(flat[j].contract, ids);
      if flat[j].contract == ids.Of(k) {
        assert c.Some? && ids.Of(c.value) == ids.Of(k);
      }
    }
    if i >= 0 {
      assert LastCarrier(flat, ids.Of(k), i);
      assert Matched(flat, k, ids).value == flat[i];
    }
  }

  /** The demultiplexer on a decoded response, kind by kind: with the six
      constants distinct, a record is present iff some sub-profile carries
      that kind's contract, and it is built from the last such sub-profile. */
  lemma ContextDemux(address: string, app: ContextAppResp, ids: ContractIds)
    requires ids.Distinct()
    ensures var r, flat := ContextEntry(address, Decoded(app), ids), Flatten(app.profiles);
      (r.superrare.Some? <==> Carries(flat, ids.superrare)) &&
      (r.superrare.Some? ==> exists i :: LastCarrier(flat, ids.superrare, i) && r.superrare.value == SuperrareRecord(flat[i])) &&
      (r.openSea.Some? <==> Carries(flat, ids.openSea)) &&
      (r.openSea.Some? ==> exists i :: LastCarrier(flat, ids.openSea, i) && r.openSea.value == OpenSeaRecord(flat[i])) &&
      (r.rarible.Some? <==> Carries(flat, ids.rarible)) &&
      (r.rarible.Some? ==> exists i :: LastCarrier(flat, ids.rarible, i) && r.rarible.value == RaribleRecord(flat[i])) &&
      (r.foundation.Some? <==> Carries(flat, ids.foundation)) &&
      (r.foundation.Some? ==> exists i :: LastCarrier(flat, ids.foundation, i) && r.foundation.value == FoundationRecord(flat[i])) &&
      (r.zora.Some? <==> Carries(flat, ids.zora)) &&
      (r.zora.Some? ==> exists i :: LastCarrier(flat, ids.zora, i) && r.zora.value == ZoraRecord(flat[i])) &&
      (r.context.Some? <==> Carries(flat, ids.context)) &&
      (r.context.Some? ==> exists i :: LastCarrier(flat, ids.context, i) && r.context.value == ContextRecord(flat[i], app.followerCount))
  {
    var flat := Flatten(app.profiles);
    MatchedByContract(flat, SuperrareKind, ids);
    MatchedByContract(flat, OpenSeaKind, ids);
    MatchedByContract(flat, RaribleKind, ids);
    MatchedByContract(flat, FoundationKind, ids);
    MatchedByContract(flat, ZoraKind, ids);
    MatchedByContract(flat, ContextKind, ids);
  }

  /** Before any sub-profile is visited only the ENS name can be set. */
  lemma NothingVisited(address: string, app: ContextAppResp, ids: ContractIds)
    ensures Demuxed(address, app, ids, []) == EmptyEntry.(ens := EnsOf(address, app.ens))
  {
    assert Flatten([]) == [];
  }

  /** The body of the inner loop: the switch on one sub-profile's contract,
      written as the chain of comparisons in the source's case order. */
  method Dispatch(address: string, app: ContextAppResp, ids: ContractIds, ghost flat: seq<ContextProfile>,
                  current: IdentityEntry, entry: ContextProfile)
    returns (result: IdentityEntry)
    requires current == Demuxed(address, app, ids, flat)
    ensures result == Demuxed(address, app, ids, flat + [entry])
  {
    DemuxedSnoc(address, app, ids, flat, entry);
    result := current;
    if entry.contract == ids.superrare {
      result := result.(superrare := Some(SuperrareRecord(entry)));
    } else if entry.contract == ids.openSea {
      result := result.(openSea := Some(OpenSeaRecord(entry)));
    } else if entry.contract == ids.rarible {
      result := result.(rarible := Some(RaribleRecord(entry)));
    } else if entry.contract == ids.foundation {
      result := result.(foundation := Some(FoundationRecord(entry)));
    } else if entry.contract == ids.zora {
      result := result.(zora := Some(ZoraRecord(entry)));
    } else if entry.contract == ids.context {
      result := result.(context := Some(ContextRecord(entry, app.followerCount)));
    }
  }

  /** processContext: the fetch and decode outcomes are inputs; on success the
      ENS name is looked up and the nested loop overwrites the record of each
      kind whose contract a sub-profile carries. */
  method ProcessContext(address: string, response: Response<ContextAppResp>, ids: ContractIds)
    returns (result: IdentityEntry)
    ensures result == ContextEntry(address, response, ids)
  {
    result := EmptyEntry;
    if response.FetchFailed? {
      result := result.(err := Some(response.err), msg := FetchFailedStage);
      return;
    }
    if response.DecodeFailed? {
      result := result.(err := Some(response.err), msg := DecodeFailedStage);
      return;
    }
    var app := response.value;

    if address in app.ens {
      result := result.(ens := Some(EnsIdentity(app.ens[address], ContextSource)));
    }

    NothingVisited(address, app, ids);
    var i := 0;
    while i < |app.profiles|
      invariant 0 <= i <= |app.profiles|
      invariant result == Demuxed(address, app, ids, Flatten(app.profiles[..i]))
    {
      var profileList := app.profiles[i];
      ghost var seen := Flatten(app.profiles[..i]);
      var j := 0;
      assert seen + profileList[..j] == seen;
      while j < |profileList|
        invariant 0 <= j <= |profileList|
        invariant result == Demuxed(address, app, ids, seen + profileList[..j])
      {
        result := Dispatch(address, app, ids, seen + profileList[..j], result, profileList[j]);
        assert seen + profileList[..j + 1] == (seen + profileList[..j]) + [profileList[j]];
        j := j + 1;
      }
      assert profileList[..j] == profileList;
      assert app.profiles[..i + 1][..i] == app.profiles[..i];
      assert Flatten(app.profiles[..i + 1]) == seen + profileList;
      i := i + 1;
    }
    assert app.profiles[..i] == app.profiles;
    assert result == Demuxed(address, app, ids, Flatten(app.profiles));
  }
}
