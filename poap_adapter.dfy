/** processPoap (fetcher/identity.go:194-297): fetch the attendance tokens of
    the address, then, token by token, ask the subgraph for every token of
    that token's event and attach them as recommendations. The first failed
    enrichment request ends the adapter with an error. */
module PoapAdapter {
  import opened IdentityTypes

  const FetchTokensFailedStage := "[processPoap] fetch identity failed"
  const ParseTokensFailedStage := "[processPoap] parse response json failed"
  const FetchHoldersFailedStage := "[processPoap] fetch recommendations failed"
  const ParseHoldersFailedStage := "[processPoap] parse recommendation response json failed"

  /** The `event` object of one token of the scan response. */
  datatype PoapEvent = PoapEvent(
    id: int,
    supply: int,
    year: int,
    description: string,
    fancyId: string,
    name: string,
    eventUrl: string,
    imageUrl: string,
    country: string,
    city: string,
    startDate: string,
    endDate: string,
    expiryDate: string)

  /** One element of the scan response: a token the address holds. */
  datatype PoapToken = PoapToken(event: PoapEvent, supply: int, tokenId: string, owner: string, createdDate: string)

  /** One element of `data.event.tokens` in the subgraph's answer. */
  datatype GraphToken = GraphToken(id: string, ownerId: string)

  /** The record of one token before its recommendations are attached. */
  function PoapRecord(t: PoapToken): PoapIdentity {
    PoapIdentity(
      t.event.id, t.event.supply, t.event.year, t.supply, t.tokenId, t.owner, t.createdDate,
      t.event.description, t.event.fancyId, t.event.name, t.event.eventUrl, t.event.imageUrl,
      t.event.country, t.event.city, t.event.startDate, t.event.endDate, t.event.expiryDate,
      PoapSource, [])
  }

  /** One recommendation per token of the event, in the subgraph's order,
      each tagged with the event id. */
  function Recommendations(holders: seq<GraphToken>, eventId: int): (r: seq<PoapRecommendation>)
    ensures |r| == |holders|
    ensures forall j :: 0 <= j < |r| ==>
      r[j].tokenId == holders[j].id && r[j].address == holders[j].ownerId && r[j].eventId == eventId
  {
    if holders == [] then []
    else [PoapRecommendation(holders[0].id, holders[0].ownerId, eventId)] + Recommendations(holders[1..], eventId)
  }

  /** No holder is filtered out, the queried address included: an owner
      appears among the recommendations iff it owns some token of the event. */
  lemma RecommendationsKeepEveryHolder(holders: seq<GraphToken>, eventId: int, owner: string)
    ensures (exists j :: 0 <= j < |Recommendations(holders, eventId)| && Recommendations(holders, eventId)[j].address == owner) ==>
      (exists j :: 0 <= j < |holders| && holders[j].ownerId == owner)
    ensures (exists j :: 0 <= j < |holders| && holders[j].ownerId == owner) ==>
      (exists j :: 0 <= j < |Recommendations(holders, eventId)| && Recommendations(holders, eventId)[j].address == owner)
  {
    var r := Recommendations(holders, eventId);
    if j :| 0 <= j < |holders| && holders[j].ownerId == owner {
      assert r[j].address == owner;
    }
    if j :| 0 <= j < |r| && r[j].address == owner {
      assert holders[j].ownerId == owner;
    }
  }

  /** A token's record with the holders of its event attached. */
  function Enriched(t: PoapToken, holders: seq<GraphToken>): PoapIdentity {
    PoapRecord(t).(recommendations := Recommendations(holders, t.event.id))
  }

  /** Position of the first token whose enrichment request failed, or the
      number of tokens when none did. `enrichment(i)` is the outcome of the
      request sent for the token at position i. */
  function FirstFailure(tokens: seq<PoapToken>, enrichment: nat -> Response<seq<GraphToken>>): (k: nat)
    ensures k <= |tokens|
    ensures forall i: nat :: i < k ==> enrichment(i).Decoded?
    ensures k < |tokens| ==> !enrichment(k).Decoded?
  {
    if tokens == [] then 0
    else
      var k := FirstFailure(tokens[..|tokens| - 1], enrichment);
      if k < |tokens| - 1 || !enrichment(|tokens| - 1).Decoded? then k else |tokens|
  }

  /** The entry processPoap sends, given the scan outcome and the outcome of
      each token's enrichment request, by token position. */
  function PoapEntry(response: Response<seq<PoapToken>>, enrichment: nat -> Response<seq<GraphToken>>): (r: IdentityEntry)
    ensures r.openSea == None && r.twitter == None && r.superrare == None && r.rarible == None &&
      r.context == None && r.zora == None && r.foundation == None && r.showtime == None && r.ens == None
    ensures !r.Failed() ==> r.msg == ""
    ensures !response.Decoded? ==> r.Blank() && r.err == Some(response.err)
    ensures response.FetchFailed? ==> r.msg == FetchTokensFailedStage
    ensures response.DecodeFailed? ==> r.msg == ParseTokensFailedStage
    ensures response.Decoded? ==>
      var tokens, k := response.value, FirstFailure(response.value, enrichment);
      (r.Failed() <==> exists i: nat :: i < |tokens| && !enrichment(i).Decoded?) &&
      |r.poap| == k &&
      (forall i :: 0 <= i < k ==> r.poap[i] == Enriched(tokens[i], enrichment(i).value)) &&
      (k < |tokens| ==> r.err == Some(enrichment(k).err)) &&
      (k < |tokens| && enrichment(k).FetchFailed? ==> r.msg == FetchHoldersFailedStage) &&
      (k < |tokens| && enrichment(k).DecodeFailed? ==> r.msg == ParseHoldersFailedStage)
  {
    match response
    case FetchFailed(e) => FailedEntry(e, FetchTokensFailedStage)
    case DecodeFailed(e) => FailedEntry(e, ParseTokensFailedStage)
    case Decoded(tokens) =>
      var k := FirstFailure(tokens, enrichment);
      var done := seq(k, i requires 0 <= i < k => Enriched(tokens[i], enrichment(i).value));
      if k == |tokens| then EmptyEntry.(poap := done)
      else
        match enrichment(k)
        case FetchFailed(e) => FailedEntry(e, FetchHoldersFailedStage).(poap := done)
        case DecodeFailed(e) => FailedEntry(e, ParseHoldersFailedStage).(poap := done)
  }

  /** Each token sends its own request, so two tokens of one event can get
      different answers: the second failing ends the adapter with an error,
      keeping only the first token's record. */
  lemma SameEventSecondRequestFails(t0: PoapToken, t1: PoapToken, holders: seq<GraphToken>, e: Error)
    requires t0.event.id == t1.event.id
    ensures var r := PoapEntry(Decoded([t0, t1]), (n: nat) => if n == 0 then Decoded(holders) else FetchFailed(e));
      r.Failed() && r.err == Some(e) && r.msg == FetchHoldersFailedStage && r.poap == [Enriched(t0, holders)]
  {
    var enrichment := (n: nat) => if n == 0 then Decoded(holders) else FetchFailed(e);
    assert FirstFailure([t0, t1], enrichment) == 1;
  }

  /** processPoap: the scan loop with its inner recommendation loop and its
      early return on the first failed enrichment. */
  method ProcessPoap(response: Response<seq<PoapToken>>, enrichment: nat -> Response<seq<GraphToken>>)
    returns (result: IdentityEntry)
    ensures result == PoapEntry(response, enrichment)
  {
    result := EmptyEntry;
    if response.FetchFailed? {
      result := result.(err := Some(response.err), msg := FetchTokensFailedStage);
      return;
    }
    if response.DecodeFailed? {
      result := result.(err := Some(response.err), msg := ParseTokensFailedStage);
      return;
    }
    var tokens := response.value;

    var i := 0;
    while i < |tokens|
      invariant 0 <= i <= |tokens|
      invariant result == EmptyEntry.(poap := result.poap)
      invariant |result.poap| == i
      invariant forall m :: 0 <= m < i ==>
        enrichment(m).Decoded? && result.poap[m] == Enriched(tokens[m], enrichment(m).value)
    {
      var token := tokens[i];
      var record := PoapRecord(token);

      var answer := enrichment(i);
      if answer.FetchFailed? {
        result := result.(err := Some(answer.err), msg := FetchHoldersFailedStage);
        return;
      }
      if answer.DecodeFailed? {
        result := result.(err := Some(answer.err), msg := ParseHoldersFailedStage);
        return;
      }
      var holders := answer.value;

      var recommendations: seq<PoapRecommendation> := [];
      var j := 0;
      while j < |holders|
        invariant 0 <= j <= |holders|
        invariant |recommendations| == j
        invariant forall m :: 0 <= m < j ==>
          recommendations[m] == PoapRecommendation(holders[m].id, holders[m].ownerId, token.event.id)
      {
        recommendations := recommendations + [PoapRecommendation(holders[j].id, holders[j].ownerId, token.event.id)];
        j := j + 1;
      }

      assert recommendations == Recommendations(holders, token.event.id);
      record := record.(recommendations := recommendations);
      result := result.(poap := result.poap + [record]);
      i := i + 1;
    }
  }
}
