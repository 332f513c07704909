/** FetchIdentity (fetcher/identity.go:15-69): start the three adapters, then
    receive exactly IdentityApiCount entries and merge them. The goroutines
    and the channel are replaced by an arrival order: `order[i]` is the
    adapter whose entry is received i-th. */
module Fetcher {
  import opened IdentityTypes
  import opened Merge
  import opened ContextAdapter
  import opened SuperrareAdapter
  import opened PoapAdapter

  /** The outcomes of every external request of one call. `poapEnrichment(i)`
      is the outcome of the subgraph request sent for the i-th scanned token. */
  datatype Responses = Responses(
    context: Response<ContextAppResp>,
    superrare: Response<SuperrareProfile>,
    poapTokens: Response<seq<PoapToken>>,
    poapEnrichment: nat -> Response<seq<GraphToken>>)

  /** The entries the adapters send, in the order they are started. */
  function Sent(address: string, ids: ContractIds, env: Responses): (r: seq<IdentityEntry>)
    ensures |r| == IdentityApiCount
  {
    [ContextEntry(address, env.context, ids),
     ProcessSuperrare(env.superrare),
     PoapEntry(env.poapTokens, env.poapEnrichment)]
  }

  /** Every adapter's entry is received exactly once. */
  predicate IsArrivalOrder(order: seq<nat>) {
    |order| == IdentityApiCount &&
    (forall i :: 0 <= i < |order| ==> order[i] < IdentityApiCount) &&
    (forall i, j :: 0 <= i < j < |order| ==> order[i] != order[j])
  }

  function Arrivals(sent: seq<IdentityEntry>, order: seq<nat>): (r: seq<IdentityEntry>)
    requires |sent| == IdentityApiCount && IsArrivalOrder(order)
    ensures |r| == IdentityApiCount
    ensures forall i :: 0 <= i < |r| ==> r[i] == sent[order[i]]
  {
    seq(|order|, i requires 0 <= i < |order| => sent[order[i]])
  }

  /** Every adapter has a turn in an arrival order. */
  lemma ArrivalOrderCovers(order: seq<nat>, k: nat)
    requires IsArrivalOrder(order) && k < IdentityApiCount
    ensures exists i :: 0 <= i < |order| && order[i] == k
  {
    if order[0] != k && order[1] != k {
      assert order[2] == k;
    }
  }

  /** An arrival order is one of the six orders of three adapters. */
  lemma ArrivalOrderCases(order: seq<nat>)
    requires IsArrivalOrder(order)
    ensures order == [0, 1, 2] || order == [0, 2, 1] || order == [1, 0, 2] ||
            order == [1, 2, 0] || order == [2, 0, 1] || order == [2, 1, 0]
  {
    var a, b, c := order[0], order[1], order[2];
    assert a != b && a != c && b != c && a < 3 && b < 3 && c < 3;
    assert order == [a, b, c];
  }

  /** Any arrangement of three values holds the same values. */
  lemma ArrangementOfThree<T>(x: T, y: T, z: T, t: seq<T>)
    requires t == [x, y, z] || t == [x, z, y] || t == [y, x, z] || t == [y, z, x] || t == [z, x, y] || t == [z, y, x]
    ensures multiset(t) == multiset{x, y, z}
  {
  }

  /** Three values rearranged by an arrival order are the same three values. */
  lemma RearrangedThree<T>(s: seq<T>, t: seq<T>, order: seq<nat>)
    requires |s| == IdentityApiCount && |t| == IdentityApiCount && IsArrivalOrder(order)
    requires forall i :: 0 <= i < |t| ==> t[i] == s[order[i]]
    ensures multiset(t) == multiset(s)
  {
    ArrivalOrderCases(order);
    var x, y, z := s[0], s[1], s[2];
    assert s == [x, y, z];
    assert t == [s[order[0]], s[order[1]], s[order[2]]];
    ArrangementOfThree(x, y, z, t);
    ArrangementOfThree(x, y, z, s);
  }

  /** The entries received are the entries sent, in some order. */
  lemma ArrivalsPermute(sent: seq<IdentityEntry>, order: seq<nat>)
    requires |sent| == IdentityApiCount && IsArrivalOrder(order)
    ensures multiset(Arrivals(sent, order)) == multiset(sent)
  {
    RearrangedThree(sent, Arrivals(sent, order), order);
  }

  /** A kind only one adapter produces is exactly that adapter's contribution,
      whatever the arrival order. */
  lemma OnlySource<T>(sent: seq<IdentityEntry>, order: seq<nat>, pick: IdentityEntry -> seq<T>, k: nat)
    requires |sent| == IdentityApiCount && IsArrivalOrder(order) && k < IdentityApiCount
    requires forall j :: 0 <= j < |sent| && j != k ==> pick(sent[j]) == []
    ensures Gather(Arrivals(sent, order), pick) == pick(sent[k])
  {
    var a := Arrivals(sent, order);
    ArrivalOrderCovers(order, k);
    var i :| 0 <= i < |order| && order[i] == k;
    GatherSingle(a, pick, i);
  }

  /** The ENS name of the aggregate is the one the context adapter decoded
      for the address, and empty when that adapter failed or the address is
      not in its ENS map, whatever the other adapters did and whatever the
      arrival order. */
  lemma FetchEns(address: string, ids: ContractIds, env: Responses, order: seq<nat>, convert: string -> string)
    requires IsArrivalOrder(order)
    ensures MergeAll(Arrivals(Sent(address, ids, env), order), convert).ens ==
      if env.context.Decoded? && address in env.context.value.ens then env.context.value.ens[address] else ""
  {
    var sent := Sent(address, ids, env);
    var a := Arrivals(sent, order);
    MergeEnsLastWriter(a, convert);
    var w := LastEnsWriter(a);
    if env.context.Decoded? && address in env.context.value.ens {
      ArrivalOrderCovers(order, 0);
      var i :| 0 <= i < |order| && order[i] == 0;
      assert WritesEns(a[i]);
      assert w >= 0;
    }
    if w >= 0 {
      assert a[w] == sent[order[w]];
      assert order[w] == 0;
    }
  }

  /** Which adapter can produce which kind: the context adapter neither
      Twitter, Showtime nor attendance tokens; the Superrare adapter only a
      Superrare record; the POAP adapter only attendance tokens. */
  predicate SentShape(sent: seq<IdentityEntry>) {
    |sent| == IdentityApiCount &&
    sent[0].twitter == None && sent[0].showtime == None && sent[0].poap == [] &&
    sent[1].openSea == None && sent[1].twitter == None && sent[1].rarible == None &&
    sent[1].context == None && sent[1].zora == None && sent[1].foundation == None &&
    sent[1].showtime == None && sent[1].poap == [] && sent[1].ens == None &&
    sent[2].openSea == None && sent[2].twitter == None && sent[2].superrare == None &&
    sent[2].rarible == None && sent[2].context == None && sent[2].zora == None &&
    sent[2].foundation == None && sent[2].showtime == None && sent[2].ens == None
  }

  lemma SentHasShape(address: string, ids: ContractIds, env: Responses)
    ensures SentShape(Sent(address, ids, env))
  {
    var sent := Sent(address, ids, env);
    assert sent[0] == ContextEntry(address, env.context, ids);
    assert sent[1] == ProcessSuperrare(env.superrare);
    assert sent[2] == PoapEntry(env.poapTokens, env.poapEnrichment);
  }

  /** For entries of that shape, the kinds only the context adapter produces
      are that adapter's contribution. */
  lemma ShapedContextLists(sent: seq<IdentityEntry>, order: seq<nat>, convert: string -> string)
    requires SentShape(sent) && IsArrivalOrder(order)
    ensures var r := MergeAll(Arrivals(sent, order), convert);
      r.openSea == OpenSeaOf(sent[0]) &&
      r.rarible == RaribleOf(sent[0]) &&
      r.context == ContextOf(sent[0]) &&
      r.zora == ZoraOf(sent[0]) &&
      r.foundation == FoundationOf(sent[0])
  {
    MergeLists(Arrivals(sent, order), convert);
    OnlySource(sent, order, OpenSeaOf, 0);
    OnlySource(sent, order, RaribleOf, 0);
    OnlySource(sent, order, ContextOf, 0);
    OnlySource(sent, order, ZoraOf, 0);
    OnlySource(sent, order, FoundationOf, 0);
  }

  /** For entries of that shape, Twitter and Showtime stay empty and the
      attendance tokens are the POAP adapter's contribution. */
  lemma ShapedOtherLists(sent: seq<IdentityEntry>, order: seq<nat>, convert: string -> string)
    requires SentShape(sent) && IsArrivalOrder(order)
    ensures var r := MergeAll(Arrivals(sent, order), convert);
      r.twitter == [] && r.showtime == [] && r.poap == PoapOf(sent[2])
  {
    MergeLists(Arrivals(sent, order), convert);
    OnlySource(sent, order, TwitterOf(convert), 0);
    OnlySource(sent, order, ShowtimeOf, 0);
    OnlySource(sent, order, PoapOf, 2);
  }

  /** Records of the kinds only the context adapter produces appear exactly
      as that adapter sent them, Twitter and Showtime stay empty, and the
      attendance tokens are exactly those of the POAP adapter, whatever the
      arrival order. */
  lemma FetchSingleSourceLists(address: string, ids: ContractIds, env: Responses, order: seq<nat>, convert: string -> string)
    requires IsArrivalOrder(order)
    ensures var sent := Sent(address, ids, env);
      var r := MergeAll(Arrivals(sent, order), convert);
      r.openSea == OpenSeaOf(sent[0]) &&
      r.rarible == RaribleOf(sent[0]) &&
      r.context == ContextOf(sent[0]) &&
      r.zora == ZoraOf(sent[0]) &&
      r.foundation == FoundationOf(sent[0]) &&
      r.twitter == [] &&
      r.showtime == [] &&
      r.poap == PoapOf(sent[2])
  {
    SentHasShape(address, ids, env);
    ShapedContextLists(Sent(address, ids, env), order, convert);
    ShapedOtherLists(Sent(address, ids, env), order, convert);
  }

  /** The Superrare list holds the record of the context adapter and that of
      the Superrare adapter, each when present, in either order. */
  lemma FetchSuperrare(address: string, ids: ContractIds, env: Responses, order: seq<nat>, convert: string -> string)
    requires IsArrivalOrder(order)
    ensures var sent := Sent(address, ids, env);
      multiset(MergeAll(Arrivals(sent, order), convert).superrare) ==
        multiset(SuperrareOf(sent[0])) + multiset(SuperrareOf(sent[1]))
  {
    var sent := Sent(address, ids, env);
    var a := Arrivals(sent, order);
    MergeLists(a, convert);
    ArrivalsPermute(sent, order);
    GatherPermutation(a, sent, SuperrareOf);
    assert sent == [sent[0]] + [sent[1]] + [sent[2]];
    GatherAppend([sent[0]] + [sent[1]], [sent[2]], SuperrareOf);
    GatherAppend([sent[0]], [sent[1]], SuperrareOf);
  }

  /** A failed enrichment of any one event removes every attendance token from
      the aggregate, not only that event's. */
  lemma FetchDiscardsPoapOnEnrichmentFailure(address: string, ids: ContractIds, env: Responses, order: seq<nat>, convert: string -> string)
    requires IsArrivalOrder(order)
    requires env.poapTokens.Decoded?
    requires exists i: nat :: i < |env.poapTokens.value| && !env.poapEnrichment(i).Decoded?
    ensures MergeAll(Arrivals(Sent(address, ids, env), order), convert).poap == []
  {
    FetchSingleSourceLists(address, ids, env, order, convert);
  }

  /** The first half of one turn of the receive loop: the OpenSea, Twitter,
      Superrare, Rarible and Context records of the entry, each when present. */
  method AbsorbFirst(acc: IdentityList, entry: IdentityEntry, convertTwitterHandle: string -> string)
    returns (identity: IdentityList)
    ensures identity == acc.(
      openSea := acc.openSea + OptionSeq(entry.openSea),
      twitter := acc.twitter + (if entry.twitter.Some? then [Converted(entry.twitter.value, convertTwitterHandle)] else []),
      superrare := acc.superrare + OptionSeq(entry.superrare),
      rarible := acc.rarible + OptionSeq(entry.rarible),
      context := acc.context + OptionSeq(entry.context))
  {
    identity := acc;
    if entry.openSea.Some? {
      identity := identity.(openSea := identity.openSea + [entry.openSea.value]);
    }
    if entry.twitter.Some? {
      var twitter := entry.twitter.value.(handle := convertTwitterHandle(entry.twitter.value.handle));
      identity := identity.(twitter := identity.twitter + [twitter]);
    }
    if entry.superrare.Some? {
      identity := identity.(superrare := identity.superrare + [entry.superrare.value]);
    }
    if entry.rarible.Some? {
      identity := identity.(rarible := identity.rarible + [entry.rarible.value]);
    }
    if entry.context.Some? {
      identity := identity.(context := identity.context + [entry.context.value]);
    }
  }

  /** The second half: the Zora, Foundation and Showtime records, the
      attendance tokens, and the ENS name, which replaces the previous one. */
  method AbsorbSecond(acc: IdentityList, entry: IdentityEntry)
    returns (identity: IdentityList)
    ensures identity == acc.(
      zora := acc.zora + OptionSeq(entry.zora),
      foundation := acc.foundation + OptionSeq(entry.foundation),
      showtime := acc.showtime + OptionSeq(entry.showtime),
      poap := acc.poap + entry.poap,
      ens := if entry.ens.Some? then entry.ens.value.ens else acc.ens)
  {
    identity := acc;
    if entry.zora.Some? {
      identity := identity.(zora := identity.zora + [entry.zora.value]);
    }
    if entry.foundation.Some? {
      identity := identity.(foundation := identity.foundation + [entry.foundation.value]);
    }
    if entry.showtime.Some? {
      identity := identity.(showtime := identity.showtime + [entry.showtime.value]);
    }
    if entry.poap != [] {
      identity := identity.(poap := identity.poap + entry.poap);
    }
    if entry.ens.Some? {
      identity := identity.(ens := entry.ens.value.ens);
    }
  }

  /** The receive loop of FetchIdentity: take the IdentityApiCount entries in
      arrival order and fold each successful one into the aggregate. */
  method Receive(arrivals: seq<IdentityEntry>, convertTwitterHandle: string -> string)
    returns (identity: IdentityList)
    requires |arrivals| == IdentityApiCount
    ensures identity == MergeAll(arrivals, convertTwitterHandle)
  {
    identity := EmptyList;
    var i := 0;
    while i < IdentityApiCount
      invariant 0 <= i <= IdentityApiCount
      invariant identity == MergeAll(arrivals[..i], convertTwitterHandle)
    {
      var entry := arrivals[i];
      assert arrivals[..i + 1] == arrivals[..i] + [entry];
      MergeSnoc(arrivals[..i], entry, convertTwitterHandle);
      if entry.err.Some? {
        i := i + 1;
        continue;
      }
      identity := AbsorbFirst(identity, entry, convertTwitterHandle);
      identity := AbsorbSecond(identity, entry);
      i := i + 1;
    }
    assert arrivals[..i] == arrivals;
  }

  /** FetchIdentity: run the adapters, then receive IdentityApiCount entries in
      arrival order and merge them. The call never reports an error. */
  method FetchIdentity(address: string, ids: ContractIds, env: Responses, order: seq<nat>,
                       convertTwitterHandle: string -> string)
    returns (identity: IdentityList, err: Option<Error>)
    requires IsArrivalOrder(order)
    ensures err == None
    ensures identity == MergeAll(Arrivals(Sent(address, ids, env), order), convertTwitterHandle)
  {
    var contextEntry := ProcessContext(address, env.context, ids);
    var superrareEntry := ProcessSuperrare(env.superrare);
    var poapEntry := ProcessPoap(env.poapTokens, env.poapEnrichment);
    var arrivals := Arrivals([contextEntry, superrareEntry, poapEntry], order);
    identity := Receive(arrivals, convertTwitterHandle);
    err := None;
  }
}
