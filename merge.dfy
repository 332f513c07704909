/** The merge rule of FetchIdentity (fetcher/identity.go:29-68) as a fold
    over the entries in arrival order, and what the fold computes: every list
    is the concatenation, in arrival order, of what the successful entries
    carry of that kind, and the ENS name is the last one written. */
module Merge {
  import opened IdentityTypes

  function OptionSeq<T>(o: Option<T>): (r: seq<T>)
    ensures |r| <= 1
  {
    if o.Some? then [o.value] else []
  }

  /** Twitter record as stored: its handle passed through convertTwitterHandle. */
  function Converted(t: TwitterIdentity, convert: string -> string): TwitterIdentity {
    t.(handle := convert(t.handle))
  }

  /** One turn of the receive loop: an entry with an error is skipped; otherwise
      each present record is appended to its kind's list, the attendance tokens
      are appended in order, and a present ENS name overwrites the old one. */
  function Absorb(acc: IdentityList, e: IdentityEntry, convert: string -> string): IdentityList {
    if e.Failed() then acc
    else
      IdentityList(
        acc.openSea + OptionSeq(e.openSea),
        acc.twitter + (if e.twitter.Some? then [Converted(e.twitter.value, convert)] else []),
        acc.superrare + OptionSeq(e.superrare),
        acc.rarible + OptionSeq(e.rarible),
        acc.context + OptionSeq(e.context),
        acc.zora + OptionSeq(e.zora),
        acc.foundation + OptionSeq(e.foundation),
        acc.showtime + OptionSeq(e.showtime),
        acc.poap + e.poap,
        if e.ens.Some? then e.ens.value.ens else acc.ens)
  }

  /** The aggregate after receiving `arrivals`, in that order, starting from
      the zero IdentityEntryList. */
  function MergeAll(arrivals: seq<IdentityEntry>, convert: string -> string): IdentityList
  {
    if arrivals == [] then EmptyList
    else Absorb(MergeAll(arrivals[..|arrivals| - 1], convert), arrivals[|arrivals| - 1], convert)
  }

  /** Receiving one more entry is one more turn of the loop. */
  lemma MergeSnoc(es: seq<IdentityEntry>, e: IdentityEntry, convert: string -> string)
    ensures MergeAll(es + [e], convert) == Absorb(MergeAll(es, convert), e, convert)
  {
    assert (es + [e])[..|es|] == es;
  }

  // What one entry contributes to each list: nothing when it failed.

  function OpenSeaOf(e: IdentityEntry): seq<OpenSeaIdentity> {
    if e.Failed() then [] else OptionSeq(e.openSea)
  }

  function TwitterOf(convert: string -> string): IdentityEntry -> seq<TwitterIdentity> {
    (e: IdentityEntry) => if e.Failed() || e.twitter.None? then [] else [Converted(e.twitter.value, convert)]
  }

  function SuperrareOf(e: IdentityEntry): seq<SuperrareIdentity> {
    if e.Failed() then [] else OptionSeq(e.superrare)
  }

  function RaribleOf(e: IdentityEntry): seq<RaribleIdentity> {
    if e.Failed() then [] else OptionSeq(e.rarible)
  }

  function ContextOf(e: IdentityEntry): seq<ContextIdentity> {
    if e.Failed() then [] else OptionSeq(e.context)
  }

  function ZoraOf(e: IdentityEntry): seq<ZoraIdentity> {
    if e.Failed() then [] else OptionSeq(e.zora)
  }

  function FoundationOf(e: IdentityEntry): seq<FoundationIdentity> {
    if e.Failed() then [] else OptionSeq(e.foundation)
  }

  function ShowtimeOf(e: IdentityEntry): seq<ShowtimeIdentity> {
    if e.Failed() then [] else OptionSeq(e.showtime)
  }

  function PoapOf(e: IdentityEntry): seq<PoapIdentity> {
    if e.Failed() then [] else e.poap
  }

  predicate WritesEns(e: IdentityEntry) {
    !e.Failed() && e.ens.Some?
  }

  /** The contributions of `es` of one kind, concatenated in order. */
  function Gather<T>(es: seq<IdentityEntry>, pick: IdentityEntry -> seq<T>): seq<T> {
    if es == [] then [] else pick(es[0]) + Gather(es[1..], pick)
  }

  /** Index of the last entry that writes an ENS name, or -1 when none does. */
  function LastEnsWriter(es: seq<IdentityEntry>): (w: int)
    ensures -1 <= w < |es|
    ensures w >= 0 ==> WritesEns(es[w])
    ensures forall j :: w < j < |es| ==> !WritesEns(es[j])
  {
    if es == [] then -1
    else if WritesEns(es[|es| - 1]) then |es| - 1
    else LastEnsWriter(es[..|es| - 1])
  }

  lemma {:induction false} GatherAppend<T>(a: seq<IdentityEntry>, b: seq<IdentityEntry>, pick: IdentityEntry -> seq<T>)
    ensures Gather(a + b, pick) == Gather(a, pick) + Gather(b, pick)
  {
    if a == [] {
      assert a + b == b;
    } else {
      assert (a + b)[1..] == a[1..] + b;
      GatherAppend(a[1..], b, pick);
    }
  }

  /** Each list of the aggregate holds, in arrival order, exactly the records of
      that kind carried by the successful entries; Twitter handles are stored
      converted. */
  lemma {:induction false} MergeLists(es: seq<IdentityEntry>, convert: string -> string)
    ensures var r := MergeAll(es, convert);
      r.openSea == Gather(es, OpenSeaOf) &&
      r.twitter == Gather(es, TwitterOf(convert)) &&
      r.superrare == Gather(es, SuperrareOf) &&
      r.rarible == Gather(es, RaribleOf) &&
      r.context == Gather(es, ContextOf) &&
      r.zora == Gather(es, ZoraOf) &&
      r.foundation == Gather(es, FoundationOf) &&
      r.showtime == Gather(es, ShowtimeOf) &&
      r.poap == Gather(es, PoapOf)
  {
    if es != [] {
      var init, last := es[..|es| - 1], es[|es| - 1];
      assert es == init + [last];
      MergeLists(init, convert);
      AbsorbLists(MergeAll(init, convert), last, convert);
      GatherSnoc(init, last, OpenSeaOf);
      GatherSnoc(init, last, TwitterOf(convert));
      GatherSnoc(init, last, SuperrareOf);
      GatherSnoc(init, last, RaribleOf);
      GatherSnoc(init, last, ContextOf);
      GatherSnoc(init, last, ZoraOf);
      GatherSnoc(init, last, FoundationOf);
      GatherSnoc(init, last, ShowtimeOf);
      GatherSnoc(init, last, PoapOf);
    }
  }

  /** One entry extends each list by that entry's contribution of its kind. */
  lemma AbsorbLists(acc: IdentityList, e: IdentityEntry, convert: string -> string)
    ensures var r := Absorb(acc, e, convert);
      r.openSea == acc.openSea + OpenSeaOf(e) &&
      r.twitter == acc.twitter + TwitterOf(convert)(e) &&
      r.superrare == acc.superrare + SuperrareOf(e) &&
      r.rarible == acc.rarible + RaribleOf(e) &&
      r.context == acc.context + ContextOf(e) &&
      r.zora == acc.zora + ZoraOf(e) &&
      r.foundation == acc.foundation + FoundationOf(e) &&
      r.showtime == acc.showtime + ShowtimeOf(e) &&
      r.poap == acc.poap + PoapOf(e)
  {
    if e.Failed() {
      assert Absorb(acc, e, convert) == acc;
    }
  }

  lemma GatherSnoc<T>(es: seq<IdentityEntry>, e: IdentityEntry, pick: IdentityEntry -> seq<T>)
    ensures Gather(es + [e], pick) == Gather(es, pick) + pick(e)
  {
    GatherAppend(es, [e], pick);
    assert Gather([e], pick) == pick(e) + Gather([e][1..], pick);
    assert [e][1..] == [];
  }

  /** Last writer wins: the ENS name is that of the last successful entry
      carrying one, and stays empty when no successful entry carries one. */
  lemma {:induction false} MergeEnsLastWriter(es: seq<IdentityEntry>, convert: string -> string)
    ensures var w := LastEnsWriter(es);
      MergeAll(es, convert).ens == if w < 0 then "" else es[w].ens.value.ens
  {
    if es != [] {
      MergeEnsLastWriter(es[..|es| - 1], convert);
    }
  }

  /** An entry with an error leaves the aggregate as it would have been
      without it, wherever it arrives. */
  lemma {:induction false} MergeSkipsFailed(a: seq<IdentityEntry>, e: IdentityEntry, b: seq<IdentityEntry>, convert: string -> string)
    requires e.Failed()
    ensures MergeAll(a + [e] + b, convert) == MergeAll(a + b, convert)
  {
    if b == [] {
      assert a + [e] + b == a + [e];
      assert (a + [e])[..|a|] == a;
      assert a + b == a;
    } else {
      var init, last := b[..|b| - 1], b[|b| - 1];
      MergeSkipsFailed(a, e, init, convert);
      assert (a + [e] + b)[..|a + [e] + b| - 1] == a + [e] + init;
      assert (a + b)[..|a + b| - 1] == a + init;
    }
  }

  /** When every adapter fails the aggregate is empty, and the call still
      succeeds. */
  lemma {:induction false} MergeOfFailuresIsEmpty(es: seq<IdentityEntry>, convert: string -> string)
    requires forall i :: 0 <= i < |es| ==> es[i].Failed()
    ensures MergeAll(es, convert) == EmptyList
  {
    if es != [] {
      MergeOfFailuresIsEmpty(es[..|es| - 1], convert);
    }
  }

  /** Taking the same element out of two permutations leaves permutations. */
  lemma RemoveMatching(es: seq<IdentityEntry>, fs: seq<IdentityEntry>, k: nat)
    requires multiset(es) == multiset(fs)
    requires es != [] && k < |fs| && fs[k] == es[0]
    ensures multiset(es[1..]) == multiset(fs[..k] + fs[k + 1..])
  {
    var e := es[0];
    assert es == [e] + es[1..];
    assert fs == fs[..k] + [e] + fs[k + 1..];
    var x, y := multiset(es[1..]), multiset(fs[..k] + fs[k + 1..]);
    assert multiset(es) == multiset([e]) + x;
    assert multiset(fs) == multiset(fs[..k]) + multiset([e]) + multiset(fs[k + 1..]);
    assert y == multiset(fs[..k]) + multiset(fs[k + 1..]);
    assert x + multiset([e]) == multiset(es);
    assert y + multiset([e]) == multiset(fs);
    assert x == x + multiset([e]) - multiset([e]);
    assert y == y + multiset([e]) - multiset([e]);
  }

  lemma {:induction false} GatherPermutation<T>(es: seq<IdentityEntry>, fs: seq<IdentityEntry>, pick: IdentityEntry -> seq<T>)
    requires multiset(es) == multiset(fs)
    ensures multiset(Gather(es, pick)) == multiset(Gather(fs, pick))
    decreases |es|
  {
    if es == [] {
      assert |fs| == |multiset(fs)| == 0;
    } else {
      var e := es[0];
      assert e in multiset(fs);
      var k :| 0 <= k < |fs| && fs[k] == e;
      var before, after := fs[..k], fs[k + 1..];
      RemoveMatching(es, fs, k);
      GatherPermutation(es[1..], before + after, pick);
      assert fs == before + [e] + after;
      GatherAppend(before + [e], after, pick);
      GatherAppend(before, [e], pick);
      GatherAppend(before, after, pick);
      assert Gather([e], pick) == pick(e);
      assert Gather(es, pick) == pick(e) + Gather(es[1..], pick);
      calc {
        multiset(Gather(fs, pick));
        multiset(Gather(before, pick) + pick(e) + Gather(after, pick));
        multiset(pick(e)) + multiset(Gather(before + after, pick));
        multiset(pick(e)) + multiset(Gather(es[1..], pick));
        multiset(Gather(es, pick));
      }
    }
  }

  /** Arrival order does not change what each list holds, only the order it
      holds it in. */
  lemma MergeOrderFree(es: seq<IdentityEntry>, fs: seq<IdentityEntry>, convert: string -> string)
    requires multiset(es) == multiset(fs)
    ensures var r, s := MergeAll(es, convert), MergeAll(fs, convert);
      multiset(r.openSea) == multiset(s.openSea) &&
      multiset(r.twitter) == multiset(s.twitter) &&
      multiset(r.superrare) == multiset(s.superrare) &&
      multiset(r.rarible) == multiset(s.rarible) &&
      multiset(r.context) == multiset(s.context) &&
      multiset(r.zora) == multiset(s.zora) &&
      multiset(r.foundation) == multiset(s.foundation) &&
      multiset(r.showtime) == multiset(s.showtime) &&
      multiset(r.poap) == multiset(s.poap)
  {
    MergeLists(es, convert);
    MergeLists(fs, convert);
    GatherPermutation(es, fs, OpenSeaOf);
    GatherPermutation(es, fs, TwitterOf(convert));
    GatherPermutation(es, fs, SuperrareOf);
    GatherPermutation(es, fs, RaribleOf);
    GatherPermutation(es, fs, ContextOf);
    GatherPermutation(es, fs, ZoraOf);
    GatherPermutation(es, fs, FoundationOf);
    GatherPermutation(es, fs, ShowtimeOf);
    GatherPermutation(es, fs, PoapOf);
  }

  /** The ENS name, unlike the lists, depends on arrival order as soon as two
      successful entries carry different names. */
  lemma EnsDependsOnOrder(a: IdentityEntry, b: IdentityEntry, convert: string -> string)
    requires WritesEns(a) && WritesEns(b) && a.ens.value.ens != b.ens.value.ens
    ensures MergeAll([a, b], convert).ens != MergeAll([b, a], convert).ens
  {
    assert [a, b][..1] == [a];
    assert [b, a][..1] == [b];
  }

  /** When all contributions of a kind but the i-th are empty, the list is that one contribution. */
  lemma {:induction false} GatherSingle<T>(es: seq<IdentityEntry>, pick: IdentityEntry -> seq<T>, i: nat)
    requires i < |es|
    requires forall j :: 0 <= j < |es| && j != i ==> pick(es[j]) == []
    ensures Gather(es, pick) == pick(es[i])
  {
    if i == 0 {
      GatherNone(es[1..], pick);
    } else {
      GatherSingle(es[1..], pick, i - 1);
    }
  }

  lemma {:induction false} GatherNone<T>(es: seq<IdentityEntry>, pick: IdentityEntry -> seq<T>)
    requires forall j :: 0 <= j < |es| ==> pick(es[j]) == []
    ensures Gather(es, pick) == []
  {
    if es != [] {
      GatherNone(es[1..], pick);
    }
  }
}
