/** Which continuations are applied: each one exactly if it fits into what the budget leaves at its turn. */
module PackerGrown {
  import opened Text
  import opened Anchor
  import opened AnchorWindow
  import opened Wrappers
  import opened Packer
  import opened PackerBudget

  // ---------- an entry and its continuations ----------

  /** The entry with a text joined on below, or above; nothing to join changes nothing. */
  function Below(e: Entry, text: string): Entry {
    if text == "" then e else e.(text := e.text + "\n" + text)
  }

  function Above(e: Entry, text: string): Entry {
    if text == "" then e else e.(text := text + "\n" + e.text)
  }

  function DownText(q: Query, c: Candidate): string
    requires |c.ranked| > 0
  {
    match Anchoring(q, c)
    case None => ""
    case Some(a) => a.extensionText
  }

  function UpText(q: Query, c: Candidate): string
    requires |c.ranked| > 0
  {
    match Anchoring(q, c)
    case None => ""
    case Some(a) => a.upwardText
  }

  /** A source's guaranteed entry with both its continuations. */
  function FullOffer(q: Query, c: Candidate): Entry
    requires |c.ranked| > 0
  {
    Above(Below(Offer(q, c), DownText(q, c)), UpText(q, c))
  }

  /** What an entry may cost if everything before it is final and everything behind it is as pass 1 left it. */
  function RoomFor(offered: seq<Entry>, final: seq<Entry>, i: nat, cost: Entry -> int, budget: int, used: int): int
    requires i < |offered| == |final|
  {
    budget - used - Total(cost, final[..i]) - Total(cost, offered[i + 1..])
  }

  /** The entry with the downward text if that fits into the room, and on top of it the upward text if that does. */
  function Fitted(e: Entry, down: string, up: string, cost: Entry -> int, room: int): Entry {
    var below := if cost(Below(e, down)) <= room then Below(e, down) else e;
    if cost(Above(below, up)) <= room then Above(below, up) else below
  }

  predicate Decided(q: Query, cs: seq<Candidate>, p: Pack, final: seq<Entry>, i: nat, cost: Entry -> int, budget: int, used: int)
    requires Presentable(cs) && |p.spans| == |p.selected| == |final| && i < |final|
  {
    && p.spans[i].src < |cs|
    && final[i] == Fitted(p.selected[i], DownText(q, cs[p.spans[i].src]), UpText(q, cs[p.spans[i].src]), cost,
                          RoomFor(p.selected, final, i, cost, budget, used))
  }

  // ---------- one source ----------

  lemma {:induction false} ExtendConcat(a: seq<Pending>, b: seq<Pending>, cost: Entry -> int, budget: int, p: Pack)
    requires AllInRange(a + b, p) && AllInRange(a, p)
    ensures AllInRange(b, ExtendAll(a, cost, budget, p))
    ensures ExtendAll(a + b, cost, budget, p) == ExtendAll(b, cost, budget, ExtendAll(a, cost, budget, p))
    decreases |a|
  {
    if |a| == 0 {
      assert a + b == b;
      forall i | 0 <= i < |b|
        ensures InRange(b[i], p)
      {
        assert b[i] == (a + b)[|a| + i];
      }
    } else {
      assert (a + b)[1..] == a[1..] + b;
      ExtendConcat(a[1..], b, cost, budget, Extend(a[0], cost, budget, p));
    }
  }

  /** The running total around entry `at`: the rest of the selection, and this entry. */
  lemma TotalAround(cost: Entry -> int, es: seq<Entry>, at: nat)
    requires at < |es|
    ensures Total(cost, es) == Total(cost, es[..at]) + cost(es[at]) + Total(cost, es[at + 1..])
  {
    assert es == es[..at] + [es[at]] + es[at + 1..];
    TotalConcat(cost, es[..at] + [es[at]], es[at + 1..]);
    TotalAppend(cost, es[..at], es[at]);
  }

  /** A pack whose selection is balanced, with entry `at` set apart. */
  ghost predicate Apportioned(cost: Entry -> int, p: Pack, at: nat, others: int) {
    at < |p.selected| && p.used == others + cost(p.selected[at])
  }

  lemma ExtendOne(pd: Pending, cost: Entry -> int, budget: int, p: Pack, others: int)
    requires InRange(pd, p) && |p.spans| == |p.selected| && Apportioned(cost, p, pd.at, others)
    ensures var r := Extend(pd, cost, budget, p);
            && Apportioned(cost, r, pd.at, others)
            && |r.spans| == |r.selected| && |r.leftovers| == |p.leftovers|
            && r.selected == p.selected[pd.at := r.selected[pd.at]]
            && r.selected[pd.at] == if cost(Grown(p.selected[pd.at], pd)) <= budget - others
                                    then Grown(p.selected[pd.at], pd) else p.selected[pd.at]
  {
  }

  /** The entry, grown if that fits into the room. */
  function Chosen(e: Entry, grown: Entry, cost: Entry -> int, room: int): Entry {
    if cost(grown) <= room then grown else e
  }

  /** One side of a source: no continuation, or one. */
  lemma ExtendPart(pds: seq<Pending>, text: string, above: bool, at: nat, cost: Entry -> int, budget: int, p: Pack, others: int)
    requires |p.spans| == |p.selected| && Apportioned(cost, p, at, others) && AllInRange(pds, p)
    requires |pds| == (if text == "" then 0 else 1)
    requires |pds| == 1 ==> pds[0].at == at && pds[0].text == text && pds[0].above == above
    ensures var r := ExtendAll(pds, cost, budget, p);
            && Apportioned(cost, r, at, others)
            && |r.spans| == |r.selected| && |r.leftovers| == |p.leftovers| && r.pending == p.pending
            && r.spans[at].src == p.spans[at].src
            && var grown := if above then Above(p.selected[at], text) else Below(p.selected[at], text);
               r.selected == p.selected[at := Chosen(p.selected[at], grown, cost, budget - others)]
  {
    if |pds| == 1 {
      assert pds[1..] == [];
      ExtendOne(pds[0], cost, budget, p, others);
    }
  }

  function DownPart(q: Query, c: Candidate, at: nat, left: nat): (r: seq<Pending>)
    requires |c.ranked| > 0
    ensures r <= Continuations(q, c, at, left)
    ensures |r| == (if DownText(q, c) == "" then 0 else 1)
    ensures |r| == 1 ==> r[0].at == at && r[0].left == left && r[0].text == DownText(q, c) && !r[0].above
  {
    if DownText(q, c) == "" then [] else Continuations(q, c, at, left)[..1]
  }

  function UpPart(q: Query, c: Candidate, at: nat, left: nat): (r: seq<Pending>)
    requires |c.ranked| > 0
    ensures Continuations(q, c, at, left) == DownPart(q, c, at, left) + r
    ensures |r| == (if UpText(q, c) == "" then 0 else 1)
    ensures |r| == 1 ==> r[0].at == at && r[0].left == left && r[0].text == UpText(q, c) && r[0].above
  {
    Continuations(q, c, at, left)[|DownPart(q, c, at, left)|..]
  }

  predicate IsPart(pds: seq<Pending>, text: string, above: bool, at: nat, left: nat) {
    && |pds| == (if text == "" then 0 else 1)
    && (|pds| == 1 ==> pds[0].at == at && pds[0].left == left && pds[0].text == text && pds[0].above == above)
  }

  lemma PartInRange(pds: seq<Pending>, text: string, above: bool, at: nat, left: nat, p: Pack)
    requires IsPart(pds, text, above, at, left) && |p.spans| == |p.selected| && at < |p.selected| && left < |p.leftovers|
    ensures AllInRange(pds, p)
  {
  }

  lemma ExtendSides(down: seq<Pending>, up: seq<Pending>, downText: string, upText: string, at: nat, left: nat,
                    cost: Entry -> int, budget: int, p: Pack, others: int)
    requires |p.spans| == |p.selected| && left < |p.leftovers| && Apportioned(cost, p, at, others)
    requires IsPart(down, downText, false, at, left) && IsPart(up, upText, true, at, left)
    ensures AllInRange(down + up, p)
    ensures var r := ExtendAll(down + up, cost, budget, p);
            && r.selected == p.selected[at := Fitted(p.selected[at], downText, upText, cost, budget - others)]
            && Apportioned(cost, r, at, others)
            && |r.spans| == |r.selected| && |r.leftovers| == |p.leftovers|
  {
    PartInRange(down, downText, false, at, left, p);
    PartInRange(up, upText, true, at, left, p);
    assert AllInRange(down + up, p);
    ExtendConcat(down, up, cost, budget, p);
    ExtendPart(down, downText, false, at, cost, budget, p, others);
    ExtendPart(up, upText, true, at, cost, budget, ExtendAll(down, cost, budget, p), others);
    FittedIsChosen(p.selected[at], downText, upText, cost, budget - others);
  }

  /** The continuations of one source are decided by what the rest of the selection leaves. */
  lemma ExtendSource(q: Query, c: Candidate, at: nat, left: nat, cost: Entry -> int, budget: int, p: Pack, others: int)
    requires |c.ranked| > 0 && |p.spans| == |p.selected| && left < |p.leftovers| && Apportioned(cost, p, at, others)
    ensures AllInRange(Continuations(q, c, at, left), p)
    ensures var r := ExtendAll(Continuations(q, c, at, left), cost, budget, p);
            && r.selected == p.selected[at := Fitted(p.selected[at], DownText(q, c), UpText(q, c), cost, budget - others)]
            && Apportioned(cost, r, at, others)
            && |r.spans| == |r.selected| && |r.leftovers| == |p.leftovers|
  {
    var down, up := DownPart(q, c, at, left), UpPart(q, c, at, left);
    ExtendSides(down, up, DownText(q, c), UpText(q, c), at, left, cost, budget, p, others);
  }

  lemma FittedIsChosen(e: Entry, down: string, up: string, cost: Entry -> int, room: int)
    ensures var below := Chosen(e, Below(e, down), cost, room);
            Fitted(e, down, up, cost, room) == Chosen(below, Above(below, up), cost, room)
  {
  }

  // ---------- all sources ----------

  lemma OfferSource(q: Query, c: Candidate, src: nat)
    requires |c.ranked| > 0
    ensures OfferSpan(q, c, src).src == src
  {
  }

  lemma {:induction false} AdmitPrefix(q: Query, cs: seq<Candidate>, n: nat, cost: Entry -> int, budget: int, used: int)
    requires Presentable(cs) && n <= |cs|
    ensures var a, b := AdmitAll(q, cs[..n], cost, budget, used), AdmitAll(q, cs, cost, budget, used);
            a.selected <= b.selected && a.spans <= b.spans && a.pending <= b.pending
            && |a.leftovers| <= |b.leftovers|
  {
    if n == |cs| {
      assert cs[..n] == cs;
    } else {
      var m := |cs| - 1;
      AdmitPrefix(q, cs[..m], n, cost, budget, used);
      assert cs[..m][..n] == cs[..n];
    }
  }

  // ---------- pass 1 is greedy ----------

  lemma {:induction false} AdmitSpans(q: Query, cs: seq<Candidate>, cost: Entry -> int, budget: int, used: int)
    requires Presentable(cs) && |cs| > 0
    ensures var m := |cs| - 1;
            var a, b := AdmitAll(q, cs[..m], cost, budget, used).spans, AdmitAll(q, cs, cost, budget, used).spans;
            b == a || (|b| == |a| + 1 && a <= b && b[|a|].src == m)
  {
    AdmitAllShaped(q, cs[..|cs| - 1], cost, budget, used);
    OfferSource(q, cs[|cs| - 1], |cs| - 1);
  }

  lemma {:induction false} LaterSources(q: Query, cs: seq<Candidate>, n: nat, cost: Entry -> int, budget: int, used: int)
    requires Presentable(cs) && n <= |cs|
    ensures var a, b := AdmitAll(q, cs[..n], cost, budget, used), AdmitAll(q, cs, cost, budget, used);
            forall i :: |a.spans| <= i < |b.spans| ==> b.spans[i].src >= n
  {
    if n == |cs| {
      assert cs[..n] == cs;
    } else {
      var m := |cs| - 1;
      LaterSources(q, cs[..m], n, cost, budget, used);
      assert cs[..m][..n] == cs[..n];
      AdmitSpans(q, cs, cost, budget, used);
    }
  }

  lemma {:induction false} EarlierSources(q: Query, cs: seq<Candidate>, cost: Entry -> int, budget: int, used: int)
    requires Presentable(cs)
    ensures var a := AdmitAll(q, cs, cost, budget, used); forall i :: 0 <= i < |a.spans| ==> a.spans[i].src < |cs|
  {
    if |cs| > 0 {
      var m := |cs| - 1;
      EarlierSources(q, cs[..m], cost, budget, used);
      AdmitSpans(q, cs, cost, budget, used);
    }
  }

  ghost predicate Admitted(p: Pack, s: nat) {
    exists i :: 0 <= i < |p.spans| && p.spans[i].src == s
  }

  /** What the turn of source s does. */
  lemma TurnOf(q: Query, cs: seq<Candidate>, cost: Entry -> int, budget: int, used: int, s: nat)
    requires Presentable(cs) && s < |cs|
    ensures var before, after := AdmitAll(q, cs[..s], cost, budget, used), AdmitAll(q, cs[..s + 1], cost, budget, used);
            && |before.spans| == |before.selected| && before.spans <= after.spans
            && before.used == used + Total(cost, before.selected)
            && if before.used + cost(Offer(q, cs[s])) <= budget
               then after.selected == before.selected + [Offer(q, cs[s])]
                    && |after.spans| == |before.spans| + 1 && after.spans[|before.spans|].src == s
               else after.selected == before.selected && after.spans == before.spans
  {
    assert cs[..s + 1][..s] == cs[..s];
    AdmitAllShaped(q, cs[..s], cost, budget, used);
    AdmitKeepsBalance(q, cs[..s], cost, budget, used);
    OfferSource(q, cs[s], s);
  }

  /** Source s is admitted exactly if its offer fits on top of what the sources before it were charged, and is then
      the next entry. */
  lemma PassOneIsGreedy(q: Query, cs: seq<Candidate>, cost: Entry -> int, budget: int, used: int, s: nat)
    requires Presentable(cs) && s < |cs|
    ensures var ahead, all := AdmitAll(q, cs[..s], cost, budget, used).selected, AdmitAll(q, cs, cost, budget, used);
            && ahead <= all.selected
            && (Admitted(all, s) <==> used + Total(cost, ahead) + cost(Offer(q, cs[s])) <= budget)
            && (Admitted(all, s) ==> ahead + [Offer(q, cs[s])] <= all.selected)
  {
    var before, after := AdmitAll(q, cs[..s], cost, budget, used), AdmitAll(q, cs[..s + 1], cost, budget, used);
    var all := AdmitAll(q, cs, cost, budget, used);
    TurnOf(q, cs, cost, budget, used, s);
    AdmitPrefix(q, cs, s, cost, budget, used);
    AdmitPrefix(q, cs, s + 1, cost, budget, used);
    LaterSources(q, cs, s + 1, cost, budget, used);
    EarlierSources(q, cs[..s], cost, budget, used);
    if before.used + cost(Offer(q, cs[s])) <= budget {
      assert all.spans[|before.spans|] == after.spans[|before.spans|];
    }
  }

  // ---------- all sources decided ----------

  /** After the continuations of the first n sources: their entries are decided, the others as admitted. */
  ghost predicate DecidedUpTo(q: Query, cs: seq<Candidate>, p: Pack, r: Pack, m: nat, cost: Entry -> int, budget: int, used: int)
    requires Presentable(cs)
  {
    && |p.spans| == |p.selected| == |r.selected| == |r.spans| && |r.leftovers| == |p.leftovers| && m <= |p.selected|
    && r.used == used + Total(cost, r.selected)
    && r.selected[m..] == p.selected[m..]
    && forall i :: 0 <= i < m ==> Decided(q, cs, p, r.selected, i, cost, budget, used)
  }

  /** Changing a later entry does not change what was decided. */
  lemma DecidedStays(q: Query, cs: seq<Candidate>, p: Pack, a: seq<Entry>, b: seq<Entry>, i: nat,
                     cost: Entry -> int, budget: int, used: int)
    requires Presentable(cs) && |p.spans| == |p.selected| == |a| == |b| && i < |a|
    requires a[..i + 1] == b[..i + 1] && Decided(q, cs, p, a, i, cost, budget, used)
    ensures Decided(q, cs, p, b, i, cost, budget, used)
  {
    assert a[..i] == a[..i + 1][..i] && b[..i] == b[..i + 1][..i];
    assert a[i] == a[..i + 1][i] && b[i] == b[..i + 1][i];
  }

  lemma NextSource(q: Query, cs: seq<Candidate>, p: Pack, r: Pack, m: nat, left: nat,
                   cost: Entry -> int, budget: int, used: int)
    requires Presentable(cs) && DecidedUpTo(q, cs, p, r, m, cost, budget, used)
    requires m < |p.selected| && left < |p.leftovers| && left == p.spans[m].src < |cs|
    ensures AllInRange(Continuations(q, cs[left], m, left), r)
    ensures DecidedUpTo(q, cs, p, ExtendAll(Continuations(q, cs[left], m, left), cost, budget, r), m + 1, cost, budget, used)
  {
    var c := cs[left];
    var others := r.used - cost(r.selected[m]);
    ExtendSource(q, c, m, left, cost, budget, r, others);
    var s := ExtendAll(Continuations(q, c, m, left), cost, budget, r);
    TotalAround(cost, r.selected, m);
    TotalUpdate(cost, r.selected, m, s.selected[m]);
    assert r.selected[m] == r.selected[m..][0] == p.selected[m..][0] == p.selected[m];
    assert r.selected[m + 1..] == r.selected[m..][1..] == p.selected[m..][1..] == p.selected[m + 1..];
    assert s.selected[..m] == r.selected[..m] && s.selected[m + 1..] == r.selected[m + 1..];
    assert RoomFor(p.selected, s.selected, m, cost, budget, used) == budget - others;
    forall i | 0 <= i < m
      ensures Decided(q, cs, p, s.selected, i, cost, budget, used)
    {
      assert s.selected[..i + 1] == r.selected[..i + 1];
      DecidedStays(q, cs, p, r.selected, s.selected, i, cost, budget, used);
    }
  }

  lemma PendingInRange(q: Query, cs: seq<Candidate>, n: nat, cost: Entry -> int, budget: int, used: int)
    requires Presentable(cs) && n <= |cs|
    ensures AllInRange(AdmitAll(q, cs[..n], cost, budget, used).pending, AdmitAll(q, cs, cost, budget, used))
  {
    AdmitAllShaped(q, cs, cost, budget, used);
    AdmitAllShaped(q, cs[..n], cost, budget, used);
    AdmitPrefix(q, cs, n, cost, budget, used);
  }

  lemma DecideNext(q: Query, cs: seq<Candidate>, p: Pack, pds: seq<Pending>, m: nat, left: nat,
                   cost: Entry -> int, budget: int, used: int)
    requires Presentable(cs) && m < |p.selected| == |p.spans| && left == p.spans[m].src < |cs| && left < |p.leftovers|
    requires AllInRange(pds, p) && AllInRange(pds + Continuations(q, cs[left], m, left), p)
    requires DecidedUpTo(q, cs, p, ExtendAll(pds, cost, budget, p), m, cost, budget, used)
    ensures DecidedUpTo(q, cs, p, ExtendAll(pds + Continuations(q, cs[left], m, left), cost, budget, p), m + 1,
                        cost, budget, used)
  {
    ExtendConcat(pds, Continuations(q, cs[left], m, left), cost, budget, p);
    NextSource(q, cs, p, ExtendAll(pds, cost, budget, p), m, left, cost, budget, used);
  }

  lemma {:induction false} DecideSources(q: Query, cs: seq<Candidate>, n: nat, cost: Entry -> int, budget: int, used: int)
    requires Presentable(cs) && n <= |cs|
    ensures var p, a := AdmitAll(q, cs, cost, budget, used), AdmitAll(q, cs[..n], cost, budget, used);
            && AllInRange(a.pending, p)
            && DecidedUpTo(q, cs, p, ExtendAll(a.pending, cost, budget, p), |a.selected|, cost, budget, used)
  {
    var p, a := AdmitAll(q, cs, cost, budget, used), AdmitAll(q, cs[..n], cost, budget, used);
    PendingInRange(q, cs, n, cost, budget, used);
    if n == 0 {
      AdmitKeepsBalance(q, cs, cost, budget, used);
      AdmitAllShaped(q, cs, cost, budget, used);
    } else {
      var m := n - 1;
      var b := AdmitAll(q, cs[..m], cost, budget, used);
      assert cs[..n][..m] == cs[..m];
      DecideSources(q, cs, m, cost, budget, used);
      AdmitPrefix(q, cs, n, cost, budget, used);
      AdmitAllShaped(q, cs, cost, budget, used);
      AdmitAllShaped(q, cs[..m], cost, budget, used);
      if |a.selected| > |b.selected| {
        OfferSource(q, cs[m], m);
        assert a.spans[|b.selected|] == p.spans[|b.selected|];
        DecideNext(q, cs, p, b.pending, |b.selected|, m, cost, budget, used);
      }
    }
  }

  /** Entry i is what its room makes of its offer and the texts below and above it. */
  predicate Settled(offered: seq<Entry>, downs: seq<string>, ups: seq<string>, final: seq<Entry>, i: nat,
                    cost: Entry -> int, budget: int, used: int)
    requires i < |offered| == |downs| == |ups| == |final|
  {
    final[i] == Fitted(offered[i], downs[i], ups[i], cost, RoomFor(offered, final, i, cost, budget, used))
  }

  ghost predicate AllSettled(offered: seq<Entry>, downs: seq<string>, ups: seq<string>, final: seq<Entry>,
                             cost: Entry -> int, budget: int, used: int) {
    && |offered| == |downs| == |ups| == |final|
    && forall i :: 0 <= i < |final| ==> Settled(offered, downs, ups, final, i, cost, budget, used)
  }

  ghost predicate SourcesKnown(cs: seq<Candidate>, p: Pack) {
    |p.spans| == |p.selected| && forall i :: 0 <= i < |p.spans| ==> p.spans[i].src < |cs|
  }

  function Downs(q: Query, cs: seq<Candidate>, p: Pack): (r: seq<string>)
    requires Presentable(cs) && SourcesKnown(cs, p)
    ensures |r| == |p.selected|
  {
    seq(|p.selected|, i requires 0 <= i < |p.selected| => DownText(q, cs[p.spans[i].src]))
  }

  function Ups(q: Query, cs: seq<Candidate>, p: Pack): (r: seq<string>)
    requires Presentable(cs) && SourcesKnown(cs, p)
    ensures |r| == |p.selected|
  {
    seq(|p.selected|, i requires 0 <= i < |p.selected| => UpText(q, cs[p.spans[i].src]))
  }

  /** Every continuation is applied if and only if it fits into what the entries before it, in their final form,
      and the entries behind it, as pass 1 admitted them, leave of the budget; of one source the downward
      continuation goes first. The fill changes none of these entries. */
  lemma ContinuationsAreDecided(q: Query, cs: seq<Candidate>, cost: Entry -> int, budget: int, used: int)
    requires Presentable(cs)
    ensures var p, r := AdmitAll(q, cs, cost, budget, used), PackAll(q, cs, cost, budget, used);
            && SourcesKnown(cs, p) && |p.selected| <= |r.selected|
            && AllSettled(p.selected, Downs(q, cs, p), Ups(q, cs, p), r.selected[..|p.selected|], cost, budget, used)
  {
    ExtendSettles(q, cs, cost, budget, used);
    ExtendedStay(q, cs, cost, budget, used);
  }

  lemma SourcesAreKnown(q: Query, cs: seq<Candidate>, p: Pack)
    requires Presentable(cs) && Homed(q, cs, p)
    ensures SourcesKnown(cs, p)
  {
    forall i | 0 <= i < |p.spans|
      ensures p.spans[i].src < |cs|
    {
      assert OfferHomed(q, cs, p, i);
    }
  }

  lemma DecideAll(q: Query, cs: seq<Candidate>, cost: Entry -> int, budget: int, used: int)
    requires Presentable(cs)
    ensures var p := AdmitAll(q, cs, cost, budget, used);
            && Shaped(p)
            && DecidedUpTo(q, cs, p, ExtendAll(p.pending, cost, budget, p), |p.selected|, cost, budget, used)
  {
    DecideSources(q, cs, |cs|, cost, budget, used);
    assert cs[..|cs|] == cs;
  }

  lemma ExtendSettles(q: Query, cs: seq<Candidate>, cost: Entry -> int, budget: int, used: int)
    requires Presentable(cs)
    ensures var p := AdmitAll(q, cs, cost, budget, used);
            && Shaped(p) && SourcesKnown(cs, p)
            && AllSettled(p.selected, Downs(q, cs, p), Ups(q, cs, p), ExtendAll(p.pending, cost, budget, p).selected,
                          cost, budget, used)
  {
    DecideAll(q, cs, cost, budget, used);
    AdmitAllHomed(q, cs, cost, budget, used);
    var p := AdmitAll(q, cs, cost, budget, used);
    SourcesAreKnown(q, cs, p);
    DecidedIsSettled(q, cs, p, ExtendAll(p.pending, cost, budget, p), cost, budget, used);
  }

  lemma ExtendedStay(q: Query, cs: seq<Candidate>, cost: Entry -> int, budget: int, used: int)
    requires Presentable(cs) && Shaped(AdmitAll(q, cs, cost, budget, used))
    ensures var p := AdmitAll(q, cs, cost, budget, used);
            var extended := ExtendAll(p.pending, cost, budget, p).selected;
            extended <= PackAll(q, cs, cost, budget, used).selected
  {
  }

  lemma DecidedIsSettled(q: Query, cs: seq<Candidate>, p: Pack, r: Pack, cost: Entry -> int, budget: int, used: int)
    requires Presentable(cs) && SourcesKnown(cs, p) && DecidedUpTo(q, cs, p, r, |p.selected|, cost, budget, used)
    ensures AllSettled(p.selected, Downs(q, cs, p), Ups(q, cs, p), r.selected, cost, budget, used)
  {
    forall i | 0 <= i < |r.selected|
      ensures Settled(p.selected, Downs(q, cs, p), Ups(q, cs, p), r.selected, i, cost, budget, used)
    {
      assert Decided(q, cs, p, r.selected, i, cost, budget, used);
    }
  }

  // ---------- what joining a text costs ----------

  /** Joining a text to an entry adds the text's own weight, whatever the entry. */
  ghost predicate Additive(cost: Entry -> int, weight: string -> nat) {
    forall e: Entry, text: string ::
      && cost(e.(text := e.text + "\n" + text)) == cost(e) + weight(text)
      && cost(e.(text := text + "\n" + e.text)) == cost(e) + weight(text)
  }

  function Weight(weight: string -> nat, text: string): nat {
    if text == "" then 0 else weight(text)
  }

  lemma JoinedCosts(e: Entry, text: string, cost: Entry -> int, weight: string -> nat)
    requires Additive(cost, weight)
    ensures cost(Below(e, text)) == cost(Above(e, text)) == cost(e) + Weight(weight, text)
  {
  }

  /** Which of two texts are joined to an entry. */
  function Joined(e: Entry, down: string, up: string, withDown: bool, withUp: bool): Entry {
    Above(Below(e, if withDown then down else ""), if withUp then up else "")
  }

  lemma FittedCosts(e: Entry, down: string, up: string, cost: Entry -> int, weight: string -> nat, room: int)
    returns (withDown: bool, withUp: bool)
    requires Additive(cost, weight)
    ensures Fitted(e, down, up, cost, room) == Joined(e, down, up, withDown, withUp)
    ensures cost(e) <= cost(Fitted(e, down, up, cost, room)) <= cost(Joined(e, down, up, true, true))
    ensures !withDown ==> cost(e) + weight(down) > room
    ensures !withUp ==> cost(Fitted(e, down, up, cost, room)) + weight(up) > room
    ensures cost(Joined(e, down, up, true, true)) <= room ==> withDown && withUp
  {
    withDown := down == "" || cost(Below(e, down)) <= room;
    var below := if withDown then Below(e, down) else e;
    withUp := up == "" || cost(Above(below, up)) <= room;
    JoinedCosts(e, down, cost, weight);
    JoinedCosts(below, up, cost, weight);
    JoinedCosts(Below(e, down), up, cost, weight);
  }

  // ---------- what is missing overflows ----------

  lemma {:induction false} TotalGrows(cost: Entry -> int, a: seq<Entry>, b: seq<Entry>)
    requires |a| == |b| && forall i :: 0 <= i < |a| ==> cost(a[i]) <= cost(b[i])
    ensures Total(cost, a) <= Total(cost, b)
  {
    if |a| > 0 {
      TotalGrows(cost, a[..|a| - 1], b[..|b| - 1]);
    }
  }

  lemma {:induction false} TotalIsPositive(cost: Entry -> int, es: seq<Entry>)
    requires Positive(cost)
    ensures Total(cost, es) >= 0
  {
    if |es| > 0 {
      TotalIsPositive(cost, es[..|es| - 1]);
    }
  }

  /** What is charged in the end leaves no more than the room an entry had at its turn. */
  lemma RoomShrinks(cost: Entry -> int, offered: seq<Entry>, final: seq<Entry>, i: nat, budget: int, used: int)
    requires i < |offered| == |final|
    requires forall j :: 0 <= j < |offered| ==> cost(offered[j]) <= cost(final[j])
    ensures budget - used - Total(cost, final) <= RoomFor(offered, final, i, cost, budget, used) - cost(final[i])
  {
    TotalAround(cost, final, i);
    TotalGrows(cost, offered[i + 1..], final[i + 1..]);
  }

  lemma SettledGrows(offered: seq<Entry>, downs: seq<string>, ups: seq<string>, final: seq<Entry>,
                     cost: Entry -> int, weight: string -> nat, budget: int, used: int)
    requires Additive(cost, weight) && AllSettled(offered, downs, ups, final, cost, budget, used)
    ensures forall j :: 0 <= j < |offered| ==> cost(offered[j]) <= cost(final[j])
  {
    forall j | 0 <= j < |offered|
      ensures cost(offered[j]) <= cost(final[j])
    {
      assert Settled(offered, downs, ups, final, j, cost, budget, used);
      var _, _ := FittedCosts(offered[j], downs[j], ups[j], cost, weight, RoomFor(offered, final, j, cost, budget, used));
    }
  }

  /** The entry is the offer with both, one or none of its continuations, and for the missing ones the final charge
      leaves too little. */
  ghost predicate MissingOverflows(e: Entry, offer: Entry, down: string, up: string, weight: string -> nat, left: int) {
    exists withDown, withUp ::
      && e == Joined(offer, down, up, withDown, withUp)
      && (!withDown ==> weight(down) > left) && (!withUp ==> weight(up) > left)
  }

  lemma SettledOverflows(offered: seq<Entry>, downs: seq<string>, ups: seq<string>, final: seq<Entry>, i: nat,
                         cost: Entry -> int, weight: string -> nat, budget: int, used: int)
    requires Additive(cost, weight) && AllSettled(offered, downs, ups, final, cost, budget, used) && i < |final|
    ensures MissingOverflows(final[i], offered[i], downs[i], ups[i], weight, budget - used - Total(cost, final))
  {
    var room := RoomFor(offered, final, i, cost, budget, used);
    SettledGrows(offered, downs, ups, final, cost, weight, budget, used);
    RoomShrinks(cost, offered, final, i, budget, used);
    var withDown, withUp := FittedCosts(offered[i], downs[i], ups[i], cost, weight, room);
    assert Settled(offered, downs, ups, final, i, cost, budget, used);
    assert final[i] == Joined(offered[i], downs[i], ups[i], withDown, withUp);
  }

  lemma LessLeft(e: Entry, offer: Entry, down: string, up: string, weight: string -> nat, left: int, less: int)
    requires MissingOverflows(e, offer, down, up, weight, left) && less <= left
    ensures MissingOverflows(e, offer, down, up, weight, less)
  {
    var withDown, withUp :| e == Joined(offer, down, up, withDown, withUp)
                            && (!withDown ==> weight(down) > left) && (!withUp ==> weight(up) > left);
    assert e == Joined(offer, down, up, withDown, withUp);
  }

  lemma FilledTotal(cost: Entry -> int, all: seq<Entry>, n: nat)
    requires Positive(cost) && n <= |all|
    ensures Total(cost, all[..n]) <= Total(cost, all)
  {
    assert all == all[..n] + all[n..];
    TotalConcat(cost, all[..n], all[n..]);
    TotalIsPositive(cost, all[n..]);
  }

  /** Of every admitted source the final entry is its offer with its continuations, except those whose own weight
      would still overflow the budget at the end. */
  lemma OnlyOverflowIsMissing(q: Query, cs: seq<Candidate>, cost: Entry -> int, weight: string -> nat,
                              budget: int, used: int, i: nat)
    requires Presentable(cs) && Additive(cost, weight) && Positive(cost)
    requires i < |AdmitAll(q, cs, cost, budget, used).selected|
    ensures var p, r := AdmitAll(q, cs, cost, budget, used), PackAll(q, cs, cost, budget, used);
            && SourcesKnown(cs, p) && |p.selected| <= |r.selected|
            && p.selected[i] == Offer(q, cs[p.spans[i].src])
            && MissingOverflows(r.selected[i], p.selected[i], DownText(q, cs[p.spans[i].src]),
                                UpText(q, cs[p.spans[i].src]), weight, budget - r.used)
  {
    var p, r := AdmitAll(q, cs, cost, budget, used), PackAll(q, cs, cost, budget, used);
    ContinuationsAreDecided(q, cs, cost, budget, used);
    PackKeepsBalance(q, cs, cost, budget, used);
    AdmitAllHomed(q, cs, cost, budget, used);
    assert OfferHomed(q, cs, p, i);
    var downs, ups := Downs(q, cs, p), Ups(q, cs, p);
    SettledThenFilled(p.selected, downs, ups, r.selected, i, cost, weight, budget, used);
    assert r.used == used + Total(cost, r.selected);
  }

  lemma SettledThenFilled(offered: seq<Entry>, downs: seq<string>, ups: seq<string>, all: seq<Entry>, i: nat,
                          cost: Entry -> int, weight: string -> nat, budget: int, used: int)
    requires Additive(cost, weight) && Positive(cost) && i < |offered| <= |all|
    requires AllSettled(offered, downs, ups, all[..|offered|], cost, budget, used)
    ensures MissingOverflows(all[i], offered[i], downs[i], ups[i], weight, budget - used - Total(cost, all))
  {
    var final := all[..|offered|];
    SettledOverflows(offered, downs, ups, final, i, cost, weight, budget, used);
    FilledTotal(cost, all, |offered|);
    LessLeft(final[i], offered[i], downs[i], ups[i], weight, budget - used - Total(cost, final), budget - used - Total(cost, all));
  }

  // ---------- a budget for everything ----------

  function FullOffers(q: Query, cs: seq<Candidate>): (r: seq<Entry>)
    requires Presentable(cs)
    ensures |r| == |cs|
  {
    seq(|cs|, i requires 0 <= i < |cs| => FullOffer(q, cs[i]))
  }

  lemma FullOfferCosts(q: Query, c: Candidate, cost: Entry -> int, weight: string -> nat)
    requires |c.ranked| > 0 && Additive(cost, weight)
    ensures cost(Offer(q, c)) <= cost(FullOffer(q, c))
  {
    JoinedCosts(Offer(q, c), DownText(q, c), cost, weight);
    JoinedCosts(Below(Offer(q, c), DownText(q, c)), UpText(q, c), cost, weight);
  }

  lemma {:induction false} OfferTotalIsTotal(q: Query, cs: seq<Candidate>, cost: Entry -> int)
    requires Presentable(cs)
    ensures OfferTotal(q, cs, cost) == Total(cost, Offers(q, cs))
  {
    if |cs| > 0 {
      OfferTotalIsTotal(q, cs[..|cs| - 1], cost);
      OffersStep(q, cs);
    }
  }

  /** The offers of all sources, with all their texts, fit the budget. */
  ghost predicate AllFit(offered: seq<Entry>, downs: seq<string>, ups: seq<string>, full: seq<Entry>,
                         cost: Entry -> int, budget: int, used: int) {
    && |offered| == |downs| == |ups| == |full|
    && (forall j :: 0 <= j < |full| ==> full[j] == Joined(offered[j], downs[j], ups[j], true, true))
    && used + Total(cost, full) <= budget
  }

  lemma JoinedGrows(offered: seq<Entry>, downs: seq<string>, ups: seq<string>, full: seq<Entry>,
                    cost: Entry -> int, weight: string -> nat, budget: int, used: int)
    requires Additive(cost, weight) && AllFit(offered, downs, ups, full, cost, budget, used)
    ensures forall j :: 0 <= j < |full| ==> cost(offered[j]) <= cost(full[j])
  {
    forall j | 0 <= j < |full|
      ensures cost(offered[j]) <= cost(full[j])
    {
      JoinedCosts(offered[j], downs[j], cost, weight);
      JoinedCosts(Below(offered[j], downs[j]), ups[j], cost, weight);
    }
  }

  /** Where everything fits, an entry gets all its continuations. */
  lemma FitsInFull(offered: seq<Entry>, downs: seq<string>, ups: seq<string>, full: seq<Entry>, final: seq<Entry>, i: nat,
                   cost: Entry -> int, weight: string -> nat, budget: int, used: int)
    requires Additive(cost, weight) && AllFit(offered, downs, ups, full, cost, budget, used)
    requires AllSettled(offered, downs, ups, final, cost, budget, used)
    requires i < |full| && final[..i] == full[..i]
    ensures final[i] == full[i]
  {
    JoinedGrows(offered, downs, ups, full, cost, weight, budget, used);
    TotalAround(cost, full, i);
    TotalGrows(cost, offered[i + 1..], full[i + 1..]);
    assert Settled(offered, downs, ups, final, i, cost, budget, used);
    var _, _ := FittedCosts(offered[i], downs[i], ups[i], cost, weight, RoomFor(offered, final, i, cost, budget, used));
  }

  lemma {:induction false} PrefixInFull(offered: seq<Entry>, downs: seq<string>, ups: seq<string>, full: seq<Entry>,
                                        final: seq<Entry>, n: nat, cost: Entry -> int, weight: string -> nat,
                                        budget: int, used: int)
    requires Additive(cost, weight) && AllFit(offered, downs, ups, full, cost, budget, used)
    requires AllSettled(offered, downs, ups, final, cost, budget, used) && n <= |full|
    ensures final[..n] == full[..n]
  {
    if n > 0 {
      PrefixInFull(offered, downs, ups, full, final, n - 1, cost, weight, budget, used);
      FitsInFull(offered, downs, ups, full, final, n - 1, cost, weight, budget, used);
      SameHead(final, full, n - 1);
    }
  }

  lemma SameHead(a: seq<Entry>, b: seq<Entry>, n: nat)
    requires n < |a| == |b| && a[..n] == b[..n] && a[n] == b[n]
    ensures a[..n + 1] == b[..n + 1]
  {
    assert a[..n + 1] == a[..n] + [a[n]] && b[..n + 1] == b[..n] + [b[n]];
  }

  lemma SourcesInOrder(q: Query, cs: seq<Candidate>, p: Pack, i: nat)
    requires Presentable(cs) && Homed(q, cs, p) && |p.selected| == |cs| && i < |cs|
    ensures p.spans[i].src == i
  {
    forall j | 0 <= j < |cs|
      ensures p.spans[j].src < |cs|
    {
      assert OfferHomed(q, cs, p, j);
    }
    Climbs(p.spans, |cs|, i);
  }

  lemma {:induction false} ClimbsFrom(spans: seq<Span>, i: nat)
    requires i < |spans| && forall j, k :: 0 <= j < k < |spans| ==> spans[j].src < spans[k].src
    ensures spans[i].src >= i
  {
    if i > 0 {
      ClimbsFrom(spans, i - 1);
    }
  }

  lemma {:induction false} Climbs(spans: seq<Span>, n: nat, i: nat)
    requires i < |spans| == n && (forall j, k :: 0 <= j < k < n ==> spans[j].src < spans[k].src)
    requires forall j :: 0 <= j < n ==> spans[j].src < n
    ensures spans[i].src == i
    decreases n - i
  {
    ClimbsFrom(spans, i);
    if i + 1 < n {
      Climbs(spans, n, i + 1);
    }
  }

  /** If the initial charge and all sources with all their continuations fit the budget together, every source is
      shown with all of them. */
  lemma EverythingFitsInFull(q: Query, sources: seq<Source>, cost: Entry -> int, weight: string -> nat,
                             budget: int, used: int, s: nat)
    requires Presentable(Collect(q, sources)) && Additive(cost, weight) && Positive(cost)
    requires used + Total(cost, FullOffers(q, Collect(q, sources))) <= budget
    requires s < |Collect(q, sources)|
    ensures FullOffer(q, Collect(q, sources)[s]) in Select(q, sources, cost, budget, used)
  {
    var cs := Collect(q, sources);
    PackInFull(q, cs, cost, weight, budget, used, s);
    var all := PackAll(q, cs, cost, budget, used).selected;
    SortMembers(all, ByDate, all[s]);
  }

  lemma OffersFit(q: Query, cs: seq<Candidate>, cost: Entry -> int, weight: string -> nat, budget: int, used: int)
    requires Presentable(cs) && Additive(cost, weight) && Positive(cost)
    requires used + Total(cost, FullOffers(q, cs)) <= budget
    ensures AdmitAll(q, cs, cost, budget, used).selected == Offers(q, cs)
  {
    forall j | 0 <= j < |cs|
      ensures cost(Offers(q, cs)[j]) <= cost(FullOffers(q, cs)[j])
    {
      FullOfferCosts(q, cs[j], cost, weight);
    }
    TotalGrows(cost, Offers(q, cs), FullOffers(q, cs));
    OfferTotalIsTotal(q, cs, cost);
    AllOffersFit(q, cs, cost, budget, used);
  }

  lemma PackInFull(q: Query, cs: seq<Candidate>, cost: Entry -> int, weight: string -> nat, budget: int, used: int, s: nat)
    requires Presentable(cs) && Additive(cost, weight) && Positive(cost) && s < |cs|
    requires used + Total(cost, FullOffers(q, cs)) <= budget
    ensures var r := PackAll(q, cs, cost, budget, used).selected; s < |r| && r[s] == FullOffer(q, cs[s])
  {
    OffersFit(q, cs, cost, weight, budget, used);
    AdmitAllHomed(q, cs, cost, budget, used);
    ContinuationsAreDecided(q, cs, cost, budget, used);
    var p, r := AdmitAll(q, cs, cost, budget, used), PackAll(q, cs, cost, budget, used).selected;
    var downs, ups, full := Downs(q, cs, p), Ups(q, cs, p), FullOffers(q, cs);
    FullIsJoined(q, cs, p, downs, ups);
    var final := r[..|cs|];
    PrefixInFull(p.selected, downs, ups, full, final, |cs|, cost, weight, budget, used);
    assert final[..|cs|] == final && full[..|cs|] == full;
    assert r[s] == final[s] == full[s];
  }

  lemma FullIsJoined(q: Query, cs: seq<Candidate>, p: Pack, downs: seq<string>, ups: seq<string>)
    requires Presentable(cs) && Homed(q, cs, p) && SourcesKnown(cs, p) && p.selected == Offers(q, cs)
    requires downs == Downs(q, cs, p) && ups == Ups(q, cs, p)
    ensures forall j :: 0 <= j < |cs| ==> FullOffers(q, cs)[j] == Joined(p.selected[j], downs[j], ups[j], true, true)
  {
    forall j | 0 <= j < |cs|
      ensures FullOffers(q, cs)[j] == Joined(p.selected[j], downs[j], ups[j], true, true)
    {
      SourcesInOrder(q, cs, p, j);
    }
  }

  // ---------- the full text ----------

  /** A text with the runs directly above and below it, those that are not empty. */
  function Around(lines: seq<Line>, p: Plan, text: string): string
    requires PlanFits(p, lines)
  {
    (if p.top == p.low then "" else RunText(lines, p.top, p.low) + "\n") + text
    + (if p.high == p.bottom then "" else "\n" + RunText(lines, p.high, p.bottom))
  }

  /** With both continuations an uncut window is the whole run of lines from the topmost to the lowest. */
  lemma AroundIsRun(lines: seq<Line>, p: Plan)
    requires PlanFits(p, lines)
    ensures Around(lines, p, RunText(lines, p.low, p.high)) == RunText(lines, p.top, p.bottom)
  {
    if p.high < p.bottom {
      RunsJoin(lines, p.low, p.high, p.bottom);
    }
    if p.top < p.low {
      RunsJoin(lines, p.top, p.low, p.bottom);
    }
  }

  /** The fully continued entry of an anchored source is the run of its lines from the topmost continued line to the
      lowest, the anchor line shortened if it alone is too long. */
  lemma FullOfferIsRun(q: Query, c: Candidate)
    requires |c.ranked| > 0 && Anchoring(q, c).Some? && !q.enumerated("")
    ensures var lines := Stream(c.ordered);
            var p := AnchorPlan(q, c.ordered, c.ranked[0].chunkIndex, c.ranked[0].text).value;
            && PlanFits(p, lines)
            && FullOffer(q, c).text == if p.sliced then Around(lines, p, TrimLine(q, lines[p.best].text, p.cap))
                                       else RunText(lines, p.top, p.bottom)
  {
    var best := c.ranked[0];
    var lines := Stream(c.ordered);
    var p := AnchorPlan(q, c.ordered, best.chunkIndex, best.text).value;
    PlanOrigin(q, c.ordered, best.chunkIndex, best.text, p);
    ContinuedRuns(q, lines, p.best, p.cap);
    AroundIsRun(lines, p);
    var e := Offer(q, c);
    assert e.text == PlanText(q, lines, p);
    FullText(e, lines, p);
  }

  /** The run an anchored source shows in full. */
  ghost predicate ShowsFullRun(q: Query, c: Candidate, e: Entry)
    requires |c.ranked| > 0 && Anchoring(q, c).Some?
  {
    var best := c.ranked[0];
    var lines, p := Stream(c.ordered), AnchorPlan(q, c.ordered, best.chunkIndex, best.text).value;
    && e == Offer(q, c).(text := e.text)
    && PlanFits(p, lines)
    && e.text == if p.sliced then Around(lines, p, TrimLine(q, lines[p.best].text, p.cap)) else RunText(lines, p.top, p.bottom)
  }

  /** If everything fits, every anchored source is shown as that run. */
  lemma FullRunsAreShown(q: Query, sources: seq<Source>, cost: Entry -> int, weight: string -> nat,
                         budget: int, used: int, s: nat)
    requires Presentable(Collect(q, sources)) && Additive(cost, weight) && Positive(cost) && !q.enumerated("")
    requires used + Total(cost, FullOffers(q, Collect(q, sources))) <= budget
    requires s < |Collect(q, sources)| && Anchoring(q, Collect(q, sources)[s]).Some?
    ensures exists e :: e in Select(q, sources, cost, budget, used) && ShowsFullRun(q, Collect(q, sources)[s], e)
  {
    var c := Collect(q, sources)[s];
    EverythingFitsInFull(q, sources, cost, weight, budget, used, s);
    FullOfferIsRun(q, c);
    assert FullOffer(q, c) == Offer(q, c).(text := FullOffer(q, c).text);
    assert ShowsFullRun(q, c, FullOffer(q, c));
  }

  lemma FullText(e: Entry, lines: seq<Line>, p: Plan)
    requires PlanFits(p, lines)
    requires RunText(lines, p.high, p.bottom) == "" <==> p.high == p.bottom
    requires RunText(lines, p.top, p.low) == "" <==> p.top == p.low
    ensures Above(Below(e, RunText(lines, p.high, p.bottom)), RunText(lines, p.top, p.low)).text == Around(lines, p, e.text)
  {
    var up, down := RunText(lines, p.top, p.low), RunText(lines, p.high, p.bottom);
    assert up + "\n" + (e.text + "\n" + down) == up + "\n" + e.text + ("\n" + down);
    assert up + "\n" + e.text == up + "\n" + e.text + "";
    assert "" + e.text + "" == e.text;
  }

  lemma ContinuedRuns(q: Query, lines: seq<Line>, best: nat, cap: nat)
    requires best < |lines| && !q.enumerated("")
    ensures var p := WindowPlan(q, lines, best, cap);
            && PlanFits(p, lines)
            && (RunText(lines, p.high, p.bottom) == "" <==> p.high == p.bottom)
            && (RunText(lines, p.top, p.low) == "" <==> p.top == p.low)
  {
    var p := WindowPlan(q, lines, best, cap);
    DownwardIsMaximal(q, lines, best, cap);
    UpwardIsMaximal(q, lines, best, cap);
    EnumeratedRun(q, lines, p.high, p.bottom);
    EnumeratedRun(q, lines, p.top, p.low);
  }

  lemma EnumeratedRun(q: Query, lines: seq<Line>, a: nat, b: nat)
    requires a <= b <= |lines| && !q.enumerated("") && forall i :: a <= i < b ==> q.enumerated(lines[i].text)
    ensures RunText(lines, a, b) == "" <==> a == b
  {
    if a < b {
      var run := Texts(lines)[a..b];
      assert run[0] != "";
    }
  }
}
