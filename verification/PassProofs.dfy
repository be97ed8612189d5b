/** Which credit confirms a settlement: the three passes by the rows they read, hits and misses alike. */
module PassProofs {
  import opened Prelude
  import opened Dates
  import opened Models
  import opened Recon
  import opened ReconSafety

  // ------------------------------------------------------------ in terms of rows

  /** The last credit of the feed whose narration names the settlement, when it has the settlement's amount. */
  ghost predicate JoinsByName(b: Batch, eng: Engine, sid: string, t: BankTxn) {
    && t.amountPaise == GroupNet(b, sid)
    && exists i :: 0 <= i < |b.bank| && b.bank[i] == t && t.isCredit && eng.settlementOf(t.narration) == Some(sid)
                   && forall k :: i < k < |b.bank| && b.bank[k].isCredit ==> eng.settlementOf(b.bank[k].narration) != Some(sid)
  }

  /** A credit of the settlement's amount under the UTR of one of its gateway rows. */
  ghost predicate JoinsByUtr(b: Batch, sid: string, t: BankTxn) {
    && t in b.bank && t.isCredit && t.amountPaise == GroupNet(b, sid)
    && exists c :: c in b.captures && c.settlementId == sid && c.utr != "" && c.utr == t.utr
  }

  /** The credit of an earlier settlement's hit. */
  ghost predicate TakenBefore(b: Batch, hits: map<string, Hit>, i: nat, id: string)
    requires i <= |SettlementIds(b.captures)|
  {
    exists k :: 0 <= k < i && SettlementIds(b.captures)[k] in hits && hits[SettlementIds(b.captures)[k]].credit.txnId == id
  }

  /** A credit of the settlement's amount, zero to three engine days after its latest row, that nothing took before. */
  ghost predicate JoinsByDate(b: Batch, hits: map<string, Hit>, i: nat, t: BankTxn)
    requires i < |SettlementIds(b.captures)| && GroupOf(b, SettlementIds(b.captures)[i]) != []
  {
    var sid := SettlementIds(b.captures)[i];
    && t in b.bank && t.isCredit && t.amountPaise == GroupNet(b, sid) && t.amountPaise != 0
    && 0 <= EngineDelta(LatestCapture(GroupOf(b, sid)), t.valueDate) <= 3
    && !TakenBefore(b, hits, i, t.txnId)
  }

  // ------------------------------------------------------------ the passes one by one

  lemma NamingSnoc(eng: Engine, bank: seq<BankTxn>, t: BankTxn, sid: string)
    ensures CreditNaming(eng, Filter(bank + [t], IsCredit), sid)
         == if t.isCredit && eng.settlementOf(t.narration) == Some(sid) then Some(t)
            else CreditNaming(eng, Filter(bank, IsCredit), sid)
  {
    FilterSnoc(bank, t, IsCredit);
    var kept := Filter(bank, IsCredit);
    assert (kept + [t])[..|kept|] == kept;
  }

  lemma {:induction false} LastNaming(eng: Engine, bank: seq<BankTxn>, sid: string)
    ensures var r := CreditNaming(eng, Filter(bank, IsCredit), sid);
            && (r.Some? ==> exists i :: 0 <= i < |bank| && bank[i] == r.value && NamesLast(eng, bank, i, sid))
            && (r.None? ==> forall i :: 0 <= i < |bank| && bank[i].isCredit ==> eng.settlementOf(bank[i].narration) != Some(sid))
  {
    if bank != [] {
      var n := |bank| - 1;
      var rest, last := bank[..n], bank[n];
      LastNaming(eng, rest, sid);
      NamingSnoc(eng, rest, last, sid);
      assert bank == rest + [last];
      hide CreditNaming, Filter;
      var r := CreditNaming(eng, Filter(bank, IsCredit), sid);
      if last.isCredit && eng.settlementOf(last.narration) == Some(sid) {
        assert NamesLast(eng, bank, n, sid);
      } else if r.Some? {
        var i :| 0 <= i < |rest| && rest[i] == r.value && NamesLast(eng, rest, i, sid);
        assert NamesLast(eng, bank, i, sid);
      }
    }
  }

  ghost predicate NamesLast(eng: Engine, bank: seq<BankTxn>, i: nat, sid: string)
    requires i < |bank|
  {
    && bank[i].isCredit && eng.settlementOf(bank[i].narration) == Some(sid)
    && forall k :: i < k < |bank| && bank[k].isCredit ==> eng.settlementOf(bank[k].narration) != Some(sid)
  }

  lemma NamedExactly(b: Batch, eng: Engine, sid: string)
    ensures var r := CreditNaming(eng, Credits(b), sid);
            forall t :: JoinsByName(b, eng, sid, t) <==> r == Some(t) && t.amountPaise == GroupNet(b, sid)
  {
    hide CreditNaming, GroupNet;
    LastNaming(eng, b.bank, sid);
    var r := CreditNaming(eng, Credits(b), sid);
    if r.Some? {
      var i :| 0 <= i < |b.bank| && b.bank[i] == r.value && NamesLast(eng, b.bank, i, sid);
      forall t | JoinsByName(b, eng, sid, t)
        ensures r == Some(t)
      {
        var j :| 0 <= j < |b.bank| && b.bank[j] == t && NamesLast(eng, b.bank, j, sid);
        assert i == j;
      }
    }
  }

  lemma {:induction false} UtrHitExists(group: seq<Capture>, credits: seq<BankTxn>, expected: int, c: Capture, t: BankTxn)
    requires c in group && c.utr != "" && t in credits && t.utr == c.utr && t.amountPaise == expected
    ensures ExactUtrHit(group, credits, expected).Some?
  {
    if group[0] == c {
      assert UtrAndAmount(c.utr, expected)(t);
    } else {
      assert group == [group[0]] + group[1..];
      UtrHitExists(group[1..], credits, expected, c, t);
    }
  }

  lemma UtrExactly(b: Batch, sid: string)
    ensures var r := ExactUtrHit(GroupOf(b, sid), Credits(b), GroupNet(b, sid));
            && (r.Some? ==> JoinsByUtr(b, sid, r.value))
            && (r.None? ==> forall t :: !JoinsByUtr(b, sid, t))
  {
    hide ExactUtrHit, GroupNet;
    var r := ExactUtrHit(GroupOf(b, sid), Credits(b), GroupNet(b, sid));
    forall t | JoinsByUtr(b, sid, t)
      ensures r.Some?
    {
      var c :| c in b.captures && c.settlementId == sid && c.utr != "" && c.utr == t.utr;
      UtrHitExists(GroupOf(b, sid), Credits(b), GroupNet(b, sid), c, t);
    }
  }

  // ------------------------------------------------------------ one settlement in its place

  ghost predicate HitOf(hits: map<string, Hit>, sid: string, h: Option<Hit>) {
    if sid in hits then h == Some(hits[sid]) else h == None
  }

  /** What was decided for a settlement depends only on the settlements before it and is never revised. */
  lemma {:induction false} DecidedOnce(b: Batch, eng: Engine, sids: seq<string>, i: nat)
    requires NoDup(sids) && i < |sids| && forall s :: s in sids ==> s != "" && GroupOf(b, s) != []
    ensures forall s :: s in sids[..i] ==> s in sids
    ensures HitOf(SettleUpTo(b, eng, sids).hits, sids[i], HitFor(b, eng, sids[i], SettleUpTo(b, eng, sids[..i]).consumed))
  {
    hide HitFor, HitEvidence;
    var n := |sids| - 1;
    var rest := sids[..n];
    assert forall k :: 0 <= k < n ==> sids[k] != sids[n];
    assert forall s :: s in rest ==> s in sids;
    if i < n {
      DecidedOnce(b, eng, rest, i);
      assert rest[..i] == sids[..i];
    } else if sids[n] in SettleUpTo(b, eng, rest).hits {
      HitsSoundUpTo(b, eng, rest, sids[n]);
    }
  }

  /** The consumed credits are those of the hits. */
  lemma {:induction false} ConsumedByHits(b: Batch, eng: Engine, sids: seq<string>, i: nat, id: string)
    requires NoDup(sids) && i <= |sids| && forall s :: s in sids ==> s != "" && GroupOf(b, s) != []
    ensures forall s :: s in sids[..i] ==> s in sids
    ensures id in SettleUpTo(b, eng, sids[..i]).consumed
       <==> exists k :: 0 <= k < i && sids[k] in SettleUpTo(b, eng, sids).hits
                        && SettleUpTo(b, eng, sids).hits[sids[k]].credit.txnId == id
  {
    hide HitFor;
    var hits := SettleUpTo(b, eng, sids).hits;
    if i > 0 {
      ConsumedByHits(b, eng, sids, i - 1, id);
      DecidedOnce(b, eng, sids, i - 1);
      assert sids[..i][..i - 1] == sids[..i - 1];
    }
  }

  lemma InWindowExactly(b: Batch, eng: Engine, i: nat)
    requires i < |SettlementIds(b.captures)|
    ensures forall sid :: sid in SettlementIds(b.captures) ==> GroupOf(b, sid) != []
    ensures forall sid :: sid in SettlementIds(b.captures)[..i] ==> GroupOf(b, sid) != []
    ensures var sid := SettlementIds(b.captures)[i];
            var before := SettleUpTo(b, eng, SettlementIds(b.captures)[..i]).consumed;
            forall t :: JoinsByDate(b, Settle(b, eng).hits, i, t)
              <==> GroupNet(b, sid) != 0 && t in Credits(b)
                   && InWindow(before, GroupNet(b, sid), LatestCapture(GroupOf(b, sid)))(t)
  {
    hide GroupNet, SettlementIds, EngineDelta, SettleUpTo;
    GroupsNotEmpty(b);
    var sids := SettlementIds(b.captures);
    forall id
      ensures id in SettleUpTo(b, eng, sids[..i]).consumed <==> TakenBefore(b, Settle(b, eng).hits, i, id)
    {
      ConsumedByHits(b, eng, sids, i, id);
    }
  }

  /** Some gateway row of one settlement stands before every row of the other. */
  ghost predicate AppearsFirst(captures: seq<Capture>, s: string, t: string) {
    exists p :: 0 <= p < |captures| && captures[p].settlementId == s && forall q :: 0 <= q <= p ==> captures[q].settlementId != t
  }

  lemma AppearsGrows(captures: seq<Capture>, c: Capture, s: string, t: string)
    ensures AppearsFirst(captures, s, t) ==> AppearsFirst(captures + [c], s, t)
    ensures (exists x :: x in captures && x.settlementId == s) && (forall x :: x in captures ==> x.settlementId != t) ==>
              AppearsFirst(captures + [c], s, t)
  {
    var more := captures + [c];
    if AppearsFirst(captures, s, t) {
      var p :| 0 <= p < |captures| && captures[p].settlementId == s && forall q :: 0 <= q <= p ==> captures[q].settlementId != t;
      assert more[p] == captures[p] && forall q :: 0 <= q <= p ==> more[q] == captures[q];
    }
    if (exists x :: x in captures && x.settlementId == s) && forall x :: x in captures ==> x.settlementId != t {
      var x :| x in captures && x.settlementId == s;
      var p :| 0 <= p < |captures| && captures[p] == x;
      assert more[p] == x && forall q :: 0 <= q <= p ==> more[q] in captures;
    }
  }

  /** Settlements are settled in the order in which they first appear among the gateway rows. */
  lemma {:induction false} SettledByAppearance(captures: seq<Capture>, i: nat, j: nat)
    requires i < j < |SettlementIds(captures)|
    ensures AppearsFirst(captures, SettlementIds(captures)[i], SettlementIds(captures)[j])
  {
    hide AppearsFirst;
    var n := |captures| - 1;
    var rest, last := captures[..n], captures[n];
    var ids := SettlementIds(rest);
    assert captures == rest + [last];
    AppearsGrows(rest, last, SettlementIds(captures)[i], SettlementIds(captures)[j]);
    if j < |ids| {
      SettledByAppearance(rest, i, j);
    } else {
      assert ids[i] in ids;
    }
  }

  // ------------------------------------------------------------ main result

  ghost predicate AnyByName(b: Batch, eng: Engine, sid: string) { exists t :: JoinsByName(b, eng, sid, t) }
  ghost predicate AnyByUtr(b: Batch, sid: string) { exists t :: JoinsByUtr(b, sid, t) }
  ghost predicate AnyByDate(b: Batch, hits: map<string, Hit>, i: nat)
    requires i < |SettlementIds(b.captures)| && GroupOf(b, SettlementIds(b.captures)[i]) != []
  {
    exists t :: JoinsByDate(b, hits, i, t)
  }

  /** Pass 3 goes before pass 1 and pass 1 before pass 2; each joins exactly when its rows are there. */
  lemma PassesExactly(b: Batch, eng: Engine, i: nat)
    requires i < |SettlementIds(b.captures)|
    ensures GroupOf(b, SettlementIds(b.captures)[i]) != []
    ensures var sid, hits := SettlementIds(b.captures)[i], Settle(b, eng).hits;
            && (sid in hits <==> AnyByName(b, eng, sid) || AnyByUtr(b, sid) || AnyByDate(b, hits, i))
            && (sid in hits ==>
                  match hits[sid].pass
                  case Pass3SettlementId => JoinsByName(b, eng, sid, hits[sid].credit)
                  case Pass1ExactUtr => JoinsByUtr(b, sid, hits[sid].credit) && !AnyByName(b, eng, sid)
                  case Pass2AmountDate =>
                    JoinsByDate(b, hits, i, hits[sid].credit) && !AnyByName(b, eng, sid) && !AnyByUtr(b, sid)
                  case _ => false)
  {
    hide JoinsByName, JoinsByUtr, JoinsByDate, CreditNaming, ExactUtrHit, GroupNet, SettlementIds, SettleUpTo, InWindow;
    GroupsNotEmpty(b);
    var sids := SettlementIds(b.captures);
    InWindowExactly(b, eng, i);
    DecidedOnce(b, eng, sids, i);
    NamedExactly(b, eng, sids[i]);
    UtrExactly(b, sids[i]);
  }

  /** A settlement is unconfirmed only when every credit of its amount fails all three passes. */
  lemma UnconfirmedMeans(b: Batch, eng: Engine, i: nat, t: BankTxn)
    requires i < |SettlementIds(b.captures)| && SettlementIds(b.captures)[i] !in Settle(b, eng).hits
    requires t in b.bank && t.isCredit && t.amountPaise == GroupNet(b, SettlementIds(b.captures)[i])
    ensures GroupOf(b, SettlementIds(b.captures)[i]) != []
    ensures var sid := SettlementIds(b.captures)[i];
            && (forall c :: c in b.captures && c.settlementId == sid ==> c.utr == "" || c.utr != t.utr)
            && !JoinsByName(b, eng, sid, t)
            && (t.amountPaise == 0
                || !(0 <= EngineDelta(LatestCapture(GroupOf(b, sid)), t.valueDate) <= 3)
                || TakenBefore(b, Settle(b, eng).hits, i, t.txnId))
  {
    hide JoinsByName, GroupNet, SettlementIds, EngineDelta, Settle, TakenBefore;
    PassesExactly(b, eng, i);
    assert !JoinsByUtr(b, SettlementIds(b.captures)[i], t);
    assert !JoinsByDate(b, Settle(b, eng).hits, i, t);
  }

  // ------------------------------------------------------------ which of several

  lemma {:induction false} FirstPosition(credits: seq<BankTxn>, p: BankTxn -> bool) returns (n: nat)
    requires FirstCredit(credits, p).Some?
    ensures n < |credits| && Some(credits[n]) == FirstCredit(credits, p) && forall k :: 0 <= k < n ==> !p(credits[k])
  {
    if p(credits[0]) {
      n := 0;
    } else {
      var m := FirstPosition(credits[1..], p);
      n := m + 1;
      assert forall k :: 0 < k < n ==> credits[k] == credits[1..][k - 1];
    }
  }

  lemma {:induction false} FirstUtrPosition(group: seq<Capture>, credits: seq<BankTxn>, expected: int) returns (g: nat, n: nat)
    requires ExactUtrHit(group, credits, expected).Some?
    ensures g < |group| && n < |credits| && Some(credits[n]) == ExactUtrHit(group, credits, expected)
    ensures group[g].utr != "" && group[g].utr == credits[n].utr
    ensures forall k :: 0 <= k < n ==> !(credits[k].utr == credits[n].utr && credits[k].amountPaise == expected)
    ensures forall h, t :: 0 <= h < g && t in credits && group[h].utr != "" && t.utr == group[h].utr ==> t.amountPaise != expected
  {
    var p := UtrAndAmount(group[0].utr, expected);
    if FirstCredit(credits, p).Some? {
      g := 0;
      n := FirstPosition(credits, p);
    } else {
      var h, m := FirstUtrPosition(group[1..], credits, expected);
      g, n := h + 1, m;
      assert forall k :: 0 < k < |group| ==> group[k] == group[1..][k - 1];
      assert forall t :: t in credits ==> !p(t);
    }
  }

  /** Of several credits that fit the dates the first in the feed is taken. */
  lemma DatedIsFirst(b: Batch, eng: Engine, i: nat) returns (n: nat)
    requires i < |SettlementIds(b.captures)| && SettlementIds(b.captures)[i] in Settle(b, eng).hits
    requires Settle(b, eng).hits[SettlementIds(b.captures)[i]].pass.Pass2AmountDate?
    ensures n < |Credits(b)| && Credits(b)[n] == Settle(b, eng).hits[SettlementIds(b.captures)[i]].credit
    ensures GroupOf(b, SettlementIds(b.captures)[i]) != []
    ensures forall k :: 0 <= k < n ==> !JoinsByDate(b, Settle(b, eng).hits, i, Credits(b)[k])
  {
    hide CreditNaming, ExactUtrHit, GroupNet, SettlementIds, SettleUpTo, InWindow, JoinsByDate;
    GroupsNotEmpty(b);
    var sids := SettlementIds(b.captures);
    InWindowExactly(b, eng, i);
    DecidedOnce(b, eng, sids, i);
    var sid, before := sids[i], SettleUpTo(b, eng, sids[..i]).consumed;
    n := FirstPosition(Credits(b), InWindow(before, GroupNet(b, sid), LatestCapture(GroupOf(b, sid))));
  }

  /** Of several credits under the group's UTRs: the first row with one, and the first credit under its UTR. */
  lemma UtrIsFirst(b: Batch, eng: Engine, i: nat) returns (g: nat, n: nat)
    requires i < |SettlementIds(b.captures)| && SettlementIds(b.captures)[i] in Settle(b, eng).hits
    requires Settle(b, eng).hits[SettlementIds(b.captures)[i]].pass.Pass1ExactUtr?
    ensures var group := GroupOf(b, SettlementIds(b.captures)[i]);
            && g < |group| && n < |Credits(b)| && Credits(b)[n] == Settle(b, eng).hits[SettlementIds(b.captures)[i]].credit
            && group[g].utr != "" && group[g].utr == Credits(b)[n].utr
            && (forall k :: 0 <= k < n && Credits(b)[k].utr == Credits(b)[n].utr ==>
                  Credits(b)[k].amountPaise != GroupNet(b, SettlementIds(b.captures)[i]))
            && (forall h, t :: 0 <= h < g && t in Credits(b) && group[h].utr != "" && t.utr == group[h].utr ==>
                  t.amountPaise != GroupNet(b, SettlementIds(b.captures)[i]))
  {
    hide CreditNaming, ExactUtrHit, GroupNet, SettlementIds, SettleUpTo, InWindow;
    GroupsNotEmpty(b);
    var sids := SettlementIds(b.captures);
    DecidedOnce(b, eng, sids, i);
    var sid := sids[i];
    g, n := FirstUtrPosition(GroupOf(b, sid), Credits(b), GroupNet(b, sid));
  }
}
