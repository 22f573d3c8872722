/** What the shadow goes by: the prices it was told last, and the users it has reason to trust. */
module ShadowTrust {
  import opened Placement
  import opened Portfolio
  import opened ShadowLedger
  import opened ShadowWorld
  import opened ShadowSoundness

  /* ---- Prices ---- */

  /** A MARKET order's answer that is delivered, FILLED or REJECTED, of this generation or not. */
  predicate Teaches(w: World, act: Act, i: int, price: int) {
    && act.Deliver? && act.k < |w.flights|
    && var f := w.flights[act.k];
    && f.stage.Heard? && f.res.order.otype.Market? && f.res.order.instrumentId == i
    && f.stage.exec.Some? && f.stage.exec.value.price == price
  }

  /** The shadow learns the price of every such answer, and nothing else moves a price it knows. */
  lemma LearnsWhatIsAnswered(w: World, act: Act, i: int)
    ensures var prices := After(w, act).shadow.prices;
            && (forall price :: Teaches(w, act, i, price) ==> i in prices && prices[i] == price)
            && ((forall price :: !Teaches(w, act, i, price)) ==>
                  (i in prices <==> i in w.shadow.prices) && (i in prices ==> prices[i] == w.shadow.prices[i]))
  {
    if act.Deliver? && Can(w, act) && w.flights[act.k].stage.exec.Some? {
      assert w.flights[act.k].res.order.otype.Market? && w.flights[act.k].res.order.instrumentId == i ==>
             Teaches(w, act, i, w.flights[act.k].stage.exec.value.price);
    }
  }

  /** So over any run the learned price is the one answered last, whatever was lost, re-read or opened since. */
  lemma {:induction false} PriceIsTheLastAnswered(w: World, acts: seq<Act>, n: nat, i: int, price: int)
    requires n < |acts| && Teaches(Acts(w, acts[..n]), acts[n], i, price)
    requires forall m, other :: n < m < |acts| ==> !Teaches(Acts(w, acts[..m]), acts[m], i, other)
    ensures var prices := Acts(w, acts).shadow.prices; i in prices && prices[i] == price
  {
    var last := |acts| - 1;
    LearnsWhatIsAnswered(Acts(w, acts[..last]), acts[last], i);
    if n < last {
      assert forall m :: 0 <= m <= last ==> acts[..last][..m] == acts[..m];
      PriceIsTheLastAnswered(w, acts[..last], n, i, price);
    }
  }

  /* ---- Trust ---- */

  predicate Trusted(sh: Shadow, u: int) { u in sh.users && sh.users[u].seeded && !sh.users[u].uncertain }

  /** The shadow has an opinion only of a MARKET order, at a price it knows, of a user it trusts; always, where
      nothing else of the user's is out; and it holds nothing for an order it does not expect to fill. */
  lemma OpinionNeedsTrust(w: World, order: SimOrder)
    requires Can(w, Send(order))
    ensures var (v, trusted) := (After(w, Send(order)), Trusted(w.shadow, order.userId));
            var known := order.otype.Market? && order.instrumentId in w.shadow.prices;
            && |v.flights| == |w.flights| + 1
            && var r := v.flights[|w.flights|].res;
               && (!r.expectation.Unknown? ==> trusted && known)
               && (trusted && known && w.shadow.users[order.userId].outstanding == 0 ==> !r.expectation.Unknown?)
               && (!r.expectation.ExpectFilled? ==> r.heldCash == 0 && r.heldShares == 0)
  {
  }

  /** A user with an order lost, or in a new generation, is not trusted. */
  lemma TrustEnds(w: World, act: Act, u: int)
    requires Can(w, act)
    ensures act.Vanish? && w.flights[act.k].res.order.userId == u && Current(w.shadow, w.flights[act.k].res) ==>
              !Trusted(After(w, act).shadow, u)
    ensures act.NewGeneration? ==> !Trusted(After(w, act).shadow, u)
  {
  }

  /** Trust comes back only from a portfolio read for the user in this generation with nothing outstanding,
      and always comes back from one. */
  lemma TrustReturns(w: World, act: Act, u: int)
    requires !Trusted(w.shadow, u) && (u in w.shadow.users ==> w.shadow.users[u].outstanding >= 0)
    ensures Trusted(After(w, act).shadow, u) <==>
            && act.SeedUser? && act.user == u && act.generation == w.shadow.current
            && u in w.shadow.users && w.shadow.users[u].outstanding == 0
  {
  }

  /** So from then on, until a portfolio of the user's is read, no order of the user's is foreseen, and none
      holds anything. */
  lemma {:induction false} UntrustedUntilRead(w: World, acts: seq<Act>, u: int, order: SimOrder)
    requires WorldInv(w) && !Trusted(w.shadow, u)
    requires forall n :: 0 <= n < |acts| ==> !(acts[n].SeedUser? && acts[n].user == u)
    requires order.userId == u && WellFormed(ToRequest(order, ""))
    ensures var now := Acts(w, acts);
            && WorldInv(now) && !Trusted(now.shadow, u)
            && var v := After(now, Send(order));
            && |v.flights| == |now.flights| + 1
            && var r := v.flights[|now.flights|].res;
               r.expectation.Unknown? && r.heldCash == 0 && r.heldShares == 0
  {
    if acts != [] {
      var n := |acts| - 1;
      UntrustedUntilRead(w, acts[..n], u, order);
      var before := Acts(w, acts[..n]);
      AfterKeeps(before, acts[n]);
      if u in before.shadow.users {
        NoneLiveIffNoneOutstanding(before.flights, u, before.shadow.current);
      }
      TrustReturns(before, acts[n], u);
    }
    OpinionNeedsTrust(Acts(w, acts), order);
  }

  /** A read-back is asked for exactly when it can help: of a user the shadow does not trust, and would trust
      once read. */
  lemma ReadBackIsAskedIffItHelps(sh: Shadow, u: int, portfolio: Portfolio)
    requires u in sh.users && sh.users[u].outstanding >= 0
    ensures NeedsReadBack(sh, u) <==> !Trusted(sh, u) && Trusted(Seeded(sh, sh.current, u, portfolio), u)
  {
  }
}
