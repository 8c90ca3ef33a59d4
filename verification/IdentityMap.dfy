/** The ephemeral Foundry and Discord identity map (orchestrator/src/side_channel/identity_map.ts). */
module IdentityMap {
  import opened Options

  datatype Pair = Pair(discord: string, foundry: string)

  datatype Maps = Maps(toDiscord: map<string, string>, toFoundry: map<string, string>)

  function Bound(m: Maps, p: Pair): Maps
  {
    var toDiscord := if p.discord in m.toFoundry then m.toDiscord - {m.toFoundry[p.discord]} else m.toDiscord;
    var toFoundry := if p.foundry in toDiscord then m.toFoundry - {toDiscord[p.foundry]} else m.toFoundry;
    Maps(toDiscord[p.foundry := p.discord], toFoundry[p.discord := p.foundry])
  }

  function AfterBinds(binds: seq<Pair>): Maps
  {
    if |binds| == 0 then Maps(map[], map[]) else Bound(AfterBinds(binds[..|binds| - 1]), binds[|binds| - 1])
  }

  predicate Holds(m: Maps, p: Pair)
  {
    p.foundry in m.toDiscord && m.toDiscord[p.foundry] == p.discord
  }

  ghost predicate MutuallyInverse(m: Maps)
  {
    && (forall f :: f in m.toDiscord ==> m.toDiscord[f] in m.toFoundry && m.toFoundry[m.toDiscord[f]] == f)
    && (forall d :: d in m.toFoundry ==> m.toFoundry[d] in m.toDiscord && m.toDiscord[m.toFoundry[d]] == d)
  }

  predicate Mentions(p: Pair, q: Pair)
  {
    p.discord == q.discord || p.foundry == q.foundry
  }

  /** Pair `p` was bound at `k`, and no later bind mentions either of its ids. */
  ghost predicate BoundLast(binds: seq<Pair>, p: Pair, k: nat)
  {
    k < |binds| && binds[k] == p && forall j :: k < j < |binds| ==> !Mentions(binds[j], p)
  }

  ghost predicate NotRebound(binds: seq<Pair>, p: Pair)
  {
    exists k: nat :: BoundLast(binds, p, k)
  }

  lemma BindKeepsInverse(m: Maps, p: Pair)
    requires MutuallyInverse(m)
    ensures MutuallyInverse(Bound(m, p))
    ensures forall q :: Holds(Bound(m, p), q) <==> q == p || (Holds(m, q) && !Mentions(p, q))
  {
  }

  /** After any binds the maps are mutual inverses, and hold exactly the pairs not rebound since. */
  lemma {:induction false} HeldExactly(binds: seq<Pair>)
    ensures MutuallyInverse(AfterBinds(binds))
    ensures forall p :: Holds(AfterBinds(binds), p) <==> NotRebound(binds, p)
    decreases |binds|
  {
    if |binds| > 0 {
      var n := |binds| - 1;
      var init, last := binds[..n], binds[n];
      HeldExactly(init);
      BindKeepsInverse(AfterBinds(init), last);
      forall p: Pair
        ensures Holds(AfterBinds(binds), p) <==> NotRebound(binds, p)
      {
        BoundLastSnoc(binds, p);
      }
    }
  }

  lemma BoundLastSnoc(binds: seq<Pair>, p: Pair)
    requires |binds| > 0
    ensures NotRebound(binds, p) <==>
      binds[|binds| - 1] == p || (!Mentions(binds[|binds| - 1], p) && NotRebound(binds[..|binds| - 1], p))
  {
    var n := |binds| - 1;
    var init := binds[..n];
    if binds[n] == p {
      assert BoundLast(binds, p, n);
    } else if !Mentions(binds[n], p) && NotRebound(init, p) {
      var k: nat :| BoundLast(init, p, k);
      assert BoundLast(binds, p, k);
    }
    if binds[n] != p && NotRebound(binds, p) {
      var k: nat :| BoundLast(binds, p, k);
      assert BoundLast(init, p, k);
    }
  }

  class SideChannelIdentityMap {
    var toDiscord: map<string, string>
    var toFoundry: map<string, string>
    ghost var binds: seq<Pair>

    ghost predicate Valid()
      reads this
    {
      Maps(toDiscord, toFoundry) == AfterBinds(binds)
    }

    constructor ()
      ensures Valid() && binds == []
    {
      toDiscord, toFoundry, binds := map[], map[], [];
    }

    method Bind(discordUserId: string, foundryUserId: string)
      requires Valid()
      modifies this
      ensures Valid() && binds == old(binds) + [Pair(discordUserId, foundryUserId)]
    {
      if discordUserId in toFoundry { toDiscord := toDiscord - {toFoundry[discordUserId]}; }
      if foundryUserId in toDiscord { toFoundry := toFoundry - {toDiscord[foundryUserId]}; }
      toDiscord := toDiscord[foundryUserId := discordUserId];
      toFoundry := toFoundry[discordUserId := foundryUserId];
      binds := binds + [Pair(discordUserId, foundryUserId)];
      assert binds[..|binds| - 1] == old(binds);
    }

    method DiscordIdForFoundryUser(foundryUserId: string) returns (discord: Option<string>)
      requires Valid()
      ensures forall d :: discord == Some(d) <==> NotRebound(binds, Pair(d, foundryUserId))
    {
      HeldExactly(binds);
      discord := if foundryUserId in toDiscord then Some(toDiscord[foundryUserId]) else None;
      forall d ensures discord == Some(d) <==> NotRebound(binds, Pair(d, foundryUserId)) {
        assert Holds(AfterBinds(binds), Pair(d, foundryUserId)) <==> discord == Some(d);
      }
    }

    method FoundryUserIdForDiscord(discordUserId: string) returns (foundry: Option<string>)
      requires Valid()
      ensures forall f :: foundry == Some(f) <==> NotRebound(binds, Pair(discordUserId, f))
    {
      HeldExactly(binds);
      foundry := if discordUserId in toFoundry then Some(toFoundry[discordUserId]) else None;
      forall f ensures foundry == Some(f) <==> NotRebound(binds, Pair(discordUserId, f)) {
        assert Holds(AfterBinds(binds), Pair(discordUserId, f)) <==> foundry == Some(f);
      }
    }
  }
}
