/**
 The opening and the cards: which setups start a battle, what a shuffle can do,
 and which cards a player holds in which order (internal/battle/state.go).
 */
module BattleHands {
  import opened Deck
  import opened Battle
  import opened BattleRuns
  import opened BattleLedgers

  // ---------------------------------------------------------------- the opening

  /** The error names the first requirement on the players that fails, and there is none exactly for a `Ready` setup. */
  lemma InitRules(cat: Option<Catalog>, a: PlayerInit, b: PlayerInit, rng: Rng, seed: int)
    ensures CheckInit(cat, a, b) == None <==> cat.Some? && Setup(rng, a, b, seed).Ready()
    ensures CheckInit(cat, a, b) == Some(NilCatalog) <==> cat.None?
    ensures CheckInit(cat, a, b) == Some(EmptyId) <==> cat.Some? && "" in {a.id, b.id}
    ensures CheckInit(cat, a, b) == Some(SameId) <==> cat.Some? && a.id == b.id != ""
    ensures forall id, n :: CheckInit(cat, a, b) == Some(ShortDeck(id, n)) <==>
              && cat.Some? && |{"", a.id, b.id}| == 3
              && (if |a.cards| <= 3 then id == a.id && n == |a.cards| else id == b.id && n == |b.cards| <= 3)
  {
    assert a.id in {"", a.id, b.id} && b.id in {"", a.id, b.id};
    if a.id == b.id {
      assert {"", a.id, b.id} == {"", a.id};
    } else if a.id == "" || b.id == "" {
      assert {"", a.id, b.id} == {a.id, b.id};
    } else {
      assert {"", a.id, b.id} == {"", a.id} + {b.id};
    }
  }

  // ---------------------------------------------------------------- shuffling

  /** A swap exchanges two cards and leaves the others where they are. */
  lemma SwapExchanges(d: seq<string>, i: nat, j: nat, k: nat)
    requires i < |d| && j < |d| && k < |d|
    ensures |Swapped(d, (i, j))| == |d|
    ensures Swapped(d, (i, j))[k] == if k == i then d[j] else if k == j then d[i] else d[k]
  {
  }

  lemma {:induction false} ShuffledMore(d: seq<string>, xs: seq<(nat, nat)>, x: (nat, nat))
    ensures Shuffled(d, xs + [x]) == Swapped(Shuffled(d, xs), x)
  {
    assert (xs + [x])[..|xs|] == xs;
  }

  lemma SwapPlaces(f: seq<string>, e: seq<string>, n: nat, j: nat)
    requires |f| == |e| && n <= j < |f| && f[..n] == e[..n] && f[j] == e[n]
    ensures Swapped(f, (n, j))[..n + 1] == e[..n + 1] && |Swapped(f, (n, j))| == |f|
  {
    var h := Swapped(f, (n, j));
    assert h[..n + 1] == h[..n] + [h[n]] && e[..n + 1] == e[..n] + [e[n]];
    assert h[..n] == f[..n];
  }

  /** Places the cards of `e` from the front: the swaps that give a deck which agrees with `e` up to `n`. */
  lemma {:induction false} ShuffleReaches(d: seq<string>, e: seq<string>, n: nat) returns (swaps: seq<(nat, nat)>)
    requires multiset(d) == multiset(e) && n <= |e|
    ensures |Shuffled(d, swaps)| == |e| && Shuffled(d, swaps)[..n] == e[..n]
  {
    if n == 0 {
      assert |d| == |multiset(d)| && |e| == |multiset(e)|;
      swaps := [];
    } else {
      hide Swapped;
      var first := ShuffleReaches(d, e, n - 1);
      var f := Shuffled(d, first);
      ShuffledPermutes(d, first);
      var j := InRest(f, e, n - 1);
      ShuffledMore(d, first, (n - 1, j));
      SwapPlaces(f, e, n - 1, j);
      swaps := first + [(n - 1, j)];
    }
  }

  lemma SameRest(a: multiset<string>, b: multiset<string>, c: multiset<string>)
    requires a + b == a + c
    ensures b == c
  {
    assert forall x :: (a + b)[x] == a[x] + b[x] && (a + c)[x] == a[x] + c[x];
  }

  lemma InRest(f: seq<string>, e: seq<string>, n: nat) returns (j: nat)
    requires multiset(f) == multiset(e) && n < |e| == |f| && f[..n] == e[..n]
    ensures n <= j < |f| && f[j] == e[n]
  {
    assert f == f[..n] + f[n..] && e == e[..n] + e[n..];
    assert multiset(f) == multiset(f[..n]) + multiset(f[n..]);
    assert multiset(e) == multiset(e[..n]) + multiset(e[n..]);
    assert multiset(f[..n]) == multiset(e[..n]);
    SameRest(multiset(f[..n]), multiset(f[n..]), multiset(e[n..]));
    assert e[n] == e[n..][0];
    assert e[n] in e[n..] && e[n] in multiset(f[n..]);
    var k :| 0 <= k < |f[n..]| && f[n..][k] == e[n];
    j := n + k;
  }

  /** Every order of a deck can come out of a shuffle, and nothing but an order of the deck. */
  lemma ShuffleIff(d: seq<string>, e: seq<string>)
    ensures (exists swaps :: Shuffled(d, swaps) == e) <==> multiset(d) == multiset(e)
  {
    if multiset(d) == multiset(e) {
      var swaps := ShuffleReaches(d, e, |e|);
      assert Shuffled(d, swaps)[..|e|] == Shuffled(d, swaps) && e[..|e|] == e;
    }
    forall swaps | Shuffled(d, swaps) == e
      ensures multiset(d) == multiset(e)
    {
      ShuffledPermutes(d, swaps);
    }
  }

  // ---------------------------------------------------------------- hands

  /** The cards side `i` has played, in order. */
  function PlayedInOrder(cat: Catalog, g: Game, ms: seq<Move>, i: Side): seq<string> {
    if ms == [] then []
    else
      var n := |ms| - 1;
      var h := Run(cat, g, ms[..n]);
      PlayedInOrder(cat, g, ms[..n], i)
      + if Try(cat, h, ms[n]).Accepted? && ms[n].action.kind == PlayCardKind && h.turn == i then [ms[n].action.cardId] else []
  }

  /** What is left of the cards `h` without the first copy of each of `xs`. */
  function Without(h: seq<string>, xs: seq<string>): seq<string> {
    if xs == [] then h else WithoutFirst(Without(h, xs[..|xs| - 1]), xs[|xs| - 1])
  }

  /** Each of `xs` is there when its turn comes to be taken out. */
  ghost predicate Contains(h: seq<string>, xs: seq<string>) {
    forall k :: 0 <= k < |xs| ==> xs[k] in Without(h, xs[..k])
  }

  lemma {:induction false} FirstThenMore(h: seq<string>, y: string, x: string)
    requires x in h
    ensures WithoutFirst(h + [y], x) == WithoutFirst(h, x) + [y]
  {
    assert (h + [y])[1..] == h[1..] + [y];
    if h[0] != x {
      FirstThenMore(h[1..], y, x);
    }
  }

  lemma {:induction false} DrawLater(h: seq<string>, y: string, xs: seq<string>)
    requires Contains(h, xs)
    ensures Contains(h + [y], xs) && Without(h + [y], xs) == Without(h, xs) + [y]
  {
    if xs != [] {
      var ys := xs[..|xs| - 1];
      assert forall k :: 0 <= k < |ys| ==> ys[..k] == xs[..k];
      DrawLater(h, y, ys);
      FirstThenMore(Without(h, ys), y, xs[|xs| - 1]);
      hide WithoutFirst;
      assert forall k :: 0 <= k < |xs| ==> xs[..k] == if k < |ys| then ys[..k] else ys;
    }
  }

  lemma PlayLater(h: seq<string>, xs: seq<string>, x: string)
    requires Contains(h, xs) && x in Without(h, xs)
    ensures Contains(h, xs + [x]) && Without(h, xs + [x]) == WithoutFirst(Without(h, xs), x)
  {
    hide WithoutFirst;
    var ys := xs + [x];
    assert ys[..|xs|] == xs;
    assert forall k :: 0 <= k < |xs| ==> ys[..k] == xs[..k] && ys[k] == xs[k];
  }

  /** The deck of side `i` after its shuffle. */
  function Stack(s: Setup, i: Side): seq<string> {
    Shuffled(s.Init(i).cards, s.rng(s.seed, if i == 0 then [|s.a.cards|] else [|s.a.cards|, |s.b.cards|]))
  }

  /** The deck is the rest of the stack; the hand is what has been drawn from it and not played, as drawn. */
  ghost predicate Holds(p: PlayerState, stack: seq<string>, played: seq<string>) {
    var n := |stack| - |p.deck|;
    && n >= 0 && p.deck == stack[n..] && Contains(stack[..n], played)
    && p.hand == Without(stack[..n], played)
  }

  lemma HoldsAfterPlay(p: PlayerState, q: PlayerState, stack: seq<string>, played: seq<string>, card: string)
    requires Holds(p, stack, played) && card in p.hand
    requires q.deck == p.deck && q.hand == WithoutFirst(p.hand, card)
    ensures Holds(q, stack, played + [card])
  {
    hide Without, Contains, WithoutFirst;
    PlayLater(stack[..|stack| - |p.deck|], played, card);
  }

  lemma HoldsAfterDraw(p: PlayerState, q: PlayerState, stack: seq<string>, played: seq<string>)
    requires Holds(p, stack, played)
    requires p.deck != [] && q.deck == p.deck[1..] && q.hand == p.hand + [p.deck[0]]
    ensures Holds(q, stack, played)
  {
    hide Without, Contains;
    var n := |stack| - |p.deck|;
    DrawLater(stack[..n], stack[n], played);
    assert stack[..n] + [stack[n]] == stack[..n + 1] && stack[n..][1..] == stack[n + 1..];
  }

  lemma StepHolds(cat: Catalog, g: Game, m: Move, i: Side, stack: seq<string>, played: seq<string>)
    requires Try(cat, g, m).Accepted? && Holds(g.At(i), stack, played)
    ensures var more := if m.action.kind == PlayCardKind && g.turn == i then [m.action.cardId] else [];
            Holds(After(cat, g, m).At(i), stack, played + more)
  {
    hide Step, Holds, WithoutFirst;
    StepShape(cat, g, m);
    var p, q := g.At(i), After(cat, g, m).At(i);
    if m.action.kind == PlayCardKind && g.turn == i {
      HoldsAfterPlay(p, q, stack, played, m.action.cardId);
    } else {
      assert played + [] == played;
      if m.action.kind == EndTurnKind && g.turn != i && p.deck != [] {
        HoldsAfterDraw(p, q, stack, played);
      } else {
        HoldsStill(p, q, stack, played);
      }
    }
  }

  lemma HoldsStill(p: PlayerState, q: PlayerState, stack: seq<string>, played: seq<string>)
    requires Holds(p, stack, played) && q.deck == p.deck && q.hand == p.hand
    ensures Holds(q, stack, played)
  {
  }

  lemma HoldsAtStart(s: Setup, i: Side)
    requires s.Ready()
    ensures Holds(s.Start().At(i), Stack(s, i), [])
  {
    var n := if i == 0 then 4 else 3;
    assert Without(Stack(s, i)[..n], []) == Stack(s, i)[..n];
  }

  /** In every battle: the deck is what is left of the shuffled deck, the hand what was drawn and not played, in that order. */
  lemma {:induction false} CardsInOrder(cat: Catalog, s: Setup, ms: seq<Move>, i: Side)
    requires s.Ready()
    ensures Holds(Run(cat, s.Start(), ms).At(i), Stack(s, i), PlayedInOrder(cat, s.Start(), ms, i))
  {
    hide Step, Holds, Opening, Stack;
    if ms == [] {
      HoldsAtStart(s, i);
    } else {
      var n := |ms| - 1;
      CardsInOrder(cat, s, ms[..n], i);
      var g := Run(cat, s.Start(), ms[..n]);
      var played := PlayedInOrder(cat, s.Start(), ms[..n], i);
      if Try(cat, g, ms[n]).Accepted? {
        StepHolds(cat, g, ms[n], i, Stack(s, i), played);
      } else {
        assert played + [] == played;
      }
    }
  }
}
