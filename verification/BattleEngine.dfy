/**
 The battle as the server runs it: objects whose fields are updated in place
 (internal/battle/state.go, apply.go). `State.Snapshot` gives the abstract value
 of the objects and every operation is proved against the step function.
 */
module BattleEngine {
  import opened Deck
  import opened Battle

  /** Reads a list of card ids for the first copy of `x`; -1 when there is none. */
  method IndexOfString(xs: seq<string>, x: string) returns (k: int)
    ensures -1 <= k < |xs|
    ensures k >= 0 ==> xs[k] == x && x !in xs[..k]
    ensures k < 0 ==> x !in xs
  {
    for i := 0 to |xs|
      invariant x !in xs[..i]
    {
      if xs[i] == x {
        return i;
      }
    }
    k := -1;
  }

  method Shuffle(d: array<string>, swaps: seq<(nat, nat)>)
    modifies d
    ensures d[..] == Shuffled(old(d[..]), swaps)
  {
    for k := 0 to |swaps|
      invariant d[..] == Shuffled(old(d[..]), swaps[..k])
    {
      assert swaps[..k + 1][..k] == swaps[..k];
      var (i, j) := swaps[k];
      if i < d.Length && j < d.Length {
        d[i], d[j] := d[j], d[i];
      }
    }
    assert swaps[..|swaps|] == swaps;
  }

  /** The live minions among the first `k`. */
  ghost function AliveIn(b: seq<Minion>, k: nat): seq<Minion>
    requires k <= |b|
  {
    Alive(b[..k])
  }

  lemma AliveInEnds(b: seq<Minion>)
    ensures AliveIn(b, 0) == [] && AliveIn(b, |b|) == Alive(b)
  {
    assert b[..|b|] == b;
  }

  lemma AliveInGrows(b: seq<Minion>, k: nat)
    requires k < |b|
    ensures AliveIn(b, k + 1) == if b[k].hp > 0 then AliveIn(b, k) + [b[k]] else AliveIn(b, k)
  {
    assert b[..k + 1][..k] == b[..k];
  }

  /** Two-index compaction in place: the order-preserving filter of live minions. */
  method Compact(board: array<Minion>, size: nat) returns (j: nat)
    requires size <= board.Length
    modifies board
    ensures j <= size && board[..j] == Alive(old(board[..size]))
  {
    j := 0;
    ghost var before, kept := board[..size], [];
    AliveInEnds(before);
    hide Alive, AliveIn;
    for k := 0 to size
      invariant j == |kept| <= k && kept == AliveIn(before, k)
      invariant forall q :: 0 <= q < j ==> board[q] == kept[q]
      invariant forall q :: k <= q < size ==> board[q] == before[q]
    {
      AliveInGrows(before, k);
      var m := board[k];
      assert m == before[k];
      if m.hp > 0 {
        board[j] := m;
        kept := kept + [m];
        j := j + 1;
      }
    }
  }

  class Player {
    const id: string
    var hp: int
    var mana: int
    var maxMana: int
    var deck: seq<string>
    var hand: seq<string>
    var fatigue: int
    /** Board slots; the minions are the first `size` of them. */
    const board: array<Minion>
    var size: nat

    ghost predicate Valid()
      reads this
    {
      board.Length == BOARD_LIMIT && size <= BOARD_LIMIT
    }

    ghost function Value(): PlayerState
      requires Valid()
      reads this, board
    {
      PlayerState(id, hp, mana, maxMana, deck, hand, board[..size], fatigue)
    }

    constructor (id: string, cards: seq<string>)
      ensures Valid() && fresh(board)
      ensures Value() == PlayerState(id, START_HP, 0, 0, cards, [], [], 0)
    {
      this.id := id;
      hp, mana, maxMana, fatigue := START_HP, 0, 0, 0;
      deck, hand := cards, [];
      board := new Minion[BOARD_LIMIT](_ => Minion("", "", 0, 0, 0, false));
      size := 0;
    }

    /** Moves the top card of the deck to the hand. */
    method Draw() returns (ok: bool)
      requires Valid()
      modifies this`deck, this`hand
      ensures ok == (old(deck) != [])
      ensures !ok ==> deck == old(deck) && hand == old(hand)
      ensures ok ==> old(deck) == [old(deck)[0]] + deck && hand == old(hand) + [old(deck)[0]]
    {
      if |deck| == 0 {
        return false;
      }
      var card := deck[0];
      deck := deck[1..];
      hand := hand + [card];
      return true;
    }

    /** The player's part of a turn start: mana grows and refills, then a card is drawn or fatigue bites. */
    method Refresh() returns (drew: bool)
      requires Valid()
      modifies this`maxMana, this`mana, this`deck, this`hand, this`fatigue, this`hp
      ensures drew == (old(deck) != [])
      ensures maxMana == (if old(maxMana) < MAX_MANA then old(maxMana) + 1 else old(maxMana)) && mana == maxMana
      ensures drew ==> deck == old(deck)[1..] && hand == old(hand) + [old(deck)[0]]
      ensures drew ==> fatigue == old(fatigue) && hp == old(hp)
      ensures !drew ==> deck == old(deck) && hand == old(hand)
      ensures !drew ==> fatigue == old(fatigue) + 1 && hp == old(hp) - fatigue
    {
      if maxMana < MAX_MANA {
        maxMana := maxMana + 1;
      }
      mana := maxMana;
      drew := Draw();
      if !drew {
        fatigue := fatigue + 1;
        hp := hp - fatigue;
      }
    }

    /** Pays for the card at hand position `hi`, the first copy of it, and splices it out of the hand. */
    method Spend(hi: nat, cost: int)
      requires hi < |hand| && hand[hi] !in hand[..hi]
      modifies this`mana, this`hand
      ensures mana == old(mana) - cost
      ensures hand == WithoutFirst(old(hand), old(hand)[hi])
      ensures old(Valid()) ==>
                Valid() && Value() == old(Value()).(mana := old(mana) - cost,
                                                    hand := WithoutFirst(old(hand), old(hand)[hi]))
    {
      WithoutFirstIsSplice(hand, hand[hi], hi);
      mana := mana - cost;
      hand := hand[..hi] + hand[hi + 1..];
    }

    /** The dead leave the board; the others keep their order. */
    method RemoveDead()
      requires Valid()
      modifies this`size, board
      ensures Valid()
      ensures board[..size] == Alive(old(board[..size]))
    {
      size := Compact(board, size);
    }

    method WakeBoard()
      requires Valid()
      modifies board
      ensures board[..size] == Wake(old(board[..size]))
    {
      for k := 0 to size
        invariant forall j :: 0 <= j < k ==> board[j] == old(board[j]).(canAttack := true)
        invariant forall j :: k <= j < size ==> board[j] == old(board[j])
      {
        board[k] := board[k].(canAttack := true);
      }
    }

    method FindMinion(inst: string) returns (k: int)
      requires Valid()
      ensures k == Find(board[..size], inst)
      ensures -1 <= k < size
    {
      for i := 0 to size
        invariant forall j :: 0 <= j < i ==> board[j].instId != inst
      {
        if board[i].instId == inst {
          return i;
        }
      }
      k := -1;
    }
  }

  class State {
    const roomId: string
    const seed: int
    const initDeck0: seq<string>
    const initDeck1: seq<string>
    const catalog: Catalog
    const p0: Player
    const p1: Player
    var turn: Side
    var round: int
    var over: bool
    var winner: string
    var nextInst: nat

    ghost const Repr: set<object> := {this, p0, p1, p0.board, p1.board}

    ghost predicate Valid()
      reads Repr
    {
      p0 != p1 && p0.board != p1.board && p0.Valid() && p1.Valid()
    }

    ghost function Snapshot(): Game
      requires Valid()
      reads Repr
    {
      Game(p0.Value(), p1.Value(), turn, round, over, winner, nextInst)
    }

    function Who(i: Side): Player {
      if i == 0 then p0 else p1
    }

    constructor Create(roomId: string, catalog: Catalog, seed: int, p0: Player, p1: Player,
                       initDeck0: seq<string>, initDeck1: seq<string>)
      requires p0 != p1 && p0.board != p1.board && p0.Valid() && p1.Valid()
      ensures Valid()
      ensures this.p0 == p0 && this.p1 == p1
      ensures this.roomId == roomId && this.catalog == catalog && this.seed == seed
      ensures this.initDeck0 == initDeck0 && this.initDeck1 == initDeck1
      ensures Snapshot() == Game(p0.Value(), p1.Value(), 0, 1, false, "", 0)
    {
      this.roomId, this.catalog, this.seed := roomId, catalog, seed;
      this.initDeck0, this.initDeck1 := initDeck0, initDeck1;
      this.p0, this.p1 := p0, p1;
      turn, round, over, winner, nextInst := 0, 1, false, "", 0;
    }

    method CheckOver()
      requires Valid()
      modifies this`over, this`winner
      ensures Snapshot() == Battle.CheckOver(old(Snapshot()))
    {
      if over {
        return;
      }
      var d0, d1 := p0.hp <= 0, p1.hp <= 0;
      if d0 && d1 {
        over, winner := true, "";
      } else if d0 {
        winner := p1.id;
        over := true;
      } else if d1 {
        winner := p0.id;
        over := true;
      }
    }

    method BeginTurn(i: Side)
      requires Valid()
      modifies Repr
      ensures Valid()
      ensures Snapshot() == Battle.BeginTurn(old(Snapshot()), i)
    {
      var p := Who(i);
      var drew := p.Refresh();
      if !drew {
        CheckOver();
      }
      p.WakeBoard();
    }

    /** Puts a fresh copy of a catalog minion on the board, or says why not and changes nothing. */
    method Summon(i: Side, card: string) returns (err: Option<Code>)
      requires Valid()
      modifies this`nextInst, Who(i)`size, Who(i).board
      ensures Valid()
      ensures err == if !catalog.Has(card) then Some(UnknownCard)
                     else if catalog.byId[card].kind != TYPE_MINION then Some(NotImplemented)
                     else if |old(Snapshot()).At(i).board| >= BOARD_LIMIT then Some(BoardFull)
                     else None
      ensures err.Some? ==> Snapshot() == old(Snapshot())
      ensures err.None? ==>
                var g := old(Snapshot());
                Snapshot() == g.Put(i, g.At(i).(board := g.At(i).board + [NewMinion(catalog.byId[card], g.nextInst + 1)]))
                              .(nextInst := g.nextInst + 1)
    {
      if !catalog.Has(card) {
        return Some(UnknownCard);
      }
      var c := catalog.byId[card];
      if c.kind != TYPE_MINION {
        return Some(NotImplemented);
      }
      var p := Who(i);
      if p.size >= BOARD_LIMIT {
        return Some(BoardFull);
      }
      nextInst := nextInst + 1;
      p.board[p.size] := Minion(InstName(nextInst), c.id, c.atk, c.hp, c.hp, false);
      p.size := p.size + 1;
      return None;
    }

    method PlayCard(i: Side, card: string) returns (err: Option<Code>)
      requires Valid()
      modifies this`nextInst, Who(i)`mana, Who(i)`hand, Who(i)`size, Who(i).board
      ensures Valid()
      ensures Battle.PlayCard(catalog, old(Snapshot()), i, card)
              == if err.Some? then Rejected(err.value) else Accepted(Snapshot())
      ensures err.Some? ==> Snapshot() == old(Snapshot())
    {
      var p := Who(i);
      var hi := IndexOfString(p.hand, card);
      if hi < 0 {
        return Some(CardNotInHand);
      }
      if !catalog.Has(card) {
        return Some(UnknownCard);
      }
      var c := catalog.byId[card];
      if p.mana < c.cost {
        return Some(NotEnoughMana);
      }
      err := Summon(i, card);
      if err.Some? {
        return;
      }
      ghost var summoned := Snapshot();
      hide WithoutFirst, NewMinion;
      p.Spend(hi, c.cost);
      assert Snapshot() == summoned.Put(i, p.Value());
    }

    method RemoveDead()
      requires Valid()
      modifies p0`size, p0.board, p1`size, p1.board
      ensures Valid()
      ensures Snapshot() == BuryDead(old(Snapshot()))
    {
      p0.RemoveDead();
      p1.RemoveDead();
    }

    /** Damage to the face; the attacker is spent. */
    method StrikeFace(i: Side, k: int)
      requires Valid() && 0 <= k < Who(i).size
      modifies Who(i).board, Who(1 - i)`hp
      ensures Valid()
      ensures Snapshot() == Exchange(old(Snapshot()), i, k, -1)
    {
      var me, foe := Who(i), Who(1 - i);
      ghost var p, q := me.Value(), foe.Value();
      foe.hp := foe.hp - me.board[k].atk;
      me.board[k] := me.board[k].(canAttack := false);
      assert me.Value() == p.(board := p.board[k := p.board[k].(canAttack := false)]);
      assert foe.Value() == q.(hp := q.hp - p.board[k].atk);
    }

    /** Damage to a minion, and back to the attacker, which is spent. */
    method StrikeMinion(i: Side, k: int, t: int)
      requires Valid() && 0 <= k < Who(i).size && 0 <= t < Who(1 - i).size
      modifies Who(i).board, Who(1 - i).board
      ensures Valid()
      ensures Snapshot() == Exchange(old(Snapshot()), i, k, t)
    {
      var me, foe := Who(i), Who(1 - i);
      ghost var p, q := me.Value(), foe.Value();
      foe.board[t] := foe.board[t].(hp := foe.board[t].hp - me.board[k].atk);
      me.board[k] := me.board[k].(hp := me.board[k].hp - foe.board[t].atk);
      me.board[k] := me.board[k].(canAttack := false);
      assert foe.Value() == q.(board := q.board[t := Struck(q.board[t], p.board[k].atk)]);
      assert me.Value() == p.(board := p.board[k := Struck(p.board[k], q.board[t].atk).(canAttack := false)]);
    }

    /** Exchanges damage through the board slots `k` and `t` (the face when `t` is negative); no other slot changes. */
    method Strike(i: Side, k: int, t: int)
      requires Valid()
      requires 0 <= k < Who(i).size && -1 <= t < Who(1 - i).size
      modifies Who(i).board, Who(1 - i)`hp, Who(1 - i).board
      ensures Valid()
      ensures Snapshot() == Exchange(old(Snapshot()), i, k, t)
    {
      if t < 0 {
        StrikeFace(i, k);
      } else {
        StrikeMinion(i, k, t);
      }
    }

    /** Validates an attack and resolves its slots; the board is only read. */
    method Aim(i: Side, inst: string, target: string) returns (err: Option<Code>, k: int, t: int)
      requires Valid()
      ensures err.Some? ==> Battle.Attack(Snapshot(), i, inst, target) == Rejected(err.value)
      ensures err.None? ==> 0 <= k < Who(i).size && -1 <= t < Who(1 - i).size
      ensures err.None? ==> Battle.Attack(Snapshot(), i, inst, target)
                            == Accepted(Blow(Snapshot(), i, k, t))
    {
      var me, foe := Who(i), Who(1 - i);
      t := -1; // no defender: the attack goes to the face
      k := me.FindMinion(inst);
      if k < 0 {
        return Some(MinionNotFound), k, t;
      }
      if !me.board[k].canAttack {
        return Some(CantAttack), k, t;
      }
      if me.board[k].atk <= 0 {
        return Some(CantAttack), k, t;
      }
      if target != FACE {
        var own := me.FindMinion(target);
        if own >= 0 {
          return Some(InvalidTarget), k, t;
        }
        t := foe.FindMinion(target);
        if t < 0 {
          return Some(TargetNotFound), k, t;
        }
      }
      err := None;
    }

    method Attack(i: Side, inst: string, target: string) returns (err: Option<Code>)
      requires Valid()
      modifies Repr
      ensures Valid()
      ensures Battle.Attack(old(Snapshot()), i, inst, target)
              == if err.Some? then Rejected(err.value) else Accepted(Snapshot())
      ensures err.Some? ==> Snapshot() == old(Snapshot())
    {
      var k, t;
      err, k, t := Aim(i, inst, target);
      if err.None? {
        Strike(i, k, t);
        RemoveDead();
        CheckOver();
      }
    }

    method EndTurn(i: Side)
      requires Valid()
      modifies Repr
      ensures Valid()
      ensures Snapshot() == Battle.EndTurn(old(Snapshot()), i)
    {
      turn := 1 - i;
      round := round + 1;
      BeginTurn(turn);
    }

    method IndexOf(pid: string) returns (i: int)
      requires Valid()
      ensures i == Battle.IndexOf(Snapshot(), pid)
    {
      for k := 0 to 2
        invariant k > 0 ==> pid != p0.id
        invariant k > 1 ==> pid != p1.id
      {
        if Who(k).id == pid {
          return k;
        }
      }
      i := -1;
    }

    /** One player intent. The in-place code refines the step function, and a rejection changes nothing. */
    method Apply(pid: string, a: Action) returns (err: Option<Code>)
      requires Valid()
      modifies Repr
      ensures Valid()
      ensures Step(catalog, old(Snapshot()), pid, a)
              == if err.Some? then Rejected(err.value) else Accepted(Snapshot())
      ensures err.Some? ==> Snapshot() == old(Snapshot())
    {
      if over {
        return Some(GameOver);
      }
      var i := IndexOf(pid);
      if i < 0 {
        return Some(NotInGame);
      }
      if i != turn {
        return Some(NotYourTurn);
      }
      match a.kind
      case PlayCardKind =>
        err := PlayCard(i, a.cardId);
      case AttackKind =>
        err := Attack(i, a.instId, a.target);
      case EndTurnKind =>
        EndTurn(i);
        err := None;
      case OtherKind(_) =>
        err := Some(UnknownAction);
    }
  }

  /** Sets up a battle: validates the players, shuffles, deals three cards each and starts the first turn. */
  method NewState(rng: Rng, roomId: string, cat: Option<Catalog>, a: PlayerInit, b: PlayerInit, seed: int)
    returns (s: State?, err: Option<InitError>)
    ensures err == CheckInit(cat, a, b)
    ensures err.Some? <==> s == null
    ensures s != null ==> s.Valid() && fresh(s.Repr)
    ensures s != null ==> s.catalog == cat.value && s.roomId == roomId && s.seed == seed
    ensures s != null ==> s.initDeck0 == a.cards && s.initDeck1 == b.cards
    ensures s != null ==> s.Snapshot() == Opening(rng, a, b, seed)
  {
    if cat.None? {
      return null, Some(NilCatalog);
    }
    if a.id == "" || b.id == "" {
      return null, Some(EmptyId);
    }
    if a.id == b.id {
      return null, Some(SameId);
    }
    if |a.cards| <= HAND_START {
      return null, Some(ShortDeck(a.id, |a.cards|));
    }
    if |b.cards| <= HAND_START {
      return null, Some(ShortDeck(b.id, |b.cards|));
    }
    s := Seat(rng, roomId, cat.value, a, b, seed);
    err := None;
    ghost var c0, c1 := s.p0.deck, s.p1.deck;
    Deal(s, c0, c1);
    s.BeginTurn(0);
    assert c0[..4] == c0[..3] + [c0[3]] && c0[4..] == c0[3..][1..];
  }

  /** Creates both players with shuffled decks, the first player's deck shuffled first. */
  method Seat(rng: Rng, roomId: string, cat: Catalog, a: PlayerInit, b: PlayerInit, seed: int) returns (s: State)
    ensures s.Valid() && fresh(s.Repr)
    ensures s.catalog == cat && s.roomId == roomId && s.seed == seed
    ensures s.initDeck0 == a.cards && s.initDeck1 == b.cards
    ensures var d0 := Shuffled(a.cards, rng(seed, [|a.cards|]));
            var d1 := Shuffled(b.cards, rng(seed, [|a.cards|, |b.cards|]));
            s.Snapshot() == Game(PlayerState(a.id, START_HP, 0, 0, d0, [], [], 0),
                                 PlayerState(b.id, START_HP, 0, 0, d1, [], [], 0), 0, 1, false, "", 0)
  {
    var d0 := Copied(a.cards);
    Shuffle(d0, rng(seed, [|a.cards|]));
    var d1 := Copied(b.cards);
    Shuffle(d1, rng(seed, [|a.cards|, |b.cards|]));
    var q0 := new Player(a.id, d0[..]);
    var q1 := new Player(b.id, d1[..]);
    s := new State.Create(roomId, cat, seed, q0, q1, a.cards, b.cards);
  }

  /** Deals the opening hands, alternating between the players. */
  method Deal(s: State, ghost c0: seq<string>, ghost c1: seq<string>)
    requires s.Valid() && |c0| > HAND_START && |c1| > HAND_START
    requires s.p0.deck == c0 && s.p1.deck == c1 && s.p0.hand == s.p1.hand == []
    modifies s.p0`deck, s.p0`hand, s.p1`deck, s.p1`hand
    ensures s.Valid()
    ensures s.p0.deck == c0[HAND_START..] && s.p0.hand == c0[..HAND_START]
    ensures s.p1.deck == c1[HAND_START..] && s.p1.hand == c1[..HAND_START]
  {
    for k := 0 to HAND_START
      invariant s.p0.deck == c0[k..] && s.p0.hand == c0[..k]
      invariant s.p1.deck == c1[k..] && s.p1.hand == c1[..k]
    {
      var _ := s.p0.Draw();
      var _ := s.p1.Draw();
      assert c0[..k + 1] == c0[..k] + [c0[k]] && c1[..k + 1] == c1[..k] + [c1[k]];
    }
  }

  method Copied(xs: seq<string>) returns (d: array<string>)
    ensures fresh(d) && d[..] == xs
  {
    d := new string[|xs|](i requires 0 <= i < |xs| => xs[i]);
  }
}
