/**
 The rules of a battle as a pure step function (internal/battle/model.go,
 state.go, apply.go). A `Game` holds exactly the fields the checksum covers; room
 id, seed and opening decks never change during a battle and stay outside it.
 */
module Battle {
  import opened Deck

  const START_HP := 20
  const HAND_START := 3
  const MAX_MANA := 10
  const BOARD_LIMIT := 5
  const FACE := "face"

  type Side = i: int | i == 0 || i == 1

  datatype Minion = Minion(
    instId: string, cardId: string, atk: int, hp: int, maxHp: int, canAttack: bool)

  datatype PlayerState = PlayerState(
    id: string, hp: int, mana: int, maxMana: int,
    deck: seq<string>, hand: seq<string>, board: seq<Minion>, fatigue: int)

  datatype Game = Game(
    p0: PlayerState, p1: PlayerState,
    turn: Side, round: int, over: bool, winner: string, nextInst: nat)
  {
    function At(i: Side): PlayerState {
      if i == 0 then p0 else p1
    }

    function Put(i: Side, p: PlayerState): Game {
      if i == 0 then this.(p0 := p) else this.(p1 := p)
    }
  }

  datatype Kind = PlayCardKind | AttackKind | EndTurnKind | OtherKind(name: string)

  datatype Action = Action(kind: Kind, cardId: string, instId: string, target: string)

  const END_TURN := Action(EndTurnKind, "", "", "")

  datatype Code =
    | GameOver | NotYourTurn | CardNotInHand | NotEnoughMana | BoardFull | UnknownAction
    | UnknownCard | NotImplemented | NotInGame | MinionNotFound | CantAttack
    | TargetNotFound | InvalidTarget

  datatype Outcome = Accepted(game: Game) | Rejected(code: Code)

  // ---------------------------------------------------------------- instance ids

  function Decimal(n: nat): string {
    var d := [('0' as int + n % 10) as char];
    if n < 10 then d else Decimal(n / 10) + d
  }

  function DecimalValue(s: string): int {
    if s == [] then 0 else 10 * DecimalValue(s[..|s| - 1]) + (s[|s| - 1] as int - '0' as int)
  }

  /** The name of the n-th minion summoned in a battle: "m1", "m2", ... */
  function InstName(n: nat): string {
    "m" + Decimal(n)
  }

  lemma {:induction false} DecimalRoundTrip(n: nat)
    ensures Decimal(n) != [] && DecimalValue(Decimal(n)) == n
  {
    var s := Decimal(n);
    if n >= 10 {
      DecimalRoundTrip(n / 10);
      assert s[..|s| - 1] == Decimal(n / 10);
    } else {
      assert s[..0] == [];
    }
  }

  /** Distinct numbers have distinct names, and no minion is called "face". */
  lemma InstNameInjective(m: nat, n: nat)
    ensures InstName(m) == InstName(n) ==> m == n
    ensures InstName(m) != FACE
  {
    DecimalRoundTrip(m);
    DecimalRoundTrip(n);
    assert InstName(m)[1..] == Decimal(m) && InstName(n)[1..] == Decimal(n);
    assert InstName(m)[0] == 'm' && FACE[0] == 'f';
  }

  // ---------------------------------------------------------------- hands and boards

  /** The hand without its first copy of `x`. */
  function WithoutFirst(s: seq<string>, x: string): seq<string> {
    if s == [] then []
    else if s[0] == x then s[1..]
    else [s[0]] + WithoutFirst(s[1..], x)
  }

  lemma {:induction false} WithoutFirstIsSplice(s: seq<string>, x: string, k: nat)
    requires k < |s| && s[k] == x && x !in s[..k]
    ensures WithoutFirst(s, x) == s[..k] + s[k + 1..]
    ensures multiset(s) == multiset(WithoutFirst(s, x)) + multiset{x}
  {
    assert s == [s[0]] + s[1..];
    if k > 0 {
      assert s[0] == s[..k][0];
      assert s[..k] == [s[0]] + s[1..][..k - 1];
      WithoutFirstIsSplice(s[1..], x, k - 1);
      assert s[..k] + s[k + 1..] == [s[0]] + (s[1..][..k - 1] + s[1..][k..]);
    }
  }

  /** Conservation: playing a card removes exactly one copy of it. */
  lemma WithoutFirstCount(s: seq<string>, x: string)
    requires x in s
    ensures multiset(s) == multiset(WithoutFirst(s, x)) + multiset{x}
    ensures |s| == |WithoutFirst(s, x)| + 1
  {
    var k :| 0 <= k < |s| && s[k] == x && x !in s[..k] by { FirstIndexExists(s, x, |s|); }
    WithoutFirstIsSplice(s, x, k);
  }

  lemma {:induction false} FirstIndexExists(s: seq<string>, x: string, n: nat)
    requires n <= |s| && x in s[..n]
    ensures exists k :: 0 <= k < n && s[k] == x && x !in s[..k]
  {
    if x in s[..n - 1] {
      FirstIndexExists(s, x, n - 1);
    } else {
      assert s[..n] == s[..n - 1] + [s[n - 1]];
    }
  }

  /** Position of the first minion with that instance id, or -1. */
  function Find(b: seq<Minion>, inst: string): (k: int)
    ensures -1 <= k < |b|
    ensures k >= 0 ==> b[k].instId == inst
    ensures forall j :: 0 <= j < (if k < 0 then |b| else k) ==> b[j].instId != inst
  {
    if b == [] then -1
    else if b[0].instId == inst then 0
    else
      var k := Find(b[1..], inst);
      if k < 0 then -1 else k + 1
  }

  /** The minions with health left, in board order. */
  function Alive(b: seq<Minion>): seq<Minion> {
    if b == [] then []
    else
      var m := b[|b| - 1];
      Alive(b[..|b| - 1]) + if m.hp > 0 then [m] else []
  }

  function Wake(b: seq<Minion>): (r: seq<Minion>) {
    seq(|b|, k requires 0 <= k < |b| => b[k].(canAttack := true))
  }

  // ---------------------------------------------------------------- the step function

  function CheckOver(g: Game): Game {
    if g.over then g
    else if g.p0.hp <= 0 && g.p1.hp <= 0 then g.(over := true, winner := "")
    else if g.p0.hp <= 0 then g.(over := true, winner := g.p1.id)
    else if g.p1.hp <= 0 then g.(over := true, winner := g.p0.id)
    else g
  }

  function BuryDead(g: Game): Game {
    g.(p0 := g.p0.(board := Alive(g.p0.board)), p1 := g.p1.(board := Alive(g.p1.board)))
  }

  /** A player after a turn start: more mana, refilled; one card drawn, or growing fatigue damage; the board awake. */
  function Refreshed(p: PlayerState): PlayerState {
    var m := if p.maxMana < MAX_MANA then p.maxMana + 1 else p.maxMana;
    var q := p.(maxMana := m, mana := m, board := Wake(p.board));
    if p.deck != [] then q.(deck := p.deck[1..], hand := p.hand + [p.deck[0]])
    else q.(fatigue := p.fatigue + 1, hp := p.hp - (p.fatigue + 1))
  }

  function BeginTurn(g: Game, i: Side): Game {
    var h := g.Put(i, Refreshed(g.At(i)));
    if g.At(i).deck != [] then h else CheckOver(h)
  }

  function EndTurn(g: Game, i: Side): Game {
    BeginTurn(g.(turn := 1 - i, round := g.round + 1), 1 - i)
  }

  function NewMinion(c: Card, n: nat): Minion {
    Minion(InstName(n), c.id, c.atk, c.hp, c.hp, false)
  }

  function PlayCard(cat: Catalog, g: Game, i: Side, card: string): Outcome {
    var p := g.At(i);
    if card !in p.hand then Rejected(CardNotInHand)
    else if !cat.Has(card) then Rejected(UnknownCard)
    else
      var c := cat.byId[card];
      if p.mana < c.cost then Rejected(NotEnoughMana)
      else if c.kind != TYPE_MINION then Rejected(NotImplemented)
      else if |p.board| >= BOARD_LIMIT then Rejected(BoardFull)
      else
        var n := g.nextInst + 1;
        var q := p.(mana := p.mana - c.cost, hand := WithoutFirst(p.hand, card),
                    board := p.board + [NewMinion(c, n)]);
        Accepted(g.Put(i, q).(nextInst := n))
  }

  function Struck(m: Minion, damage: int): Minion {
    m.(hp := m.hp - damage)
  }

  /** Damage through board slots `k` and `t`; a negative `t` is the face. The attacker is spent. */
  function Exchange(g: Game, i: Side, k: int, t: int): Game
    requires 0 <= k < |g.At(i).board| && -1 <= t < |g.At(1 - i).board|
  {
    var me, foe := g.At(i), g.At(1 - i);
    var m := me.board[k];
    if t < 0 then
      g.Put(i, me.(board := me.board[k := m.(canAttack := false)])).Put(1 - i, foe.(hp := foe.hp - m.atk))
    else
      var d := foe.board[t];
      g.Put(i, me.(board := me.board[k := Struck(m, d.atk).(canAttack := false)]))
      .Put(1 - i, foe.(board := foe.board[t := Struck(d, m.atk)]))
  }

  /** A complete attack: the exchange, then the dead leave and the result is checked. */
  function Blow(g: Game, i: Side, k: int, t: int): Game
    requires 0 <= k < |g.At(i).board| && -1 <= t < |g.At(1 - i).board|
  {
    CheckOver(BuryDead(Exchange(g, i, k, t)))
  }

  function Attack(g: Game, i: Side, inst: string, target: string): Outcome {
    var me, foe := g.At(i), g.At(1 - i);
    var k := Find(me.board, inst);
    if k < 0 then Rejected(MinionNotFound)
    else if !me.board[k].canAttack || me.board[k].atk <= 0 then Rejected(CantAttack)
    else if target == FACE then Accepted(Blow(g, i, k, -1))
    else if Find(me.board, target) >= 0 then Rejected(InvalidTarget)
    else
      var t := Find(foe.board, target);
      if t < 0 then Rejected(TargetNotFound)
      else Accepted(Blow(g, i, k, t))
  }

  function IndexOf(g: Game, pid: string): int {
    if pid == g.p0.id then 0 else if pid == g.p1.id then 1 else -1
  }

  function Step(cat: Catalog, g: Game, pid: string, a: Action): Outcome {
    if g.over then Rejected(GameOver)
    else if IndexOf(g, pid) < 0 then Rejected(NotInGame)
    else if IndexOf(g, pid) != g.turn then Rejected(NotYourTurn)
    else
      match a.kind
      case PlayCardKind => PlayCard(cat, g, g.turn, a.cardId)
      case AttackKind => Attack(g, g.turn, a.instId, a.target)
      case EndTurnKind => Accepted(EndTurn(g, g.turn))
      case OtherKind(_) => Rejected(UnknownAction)
  }

  // ---------------------------------------------------------------- opening

  datatype PlayerInit = PlayerInit(id: string, cards: seq<string>)

  /** The swaps the seeded generator asks for on its next shuffle, given the sizes shuffled so far and now. */
  type Rng = (int, seq<nat>) -> seq<(nat, nat)>

  function Swapped(d: seq<string>, s: (nat, nat)): seq<string> {
    if s.0 < |d| && s.1 < |d| then d[s.0 := d[s.1]][s.1 := d[s.0]] else d
  }

  function Shuffled(d: seq<string>, swaps: seq<(nat, nat)>): (r: seq<string>)
    ensures |r| == |d|
  {
    if swaps == [] then d else Swapped(Shuffled(d, swaps[..|swaps| - 1]), swaps[|swaps| - 1])
  }

  /** However the generator behaves, a shuffle is a permutation. */
  lemma {:induction false} ShuffledPermutes(d: seq<string>, swaps: seq<(nat, nat)>)
    ensures multiset(Shuffled(d, swaps)) == multiset(d)
  {
    if swaps != [] {
      ShuffledPermutes(d, swaps[..|swaps| - 1]);
      SwappedPermutes(Shuffled(d, swaps[..|swaps| - 1]), swaps[|swaps| - 1]);
    }
  }

  lemma SwappedPermutes(d: seq<string>, s: (nat, nat))
    ensures multiset(Swapped(d, s)) == multiset(d)
  {
  }

  datatype InitError = NilCatalog | EmptyId | SameId | ShortDeck(id: string, size: nat)

  function CheckInit(cat: Option<Catalog>, a: PlayerInit, b: PlayerInit): Option<InitError> {
    if cat.None? then Some(NilCatalog)
    else if a.id == "" || b.id == "" then Some(EmptyId)
    else if a.id == b.id then Some(SameId)
    else if |a.cards| <= HAND_START then Some(ShortDeck(a.id, |a.cards|))
    else if |b.cards| <= HAND_START then Some(ShortDeck(b.id, |b.cards|))
    else None
  }

  /** The position a new battle starts from: three cards each, then the first player's first turn. */
  function Opening(rng: Rng, a: PlayerInit, b: PlayerInit, seed: int): Game
    requires |a.cards| > HAND_START && |b.cards| > HAND_START
  {
    var d0 := Shuffled(a.cards, rng(seed, [|a.cards|]));
    var d1 := Shuffled(b.cards, rng(seed, [|a.cards|, |b.cards|]));
    Game(PlayerState(a.id, START_HP, 1, 1, d0[4..], d0[..4], [], 0),
         PlayerState(b.id, START_HP, 0, 0, d1[3..], d1[..3], [], 0),
         0, 1, false, "", 0)
  }

  /** Two complete turns make one displayed round. */
  function DisplayRound(g: Game): int {
    (g.round + 1) / 2
  }
}
