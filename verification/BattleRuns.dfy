/**
 Whole battles: what holds in every position that any sequence of intents,
 legal or not, can reach from an opening (internal/battle).
 */
module BattleRuns {
  import opened Deck
  import opened Battle

  /** One intent: who asks for what. */
  datatype Move = Move(player: string, action: Action)

  function Try(cat: Catalog, g: Game, m: Move): Outcome {
    Step(cat, g, m.player, m.action)
  }

  function After(cat: Catalog, g: Game, m: Move): Game {
    match Try(cat, g, m)
    case Accepted(h) => h
    case Rejected(_) => g
  }

  /** The live position after a sequence of intents; rejected ones leave no trace. */
  function Run(cat: Catalog, g: Game, ms: seq<Move>): Game {
    if ms == [] then g else After(cat, Run(cat, g, ms[..|ms| - 1]), ms[|ms| - 1])
  }

  datatype Setup = Setup(rng: Rng, a: PlayerInit, b: PlayerInit, seed: int) {
    /** The conditions under which a battle starts at all. */
    predicate Ready() {
      a.id != "" && b.id != "" && a.id != b.id && |a.cards| > HAND_START && |b.cards| > HAND_START
    }

    function Start(): Game
      requires Ready()
    {
      Opening(rng, a, b, seed)
    }

    function Init(i: Side): PlayerInit {
      if i == 0 then a else b
    }
  }

  // ---------------------------------------------------------------- the shape of each action

  lemma EndTurnShape(g: Game)
    ensures var h, i := EndTurn(g, g.turn), g.turn;
            && h.turn == 1 - i && h.round == g.round + 1 && h.nextInst == g.nextInst
            && h.At(i) == g.At(i) && h.At(1 - i) == Refreshed(g.At(1 - i))
  {
  }

  lemma PlayCardShape(cat: Catalog, g: Game, card: string)
    requires PlayCard(cat, g, g.turn, card).Accepted?
    ensures var h, i := PlayCard(cat, g, g.turn, card).game, g.turn;
            && cat.Has(card) && card in g.At(i).hand && cat.byId[card].cost <= g.At(i).mana
            && cat.byId[card].kind == TYPE_MINION && |g.At(i).board| < BOARD_LIMIT
            && h.turn == i && h.round == g.round && h.nextInst == g.nextInst + 1
            && h.over == g.over && h.winner == g.winner
            && h.At(1 - i) == g.At(1 - i)
            && h.At(i) == g.At(i).(mana := g.At(i).mana - cat.byId[card].cost,
                                   hand := WithoutFirst(g.At(i).hand, card),
                                   board := g.At(i).board + [NewMinion(cat.byId[card], h.nextInst)])
  {
  }

  /** An accepted attack is a blow from a slot that may attack. */
  lemma AttackIsBlow(g: Game, inst: string, target: string) returns (k: int, t: int)
    requires Attack(g, g.turn, inst, target).Accepted?
    ensures 0 <= k < |g.At(g.turn).board| && -1 <= t < |g.At(1 - g.turn).board|
    ensures k == Find(g.At(g.turn).board, inst) && g.At(g.turn).board[k].canAttack
    ensures t == if target == FACE then -1 else Find(g.At(1 - g.turn).board, target)
    ensures t < 0 <==> target == FACE
    ensures Attack(g, g.turn, inst, target).game == Blow(g, g.turn, k, t)
  {
    k := Find(g.At(g.turn).board, inst);
    t := if target == FACE then -1 else Find(g.At(1 - g.turn).board, target);
  }

  /** Only the two slots of an exchange change, or one slot and the health of the other player. */
  lemma ExchangeShape(g: Game, i: Side, k: int, t: int)
    requires 0 <= k < |g.At(i).board| && -1 <= t < |g.At(1 - i).board|
    ensures var x, me, foe := Exchange(g, i, k, t), g.At(i), g.At(1 - i);
            var mine := x.At(i).board;
            && x == g.(p0 := x.p0, p1 := x.p1)
            && x.At(i) == me.(board := mine) && |mine| == |me.board|
            && mine[k].instId == me.board[k].instId && !mine[k].canAttack
            && (forall j :: 0 <= j < |mine| && j != k ==> mine[j] == me.board[j])
            && x.At(1 - i) == if t < 0 then foe.(hp := foe.hp - me.board[k].atk)
                              else foe.(board := foe.board[t := Struck(foe.board[t], me.board[k].atk)])
  {
  }

  lemma BlowShape(g: Game, i: Side, k: int, t: int)
    requires 0 <= k < |g.At(i).board| && -1 <= t < |g.At(1 - i).board|
    ensures var h, x, me, foe := Blow(g, i, k, t), Exchange(g, i, k, t), g.At(i), g.At(1 - i);
            && h.turn == g.turn && h.round == g.round && h.nextInst == g.nextInst
            && h.At(i) == me.(board := Alive(x.At(i).board))
            && h.At(1 - i) == foe.(hp := foe.hp - (if t < 0 then me.board[k].atk else 0),
                                   board := Alive(x.At(1 - i).board))
  {
    ExchangeShape(g, i, k, t);
    hide Exchange;
  }

  // ---------------------------------------------------------------- closed forms

  function Min(x: int, y: int): int { if x < y then x else y }

  function Max(x: int, y: int): int { if x < y then y else x }

  /** 1 + 2 + ... + n: the damage of n empty draws. */
  function Triangle(n: int): int {
    if n <= 0 then 0 else n + Triangle(n - 1)
  }

  /** How many turns side `i` has begun by the given half-round. */
  function TurnsBegun(i: Side, round: int): int {
    if i == 0 then (round + 1) / 2 else round / 2
  }

  // ---------------------------------------------------------------- boards as bags

  /** The instance ids on a board, with multiplicity. */
  function IdBag(b: seq<Minion>): multiset<string> {
    if b == [] then multiset{} else IdBag(b[..|b| - 1]) + multiset{b[|b| - 1].instId}
  }

  /** How many minions may still attack. */
  function ReadyCount(b: seq<Minion>): nat {
    if b == [] then 0 else ReadyCount(b[..|b| - 1]) + if b[|b| - 1].canAttack then 1 else 0
  }

  lemma {:induction false} AliveStand(b: seq<Minion>)
    ensures |Alive(b)| <= |b|
    ensures forall j :: 0 <= j < |Alive(b)| ==> Alive(b)[j].hp > 0 && Alive(b)[j] in b
  {
    if b != [] {
      var c, m := b[..|b| - 1], b[|b| - 1];
      AliveStand(c);
      assert forall x :: x in c ==> x in b;
    }
  }

  lemma {:induction false} AliveCounts(b: seq<Minion>)
    ensures IdBag(Alive(b)) <= IdBag(b)
    ensures ReadyCount(Alive(b)) <= ReadyCount(b)
  {
    if b != [] {
      var c, m := b[..|b| - 1], b[|b| - 1];
      AliveCounts(c);
      if m.hp > 0 {
        assert Alive(b)[..|Alive(b)| - 1] == Alive(c);
      } else {
        assert Alive(b) == Alive(c);
      }
    }
  }

  lemma AliveFacts(b: seq<Minion>)
    ensures |Alive(b)| <= |b|
    ensures forall j :: 0 <= j < |Alive(b)| ==> Alive(b)[j].hp > 0 && Alive(b)[j] in b
    ensures IdBag(Alive(b)) <= IdBag(b)
    ensures ReadyCount(Alive(b)) <= ReadyCount(b)
  {
    hide Alive, IdBag, ReadyCount;
    AliveStand(b);
    AliveCounts(b);
  }

  lemma {:induction false} SlotIds(b: seq<Minion>, k: nat, m: Minion)
    requires k < |b| && m.instId == b[k].instId
    ensures IdBag(b[k := m]) == IdBag(b)
  {
    var n := |b| - 1;
    if k < n {
      SlotIds(b[..n], k, m);
      assert b[k := m][..n] == b[..n][k := m];
    } else {
      assert b[k := m][..n] == b[..n];
    }
  }

  lemma {:induction false} SlotReady(b: seq<Minion>, k: nat, m: Minion)
    requires k < |b|
    ensures ReadyCount(b[k := m]) == ReadyCount(b) - (if b[k].canAttack then 1 else 0) + (if m.canAttack then 1 else 0)
  {
    var n := |b| - 1;
    if k < n {
      SlotReady(b[..n], k, m);
      assert b[k := m][..n] == b[..n][k := m];
    } else {
      assert b[k := m][..n] == b[..n];
    }
  }

  /** Replacing a minion in its slot by another version of itself. */
  lemma SlotUpdate(b: seq<Minion>, k: nat, m: Minion)
    requires k < |b| && m.instId == b[k].instId
    ensures IdBag(b[k := m]) == IdBag(b)
    ensures ReadyCount(b[k := m]) == ReadyCount(b) - (if b[k].canAttack then 1 else 0) + (if m.canAttack then 1 else 0)
  {
    hide IdBag, ReadyCount;
    SlotIds(b, k, m);
    SlotReady(b, k, m);
  }

  lemma {:induction false} WakeFacts(b: seq<Minion>)
    ensures IdBag(Wake(b)) == IdBag(b) && ReadyCount(Wake(b)) == |b|
  {
    if b != [] {
      WakeFacts(b[..|b| - 1]);
      assert Wake(b)[..|b| - 1] == Wake(b[..|b| - 1]);
    }
  }

  lemma {:induction false} InBag(b: seq<Minion>, j: nat)
    requires j < |b|
    ensures b[j].instId in IdBag(b)
  {
    var n := |b| - 1;
    if j < n {
      InBag(b[..n], j);
    }
  }

  lemma {:induction false} TwiceInBag(b: seq<Minion>, j: nat, k: nat)
    requires j < k < |b| && b[j].instId == b[k].instId
    ensures IdBag(b)[b[j].instId] >= 2
  {
    var n := |b| - 1;
    if k < n {
      TwiceInBag(b[..n], j, k);
    } else {
      InBag(b[..n], j);
    }
  }

  lemma IdBagCount(b: seq<Minion>, j: nat, k: nat)
    requires j <= k < |b|
    ensures b[j].instId in IdBag(b)
    ensures j < k && b[j].instId == b[k].instId ==> IdBag(b)[b[j].instId] >= 2
  {
    hide IdBag;
    InBag(b, j);
    if j < k && b[j].instId == b[k].instId {
      TwiceInBag(b, j, k);
    }
  }

  lemma {:induction false} InIdBag(b: seq<Minion>, id: string)
    ensures id in IdBag(b) <==> Find(b, id) >= 0
  {
    if Find(b, id) >= 0 {
      IdBagCount(b, Find(b, id), Find(b, id));
    } else if b != [] {
      InIdBag(b[..|b| - 1], id);
    }
  }

  // ---------------------------------------------------------------- the invariant

  ghost predicate BoardSound(b: seq<Minion>) {
    |b| <= BOARD_LIMIT && forall j :: 0 <= j < |b| ==> 0 < b[j].hp <= b[j].maxHp && b[j].atk >= 0
  }

  /** A board that may still hold dead minions. */
  ghost predicate Wounded(b: seq<Minion>) {
    |b| <= BOARD_LIMIT && forall j :: 0 <= j < |b| ==> b[j].hp <= b[j].maxHp && b[j].atk >= 0
  }

  /** What a player looks like after beginning `t` turns with an opening deck of `n` cards. */
  ghost predicate PlayerSound(p: PlayerState, n: int, t: int) {
    && BoardSound(p.board)
    && 0 <= p.mana <= p.maxMana == Min(MAX_MANA, t)
    && |p.deck| == Max(0, n - HAND_START - t)
    && p.fatigue == Max(0, t - (n - HAND_START))
    && p.hp <= START_HP - Triangle(p.fatigue)
  }

  ghost predicate Issued(id: string, n: nat) {
    exists k: nat :: 1 <= k <= n && id == InstName(k)
  }

  function Census(g: Game): multiset<string> {
    IdBag(g.p0.board) + IdBag(g.p1.board)
  }

  /** Every instance id on the two boards was issued in this battle and stands there once. */
  ghost predicate IdsUnique(g: Game) {
    forall id :: id in Census(g) ==> Census(g)[id] == 1 && Issued(id, g.nextInst)
  }

  ghost predicate Verdict(g: Game) {
    && (g.over <==> g.p0.hp <= 0 || g.p1.hp <= 0)
    && !(g.p0.hp <= 0 && g.p1.hp <= 0)
    && g.winner == (if !g.over then "" else if g.p0.hp <= 0 then g.p1.id else g.p0.id)
  }

  /** One side's arithmetic; the sixth empty draw is fatal, so it can only be the latest event. */
  ghost predicate SideSound(g: Game, i: Side, init: PlayerInit) {
    var p := g.At(i);
    && p.id == init.id
    && PlayerSound(p, |init.cards|, TurnsBegun(i, g.round))
    && p.fatigue <= 6 && (p.fatigue == 6 ==> g.turn == i)
  }

  ghost predicate ClockSound(g: Game) {
    g.round >= 1 && g.turn == (g.round - 1) % 2
  }

  ghost predicate Numbers(g: Game, a: PlayerInit, b: PlayerInit) {
    ClockSound(g) && SideSound(g, 0, a) && SideSound(g, 1, b) && Verdict(g)
  }

  ghost predicate Inv(g: Game, a: PlayerInit, b: PlayerInit) {
    Numbers(g, a, b) && IdsUnique(g)
  }

  lemma FatigueKills(p: PlayerState)
    requires p.hp <= START_HP - Triangle(p.fatigue) && p.hp > 0 && p.fatigue >= 0
    ensures p.fatigue <= 5
  {
    TriangleMonotone(6, p.fatigue);
    assert Triangle(6) == 21 by { assert Triangle(3) == 6; }
  }

  lemma {:induction false} TriangleMonotone(m: int, n: int)
    ensures m <= n ==> Triangle(m) <= Triangle(n)
    ensures Triangle(n) >= 0
    ensures n >= 0 ==> Triangle(n) == n * (n + 1) / 2
    decreases n
  {
    if n > 0 {
      TriangleMonotone(m, n - 1);
    }
  }

  lemma InvStart(s: Setup)
    requires s.Ready()
    ensures Inv(s.Start(), s.a, s.b)
  {
    assert Triangle(0) == 0;
  }

  lemma RefreshedSound(p: PlayerState, n: int, t: int)
    requires PlayerSound(p, n, t) && t >= 0
    ensures PlayerSound(Refreshed(p), n, t + 1)
  {
    assert Triangle(p.fatigue + 1) == p.fatigue + 1 + Triangle(p.fatigue);
  }

  /** The side that ends its turn is untouched and has begun no further turn. */
  lemma SideWaits(g: Game, h: Game, init: PlayerInit)
    requires ClockSound(g) && SideSound(g, g.turn, init) && g.At(g.turn).hp > 0
    requires h.round == g.round + 1 && h.At(g.turn) == g.At(g.turn)
    ensures SideSound(h, g.turn, init)
  {
    FatigueKills(g.At(g.turn));
    assert TurnsBegun(g.turn, h.round) == TurnsBegun(g.turn, g.round);
  }

  lemma SideBegins(g: Game, h: Game, init: PlayerInit)
    requires ClockSound(g) && SideSound(g, 1 - g.turn, init) && g.At(1 - g.turn).hp > 0
    requires h.round == g.round + 1 && h.turn == 1 - g.turn
    requires h.At(1 - g.turn) == Refreshed(g.At(1 - g.turn))
    ensures SideSound(h, 1 - g.turn, init)
  {
    var i: Side := 1 - g.turn;
    FatigueKills(g.At(i));
    assert TurnsBegun(i, h.round) == TurnsBegun(i, g.round) + 1;
    RefreshedSound(g.At(i), |init.cards|, TurnsBegun(i, g.round));
  }

  lemma NumbersEndTurn(g: Game, a: PlayerInit, b: PlayerInit)
    requires Numbers(g, a, b) && !g.over
    ensures Numbers(EndTurn(g, g.turn), a, b)
  {
    var h := EndTurn(g, g.turn);
    SideWaits(g, h, if g.turn == 0 then a else b);
    SideBegins(g, h, if g.turn == 0 then b else a);
  }

  /** Within a turn a side only loses health, mana and minions. */
  lemma SideKept(g: Game, h: Game, i: Side, init: PlayerInit)
    requires SideSound(g, i, init) && h.round == g.round && h.turn == g.turn
    requires var p, q := g.At(i), h.At(i);
             && q == p.(hp := q.hp, mana := q.mana, hand := q.hand, board := q.board)
             && q.hp <= p.hp && 0 <= q.mana <= p.mana && BoardSound(q.board)
    ensures SideSound(h, i, init)
  {
  }

  lemma IdsEndTurn(g: Game)
    requires IdsUnique(g)
    ensures IdsUnique(EndTurn(g, g.turn))
  {
    var h, i := EndTurn(g, g.turn), g.turn;
    EndTurnShape(g);
    hide EndTurn;
    WakeFacts(g.At(1 - i).board);
    assert Census(h) == Census(g) && h.nextInst == g.nextInst;
  }

  lemma NumbersPlayCard(cat: Catalog, g: Game, card: string, a: PlayerInit, b: PlayerInit)
    requires cat.Sound() && Numbers(g, a, b) && !g.over
    requires PlayCard(cat, g, g.turn, card).Accepted?
    ensures Numbers(PlayCard(cat, g, g.turn, card).game, a, b)
  {
    var h := PlayCard(cat, g, g.turn, card).game;
    assert ValidCard(cat.byId[card]);
    SideKept(g, h, 0, a);
    SideKept(g, h, 1, b);
  }

  lemma CensusPlayCard(cat: Catalog, g: Game, card: string)
    requires PlayCard(cat, g, g.turn, card).Accepted?
    ensures var h := PlayCard(cat, g, g.turn, card).game;
            && h.nextInst == g.nextInst + 1
            && Census(h) == Census(g) + multiset{InstName(h.nextInst)}
            && ReadyCount(h.At(g.turn).board) == ReadyCount(g.At(g.turn).board)
  {
    PlayCardShape(cat, g, card);
    var h, p := PlayCard(cat, g, g.turn, card).game, g.At(g.turn);
    hide PlayCard;
    assert h.At(g.turn).board[..|p.board|] == p.board;
  }

  lemma IdsPlayCard(cat: Catalog, g: Game, card: string)
    requires IdsUnique(g) && PlayCard(cat, g, g.turn, card).Accepted?
    ensures IdsUnique(PlayCard(cat, g, g.turn, card).game)
  {
    var h := PlayCard(cat, g, g.turn, card).game;
    CensusPlayCard(cat, g, card);
    hide PlayCard, Census, InstName;
    NewNameUnissued(g, h.nextInst);
    var name := InstName(h.nextInst);
    assert Issued(name, h.nextInst);
    forall id | id in Census(h)
      ensures Census(h)[id] == 1 && Issued(id, h.nextInst)
    {
      if id in Census(g) {
        var k: nat :| 1 <= k <= g.nextInst && id == InstName(k);
        assert Issued(id, h.nextInst);
      }
    }
  }

  lemma NewNameUnissued(g: Game, n: nat)
    requires IdsUnique(g) && n > g.nextInst
    ensures InstName(n) !in Census(g)
  {
    hide Census;
    if InstName(n) in Census(g) {
      var k: nat :| 1 <= k <= g.nextInst && InstName(n) == InstName(k);
      InstNameInjective(n, k);
    }
  }

  lemma BuriedBoard(b: seq<Minion>)
    requires Wounded(b)
    ensures BoardSound(Alive(b))
  {
    AliveFacts(b);
  }

  lemma ExchangeBoards(g: Game, i: Side, k: int, t: int)
    requires 0 <= k < |g.At(i).board| && -1 <= t < |g.At(1 - i).board|
    requires BoardSound(g.At(i).board) && BoardSound(g.At(1 - i).board)
    ensures Wounded(Exchange(g, i, k, t).At(i).board) && Wounded(Exchange(g, i, k, t).At(1 - i).board)
  {
  }

  lemma BlowVerdict(g: Game, k: int, t: int)
    requires 0 <= k < |g.At(g.turn).board| && -1 <= t < |g.At(1 - g.turn).board|
    requires Verdict(g) && !g.over
    ensures Verdict(Blow(g, g.turn, k, t))
  {
    BuryKeepsPlayers(Exchange(g, g.turn, k, t));
    hide BuryDead;
  }

  lemma BuryKeepsPlayers(g: Game)
    ensures var h := BuryDead(g);
            h == g.(p0 := g.p0.(board := h.p0.board), p1 := g.p1.(board := h.p1.board))
  {
  }

  lemma NumbersAttack(g: Game, k: int, t: int, a: PlayerInit, b: PlayerInit)
    requires Numbers(g, a, b) && !g.over
    requires 0 <= k < |g.At(g.turn).board| && -1 <= t < |g.At(1 - g.turn).board|
    ensures Numbers(Blow(g, g.turn, k, t), a, b)
  {
    var i, x, h := g.turn, Exchange(g, g.turn, k, t), Blow(g, g.turn, k, t);
    assert Verdict(h) by { BlowVerdict(g, k, t); }
    BlowShape(g, i, k, t);
    ExchangeBoards(g, i, k, t);
    hide Blow, Exchange, Verdict;
    BuriedBoard(x.At(i).board);
    BuriedBoard(x.At(1 - i).board);
    SideKept(g, h, 0, a);
    SideKept(g, h, 1, b);
  }

  /** An exchange of blows adds no instance id, and the attacker is one fewer that may attack. */
  lemma BlowCounts(g: Game, i: Side, k: int, t: int)
    requires 0 <= k < |g.At(i).board| && -1 <= t < |g.At(1 - i).board|
    ensures var h := Blow(g, i, k, t);
            && Census(h) <= Census(g)
            && ReadyCount(h.At(i).board) <= ReadyCount(g.At(i).board) - if g.At(i).board[k].canAttack then 1 else 0
  {
    BlowShape(g, i, k, t);
    ExchangeShape(g, i, k, t);
    var x := Exchange(g, i, k, t);
    hide Exchange, Blow;
    var mine, theirs := x.At(i).board, x.At(1 - i).board;
    SlotUpdate(g.At(i).board, k, mine[k]);
    assert mine == g.At(i).board[k := mine[k]];
    if t >= 0 {
      SlotUpdate(g.At(1 - i).board, t, theirs[t]);
    }
    assert IdBag(mine) == IdBag(g.At(i).board) && IdBag(theirs) == IdBag(g.At(1 - i).board);
    AliveFacts(mine);
    AliveFacts(theirs);
  }

  lemma InvAttack(g: Game, inst: string, target: string, a: PlayerInit, b: PlayerInit)
    requires Inv(g, a, b) && !g.over && Attack(g, g.turn, inst, target).Accepted?
    ensures Inv(Attack(g, g.turn, inst, target).game, a, b)
  {
    var k, t := AttackIsBlow(g, inst, target);
    NumbersAttack(g, k, t, a, b);
    BlowCounts(g, g.turn, k, t);
    BlowShape(g, g.turn, k, t);
    hide Attack, Blow;
  }

  lemma InvStep(cat: Catalog, g: Game, m: Move, a: PlayerInit, b: PlayerInit)
    requires cat.Sound() && Inv(g, a, b)
    ensures Inv(After(cat, g, m), a, b)
  {
    if Try(cat, g, m).Accepted? {
      match m.action.kind
      case PlayCardKind =>
        NumbersPlayCard(cat, g, m.action.cardId, a, b);
        IdsPlayCard(cat, g, m.action.cardId);
      case AttackKind =>
        InvAttack(g, m.action.instId, m.action.target, a, b);
      case EndTurnKind =>
        NumbersEndTurn(g, a, b);
        IdsEndTurn(g);
    }
  }

  /** Every position of every battle satisfies the invariant. */
  lemma {:induction false} InvRun(cat: Catalog, s: Setup, ms: seq<Move>)
    requires cat.Sound() && s.Ready()
    ensures Inv(Run(cat, s.Start(), ms), s.a, s.b)
  {
    if ms == [] {
      InvStart(s);
    } else {
      InvRun(cat, s, ms[..|ms| - 1]);
      InvStep(cat, Run(cat, s.Start(), ms[..|ms| - 1]), ms[|ms| - 1], s.a, s.b);
    }
  }
}
