/**
 One battle that reaches the two ends of `ChecksumWinner`, the one or the other
 depending on what the players do.
 */
module ChecksumDuel {
  import opened Deck
  import opened Battle
  import opened BattleRuns
  import opened Checksum
  import opened ChecksumBattle
  import opened ChecksumRuns
  import opened ChecksumWinner

  // ---------------------------------------------------------------- the battle

  function MyDeck(lead: string): seq<string> {
    [lead] + OTHERS
  }

  function TheirDeck(trail: string): seq<string> {
    ["k", trail, "y"] + REST
  }

  function Duel(lead: string, trail: string, other: string): Setup {
    Setup((_, _) => [], PlayerInit("a", MyDeck(lead)), PlayerInit(other, TheirDeck(trail)), 0)
  }

  /** Nobody has done anything yet; the players have begun `m` and `n` turns. */
  function Idle(lead: string, trail: string, other: string, turn: Side, m: nat, n: nat): Game
    requires m <= 4 && n <= 4
  {
    Game(Seat("a", m, MyDeck(lead)[3 + m..], MyDeck(lead)[..3 + m], []),
         Seat(other, n, TheirDeck(trail)[3 + n..], TheirDeck(trail)[..3 + n], []), turn, m + n, false, "", 0)
  }

  lemma DuelStarts(lead: string, trail: string, other: string)
    requires other != "" && other != "a"
    ensures Duel(lead, trail, other).Ready() && Duel(lead, trail, other).Start() == Idle(lead, trail, other, 0, 1, 0)
  {
  }

  lemma DrawNext(xs: seq<string>, n: nat)
    requires n < |xs|
    ensures xs[n..] == [xs[n]] + xs[n + 1..] && xs[..n] + [xs[n]] == xs[..n + 1]
  {
  }

  lemma TheirTurn(cat: Catalog, lead: string, trail: string, other: string, m: nat, n: nat)
    requires m <= 4 && n < 4 && other != "a"
    ensures Try(cat, Idle(lead, trail, other, 0, m, n), Ends("a")) == Accepted(Idle(lead, trail, other, 1, m, n + 1))
  {
    var deck, k := TheirDeck(trail), 3 + n;
    DrawNext(deck, k);
    PassTurn(cat, Idle(lead, trail, other, 0, m, n), deck[k], deck[k + 1..]);
    assert Wake([]) == [];
    hide Step, MyDeck, TheirDeck, Wake;
  }

  lemma MyTurn(cat: Catalog, lead: string, trail: string, other: string, m: nat, n: nat)
    requires m < 4 && n <= 4 && other != "a"
    ensures Try(cat, Idle(lead, trail, other, 1, m, n), Ends(other)) == Accepted(Idle(lead, trail, other, 0, m + 1, n))
  {
    var deck, k := MyDeck(lead), 3 + m;
    DrawNext(deck, k);
    PassTurn(cat, Idle(lead, trail, other, 1, m, n), deck[k], deck[k + 1..]);
    assert Wake([]) == [];
    hide Step, MyDeck, TheirDeck, Wake;
  }

  // ---------------------------------------------------------------- single steps

  /** A free minion is played from anywhere in the hand. */
  lemma PlayFrom(cat: Catalog, g: Game, front: seq<string>, card: string, rest: seq<string>)
    requires !g.over && g.p0.id != g.p1.id && g.At(g.turn).hand == front + ([card] + rest) && card !in front
    requires cat.Has(card) && cat.byId[card].kind == TYPE_MINION && cat.byId[card].cost == 0
    requires g.At(g.turn).mana >= 0 && g.At(g.turn).board == []
    ensures var p, n := g.At(g.turn), g.nextInst + 1;
            Try(cat, g, Plays(p.id, card))
            == Accepted(g.Put(g.turn, p.(hand := front + rest, board := [NewMinion(cat.byId[card], n)])).(nextInst := n))
  {
    var p, k := g.At(g.turn), |front|;
    assert p.hand[k] == card && p.hand[..k] == front && p.hand[k + 1..] == rest;
    WithoutFirstIsSplice(p.hand, card, k);
    assert [] + [NewMinion(cat.byId[card], g.nextInst + 1)] == [NewMinion(cat.byId[card], g.nextInst + 1)];
    hide NewMinion, WithoutFirst;
  }

  function Hits(player: string, inst: string, target: string): Move {
    Move(player, Action(AttackKind, "", inst, target))
  }

  function Spent(m: Minion): Minion {
    m.(canAttack := false)
  }

  lemma AliveShort(m: Minion)
    ensures Alive([]) == [] && Alive([m]) == if m.hp > 0 then [m] else []
  {
    assert [m][..0] == [];
  }

  /** The only minion of the active player attacks the only minion opposite. */
  lemma HitMinion(cat: Catalog, g: Game, x: Minion, y: Minion)
    requires !g.over && g.p0.id != g.p1.id && g.p0.hp > 0 && g.p1.hp > 0
    requires g.At(g.turn).board == [x] && g.At(1 - g.turn).board == [y]
    requires x.canAttack && x.atk > 0 && x.instId != y.instId && y.instId != FACE
    ensures var i := g.turn; var p, q := g.At(i), g.At(1 - i);
            Try(cat, g, Hits(p.id, x.instId, y.instId))
            == Accepted(g.Put(i, p.(board := Alive([Spent(Struck(x, y.atk))])))
                         .Put(1 - i, q.(board := Alive([Struck(y, x.atk)]))))
  {
    FindAlone(x, x.instId);
    FindAlone(x, y.instId);
    FindAlone(y, y.instId);
    hide Find, Alive;
    assert [x][0 := Spent(Struck(x, y.atk))] == [Spent(Struck(x, y.atk))];
    assert [y][0 := Struck(y, x.atk)] == [Struck(y, x.atk)];
  }

  /** The only minion of the active player attacks the face; what stands opposite is alive. */
  lemma HitFace(cat: Catalog, g: Game, x: Minion)
    requires !g.over && g.p0.id != g.p1.id && g.p0.hp > 0 && g.p1.hp > 0
    requires g.At(g.turn).board == [x] && Alive(g.At(1 - g.turn).board) == g.At(1 - g.turn).board
    requires x.canAttack && x.atk > 0 && x.hp > 0
    ensures var i := g.turn; var p, q := g.At(i), g.At(1 - i);
            Try(cat, g, Hits(p.id, x.instId, FACE))
            == Accepted(CheckOver(g.Put(i, p.(board := [Spent(x)])).Put(1 - i, q.(hp := q.hp - x.atk))))
  {
    FindAlone(x, x.instId);
    AliveShort(Spent(x));
    hide Find, Alive, CheckOver;
    assert [x][0 := Spent(x)] == [Spent(x)];
  }

  /** A turn passes to a player whose deck is empty. */
  lemma PassTired(cat: Catalog, g: Game)
    requires !g.over && g.p0.id != g.p1.id && g.At(1 - g.turn).deck == [] && g.At(1 - g.turn).maxMana < MAX_MANA
    ensures var i: Side := 1 - g.turn; var q := g.At(i);
            Try(cat, g, Ends(g.At(g.turn).id))
            == Accepted(CheckOver(g.(turn := i, round := g.round + 1)
                         .Put(i, q.(maxMana := q.maxMana + 1, mana := q.maxMana + 1, board := Wake(q.board),
                                    fatigue := q.fatigue + 1, hp := q.hp - (q.fatigue + 1)))))
  {
    hide Wake, CheckOver;
  }

  // ---------------------------------------------------------------- the two courses

  /** A catalog with the cards of the duel: a minion that strikes hard, one that does not strike, and two more. */
  predicate Equipped(cat: Catalog, l: string, t: string) {
    Has(cat, l, 20) && Has(cat, t, 0) && Has(cat, "k", 19) && Has(cat, "y", 0) && t != "k" && t != "y"
  }

  predicate Has(cat: Catalog, id: string, atk: int) {
    cat.Has(id) && cat.byId[id] == Fighter(id, atk)
  }

  function Fighter(id: string, atk: int): Card {
    Card(id, "a minion", TYPE_MINION, 0, atk, 1, 0, 0)
  }

  function Stands(n: nat, id: string, atk: int, ready: bool): Minion {
    Minion(InstName(n), id, atk, 1, 1, ready)
  }

  function Stage(p: PlayerState, q: PlayerState, turn: Side, round: int, n: nat): Game {
    Game(p, q, turn, round, false, "", n)
  }

  const SIX := ["q", "v", "v", "u", "u", "w"]
  const FOUR := ["y", "w", "v", "v"]

  lemma Split(l: string, t: string)
    ensures MyDeck(l)[..7] == [] + ([l] + SIX) && MyDeck(l)[7..] == ["w"] + [] && SIX + ["w"] == OTHERS
    ensures MyDeck(l)[..6] == [l] + SIX[..5] && MyDeck(l)[6..] == ["w"] + ["w"] && SIX[..5] + ["w"] == SIX
    ensures TheirDeck(t)[..6] == ["k"] + ([t] + FOUR) && TheirDeck(t)[6..] == ["u"] + ["u"]
    ensures FOUR + ["u"] + ["u"] == ["y"] + REST
  {
  }

  // The first player wins: the leader clears the board and then strikes.

  function A0(l: string, t: string, o: string): Game {
    Stage(Seat("a", 4, ["w"] + [], [] + ([l] + SIX), []), Seat(o, 3, ["u"] + ["u"], ["k"] + ([t] + FOUR), []), 0, 7, 0)
  }

  function A1(l: string, t: string, o: string): Game {
    Stage(Seat("a", 4, ["w"] + [], SIX, [Stands(1, l, 20, false)]), A0(l, t, o).p1, 0, 7, 1)
  }

  function A2(l: string, t: string, o: string): Game {
    Stage(A1(l, t, o).p0, Seat(o, 4, ["u"] + [], ["k"] + ([t] + (FOUR + ["u"])), []), 1, 8, 1)
  }

  function A3(l: string, t: string, o: string): Game {
    Stage(A1(l, t, o).p0, Seat(o, 4, ["u"] + [], ["k"] + (FOUR + ["u"]), [Stands(2, t, 0, false)]), 1, 8, 2)
  }

  function A4(l: string, t: string, o: string): Game {
    Stage(Seat("a", 5, [], OTHERS, [Stands(1, l, 20, true)]), A3(l, t, o).p1, 0, 9, 2)
  }

  function A5(l: string, o: string): Game {
    Stage(Seat("a", 5, [], OTHERS, [Stands(1, l, 20, false)]),
          Seat(o, 4, ["u"] + [], ["k"] + (FOUR + ["u"]), []), 0, 9, 2)
  }

  function A6(l: string, o: string): Game {
    Stage(A5(l, o).p0, Seat(o, 5, [], ["k"] + (["y"] + REST), []), 1, 10, 2)
  }

  function A7(l: string, o: string): Game {
    Stage(A5(l, o).p0, Seat(o, 5, [], ["k"] + REST, [Stands(3, "y", 0, false)]), 1, 10, 3)
  }

  function A8(l: string, o: string): Game {
    Stage(Seated("a", 19, 6, 1, OTHERS, [Stands(1, l, 20, true)]), A7(l, o).p1, 0, 11, 3)
  }

  function A9(l: string, o: string): Game {
    Ended("a", Seated("a", 19, 6, 1, OTHERS, [Stands(1, l, 20, false)]),
          Seated(o, 0, 5, 0, ["k"] + REST, [Stands(3, "y", 0, false)]))
  }

  lemma NewMinionIs(cat: Catalog, id: string, atk: int, n: nat)
    requires Has(cat, id, atk)
    ensures NewMinion(cat.byId[id], n) == Stands(n, id, atk, false)
  {
  }

  lemma LeaderPlayed(cat: Catalog, l: string, t: string, o: string)
    requires Equipped(cat, l, t) && o != "a"
    ensures Try(cat, A0(l, t, o), Plays("a", l)) == Accepted(A1(l, t, o))
  {
    PlayFrom(cat, A0(l, t, o), [], l, SIX);
    NewMinionIs(cat, l, 20, 1);
    hide Step, NewMinion, InstName;
    assert [] + SIX == SIX;
  }

  lemma LeaderWaits(cat: Catalog, l: string, t: string, o: string)
    requires Equipped(cat, l, t) && o != "a"
    ensures Try(cat, A1(l, t, o), Ends("a")) == Accepted(A2(l, t, o))
  {
    PassTurn(cat, A1(l, t, o), "u", ["u"]);
    hide Step, InstName;
    assert Wake([]) == [] && ["u"] == ["u"] + [];
    assert ["k"] + ([t] + FOUR) + ["u"] == ["k"] + ([t] + (FOUR + ["u"]));
  }

  lemma GuardPlayed(cat: Catalog, l: string, t: string, o: string)
    requires Equipped(cat, l, t) && o != "a"
    ensures Try(cat, A2(l, t, o), Plays(o, t)) == Accepted(A3(l, t, o))
  {
    PlayFrom(cat, A2(l, t, o), ["k"], t, FOUR + ["u"]);
    NewMinionIs(cat, t, 0, 2);
    hide Step, NewMinion, InstName;
  }

  lemma Awake(m: Minion)
    ensures Wake([m]) == [Woken(m)]
  {
  }

  lemma ClearBoard(cat: Catalog, l: string, t: string, o: string)
    requires Equipped(cat, l, t) && o != "a"
    ensures Try(cat, A4(l, t, o), Hits("a", InstName(1), InstName(2))) == Accepted(A5(l, o))
  {
    var x, y := Stands(1, l, 20, true), Stands(2, t, 0, false);
    InstNameInjective(1, 2);
    InstNameInjective(2, 2);
    hide InstName;
    HitMinion(cat, A4(l, t, o), x, y);
    AliveShort(Spent(Struck(x, 0)));
    AliveShort(Struck(y, 20));
    hide Step, Alive;
  }

  lemma NextSteps(cat: Catalog, l: string, t: string, o: string)
    requires Equipped(cat, l, t) && o != "a"
    ensures Try(cat, A3(l, t, o), Ends(o)) == Accepted(A4(l, t, o))
    ensures Try(cat, A5(l, o), Ends("a")) == Accepted(A6(l, o))
  {
    PassTurn(cat, A3(l, t, o), "w", []);
    Awake(Stands(1, l, 20, false));
    PassTurn(cat, A5(l, o), "u", []);
    hide Step, InstName;
    assert SIX + ["w"] == OTHERS && Wake([]) == [];
    assert ["k"] + (FOUR + ["u"]) + ["u"] == ["k"] + (["y"] + REST);
  }

  lemma YoungPlayed(cat: Catalog, l: string, t: string, o: string)
    requires Equipped(cat, l, t) && o != "a"
    ensures Try(cat, A6(l, o), Plays(o, "y")) == Accepted(A7(l, o))
  {
    PlayFrom(cat, A6(l, o), ["k"], "y", REST);
    NewMinionIs(cat, "y", 0, 3);
    hide Step, NewMinion, InstName;
  }

  lemma LastSteps(cat: Catalog, l: string, o: string)
    requires o != "a"
    ensures Try(cat, A7(l, o), Ends(o)) == Accepted(A8(l, o))
    ensures Try(cat, A8(l, o), Hits("a", InstName(1), FACE)) == Accepted(A9(l, o))
  {
    PassTired(cat, A7(l, o));
    Awake(Stands(1, l, 20, false));
    AliveShort(Stands(3, "y", 0, false));
    HitFace(cat, A8(l, o), Stands(1, l, 20, true));
    hide Step, InstName, Alive;
  }

  // The second player wins: the leader falls, and the first player's deck runs out.

  function B0(l: string, t: string, o: string): Game {
    Stage(Seat("a", 3, ["w"] + ["w"], [l] + SIX[..5], []), Seat(o, 3, ["u"] + ["u"], [] + (["k"] + ([t] + FOUR)), []), 1, 6, 0)
  }

  function B1(l: string, t: string, o: string): Game {
    Stage(B0(l, t, o).p0, Seat(o, 3, ["u"] + ["u"], [t] + FOUR, [Stands(1, "k", 19, false)]), 1, 6, 1)
  }

  function B2(l: string, t: string, o: string): Game {
    Stage(Seat("a", 4, ["w"] + [], [] + ([l] + SIX), []), B1(l, t, o).p1, 0, 7, 1)
  }

  function B3(l: string, t: string, o: string): Game {
    Stage(Seat("a", 4, ["w"] + [], SIX, [Stands(2, l, 20, false)]), B1(l, t, o).p1, 0, 7, 2)
  }

  function B4(l: string, t: string, o: string): Game {
    Stage(B3(l, t, o).p0, Seat(o, 4, ["u"] + [], [t] + (FOUR + ["u"]), [Stands(1, "k", 19, true)]), 1, 8, 2)
  }

  function B5(l: string, t: string, o: string): Game {
    Stage(B3(l, t, o).p0.(hp := 1), Seat(o, 4, ["u"] + [], [t] + (FOUR + ["u"]), [Stands(1, "k", 19, false)]), 1, 8, 2)
  }

  function B6(l: string, t: string, o: string): Game {
    Stage(Seated("a", 1, 5, 0, OTHERS, [Stands(2, l, 20, true)]), B5(l, t, o).p1, 0, 9, 2)
  }

  function B7(t: string, o: string): Game {
    Stage(Seated("a", 1, 5, 0, OTHERS, []), Seat(o, 4, ["u"] + [], [t] + (FOUR + ["u"]), []), 0, 9, 2)
  }

  function B8(t: string, o: string): Game {
    Stage(B7(t, o).p0, Seat(o, 5, [], [] + ([t] + (["y"] + REST)), []), 1, 10, 2)
  }

  function B9(t: string, o: string): Game {
    Stage(B7(t, o).p0, Seat(o, 5, [], ["y"] + REST, [Stands(3, t, 0, false)]), 1, 10, 3)
  }

  function B10(t: string, o: string): Game {
    Ended(o, Seated("a", 0, 6, 1, OTHERS, []), Seated(o, 20, 5, 0, ["y"] + REST, [Stands(3, t, 0, false)]))
  }

  lemma FirstReply(cat: Catalog, l: string, t: string, o: string)
    requires Equipped(cat, l, t) && o != "a"
    ensures Try(cat, B0(l, t, o), Plays(o, "k")) == Accepted(B1(l, t, o))
  {
    PlayFrom(cat, B0(l, t, o), [], "k", [t] + FOUR);
    NewMinionIs(cat, "k", 19, 1);
    hide Step, NewMinion, InstName;
    assert [] + ([t] + FOUR) == [t] + FOUR;
  }

  lemma StrikerWaits(cat: Catalog, l: string, t: string, o: string)
    requires Equipped(cat, l, t) && o != "a"
    ensures Try(cat, B1(l, t, o), Ends(o)) == Accepted(B2(l, t, o))
  {
    PassTurn(cat, B1(l, t, o), "w", ["w"]);
    hide Step, InstName;
    assert Wake([]) == [] && ["w"] == ["w"] + [];
    assert [l] + SIX[..5] + ["w"] == [] + ([l] + SIX);
  }

  lemma LeaderReplies(cat: Catalog, l: string, t: string, o: string)
    requires Equipped(cat, l, t) && o != "a"
    ensures Try(cat, B2(l, t, o), Plays("a", l)) == Accepted(B3(l, t, o))
  {
    PlayFrom(cat, B2(l, t, o), [], l, SIX);
    NewMinionIs(cat, l, 20, 2);
    hide Step, NewMinion, InstName;
    assert [] + SIX == SIX;
  }

  lemma NextReplies(cat: Catalog, l: string, t: string, o: string)
    requires Equipped(cat, l, t) && o != "a"
    ensures Try(cat, B3(l, t, o), Ends("a")) == Accepted(B4(l, t, o))
    ensures Try(cat, B4(l, t, o), Hits(o, InstName(1), FACE)) == Accepted(B5(l, t, o))
    ensures Try(cat, B5(l, t, o), Ends(o)) == Accepted(B6(l, t, o))
  {
    PassTurn(cat, B3(l, t, o), "u", ["u"]);
    Awake(Stands(1, "k", 19, false));
    AliveShort(Stands(2, l, 20, false));
    HitFace(cat, B4(l, t, o), Stands(1, "k", 19, true));
    PassTurn(cat, B5(l, t, o), "w", []);
    Awake(Stands(2, l, 20, false));
    hide Step, InstName, Alive;
    assert [t] + FOUR + ["u"] == [t] + (FOUR + ["u"]) && SIX + ["w"] == OTHERS && ["u"] == ["u"] + [];
  }

  lemma LeaderFalls(cat: Catalog, l: string, t: string, o: string)
    requires Equipped(cat, l, t) && o != "a"
    ensures Try(cat, B6(l, t, o), Hits("a", InstName(2), InstName(1))) == Accepted(B7(t, o))
  {
    var x, y := Stands(2, l, 20, true), Stands(1, "k", 19, false);
    InstNameInjective(1, 2);
    InstNameInjective(1, 1);
    hide InstName;
    HitMinion(cat, B6(l, t, o), x, y);
    AliveShort(Spent(Struck(x, 19)));
    AliveShort(Struck(y, 20));
    hide Step, Alive;
  }

  lemma LastReplies(cat: Catalog, t: string, o: string)
    requires o != "a"
    ensures Try(cat, B7(t, o), Ends("a")) == Accepted(B8(t, o))
  {
    PassTurn(cat, B7(t, o), "u", []);
    hide Step, InstName;
    assert Wake([]) == [];
    assert [t] + (FOUR + ["u"]) + ["u"] == [] + ([t] + (["y"] + REST));
  }

  lemma LastPlay(cat: Catalog, l: string, t: string, o: string)
    requires Equipped(cat, l, t) && o != "a"
    ensures Try(cat, B8(t, o), Plays(o, t)) == Accepted(B9(t, o))
  {
    PlayFrom(cat, B8(t, o), [], t, ["y"] + REST);
    NewMinionIs(cat, t, 0, 3);
    hide Step, NewMinion, InstName;
    assert [] + (["y"] + REST) == ["y"] + REST;
  }

  lemma RunsOut(cat: Catalog, t: string, o: string)
    requires o != "a"
    ensures Try(cat, B9(t, o), Ends(o)) == Accepted(B10(t, o))
  {
    PassTired(cat, B9(t, o));
    assert Wake([]) == [];
    hide Step, InstName;
  }

  // ---------------------------------------------------------------- the runs

  lemma RunOne(cat: Catalog, g: Game, ms: seq<Move>, m: Move, h: Game, k: Game)
    requires Run(cat, g, ms) == h && Try(cat, h, m) == Accepted(k)
    ensures Run(cat, g, ms + [m]) == k
  {
    hide Step;
    assert (ms + [m])[..|ms|] == ms;
  }

  /** Five half-rounds without a move. */
  lemma IdleFive(cat: Catalog, l: string, t: string, o: string) returns (ms: seq<Move>)
    requires o != "" && o != "a"
    ensures Run(cat, Duel(l, t, o).Start(), ms) == Idle(l, t, o, 1, 3, 3)
  {
    DuelStarts(l, t, o);
    hide Duel, Idle, Ends, Try, Opening;
    var g := Idle(l, t, o, 0, 1, 0);
    TheirTurn(cat, l, t, o, 1, 0);
    RunOne(cat, g, [], Ends("a"), g, Idle(l, t, o, 1, 1, 1));
    ms := [] + [Ends("a")];
    MyTurn(cat, l, t, o, 1, 1);
    RunOne(cat, g, ms, Ends(o), Idle(l, t, o, 1, 1, 1), Idle(l, t, o, 0, 2, 1));
    ms := ms + [Ends(o)];
    TheirTurn(cat, l, t, o, 2, 1);
    RunOne(cat, g, ms, Ends("a"), Idle(l, t, o, 0, 2, 1), Idle(l, t, o, 1, 2, 2));
    ms := ms + [Ends("a")];
    MyTurn(cat, l, t, o, 2, 2);
    RunOne(cat, g, ms, Ends(o), Idle(l, t, o, 1, 2, 2), Idle(l, t, o, 0, 3, 2));
    ms := ms + [Ends(o)];
    TheirTurn(cat, l, t, o, 3, 2);
    RunOne(cat, g, ms, Ends("a"), Idle(l, t, o, 0, 3, 2), Idle(l, t, o, 1, 3, 3));
    ms := ms + [Ends("a")];
  }

  lemma IdleIsStage(l: string, t: string, o: string)
    ensures Idle(l, t, o, 0, 4, 3) == A0(l, t, o) && Idle(l, t, o, 1, 3, 3) == B0(l, t, o)
  {
    Split(l, t);
    hide MyDeck, TheirDeck;
    assert [] + (["k"] + ([t] + FOUR)) == ["k"] + ([t] + FOUR);
  }

  /** A course in which the first player wins. */
  lemma FirstCourse(cat: Catalog, l: string, t: string, o: string) returns (ms: seq<Move>)
    requires Equipped(cat, l, t) && o != "" && o != "a"
    ensures Duel(l, t, o).Ready() && Run(cat, Duel(l, t, o).Start(), ms) == A9(l, o)
  {
    DuelStarts(l, t, o);
    hide Duel, Idle, Ends, Plays, Hits, Try, Equipped, InstName, Opening, A0, A1, A2, A3, A4, A5, A6, A7, A8, A9;
    var g := Duel(l, t, o).Start();
    ms := IdleFive(cat, l, t, o);
    MyTurn(cat, l, t, o, 3, 3);
    RunOne(cat, g, ms, Ends(o), Idle(l, t, o, 1, 3, 3), Idle(l, t, o, 0, 4, 3));
    ms := ms + [Ends(o)];
    IdleIsStage(l, t, o);
    LeaderPlayed(cat, l, t, o);
    LeaderWaits(cat, l, t, o);
    GuardPlayed(cat, l, t, o);
    RunOne(cat, g, ms, Plays("a", l), A0(l, t, o), A1(l, t, o));
    ms := ms + [Plays("a", l)];
    RunOne(cat, g, ms, Ends("a"), A1(l, t, o), A2(l, t, o));
    ms := ms + [Ends("a")];
    RunOne(cat, g, ms, Plays(o, t), A2(l, t, o), A3(l, t, o));
    ms := ms + [Plays(o, t)];
    NextSteps(cat, l, t, o);
    ClearBoard(cat, l, t, o);
    RunOne(cat, g, ms, Ends(o), A3(l, t, o), A4(l, t, o));
    ms := ms + [Ends(o)];
    RunOne(cat, g, ms, Hits("a", InstName(1), InstName(2)), A4(l, t, o), A5(l, o));
    ms := ms + [Hits("a", InstName(1), InstName(2))];
    RunOne(cat, g, ms, Ends("a"), A5(l, o), A6(l, o));
    ms := ms + [Ends("a")];
    YoungPlayed(cat, l, t, o);
    LastSteps(cat, l, o);
    RunOne(cat, g, ms, Plays(o, "y"), A6(l, o), A7(l, o));
    ms := ms + [Plays(o, "y")];
    RunOne(cat, g, ms, Ends(o), A7(l, o), A8(l, o));
    ms := ms + [Ends(o)];
    RunOne(cat, g, ms, Hits("a", InstName(1), FACE), A8(l, o), A9(l, o));
    ms := ms + [Hits("a", InstName(1), FACE)];
  }

  /** A course of the same battle in which the second player wins. */
  lemma SecondCourse(cat: Catalog, l: string, t: string, o: string) returns (ms: seq<Move>)
    requires Equipped(cat, l, t) && o != "" && o != "a"
    ensures Duel(l, t, o).Ready() && Run(cat, Duel(l, t, o).Start(), ms) == B10(t, o)
  {
    DuelStarts(l, t, o);
    hide Duel, Idle, Ends, Plays, Hits, Try, Equipped, InstName, Opening, B0, B1, B2, B3, B4, B5, B6, B7, B8, B9, B10;
    var g := Duel(l, t, o).Start();
    ms := IdleFive(cat, l, t, o);
    IdleIsStage(l, t, o);
    FirstReply(cat, l, t, o);
    RunOne(cat, g, ms, Plays(o, "k"), B0(l, t, o), B1(l, t, o));
    ms := ms + [Plays(o, "k")];
    StrikerWaits(cat, l, t, o);
    LeaderReplies(cat, l, t, o);
    RunOne(cat, g, ms, Ends(o), B1(l, t, o), B2(l, t, o));
    ms := ms + [Ends(o)];
    RunOne(cat, g, ms, Plays("a", l), B2(l, t, o), B3(l, t, o));
    ms := ms + [Plays("a", l)];
    NextReplies(cat, l, t, o);
    RunOne(cat, g, ms, Ends("a"), B3(l, t, o), B4(l, t, o));
    ms := ms + [Ends("a")];
    RunOne(cat, g, ms, Hits(o, InstName(1), FACE), B4(l, t, o), B5(l, t, o));
    ms := ms + [Hits(o, InstName(1), FACE)];
    RunOne(cat, g, ms, Ends(o), B5(l, t, o), B6(l, t, o));
    ms := ms + [Ends(o)];
    LeaderFalls(cat, l, t, o);
    RunOne(cat, g, ms, Hits("a", InstName(2), InstName(1)), B6(l, t, o), B7(t, o));
    ms := ms + [Hits("a", InstName(2), InstName(1))];
    LastReplies(cat, t, o);
    LastPlay(cat, l, t, o);
    RunOne(cat, g, ms, Ends("a"), B7(t, o), B8(t, o));
    ms := ms + [Ends("a")];
    RunOne(cat, g, ms, Plays(o, t), B8(t, o), B9(t, o));
    ms := ms + [Plays(o, t)];
    RunsOut(cat, t, o);
    RunOne(cat, g, ms, Ends(o), B9(t, o), B10(t, o));
    ms := ms + [Ends(o)];
  }

  // ---------------------------------------------------------------- the catalog and the decks

  function Armoury(l: string, t: string): Catalog {
    Catalog(map[l := Fighter(l, 20), t := Fighter(t, 0), "k" := Fighter("k", 19), "y" := Fighter("y", 0),
                "q" := Fighter("q", 1), "v" := Fighter("v", 1), "u" := Fighter("u", 1), "w" := Fighter("w", 1)],
            [l, t, "k", "y", "q", "v", "u", "w"])
  }

  lemma ArmouryEquips(l: string, t: string)
    requires l != t && |l| > 1 && |t| > 1
    ensures Equipped(Armoury(l, t), l, t)
  {
  }

  lemma ArmouryCards(l: string, t: string)
    requires l != t && |l| > 1 && |t| > 1
    ensures forall id :: id in Armoury(l, t).byId ==> Armoury(l, t).byId[id].id == id && ValidCard(Armoury(l, t).byId[id])
    ensures Armoury(l, t).byId.Keys == {l, t, "k", "y", "q", "v", "u", "w"}
  {
  }

  lemma ArmouryOrder(l: string, t: string)
    requires l != t && |l| > 1 && |t| > 1
    ensures forall i, j :: 0 <= i < j < |Armoury(l, t).order| ==> Armoury(l, t).order[i] != Armoury(l, t).order[j]
    ensures forall id :: id in Armoury(l, t).order <==> id in {l, t, "k", "y", "q", "v", "u", "w"}
  {
  }

  lemma ArmourySound(l: string, t: string)
    requires l != t && |l| > 1 && |t| > 1
    ensures Armoury(l, t).Sound() && Equipped(Armoury(l, t), l, t)
  {
    ArmouryEquips(l, t);
    ArmouryCards(l, t);
    ArmouryOrder(l, t);
    hide Armoury, ValidCard, Equipped;
  }

  lemma MineLegal(l: string, t: string)
    requires l != t && |l| > 1 && |t| > 1
    ensures LegalDeck(Armoury(l, t), MyDeck(l))
  {
    EightLegal(Armoury(l, t), l, "q", "v", "u", "w");
  }

  lemma TheirsLegal(l: string, t: string)
    requires l != t && |l| > 1 && |t| > 1
    ensures LegalDeck(Armoury(l, t), TheirDeck(t))
  {
    var a, b, c, d := ["k", t], ["y", "w"], ["v", "v"], ["u", "u"];
    forall id
      ensures multiset(a)[id] + multiset(b)[id] + multiset(c)[id] + multiset(d)[id] <= 2
    {
      TwoCopies("k", t, id);
      TwoCopies("y", "w", id);
      TwoCopies("v", "v", id);
      TwoCopies("u", "u", id);
      OnceEach("k", t, id);
      OnceEach("y", "w", id);
    }
    PartsLegal(Armoury(l, t), a, b, c, d);
    assert TheirDeck(t) == a + (b + (c + d));
  }

  lemma OnceEach(x: string, y: string, id: string)
    requires x != y
    ensures multiset([x, y])[id] <= 1
  {
    assert [x, y] == [x] + [y];
  }

  lemma ShortReadable(c: char)
    requires c != 't' && c != 'f'
    ensures Readable([c])
  {
    QuietReadable([c]);
  }

  lemma ShortIdsReadable()
    ensures AllReadable(OTHERS) && AllReadable(["k"]) && AllReadable(["y"] + REST)
  {
    ShortReadable('q');
    ShortReadable('v');
    ShortReadable('u');
    ShortReadable('w');
    ShortReadable('k');
    ShortReadable('y');
    hide Readable;
  }

  lemma JoinReadable(xs: seq<string>, ys: seq<string>)
    requires AllReadable(xs) && AllReadable(ys)
    ensures AllReadable(xs + ys)
  {
    hide Readable;
  }

  lemma DeckReadable(l: string, t: string)
    requires Readable(l) && Readable(t)
    ensures AllReadable(MyDeck(l)) && AllReadable(TheirDeck(t))
  {
    ShortIdsReadable();
    assert AllReadable([l]) && AllReadable([t]) by { hide Readable; }
    hide AllReadable;
    JoinReadable([l], OTHERS);
    JoinReadable([t], ["y"] + REST);
    JoinReadable(["k"], [t] + (["y"] + REST));
    assert TheirDeck(t) == ["k"] + ([t] + (["y"] + REST));
  }

  // ---------------------------------------------------------------- two winners

  lemma PartsLong()
    ensures |LostTo()| > 0 && |Beaten()| > 0 && |Beginning()| > 1
  {
    hide Body, IntText, InstName;
  }

  /** The first id is quiet, the second one holds a flag. */
  lemma LeadNotTrail()
    ensures Lead() != Trail() && |Trail()| > 1
  {
    CountsThenFlag(BIG);
    CountsQuiet(BIG);
    QuietIds();
    PartsLong();
    hide Counts, Beaten, Lead;
    var s := StatsText(BIG, "");
    assert |Counts(BIG)| > 0 by { CountsCommas(BIG); }
    assert Trail()[|Counts(BIG)| - 1] == 'f';
  }

  lemma IdsLong()
    ensures |Lead()| > 1 && |Trail()| > 1 && Lead() != Trail() && Other() != "" && Other() != "a"
  {
    LeadNotTrail();
    PartsLong();
    hide Trail, LostTo, Winning, Beginning;
  }

  /**
   One battle with legal decks of readable cards, two courses of it, one text in the
   end: the text does not tell which player has won.
   */
  lemma OneTextTwoWinners() returns (cat: Catalog, s: Setup, ms: seq<Move>, ms': seq<Move>)
    ensures cat.Sound() && s.Ready() && LegalDeck(cat, s.a.cards) && LegalDeck(cat, s.b.cards)
    ensures AllReadable(s.a.cards) && AllReadable(s.b.cards)
    ensures var g, h := Run(cat, s.Start(), ms), Run(cat, s.Start(), ms');
            g.over && h.over && g.winner == s.a.id && h.winner == s.b.id && Text(g) == Text(h)
  {
    var l, t, o := Lead(), Trail(), Other();
    IdsLong();
    QuietIds();
    QuietReadable(l);
    TrailReadable();
    OneEndText();
    hide Lead, Trail, Other, Readable, Quiet, Text, LegalDeck, AllReadable, Run, Catalog.Sound, Equipped, MyDeck, TheirDeck;
    DeckReadable(l, t);
    ArmourySound(l, t);
    MineLegal(l, t);
    TheirsLegal(l, t);
    cat, s := Armoury(l, t), Duel(l, t, o);
    ms := FirstCourse(cat, l, t, o);
    ms' := SecondCourse(cat, l, t, o);
    assert A9(l, o) == FirstWins() && B10(t, o) == SecondWins();
  }
}
