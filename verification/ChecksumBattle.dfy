/**
 Two battles, between the same players and with legal decks over a catalog that
 loads, that reach different positions with one text (internal/battle/checksum.go).
 */
module ChecksumBattle {
  import opened Deck
  import opened Battle
  import opened BattleRuns
  import opened Checksum
  import opened ChecksumClash

  const PLAIN := "c"
  /** The numbers of a minion inside an id, with the start of the next minion after them. */
  const BROKEN := "c,1,1,2,true;m2,c"
  const WEAK := "w"
  const STRONG := "z"

  function Free(id: string, hp: int): Card {
    Card(id, "a minion", TYPE_MINION, 0, 1, hp, 0, 0)
  }

  const CARDS := [Free(PLAIN, 2), Free(BROKEN, 2), Free(WEAK, 1), Free(STRONG, 2), Free("d", 1), Free("e", 1)]

  const CATALOG := Catalog(
    map[PLAIN := Free(PLAIN, 2), BROKEN := Free(BROKEN, 2), WEAK := Free(WEAK, 1), STRONG := Free(STRONG, 2),
        "d" := Free("d", 1), "e" := Free("e", 1)],
    [PLAIN, BROKEN, WEAK, STRONG, "d", "e"])

  /** The battle in which the first player opens with these two cards. */
  function Scene(first: string, second: string): Setup {
    Setup((_, _) => [], PlayerInit("a", [first, second, "d", "d", "e", "e", STRONG, STRONG]),
          PlayerInit("b", [STRONG, STRONG, "d", "d", "e", "e", WEAK, WEAK]), 0)
  }

  function Plays(player: string, card: string): Move {
    Move(player, Action(PlayCardKind, card, "", ""))
  }

  function Ends(player: string): Move {
    Move(player, END_TURN)
  }

  /** Both cards, then the opponent's minion, which attacks minion number `target` a round later. */
  function Course(first: string, second: string, target: nat): seq<Move> {
    [Plays("a", first), Plays("a", second), Ends("a"), Plays("b", STRONG), Ends("b"), Ends("a"),
     Move("b", Action(AttackKind, "", InstName(3), InstName(target))), Ends("b")]
  }

  // ---------------------------------------------------------------- the positions, step by step

  function Seat(id: string, mana: int, deck: seq<string>, hand: seq<string>, board: seq<Minion>): PlayerState {
    PlayerState(id, START_HP, mana, mana, deck, hand, board, 0)
  }

  function Both(p: PlayerState, q: PlayerState, turn: Side, round: int, next: nat): Game {
    Game(p, q, turn, round, false, "", next)
  }

  lemma RunLast(cat: Catalog, g: Game, ms: seq<Move>, n: nat, h: Game, k: Game)
    requires n < |ms| && Run(cat, g, ms[..n]) == h && Try(cat, h, ms[n]) == Accepted(k)
    ensures Run(cat, g, ms[..n + 1]) == k
  {
    hide Step;
    assert ms[..n + 1][..n] == ms[..n];
  }

  /** A free minion is played from the front of the hand. */
  lemma PlayFront(cat: Catalog, g: Game, card: string, rest: seq<string>)
    requires !g.over && g.p0.id != g.p1.id && g.At(g.turn).hand == [card] + rest
    requires cat.Has(card) && cat.byId[card].kind == TYPE_MINION && cat.byId[card].cost == 0
    requires g.At(g.turn).mana >= 0 && |g.At(g.turn).board| < BOARD_LIMIT
    ensures var p, n := g.At(g.turn), g.nextInst + 1;
            Try(cat, g, Plays(p.id, card))
            == Accepted(g.Put(g.turn, p.(hand := rest, board := p.board + [NewMinion(cat.byId[card], n)])).(nextInst := n))
  {
    var p := g.At(g.turn);
    assert p.hand[0] == card && p.hand[1..] == rest;
    hide NewMinion;
  }

  /** A turn passes to a player who draws. */
  lemma PassTurn(cat: Catalog, g: Game, card: string, rest: seq<string>)
    requires !g.over && g.p0.id != g.p1.id && g.At(1 - g.turn).deck == [card] + rest && g.At(1 - g.turn).maxMana < MAX_MANA
    ensures var i: Side := 1 - g.turn; var q := g.At(i);
            Try(cat, g, Ends(g.At(g.turn).id))
            == Accepted(g.(turn := i, round := g.round + 1)
                         .Put(i, q.(maxMana := q.maxMana + 1, mana := q.maxMana + 1, deck := rest,
                                    hand := q.hand + [card], board := Wake(q.board))))
  {
    var q := g.At(1 - g.turn);
    assert q.deck[0] == card && q.deck[1..] == rest;
    hide Wake;
  }

  /** The second player's only minion, ready and with two health, attacks one of the two minions opposite. */
  lemma AttackOne(cat: Catalog, g: Game, z: Minion, x: Minion, y: Minion, t: nat)
    requires !g.over && g.p0.id != g.p1.id && g.turn == 1 && g.p0.hp > 0 && g.p1.hp > 0 && 1 <= t <= 2
    requires g.p1.board == [z] && g.p0.board == [x, y]
    requires z.instId == InstName(3) && x.instId == InstName(1) && y.instId == InstName(2)
    requires z.canAttack && z.atk == 1 && z.hp == 2 && x.atk == 1 && y.atk == 1
    ensures var hurt := if t == 1 then [Struck(x, 1), y] else [x, Struck(y, 1)];
            Try(cat, g, Move(g.p1.id, Action(AttackKind, "", InstName(3), InstName(t))))
            == Accepted(g.(p0 := g.p0.(board := Alive(hurt)),
                           p1 := g.p1.(board := [z.(hp := 1, canAttack := false)])))
  {
    InstNameInjective(1, 2);
    InstNameInjective(1, 3);
    InstNameInjective(2, 3);
    InstNameInjective(t, 3);
    hide InstName;
    var hurt := if t == 1 then [Struck(x, 1), y] else [x, Struck(y, 1)];
    var spent := z.(hp := 1, canAttack := false);
    FindIn(x, y, t);
    FindAlone(z, InstName(3));
    FindAlone(z, InstName(t));
    assert g.p0.board[t - 1 := Struck(g.p0.board[t - 1], 1)] == hurt;
    assert g.p1.board[0 := Struck(z, 1).(canAttack := false)] == [spent];
    AliveOne(spent);
    hide Find, Alive;
    assert Exchange(g, 1, 0, t - 1) == g.(p0 := g.p0.(board := hurt), p1 := g.p1.(board := [spent]));
  }

  lemma FindIn(x: Minion, y: Minion, t: nat)
    requires 1 <= t <= 2 && x.instId == InstName(1) && y.instId == InstName(2) && InstName(1) != InstName(2)
    ensures Find([x, y], InstName(t)) == t - 1
  {
    hide InstName;
    assert [x, y][1..] == [y] && [y][1..] == [];
  }

  lemma FindAlone(z: Minion, id: string)
    ensures Find([z], id) == if z.instId == id then 0 else -1
  {
    assert [z][1..] == [];
  }

  lemma AliveOne(z: Minion)
    requires z.hp > 0
    ensures Alive([z]) == [z]
  {
    assert [z][..0] == [];
  }

  lemma AliveTwo(x: Minion, y: Minion)
    requires x.hp > 0
    ensures Alive([x, y]) == if y.hp > 0 then [x, y] else [x]
  {
    assert [x, y][..1] == [x];
    AliveOne(x);
  }

  // The positions of the course; `x` and `y` are the first player's minions.

  function Waits(deck: seq<string>): PlayerState {
    Seat("b", 0, ["d"] + deck, [STRONG, STRONG, "d"], [])
  }

  const LATER := ["e", "e", WEAK, WEAK]

  function P0(first: string, second: string): Game {
    Both(Seat("a", 1, ["e", "e", STRONG, STRONG], [first] + [second, "d", "d"], []), Waits(LATER), 0, 1, 0)
  }

  function P1(second: string, x: Minion): Game {
    Both(Seat("a", 1, ["e", "e", STRONG, STRONG], [second] + ["d", "d"], [x]), Waits(LATER), 0, 1, 1)
  }

  function P2(x: Minion, y: Minion): Game {
    Both(Seat("a", 1, ["e"] + ["e", STRONG, STRONG], ["d", "d"], [x, y]), Waits(LATER), 0, 1, 2)
  }

  function P3(x: Minion, y: Minion): Game {
    Both(P2(x, y).p0, Seat("b", 1, ["e"] + ["e", WEAK, WEAK], [STRONG] + [STRONG, "d", "d"], []), 1, 2, 2)
  }

  function P4(x: Minion, y: Minion): Game {
    Both(P2(x, y).p0, Seat("b", 1, ["e"] + ["e", WEAK, WEAK], [STRONG, "d", "d"], [Z(false)]), 1, 2, 3)
  }

  function P5(x: Minion, y: Minion): Game {
    Both(Seat("a", 2, ["e"] + [STRONG, STRONG], ["d", "d", "e"], [Woken(x), Woken(y)]), P4(x, y).p1, 0, 3, 3)
  }

  function P6(x: Minion, y: Minion): Game {
    Both(P5(x, y).p0, Seat("b", 2, ["e", WEAK, WEAK], [STRONG, "d", "d", "e"], [Z(true)]), 1, 4, 3)
  }

  function P7(left: seq<Minion>): Game {
    Both(Seat("a", 2, ["e"] + [STRONG, STRONG], ["d", "d", "e"], left), Final(left).p1, 1, 4, 3)
  }

  /** Where the course leads: the first player's turn, with what is left of the two minions. */
  function Final(left: seq<Minion>): Game {
    Both(Seat("a", 3, [STRONG, STRONG], ["d", "d", "e", "e"], left),
         Seat("b", 2, ["e", WEAK, WEAK], [STRONG, "d", "d", "e"], [Z(false).(hp := 1)]), 0, 5, 3)
  }

  function Z(ready: bool): Minion {
    Minion(InstName(3), STRONG, 1, 2, 2, ready)
  }

  function Woken(m: Minion): Minion {
    m.(canAttack := true)
  }

  predicate FreeIn(cat: Catalog, id: string) {
    cat.Has(id) && cat.byId[id].kind == TYPE_MINION && cat.byId[id].cost == 0
  }

  lemma Starts(first: string, second: string)
    ensures Scene(first, second).Ready() && Scene(first, second).Start() == P0(first, second)
  {
    var s := Scene(first, second);
    assert s.a.cards[4..] == ["e", "e", STRONG, STRONG] && s.a.cards[..4] == [first] + [second, "d", "d"];
    assert s.b.cards[3..] == ["d"] + LATER && s.b.cards[..3] == [STRONG, STRONG, "d"];
  }

  lemma FirstPlay(cat: Catalog, first: string, second: string)
    requires FreeIn(cat, first)
    ensures Try(cat, P0(first, second), Plays("a", first)) == Accepted(P1(second, NewMinion(cat.byId[first], 1)))
  {
    PlayFront(cat, P0(first, second), first, [second, "d", "d"]);
    hide Step, NewMinion;
    assert [] + [NewMinion(cat.byId[first], 1)] == [NewMinion(cat.byId[first], 1)];
    assert [second, "d", "d"] == [second] + ["d", "d"];
  }

  lemma SecondPlay(cat: Catalog, second: string, x: Minion)
    requires FreeIn(cat, second)
    ensures Try(cat, P1(second, x), Plays("a", second)) == Accepted(P2(x, NewMinion(cat.byId[second], 2)))
  {
    PlayFront(cat, P1(second, x), second, ["d", "d"]);
    hide Step, NewMinion;
    assert [x] + [NewMinion(cat.byId[second], 2)] == [x, NewMinion(cat.byId[second], 2)];
    assert ["e", "e", STRONG, STRONG] == ["e"] + ["e", STRONG, STRONG];
  }

  lemma ThirdStep(cat: Catalog, x: Minion, y: Minion)
    ensures Try(cat, P2(x, y), Ends("a")) == Accepted(P3(x, y))
  {
    PassTurn(cat, P2(x, y), "d", LATER);
    hide Step;
    assert [STRONG, STRONG, "d"] + ["d"] == [STRONG] + [STRONG, "d", "d"];
    assert Wake([]) == [] && LATER == ["e"] + ["e", WEAK, WEAK];
  }

  lemma FourthStep(cat: Catalog, x: Minion, y: Minion)
    requires FreeIn(cat, STRONG) && NewMinion(cat.byId[STRONG], 3) == Z(false)
    ensures Try(cat, P3(x, y), Plays("b", STRONG)) == Accepted(P4(x, y))
  {
    PlayFront(cat, P3(x, y), STRONG, [STRONG, "d", "d"]);
    hide Step, NewMinion;
    assert [] + [Z(false)] == [Z(false)];
  }

  lemma FifthStep(cat: Catalog, x: Minion, y: Minion)
    ensures Try(cat, P4(x, y), Ends("b")) == Accepted(P5(x, y))
  {
    PassTurn(cat, P4(x, y), "e", ["e", STRONG, STRONG]);
    hide Step;
    assert ["d", "d"] + ["e"] == ["d", "d", "e"] && ["e", STRONG, STRONG] == ["e"] + [STRONG, STRONG];
    assert Wake([x, y]) == [Woken(x), Woken(y)];
  }

  lemma SixthStep(cat: Catalog, x: Minion, y: Minion)
    ensures Try(cat, P5(x, y), Ends("a")) == Accepted(P6(x, y))
  {
    PassTurn(cat, P5(x, y), "e", ["e", WEAK, WEAK]);
    hide Step;
    assert [STRONG, "d", "d"] + ["e"] == [STRONG, "d", "d", "e"];
    assert Wake([Z(false)]) == [Z(true)];
  }

  /** What the attack leaves of the first player's board. */
  function Left(x: Minion, y: Minion, t: nat): seq<Minion> {
    Alive(if t == 1 then [Struck(Woken(x), 1), Woken(y)] else [Woken(x), Struck(Woken(y), 1)])
  }

  lemma SeventhStep(cat: Catalog, x: Minion, y: Minion, t: nat)
    requires 1 <= t <= 2 && x.instId == InstName(1) && y.instId == InstName(2) && x.atk == 1 && y.atk == 1
    ensures Try(cat, P6(x, y), Move("b", Action(AttackKind, "", InstName(3), InstName(t)))) == Accepted(P7(Left(x, y, t)))
  {
    AttackOne(cat, P6(x, y), Z(true), Woken(x), Woken(y), t);
    hide Step, InstName, Alive;
  }

  lemma EighthStep(cat: Catalog, left: seq<Minion>)
    requires Wake(left) == left
    ensures Try(cat, P7(left), Ends("b")) == Accepted(Final(left))
  {
    PassTurn(cat, P7(left), "e", [STRONG, STRONG]);
    hide Step, Wake;
    assert ["d", "d", "e"] + ["e"] == ["d", "d", "e", "e"];
  }

  lemma CourseSteps(first: string, second: string, t: nat)
    ensures var ms := Course(first, second, t);
            && |ms| == 8 && ms[..0] == [] && ms[..8] == ms
            && ms[0] == Plays("a", first) && ms[1] == Plays("a", second) && ms[2] == Ends("a")
            && ms[3] == Plays("b", STRONG) && ms[4] == Ends("b") && ms[5] == Ends("a")
            && ms[6] == Move("b", Action(AttackKind, "", InstName(3), InstName(t))) && ms[7] == Ends("b")
  {
  }

  lemma FirstHalf(cat: Catalog, first: string, second: string, t: nat)
    requires FreeIn(cat, first) && FreeIn(cat, second) && FreeIn(cat, STRONG)
    requires NewMinion(cat.byId[STRONG], 3) == Z(false)
    ensures Run(cat, P0(first, second), Course(first, second, t)[..4])
         == P4(NewMinion(cat.byId[first], 1), NewMinion(cat.byId[second], 2))
  {
    var x, y := NewMinion(cat.byId[first], 1), NewMinion(cat.byId[second], 2);
    var g, ms := P0(first, second), Course(first, second, t);
    CourseSteps(first, second, t);
    hide Course, Plays, Ends, NewMinion, InstName, Try, P0, P1, P2, P3, P4;
    FirstPlay(cat, first, second);
    RunLast(cat, g, ms, 0, g, P1(second, x));
    SecondPlay(cat, second, x);
    RunLast(cat, g, ms, 1, P1(second, x), P2(x, y));
    ThirdStep(cat, x, y);
    RunLast(cat, g, ms, 2, P2(x, y), P3(x, y));
    FourthStep(cat, x, y);
    RunLast(cat, g, ms, 3, P3(x, y), P4(x, y));
  }

  /** The whole course. */
  lemma CourseLeads(cat: Catalog, first: string, second: string, t: nat)
    requires FreeIn(cat, first) && FreeIn(cat, second) && FreeIn(cat, STRONG) && 1 <= t <= 2
    requires NewMinion(cat.byId[STRONG], 3) == Z(false)
    requires cat.byId[first].atk == 1 && cat.byId[second].atk == 1
    requires var left := Left(NewMinion(cat.byId[first], 1), NewMinion(cat.byId[second], 2), t); Wake(left) == left
    ensures Scene(first, second).Ready()
    ensures Run(cat, Scene(first, second).Start(), Course(first, second, t))
         == Final(Left(NewMinion(cat.byId[first], 1), NewMinion(cat.byId[second], 2), t))
  {
    var x, y := NewMinion(cat.byId[first], 1), NewMinion(cat.byId[second], 2);
    var g, ms, left := P0(first, second), Course(first, second, t), Left(x, y, t);
    Starts(first, second);
    CourseSteps(first, second, t);
    FirstHalf(cat, first, second, t);
    assert x.instId == InstName(1) && y.instId == InstName(2) && x.atk == 1 && y.atk == 1;
    hide Scene, Course, Plays, Ends, NewMinion, InstName, Try, Run, P0, P4, P5, P6, P7, Final, Left, Wake, Opening, FreeIn;
    FifthStep(cat, x, y);
    RunLast(cat, g, ms, 4, P4(x, y), P5(x, y));
    SixthStep(cat, x, y);
    RunLast(cat, g, ms, 5, P5(x, y), P6(x, y));
    SeventhStep(cat, x, y, t);
    RunLast(cat, g, ms, 6, P6(x, y), P7(left));
    EighthStep(cat, left);
    RunLast(cat, g, ms, 7, P7(left), Final(left));
  }

  // ---------------------------------------------------------------- one text

  const NUMBERS := Stats(1, 1, 2, true)

  lemma SmallNumbers()
    ensures IntText(1) == "1" && IntText(2) == "2" && InstName(2) == "m2"
  {
  }

  lemma NumbersWritten(rest: string)
    ensures StatsText(NUMBERS, rest) == ",1,1,2,true" + rest
  {
    SmallNumbers();
    hide IntText;
  }

  lemma IdIsBroken()
    ensures BrokenAt(BROKEN, PLAIN, NUMBERS, ";" + InstName(2) + ",c") && !Readable(BROKEN)
  {
    var tail := ";" + InstName(2) + ",c";
    NumbersWritten(tail);
    SmallNumbers();
    hide StatsText, InstName;
    assert tail == ";m2,c";
    assert PLAIN + (",1,1,2,true" + tail) == BROKEN;
    assert NamesNext(tail, 2, ",c");
    assert BrokenAt(BROKEN, PLAIN, NUMBERS, tail);
  }

  const ONE := [Minion(InstName(1), BROKEN, 1, 2, 2, true)]
  const TWO := [Minion(InstName(1), PLAIN, 1, 1, 2, true), Minion(InstName(2), PLAIN, 1, 2, 2, true)]

  /** One minion with the broken id reads as two plain ones, whatever follows. */
  lemma OneText(rest: string)
    ensures BoardText(ONE, rest) == BoardText(TWO, rest)
  {
    var m, a, b := ONE[0], TWO[0], TWO[1];
    IdIsBroken();
    BrokenText(m, PLAIN, NUMBERS, ";" + InstName(2) + ",c", rest);
    assert a == WithStats(m.instId, PLAIN, NUMBERS) && b == WithStats(InstName(2), ",c"[1..], StatsOf(m)) by {
      assert ",c"[1..] == PLAIN;
    }
    NextText(m, b, 2, ",c", rest);
    TwoText(a, b, rest);
    hide InstName, MinionText, StatsText;
    assert ONE == [m] && TWO == [a, b] && [m][1..] == [];
  }

  lemma CardsListed()
    ensures forall k :: 0 <= k < |CARDS| ==> ValidCard(CARDS[k]) && CATALOG.order[k] == CARDS[k].id
                                             && CATALOG.byId[CARDS[k].id] == CARDS[k]
  {
    DifferentIds();
  }

  lemma CatalogSound()
    ensures CATALOG.Sound()
  {
    DifferentIds();
  }

  /** The cards are valid and have distinct ids, so loading them gives this catalog. */
  lemma CatalogLoads()
    ensures CATALOG.Sound() && |CATALOG.order| == |CARDS|
    ensures forall k :: 0 <= k < |CARDS| ==> ValidCard(CARDS[k]) && !Repeats(CARDS, k)
    ensures forall k :: 0 <= k < |CARDS| ==> CATALOG.order[k] == CARDS[k].id && CATALOG.byId[CARDS[k].id] == CARDS[k]
  {
    DifferentIds();
    CardsListed();
    CatalogSound();
    hide ValidCard, Catalog.Sound;
    forall i, j | 0 <= i < j < |CARDS|
      ensures CARDS[i].id != CARDS[j].id
    {
    }
  }

  lemma PartsLegal(cat: Catalog, a: seq<string>, b: seq<string>, c: seq<string>, d: seq<string>)
    requires |a| == |b| == |c| == |d| == 2
    requires forall id :: multiset(a)[id] + multiset(b)[id] + multiset(c)[id] + multiset(d)[id] <= 2
    requires forall id :: id in a || id in b || id in c || id in d ==> cat.Has(id)
    ensures LegalDeck(cat, a + (b + (c + d)))
  {
    var cards := a + (b + (c + d));
    forall id | id in cards
      ensures cat.Has(id) && multiset(cards)[id] <= 2
    {
      SumOfFour(a, b, c, d, id);
    }
  }

  lemma AtMostTwo(x: string, y: string, d: string, e: string, p: string, id: string)
    requires d != e && d != p && e != p && x != d && x != e && x != p && y != d && y != e && y != p
    ensures multiset([x, y])[id] + multiset([d, d])[id] + multiset([e, e])[id] + multiset([p, p])[id] <= 2
  {
    TwoCopies(x, y, id);
    TwoCopies(d, d, id);
    TwoCopies(e, e, id);
    TwoCopies(p, p, id);
  }

  /** Two cards, and three others twice each. */
  lemma EightLegal(cat: Catalog, x: string, y: string, d: string, e: string, p: string)
    requires cat.Has(x) && cat.Has(y) && cat.Has(d) && cat.Has(e) && cat.Has(p)
    requires d != e && d != p && e != p && x != d && x != e && x != p && y != d && y != e && y != p
    ensures LegalDeck(cat, [x, y, d, d, e, e, p, p])
  {
    hide LegalDeck;
    var a, b, c, f := [x, y], [d, d], [e, e], [p, p];
    forall id
      ensures multiset(a)[id] + multiset(b)[id] + multiset(c)[id] + multiset(f)[id] <= 2
    {
      AtMostTwo(x, y, d, e, p, id);
    }
    PartsLegal(cat, a, b, c, f);
    EightSplit(x, y, d, e, p);
  }

  lemma EightSplit(x: string, y: string, d: string, e: string, p: string)
    ensures [x, y, d, d, e, e, p, p] == [x, y] + ([d, d] + ([e, e] + [p, p]))
  {
  }

  lemma TwoCopies(x: string, y: string, id: string)
    ensures multiset([x, y])[id] <= 2 && (id != x && id != y ==> multiset([x, y])[id] == 0)
  {
    assert [x, y] == [x] + [y];
  }

  lemma SumOfFour(a: seq<string>, b: seq<string>, c: seq<string>, d: seq<string>, id: string)
    ensures multiset(a + (b + (c + d)))[id] == multiset(a)[id] + multiset(b)[id] + multiset(c)[id] + multiset(d)[id]
  {
  }

  /** Their decks are legal. */
  lemma DecksLegal()
    ensures LegalDeck(CATALOG, Scene(BROKEN, WEAK).a.cards) && LegalDeck(CATALOG, Scene(BROKEN, WEAK).b.cards)
    ensures LegalDeck(CATALOG, Scene(PLAIN, PLAIN).a.cards)
  {
    DifferentIds();
    hide LegalDeck;
    EightLegal(CATALOG, BROKEN, WEAK, "d", "e", STRONG);
    EightLegal(CATALOG, STRONG, STRONG, "d", "e", WEAK);
    EightLegal(CATALOG, PLAIN, PLAIN, "d", "e", STRONG);
  }

  lemma DifferentIds()
    ensures |BROKEN| != 1 && PLAIN != WEAK && PLAIN != STRONG && WEAK != STRONG
    ensures "d" != "e" && "d" !in [PLAIN, WEAK, STRONG] && "e" !in [PLAIN, WEAK, STRONG]
  {
  }

  lemma LeftOne()
    requires CATALOG.Has(BROKEN) && CATALOG.byId[BROKEN] == Free(BROKEN, 2)
    requires CATALOG.Has(WEAK) && CATALOG.byId[WEAK] == Free(WEAK, 1)
    ensures Left(NewMinion(CATALOG.byId[BROKEN], 1), NewMinion(CATALOG.byId[WEAK], 2), 2) == ONE && Wake(ONE) == ONE
  {
    var x, y := NewMinion(CATALOG.byId[BROKEN], 1), NewMinion(CATALOG.byId[WEAK], 2);
    AliveTwo(Woken(x), Struck(Woken(y), 1));
    hide Alive, InstName;
  }

  lemma LeftTwo()
    requires CATALOG.Has(PLAIN) && CATALOG.byId[PLAIN] == Free(PLAIN, 2)
    ensures Left(NewMinion(CATALOG.byId[PLAIN], 1), NewMinion(CATALOG.byId[PLAIN], 2), 1) == TWO && Wake(TWO) == TWO
  {
    var x, y := NewMinion(CATALOG.byId[PLAIN], 1), NewMinion(CATALOG.byId[PLAIN], 2);
    AliveTwo(Struck(Woken(x), 1), Woken(y));
    hide Alive, InstName;
  }

  lemma SameFinalText()
    ensures Text(Final(ONE)) == Text(Final(TWO)) && Final(ONE) != Final(TWO)
  {
    var g, h := Final(ONE), Final(TWO);
    OneText(PlayerText(g.p1, ""));
    SameFrontText(g, h);
    assert |ONE| != |TWO|;
  }

  lemma FirstBattle()
    ensures Scene(BROKEN, WEAK).Ready()
    ensures Run(CATALOG, Scene(BROKEN, WEAK).Start(), Course(BROKEN, WEAK, 2)) == Final(ONE)
  {
    DifferentIds();
    assert CATALOG.byId[BROKEN] == Free(BROKEN, 2) && CATALOG.byId[WEAK] == Free(WEAK, 1);
    assert CATALOG.byId[STRONG] == Free(STRONG, 2);
    LeftOne();
    hide Left, Wake, Run, Course, Final, Opening, InstName, Scene;
    CourseLeads(CATALOG, BROKEN, WEAK, 2);
  }

  lemma SecondBattle()
    ensures Scene(PLAIN, PLAIN).Ready()
    ensures Run(CATALOG, Scene(PLAIN, PLAIN).Start(), Course(PLAIN, PLAIN, 1)) == Final(TWO)
  {
    DifferentIds();
    assert CATALOG.byId[PLAIN] == Free(PLAIN, 2) && CATALOG.byId[STRONG] == Free(STRONG, 2);
    LeftTwo();
    hide Left, Wake, Run, Course, Final, Opening, InstName, Scene;
    CourseLeads(CATALOG, PLAIN, PLAIN, 1);
  }

  /** The two battles: different positions, one text. */
  lemma OneTextTwoPositions()
    ensures var s, s' := Scene(BROKEN, WEAK), Scene(PLAIN, PLAIN);
            && CATALOG.Sound() && s.Ready() && s'.Ready() && s.a.id == s'.a.id && s.b == s'.b
            && LegalDeck(CATALOG, s.a.cards) && LegalDeck(CATALOG, s'.a.cards) && LegalDeck(CATALOG, s.b.cards)
            && var g, h := Run(CATALOG, s.Start(), Course(BROKEN, WEAK, 2)), Run(CATALOG, s'.Start(), Course(PLAIN, PLAIN, 1));
               g != h && Text(g) == Text(h)
  {
    hide Run, Text, Course, Final, Opening, InstName, LegalDeck, Catalog.Sound, Setup.Ready;
    CatalogLoads();
    DecksLegal();
    SameFinalText();
    FirstBattle();
    SecondBattle();
  }
}
