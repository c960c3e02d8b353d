/**
 The hashed text over whole battles (internal/battle/checksum.go): between which
 battles it tells any two reachable positions apart.
 */
module ChecksumRuns {
  import opened Deck
  import opened Battle
  import opened BattleRuns
  import opened Checksum

  // ---------------------------------------------------------------- whole battles

  ghost predicate AllReadable(xs: seq<string>) {
    forall k :: 0 <= k < |xs| ==> Readable(xs[k])
  }

  predicate AllFrom(xs: seq<string>, names: set<string>) {
    forall k :: 0 <= k < |xs| ==> xs[k] in names
  }

  ghost predicate BoardFrom(b: seq<Minion>, names: set<string>) {
    forall k :: 0 <= k < |b| ==> Numbered(b[k].instId) && b[k].cardId in names
  }

  ghost predicate PlayerFrom(p: PlayerState, names: set<string>) {
    AllFrom(p.deck, names) && AllFrom(p.hand, names) && BoardFrom(p.board, names)
  }

  /** Every card id in the position is one of `names`. */
  ghost predicate GameFrom(g: Game, names: set<string>) {
    PlayerFrom(g.p0, names) && PlayerFrom(g.p1, names)
  }

  lemma AliveFrom(b: seq<Minion>, names: set<string>)
    requires BoardFrom(b, names)
    ensures BoardFrom(Alive(b), names)
  {
    AliveFacts(b);
    hide Numbered;
  }

  lemma {:induction false} HandFrom(s: seq<string>, x: string, names: set<string>)
    requires AllFrom(s, names)
    ensures AllFrom(WithoutFirst(s, x), names)
  {
    if s != [] && s[0] != x {
      HandFrom(s[1..], x, names);
    }
  }

  lemma RefreshedFrom(p: PlayerState, names: set<string>)
    requires PlayerFrom(p, names)
    ensures PlayerFrom(Refreshed(p), names)
  {
    hide Numbered;
  }

  lemma EndTurnFrom(g: Game, names: set<string>)
    requires GameFrom(g, names)
    ensures GameFrom(EndTurn(g, g.turn), names)
  {
    hide PlayerFrom;
    RefreshedFrom(g.At(1 - g.turn), names);
    EndTurnShape(g);
    hide Refreshed, EndTurn;
  }

  lemma PlayCardFrom(cat: Catalog, g: Game, card: string, names: set<string>)
    requires cat.Sound() && GameFrom(g, names) && PlayCard(cat, g, g.turn, card).Accepted?
    ensures GameFrom(PlayCard(cat, g, g.turn, card).game, names)
  {
    var h, p := PlayCard(cat, g, g.turn, card).game, g.At(g.turn);
    hide Numbered;
    PlayCardShape(cat, g, card);
    HandFrom(p.hand, card, names);
    hide PlayCard;
    NewMinionFrom(cat, p.hand, card, h.nextInst, names);
  }

  lemma NewMinionFrom(cat: Catalog, hand: seq<string>, card: string, n: nat, names: set<string>)
    requires cat.Sound() && AllFrom(hand, names) && card in hand && cat.Has(card)
    ensures Numbered(NewMinion(cat.byId[card], n).instId) && NewMinion(cat.byId[card], n).cardId in names
  {
  }

  lemma ExchangeFrom(g: Game, i: Side, k: int, t: int, names: set<string>)
    requires 0 <= k < |g.At(i).board| && -1 <= t < |g.At(1 - i).board|
    requires BoardFrom(g.At(i).board, names) && BoardFrom(g.At(1 - i).board, names)
    ensures var x := Exchange(g, i, k, t); BoardFrom(x.At(i).board, names) && BoardFrom(x.At(1 - i).board, names)
  {
    hide Numbered;
  }

  lemma BlowFrom(g: Game, k: int, t: int, names: set<string>)
    requires 0 <= k < |g.At(g.turn).board| && -1 <= t < |g.At(1 - g.turn).board| && GameFrom(g, names)
    ensures GameFrom(Blow(g, g.turn, k, t), names)
  {
    hide AllFrom, BoardFrom;
    var i, x := g.turn, Exchange(g, g.turn, k, t);
    ExchangeFrom(g, i, k, t, names);
    BlowShape(g, i, k, t);
    hide Exchange, Blow;
    AliveFrom(x.At(i).board, names);
    AliveFrom(x.At(1 - i).board, names);
  }

  lemma StepFrom(cat: Catalog, g: Game, m: Move, names: set<string>)
    requires cat.Sound() && GameFrom(g, names)
    ensures GameFrom(BattleRuns.After(cat, g, m), names)
  {
    hide GameFrom;
    if Try(cat, g, m).Accepted? {
      match m.action.kind
      case PlayCardKind =>
        PlayCardFrom(cat, g, m.action.cardId, names);
      case AttackKind =>
        var k, t := AttackIsBlow(g, m.action.instId, m.action.target);
        BlowFrom(g, k, t, names);
      case EndTurnKind =>
        EndTurnFrom(g, names);
    }
  }

  lemma ShuffledFrom(d: seq<string>, swaps: seq<(nat, nat)>, names: set<string>)
    requires AllFrom(d, names)
    ensures AllFrom(Shuffled(d, swaps), names)
  {
    ShuffledPermutes(d, swaps);
    forall k | 0 <= k < |Shuffled(d, swaps)|
      ensures Shuffled(d, swaps)[k] in names
    {
      assert Shuffled(d, swaps)[k] in multiset(Shuffled(d, swaps));
    }
  }

  /** The card ids of the two opening decks. */
  function DeckNames(s: Setup): set<string> {
    (set x | x in s.a.cards) + (set x | x in s.b.cards)
  }

  /** No card id enters a battle but from the opening decks. */
  lemma {:induction false} RunFrom(cat: Catalog, s: Setup, ms: seq<Move>)
    requires cat.Sound() && s.Ready()
    ensures GameFrom(Run(cat, s.Start(), ms), DeckNames(s))
  {
    if ms == [] {
      ShuffledFrom(s.a.cards, s.rng(s.seed, [|s.a.cards|]), DeckNames(s));
      ShuffledFrom(s.b.cards, s.rng(s.seed, [|s.a.cards|, |s.b.cards|]), DeckNames(s));
      hide Shuffled, DeckNames;
    } else {
      hide Step, GameFrom, DeckNames;
      RunFrom(cat, s, ms[..|ms| - 1]);
      StepFrom(cat, Run(cat, s.Start(), ms[..|ms| - 1]), ms[|ms| - 1], DeckNames(s));
    }
  }

  lemma ReadableFrom(g: Game, s: Setup)
    requires GameFrom(g, DeckNames(s)) && AllReadable(s.a.cards) && AllReadable(s.b.cards)
    ensures BoardReadable(g.p0.board) && BoardReadable(g.p1.board)
  {
    hide Readable, Numbered;
  }

  // ---------------------------------------------------------------- bars

  function Bars(s: string): nat {
    multiset(s)['|']
  }

  lemma BarsAdd(a: string, b: string)
    ensures Bars(a + b) == Bars(a) + Bars(b)
  {
  }

  lemma NoBars(s: string)
    requires '|' !in s
    ensures Bars(s) == 0
  {
  }

  lemma FieldBars(s: string, sep: char, rest: string)
    ensures Bars(Field(s, sep, rest)) == Bars(s) + (if sep == '|' then 1 else 0) + Bars(rest)
  {
    BarsAdd(s + [sep], rest);
    BarsAdd(s, [sep]);
    assert [sep] == [sep][..0] + [sep];
  }

  lemma IntBars(n: int, sep: char, rest: string)
    ensures Bars(Field(IntText(n), sep, rest)) == (if sep == '|' then 1 else 0) + Bars(rest)
  {
    IntTextPlain(n);
    hide IntText, Field;
    NoBars(IntText(n));
    FieldBars(IntText(n), sep, rest);
  }

  predicate BarFree(names: set<string>) {
    forall x :: x in names ==> '|' !in x
  }

  lemma {:induction false} QuotedTailBars(s: string, rest: string)
    requires '|' !in s
    ensures Bars(QuotedTail(s, rest)) == Bars(rest)
  {
    if s == "" {
      BarsAdd("\"", rest);
    } else {
      assert s[0] in s;
      QuotedTailBars(s[1..], rest);
      var more := QuotedTail(s[1..], rest);
      if s[0] == '"' || s[0] == '\\' {
        BarsAdd("\\" + [s[0]], more);
        NoBars("\\" + [s[0]]);
      } else {
        BarsAdd([s[0]], more);
        NoBars([s[0]]);
      }
    }
  }

  lemma QuotedBars(s: string, rest: string)
    requires '|' !in s
    ensures Bars(Quoted(s, rest)) == Bars(rest)
  {
    QuotedTailBars(s, rest);
    BarsAdd("\"", QuotedTail(s, rest));
    hide QuotedTail;
  }

  lemma {:induction false} ListTailBars(xs: seq<string>, rest: string, names: set<string>)
    requires AllFrom(xs, names) && BarFree(names)
    ensures Bars(ListTail(xs, rest)) == Bars(rest)
  {
    hide Quoted;
    if xs == [] {
      BarsAdd("]", rest);
    } else {
      ListTailBars(xs[1..], rest, names);
      QuotedBars(xs[0], ListTail(xs[1..], rest));
      BarsAdd(" ", Quoted(xs[0], ListTail(xs[1..], rest)));
    }
  }

  lemma ListBars(xs: seq<string>, rest: string, names: set<string>)
    requires AllFrom(xs, names) && BarFree(names)
    ensures Bars(ListText(xs, rest)) == Bars(rest)
  {
    hide Quoted, ListTail;
    if xs == [] {
      BarsAdd("[]", rest);
    } else {
      ListTailBars(xs[1..], rest, names);
      QuotedBars(xs[0], ListTail(xs[1..], rest));
      BarsAdd("[", Quoted(xs[0], ListTail(xs[1..], rest)));
    }
  }

  lemma StatsBars(s: Stats, rest: string)
    ensures Bars(StatsText(s, rest)) == Bars(rest)
  {
    hide IntText, Field;
    var t3 := BoolText(s.canAttack) + rest;
    var t2 := Field(IntText(s.maxHp), ',', t3);
    var t1 := Field(IntText(s.hp), ',', t2);
    BarsAdd(BoolText(s.canAttack), rest);
    NoBars(BoolText(s.canAttack));
    IntBars(s.maxHp, ',', t3);
    IntBars(s.hp, ',', t2);
    IntBars(s.atk, ',', t1);
    BarsAdd(",", Field(IntText(s.atk), ',', t1));
  }

  lemma MinionBars(m: Minion, rest: string)
    requires Numbered(m.instId) && '|' !in m.cardId
    ensures Bars(MinionText(m, rest)) == Bars(rest)
  {
    var n :| m.instId == InstName(n);
    DecimalDigits(n);
    NoBars(m.instId);
    NoBars(m.cardId);
    hide StatsText, Field, InstName;
    var x := m.cardId + StatsText(StatsOf(m), rest);
    StatsBars(StatsOf(m), rest);
    BarsAdd(m.cardId, StatsText(StatsOf(m), rest));
    FieldBars(m.instId, ',', x);
    BarsAdd(";", Field(m.instId, ',', x));
  }

  lemma {:induction false} BoardBars(b: seq<Minion>, rest: string, names: set<string>)
    requires BoardFrom(b, names) && BarFree(names)
    ensures Bars(BoardText(b, rest)) == Bars(rest)
  {
    hide MinionText, Numbered, Bars;
    if b != [] {
      BoardBars(b[1..], rest, names);
      MinionBars(b[0], BoardText(b[1..], rest));
    }
  }

  lemma PlayerBars(p: PlayerState, rest: string, names: set<string>)
    requires PlayerFrom(p, names) && BarFree(names)
    ensures Bars(PlayerText(p, rest)) == 1 + Bars(p.id) + Bars(rest)
  {
    hide Field, IntText, ListText, BoardText, AllFrom, BoardFrom, BarFree;
    var x7 := BoardText(p.board, rest);
    var x6 := ListText(p.deck, x7);
    var x5 := ListText(p.hand, "," + x6);
    var x4 := Field(IntText(p.fatigue), ',', x5);
    var x3 := Field(IntText(p.maxMana), ',', x4);
    var x2 := Field(IntText(p.mana), ',', x3);
    var x1 := Field(IntText(p.hp), ',', x2);
    BoardBars(p.board, rest, names);
    ListBars(p.deck, x7, names);
    BarsAdd(",", x6);
    ListBars(p.hand, "," + x6, names);
    IntBars(p.fatigue, ',', x5);
    IntBars(p.maxMana, ',', x4);
    IntBars(p.mana, ',', x3);
    IntBars(p.hp, ',', x2);
    FieldBars(p.id, ',', x1);
    BarsAdd("|", Field(p.id, ',', x1));
  }

  /** Without bars in card ids, a text has six bars and those of the three player ids in it. */
  lemma TextBars(g: Game, names: set<string>)
    requires GameFrom(g, names) && BarFree(names)
    ensures Bars(Text(g)) == 6 + Bars(g.winner) + Bars(g.p0.id) + Bars(g.p1.id)
  {
    hide Field, IntText, PlayerText, BarFree, PlayerFrom;
    var p1 := PlayerText(g.p1, "");
    var p0 := PlayerText(g.p0, p1);
    PlayerBars(g.p1, "", names);
    PlayerBars(g.p0, p1, names);
    IntTextPlain(g.nextInst);
    NoBars(IntText(g.nextInst));
    BarsAdd(IntText(g.nextInst), p0);
    var x3 := Field(g.winner, '|', IntText(g.nextInst) + p0);
    FieldBars(g.winner, '|', IntText(g.nextInst) + p0);
    var x2 := Field(BoolText(g.over), '|', x3);
    FieldBars(BoolText(g.over), '|', x3);
    NoBars(BoolText(g.over));
    IntBars(g.round, '|', x2);
    IntBars(g.turn, '|', Field(IntText(g.round), '|', x2));
  }

  /** Ids with equally many bars end where their field ends. */
  lemma SameBarsApart(x: string, y: string)
    requires Bars(x) == Bars(y)
    ensures Apart(x, y, '|')
  {
    if x + "|" <= y {
      LongerHasMore(x, y);
    }
    if y + "|" <= x {
      LongerHasMore(y, x);
    }
  }

  lemma LongerHasMore(x: string, y: string)
    requires x + "|" <= y
    ensures Bars(x) < Bars(y)
  {
    BarsAdd(x + "|", y[|x| + 1..]);
    BarsAdd(x, "|");
    assert y == (x + "|") + y[|x| + 1..];
  }

  lemma WinnersApart(g: Game, h: Game, names: set<string>)
    requires GameFrom(g, names) && GameFrom(h, names) && BarFree(names)
    requires g.p0.id == h.p0.id && g.p1.id == h.p1.id && Text(g) == Text(h)
    ensures Apart(g.winner, h.winner, '|')
  {
    hide Text, GameFrom, BarFree, Bars, Apart;
    TextBars(g, names);
    TextBars(h, names);
    SameBarsApart(g.winner, h.winner);
  }

  /** No player id begins with another one and the separator that would end it. */
  predicate SeatsApart(s: Setup, s': Setup) {
    && Apart(s.a.id, s'.a.id, ',') && Apart(s.b.id, s'.b.id, ',')
    && Apart(s.a.id, s'.a.id, '|') && Apart(s.a.id, s'.b.id, '|')
    && Apart(s.b.id, s'.a.id, '|') && Apart(s.b.id, s'.b.id, '|')
  }

  /** The same players, whatever their ids, with card ids without bars. */
  predicate SamePlayers(s: Setup, s': Setup) {
    s.a.id == s'.a.id && s.b.id == s'.b.id && BarFree(DeckNames(s) + DeckNames(s'))
  }

  lemma RunWinner(cat: Catalog, s: Setup, ms: seq<Move>)
    requires cat.Sound() && s.Ready()
    ensures var g := Run(cat, s.Start(), ms);
            && g.p0.id == s.a.id && g.p1.id == s.b.id
            && if g.over then g.winner == s.a.id || g.winner == s.b.id else g.winner == ""
  {
    InvRun(cat, s, ms);
    hide Run, IdsUnique, PlayerSound;
  }

  /** What can be read of a text before the winner. */
  lemma OverReads(g: Game, h: Game)
    requires Text(g) == Text(h)
    ensures g.over == h.over
  {
    hide Field, IntText, BoolText, PlayerText;
    var x3 := Field(g.winner, '|', IntText(g.nextInst) + PlayerText(g.p0, PlayerText(g.p1, "")));
    var y3 := Field(h.winner, '|', IntText(h.nextInst) + PlayerText(h.p0, PlayerText(h.p1, "")));
    var x2, y2 := Field(BoolText(g.over), '|', x3), Field(BoolText(h.over), '|', y3);
    var x1, y1 := Field(IntText(g.round), '|', x2), Field(IntText(h.round), '|', y2);
    IntReads(g.turn, h.turn, '|', x1, y1);
    IntReads(g.round, h.round, '|', x2, y2);
    FlagReads(g.over, h.over, x3, y3);
  }

  lemma FromMore(g: Game, names: set<string>, more: set<string>)
    requires GameFrom(g, names) && names <= more
    ensures GameFrom(g, more)
  {
    hide Numbered;
  }

  lemma RunIdsApart(cat: Catalog, s: Setup, ms: seq<Move>, s': Setup, ms': seq<Move>)
    requires cat.Sound() && s.Ready() && s'.Ready() && (SeatsApart(s, s') || SamePlayers(s, s'))
    requires Text(Run(cat, s.Start(), ms)) == Text(Run(cat, s'.Start(), ms'))
    ensures IdsApart(Run(cat, s.Start(), ms), Run(cat, s'.Start(), ms'))
  {
    hide Text, Opening, Run, BarFree, DeckNames, GameFrom;
    RunWinner(cat, s, ms);
    RunWinner(cat, s', ms');
    var g, h := Run(cat, s.Start(), ms), Run(cat, s'.Start(), ms');
    OverReads(g, h);
    if SamePlayers(s, s') {
      var names := DeckNames(s) + DeckNames(s');
      RunFrom(cat, s, ms);
      RunFrom(cat, s', ms');
      FromMore(g, DeckNames(s), names);
      FromMore(h, DeckNames(s'), names);
      WinnersApart(g, h, names);
    }
  }

  /**
   In battles whose card ids are readable, between the same players with no bar in a
   card id, or between any players whose ids can be told apart: two reachable
   positions have the same text exactly when they are the same.
   */
  lemma SameTextSamePosition(cat: Catalog, s: Setup, ms: seq<Move>, s': Setup, ms': seq<Move>)
    requires cat.Sound() && s.Ready() && s'.Ready() && (SeatsApart(s, s') || SamePlayers(s, s'))
    requires AllReadable(s.a.cards) && AllReadable(s.b.cards) && AllReadable(s'.a.cards) && AllReadable(s'.b.cards)
    ensures var g, h := Run(cat, s.Start(), ms), Run(cat, s'.Start(), ms'); Text(g) == Text(h) <==> g == h
  {
    hide Text, Opening, AllReadable, BoardReadable, Run, IdsApart, SeatsApart, SamePlayers, DeckNames, GameFrom;
    var g, h := Run(cat, s.Start(), ms), Run(cat, s'.Start(), ms');
    if Text(g) == Text(h) {
      RunFrom(cat, s, ms);
      RunFrom(cat, s', ms');
      ReadableFrom(g, s);
      ReadableFrom(h, s');
      RunIdsApart(cat, s, ms, s', ms');
      TextDetermines(g, h);
    }
  }
}
