/**
 Two ends of a battle with one text, which does not even tell who won
 (internal/battle/checksum.go). All card ids are readable; one player id begins
 with the other one and a bar, and some card ids contain bars.
 */
module ChecksumWinner {
  import opened Battle
  import opened Checksum
  import opened ChecksumClash

  // ---------------------------------------------------------------- the ids

  /** A player's section after the id. */
  function Body(hp: int, mana: int, fatigue: int, hand: seq<string>, rest: string): string {
    Field(IntText(hp), ',', Field(IntText(mana), ',', Field(IntText(mana), ',', Field(IntText(fatigue), ',',
      ListText(hand, "," + ListText([], rest))))))
  }

  const OTHERS := ["q", "v", "v", "u", "u", "w", "w"]
  const REST := ["w", "v", "v", "u", "u"]
  const BIG := Stats(20, 1, 1, false)
  const SMALL := Stats(0, 1, 1, false)

  /** The winner's field and the first player's section, up to the card id, when the first player has won. */
  function Beginning(): string {
    "a|" + IntText(3) + "|a," + Body(19, 6, 1, OTHERS, "") + (";" + InstName(1) + ",")
  }

  /** The second player's id. */
  function Other(): string {
    Beginning() + "x"
  }

  /** The first player's section when the second player has won, and the second player's up to the card id. */
  function LostTo(): string {
    "|" + IntText(3) + "|a," + Body(0, 6, 1, OTHERS, "")
  }

  function Winning(): string {
    "|" + Other() + "," + Body(20, 5, 0, ["y"] + REST, "") + (";" + InstName(3))
  }

  /** The second player's section, up to the numbers of the last minion, when the first player has won. */
  function Beaten(): string {
    "|" + Other() + "," + Body(0, 5, 0, ["k"] + REST, "") + (";" + InstName(3)) + ",y"
  }

  /** Two card ids that contain bars. */
  function Lead(): string {
    "x" + LostTo() + Winning()
  }

  function Trail(): string {
    StatsText(BIG, "")[1..] + Beaten()
  }

  // ---------------------------------------------------------------- one text

  lemma BodyAppends(hp: int, mana: int, fatigue: int, hand: seq<string>, rest: string)
    ensures Body(hp, mana, fatigue, hand, "") + rest == Body(hp, mana, fatigue, hand, rest)
  {
    hide IntText, ListText;
    ListAppends([], rest);
    var decks := "," + ListText([], "");
    ListAppends(hand, decks);
    ListAppends(hand, decks + rest);
    assert decks + rest == "," + ListText([], rest);
    Glue3(ListText(hand, ""), decks, rest);
  }

  function Seated(id: string, hp: int, mana: int, fatigue: int, hand: seq<string>, board: seq<Minion>): PlayerState {
    PlayerState(id, hp, mana, mana, [], hand, board, fatigue)
  }

  lemma SeatedText(id: string, hp: int, mana: int, fatigue: int, hand: seq<string>, board: seq<Minion>, rest: string)
    ensures PlayerText(Seated(id, hp, mana, fatigue, hand, board), rest)
         == "|" + (id + "," + (Body(hp, mana, fatigue, hand, "") + BoardText(board, rest)))
  {
    BodyAppends(hp, mana, fatigue, hand, BoardText(board, rest));
    hide IntText, ListText, BoardText;
  }

  lemma OneMinionText(m: Minion, rest: string)
    ensures BoardText([m], rest) == (";" + m.instId + ",") + (m.cardId + (StatsText(StatsOf(m), "") + rest))
  {
    StatsAppends(StatsOf(m), rest);
    hide StatsText;
    assert [m][1..] == [];
    assert BoardText([m], rest) == MinionText(m, rest);
  }

  function Leader(): Minion {
    WithStats(InstName(1), Lead(), BIG)
  }

  function Trailer(): Minion {
    WithStats(InstName(3), Trail(), SMALL)
  }

  function Young(): Minion {
    WithStats(InstName(3), "y", SMALL)
  }

  function Ended(winner: string, p: PlayerState, q: PlayerState): Game {
    Game(p, q, 0, 11, true, winner, 3)
  }

  function FirstWins(): Game {
    Ended("a", Seated("a", 19, 6, 1, OTHERS, [Leader()]), Seated(Other(), 0, 5, 0, ["k"] + REST, [Young()]))
  }

  function SecondWins(): Game {
    Ended(Other(), Seated("a", 0, 6, 1, OTHERS, []), Seated(Other(), 20, 5, 0, ["y"] + REST, [Trailer()]))
  }

  lemma GlueFirst(n: string, b: string, m: string, y: string)
    ensures Field("a", '|', n + ("|" + ("a" + "," + (b + (m + y))))) == ("a|" + n + "|a," + b + m) + y
  {
  }

  lemma GlueSecond(s: string, n: string, b: string, q: string)
    ensures Field(s, '|', n + ("|" + ("a" + "," + (b + q)))) == s + (("|" + n + "|a," + b) + q)
  {
  }

  lemma GlueSection(s: string, b: string, i: string, c: string, rest: string)
    ensures "|" + (s + "," + (b + ((i + ",") + (c + rest)))) == ("|" + s + "," + b + i) + ("," + (c + rest))
  {
  }

  lemma GlueAll(p: string, lost: string, won: string, s: string, beaten: string, z: string)
    ensures p + (("x" + lost + won) + (("," + s) + (beaten + z)))
         == (p + "x") + (lost + (won + ("," + ((s + beaten) + z))))
  {
    Glue3("x" + lost, won, ("," + s) + (beaten + z));
    Glue3("x", lost, won + (("," + s) + (beaten + z)));
    Glue3(",", s, beaten + z);
    Glue3(s, beaten, z);
    Glue3(p, "x", lost + (won + ("," + (s + (beaten + z)))));
  }

  lemma BeatenText()
    ensures PlayerText(FirstWins().p1, "") == Beaten() + StatsText(SMALL, "")
  {
    var z := StatsText(SMALL, "");
    SeatedText(Other(), 0, 5, 0, ["k"] + REST, [Young()], "");
    OneMinionText(Young(), "");
    assert StatsOf(Young()) == SMALL;
    hide StatsText, Other, Body, BoardText, InstName, PlayerText;
    var i, b := ";" + InstName(3), Body(0, 5, 0, ["k"] + REST, "");
    assert z + "" == z;
    GlueSection(Other(), b, i, "y", z);
    Glue3("|" + Other() + "," + b + i, ",y", z);
    assert "," + ("y" + z) == ",y" + z;
  }

  lemma WinningText()
    ensures PlayerText(SecondWins().p1, "") == Winning() + ("," + (Trail() + StatsText(SMALL, "")))
  {
    var z := StatsText(SMALL, "");
    SeatedText(Other(), 20, 5, 0, ["y"] + REST, [Trailer()], "");
    OneMinionText(Trailer(), "");
    assert StatsOf(Trailer()) == SMALL;
    hide StatsText, Other, Trail, Body, BoardText, InstName, PlayerText;
    assert z + "" == z;
    GlueSection(Other(), Body(20, 5, 0, ["y"] + REST, ""), ";" + InstName(3), Trail(), z);
  }

  lemma FirstTail()
    ensures Field("a", '|', IntText(3) + PlayerText(FirstWins().p0, PlayerText(FirstWins().p1, "")))
         == Beginning() + (Lead() + (StatsText(BIG, "") + (Beaten() + StatsText(SMALL, ""))))
  {
    var q := Beaten() + StatsText(SMALL, "");
    BeatenText();
    SeatedText("a", 19, 6, 1, OTHERS, [Leader()], q);
    OneMinionText(Leader(), q);
    assert StatsOf(Leader()) == BIG;
    hide StatsText, Lead, Beaten, Body, BoardText, InstName, PlayerText, IntText, Field;
    GlueFirst(IntText(3), Body(19, 6, 1, OTHERS, ""), ";" + InstName(1) + ",", Lead() + (StatsText(BIG, "") + q));
  }

  lemma SecondTail()
    ensures Field(Other(), '|', IntText(3) + PlayerText(SecondWins().p0, PlayerText(SecondWins().p1, "")))
         == Other() + (LostTo() + (Winning() + ("," + (Trail() + StatsText(SMALL, "")))))
  {
    var q := Winning() + ("," + (Trail() + StatsText(SMALL, "")));
    WinningText();
    SeatedText("a", 0, 6, 1, OTHERS, [], q);
    assert BoardText([], q) == q;
    hide StatsText, Trail, Winning, Other, Body, BoardText, PlayerText, IntText, Field;
    GlueSecond(Other(), IntText(3), Body(0, 6, 1, OTHERS, ""), q);
  }

  /** The two endings read the same. */
  lemma OneEndText()
    ensures Text(FirstWins()) == Text(SecondWins()) && FirstWins() != SecondWins()
  {
    FirstTail();
    SecondTail();
    var s, z := StatsText(BIG, ""), StatsText(SMALL, "");
    StatsPlain(BIG);
    assert s == "," + s[1..];
    assert FirstWins().p0.hp != SecondWins().p0.hp;
    hide StatsText, Beginning, LostTo, Winning, Beaten, PlayerText, IntText;
    GlueAll(Beginning(), LostTo(), Winning(), s[1..], Beaten(), z);
    hide Field;
  }

  // ---------------------------------------------------------------- the card ids are readable

  /** No letter of "true" or "false" that would end the numbers of a minion. */
  predicate Quiet(s: string) {
    't' !in s && 'f' !in s
  }

  lemma StatsLoud(s: Stats)
    ensures !Quiet(StatsText(s, ""))
  {
    var t3 := BoolText(s.canAttack) + "";
    var t2 := Field(IntText(s.maxHp), ',', t3);
    var t1 := Field(IntText(s.hp), ',', t2);
    assert t3[0] == BoolText(s.canAttack)[0];
    hide IntText;
    assert t2[|IntText(s.maxHp)| + 1] == t3[0];
    assert t1[|IntText(s.hp)| + 1 + |IntText(s.maxHp)| + 1] == t3[0];
    assert t3[0] in t1;
    assert t3[0] in Field(IntText(s.atk), ',', t1);
  }

  lemma LoudInside(x: string, y: string, z: string)
    requires !Quiet(y)
    ensures !Quiet(x + (y + z))
  {
    var k :| 0 <= k < |y| && (y[k] == 't' || y[k] == 'f');
    assert (x + (y + z))[|x| + k] == y[k];
  }

  lemma QuietReadable(id: string)
    requires Quiet(id)
    ensures Readable(id)
  {
    forall x, s: Stats, tail
      ensures !BrokenAt(id, x, s, tail)
    {
      if BrokenAt(id, x, s, tail) {
        BrokenParts(id, x, s, tail);
        StatsLoud(s);
        LoudInside(x, StatsText(s, ""), tail);
      }
    }
  }

  lemma QuietInt(n: int)
    ensures Quiet(IntText(n))
  {
    DecimalDigits(if n < 0 then -n else n);
  }

  lemma QuietField(n: int, rest: string)
    requires Quiet(rest)
    ensures Quiet(Field(IntText(n), ',', rest))
  {
    QuietInt(n);
    hide IntText;
  }

  lemma {:induction false} QuietTail(s: string, rest: string)
    requires Quiet(s) && Quiet(rest)
    ensures Quiet(QuotedTail(s, rest))
  {
    if s != "" {
      QuietTail(s[1..], rest);
    }
  }

  lemma {:induction false} QuietListTail(xs: seq<string>, rest: string)
    requires (forall k :: 0 <= k < |xs| ==> Quiet(xs[k])) && Quiet(rest)
    ensures Quiet(ListTail(xs, rest))
  {
    if xs != [] {
      QuietListTail(xs[1..], rest);
      QuietTail(xs[0], ListTail(xs[1..], rest));
    }
  }

  lemma QuietList(xs: seq<string>, rest: string)
    requires (forall k :: 0 <= k < |xs| ==> Quiet(xs[k])) && Quiet(rest)
    ensures Quiet(ListText(xs, rest))
  {
    hide ListTail;
    if xs != [] {
      QuietListTail(xs[1..], rest);
      QuietTail(xs[0], ListTail(xs[1..], rest));
    }
  }

  lemma QuietBody(hp: int, mana: int, fatigue: int, hand: seq<string>)
    requires forall k :: 0 <= k < |hand| ==> Quiet(hand[k])
    ensures Quiet(Body(hp, mana, fatigue, hand, ""))
  {
    hide IntText, Field, ListText, Quiet;
    assert Quiet("") && Quiet("," + ListText([], "")) by { QuietDecks(); }
    QuietList(hand, "," + ListText([], ""));
    QuietField(fatigue, ListText(hand, "," + ListText([], "")));
    QuietField(mana, Field(IntText(fatigue), ',', ListText(hand, "," + ListText([], ""))));
    QuietField(mana, Field(IntText(mana), ',', Field(IntText(fatigue), ',', ListText(hand, "," + ListText([], "")))));
    QuietField(hp, Field(IntText(mana), ',', Field(IntText(mana), ',', Field(IntText(fatigue), ',',
                     ListText(hand, "," + ListText([], ""))))));
  }

  lemma QuietDecks()
    ensures Quiet("") && Quiet("," + ListText([], ""))
  {
  }

  lemma QuietJoin(a: string, b: string)
    requires Quiet(a) && Quiet(b)
    ensures Quiet(a + b)
  {
  }

  lemma QuietParts()
    ensures Quiet(Body(19, 6, 1, OTHERS, "")) && Quiet(Body(0, 6, 1, OTHERS, ""))
    ensures Quiet(Body(20, 5, 0, ["y"] + REST, "")) && Quiet(Body(0, 5, 0, ["k"] + REST, ""))
  {
    hide Body;
    QuietBody(19, 6, 1, OTHERS);
    QuietBody(0, 6, 1, OTHERS);
    QuietBody(20, 5, 0, ["y"] + REST);
    QuietBody(0, 5, 0, ["k"] + REST);
  }

  lemma QuietNames()
    ensures Quiet(IntText(3)) && Quiet(InstName(1)) && Quiet(InstName(3))
  {
    QuietInt(3);
    DecimalDigits(1);
    DecimalDigits(3);
    hide IntText;
  }

  lemma QuietOther()
    ensures Quiet(Other())
  {
    QuietParts();
    QuietNames();
    hide Body, IntText, InstName;
    assert Quiet(Beginning());
  }

  lemma QuietIds()
    ensures Quiet(Other()) && Quiet(Lead()) && Quiet(Beaten())
  {
    QuietParts();
    QuietNames();
    QuietOther();
    hide Body, IntText, InstName, Other;
    assert Quiet(LostTo()) && Quiet(Winning()) && Quiet(Beaten());
    hide LostTo, Winning, Beaten;
  }

  function Commas(s: string): nat {
    multiset(s)[',']
  }

  lemma CommasAdd(a: string, b: string)
    ensures Commas(a + b) == Commas(a) + Commas(b)
  {
  }

  /** The numbers of a minion, without the flag. */
  function Counts(s: Stats): string {
    "," + Field(IntText(s.atk), ',', Field(IntText(s.hp), ',', Field(IntText(s.maxHp), ',', "")))
  }

  lemma FieldCommas(n: int, rest: string)
    ensures Commas(Field(IntText(n), ',', rest)) == 1 + Commas(rest)
  {
    IntTextPlain(n);
    hide IntText;
    CommasAdd(IntText(n) + [','], rest);
    CommasAdd(IntText(n), [',']);
  }

  lemma CountsCommas(s: Stats)
    ensures Commas(Counts(s)) == 4
  {
    var t2 := Field(IntText(s.maxHp), ',', "");
    var t1 := Field(IntText(s.hp), ',', t2);
    hide IntText, Field, Commas;
    FieldCommas(s.maxHp, "");
    FieldCommas(s.hp, t2);
    FieldCommas(s.atk, t1);
    CommasAdd(",", Field(IntText(s.atk), ',', t1));
    OneComma();
  }

  lemma OneComma()
    ensures Commas(",") == 1 && Commas("") == 0
  {
  }

  lemma CountsQuiet(s: Stats)
    ensures Quiet(Counts(s))
  {
    var t2 := Field(IntText(s.maxHp), ',', "");
    var t1 := Field(IntText(s.hp), ',', t2);
    QuietField(s.maxHp, "");
    QuietField(s.hp, t2);
    QuietField(s.atk, t1);
    assert Quiet(",");
    hide IntText, Field, Quiet;
    QuietJoin(",", Field(IntText(s.atk), ',', t1));
  }

  lemma CountsThenFlag(s: Stats)
    ensures StatsText(s, "") == Counts(s) + BoolText(s.canAttack)
  {
    hide IntText, BoolText;
    assert BoolText(s.canAttack) + "" == BoolText(s.canAttack);
  }

  /** The one flag in the second card id has too few numbers before it. */
  lemma TrailNotBroken(front: string, back: string, x: string, s: Stats, tail: string)
    requires Quiet(front) && Quiet(back) && Commas(front) == 3
    ensures !BrokenAt(front + ("false" + back), x, s, tail)
  {
    var id := front + ("false" + back);
    if BrokenAt(id, x, s, tail) {
      BrokenParts(id, x, s, tail);
      CountsThenFlag(s);
      CountsCommas(s);
      hide StatsText, Counts, BrokenAt, Quiet, Commas;
      FirstFlag(front, back, x, Counts(s), BoolText(s.canAttack), tail);
      CommasAdd(x, Counts(s));
    }
  }

  lemma WithoutComma(s: string)
    requires s != "" && s[0] == ','
    ensures s == "," + s[1..] && Commas(s) == 1 + Commas(s[1..]) && (Quiet(s) ==> Quiet(s[1..]))
  {
    assert s == "," + s[1..];
    CommasAdd(",", s[1..]);
    OneComma();
    hide Commas;
  }

  lemma CountsBegin(s: Stats)
    ensures Counts(s) != "" && Counts(s)[0] == ','
  {
    hide IntText, Field;
  }

  lemma GlueTail(c: string, f: string, b: string)
    requires c != ""
    ensures (c + f)[1..] + b == c[1..] + (f + b)
  {
  }

  /** The second card id: three numbers, the flag, and no other flag. */
  lemma TrailShape() returns (front: string)
    ensures Trail() == front + ("false" + Beaten()) && Quiet(front) && Commas(front) == 3
  {
    CountsThenFlag(BIG);
    CountsCommas(BIG);
    CountsQuiet(BIG);
    CountsBegin(BIG);
    hide Counts, Beaten, StatsText, Commas, Quiet;
    WithoutComma(Counts(BIG));
    GlueTail(Counts(BIG), "false", Beaten());
    front := Counts(BIG)[1..];
  }

  lemma TrailReadable()
    ensures Readable(Trail())
  {
    var front := TrailShape();
    QuietIds();
    hide Beaten, Quiet, Commas, BrokenAt, Trail;
    forall x, s: Stats, tail
      ensures !BrokenAt(Trail(), x, s, tail)
    {
      TrailNotBroken(front, Beaten(), x, s, tail);
    }
  }

  lemma FirstFlag(front: string, back: string, x: string, counts: string, flag: string, tail: string)
    requires Quiet(front) && Quiet(back) && (flag == "true" || flag == "false")
    requires front + ("false" + back) == x + ((counts + flag) + tail)
    ensures front == x + counts
  {
    var id := front + ("false" + back);
    assert id[|x| + |counts|] == flag[0];
    assert forall j :: 0 <= j < |front| ==> id[j] == front[j];
    assert forall j :: 0 <= j < |back| ==> id[|front| + 5 + j] == back[j];
    assert id[|front|] == 'f' && id[|front| + 1] == 'a' && id[|front| + 2] == 'l' && id[|front| + 3] == 's' && id[|front| + 4] == 'e';
    assert |x| + |counts| == |front|;
    assert front == id[..|front|] == x + counts;
  }
}
