/**
 When the hashed text does not tell positions apart (internal/battle/checksum.go):
 the exact condition on a card id, and two battles that end up with one text.
 */
module ChecksumClash {
  import opened Battle
  import opened Checksum

  // ---------------------------------------------------------------- putting strings together

  lemma Glue3(a: string, b: string, c: string)
    ensures (a + b) + c == a + (b + c)
  {
  }

  lemma Glue4(a: string, b: string, c: string, d: string)
    ensures (a + (b + c)) + d == a + (b + (c + d))
  {
    Glue3(a, b + c, d);
    Glue3(b, c, d);
  }

  lemma StatsAppends(s: Stats, rest: string)
    ensures StatsText(s, "") + rest == StatsText(s, rest)
  {
    hide IntText, BoolText;
  }

  lemma NoSemicolon(n: int)
    ensures ';' !in IntText(n)
  {
    DecimalDigits(if n < 0 then -n else n);
  }

  lemma FieldPlain(n: int, rest: string, c: char)
    requires c == ';' || c == '|'
    ensures c in Field(IntText(n), ',', rest) <==> c in rest
  {
    NoSemicolon(n);
    IntTextPlain(n);
    var f := Field(IntText(n), ',', rest);
    hide IntText;
    if c in rest {
      var k :| 0 <= k < |rest| && rest[k] == c;
      assert f[|IntText(n)| + 1 + k] == c;
    }
  }

  lemma StatsPlain(s: Stats)
    ensures ';' !in StatsText(s, "") && '|' !in StatsText(s, "")
    ensures StatsText(s, "") != "" && StatsText(s, "")[0] == ','
  {
    forall c | c == ';' || c == '|'
      ensures c !in StatsText(s, "")
    {
      var t3 := BoolText(s.canAttack) + "";
      var t2 := Field(IntText(s.maxHp), ',', t3);
      var t1 := Field(IntText(s.hp), ',', t2);
      FieldPlain(s.maxHp, t3, c);
      FieldPlain(s.hp, t2, c);
      FieldPlain(s.atk, t1, c);
      hide IntText, Field;
      assert c !in "," + Field(IntText(s.atk), ',', t1);
    }
  }

  // ---------------------------------------------------------------- what a card id may not look like

  /** The parts of an id that is broken. */
  lemma BrokenParts(id: string, x: string, s: Stats, tail: string)
    requires BrokenAt(id, x, s, tail)
    ensures id == x + (StatsText(s, "") + tail) && |x| + |tail| < |id|
    ensures tail[0] == '|' || tail[0] == ';'
  {
    StatsAppends(s, tail);
    StatsPlain(s);
  }

  /** The first place where an id is broken has a readable id before it. */
  lemma {:induction false} FirstBreak(id: string, x: string, s: Stats, tail: string)
    returns (x': string, s': Stats, tail': string)
    requires BrokenAt(id, x, s, tail)
    ensures BrokenAt(id, x', s', tail') && Readable(x')
    decreases |x|
  {
    x', s', tail' := x, s, tail;
    if !Readable(x) {
      var a, t, tail2 :| BrokenAt(x, a, t, tail2);
      BrokenEarlier(id, x, s, tail, a, t, tail2);
      BrokenParts(x, a, t, tail2);
      hide BrokenAt, StatsText;
      x', s', tail' := FirstBreak(id, a, t, tail2 + StatsText(s, tail));
    }
  }

  lemma BrokenEarlier(id: string, x: string, s: Stats, tail: string, a: string, t: Stats, tail2: string)
    requires BrokenAt(id, x, s, tail) && BrokenAt(x, a, t, tail2)
    ensures BrokenAt(id, a, t, tail2 + StatsText(s, tail))
  {
    var more := StatsText(s, tail);
    assert more != "" && more[0] == ',';
    StatsAppends(t, tail2);
    StatsAppends(t, tail2 + more);
    hide StatsText;
    Glue4(a, StatsText(t, ""), tail2, more);
    BreakGoesOn(tail2, more);
  }

  lemma BreakGoesOn(tail: string, more: string)
    requires Break(tail) && more != "" && more[0] == ','
    ensures Break(tail + more)
  {
    hide InstName;
    if tail[0] != '|' {
      var n, z :| NamesNext(tail, n, z);
      Glue3(";" + InstName(n), z, more);
      assert NamesNext(tail + more, n, z + more);
    }
  }

  /** The numbers of one minion and the names of the next, as one card id. */
  function Swallowed(s: Stats, inst: string, card: string): string {
    StatsText(s, "")[1..] + ";" + (inst + "," + card)
  }

  const WITNESS := "w"

  lemma SwallowedReadable(s: Stats, n: nat)
    ensures Readable(Swallowed(s, InstName(n), WITNESS))
  {
    var id := Swallowed(s, InstName(n), WITNESS);
    var front, back := StatsText(s, "")[1..], InstName(n) + "," + WITNESS;
    StatsPlain(s);
    DecimalDigits(n);
    assert ';' !in back && '|' !in back && ';' !in front && '|' !in front;
    forall x, t: Stats, tail
      ensures !BrokenAt(id, x, t, tail)
    {
      if BrokenAt(id, x, t, tail) {
        BrokenParts(id, x, t, tail);
        StatsEnd(s, back, x, t, tail);
      }
    }
  }

  lemma StatsEnd(s: Stats, back: string, x: string, t: Stats, tail: string)
    requires ';' !in back && '|' !in back && tail != "" && (tail[0] == ';' || tail[0] == '|')
    ensures StatsText(s, "")[1..] + ";" + back != x + (StatsText(t, "") + tail)
  {
    var front, numbers := StatsText(s, "")[1..], StatsText(t, "");
    StatsPlain(s);
    StatsPlain(t);
    assert StatsText(s, "") == "," + front;
    assert ';' !in front && '|' !in front;
    var id := x + (numbers + tail);
    if front + ";" + back == id {
      assert id[|x| + |numbers|] == tail[0] && '|' !in front + ";" + back;
      assert tail == ";" + tail[1..];
      Glue3(x, numbers, tail);
      Glue3(x + numbers, ";", tail[1..]);
      OneSemicolon(front, back, x + numbers, tail[1..]);
      Glue3(",", x, numbers);
      hide StatsText;
      var inner := StatsInside(s, "", "," + x, t, "");
    }
  }

  lemma OneSemicolon(a: string, b: string, c: string, d: string)
    requires ';' !in a && ';' !in b && a + ";" + b == c + ";" + d
    ensures a == c && b == d
  {
    var x := a + ";" + b;
    assert x[|a|] == ';' && (c + ";" + d)[|c|] == ';';
    assert forall j :: 0 <= j < |a| ==> x[j] == a[j];
    assert forall j :: |a| < j < |x| ==> x[j] == b[j - |a| - 1];
    assert |a| == |c|;
    assert a == x[..|a|] == c && b == x[|a| + 1..] == d;
  }

  // ---------------------------------------------------------------- a bad id is read as several minions

  function WithStats(inst: string, card: string, s: Stats): Minion {
    Minion(inst, card, s.atk, s.hp, s.maxHp, s.canAttack)
  }

  const ONES := Stats(1, 1, 1, true)

  function Last(n: nat): Minion {
    WithStats(InstName(n), WITNESS, ONES)
  }

  /** The text of a minion whose id is broken, up to the break. */
  lemma BrokenText(m: Minion, x: string, s: Stats, tail: string, rest: string)
    requires BrokenAt(m.cardId, x, s, tail)
    ensures MinionText(m, rest) == MinionText(WithStats(m.instId, x, s), tail + StatsText(StatsOf(m), rest))
  {
    var numbers := StatsText(StatsOf(m), rest);
    StatsAppends(s, tail);
    StatsAppends(s, tail + numbers);
    assert StatsOf(WithStats(m.instId, x, s)) == s;
    hide StatsText, InstName, Field;
    Glue4(x, StatsText(s, ""), tail, numbers);
  }

  lemma TwoText(a: Minion, b: Minion, u: string)
    ensures BoardText([a, b], u) == MinionText(a, MinionText(b, u))
  {
    hide MinionText;
    assert [a, b][1..] == [b] && [b][1..] == [];
    assert BoardText([b], u) == MinionText(b, u);
  }

  lemma SwallowGlue(e: string, front: string, inst: string, card: string, numbers: string)
    ensures (";" + e) + (("," + front) + (";" + Field(inst, ',', card + numbers)))
         == ";" + Field(e, ',', (front + ";" + (inst + "," + card)) + numbers)
  {
    var l := (";" + e) + (("," + front) + (";" + Field(inst, ',', card + numbers)));
    var r := ";" + Field(e, ',', (front + ";" + (inst + "," + card)) + numbers);
    assert |l| == |r|;
    assert forall j :: 0 <= j < |l| ==> l[j] == r[j];
  }

  /** With only an instance id after the break, the following minion's names are read as part of a card id. */
  lemma SwallowText(m: Minion, x: string, s: Stats, n: nat, k: nat, u: string)
    requires BrokenAt(m.cardId, x, s, ";" + InstName(n))
    ensures BoardText([m, Last(k)], u)
         == BoardText([WithStats(m.instId, x, s),
                       WithStats(InstName(n), Swallowed(StatsOf(m), InstName(k), WITNESS), ONES)], u)
  {
    var last, after := Last(k), MinionText(Last(k), u);
    var a := WithStats(m.instId, x, s);
    var b := WithStats(InstName(n), Swallowed(StatsOf(m), InstName(k), WITNESS), ONES);
    TwoText(m, last, u);
    TwoText(a, b, u);
    BrokenText(m, x, s, ";" + InstName(n), after);
    StatsAppends(StatsOf(m), after);
    StatsPlain(StatsOf(m));
    var numbers := StatsText(StatsOf(m), "");
    assert numbers == "," + numbers[1..];
    SwallowGlue(InstName(n), numbers[1..], InstName(k), WITNESS, StatsText(ONES, u));
    assert StatsOf(last) == ONES && StatsOf(b) == ONES;
    hide StatsText, InstName, BoardText, Field, BrokenAt;
    assert ";" + InstName(n) + StatsText(StatsOf(m), after) == MinionText(b, u);
  }

  lemma SplitGlue(e: string, z: string, numbers: string)
    ensures (";" + e + ("," + z)) + numbers == ";" + Field(e, ',', z + numbers)
  {
  }

  lemma NextText(m: Minion, b: Minion, n: nat, z: string, rest: string)
    requires z != "" && z[0] == ',' && b == WithStats(InstName(n), z[1..], StatsOf(m))
    ensures ";" + InstName(n) + z + StatsText(StatsOf(m), rest) == MinionText(b, rest)
  {
    assert StatsOf(b) == StatsOf(m) && z == "," + z[1..];
    hide StatsText, InstName, Field;
    SplitGlue(InstName(n), z[1..], StatsText(StatsOf(m), rest));
  }

  /** With a card id after the break, that id is read as the next minion's. */
  lemma SplitText(m: Minion, x: string, s: Stats, n: nat, z: string, k: nat, c: seq<Minion>, u: string, v: string)
    requires BrokenAt(m.cardId, x, s, ";" + InstName(n) + z) && z != "" && z[0] == ','
    requires BoardText(c, v) == BoardText([WithStats(InstName(n), z[1..], StatsOf(m)), Last(k)], u)
    ensures BoardText([m, Last(k)], u) == BoardText([WithStats(m.instId, x, s)] + c, v)
  {
    var a, b := WithStats(m.instId, x, s), WithStats(InstName(n), z[1..], StatsOf(m));
    var rest := MinionText(Last(k), u);
    TwoText(m, Last(k), u);
    TwoText(b, Last(k), u);
    BrokenText(m, x, s, ";" + InstName(n) + z, rest);
    NextText(m, b, n, z, rest);
    hide StatsText, InstName, Field, BrokenAt, Last, MinionText;
    assert ([a] + c)[1..] == c;
  }

  /** What a bar in a card id makes of the rest of its board and of the bar that really ends it. */
  function Absorbed(m: Minion, tail: string, k: nat): string {
    tail + StatsText(StatsOf(m), "") + MinionText(Last(k), "")
  }

  lemma BarText(m: Minion, x: string, s: Stats, tail: string, k: nat, u: string)
    requires BrokenAt(m.cardId, x, s, tail)
    ensures BoardText([m, Last(k)], u) == BoardText([WithStats(m.instId, x, s)], Absorbed(m, tail, k) + u)
  {
    var a, after := WithStats(m.instId, x, s), MinionText(Last(k), u);
    TwoText(m, Last(k), u);
    BrokenText(m, x, s, tail, after);
    StatsAppends(StatsOf(m), after);
    MinionAppends(Last(k), u);
    hide StatsText, MinionText, BrokenAt, Last;
    var numbers, last := StatsText(StatsOf(m), ""), MinionText(Last(k), "");
    Glue3(tail + numbers, last, u);
    Glue3(tail, numbers, last + u);
    assert [a][1..] == [];
    assert BoardText([a], Absorbed(m, tail, k) + u) == MinionText(a, Absorbed(m, tail, k) + u);
  }

  lemma BoardOf(a: Minion, c: seq<Minion>)
    requires Numbered(a.instId) && Readable(a.cardId) && BoardReadable(c)
    ensures BoardReadable([a] + c)
  {
    hide Numbered, Readable;
  }

  lemma LastReadable(k: nat)
    ensures BoardReadable([]) && BoardReadable([Last(k)])
  {
    forall x, s: Stats, tail
      ensures !BrokenAt(WITNESS, x, s, tail)
    {
      if BrokenAt(WITNESS, x, s, tail) {
        BrokenParts(WITNESS, x, s, tail);
        StatsPlain(s);
      }
    }
    assert Numbered(InstName(k));
  }

  /** The length that `Absorbed` can reach. */
  function AbsorbedLimit(m: Minion, k: nat): nat {
    |m.cardId| + |StatsText(StatsOf(m), "")| + |MinionText(Last(k), "")|
  }

  lemma BreakKinds(id: string, x: string, s: Stats, tail: string)
    requires BrokenAt(id, x, s, tail)
    ensures tail != "" && |tail| < |id|
    ensures tail[0] == '|' || exists n, z :: NamesNext(tail, n, z)
  {
    BrokenParts(id, x, s, tail);
  }

  /**
   The text of any minion, with another one after it, is the text of minions whose
   ids are all readable; a bar in the id ends the board early, and `w` is what then
   stands between that bar and the board's true end.
   */
  lemma {:induction false} ReadAsReadable(m: Minion, k: nat, u: string) returns (c: seq<Minion>, w: string)
    requires Numbered(m.instId)
    ensures BoardReadable(c) && BoardText(c, w + u) == BoardText([m, Last(k)], u)
    ensures w == "" || (w[0] == '|' && |w| <= AbsorbedLimit(m, k))
    decreases |m.cardId|
  {
    hide BoardReadable, BrokenAt, Numbered, BoardText, InstName, StatsOf, Last, StatsText, MinionText, Break;
    LastReadable(k);
    w := "";
    assert "" + u == u;
    if Readable(m.cardId) {
      BoardOf(m, [Last(k)]);
      c := [m] + [Last(k)];
      assert c == [m, Last(k)];
    } else {
      var x0, s0, tail0 :| BrokenAt(m.cardId, x0, s0, tail0);
      var x, s, tail := FirstBreak(m.cardId, x0, s0, tail0);
      hide Readable;
      BreakKinds(m.cardId, x, s, tail);
      var head := WithStats(m.instId, x, s);
      if tail[0] == '|' {
        BarText(m, x, s, tail, k, u);
        BoardOf(head, []);
        c, w := [head] + [], Absorbed(m, tail, k);
        assert c == [head];
      } else {
        var n, z :| NamesNext(tail, n, z);
        c, w := ReadNext(m, x, s, n, z, k, u);
      }
    }
  }

  lemma ReadNext(m: Minion, x: string, s: Stats, n: nat, z: string, k: nat, u: string)
    returns (c: seq<Minion>, w: string)
    requires Numbered(m.instId) && Readable(x)
    requires BrokenAt(m.cardId, x, s, ";" + InstName(n) + z) && (z == "" || z[0] == ',')
    ensures BoardReadable(c) && BoardText(c, w + u) == BoardText([m, Last(k)], u)
    ensures w == "" || (w[0] == '|' && |w| <= AbsorbedLimit(m, k))
    decreases |m.cardId|, 0
  {
    BreakKinds(m.cardId, x, s, ";" + InstName(n) + z);
    assert Numbered(InstName(n));
    hide BoardReadable, BrokenAt, Numbered, BoardText, InstName, Last, StatsText, MinionText, Readable;
    var head := WithStats(m.instId, x, s);
    w := "";
    assert "" + u == u;
    LastReadable(k);
    if z == "" {
      assert ";" + InstName(n) + z == ";" + InstName(n);
      SwallowedReadable(StatsOf(m), k);
      var b := WithStats(InstName(n), Swallowed(StatsOf(m), InstName(k), WITNESS), ONES);
      SwallowText(m, x, s, n, k, u);
      BoardOf(b, []);
      BoardOf(head, [b] + []);
      c := [head] + ([b] + []);
      assert c == [head, b];
    } else {
      var d;
      var next := WithStats(InstName(n), z[1..], StatsOf(m));
      assert StatsOf(next) == StatsOf(m);
      d, w := ReadAsReadable(next, k, u);
      SplitText(m, x, s, n, z, k, d, u, w + u);
      BoardOf(head, d);
      c := [head] + d;
    }
  }

  // ---------------------------------------------------------------- the exact condition

  /** The boards hold only readable card ids and, possibly, `id`. */
  ghost predicate Uses(g: Game, id: string) {
    BoardUses(g.p0.board, id) && BoardUses(g.p1.board, id)
  }

  ghost predicate BoardUses(b: seq<Minion>, id: string) {
    forall k :: 0 <= k < |b| ==> Numbered(b[k].instId) && (b[k].cardId == id || Readable(b[k].cardId))
  }

  /** No two positions that use the id, besides readable ones, have the same text. */
  ghost predicate KeepsTextsApart(id: string) {
    forall g: Game, h: Game :: Uses(g, id) && Uses(h, id) && IdsApart(g, h) && Text(g) == Text(h) ==> g == h
  }

  function Standing(b: seq<Minion>, other: string): Game {
    Game(PlayerState("p", 20, 0, 0, [], [], b, 0), PlayerState(other, 20, 0, 0, [], [], [], 0), 0, 1, false, "", 0)
  }

  /** A player id too long and too plain to be mistaken for what was read before it. */
  function LongName(n: nat): string {
    seq(n, _ => 'q')
  }

  lemma LongNameApart(w: string, n: nat)
    requires |w| < n
    ensures Apart(LongName(n), w + "|" + LongName(n), ',')
  {
    var q := LongName(n);
    var other := w + "|" + q;
    assert other[|w|] == '|';
    assert (q + [','])[|w|] == 'q';
    assert |other + [',']| > |q|;
  }

  /** The second player's section, after something that a bar in a card id took for the start of a section. */
  lemma SectionText(w: string, q: string)
    requires w != "" && w[0] == '|'
    ensures var p, p' := PlayerState(q, 20, 0, 0, [], [], [], 0), PlayerState(w[1..] + "|" + q, 20, 0, 0, [], [], [], 0);
            w + PlayerText(p, "") == PlayerText(p', "")
  {
    hide ListText, IntText;
    assert w == "|" + w[1..];
    var after := Field(IntText(20), ',', Field(IntText(0), ',', Field(IntText(0), ',',
                   Field(IntText(0), ',', ListText([], "," + ListText([], ""))))));
    assert BoardText([], "") == "";
    FieldGlue(w[1..], q, after);
    hide Field;
    assert PlayerText(PlayerState(q, 20, 0, 0, [], [], [], 0), "") == "|" + Field(q, ',', after);
    assert PlayerText(PlayerState(w[1..] + "|" + q, 20, 0, 0, [], [], [], 0), "") == "|" + Field(w[1..] + "|" + q, ',', after);
  }

  lemma FieldGlue(v: string, q: string, after: string)
    ensures ("|" + v) + ("|" + Field(q, ',', after)) == "|" + Field(v + "|" + q, ',', after)
  {
  }

  lemma StandingUses(b: seq<Minion>, other: string, id: string)
    requires BoardUses(b, id)
    ensures Uses(Standing(b, other), id)
  {
    hide Readable, Numbered;
  }

  lemma StandingApart(b: seq<Minion>, q: string, c: seq<Minion>, q': string)
    requires Apart(q, q', ',')
    ensures IdsApart(Standing(b, q), Standing(c, q'))
  {
  }

  lemma SamePerson(p: PlayerState, q: PlayerState, rest: string)
    requires p == q.(board := p.board)
    ensures PersonText(p, rest) == PersonText(q, rest)
  {
    hide Field, IntText, ListText;
  }

  lemma SameFrontText(g: Game, h: Game)
    requires h == g.(p0 := g.p0.(board := h.p0.board), p1 := h.p1)
    requires BoardText(g.p0.board, PlayerText(g.p1, "")) == BoardText(h.p0.board, PlayerText(h.p1, ""))
    ensures Text(g) == Text(h)
  {
    var u, v := PlayerText(g.p1, ""), PlayerText(h.p1, "");
    SamePerson(g.p0, h.p0, BoardText(g.p0.board, u));
    assert PlayerText(g.p0, u) == PersonText(g.p0, BoardText(g.p0.board, u));
    assert PlayerText(h.p0, v) == PersonText(h.p0, BoardText(h.p0.board, v));
    hide BoardText, HeadText, PersonText, PlayerText;
  }

  lemma UnreadableClashes(id: string) returns (g: Game, h: Game)
    requires !Readable(id)
    ensures Uses(g, id) && Uses(h, id) && IdsApart(g, h) && Text(g) == Text(h) && g != h
  {
    hide Readable, BoardText, Last, LongName, AbsorbedLimit, PlayerText, Apart, Text, IdsApart, Uses;
    var m := Minion(InstName(1), id, 1, 1, 1, true);
    assert Numbered(m.instId);
    LastReadable(2);
    var b, q := [m] + [Last(2)], LongName(AbsorbedLimit(m, 2) + 1);
    assert b == [m, Last(2)] && b[0].cardId == id;
    var c, w := ReadAsReadable(m, 2, PlayerText(Standing(b, q).p1, ""));
    hide Numbered;
    assert BoardUses(b, id) && BoardUses(c, id);
    var q' := if w == "" then q else w[1..] + "|" + q;
    if w == "" {
      SameIdApart(q, ',');
      assert w + PlayerText(Standing(b, q).p1, "") == PlayerText(Standing(b, q).p1, "");
    } else {
      SectionText(w, q);
      LongNameApart(w[1..], AbsorbedLimit(m, 2) + 1);
    }
    StandingUses(b, q, id);
    StandingUses(c, q', id);
    StandingApart(b, q, c, q');
    g, h := Standing(b, q), Standing(c, q');
    SameFrontText(g, h);
  }

  lemma SameIdApart(id: string, sep: char)
    ensures Apart(id, id, sep)
  {
  }

  /** Beside readable ids, an id keeps the texts of all positions apart exactly when it is readable itself. */
  lemma ReadableIff(id: string)
    ensures KeepsTextsApart(id) <==> Readable(id)
  {
    hide Text, IdsApart;
    if Readable(id) {
      forall g: Game, h: Game | Uses(g, id) && Uses(h, id) && IdsApart(g, h) && Text(g) == Text(h)
        ensures g == h
      {
        TextDetermines(g, h);
      }
    } else {
      var g, h := UnreadableClashes(id);
    }
  }
}
