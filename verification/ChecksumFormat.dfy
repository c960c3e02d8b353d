/**
 The format of the hashed text (internal/battle/checksum.go), piece by piece: what
 the writers of `Checksum`, which take the text that follows, come to.
 */
module ChecksumFormat {
  import opened Battle
  import opened Checksum

  // ---------------------------------------------------------------- lists of card ids

  function Escape(c: char): string {
    if c == '"' || c == '\\' then ['\\', c] else [c]
  }

  /** The inside of a quoted string: quotes and backslashes are preceded by a backslash. */
  function Escaped(s: string): string {
    if s == "" then ""
    else Escaped(s[..|s| - 1]) + Escape(s[|s| - 1])
  }

  lemma {:induction false} EscapedFront(c: char, s: string)
    ensures Escaped([c] + s) == Escape(c) + Escaped(s)
  {
    hide Escape;
    if s == "" {
      assert ([c] + s)[..0] == "";
    } else {
      EscapedFront(c, s[..|s| - 1]);
      assert ([c] + s)[|s|] == s[|s| - 1];
      assert ([c] + s)[..|s|] == [c] + s[..|s| - 1];
    }
  }

  lemma TailStep(s: string, rest: string)
    requires s != ""
    ensures QuotedTail(s, rest) == Escape(s[0]) + QuotedTail(s[1..], rest)
  {
  }

  lemma {:induction false} TailEscapes(s: string, rest: string)
    ensures QuotedTail(s, rest) == Escaped(s) + "\"" + rest
  {
    hide Escape;
    if s != "" {
      TailEscapes(s[1..], rest);
      TailStep(s, rest);
      EscapedFront(s[0], s[1..]);
      assert s == [s[0]] + s[1..];
    }
  }

  /** Strings in quotes, separated by blanks. */
  function ListFormat(xs: seq<string>): string {
    if xs == [] then ""
    else "\"" + Escaped(xs[0]) + "\"" + (if |xs| == 1 then "" else " " + ListFormat(xs[1..]))
  }

  lemma {:induction false} ListTailReads(xs: seq<string>)
    ensures ListTail(xs, "") == (if xs == [] then "" else " " + ListFormat(xs)) + "]"
  {
    hide QuotedTail, Escaped;
    if xs != [] {
      ListTailReads(xs[1..]);
      TailEscapes(xs[0], ListTail(xs[1..], ""));
    }
  }

  lemma ListReads(xs: seq<string>)
    ensures ListText(xs, "") == "[" + ListFormat(xs) + "]"
  {
    hide QuotedTail, Escaped, ListTail;
    if xs != [] {
      ListTailReads(xs[1..]);
      TailEscapes(xs[0], ListTail(xs[1..], ""));
    }
  }

  // ---------------------------------------------------------------- positions

  function MinionFormat(m: Minion): string {
    ";" + m.instId + "," + m.cardId + "," + IntText(m.atk) + "," + IntText(m.hp) + "," + IntText(m.maxHp) + ","
    + BoolText(m.canAttack)
  }

  function BoardFormat(b: seq<Minion>): string {
    if b == [] then "" else MinionFormat(b[0]) + BoardFormat(b[1..])
  }

  function PlayerFormat(p: PlayerState): string {
    "|" + p.id + "," + IntText(p.hp) + "," + IntText(p.mana) + "," + IntText(p.maxMana) + "," + IntText(p.fatigue) + ","
    + "[" + ListFormat(p.hand) + "]" + "," + "[" + ListFormat(p.deck) + "]" + BoardFormat(p.board)
  }

  function GameFormat(g: Game): string {
    IntText(g.turn) + "|" + IntText(g.round) + "|" + BoolText(g.over) + "|" + g.winner + "|" + IntText(g.nextInst)
    + PlayerFormat(g.p0) + PlayerFormat(g.p1)
  }

  lemma MinionReads(m: Minion, rest: string)
    ensures MinionText(m, rest) == MinionFormat(m) + rest
  {
    hide IntText, BoolText;
  }

  lemma {:induction false} BoardReads(b: seq<Minion>, rest: string)
    ensures BoardText(b, rest) == BoardFormat(b) + rest
  {
    hide MinionText, MinionFormat;
    if b != [] {
      BoardReads(b[1..], rest);
      MinionReads(b[0], BoardText(b[1..], rest));
    }
  }

  lemma FourFields(a: string, b: string, c: string, d: string, e: string, rest: string)
    ensures "|" + Field(a, ',', Field(b, ',', Field(c, ',', Field(d, ',', Field(e, ',', rest)))))
         == "|" + a + "," + b + "," + c + "," + d + "," + e + "," + rest
  {
  }

  lemma Joined(head: string, hand: string, deck: string, board: string, rest: string)
    ensures head + (("[" + hand + "]") + ("," + (("[" + deck + "]") + (board + rest))))
         == head + "[" + hand + "]" + "," + "[" + deck + "]" + board + rest
  {
  }

  lemma PlayerReadsAs(p: PlayerState, rest: string)
    ensures PlayerText(p, rest) == PlayerFormat(p) + rest
  {
    BoardReads(p.board, rest);
    ListAppends(p.deck, BoardText(p.board, rest));
    ListAppends(p.hand, "," + ListText(p.deck, BoardText(p.board, rest)));
    ListReads(p.hand);
    ListReads(p.deck);
    hide IntText, ListText, BoardText, BoardFormat, ListFormat;
    FourFields(p.id, IntText(p.hp), IntText(p.mana), IntText(p.maxMana), IntText(p.fatigue),
               ListText(p.hand, "," + ListText(p.deck, BoardText(p.board, rest))));
    hide Field;
    Joined("|" + p.id + "," + IntText(p.hp) + "," + IntText(p.mana) + "," + IntText(p.maxMana) + "," + IntText(p.fatigue) + ",",
           ListFormat(p.hand), ListFormat(p.deck), BoardFormat(p.board), rest);
  }

  lemma HeadReads(a: string, b: string, c: string, d: string, e: string, rest: string)
    ensures Field(a, '|', Field(b, '|', Field(c, '|', Field(d, '|', e + rest))))
         == a + "|" + b + "|" + c + "|" + d + "|" + e + rest
  {
  }

  /** The text of a position, field by field in this order. */
  lemma TextFormat(g: Game)
    ensures Text(g) == GameFormat(g)
  {
    PlayerReadsAs(g.p1, "");
    PlayerReadsAs(g.p0, PlayerText(g.p1, ""));
    hide IntText, BoolText, PlayerText, PlayerFormat, Field;
    assert PlayerFormat(g.p1) + "" == PlayerFormat(g.p1);
    HeadReads(IntText(g.turn), IntText(g.round), BoolText(g.over), g.winner, IntText(g.nextInst),
              PlayerFormat(g.p0) + PlayerFormat(g.p1));
  }
}
