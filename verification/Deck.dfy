/**
 The card catalog and deck rules (internal/deck). Everything the battle
 invariants assume about cards is what `Load` establishes: non-negative costs,
 minions with positive health and non-negative attack, and one card per id.
 */
module Deck {

  const TYPE_MINION := "minion"
  const TYPE_SPELL := "spell"

  datatype Option<+T> = None | Some(value: T)

  datatype Card = Card(
    id: string, name: string, kind: string,
    cost: int, atk: int, hp: int, damage: int, heal: int)

  /** The rules a card has to meet to enter the catalog. */
  predicate ValidCard(c: Card) {
    && c.id != "" && c.name != "" && c.cost >= 0
    && if c.kind == TYPE_MINION then c.hp > 0 && c.atk >= 0
       else c.kind == TYPE_SPELL && (c.damage != 0 || c.heal != 0)
  }

  datatype Catalog = Catalog(byId: map<string, Card>, order: seq<string>) {
    /** What a loaded catalog guarantees to the rules engine. */
    ghost predicate Sound() {
      && (forall id :: id in byId ==> byId[id].id == id && ValidCard(byId[id]))
      && (forall id :: id in order <==> id in byId)
      && (forall i, j :: 0 <= i < j < |order| ==> order[i] != order[j])
    }

    predicate Has(id: string) {
      id in byId
    }
  }

  datatype CardFault = NoId | NoName | NegativeCost | NoHealth | NegativeAttack | NoEffect | UnknownKind

  ghost predicate Faulty(c: Card, f: CardFault) {
    match f
    case NoId => c.id == ""
    case NoName => c.name == ""
    case NegativeCost => c.cost < 0
    case NoHealth => c.kind == "minion" && c.hp <= 0
    case NegativeAttack => c.kind == "minion" && c.atk < 0
    case NoEffect => c.kind == "spell" && c.damage == 0 && c.heal == 0
    case UnknownKind => c.kind !in {"minion", "spell"}
  }

  /** Which of several faults is reported: the one of least rank. */
  function FaultRank(f: CardFault): nat {
    match f
    case NoId => 0
    case NoName => 1
    case NegativeCost => 2
    case NoHealth => 3
    case NegativeAttack => 4
    case NoEffect => 5
    case UnknownKind => 6
  }

  lemma ValidIsFaultless(c: Card)
    ensures ValidCard(c) <==> forall f :: !Faulty(c, f)
  {
    if forall f :: !Faulty(c, f) {
      assert !Faulty(c, NoId) && !Faulty(c, NoName) && !Faulty(c, NegativeCost) && !Faulty(c, NoHealth);
      assert !Faulty(c, NegativeAttack) && !Faulty(c, NoEffect) && !Faulty(c, UnknownKind);
    }
  }

  /** A card is valid exactly when it has no fault; otherwise the first of its faults is reported. */
  method ValidateCard(c: Card) returns (fault: Option<CardFault>)
    ensures fault.None? <==> ValidCard(c)
    ensures fault.Some? ==> Faulty(c, fault.value) && forall f :: FaultRank(f) < FaultRank(fault.value) ==> !Faulty(c, f)
  {
    if c.id == "" {
      return Some(NoId);
    }
    if c.name == "" {
      return Some(NoName);
    }
    if c.cost < 0 {
      return Some(NegativeCost);
    }
    if c.kind == TYPE_MINION {
      if c.hp <= 0 {
        return Some(NoHealth);
      }
      if c.atk < 0 {
        return Some(NegativeAttack);
      }
    } else if c.kind == TYPE_SPELL {
      if c.damage == 0 && c.heal == 0 {
        return Some(NoEffect);
      }
    } else {
      return Some(UnknownKind);
    }
    fault := None;
  }

  datatype LoadError = InvalidCard(index: nat, fault: CardFault) | DuplicateId(index: nat) | EmptyCatalog

  datatype LoadResult = Loaded(catalog: Catalog) | LoadFailed(error: LoadError)

  /** The card at `k` repeats the id of an earlier one. */
  ghost predicate Repeats(cards: seq<Card>, k: nat)
    requires k < |cards|
  {
    exists j :: 0 <= j < k && cards[j].id == cards[k].id
  }

  /**
   Builds the catalog from the decoded file. It succeeds exactly on a non-empty
   list of valid cards with distinct ids, and otherwise names the first card at
   fault, an invalid card being reported before a repeated id.
   */
  method Load(cards: seq<Card>) returns (r: LoadResult)
    ensures r.Loaded? <==>
            && cards != []
            && (forall k :: 0 <= k < |cards| ==> ValidCard(cards[k]) && !Repeats(cards, k))
    ensures r.Loaded? ==> r.catalog.Sound()
    ensures r.Loaded? ==> |r.catalog.order| == |cards|
    ensures r.Loaded? ==> forall k :: 0 <= k < |cards| ==>
                              && r.catalog.order[k] == cards[k].id
                              && r.catalog.Has(cards[k].id) && r.catalog.byId[cards[k].id] == cards[k]
    ensures r.LoadFailed? ==>
              match r.error
              case EmptyCatalog => cards == []
              case InvalidCard(i, fault) =>
                && i < |cards| && !ValidCard(cards[i]) && Faulty(cards[i], fault)
                && forall k :: 0 <= k < i ==> ValidCard(cards[k]) && !Repeats(cards, k)
              case DuplicateId(i) =>
                && i < |cards| && ValidCard(cards[i]) && Repeats(cards, i)
                && forall k :: 0 <= k < i ==> ValidCard(cards[k]) && !Repeats(cards, k)
  {
    hide ValidCard, Faulty, FaultRank;
    var c := Catalog(map[], []);
    for i := 0 to |cards|
      invariant c.Sound() && |c.order| == i
      invariant forall k :: 0 <= k < i ==> ValidCard(cards[k]) && !Repeats(cards, k)
      invariant forall k :: 0 <= k < i ==>
                    c.order[k] == cards[k].id && cards[k].id in c.byId && c.byId[cards[k].id] == cards[k]
    {
      var card := cards[i];
      var fault := ValidateCard(card);
      if fault.Some? {
        return LoadFailed(InvalidCard(i, fault.value));
      }
      if card.id in c.byId {
        assert card.id in c.order;
        return LoadFailed(DuplicateId(i));
      }
      c := Catalog(c.byId[card.id := card], c.order + [card.id]);
    }
    if |c.order| == 0 {
      return LoadFailed(EmptyCatalog);
    }
    r := Loaded(c);
  }

  datatype DeckError = DeckSize(n: nat) | UnknownCardId(id: string) | TooManyCopies(id: string)

  /** Known cards, at most two copies of each. */
  ghost predicate WithinCopies(cat: Catalog, cards: seq<string>) {
    forall id :: id in cards ==> cat.Has(id) && multiset(cards)[id] <= 2
  }

  ghost predicate LegalDeck(cat: Catalog, cards: seq<string>) {
    8 <= |cards| <= 12 && WithinCopies(cat, cards)
  }

  /** The card at `k` is the first that is unknown or one copy too many. */
  ghost predicate FirstFault(cat: Catalog, cards: seq<string>, k: nat) {
    && k < |cards| && WithinCopies(cat, cards[..k])
    && (!cat.Has(cards[k]) || multiset(cards[..k])[cards[k]] == 2)
  }

  /**
   Deck legality: 8 to 12 known cards, at most two copies of each. The size is
   checked first; otherwise the error names the first card at fault. A missing
   catalog is refused by the caller's type here.
   */
  method ValidateDeck(cat: Catalog, cards: seq<string>) returns (err: Option<DeckError>)
    ensures err.None? <==> LegalDeck(cat, cards)
    ensures err.Some? && err.value.DeckSize? <==> !(8 <= |cards| <= 12)
    ensures err.Some? ==>
              match err.value
              case DeckSize(n) => n == |cards|
              case UnknownCardId(id) => exists k: nat :: FirstFault(cat, cards, k) && cards[k] == id && !cat.Has(id)
              case TooManyCopies(id) => exists k: nat :: FirstFault(cat, cards, k) && cards[k] == id && cat.Has(id)
  {
    if |cards| < 8 || |cards| > 12 {
      return Some(DeckSize(|cards|));
    }
    hide LegalDeck;
    var count: map<string, nat> := map[];
    for i := 0 to |cards|
      invariant forall id :: id in cards[..i] ==> cat.Has(id)
      invariant forall id :: multiset(cards[..i])[id] == (if id in count then count[id] else 0)
      invariant forall id :: id in count ==> count[id] <= 2
    {
      var id := cards[i];
      assert cards[..i + 1] == cards[..i] + [id];
      if !cat.Has(id) {
        assert FirstFault(cat, cards, i);
        assert cards[i] in cards;
        return Some(UnknownCardId(id));
      }
      var n := (if id in count then count[id] else 0) + 1;
      count := count[id := n];
      if n > 2 {
        assert FirstFault(cat, cards, i);
        assert cards == cards[..i + 1] + cards[i + 1..];
        assert multiset(cards)[id] >= multiset(cards[..i + 1])[id] == n;
        return Some(TooManyCopies(id));
      }
    }
    assert cards[..|cards|] == cards;
    assert forall id :: id in cards ==> id in cards[..|cards|];
    err := None;
  }
}
