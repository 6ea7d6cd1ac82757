/**
 * The input encoding of src/network.py: InputPattern writes a code for
 * every card of four hands and a trick into a 54-slot integer array, then
 * the trump and the suit led into the last two slots.
 */
module Network {
  import opened Wrappers

  /** Slots of the network's input, and cards in the deck. */
  const StateSize: nat := 54
  const DeckSize: nat := 52

  /** Where a card is: on the trick, or in one of the four seat-relative hands. */
  datatype CardPosition = OnTrick | InPlayerHand | InLeftOpponentHand | InPartnerHand | InRightOpponentHand

  /** CardPosition's values. */
  function PositionValue(p: CardPosition): (v: int)
    ensures 0 <= v <= 4
  {
    match p
    case OnTrick => 0
    case InPlayerHand => 1
    case InLeftOpponentHand => 2
    case InPartnerHand => 3
    case InRightOpponentHand => 4
  }

  /** Distinct positions have distinct codes, so a code names its position. */
  lemma PositionValueInjective(p: CardPosition, q: CardPosition)
    ensures PositionValue(p) == PositionValue(q) <==> p == q
  {
  }

  /** The suit led, NONE when nothing was led. */
  datatype Suit = NoSuit | Clubs | Diamonds | Hearts | Spades

  function SuitValue(s: Suit): (v: int)
    ensures -1 <= v <= 3
  {
    match s
    case NoSuit => -1
    case Clubs => 0
    case Diamonds => 1
    case Hearts => 2
    case Spades => 3
  }

  /** Suit(v): the member with value v; the enum raises for any other value. */
  function SuitOf(v: int): (r: Option<Suit>)
    ensures r.Some? <==> -1 <= v <= 3
    ensures r.Some? ==> SuitValue(r.value) == v
  {
    if v == -1 then Some(NoSuit)
    else if v == 0 then Some(Clubs)
    else if v == 1 then Some(Diamonds)
    else if v == 2 then Some(Hearts)
    else if v == 3 then Some(Spades)
    else None
  }

  lemma SuitRoundTrip(s: Suit)
    ensures SuitOf(SuitValue(s)) == Some(s)
  {
  }

  /** The trump, NO_TRUMP being -1. */
  datatype Trump = NoTrump | ClubsTrump | DiamondsTrump | HeartsTrump | SpadesTrump

  function TrumpValue(t: Trump): (v: int)
    ensures -1 <= v <= 3
  {
    match t
    case NoTrump => -1
    case ClubsTrump => 0
    case DiamondsTrump => 1
    case HeartsTrump => 2
    case SpadesTrump => 3
  }

  /** Trump(v): the member with value v; the enum raises for any other value. */
  function TrumpOf(v: int): (r: Option<Trump>)
    ensures r.Some? <==> -1 <= v <= 3
    ensures r.Some? ==> TrumpValue(r.value) == v
  {
    if v == -1 then Some(NoTrump)
    else if v == 0 then Some(ClubsTrump)
    else if v == 1 then Some(DiamondsTrump)
    else if v == 2 then Some(HeartsTrump)
    else if v == 3 then Some(SpadesTrump)
    else None
  }

  lemma TrumpRoundTrip(t: Trump)
    ensures TrumpOf(TrumpValue(t)) == Some(t)
  {
  }

  /** `input_list or []`: a missing list is an empty one. */
  function Items(list: Option<seq<int>>): seq<int>
  {
    if list.None? then [] else list.value
  }

  /** numpy accepts an index from -54 up to 53; a negative one counts from the end. */
  predicate InRange(items: seq<int>)
  {
    forall k :: 0 <= k < |items| ==> -(StateSize as int) <= items[k] < StateSize
  }

  function Slot(i: int): (j: nat)
    requires -(StateSize as int) <= i < StateSize
    ensures j < StateSize
    ensures 0 <= i ==> j == i
  {
    if i < 0 then i + StateSize else i
  }

  /** The slots a list of indices names. */
  function Slots(items: seq<int>): (s: set<nat>)
    requires InRange(items)
    ensures forall j :: j in s ==> j < StateSize
  {
    set k | 0 <= k < |items| :: Slot(items[k])
  }

  /** An array value with every slot in s set to v. */
  function Overwrite(a: seq<int>, s: set<nat>, v: int): (b: seq<int>)
    ensures |b| == |a|
  {
    seq(|a|, j requires 0 <= j < |a| => if j in s then v else a[j])
  }

  /**
   * The encoding the constructor is meant to produce: slot 52 holds the
   * trump, slot 53 the suit led, and each card slot the code of the last
   * list that names it (the trick, then the right opponent, partner, left
   * opponent and the player's own hand), or -1 if none does.
   */
  function Encoding(trump: int, hand1: seq<int>, hand2: seq<int>, hand3: seq<int>, hand4: seq<int>,
                    trick: seq<int>, suit: int): (e: seq<int>)
    requires InRange(hand1) && InRange(hand2) && InRange(hand3) && InRange(hand4) && InRange(trick)
    ensures |e| == StateSize
  {
    seq(StateSize, j requires 0 <= j < StateSize =>
      if j == 52 then trump
      else if j == 53 then suit
      else if j in Slots(trick) then PositionValue(OnTrick)
      else if j in Slots(hand4) then PositionValue(InRightOpponentHand)
      else if j in Slots(hand3) then PositionValue(InPartnerHand)
      else if j in Slots(hand2) then PositionValue(InLeftOpponentHand)
      else if j in Slots(hand1) then PositionValue(InPlayerHand)
      else -1)
  }

  /** The five writes one after the other, then the two codes, give the encoding. */
  lemma OverwritesGiveEncoding(trump: int, hand1: seq<int>, hand2: seq<int>, hand3: seq<int>, hand4: seq<int>,
                               trick: seq<int>, suit: int)
    requires InRange(hand1) && InRange(hand2) && InRange(hand3) && InRange(hand4) && InRange(trick)
    ensures var a0 := seq(StateSize, _ => -1);
      var a1 := Overwrite(a0, Slots(hand1), PositionValue(InPlayerHand));
      var a2 := Overwrite(a1, Slots(hand2), PositionValue(InLeftOpponentHand));
      var a3 := Overwrite(a2, Slots(hand3), PositionValue(InPartnerHand));
      var a4 := Overwrite(a3, Slots(hand4), PositionValue(InRightOpponentHand));
      var a5 := Overwrite(a4, Slots(trick), PositionValue(OnTrick));
      a5[52 := trump][53 := suit] == Encoding(trump, hand1, hand2, hand3, hand4, trick, suit)
  {
  }

  /** Every card slot holds a position code or -1, and the last two hold the trump and the suit led. */
  lemma EncodingRange(trump: int, hand1: seq<int>, hand2: seq<int>, hand3: seq<int>, hand4: seq<int>,
                      trick: seq<int>, suit: int, j: nat)
    requires InRange(hand1) && InRange(hand2) && InRange(hand3) && InRange(hand4) && InRange(trick)
    requires j < DeckSize
    ensures var e := Encoding(trump, hand1, hand2, hand3, hand4, trick, suit);
      -1 <= e[j] <= 4 && e[52] == trump && e[53] == suit
  {
  }

  /** Lists of card indices (0..51), no two sharing a card. */
  predicate DisjointCards(lists: seq<seq<int>>)
  {
    (forall i, k :: 0 <= i < |lists| && 0 <= k < |lists[i]| ==> 0 <= lists[i][k] < DeckSize) &&
    (forall i, i', x :: 0 <= i < i' < |lists| && x in lists[i] ==> x !in lists[i'])
  }

  /** Card indices name their own slots. */
  lemma SlotsOfCards(items: seq<int>, c: nat)
    requires forall k :: 0 <= k < |items| ==> 0 <= items[k] < DeckSize
    ensures InRange(items)
    ensures c in Slots(items) <==> c in items
  {
    if c in items {
      var k :| 0 <= k < |items| && items[k] == c;
      assert Slot(items[k]) == c;
    }
  }

  /**
   * For disjoint lists of cards the encoding loses nothing: a card slot
   * holds a list's code exactly when that list holds the card, and -1
   * exactly when no list does.
   */
  lemma EncodingLossless(trump: int, hand1: seq<int>, hand2: seq<int>, hand3: seq<int>, hand4: seq<int>,
                         trick: seq<int>, suit: int, c: nat)
    requires DisjointCards([hand1, hand2, hand3, hand4, trick])
    requires c < DeckSize
    ensures InRange(hand1) && InRange(hand2) && InRange(hand3) && InRange(hand4) && InRange(trick)
    ensures var e := Encoding(trump, hand1, hand2, hand3, hand4, trick, suit);
      (e[c] == PositionValue(InPlayerHand) <==> c in hand1) &&
      (e[c] == PositionValue(InLeftOpponentHand) <==> c in hand2) &&
      (e[c] == PositionValue(InPartnerHand) <==> c in hand3) &&
      (e[c] == PositionValue(InRightOpponentHand) <==> c in hand4) &&
      (e[c] == PositionValue(OnTrick) <==> c in trick) &&
      (e[c] == -1 <==> c !in hand1 && c !in hand2 && c !in hand3 && c !in hand4 && c !in trick)
  {
    var lists := [hand1, hand2, hand3, hand4, trick];
    forall i | 0 <= i < 5
      ensures forall k :: 0 <= k < |lists[i]| ==> 0 <= lists[i][k] < DeckSize
    {
    }
    assert lists[0] == hand1 && lists[1] == hand2 && lists[2] == hand3 && lists[3] == hand4 && lists[4] == trick;
    SlotsOfCards(hand1, c);
    SlotsOfCards(hand2, c);
    SlotsOfCards(hand3, c);
    SlotsOfCards(hand4, c);
    SlotsOfCards(trick, c);
  }

  class InputPattern {
    const input: array<int>

    /**
     * InputPattern(trump, hand1, hand2, hand3, hand4, trick, trick_suite):
     * all slots -1, then the player's hand (1), the left opponent's (2),
     * the partner's (3), the right opponent's (4) and the trick (0), then
     * the trump and the suit led.
     */
    constructor (trump: int, hand1: Option<seq<int>>, hand2: Option<seq<int>>, hand3: Option<seq<int>>,
                 hand4: Option<seq<int>>, trick: Option<seq<int>>, trickSuit: int)
      requires TrumpOf(trump).Some? && SuitOf(trickSuit).Some?
      requires InRange(Items(hand1)) && InRange(Items(hand2)) && InRange(Items(hand3))
      requires InRange(Items(hand4)) && InRange(Items(trick))
      ensures fresh(input)
      ensures input[..] == Encoding(trump, Items(hand1), Items(hand2), Items(hand3), Items(hand4), Items(trick), trickSuit)
    {
      input := new int[StateSize](_ => -1);
      new;
      assert input[..] == seq(StateSize, _ => -1);
      MapCardsToInput(hand1, InPlayerHand);
      MapCardsToInput(hand2, InLeftOpponentHand);
      MapCardsToInput(hand3, InPartnerHand);
      MapCardsToInput(hand4, InRightOpponentHand);
      MapCardsToInput(trick, OnTrick);
      input[52] := TrumpValue(TrumpOf(trump).value);
      input[53] := SuitValue(SuitOf(trickSuit).value);
      OverwritesGiveEncoding(trump, Items(hand1), Items(hand2), Items(hand3), Items(hand4), Items(trick), trickSuit);
    }

    /** _map_cards_to_input: every slot the list names gets the position's code, in list order. */
    method MapCardsToInput(list: Option<seq<int>>, position: CardPosition)
      requires input.Length == StateSize && InRange(Items(list))
      modifies input
      ensures input[..] == Overwrite(old(input[..]), Slots(Items(list)), PositionValue(position))
    {
      var items := Items(list);
      var i := 0;
      while i < |items|
        invariant 0 <= i <= |items|
        invariant input[..] == Overwrite(old(input[..]), Slots(items[..i]), PositionValue(position))
      {
        assert Slots(items[..i + 1]) == Slots(items[..i]) + {Slot(items[i])} by {
          assert forall k :: 0 <= k < i ==> items[..i + 1][k] == items[..i][k];
        }
        input[Slot(items[i])] := PositionValue(position);
        i := i + 1;
      }
      assert items[..i] == items;
    }
  }
}
