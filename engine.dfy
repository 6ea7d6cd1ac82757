/**
 * The game state of src/models.py (GameState) and the transition that plays
 * one card (BridgeEnv._move_and_get_reward in src/env.py), as functions on
 * values. The classes in state.dfy and env.dfy are proved against these.
 */
module Engine {
  import opened Wrappers
  import opened Seats
  import opened Cards
  import opened Tricks

  /** PlayType: offence or defence. */
  datatype PlayType = Offence | Defence

  /** valid_moves: with nothing led, the whole hand; else the cards of the suit led, or the whole hand if it has none. */
  function ValidMovesOf(hand: set<Card>, led: Option<Color>): set<Card>
  {
    if led.None? then hand
    else
      var inColor := set c | c in hand && ColorOf(c) == led.value;
      if inColor != {} then inColor else hand
  }

  /**
   * The follow-suit rule: a card may be played exactly when it is in the
   * hand and either nothing was led, or it follows the suit led, or the
   * hand is void in that suit. A non-empty hand always has a legal card.
   */
  lemma FollowSuit(hand: set<Card>, led: Option<Color>, c: Card)
    ensures c in ValidMovesOf(hand, led) <==>
      c in hand && (led.None? || ColorOf(c) == led.value || forall x :: x in hand ==> ColorOf(x) != led.value)
    ensures ValidMovesOf(hand, led) <= hand
    ensures ValidMovesOf(hand, led) == {} <==> hand == {}
  {
    if led.Some? && hand != {} {
      var inColor := set x | x in hand && ColorOf(x) == led.value;
      if inColor == {} {
        forall x | x in hand ensures ColorOf(x) != led.value {
          assert x !in inColor;
        }
      } else {
        var y :| y in inColor;
      }
    }
  }

  /** The cases of the unit test: East holds one card of each suit. */
  lemma ValidMovesExamples()
    ensures ValidMovesOf({0, 13, 26, 39}, None) == {0, 13, 26, 39}
    ensures ValidMovesOf({0, 13, 26, 39}, Some(ColorOf(1))) == {0}
    ensures ValidMovesOf({0, 13, 26, 39}, Some(ColorOf(14))) == {13}
    ensures ValidMovesOf({0, 13, 26, 39}, Some(ColorOf(27))) == {26}
    ensures ValidMovesOf({0, 13, 26, 39}, Some(ColorOf(51))) == {39}
  {
    var hand: set<Card> := {0, 13, 26, 39};
    assert ColorOf(0) == Clubs && ColorOf(13) == Diamonds && ColorOf(26) == Hearts && ColorOf(39) == Spades;
    assert ColorOf(1) == Clubs && ColorOf(14) == Diamonds && ColorOf(27) == Hearts && ColorOf(51) == Spades;
    assert (set c | c in hand && ColorOf(c) == Clubs) == {0};
    assert (set c | c in hand && ColorOf(c) == Diamonds) == {13};
    assert (set c | c in hand && ColorOf(c) == Hearts) == {26};
    assert (set c | c in hand && ColorOf(c) == Spades) == {39};
  }

  /**
   * The state of play: the hand of every seat, the seat to act, the trump,
   * the role tag, and the current trick's cards and leader.
   */
  datatype Table = Table(
    hands: map<Player, set<Card>>, current: Player, trump: Trump, playType: PlayType,
    cards: seq<Card>, leader: Option<Player>)

  /** Every seat has a hand, and the trick between moves is short of four cards, with a leader exactly while it has a card. */
  predicate WellFormed(t: Table)
  {
    AllSeats(t.hands) && |t.cards| < 4 && (t.cards == [] <==> t.leader.None?)
  }

  /** GameState.from_deal: the deal's hands, its leader to play, defence, and an empty trick in the deal's trump. */
  function FromDeal(d: Deal): (t: Table)
    ensures WellFormed(t) && t.cards == [] && t.leader == None
    ensures t.current == d.leader && t.trump == d.contract.trump && t.playType == Defence
    ensures t.hands == Hands(d)
  {
    Table(Hands(d), d.leader, d.contract.trump, Defence, [], None)
  }

  /** player_hand */
  function PlayerHand(t: Table): set<Card>
    requires AllSeats(t.hands)
  {
    t.hands[t.current]
  }

  /** left_opponent_hand: the hand of the next seat. */
  function LeftOpponentHand(t: Table): set<Card>
    requires AllSeats(t.hands)
  {
    t.hands[Next(t.current)]
  }

  /** partner_hand: the hand two seats on. */
  function PartnerHand(t: Table): set<Card>
    requires AllSeats(t.hands)
  {
    t.hands[Next(Next(t.current))]
  }

  /** right_opponent_hand: the hand three seats on. */
  function RightOpponentHand(t: Table): set<Card>
    requires AllSeats(t.hands)
  {
    t.hands[Next(Next(Next(t.current)))]
  }

  /** The unit test's deal: one card each, East to lead at no trump. */
  lemma FromDealExample()
    ensures var t := FromDeal(Deal({0}, {1}, {2}, {3}, South, East, Contract(1, NoTrump)));
      PlayerHand(t) == {2} && LeftOpponentHand(t) == {3} && PartnerHand(t) == {0} &&
      RightOpponentHand(t) == {1} && t.current == East && t.trump == NoTrump && t.playType == Defence
  {
  }

  /** The seat-relative views are the hands of the acting seat and the three after it; every hand is one of them. */
  lemma SeatViews(t: Table, p: Player)
    requires AllSeats(t.hands)
    ensures p == t.current ==> t.hands[p] == PlayerHand(t)
    ensures p == Next(t.current) ==> t.hands[p] == LeftOpponentHand(t)
    ensures p == Partner(t.current) ==> t.hands[p] == PartnerHand(t)
    ensures p == Next(Partner(t.current)) ==> t.hands[p] == RightOpponentHand(t)
    ensures t.hands[p] in {PlayerHand(t), LeftOpponentHand(t), PartnerHand(t), RightOpponentHand(t)}
  {
    SeatsAround(t.current, p);
  }

  /** any_hand_not_empty: some seat-relative view holds a card. */
  predicate AnyHandNotEmpty(t: Table)
    requires AllSeats(t.hands)
  {
    |PlayerHand(t)| != 0 || |LeftOpponentHand(t)| != 0 || |PartnerHand(t)| != 0 || |RightOpponentHand(t)| != 0
  }

  /** Checking the four relative views is checking every seat. */
  lemma AnyHandNotEmptyEverySeat(t: Table)
    requires AllSeats(t.hands)
    ensures !AnyHandNotEmpty(t) <==> forall p: Player :: t.hands[p] == {}
  {
    if !AnyHandNotEmpty(t) {
      forall p: Player ensures t.hands[p] == {} {
        SeatViews(t, p);
      }
    }
  }

  /** valid_moves of the state. */
  function ValidMoves(t: Table): set<Card>
    requires AllSeats(t.hands)
  {
    ValidMovesOf(PlayerHand(t), SuitLed(t.cards))
  }

  /** BridgeEnv._action_is_valid: the card is in the acting hand and among the valid moves. */
  predicate ActionIsValid(t: Table, card: Card)
    requires AllSeats(t.hands)
  {
    card in PlayerHand(t) && card in ValidMoves(t)
  }

  /** The hand test is implied by the valid-moves test, so validity is the follow-suit rule alone. */
  lemma ActionIsValidFollowsSuit(t: Table, card: Card)
    requires WellFormed(t)
    ensures ActionIsValid(t, card) <==> card in ValidMoves(t)
    ensures ActionIsValid(t, card) ==> card in PlayerHand(t)
  {
    FollowSuit(PlayerHand(t), SuitLed(t.cards), card);
  }

  /** The reward tags of Rewards in src/env.py. */
  datatype Outcome = InvalidMove | ValidMove | TrickWon | TrickLost

  /** What one move returns: the new state, the reward, whether every hand is empty, and the "seat:card" note. */
  datatype MoveResult = MoveResult(table: Table, reward: Outcome, done: bool, info: string)

  /** The winner of a full trick: the leader advanced by the position of the winning card. */
  function TrickWinner(t: Trump, leader: Player, cards: seq<Card>): Player
    requires |cards| == 4
  {
    NextN(leader, IndexOf(cards, WinningCardOf(t, cards).value))
  }

  /**
   * _move_and_get_reward: put the card on the trick under the acting seat,
   * take it out of the acting hand, then either pass the turn on, or, when
   * the trick is full, score it for or against the acting pair, clear it
   * and give the lead to its winner.
   */
  function Move(t: Table, card: Card): (r: MoveResult)
    requires WellFormed(t) && card in PlayerHand(t)
    ensures WellFormed(r.table)
  {
    var cards := t.cards + [card];
    var leader := if t.cards == [] then t.current else t.leader.value;
    var hands := t.hands[t.current := t.hands[t.current] - {card}];
    var info := [Letter(t.current)] + ":" + Show(card);
    var done := !AnyHandNotEmpty(t.(hands := hands));
    if |cards| == 4 then
      var winner := TrickWinner(t.trump, leader, cards);
      var reward := if winner == t.current || winner == Partner(t.current) then TrickWon else TrickLost;
      MoveResult(t.(hands := hands, current := winner, cards := [], leader := None), reward, done, info)
    else
      MoveResult(t.(hands := hands, current := Next(t.current), cards := cards, leader := Some(leader)), ValidMove, done, info)
  }

  /**
   * One move takes exactly the played card out of the acting hand and leaves
   * every other hand alone.
   */
  lemma MoveTakesCard(t: Table, card: Card, p: Player)
    requires WellFormed(t) && card in PlayerHand(t)
    ensures var r := Move(t, card);
      (p == t.current ==> r.table.hands[p] == t.hands[p] - {card} && |r.table.hands[p]| == |t.hands[p]| - 1) &&
      (p != t.current ==> r.table.hands[p] == t.hands[p])
    ensures Move(t, card).table.trump == t.trump && Move(t, card).table.playType == t.playType
  {
  }

  /**
   * A move that does not fill the trick adds the card to it, passes the turn
   * to the next seat and scores VALID_MOVE; the first card makes the acting
   * seat the leader.
   */
  lemma MoveOpenTrick(t: Table, card: Card)
    requires WellFormed(t) && card in PlayerHand(t) && |t.cards| < 3
    ensures var r := Move(t, card);
      r.table.cards == t.cards + [card] && r.table.current == Next(t.current) && r.reward == ValidMove &&
      r.table.leader == (if t.cards == [] then Some(t.current) else t.leader)
  {
  }

  /**
   * A move that fills the trick clears it and hands the lead to the
   * trick's winner; the reward is TRICK_WON exactly when the winner sits on
   * the acting seat's side, and TRICK_LOST otherwise.
   */
  lemma MoveClosesTrick(t: Table, card: Card)
    requires WellFormed(t) && card in PlayerHand(t) && |t.cards| == 3
    ensures var r := Move(t, card);
      r.table.cards == [] && r.table.leader == None &&
      r.table.current == TrickWinner(t.trump, t.leader.value, t.cards + [card]) &&
      (r.reward == TrickWon <==> Index(r.table.current) % 2 == Index(t.current) % 2) &&
      (r.reward == TrickLost <==> Index(r.table.current) % 2 != Index(t.current) % 2)
  {
    var r := Move(t, card);
    SameSide(t.current, r.table.current);
  }

  /** done: the move emptied the last card from every hand. */
  lemma MoveDone(t: Table, card: Card)
    requires WellFormed(t) && card in PlayerHand(t)
    ensures Move(t, card).done <==> forall p: Player :: Move(t, card).table.hands[p] == {}
    ensures Move(t, card).done <==> !AnyHandNotEmpty(Move(t, card).table)
  {
    var r := Move(t, card);
    AnyHandNotEmptyEverySeat(t.(hands := r.table.hands));
    AnyHandNotEmptyEverySeat(r.table);
  }

  /** The total number of cards in the four hands. */
  function CardsLeft(t: Table): nat
    requires AllSeats(t.hands)
  {
    |t.hands[West]| + |t.hands[North]| + |t.hands[East]| + |t.hands[South]|
  }

  /** Every move uses up exactly one card of the deal. */
  lemma MoveUsesOneCard(t: Table, card: Card)
    requires WellFormed(t) && card in PlayerHand(t)
    ensures CardsLeft(Move(t, card).table) == CardsLeft(t) - 1
  {
    var r := Move(t, card);
    forall p: Player ensures p != t.current ==> r.table.hands[p] == t.hands[p] {
      MoveTakesCard(t, card, p);
    }
    MoveTakesCard(t, card, t.current);
  }

  /** The seat to act is the one after the last card played in the trick. */
  predicate InTurn(t: Table)
  {
    WellFormed(t) && (t.leader.Some? ==> t.current == NextN(t.leader.value, |t.cards|))
  }

  /** Seat p has already played to the current trick. */
  predicate Played(t: Table, p: Player)
  {
    t.leader.Some? && Offset(t.leader.value, p) < |t.cards|
  }

  /**
   * The hands are as a proper deal leaves them: every seat that has not yet
   * played to the current trick holds as many cards as the seat to act, and
   * every seat that has played holds one fewer.
   */
  predicate Balanced(t: Table)
  {
    InTurn(t) && forall p: Player :: |t.hands[p]| + (if Played(t, p) then 1 else 0) == |t.hands[t.current]|
  }

  /** A deal whose hands are all the same size starts balanced. */
  lemma FromDealBalanced(d: Deal)
    requires |d.handW| == |d.handN| == |d.handE| == |d.handS|
    ensures Balanced(FromDeal(d))
  {
  }

  /** Playing a card keeps the turn order and the balance of the hands. */
  lemma MoveKeepsBalance(t: Table, card: Card)
    requires Balanced(t) && card in PlayerHand(t)
    ensures Balanced(Move(t, card).table)
  {
    var r := Move(t, card);
    var u := r.table;
    var n := |t.hands[t.current]|;
    var l := if t.cards == [] then t.current else t.leader.value;
    var k := |t.cards|;
    assert t.current == NextN(l, k);
    OffsetNextN(l, t.current, k);
    assert Offset(l, t.current) == k;
    forall p: Player | p != t.current
      ensures |u.hands[p]| == |t.hands[p]|
    {
      MoveTakesCard(t, card, p);
    }
    MoveTakesCard(t, card, t.current);
    if k < 3 {
      assert u.current == NextN(l, k + 1);
      OffsetNextN(l, u.current, k + 1);
      assert u.current != t.current;
      assert !Played(t, u.current);
      forall p: Player
        ensures |u.hands[p]| + (if Played(u, p) then 1 else 0) == |u.hands[u.current]|
      {
        OffsetNextN(l, p, k);
        if p == t.current {
          assert Played(u, p);
        } else {
          assert Played(u, p) <==> Played(t, p);
        }
      }
    } else {
      forall p: Player
        ensures |u.hands[p]| == n - 1
      {
        OffsetNextN(l, p, k);
        if p != t.current {
          assert Played(t, p);
        }
      }
    }
  }

  /** With balanced hands, a seat still holding cards means the seat to act holds cards and has a legal card to play. */
  lemma BalancedHasMove(t: Table)
    requires Balanced(t) && AnyHandNotEmpty(t)
    ensures PlayerHand(t) != {} && ValidMoves(t) != {}
  {
    AnyHandNotEmptyEverySeat(t);
    var p: Player :| t.hands[p] != {};
    assert |t.hands[p]| > 0;
    FollowSuit(PlayerHand(t), SuitLed(t.cards), 0);
  }

  /** With balanced hands the last cards run out only as a trick is completed. */
  lemma DoneOnlyWhenTrickCloses(t: Table, card: Card)
    requires Balanced(t) && card in PlayerHand(t) && Move(t, card).done
    ensures |t.cards| == 3 && Move(t, card).reward in {TrickWon, TrickLost}
  {
    var r := Move(t, card);
    if |t.cards| < 3 {
      var l := if t.cards == [] then t.current else t.leader.value;
      OffsetNextN(l, Next(t.current), |t.cards| + 1);
      MoveTakesCard(t, card, Next(t.current));
      MoveDone(t, card);
      assert false;
    }
  }
}
