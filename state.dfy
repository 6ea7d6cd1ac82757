/**
 * GameState of src/models.py as an object: the hands and the seat to act
 * are fields that the environment reassigns, and the trick is an object
 * updated in place. Abstract() is its value as an Engine.Table.
 */
module State {
  import opened Wrappers
  import opened Seats
  import opened Cards
  import opened Tricks
  import opened Engine

  class GameState {
    var hands: map<Player, set<Card>>
    var currentPlayer: Player
    const trump: Trump
    const playType: PlayType
    const trick: Trick

    /** The state's value. */
    function Abstract(): Table
      reads this, trick
    {
      Table(hands, currentPlayer, trump, playType, trick.cards, trick.leader)
    }

    /** Every seat has a hand, the trick is open and uses the game's trump. */
    ghost predicate Valid()
      reads this, trick
    {
      WellFormed(Abstract()) && trick.Valid() && trick.trump == trump
    }

    /** GameState.from_deal: a copy of the deal's hands (sets are values, so nothing is shared) and a fresh empty trick. */
    constructor FromDeal(deal: Deal)
      ensures Valid() && fresh(trick)
      ensures Abstract() == Engine.FromDeal(deal)
    {
      hands := Hands(deal);
      currentPlayer := deal.leader;
      trump := deal.contract.trump;
      playType := Defence;
      trick := new Trick(deal.contract.trump);
    }

    /** player_hand */
    function PlayerHand(): set<Card>
      reads this
      requires AllSeats(hands)
    {
      var p := currentPlayer;
      hands[p]
    }

    /** left_opponent_hand */
    function LeftOpponentHand(): set<Card>
      reads this
      requires AllSeats(hands)
    {
      hands[Next(currentPlayer)]
    }

    /** partner_hand */
    function PartnerHand(): set<Card>
      reads this
      requires AllSeats(hands)
    {
      hands[Next(Next(currentPlayer))]
    }

    /** right_opponent_hand */
    function RightOpponentHand(): set<Card>
      reads this
      requires AllSeats(hands)
    {
      hands[Next(Next(Next(currentPlayer)))]
    }

    /** valid_moves, from the acting hand and the suit the trick's first card set. */
    function ValidMoves(): (r: set<Card>)
      reads this, trick
      requires Valid()
      ensures r == Engine.ValidMoves(Abstract())
    {
      ValidMovesOf(PlayerHand(), trick.LedColor())
    }

    /** any_hand_not_empty */
    predicate AnyHandNotEmpty()
      reads this, trick
      requires AllSeats(hands)
      ensures AnyHandNotEmpty() == Engine.AnyHandNotEmpty(Abstract())
    {
      |PlayerHand()| != 0 || |LeftOpponentHand()| != 0 || |PartnerHand()| != 0 || |RightOpponentHand()| != 0
    }
  }
}
