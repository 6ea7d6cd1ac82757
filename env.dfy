/**
 * The transition of BridgeEnv in src/env.py: checking an action, playing
 * one card, and a step that plays the agent's card and then, if it is
 * their turn, a card for the West-East opponents.
 */
module Env {
  import opened Wrappers
  import opened Seats
  import opened Cards
  import opened Tricks
  import opened Engine
  import opened State

  /** What step returns, less the observation: the reward tag, whether the opponents' reward was negated, done, and the info text. */
  datatype StepResult = StepResult(reward: Outcome, negated: bool, done: bool, info: string)

  /** random.sample raises when the opponents must fall back on a legal card and have none. */
  datatype StepError = NoCardForOpponent

  /** The opponents (West and East) are to play and the game is not over. */
  predicate OpponentsToPlay(m: MoveResult)
  {
    !m.done && (m.table.current == West || m.table.current == East)
  }

  class BridgeEnv {
    const deal: Deal
    var state: GameState

    /** setup: a game in its starting state for the deal. */
    constructor Setup(deal: Deal)
      ensures this.deal == deal && fresh(state) && fresh(state.trick)
      ensures state.Valid() && state.Abstract() == Engine.FromDeal(deal)
    {
      this.deal := deal;
      state := new GameState.FromDeal(deal);
    }

    /** _action_is_valid: the card is in the acting hand and among the valid moves. */
    predicate ActionIsValid(action: Card)
      reads this, state, state.trick
      requires state.Valid()
      ensures ActionIsValid(action) == Engine.ActionIsValid(state.Abstract(), action)
    {
      action in state.PlayerHand() && action in state.ValidMoves()
    }

    /** _move_and_get_reward, on an open trick with the card in the acting hand. */
    method MoveAndGetReward(card: Card) returns (reward: Outcome, done: bool, info: string)
      requires state.Valid() && card in state.PlayerHand()
      modifies state, state.trick
      ensures state.Valid()
      ensures var m := Move(old(state.Abstract()), card);
        state.Abstract() == m.table && reward == m.reward && done == m.done && info == m.info
    {
      ghost var before := state.Abstract();
      var current := state.currentPlayer;
      var added := state.trick.AddCard(card, current);
      state.hands := state.hands[current := state.hands[current] - {card}];
      info := [Letter(current)] + ":" + Show(card);
      done := !state.AnyHandNotEmpty();
      assert state.Abstract() == before.(hands := state.hands, cards := before.cards + [card],
        leader := if before.cards == [] then Some(current) else before.leader);
      if state.trick.Full() {
        var winner := state.trick.Winner();
        reward := if winner.value == current || winner.value == Partner(current) then TrickWon else TrickLost;
        state.trick.Clear();
        state.currentPlayer := winner.value;
      } else {
        state.currentPlayer := Next(current);
        reward := ValidMove;
      }
    }

    /**
     * The opponents' half of step, with West or East to act: their card if
     * it is a valid move, otherwise some valid move, played through
     * _move_and_get_reward, its reward negated and its info appended to the
     * agent's. random.sample raises when there is no valid move at all.
     */
    method OpponentMove(info: string, opponentCard: int) returns (r: Result<StepResult, StepError>, ghost reply: Option<Card>)
      requires state.Valid() && Engine.AnyHandNotEmpty(state.Abstract())
      modifies state, state.trick
      ensures state.Valid()
      ensures var t := old(state.Abstract());
        if Engine.ValidMoves(t) == {} then
          r == Err(NoCardForOpponent) && state.Abstract() == t
        else
          reply.Some? && reply.value in Engine.ValidMoves(t) &&
          (opponentCard in Engine.ValidMoves(t) ==> reply.value == opponentCard) &&
          var o := Move(t, reply.value);
          r == Ok(StepResult(o.reward, true, o.done, info + o.info)) && state.Abstract() == o.table
      ensures Balanced(old(state.Abstract())) ==> r.Ok? && Balanced(state.Abstract())
    {
      ghost var t := state.Abstract();
      var moves := state.ValidMoves();
      var card: Card;
      if 0 <= opponentCard < 52 && opponentCard in moves {
        card := opponentCard;
      } else {
        if moves == {} {
          if Balanced(t) {
            BalancedHasMove(t);
          }
          return Err(NoCardForOpponent), None;
        }
        card :| card in moves;
      }
      FollowSuit(Engine.PlayerHand(t), SuitLed(t.cards), card);
      if Balanced(t) {
        MoveKeepsBalance(t, card);
      }
      var reward, done, opponentInfo := MoveAndGetReward(card);
      r, reply := Ok(StepResult(reward, true, done, info + opponentInfo)), Some(card);
    }

    /**
     * step: an invalid action is refused with INVALID_MOVE and changes
     * nothing; otherwise the card is played, and if West or East is then to
     * play in a game not over, the opponents' move follows (OpponentMove).
     * The card played for the opponents is returned as a ghost value.
     */
    method Step(action: Card, opponentCard: int) returns (r: Result<StepResult, StepError>, ghost reply: Option<Card>)
      requires state.Valid()
      modifies state, state.trick
      ensures state.Valid()
      ensures !Engine.ActionIsValid(old(state.Abstract()), action) ==>
        r == Ok(StepResult(InvalidMove, false, false, ".")) && state.Abstract() == old(state.Abstract())
      ensures Engine.ActionIsValid(old(state.Abstract()), action) ==>
        var m := Move(old(state.Abstract()), action);
        if !OpponentsToPlay(m) then
          r == Ok(StepResult(m.reward, false, m.done, m.info)) && state.Abstract() == m.table
        else if Engine.ValidMoves(m.table) == {} then
          r == Err(NoCardForOpponent) && state.Abstract() == m.table
        else
          reply.Some? && reply.value in Engine.ValidMoves(m.table) &&
          (opponentCard in Engine.ValidMoves(m.table) ==> reply.value == opponentCard) &&
          var o := Move(m.table, reply.value);
          r == Ok(StepResult(o.reward, true, o.done, m.info + o.info)) && state.Abstract() == o.table
      ensures Balanced(old(state.Abstract())) ==> r.Ok? && Balanced(state.Abstract())
    {
      if !ActionIsValid(action) {
        return Ok(StepResult(InvalidMove, false, false, ".")), None;
      }
      ghost var start := state.Abstract();
      ActionIsValidFollowsSuit(start, action);
      MoveDone(start, action);
      if Balanced(start) {
        MoveKeepsBalance(start, action);
      }
      var reward, done, info := MoveAndGetReward(action);
      if done || !(state.currentPlayer == West || state.currentPlayer == East) {
        return Ok(StepResult(reward, false, done, info)), None;
      }
      r, reply := OpponentMove(info, opponentCard);
    }
  }
}
