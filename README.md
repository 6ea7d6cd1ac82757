# Double-dummy bridge card play, modelled in Dafny

This project models the card-play engine of a reinforcement-learning
environment for contract bridge. The engine is written in Python.

- **Cards and seats** (`src/models.py`):
  - cards are the identifiers 0..51, with suit `c / 13` and rank `c % 13`;
  - each card has a two-character text form, which `from_str` parses back;
  - the four seats rotate West, North, East, South, and a seat's partner sits two seats on;
  - contracts print as a trick count followed by the trump, and deals hold four hands.
- **The trick** (`Trick`): an object whose card list and leader are updated in place.
  - `add_card` refuses a fifth card.
  - `winning_card` picks the highest trump, else the highest card of the suit led.
  - `winner` walks from the leader to the seat that played the winning card.
- **The game state** (`GameState`): an object holding the four hands keyed by seat, the seat to act, the trump and the trick. It offers:
  - the seat-relative hand views;
  - the follow-suit rule `valid_moves`;
  - `any_hand_not_empty`.
- **The environment's transition** (`src/env.py`):
  - `_action_is_valid`;
  - `_move_and_get_reward`, which plays one card, scores a completed trick and passes the lead to the trick's winner;
  - `step`, which plays the agent's card and then, when West or East is to act, the opponents' card.
- **The network input encoding** (`src/network.py`): `InputPattern` writes a position code for every card of four hands and a trick into a 54-slot array, then the trump and the suit led.

The modules follow the source:

| file | contents |
|---|---|
| `seats.dfy` | seats and their rotation |
| `cards.dfy` | suits, trumps, cards and their text form, contracts, deals |
| `tricks.dfy` | the winning-card rule, and the `Trick` class |
| `engine.dfy` | the game state as a value (`Table`) and one move (`Move`) as a function, with its properties |
| `state.dfy` | the `GameState` class, proved against `Engine` |
| `env.dfy` | the `BridgeEnv` class, proved against `Engine` |
| `network.dfy` | the `InputPattern` class |

### How the Python source is represented

- **Rewards.** The float rewards (-inf, 0.1, 1.0, -1.0) are the tags of `Engine.Outcome`. `step` negates the opponents' reward; the model records that negation as the `negated` flag of `Env.StepResult`.
- **The opponent's card.** It comes from an external agent, so it is a parameter of `Step`.
- **The fallback card.** When the opponent's card is not a valid move, the source picks one with `random.sample(self.state.valid_moves, 1)`. The model picks any valid move with `:|`, and the contract only says the chosen card is a valid move. This is the behaviour of Python 3.10 and earlier, where `random.sample` accepts a set; Python 3.11 and later refuse a set there with `TypeError`, whatever it holds.
- **No valid move for the opponents.** `random.sample` raises in that case; the model returns the error `NoCardForOpponent`. `Engine.BalancedHasMove` shows this cannot happen in a properly dealt game.
- **Errors.**
  - `Card.from_str` raises `ValueError`; the model returns a `ParseError`.
  - `Trick.add_card` raises `TrickFullException` on a full trick; the model returns `TrickFull` and leaves the trick unchanged.
- **`None` for an empty trick.** `Trick.clear` stores `None` for the cards. The model stores the empty sequence, which every reader of the trick treats the same way.

### Behaviour modelled as the code has it

- **`winning_card` and `Card(0)`.** The source computes `max(trump_cards, default=None) or max(cards_in_color)`. Card 0 (the two of clubs) is falsy as a Python integer. So when clubs are trumps, the two of clubs is the only trump played, and another suit was led, the highest card of the suit led wins instead of the two of clubs. `Tricks.WinningCardFollowsLaw` proves this is the only departure from Law 44 of the Laws of Duplicate Bridge. `Tricks.ClubTwoIgnoredExample` exhibits the case.
- **`from_str` digits.** It accepts the rank digits '0' and '1': "C0" gives -2 and "D1" gives 12, the ace of clubs (`Cards.ParseLowDigits`).
- **`defence_pair`.** It returns the declarer's own pair, and `offence_pair` returns the other pair (`Cards.PairsSwapped`).
- **`winner` example.** An all-clubs trick [C2, C3, C4, C5] led by East is won by the fourth card. The code then advances three seats from East, which gives North (`Tricks.WinnerExample`).

## Model

| member | source | states |
|---|---|---|
| Seats.Index | src/models.py:21-23 | a seat's position in the order "WNES" is below four and holds the seat's letter |
| Seats.Next | src/models.py:25-28 | the seat after p in the rotation; characterised by `NextRotation`, `NextFollowsOrder` and `NextCycle` |
| Seats.Partner | src/models.py:30-32 | next of next; characterised by `PartnerInvolutive` and `SameSide` |
| Seats.NextRotation | tests/test_models.py:6-15 | next maps West to North, North to East, East to South and South to West |
| Seats.NextFollowsOrder | src/models.py:25-28 | the letter of next(p) is the letter after p's in "WNES", wrapping round modulo 4 |
| Seats.NextCycle | src/models.py:25-28 | four steps of next return to the seat, and one, two or three steps do not |
| Seats.NextNPeriodic | src/models.py:25-28 | advancing k + 4 seats is advancing k seats, for every k |
| Seats.PartnerInvolutive | src/models.py:30-32 | the partner of the partner is the seat itself; no seat is its own partner; the partner is two seats on |
| Seats.OffsetNextN | src/models.py:25-28 | every seat b is reached from a after Offset(a, b) steps, and that is the only number of steps below four that reaches it |
| Seats.SameSide | src/models.py:30-32 | b is a or a's partner exactly when their positions in "WNES" have the same parity |
| Seats.SeatsAround | src/models.py:204-218 | the acting seat and the three after it are the four seats, each once |
| Cards.ColorId | src/models.py:41-43 | Color.id is below four and indexes the suit's letter in "CDHS" |
| Cards.ColorFromId | src/models.py:66-68 | the suit chosen from an index below four has that index as its id |
| Cards.ColorFromLetter | src/models.py:35-39 | Color(letter) succeeds exactly for the letters of "CDHS", and gives the suit with that letter |
| Cards.TrumpIdMatchesSuit | src/models.py:53-58 | Trump.id is -1 exactly for no trump, and equals a suit's id exactly for that suit's trump |
| Cards.ColorOf | src/models.py:66-68 | a card's suit letter is "CDHS"[c / 13] |
| Cards.Rank | src/models.py:62-64 | Card.value, the identifier modulo 13; see `CardFromSuitAndRank` and `SameSuitOrder` |
| Cards.TrumpId | src/models.py:53-58 | the suit's id for a suit trump, -1 for no trump; see `TrumpIdMatchesSuit` |
| Cards.CardFromSuitAndRank | src/models.py:61-68 | two cards are equal exactly when their suits and ranks are equal |
| Cards.CardColorExamples | tests/test_models.py:79-90 | cards 0 and 12 are clubs, 13 diamonds, 26 hearts, 39 and 51 spades |
| Cards.ValueStr | src/models.py:70-72 | the VALUES_MAP letter for ranks 8-12, else the decimal digits of rank + 2; see `RankTokenRoundTrip` |
| Cards.Show | src/models.py:70-75 | a card's text has two characters: a suit letter, then one of 2-9, T, J, Q, K, A |
| Cards.FromStr | src/models.py:77-82 | from_str: length, then rank token, then suit letter, giving colour id * 13 + value; see `ParseShow`, `ShowParse` and `ParseLowDigits` |
| Cards.HandFactory | src/models.py:246-247 | hand_factory: the set of parsed identifiers, failing on the first bad string; see `HandFactoryParses` |
| Cards.ContractString | src/models.py:98-99 | str(contract): decimal trick count, then the trump's text value; see `ContractStringInjective` |
| Cards.RankTokenRoundTrip | src/models.py:7-8 | a rank's one-character token reads back as the rank |
| Cards.ParseShow | src/models.py:74-82 | from_str(str(c)) == c for every card |
| Cards.ShowInjective | src/models.py:74-75 | different cards have different text |
| Cards.ShowParse | src/models.py:77-82 | every string from_str accepts, with a rank token other than '0' or '1', names a card 0..51 whose text is that string |
| Cards.ParseLowDigits | src/models.py:77-82 | "C0" and "C1" parse to -2 and -1, "D1" to 12 (the ace of clubs); a string of length three, a bad suit letter and a bad rank token are refused |
| Cards.HandFactoryParses | src/models.py:246-247 | hand_factory succeeds exactly when every string parses, and then its set holds exactly the parsed identifiers |
| Cards.DigitsInjective | src/models.py:98-99 | different naturals have different decimal digit strings |
| Cards.DecimalStringInjective | src/models.py:98-99 | different integers have different decimal strings |
| Cards.ContractStringInjective | src/models.py:93-99 | different contracts print differently |
| Cards.Hands | src/models.py:161-168 | Deal.hands has an entry for every seat, and it is that seat's hand |
| Cards.DefencePair | src/models.py:174-176 | "NS" when the declarer is North or South, else "WE"; see `PairsSwapped` |
| Cards.OffencePair | src/models.py:178-180 | "NS" when the declarer is West or East, else "WE"; see `PairsSwapped` |
| Cards.PairsSwapped | src/models.py:174-180 | the defence and offence pairs differ and split the seats between them; the declarer and partner are in defence_pair, and the next seat is in offence_pair |
| Tricks.IsTrumpSuit | src/models.py:136 | comparing a card's suit letter with the trump's text value selects exactly the cards of the trump suit, and none at no trump |
| Tricks.SameSuitOrder | src/models.py:61-68 | within one suit, identifier order is rank order |
| Tricks.TrumpCards | src/models.py:136 | a card is in the list exactly when it is in the trick and is a trump |
| Tricks.CardsInColor | src/models.py:137 | a card is in the list exactly when it is in the trick and in the given suit |
| Tricks.MaxCard | src/models.py:138 | max of a non-empty list is one of its elements and is at least every element |
| Tricks.WinningCardOf | src/models.py:132-138 | there is a winning card exactly when the trick holds four cards, and it is one of them |
| Tricks.LawWinnerUnique | src/models.py:132-138 | Law 44 designates at most one winning card |
| Tricks.MaxCardIsHighestRank | src/models.py:138 | the highest identifier among cards of one suit has the highest rank |
| Tricks.WinningCardFollowsLaw | src/models.py:132-138 | on a full trick, winning_card is the card Law 44 designates exactly when the trick is not the ClubTwoIgnored shape; in that shape the law gives the trick to the two of clubs, while winning_card picks a card of the suit led |
| Tricks.WinningCardNeedsFullTrick | tests/test_models.py:66-67 | an empty trick and a one-card trick have no winning card |
| Tricks.WinningCardNoTrumpExample | tests/test_models.py:68 | at no trump, the trick [0, 1, 2, 3] is won by card 3 |
| Tricks.WinningCardAllTrumpsExample | tests/test_models.py:69 | with clubs trumps, the trick [0, 1, 2, 3] is won by card 3 |
| Tricks.WinningCardClubTwoLedExample | tests/test_models.py:70 | with clubs trumps, the trick [0, 13, 14, 15] is won by card 0 |
| Tricks.WinningCardTrumpedExample | tests/test_models.py:71 | with diamonds trumps, the trick [0, 13, 14, 15] is won by card 15 |
| Tricks.WinningCardNoTrumpPlayedExample | tests/test_models.py:72 | with diamonds trumps, the trick [0, 1, 2, 3] is won by card 3 |
| Tricks.ClubTwoIgnoredShape | src/models.py:138 | the trick [14, 0, 13, 15] with clubs trumps has the ClubTwoIgnored shape |
| Tricks.ClubTwoIgnoredExample | src/models.py:138 | in that trick winning_card is card 15, not the trump two of clubs |
| Tricks.SuitLed | src/models.py:116-118 | the suit of the first card; none exactly for an empty trick |
| Tricks.IndexOf | src/models.py:142 | list.index gives the first position holding the card |
| Tricks.Trick.constructor | src/models.py:102-106 | a new trick has the given trump, no cards and no leader |
| Tricks.Trick.LedColor | src/models.py:116-118 | Trick.color: `SuitLed` of the cards, absent exactly when the trick is empty |
| Tricks.Trick.Empty | src/models.py:108-110 | Trick.empty: no cards |
| Tricks.Trick.Full | src/models.py:112-114 | Trick.full: four cards |
| Tricks.Trick.AddCard | src/models.py:120-127 | the first card also sets the leader; later cards are appended with the leader kept; a full trick refuses the card and is unchanged; the trick never exceeds four cards |
| Tricks.Trick.Clear | src/models.py:129-130 | the trick has no cards and no leader |
| Tricks.Trick.WinningCard | src/models.py:132-138 | Trick.winning_card: `WinningCardOf` on the trick's trump and cards; see `WinningCardFollowsLaw` |
| Tricks.Trick.Winner | src/models.py:140-148 | no winner until the trick is full; then the leader advanced once per card before the winning card |
| Tricks.WinnerExample | src/models.py:140-148 | the no-trump trick [0, 1, 2, 3] led by East is won by its fourth card, which belongs to North |
| Engine.ValidMovesOf | src/models.py:220-227 | valid_moves on a hand and the suit led; characterised by `FollowSuit` |
| Engine.FollowSuit | src/models.py:220-227 | a card is a valid move exactly when it is in the hand and either nothing was led, it follows the suit led, or the hand is void in that suit; valid moves are part of the hand, and empty only for an empty hand |
| Engine.ValidMovesExamples | tests/test_models.py:39-61 | East holding 0, 13, 26 and 39 may play all four on an empty trick, and exactly the card of the suit led otherwise |
| Engine.ValidMoves | src/models.py:220-227 | valid_moves of a state: `ValidMovesOf` on the acting hand and the suit led; see `FollowSuit` and `State.GameState.ValidMoves` |
| Engine.PlayerHand | src/models.py:204-206 | the acting seat's hand; see `SeatViews` |
| Engine.LeftOpponentHand | src/models.py:208-210 | the hand of the next seat; see `SeatViews` |
| Engine.PartnerHand | src/models.py:212-214 | the hand two seats on; see `SeatViews` |
| Engine.RightOpponentHand | src/models.py:216-218 | the hand three seats on; see `SeatViews` |
| Engine.AnyHandNotEmpty | src/models.py:229-233 | some of the four views holds a card; see `AnyHandNotEmptyEverySeat` |
| Engine.ActionIsValid | src/env.py:101-106 | the card is in the acting hand and among the valid moves; see `ActionIsValidFollowsSuit` |
| Engine.TrickWinner | src/models.py:140-148 | the leader advanced by the position of the winning card; `Tricks.Trick.Winner` is proved equal to it, and `MoveClosesTrick` uses it |
| Engine.FromDeal | src/models.py:191-199 | the state from a deal has the deal's hands for every seat, the deal's leader to act, its trump, defence, and an empty trick with no leader |
| Engine.FromDealExample | tests/test_models.py:18-36 | for the test deal, the four views are {2}, {3}, {0}, {1}; East acts, at no trump, on defence |
| Engine.SeatViews | src/models.py:204-218 | the four views are the hands of the acting seat and the next three seats, and every hand is one of them |
| Engine.AnyHandNotEmptyEverySeat | src/models.py:229-233 | any_hand_not_empty is false exactly when every seat's hand is empty |
| Engine.ActionIsValidFollowsSuit | src/env.py:101-106 | an action is valid exactly when it is a valid move, and then it is in the acting hand |
| Engine.Move | src/env.py:79-94 | one move leaves a state with every seat's hand and a trick short of four cards |
| Engine.MoveTakesCard | src/env.py:80-81 | a move removes exactly the played card from the acting hand and leaves the other hands, the trump and the role alone |
| Engine.MoveOpenTrick | src/env.py:79-94 | a move that does not fill the trick appends the card, makes the first card's player the leader, passes the turn to the next seat and scores VALID_MOVE |
| Engine.MoveClosesTrick | src/env.py:85-91 | a move that fills the trick clears it and gives the turn to the trick's winner; TRICK_WON exactly when the winner is on the acting seat's side, TRICK_LOST exactly when not |
| Engine.MoveDone | src/env.py:83 | done holds exactly when every hand is empty after the move |
| Engine.MoveUsesOneCard | src/env.py:80-81 | every move lowers the number of cards in the four hands by one |
| Engine.FromDealBalanced | src/models.py:191-199 | a deal with four hands of one size starts balanced |
| Engine.MoveKeepsBalance | src/env.py:79-94 | a move by the seat in turn keeps the turn order and keeps every hand the size its seat's place in the trick calls for |
| Engine.BalancedHasMove | src/env.py:72-73 | in a balanced state with some card left, the acting seat has a valid move, so the random fallback always has a card to pick |
| Engine.DoneOnlyWhenTrickCloses | src/env.py:83-91 | in a balanced state the game ends only on a move that completes a trick, scored TRICK_WON or TRICK_LOST |
| State.GameState.FromDeal | src/models.py:191-199 | from_deal: the deal's hands, its leader to act, defence, and an empty trick in the contract's trump |
| State.GameState.PlayerHand | src/models.py:204-206 | player_hand: the acting seat's hand |
| State.GameState.LeftOpponentHand | src/models.py:208-210 | left_opponent_hand: the next seat's hand |
| State.GameState.PartnerHand | src/models.py:212-214 | partner_hand: the hand two seats on |
| State.GameState.RightOpponentHand | src/models.py:216-218 | right_opponent_hand: the hand three seats on |
| State.GameState.ValidMoves | src/models.py:220-227 | the object's valid_moves are those of its value |
| State.GameState.AnyHandNotEmpty | src/models.py:229-233 | the object's any_hand_not_empty is that of its value |
| Env.BridgeEnv.Setup | src/env.py:50-53 | setup stores the deal and starts the game state from it |
| Env.BridgeEnv.ActionIsValid | src/env.py:101-106 | _action_is_valid holds exactly when the card is in the acting hand and among the valid moves |
| Env.BridgeEnv.MoveAndGetReward | src/env.py:79-94 | the new state, the reward, done and the info are those of one move from the old state |
| Env.BridgeEnv.OpponentMove | src/env.py:69-76 | the opponents play their card if it is valid, else some valid move; they get the reward of that move, negated, and the info of both moves; with no valid move the result is an error; a balanced state never errs and stays balanced |
| Env.BridgeEnv.Step | src/env.py:61-77 | an invalid action gives INVALID_MOVE, not done, "." and changes nothing; a valid one makes one move, then the opponents' move when the game is not over and West or East is to act; step keeps a balanced game balanced and error-free |
| Network.PositionValue | src/network.py:13-18 | position codes are 0..4 |
| Network.PositionValueInjective | src/network.py:13-18 | different positions have different codes |
| Network.SuitValue | src/network.py:21-26 | suit codes are -1..3 |
| Network.SuitOf | src/network.py:21-26 | Suit(v) succeeds exactly for v in -1..3 and gives the member with value v |
| Network.SuitRoundTrip | src/network.py:21-26 | Suit(s.value) is s |
| Network.TrumpValue | src/network.py:29-34 | trump codes are -1..3 |
| Network.TrumpOf | src/network.py:29-34 | Trump(v) succeeds exactly for v in -1..3 and gives the member with value v |
| Network.TrumpRoundTrip | src/network.py:29-34 | Trump(t.value) is t |
| Network.Encoding | src/network.py:38-46 | the reference encoding: slot 52 the trump, 53 the suit led, a card slot the code of the last list naming it, else -1; see `OverwritesGiveEncoding`, `EncodingRange`, `EncodingLossless` |
| Network.OverwritesGiveEncoding | src/network.py:38-46 | 54 slots of -1, overwritten by the five lists in order and then by the two codes, are the encoding, in which a card slot takes the code of the last list naming it |
| Network.EncodingRange | src/network.py:39-46 | card slots hold -1..4; slot 52 holds the trump and slot 53 the suit led |
| Network.EncodingLossless | src/network.py:38-50 | for disjoint lists of cards, a card slot holds a list's code exactly when the list holds the card, and -1 exactly when no list does |
| Network.InputPattern.constructor | src/network.py:38-46 | the array is the encoding of the four hands, the trick, the trump and the suit led, a missing list counting as empty |
| Network.InputPattern.MapCardsToInput | src/network.py:48-50 | every slot the list names, counting negative indices from the end, gets the position's code, and the other slots are unchanged |

## Left out

- `BridgeEnv.__init__` (gym spaces), `render` (output to stdout or a StringIO) and `_state_to_observation` (dict packaging) are I/O or framework glue. `step` returns its outcome without the observation.
- `BridgeEnv.reset` is not modelled. It calls the external agent and plays its card without the valid-move fallback of `step`.
- The float reward values and `Rewards.OTHER`: rewards are outcome tags (see above), and `OTHER` is never returned by the modelled code.
- `GameState.__str__` and `to_dict` are left out. Their card order follows Python set iteration and `dataclasses.asdict`.
- `InputPattern.get_array` and the keras `model()` are left out. The first is a numpy reshape and the second a foreign library call.
- Env.BridgeEnv.Step: takes the action as a card 0..51, so the `assert self.action_space.contains(action)` of `step` and its failure for other actions are not modelled.
- Env.BridgeEnv.OpponentMove: follows Python 3.10 and earlier, where `random.sample` accepts the set of valid moves; under Python 3.11 and later the fallback raises `TypeError` whenever it is reached, which is not modelled. The choice made by `random.sample` is not modelled; the contract says only that some valid move is played.
- Network.InputPattern.MapCardsToInput: requires every index in -54..53, because numpy raises `IndexError` outside that range; the error itself is not modelled.
- Network.InputPattern.constructor: requires the trump and suit codes in -1..3, because the enum lookup raises outside that range; the error itself is not modelled.
- Cards.FromStr: Python's `int` also accepts non-ASCII decimal digits as rank tokens; the model accepts only '0'-'9'.
- Deals hold cards 0..51 only. A deal built from strings with the rank token '0' or '1' (identifiers -2 and -1) is not modelled.
- Tricks built with cards but without a leader, as the unit tests do for `valid_moves` and `winning_card`, are not modelled as `Trick` objects. The rules are stated on the card list (`Tricks.WinningCardOf`, `Engine.ValidMovesOf`) instead.
- Hands set to `None`, as in the `valid_moves` unit test, are not modelled: every seat holds a set.
- `src/data.py`, `src/train.py`, `src/validate.py`, `src/agents.py` and `chart_draw.py` are not part of this model.
