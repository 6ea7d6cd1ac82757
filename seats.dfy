/**
 * The four seats at the table (class Player in src/models.py), seated
 * clockwise in the fixed order West, North, East, South.
 */
module Seats {

  datatype Player = West | North | East | South

  /** The seat's one-letter value ('W', 'N', 'E' or 'S'). */
  function Letter(p: Player): char
  {
    match p
    case West => 'W'
    case North => 'N'
    case East => 'E'
    case South => 'S'
  }

  /** The seating order string "WNES" that `next` indexes into. */
  const Order: string := "WNES"

  /** The position of the seat's letter in Order. */
  function Index(p: Player): (i: nat)
    ensures i < 4 && Order[i] == Letter(p)
  {
    match p
    case West => 0
    case North => 1
    case East => 2
    case South => 3
  }

  /** The seat after p in the rotation West, North, East, South, West. */
  function Next(p: Player): (q: Player)
  {
    match p
    case West => North
    case North => East
    case East => South
    case South => West
  }

  /** The partner sits two seats on. */
  function Partner(p: Player): Player
  {
    Next(Next(p))
  }

  /** The seat k places after p. */
  function NextN(p: Player, k: nat): Player
  {
    if k == 0 then p else Next(NextN(p, k - 1))
  }

  /** How many places after a the seat b sits (0 to 3). */
  function Offset(a: Player, b: Player): (k: nat)
    ensures k < 4
  {
    if b == a then 0
    else if b == Next(a) then 1
    else if b == Next(Next(a)) then 2
    else 3
  }

  /** A table keyed by seat that has an entry for every seat. */
  predicate AllSeats<V>(m: map<Player, V>)
  {
    forall p: Player :: p in m
  }

  /** A table with entries for West, North, East and South has one for every seat. */
  lemma AllSeatsFromFour<V>(m: map<Player, V>)
    requires West in m && North in m && East in m && South in m
    ensures AllSeats(m)
  {
    forall p: Player ensures p in m {
      if p.West? {} else if p.North? {} else if p.East? {} else {}
    }
  }

  /** Each seat in turn is the next of the one before it, as the tests list them. */
  lemma NextRotation()
    ensures Next(West) == North && Next(North) == East
    ensures Next(East) == South && Next(South) == West
  {
  }

  /** Next moves to the following letter of Order, wrapping after the last. */
  lemma NextFollowsOrder(p: Player)
    ensures Letter(Next(p)) == Order[(Index(p) + 1) % 4]
  {
  }

  /** Advancing four seats gives the seat back, and no shorter advance does. */
  lemma NextCycle(p: Player)
    ensures NextN(p, 4) == p
    ensures NextN(p, 1) != p && NextN(p, 2) != p && NextN(p, 3) != p
  {
  }

  /** Advancing is periodic with period four. */
  lemma {:induction false} NextNPeriodic(p: Player, k: nat)
    ensures NextN(p, k + 4) == NextN(p, k)
  {
    if k == 0 {
      NextCycle(p);
    } else {
      NextNPeriodic(p, k - 1);
    }
  }

  /** The partnership relation is an involution with no fixed point. */
  lemma PartnerInvolutive(p: Player)
    ensures Partner(Partner(p)) == p
    ensures Partner(p) != p && Partner(p) == NextN(p, 2)
  {
  }

  /** Offset inverts advancing: b sits Offset(a, b) places after a, and at no other place below four. */
  lemma OffsetNextN(a: Player, b: Player, k: nat)
    ensures NextN(a, Offset(a, b)) == b
    ensures k < 4 ==> (NextN(a, k) == b <==> k == Offset(a, b))
  {
    assert NextN(a, 1) == Next(a);
    assert NextN(a, 2) == Next(Next(a));
    assert NextN(a, 3) == Next(Next(Next(a)));
  }

  /** Partners are the seats whose positions in Order have the same parity: North-South and West-East. */
  lemma SameSide(a: Player, b: Player)
    ensures b == a || b == Partner(a) <==> Index(a) % 2 == Index(b) % 2
  {
  }

  /** The acting seat and the three seats after it are the whole table, each once. */
  lemma SeatsAround(p: Player, q: Player)
    ensures q == p || q == Next(p) || q == Next(Next(p)) || q == Next(Next(Next(p)))
    ensures p != Next(p) && p != Next(Next(p)) && p != Next(Next(Next(p)))
    ensures Next(p) != Next(Next(Next(p)))
  {
  }
}
