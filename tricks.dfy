/**
 * One trick (class Trick in src/models.py): up to four cards in play order,
 * the seat that led, and the rules that pick the winning card and seat.
 */
module Tricks {
  import opened Wrappers
  import opened Seats
  import opened Cards

  /** card.color.value == trump.value: the suit letter equals the trump's text value. */
  predicate IsTrump(c: Card, t: Trump)
  {
    [ColorLetter(ColorOf(c))] == TrumpValue(t)
  }

  /** Comparing text values picks out exactly the cards of the trump suit; no card is a trump at no trump. */
  lemma IsTrumpSuit(c: Card, t: Trump)
    ensures IsTrump(c, t) <==> t == TrumpSuit(ColorOf(c))
  {
    if t.TrumpSuit? && IsTrump(c, t) {
      assert ColorLetter(ColorOf(c)) == ColorLetter(t.color);
    }
  }

  /** Within one suit the identifier order is the rank order. */
  lemma SameSuitOrder(a: Card, b: Card)
    requires ColorOf(a) == ColorOf(b)
    ensures a <= b <==> Rank(a) <= Rank(b)
  {
    assert a == (a / 13) * 13 + Rank(a);
    assert b == (b / 13) * 13 + Rank(b);
  }

  /** The trump cards of the trick, in play order. */
  function TrumpCards(cards: seq<Card>, t: Trump): (r: seq<Card>)
    ensures forall x :: x in r <==> x in cards && IsTrump(x, t)
  {
    if cards == [] then []
    else (if IsTrump(cards[0], t) then [cards[0]] else []) + TrumpCards(cards[1..], t)
  }

  /** The cards of the trick in the given suit, in play order. */
  function CardsInColor(cards: seq<Card>, col: Color): (r: seq<Card>)
    ensures forall x :: x in r <==> x in cards && ColorOf(x) == col
  {
    if cards == [] then []
    else (if ColorOf(cards[0]) == col then [cards[0]] else []) + CardsInColor(cards[1..], col)
  }

  /** max(): the largest identifier of a non-empty list. */
  function MaxCard(s: seq<Card>): (m: Card)
    requires |s| > 0
    ensures m in s && forall x :: x in s ==> x <= m
  {
    if |s| == 1 then s[0]
    else
      var rest := MaxCard(s[1..]);
      assert s == [s[0]] + s[1..];
      if s[0] >= rest then s[0] else rest
  }

  /**
   * Trick.winning_card: nothing unless four cards are down; then the highest
   * trump, unless that maximum is the identifier 0, which Python reads as
   * false, in which case the highest card of the suit led.
   */
  function WinningCardOf(t: Trump, cards: seq<Card>): (r: Option<Card>)
    ensures r.Some? <==> |cards| == 4
    ensures r.Some? ==> r.value in cards
  {
    if |cards| != 4 then None
    else
      var trumps := TrumpCards(cards, t);
      var followers := CardsInColor(cards, ColorOf(cards[0]));
      if |trumps| > 0 && MaxCard(trumps) != 0 then Some(MaxCard(trumps))
      else Some(MaxCard(followers))
  }

  /**
   * Law 44 of the Laws of Duplicate Bridge: a trick containing a trump is won
   * by the highest trump in it; any other trick by the highest card of the
   * suit led.
   */
  ghost predicate WinsByLaw(t: Trump, cards: seq<Card>, w: Card)
    requires |cards| > 0
  {
    w in cards &&
    if exists x :: x in cards && IsTrump(x, t) then
      IsTrump(w, t) && forall x :: x in cards && IsTrump(x, t) ==> Rank(x) <= Rank(w)
    else
      ColorOf(w) == ColorOf(cards[0]) &&
      forall x :: x in cards && ColorOf(x) == ColorOf(cards[0]) ==> Rank(x) <= Rank(w)
  }

  /** At most one card of a trick wins under Law 44. */
  lemma LawWinnerUnique(t: Trump, cards: seq<Card>, v: Card, w: Card)
    requires |cards| > 0 && WinsByLaw(t, cards, v) && WinsByLaw(t, cards, w)
    ensures v == w
  {
    if exists x :: x in cards && IsTrump(x, t) {
      IsTrumpSuit(v, t);
      IsTrumpSuit(w, t);
      SameSuitOrder(v, w);
      SameSuitOrder(w, v);
    } else {
      SameSuitOrder(v, w);
      SameSuitOrder(w, v);
    }
    CardFromSuitAndRank(v, w);
  }

  /**
   * The one trick shape where winning_card departs from the law: clubs are
   * trumps, the two of clubs (identifier 0) is the only club played, and a
   * suit other than clubs was led.
   */
  predicate ClubTwoIgnored(t: Trump, cards: seq<Card>)
  {
    |cards| == 4 && t == TrumpSuit(Clubs) && 0 in cards &&
    ColorOf(cards[0]) != Clubs &&
    forall x :: x in cards && ColorOf(x) == Clubs ==> x == 0
  }

  /** The highest card (by identifier) of a list of one suit is its highest rank. */
  lemma MaxCardIsHighestRank(s: seq<Card>, col: Color)
    requires |s| > 0 && forall x :: x in s ==> ColorOf(x) == col
    ensures forall x :: x in s ==> Rank(x) <= Rank(MaxCard(s))
  {
    forall x | x in s
      ensures Rank(x) <= Rank(MaxCard(s))
    {
      SameSuitOrder(x, MaxCard(s));
    }
  }

  /**
   * winning_card follows Law 44 on every full trick except the shape
   * ClubTwoIgnored, and there it picks the highest card of the suit led
   * although the law gives the trick to the two of clubs.
   */
  lemma WinningCardFollowsLaw(t: Trump, cards: seq<Card>)
    requires |cards| == 4
    ensures WinsByLaw(t, cards, WinningCardOf(t, cards).value) <==> !ClubTwoIgnored(t, cards)
    ensures ClubTwoIgnored(t, cards) ==>
      WinsByLaw(t, cards, 0) && ColorOf(WinningCardOf(t, cards).value) == ColorOf(cards[0])
  {
    var w := WinningCardOf(t, cards).value;
    var trumps := TrumpCards(cards, t);
    var followers := CardsInColor(cards, ColorOf(cards[0]));
    assert cards[0] in followers;
    forall x | x in trumps ensures ColorOf(x) == ColorOf(trumps[0]) {
      IsTrumpSuit(x, t);
      IsTrumpSuit(trumps[0], t);
    }
    forall x | x in cards && IsTrump(x, t) ensures x in trumps {}
    if |trumps| > 0 {
      MaxCardIsHighestRank(trumps, ColorOf(trumps[0]));
      IsTrumpSuit(MaxCard(trumps), t);
    }
    MaxCardIsHighestRank(followers, ColorOf(cards[0]));
    if ClubTwoIgnored(t, cards) {
      IsTrumpSuit(0, t);
      assert 0 in trumps;
      forall x | x in trumps ensures x == 0 {
        IsTrumpSuit(x, t);
      }
      assert MaxCard(trumps) == 0;
      assert w == MaxCard(followers);
      IsTrumpSuit(w, t);
      assert !IsTrump(w, t);
      assert !WinsByLaw(t, cards, w);
      assert WinsByLaw(t, cards, 0);
    } else if |trumps| > 0 && MaxCard(trumps) != 0 {
      assert w == MaxCard(trumps);
      assert WinsByLaw(t, cards, w);
    } else if |trumps| > 0 {
      // The only trump is the two of clubs, and clubs were led.
      assert MaxCard(trumps) == 0;
      IsTrumpSuit(0, t);
      assert ColorOf(cards[0]) == Clubs;
      IsTrumpSuit(cards[0], t);
      assert w == MaxCard(followers);
      forall x | x in followers ensures IsTrump(x, t) {
        IsTrumpSuit(x, t);
      }
      assert w in trumps;
      assert WinsByLaw(t, cards, w);
    } else {
      assert w == MaxCard(followers);
      assert WinsByLaw(t, cards, w);
    }
  }

  /** A trick short of four cards has no winning card (first two cases of the unit test). */
  lemma WinningCardNeedsFullTrick()
    ensures WinningCardOf(NoTrump, []) == None && WinningCardOf(NoTrump, [1]) == None
  {
  }

  /** No trump: the highest club of an all-clubs trick wins. */
  lemma WinningCardNoTrumpExample()
    ensures WinningCardOf(NoTrump, [0, 1, 2, 3]) == Some(3)
  {
    var cs: seq<Card> := [0, 1, 2, 3];
    assert ColorOf(0) == Clubs && ColorOf(1) == Clubs && ColorOf(2) == Clubs && ColorOf(3) == Clubs;
    assert !IsTrump(0, NoTrump) && !IsTrump(1, NoTrump) && !IsTrump(2, NoTrump) && !IsTrump(3, NoTrump);
    assert TrumpCards(cs, NoTrump) == [];
    assert CardsInColor(cs[3..], Clubs) == [3];
    assert CardsInColor(cs[2..], Clubs) == [2, 3];
    assert CardsInColor(cs[1..], Clubs) == [1, 2, 3];
    assert CardsInColor(cs, Clubs) == cs;
  }

  /** Clubs trumps, all clubs played: the highest club wins. */
  lemma WinningCardAllTrumpsExample()
    ensures WinningCardOf(TrumpSuit(Clubs), [0, 1, 2, 3]) == Some(3)
  {
    var cs: seq<Card> := [0, 1, 2, 3];
    var t := TrumpSuit(Clubs);
    assert ColorOf(0) == Clubs && ColorOf(1) == Clubs && ColorOf(2) == Clubs && ColorOf(3) == Clubs;
    assert IsTrump(0, t) && IsTrump(1, t) && IsTrump(2, t) && IsTrump(3, t);
    assert TrumpCards(cs[3..], t) == [3];
    assert TrumpCards(cs[2..], t) == [2, 3];
    assert TrumpCards(cs[1..], t) == [1, 2, 3];
    assert TrumpCards(cs, t) == cs;
  }

  /** Clubs trumps, the two of clubs led and diamonds followed: the two of clubs wins, because clubs were led. */
  lemma WinningCardClubTwoLedExample()
    ensures WinningCardOf(TrumpSuit(Clubs), [0, 13, 14, 15]) == Some(0)
  {
    var cs: seq<Card> := [0, 13, 14, 15];
    var t := TrumpSuit(Clubs);
    assert ColorOf(0) == Clubs && ColorOf(13) == Diamonds && ColorOf(14) == Diamonds && ColorOf(15) == Diamonds;
    assert IsTrump(0, t) && !IsTrump(13, t) && !IsTrump(14, t) && !IsTrump(15, t);
    assert TrumpCards(cs[3..], t) == [];
    assert TrumpCards(cs[2..], t) == [];
    assert TrumpCards(cs[1..], t) == [];
    assert TrumpCards(cs, t) == [0];
    assert CardsInColor(cs[1..], Clubs) == [];
    assert CardsInColor(cs, Clubs) == [0];
  }

  /** Diamonds trumps: the highest diamond beats the club led. */
  lemma WinningCardTrumpedExample()
    ensures WinningCardOf(TrumpSuit(Diamonds), [0, 13, 14, 15]) == Some(15)
  {
    var cs: seq<Card> := [0, 13, 14, 15];
    var t := TrumpSuit(Diamonds);
    assert ColorOf(0) == Clubs && ColorOf(13) == Diamonds && ColorOf(14) == Diamonds && ColorOf(15) == Diamonds;
    assert !IsTrump(0, t) && IsTrump(13, t) && IsTrump(14, t) && IsTrump(15, t);
    assert TrumpCards(cs[3..], t) == [15];
    assert TrumpCards(cs[2..], t) == [14, 15];
    assert TrumpCards(cs[1..], t) == [13, 14, 15];
    assert TrumpCards(cs, t) == [13, 14, 15];
  }

  /** Diamonds trumps but none played: the highest club of the suit led wins. */
  lemma WinningCardNoTrumpPlayedExample()
    ensures WinningCardOf(TrumpSuit(Diamonds), [0, 1, 2, 3]) == Some(3)
  {
    var cs: seq<Card> := [0, 1, 2, 3];
    var t := TrumpSuit(Diamonds);
    assert ColorOf(0) == Clubs && ColorOf(1) == Clubs && ColorOf(2) == Clubs && ColorOf(3) == Clubs;
    assert !IsTrump(0, t) && !IsTrump(1, t) && !IsTrump(2, t) && !IsTrump(3, t);
    assert TrumpCards(cs, t) == [];
    assert CardsInColor(cs[3..], Clubs) == [3];
    assert CardsInColor(cs[2..], Clubs) == [2, 3];
    assert CardsInColor(cs[1..], Clubs) == [1, 2, 3];
    assert CardsInColor(cs, Clubs) == cs;
  }

  /** The trick [D4, C2, D3, D5] led in diamonds with clubs trumps has the shape ClubTwoIgnored. */
  lemma ClubTwoIgnoredShape()
    ensures ClubTwoIgnored(TrumpSuit(Clubs), [14, 0, 13, 15])
  {
    var cs: seq<Card> := [14, 0, 13, 15];
    assert ColorOf(0) == Clubs && ColorOf(13) == Diamonds && ColorOf(14) == Diamonds && ColorOf(15) == Diamonds;
    assert forall x :: x in cs ==> x == 14 || x == 0 || x == 13 || x == 15;
  }

  /** In that trick the lone trump two of clubs is passed over and the five of diamonds wins. */
  lemma ClubTwoIgnoredExample()
    ensures WinningCardOf(TrumpSuit(Clubs), [14, 0, 13, 15]) == Some(15)
  {
    var cs: seq<Card> := [14, 0, 13, 15];
    var t := TrumpSuit(Clubs);
    assert ColorOf(0) == Clubs && ColorOf(13) == Diamonds && ColorOf(14) == Diamonds && ColorOf(15) == Diamonds;
    assert IsTrump(0, t) && !IsTrump(13, t) && !IsTrump(14, t) && !IsTrump(15, t);
    assert TrumpCards(cs[3..], t) == [];
    assert TrumpCards(cs[2..], t) == [];
    assert TrumpCards(cs[1..], t) == [0];
    assert TrumpCards(cs, t) == [0];
    assert CardsInColor(cs[3..], Diamonds) == [15];
    assert CardsInColor(cs[2..], Diamonds) == [13, 15];
    assert CardsInColor(cs[1..], Diamonds) == [13, 15];
    assert CardsInColor(cs, Diamonds) == [14, 13, 15];
    HighestDiamond();
  }

  lemma HighestDiamond()
    ensures MaxCard([14, 13, 15]) == 15
  {
    var s: seq<Card> := [14, 13, 15];
    assert s[1..] == [13, 15];
    assert s[1..][1..] == [15];
  }

  /** list.index: the position of the first occurrence of x. */
  function IndexOf(s: seq<Card>, x: Card): (i: nat)
    requires x in s
    ensures i < |s| && s[i] == x && forall j :: 0 <= j < i ==> s[j] != x
  {
    if s[0] == x then 0 else 1 + IndexOf(s[1..], x)
  }

  /** The suit led: that of the first card, none while the trick is empty (Trick.color). */
  function SuitLed(cards: seq<Card>): (r: Option<Color>)
    ensures r.None? <==> cards == []
  {
    if cards == [] then None else Some(ColorOf(cards[0]))
  }

  /** What add_card reports. */
  datatype AddOutcome = Added | TrickFull

  class Trick {
    const trump: Trump
    var cards: seq<Card>
    var leader: Option<Player>

    /** At most four cards, and a leader exactly while a card is down. */
    ghost predicate Valid()
      reads this
    {
      |cards| <= 4 && (cards == [] <==> leader == None)
    }

    /** Trick(trump): no cards and no leader. */
    constructor (trump: Trump)
      ensures Valid()
      ensures this.trump == trump && cards == [] && leader == None
    {
      this.trump := trump;
      cards := [];
      leader := None;
    }

    /** Trick.empty */
    predicate Empty()
      reads this
    {
      cards == []
    }

    /** Trick.full */
    predicate Full()
      reads this
    {
      |cards| == 4
    }

    /** Trick.color: the suit of the first card, the suit led. */
    function LedColor(): (r: Option<Color>)
      reads this
      ensures r.None? <==> Empty()
    {
      SuitLed(cards)
    }

    /**
     * add_card: the first card also makes the player the leader; later cards
     * are appended; a full trick refuses the card and does not change.
     */
    method AddCard(card: Card, player: Player) returns (outcome: AddOutcome)
      requires Valid()
      modifies this
      ensures Valid()
      ensures outcome == TrickFull <==> old(|cards|) == 4
      ensures outcome == Added ==> cards == old(cards) + [card]
      ensures outcome == Added ==> leader == if old(cards) == [] then Some(player) else old(leader)
      ensures outcome == TrickFull ==> cards == old(cards) && leader == old(leader)
    {
      if cards == [] {
        cards := [card];
        leader := Some(player);
        outcome := Added;
      } else if |cards| >= 4 {
        outcome := TrickFull;
      } else {
        cards := cards + [card];
        outcome := Added;
      }
    }

    /** clear: drops the cards and the leader. */
    method Clear()
      modifies this
      ensures Valid() && cards == [] && leader == None
    {
      cards, leader := [], None;
    }

    /** Trick.winning_card */
    function WinningCard(): Option<Card>
      reads this
    {
      WinningCardOf(trump, cards)
    }

    /**
     * Trick.winner: none until the trick is full; then the leader advanced
     * one seat for each card played before the winning card.
     */
    method Winner() returns (w: Option<Player>)
      requires Valid()
      ensures w.None? <==> !Full()
      ensures w.Some? ==>
        w.value == NextN(leader.value, IndexOf(cards, WinningCardOf(trump, cards).value))
    {
      var card := WinningCard();
      if card.None? {
        return None;
      }
      var index := IndexOf(cards, card.value);
      var winner := leader.value;
      var i := 0;
      while i < index
        invariant 0 <= i <= index
        invariant winner == NextN(leader.value, i)
      {
        winner := Next(winner);
        i := i + 1;
      }
      return Some(winner);
    }
  }

  /** In the all-clubs trick [0, 1, 2, 3] of the winning_card test, if East led it, the fourth card wins and the trick goes to North. */
  lemma WinnerExample()
    ensures IndexOf([0, 1, 2, 3], WinningCardOf(NoTrump, [0, 1, 2, 3]).value) == 3
    ensures NextN(East, 3) == North
  {
    WinningCardNoTrumpExample();
  }
}
