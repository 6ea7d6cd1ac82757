/**
 * Suits, trumps, cards and their two-character text form, contracts and
 * deals (the value types of src/models.py).
 */
module Cards {
  import opened Wrappers
  import opened Seats

  /** The suit letters in suit order: a card's suit is Colors[card / 13]. */
  const Colors: string := "CDHS"

  datatype Color = Clubs | Diamonds | Hearts | Spades

  /** The suit's one-letter value. */
  function ColorLetter(c: Color): char
  {
    match c
    case Clubs => 'C'
    case Diamonds => 'D'
    case Hearts => 'H'
    case Spades => 'S'
  }

  /** Color.id: the position of the suit's letter in Colors. */
  function ColorId(c: Color): (i: nat)
    ensures i < 4 && Colors[i] == ColorLetter(c)
  {
    match c
    case Clubs => 0
    case Diamonds => 1
    case Hearts => 2
    case Spades => 3
  }

  /** The suit whose letter stands at position i of Colors. */
  function ColorFromId(i: nat): (c: Color)
    requires i < 4
    ensures ColorId(c) == i
  {
    if i == 0 then Clubs else if i == 1 then Diamonds else if i == 2 then Hearts else Spades
  }

  /** Color(letter): the suit with that letter, if any. */
  function ColorFromLetter(ch: char): (r: Option<Color>)
    ensures r.Some? <==> ch in Colors
    ensures r.Some? ==> ColorLetter(r.value) == ch
  {
    if ch == 'C' then Some(Clubs)
    else if ch == 'D' then Some(Diamonds)
    else if ch == 'H' then Some(Hearts)
    else if ch == 'S' then Some(Spades)
    else None
  }

  /** A trump is either no trump or one of the four suits. */
  datatype Trump = NoTrump | TrumpSuit(color: Color)

  /** The trump's text value: "NT" or the suit letter. */
  function TrumpValue(t: Trump): string
  {
    match t
    case NoTrump => "NT"
    case TrumpSuit(c) => [ColorLetter(c)]
  }

  /** Trump.id: the suit's position in Colors, and -1 for no trump. */
  function TrumpId(t: Trump): int
  {
    match t
    case NoTrump => -1
    case TrumpSuit(c) => ColorId(c)
  }

  /** The trump id is -1 exactly for no trump and otherwise the id of its suit, so no trump matches no suit. */
  lemma TrumpIdMatchesSuit(t: Trump, c: Color)
    ensures -1 <= TrumpId(t) < 4
    ensures TrumpId(t) == -1 <==> t == NoTrump
    ensures TrumpId(t) == ColorId(c) <==> t == TrumpSuit(c)
  {
  }

  /** A card is its identifier 0..51. */
  type Card = c: int | 0 <= c < 52

  /** Card.value: the rank 0..12 (0 is the two, 12 the ace). */
  function Rank(c: Card): nat
  {
    c % 13
  }

  /** Card.color: the suit whose letter is Colors[c / 13]. */
  function ColorOf(c: Card): (s: Color)
    ensures ColorLetter(s) == Colors[c / 13]
  {
    ColorFromId(c / 13)
  }

  /** The suit and rank determine the card. */
  lemma CardFromSuitAndRank(a: Card, b: Card)
    ensures a == b <==> ColorOf(a) == ColorOf(b) && Rank(a) == Rank(b)
  {
    assert a == ColorId(ColorOf(a)) * 13 + Rank(a);
    assert b == ColorId(ColorOf(b)) * 13 + Rank(b);
  }

  /** Card identifiers in the tests fall in the expected suits. */
  lemma CardColorExamples()
    ensures ColorOf(0) == Clubs && ColorOf(12) == Clubs && ColorOf(13) == Diamonds
    ensures ColorOf(26) == Hearts && ColorOf(39) == Spades && ColorOf(51) == Spades
  {
  }

  /** VALUES_MAP: the letters of the five highest ranks. */
  const ValuesMap: map<int, char> := map[8 := 'T', 9 := 'J', 10 := 'Q', 11 := 'K', 12 := 'A']

  /** NAMES_MAP: VALUES_MAP inverted. */
  const NamesMap: map<char, int> := map['T' := 8, 'J' := 9, 'Q' := 10, 'K' := 11, 'A' := 12]

  /** The decimal digit character of d. */
  function DigitChar(d: nat): char
    requires d < 10
  {
    "0123456789"[d]
  }

  /** The decimal digits of n, most significant first. */
  function Digits(n: nat): (s: string)
    ensures |s| >= 1
    ensures forall i :: 0 <= i < |s| ==> '0' <= s[i] <= '9'
  {
    if n < 10 then [DigitChar(n)] else Digits(n / 10) + [DigitChar(n % 10)]
  }

  /** Python's str(n) for an integer. */
  function DecimalString(n: int): string
  {
    if n < 0 then "-" + Digits(-n) else Digits(n)
  }

  /** Card.value_str: a letter for ten and above, otherwise the digit of rank + 2. */
  function ValueStr(c: Card): string
  {
    if Rank(c) in ValuesMap then [ValuesMap[Rank(c)]] else DecimalString(Rank(c) + 2)
  }

  /** str(card): suit letter followed by rank token. */
  function Show(c: Card): (s: string)
    ensures |s| == 2 && s[0] in Colors && s[1] in "23456789TJQKA"
  {
    [ColorLetter(ColorOf(c))] + ValueStr(c)
  }

  /** Why Card.from_str refuses a string (each is a ValueError in the source). */
  datatype ParseError = NotTwoCharacters | BadRank | BadColor

  /** The rank a rank token stands for: NAMES_MAP for letters, int(token) - 2 for digits. */
  function RankOfToken(ch: char): Result<int, ParseError>
  {
    if ch in NamesMap then Ok(NamesMap[ch])
    else if '0' <= ch <= '9' then Ok((ch as int - '0' as int) - 2)
    else Err(BadRank)
  }

  /**
   * Card.from_str: the identifier colour id * 13 + value. The rank token is
   * read before the suit letter. The result is an int that need not be a
   * valid card: the tokens "0" and "1" give values -2 and -1.
   */
  function FromStr(s: string): Result<int, ParseError>
  {
    if |s| != 2 then Err(NotTwoCharacters)
    else
      match RankOfToken(s[1])
      case Err(e) => Err(e)
      case Ok(v) =>
        match ColorFromLetter(s[0])
        case None => Err(BadColor)
        case Some(col) => Ok(ColorId(col) * 13 + v)
  }

  /** The rank token of rank r reads back as r. */
  lemma RankTokenRoundTrip(c: Card)
    ensures |ValueStr(c)| == 1 && RankOfToken(ValueStr(c)[0]) == Ok(Rank(c))
  {
    var r := Rank(c);
    if r in ValuesMap {
      assert NamesMap[ValuesMap[r]] == r;
    } else {
      assert ValueStr(c) == [DigitChar(r + 2)];
    }
  }

  /** Reading a card's text back gives the card, for all 52 cards. */
  lemma ParseShow(c: Card)
    ensures FromStr(Show(c)) == Ok(c as int)
  {
    RankTokenRoundTrip(c);
    var s := Show(c);
    assert s[1] == ValueStr(c)[0];
    assert ColorFromLetter(s[0]) == Some(ColorOf(c));
    assert c == (c / 13) * 13 + Rank(c);
  }

  /** Different cards have different text. */
  lemma ShowInjective(a: Card, b: Card)
    ensures Show(a) == Show(b) ==> a == b
  {
    ParseShow(a);
    ParseShow(b);
  }

  /**
   * Every string that from_str accepts with a rank token other than '0' or
   * '1' names a valid card and is that card's text.
   */
  lemma ShowParse(s: string, n: int)
    requires FromStr(s) == Ok(n) && s[1] != '0' && s[1] != '1'
    ensures 0 <= n < 52 && Show(n) == s
  {
    var v := RankOfToken(s[1]).value;
    var col := ColorFromLetter(s[0]).value;
    assert 0 <= v < 13;
    assert n == ColorId(col) * 13 + v;
    assert n / 13 == ColorId(col) && n % 13 == v by {
      var i := ColorId(col);
      assert i == 0 || i == 1 || i == 2 || i == 3;
    }
    assert ColorOf(n) == col;
    if s[1] in NamesMap {
      assert ValuesMap[v] == s[1];
    } else {
      assert ValueStr(n) == [DigitChar(v + 2)];
    }
    assert Show(n) == [s[0], s[1]];
  }

  /** from_str also accepts the rank tokens '0' and '1', giving an id outside 0..51 or a card of the suit below. */
  lemma ParseLowDigits()
    ensures FromStr("C0") == Ok(-2) && FromStr("C1") == Ok(-1)
    ensures FromStr("D1") == Ok(12) && Show(12) == "CA"
    ensures FromStr("C10") == Err(NotTwoCharacters) && FromStr("X2") == Err(BadColor)
    ensures FromStr("X?") == Err(BadRank)
  {
  }

  /** hand_factory: the set of the cards the strings name; the first string from_str refuses fails the whole hand. */
  function HandFactory(items: seq<string>): Result<set<int>, ParseError>
  {
    if items == [] then Ok({})
    else
      match FromStr(items[0])
      case Err(e) => Err(e)
      case Ok(c) =>
        match HandFactory(items[1..])
        case Err(e) => Err(e)
        case Ok(rest) => Ok({c} + rest)
  }

  /** hand_factory succeeds exactly when every string parses, and then holds exactly the parsed identifiers. */
  lemma {:induction false} HandFactoryParses(items: seq<string>)
    ensures HandFactory(items).Ok? <==> forall i :: 0 <= i < |items| ==> FromStr(items[i]).Ok?
    ensures HandFactory(items).Ok? ==>
      forall n :: n in HandFactory(items).value <==> exists i :: 0 <= i < |items| && FromStr(items[i]) == Ok(n)
  {
    if items != [] {
      HandFactoryParses(items[1..]);
      assert forall i :: 1 <= i < |items| ==> items[i] == items[1..][i - 1];
      if HandFactory(items).Ok? {
        forall n | n in HandFactory(items).value
          ensures exists i :: 0 <= i < |items| && FromStr(items[i]) == Ok(n)
        {
          if n != FromStr(items[0]).value {
            var j :| 0 <= j < |items[1..]| && FromStr(items[1..][j]) == Ok(n);
            assert FromStr(items[j + 1]) == Ok(n);
          }
        }
        forall n | exists i :: 0 <= i < |items| && FromStr(items[i]) == Ok(n)
          ensures n in HandFactory(items).value
        {
          var i :| 0 <= i < |items| && FromStr(items[i]) == Ok(n);
          if i > 0 {
            assert FromStr(items[1..][i - 1]) == Ok(n);
          }
        }
      }
    }
  }

  /** A contract: the number of tricks to make and the trump. */
  datatype Contract = Contract(tricks: int, trump: Trump)

  /** str(contract): the trick count followed by the trump value, such as "4S" or "3NT". */
  function ContractString(c: Contract): string
  {
    DecimalString(c.tricks) + TrumpValue(c.trump)
  }

  lemma {:induction false} DigitsInjective(a: nat, b: nat)
    ensures Digits(a) == Digits(b) ==> a == b
  {
    if Digits(a) == Digits(b) {
      if a >= 10 && b >= 10 {
        var da, db := Digits(a / 10), Digits(b / 10);
        assert Digits(a)[..|da|] == da;
        assert Digits(b)[..|db|] == db;
        assert |da| == |db|;
        DigitsInjective(a / 10, b / 10);
        assert DigitChar(a % 10) == DigitChar(b % 10);
      } else if a < 10 && b < 10 {
        assert DigitChar(a) == DigitChar(b);
      }
    }
  }

  lemma DecimalStringSign(n: int)
    ensures |DecimalString(n)| >= 1 && (DecimalString(n)[0] == '-' <==> n < 0)
  {
    if n >= 0 {
      assert DecimalString(n)[0] == Digits(n)[0];
    }
  }

  lemma DecimalStringInjective(a: int, b: int)
    ensures DecimalString(a) == DecimalString(b) ==> a == b
  {
    DecimalStringSign(a);
    DecimalStringSign(b);
    var s, t := DecimalString(a), DecimalString(b);
    if s == t {
      if a < 0 {
        var da, db := Digits(-a), Digits(-b);
        assert s == "-" + da;
        assert t == "-" + db;
        assert da == s[1..] && db == t[1..];
        DigitsInjective(-a, -b);
      } else {
        DigitsInjective(a, b);
      }
    }
  }

  /** Distinct contracts print differently: the text determines trick count and trump. */
  lemma ContractStringInjective(c: Contract, d: Contract)
    ensures ContractString(c) == ContractString(d) ==> c == d
  {
    var s, t := ContractString(c), ContractString(d);
    if s == t {
      var tc, td := TrumpValue(c.trump), TrumpValue(d.trump);
      var dc, dd := DecimalString(c.tricks), DecimalString(d.tricks);
      assert dc[|dc| - 1] in "0123456789";
      assert dd[|dd| - 1] in "0123456789";
      assert s[|s| - 1] == tc[|tc| - 1];
      assert t[|t| - 1] == td[|td| - 1];
      assert |tc| == |td|;
      assert tc == s[|s| - |tc|..] && td == t[|t| - |td|..];
      assert c.trump == d.trump;
      assert dc == s[..|s| - |tc|] && dd == t[..|t| - |td|];
      DecimalStringInjective(c.tricks, d.tricks);
    }
  }

  /** A deal: a hand per seat, the declarer, the opening leader and the contract. */
  datatype Deal = Deal(
    handW: set<Card>, handN: set<Card>, handE: set<Card>, handS: set<Card>,
    declarer: Player, leader: Player, contract: Contract)

  /** Deal.hands: the hands keyed by seat. */
  function Hands(d: Deal): (m: map<Player, set<Card>>)
    ensures AllSeats(m)
    ensures m[West] == d.handW && m[North] == d.handN && m[East] == d.handE && m[South] == d.handS
  {
    var m := map[West := d.handW, North := d.handN, East := d.handE, South := d.handS];
    AllSeatsFromFour(m);
    m
  }

  /** Deal.defence_pair: "NS" when the declarer's letter is N or S, else "WE". */
  function DefencePair(d: Deal): string
  {
    if Letter(d.declarer) in "NS" then "NS" else "WE"
  }

  /** Deal.offence_pair: "NS" when the declarer's letter is not N or S, else "WE". */
  function OffencePair(d: Deal): string
  {
    if Letter(d.declarer) !in "NS" then "NS" else "WE"
  }

  /**
   * The two pairs split the table, but defence_pair is the pair the declarer
   * and partner sit in, and offence_pair is the opponents' pair: the names
   * are the wrong way round.
   */
  lemma PairsSwapped(d: Deal)
    ensures DefencePair(d) != OffencePair(d)
    ensures forall p: Player :: Letter(p) in DefencePair(d) <==> Letter(p) !in OffencePair(d)
    ensures Letter(d.declarer) in DefencePair(d) && Letter(Partner(d.declarer)) in DefencePair(d)
    ensures Letter(Next(d.declarer)) in OffencePair(d)
  {
  }
}
