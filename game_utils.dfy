/**
 * Payout and colour rules of the colour-prediction game: the fixed table
 * from result numbers to colours, the big/small split and the payout of a
 * colour, size or exact-number bet. Everything here is a pure function.
 */
module GameUtils {

  /** `T | null` in the program. */
  datatype Option<T> = None | Some(value: T)

  datatype Color = Green | Red | Violet

  datatype Size = Big | Small

  /** A drawn result: one of the ten numbers 0..9. */
  type GameNumber = n: int | 0 <= n <= 9

  /** The fixed set of stakes a player may choose from. */
  type BetAmount = a: int | a == 1 || a == 5 || a == 10 || a == 50 || a == 100 witness 1

  /** A bet is a colour, a size category or an exact number, never two at once. */
  datatype Bet = ColorBet(color: Color) | SizeBet(size: Size) | NumberBet(number: GameNumber)

  /** A table entry is one colour or an ordered pair of colours. */
  datatype ColorValue = Single(only: Color) | Pair(first: Color, second: Color)

  /** The colours a table entry stands for. */
  function Colors(v: ColorValue): set<Color>
  {
    match v
    case Single(c) => {c}
    case Pair(a, b) => {a, b}
  }

  /** The constant lookup table, indexed by result number. */
  const ColorMapping: seq<ColorValue> := [
    Pair(Violet, Red),    // 0
    Single(Green),        // 1
    Single(Red),          // 2
    Single(Green),        // 3
    Single(Red),          // 4
    Pair(Violet, Green),  // 5
    Single(Red),          // 6
    Single(Green),        // 7
    Single(Red),          // 8
    Single(Green)         // 9
  ]

  /**
   * The colour(s) of a result. The table amounts to: red on even numbers,
   * green on odd ones, and violet in addition on 0 and 5, the only two
   * numbers that carry a pair.
   */
  function NumberColor(n: GameNumber): (r: ColorValue)
    ensures Red in Colors(r) <==> n % 2 == 0
    ensures Green in Colors(r) <==> n % 2 == 1
    ensures Violet in Colors(r) <==> n == 0 || n == 5
    ensures r.Pair? <==> n == 0 || n == 5
    ensures r.Pair? ==> r.first == Violet && r.second != Violet
  {
    ColorMapping[n]
  }

  /** Big is exactly what a bet on "big" wins on. */
  predicate IsBig(n: GameNumber)
    ensures IsBig(n) <==> Wins(SizeBet(Big), n)
  {
    n >= 5
  }

  /** Small is exactly "not big": the two categories split the ten results. */
  predicate IsSmall(n: GameNumber)
    ensures IsSmall(n) <==> !IsBig(n)
  {
    n < 5
  }

  /** Whether a selection holds a bet at all (`bet !== null`). */
  predicate HasBet(bet: Option<Bet>)
    ensures HasBet(bet) <==> bet != None
  {
    match bet
    case None => false
    case Some(_) => true
  }

  /** Reference reading of when a bet wins, stated per kind of bet. */
  predicate Wins(bet: Bet, result: GameNumber)
  {
    match bet
    case ColorBet(c) => c in Colors(NumberColor(result))
    case SizeBet(s) => if s == Big then result >= 5 else result < 5
    case NumberBet(k) => k == result
  }

  const VioletMultiplier: real := 4.5
  const RedGreenMultiplier: real := 2.0
  const SizeMultiplier: real := 2.0
  const NumberMultiplier: real := 9.0

  /** The odds table: what one unit of stake returns on a win. */
  function Multiplier(bet: Bet): real
  {
    match bet
    case ColorBet(c) => if c == Violet then VioletMultiplier else RedGreenMultiplier
    case SizeBet(_) => SizeMultiplier
    case NumberBet(_) => NumberMultiplier
  }

  datatype Payout = Payout(payout: real, isWin: bool)

  /**
   * Settles one bet against a drawn result. The body follows the program's
   * order of checks; the contract states the rule per kind of bet.
   */
  function CalculatePayout(bet: Bet, result: GameNumber, amount: real): (r: Payout)
    ensures r.isWin <==> Wins(bet, result)
    ensures r.payout == if r.isWin then amount * Multiplier(bet) else 0.0
    ensures amount >= 0.0 ==> r.payout >= 0.0
    ensures amount > 0.0 ==> (r.isWin <==> r.payout > 0.0)
  {
    var resultColor := ColorMapping[result];
    if bet.ColorBet? then
      var betMatches := match resultColor
        case Pair(a, b) => a == bet.color || b == bet.color
        case Single(c) => c == bet.color;
      if betMatches then
        var multiplier := if bet.color == Violet then 4.5 else 2.0;
        Payout(amount * multiplier, true)
      else
        Payout(0.0, false)
    else if bet == SizeBet(Big) && IsBig(result) then
      Payout(amount * 2.0, true)
    else if bet == SizeBet(Small) && IsSmall(result) then
      Payout(amount * 2.0, true)
    else if bet.NumberBet? && bet.number == result then
      Payout(amount * 9.0, true)
    else
      Payout(0.0, false)
  }

  /** The table, entry by entry. */
  lemma ColorTable()
    ensures NumberColor(0) == Pair(Violet, Red)
    ensures NumberColor(5) == Pair(Violet, Green)
    ensures forall n: GameNumber :: n in {1, 3, 7, 9} ==> NumberColor(n) == Single(Green)
    ensures forall n: GameNumber :: n in {2, 4, 6, 8} ==> NumberColor(n) == Single(Red)
  {
  }

  /** Exactly one of big and small holds of every result. */
  lemma BigSmallPartition(n: GameNumber)
    ensures IsBig(n) != IsSmall(n)
    ensures IsBig(n) <==> n >= 5
  {
  }

  /** The worked examples: violet on 0, red on 2, big on 3, seven on 7. */
  lemma PayoutExamples()
    ensures CalculatePayout(ColorBet(Violet), 0, 10.0) == Payout(45.0, true)
    ensures CalculatePayout(ColorBet(Red), 2, 10.0) == Payout(20.0, true)
    ensures CalculatePayout(SizeBet(Big), 3, 5.0) == Payout(0.0, false)
    ensures CalculatePayout(NumberBet(7), 7, 1.0) == Payout(9.0, true)
  {
  }
}
