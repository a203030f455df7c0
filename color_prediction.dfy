/**
 * The settlement engine of the ColorPrediction component: the player's
 * balance, the current selection (a colour, a number or a size, at most one
 * at a time), the stake, the processing flag, the history of settled bets
 * and the last result and payout. Each event handler is a method of `Game`.
 * The drawn result, the clock reading of a settlement and each new round id
 * are parameters, because the program takes them from `Math.random` and
 * `Date.now`.
 */
module ColorPrediction {
  import opened GameUtils
  import Timer

  /** Round length handed to the clock, in seconds. */
  const GameDuration: int := 60

  const InitialBalance: real := 100.0

  /** What one press of "recharge" adds to the balance. */
  const RechargeAmount: real := 100.0

  /** One settled bet, newest first in the history. */
  datatype HistoryEntry = HistoryEntry(
    id: string,
    timestamp: int,
    result: GameNumber,
    userBet: Bet,
    betAmount: BetAmount,
    payout: real,
    isWin: bool,
    resultColor: ColorValue)

  /**
   * The colour recorded with a history entry, computed from the parity of
   * the result rather than looked up; it always agrees with the table.
   */
  function ResultColor(result: GameNumber): (r: ColorValue)
    ensures r == NumberColor(result)
  {
    if result == 0 then Pair(Violet, Red)
    else if result == 5 then Pair(Violet, Green)
    else if result % 2 == 0 then Single(Red)
    else Single(Green)
  }

  /** Pressing a choice selects it, or clears it when it is already selected. */
  function Toggle<T(==)>(current: Option<T>, choice: T): (r: Option<T>)
    ensures r == None <==> current == Some(choice)
    ensures r != None ==> r == Some(choice)
  {
    if current == Some(choice) then None else Some(choice)
  }

  /** At most one of the three kinds of selection is set. */
  ghost predicate AtMostOne<A, B, C>(x: Option<A>, y: Option<B>, z: Option<C>)
  {
    (x.Some? ==> y.None? && z.None?) && (y.Some? ==> z.None?)
  }

  class Game {
    var balance: real
    var gameId: string
    var selectedColor: Option<Color>
    var selectedNumber: Option<GameNumber>
    var selectedSize: Option<Size>
    var betAmount: BetAmount
    var isProcessing: bool
    var gameHistory: seq<HistoryEntry>
    var lastResult: Option<GameNumber>
    var lastPayout: real
    /** Proof-only: the current selection has already been settled in this round. */
    ghost var settled: bool

    ghost predicate Valid()
      reads this
    {
      AtMostOne(selectedColor, selectedNumber, selectedSize)
    }

    /**
     * The balance never goes negative, and while a selection waits to be
     * settled the balance covers its stake.
     */
    ghost predicate Solvent()
      reads this
    {
      && balance >= 0.0
      && (!settled && SelectedBet().Some? ==> balance >= betAmount as real)
    }

    /** The bet currently selected: the colour first, then the size, then the number. */
    function SelectedBet(): (r: Option<Bet>)
      reads this
      ensures r == None <==> selectedColor == None && selectedSize == None && selectedNumber == None
      ensures selectedColor.Some? ==> r == Some(ColorBet(selectedColor.value))
      ensures Valid() && selectedSize.Some? ==> r == Some(SizeBet(selectedSize.value))
      ensures Valid() && selectedNumber.Some? ==> r == Some(NumberBet(selectedNumber.value))
    {
      if selectedColor.Some? then Some(ColorBet(selectedColor.value))
      else if selectedSize.Some? then Some(SizeBet(selectedSize.value))
      else if selectedNumber.Some? then Some(NumberBet(selectedNumber.value))
      else None
    }

    constructor (id: string)
      ensures Valid() && Solvent()
      ensures balance == InitialBalance && gameId == id && betAmount == 1
      ensures selectedColor == None && selectedNumber == None && selectedSize == None
      ensures !isProcessing && gameHistory == [] && lastResult == None && lastPayout == 0.0
      ensures !settled
    {
      balance := InitialBalance;
      gameId := id;
      selectedColor, selectedNumber, selectedSize := None, None, None;
      betAmount := 1;
      isProcessing := false;
      gameHistory := [];
      lastResult := None;
      lastPayout := 0.0;
      settled := false;
    }

    /** Clears the selection and the last outcome and installs a new round id. */
    method StartNewRound(newId: string)
      modifies this`gameId, this`selectedColor, this`selectedNumber, this`selectedSize
      modifies this`lastResult, this`lastPayout, this`settled
      ensures Valid()
      ensures old(Solvent()) ==> Solvent()
      ensures gameId == newId && SelectedBet() == None && lastResult == None && lastPayout == 0.0
      ensures !settled
    {
      gameId := newId;
      selectedColor := None;
      selectedNumber := None;
      selectedSize := None;
      lastResult := None;
      lastPayout := 0.0;
      settled := false;
    }

    /** First phase of round completion: stop accepting selections. */
    method Begin()
      modifies this`isProcessing
      ensures isProcessing
    {
      isProcessing := true;
    }

    /** What settling the selection held in the old state against `result` does. */
    twostate predicate BetProcessed(result: GameNumber, now: int)
      reads this
    {
      match old(SelectedBet())
      case None =>
        && balance == old(balance) && lastPayout == old(lastPayout)
        && gameHistory == old(gameHistory) && settled == old(settled)
      case Some(bet) =>
        var outcome := CalculatePayout(bet, result, old(betAmount) as real);
        && balance == old(balance) + outcome.payout - old(betAmount) as real
        && lastPayout == (if outcome.isWin then outcome.payout else 0.0)
        && gameHistory ==
             [HistoryEntry(old(gameId), now, result, bet, old(betAmount),
                           outcome.payout, outcome.isWin, NumberColor(result))]
             + old(gameHistory)
        && settled
    }

    /**
     * Settles the selected bet against `result` at clock reading `now`:
     * with no selection nothing changes; otherwise the stake is forfeited,
     * the payout credited, and an entry is put at the head of the history.
     */
    method ProcessBet(result: GameNumber, now: int)
      requires Valid()
      modifies this`balance, this`lastPayout, this`gameHistory, this`settled
      ensures Valid()
      ensures BetProcessed(result, now)
      ensures old(Solvent()) && !old(settled) ==> Solvent()
    {
      var userBet := SelectedBet();
      if userBet == None {
        return;
      }
      var outcome := CalculatePayout(userBet.value, result, betAmount as real);
      lastPayout := if outcome.isWin then outcome.payout else 0.0;
      balance := balance + outcome.payout - betAmount as real;
      var entry := HistoryEntry(gameId, now, result, userBet.value, betAmount,
                                outcome.payout, outcome.isWin, ResultColor(result));
      gameHistory := [entry] + gameHistory;
      settled := true;
    }

    /** Second phase: record the drawn result and settle the bet against it. */
    method Settle(result: GameNumber, now: int)
      requires Valid()
      modifies this`lastResult, this`balance, this`lastPayout, this`gameHistory, this`settled
      ensures Valid()
      ensures lastResult == Some(result)
      ensures BetProcessed(result, now)
      ensures old(Solvent()) && !old(settled) ==> Solvent()
    {
      lastResult := Some(result);
      ProcessBet(result, now);
    }

    /** Last phase: start the next round and accept selections again. */
    method Finish(newId: string)
      modifies this`gameId, this`selectedColor, this`selectedNumber, this`selectedSize
      modifies this`lastResult, this`lastPayout, this`settled, this`isProcessing
      ensures Valid()
      ensures old(Solvent()) ==> Solvent()
      ensures gameId == newId && SelectedBet() == None && lastResult == None && lastPayout == 0.0
      ensures !isProcessing
    {
      StartNewRound(newId);
      isProcessing := false;
    }

    /** Changes the stake, unless the balance does not cover it. Processing does not block it. */
    method SelectBetAmount(amount: BetAmount)
      modifies this`betAmount
      ensures old(balance) < amount as real ==> betAmount == old(betAmount)
      ensures old(balance) >= amount as real ==> betAmount == amount
      ensures old(Solvent()) ==> Solvent()
    {
      if balance < amount as real {
        return;
      }
      betAmount := amount;
    }

    /**
     * The three selection handlers share their guards: nothing changes while
     * a round is being processed or when the balance does not cover the stake.
     */
    predicate SelectionBlocked()
      reads this
    {
      isProcessing || balance < betAmount as real
    }

    method SelectColor(color: Color)
      requires Valid()
      modifies this`selectedColor, this`selectedNumber, this`selectedSize
      ensures Valid()
      ensures old(SelectionBlocked()) ==> unchanged(this)
      ensures !old(SelectionBlocked()) ==>
                selectedColor == Toggle(old(selectedColor), color) && selectedNumber == None && selectedSize == None
      ensures old(Solvent()) ==> Solvent()
    {
      if isProcessing {
        return;
      }
      if balance < betAmount as real {
        return;
      }
      selectedColor := Toggle(selectedColor, color);
      selectedNumber := None;
      selectedSize := None;
    }

    method SelectNumber(num: GameNumber)
      requires Valid()
      modifies this`selectedColor, this`selectedNumber, this`selectedSize
      ensures Valid()
      ensures old(SelectionBlocked()) ==> unchanged(this)
      ensures !old(SelectionBlocked()) ==>
                selectedNumber == Toggle(old(selectedNumber), num) && selectedColor == None && selectedSize == None
      ensures old(Solvent()) ==> Solvent()
    {
      if isProcessing {
        return;
      }
      if balance < betAmount as real {
        return;
      }
      selectedNumber := Toggle(selectedNumber, num);
      selectedColor := None;
      selectedSize := None;
    }

    method SelectSize(size: Size)
      requires Valid()
      modifies this`selectedColor, this`selectedNumber, this`selectedSize
      ensures Valid()
      ensures old(SelectionBlocked()) ==> unchanged(this)
      ensures !old(SelectionBlocked()) ==>
                selectedSize == Toggle(old(selectedSize), size) && selectedColor == None && selectedNumber == None
      ensures old(Solvent()) ==> Solvent()
    {
      if isProcessing {
        return;
      }
      if balance < betAmount as real {
        return;
      }
      selectedSize := Toggle(selectedSize, size);
      selectedColor := None;
      selectedNumber := None;
    }

    method Recharge()
      modifies this`balance
      ensures balance == old(balance) + RechargeAmount
      ensures old(Solvent()) ==> Solvent()
    {
      balance := balance + 100.0;
    }

    /** Withdrawal is not implemented: the handler only shows a notice. */
    method Withdraw()
      ensures unchanged(this)
    {
    }
  }

  /**
   * A full round as the component drives it: a violet bet of 10 on a fresh
   * game, the clock expires, 0 is drawn, the next round starts and its new
   * id re-arms the clock.
   */
  method VioletRoundOnZero()
  {
    var g := new Game("round-1");
    var clock := new Timer.RoundClock(GameDuration);
    assert clock.timeLeft == 60 && clock.running;
    g.SelectBetAmount(10);
    assert g.betAmount == 10;
    g.SelectColor(Violet);
    assert g.SelectedBet() == Some(ColorBet(Violet));
    g.Begin();
    g.Settle(0, 1000);
    assert g.balance == 135.0;
    assert |g.gameHistory| == 1 && g.gameHistory[0].isWin && g.gameHistory[0].payout == 45.0;
    assert g.lastPayout == 45.0 && g.gameHistory[0].userBet == ColorBet(Violet) && g.gameHistory[0].id == "round-1";
    g.Finish("round-2");
    clock.Reset(GameDuration);
    assert clock.timeLeft == 60 && !clock.fired;
    assert g.SelectedBet() == None && g.balance == 135.0 && !g.isProcessing;
    g.SelectSize(Big);
    assert g.SelectedBet() == Some(SizeBet(Big));
    g.SelectNumber(7);
    assert g.SelectedBet() == Some(NumberBet(7)) && g.selectedSize == None;
    g.SelectNumber(7);
    assert g.SelectedBet() == None;
  }
}
