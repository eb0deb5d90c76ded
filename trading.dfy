/**
 * The swap screen of app/trading-interface.tsx.
 *
 * The screen holds a selected demo pair, the text typed as the input amount,
 * the quoted output amount, the swap direction and the list of recent
 * trades. An effect recomputes the quote whenever the input amount, the pair
 * or the direction changes; here every state change is followed by that
 * effect, so the quote always agrees with the input. The swap itself awaits
 * the AMM service, which is an input (`CallResult`).
 */
module Trading {
  import opened Wrappers

  datatype TokenInfo = TokenInfo(mint: string, symbol: string, balance: real, decimals: nat)

  datatype TradingPair = TradingPair(
    tokenA: TokenInfo,
    tokenB: TokenInfo,
    pool: string,
    hasTransferHook: bool,
    hookType: string)

  /** The mint of wrapped SOL, `DevnetConfig.TOKENS.SOL`. */
  const SOL_MINT: string := "So11111111111111111111111111111111111111112"

  const DEMO_TRADING_PAIRS: seq<TradingPair> := [
    TradingPair(
      TokenInfo(SOL_MINT, "SOL", 10.5, 9),
      TokenInfo("DemoToken1111111111111111111111111111111", "DEMO", 1000.0, 6),
      "DemoPool1111111111111111111111111111111111", true, "Fee Collection"),
    TradingPair(
      TokenInfo(SOL_MINT, "SOL", 10.5, 9),
      TokenInfo("ComplianceToken11111111111111111111111111", "COMP", 500.0, 6),
      "CompliancePool111111111111111111111111111", true, "Compliance")
  ]

  /**
   * The text of an amount field: empty, or typed text that `parseFloat`
   * either reads as a number or rejects (NaN).
   */
  datatype AmountText = Blank | Typed(parsed: Option<real>)

  /** The transfer hook fee, 0.1%, charged only on hooked pairs. */
  const HOOK_FEE: real := 0.001
  /** The pool fee, 0.3%. */
  const POOL_FEE: real := 0.003
  /** The mock price of the output token in input tokens. */
  const PRICE: real := 0.95

  function HookFee(hasTransferHook: bool): real {
    if hasTransferHook then HOOK_FEE else 0.0
  }

  /**
   * The mock quote: the amount at the fixed price, less the pool fee and the
   * hook fee. It is 94.62% of the amount on a hooked pair and 94.715% on a
   * plain one, and it keeps the sign of the amount while shrinking it.
   */
  function Quote(amount: real, hasTransferHook: bool): (r: real)
    ensures hasTransferHook ==> r == amount * 0.9462
    ensures !hasTransferHook ==> r == amount * 0.94715
    ensures amount > 0.0 ==> 0.0 < r < amount
    ensures amount == 0.0 ==> r == 0.0
    ensures amount < 0.0 ==> amount < r < 0.0
  {
    amount * PRICE * (1.0 - (HookFee(hasTransferHook) + POOL_FEE))
  }

  /** The hook fee never improves a quote for a positive amount: a hooked pair quotes strictly less. */
  lemma HookedQuoteIsLower(amount: real)
    requires amount > 0.0
    ensures Quote(amount, true) < Quote(amount, false)
  {
  }

  /** A larger amount in is quoted a larger amount out. */
  lemma QuoteMonotone(a: real, b: real, hasTransferHook: bool)
    requires a < b
    ensures Quote(a, hasTransferHook) < Quote(b, hasTransferHook)
  {
  }

  /** `100` on a hooked pair is quoted `94.62`. */
  lemma QuoteExample()
    ensures Quote(100.0, true) == 94.62
  {
  }

  /**
   * The quote effect: a quote exactly when the input text parses as a
   * number, otherwise an empty output. The direction is a dependency of the
   * effect but does not enter the price.
   */
  function QuoteFor(amountIn: AmountText, pair: TradingPair, isTokenAToB: bool): (r: Option<real>)
    ensures r.Some? <==> amountIn.Typed? && amountIn.parsed.Some?
    ensures r.Some? ==> r.value == Quote(amountIn.parsed.value, pair.hasTransferHook)
  {
    match amountIn
    case Typed(Some(amount)) => Some(Quote(amount, pair.hasTransferHook))
    case _ => None
  }

  /** Flipping the direction does not change the quote. */
  lemma QuoteIgnoresDirection(amountIn: AmountText, pair: TradingPair)
    ensures QuoteFor(amountIn, pair, true) == QuoteFor(amountIn, pair, false)
  {
  }

  /**
   * The swap button is enabled, and `handleSwap` passes its amount check,
   * when both fields are non-empty text.
   */
  predicate SwapReady(amountIn: AmountText, amountOut: Option<real>) {
    amountIn != Blank && amountOut.Some?
  }

  /**
   * With the quote in step with the input, a swap is possible exactly when
   * the input parses as a number, including zero and negative numbers.
   */
  lemma SwapReadyIffParsed(amountIn: AmountText, pair: TradingPair, isTokenAToB: bool)
    ensures SwapReady(amountIn, QuoteFor(amountIn, pair, isTokenAToB))
        <==> amountIn.Typed? && amountIn.parsed.Some?
  {
  }

  /** A zero amount passes the check and is sent to the service. */
  lemma ZeroAmountIsSwappable(pair: TradingPair)
    ensures SwapReady(Typed(Some(0.0)), QuoteFor(Typed(Some(0.0)), pair, true))
  {
  }

  /** The text of the output field copied into the input field by `switchTokens`. */
  function AsInput(amountOut: Option<real>): (r: AmountText)
    ensures r == Blank <==> amountOut.None?
    ensures amountOut.Some? ==> r.parsed == amountOut
  {
    match amountOut
    case Some(v) => Typed(Some(v))
    case None => Blank
  }

  /**
   * Switching twice brings the direction back but not the amount: the
   * amount becomes the quote of the quote, which for a positive amount is
   * strictly smaller than what was typed.
   */
  lemma SwitchTwiceShrinks(amount: real, pair: TradingPair, isTokenAToB: bool)
    requires amount > 0.0
    ensures var once := AsInput(QuoteFor(Typed(Some(amount)), pair, isTokenAToB));
      var twice := AsInput(QuoteFor(once, pair, !isTokenAToB));
      && twice == Typed(Some(Quote(Quote(amount, pair.hasTransferHook), pair.hasTransferHook)))
      && 0.0 < twice.parsed.value < amount
  {
    var h := pair.hasTransferHook;
    assert AsInput(QuoteFor(Typed(Some(amount)), pair, isTokenAToB)) == Typed(Some(Quote(amount, h)));
  }

  /** Switching with text that does not parse empties both fields. */
  lemma SwitchClearsUnparsed(pair: TradingPair, isTokenAToB: bool)
    ensures AsInput(QuoteFor(Typed(None), pair, isTokenAToB)) == Blank
    ensures QuoteFor(AsInput(QuoteFor(Typed(None), pair, isTokenAToB)), pair, !isTokenAToB) == None
  {
  }

  datatype TradeRecord = TradeRecord(
    signature: string,
    timestamp: string,
    tokenIn: string,
    tokenOut: string,
    amountIn: real,
    amountOut: real,
    hookType: string)

  /**
   * The record of a completed swap. The tokens are the pair's two symbols,
   * in the direction of the swap; the hook type is "None" on a pair without
   * a hook.
   */
  function NewTrade(pair: TradingPair, isTokenAToB: bool, amountIn: real, amountOut: real,
                    signature: string, timestamp: string): (t: TradeRecord)
    ensures multiset{t.tokenIn, t.tokenOut} == multiset{pair.tokenA.symbol, pair.tokenB.symbol}
    ensures isTokenAToB ==> t.tokenIn == pair.tokenA.symbol && t.tokenOut == pair.tokenB.symbol
    ensures !isTokenAToB ==> t.tokenIn == pair.tokenB.symbol && t.tokenOut == pair.tokenA.symbol
    ensures pair.hasTransferHook ==> t.hookType == pair.hookType
    ensures !pair.hasTransferHook ==> t.hookType == "None"
    ensures t.signature == signature && t.timestamp == timestamp
    ensures t.amountIn == amountIn && t.amountOut == amountOut
  {
    TradeRecord(
      signature,
      timestamp,
      if isTokenAToB then pair.tokenA.symbol else pair.tokenB.symbol,
      if isTokenAToB then pair.tokenB.symbol else pair.tokenA.symbol,
      amountIn,
      amountOut,
      if pair.hasTransferHook then pair.hookType else "None")
  }

  /** A swap in the other direction records the same two tokens the other way round. */
  lemma TradeDirectionMirrors(pair: TradingPair, amountIn: real, amountOut: real, signature: string, timestamp: string)
    ensures var forward := NewTrade(pair, true, amountIn, amountOut, signature, timestamp);
      var backward := NewTrade(pair, false, amountIn, amountOut, signature, timestamp);
      forward.tokenIn == backward.tokenOut && forward.tokenOut == backward.tokenIn
    ensures NewTrade(pair, true, amountIn, amountOut, signature, timestamp).tokenIn == pair.tokenA.symbol
  {
  }

  /** The number of trades the screen keeps. */
  const MAX_RECENT_TRADES: nat := 10

  /**
   * The new trade goes first, followed by at most nine of the earlier ones,
   * so the list never holds more than ten.
   */
  function RecordTrade(trades: seq<TradeRecord>, trade: TradeRecord): (r: seq<TradeRecord>)
    ensures |r| == if |trades| < MAX_RECENT_TRADES then |trades| + 1 else MAX_RECENT_TRADES
    ensures r[0] == trade
    ensures forall i :: 1 <= i < |r| ==> r[i] == trades[i - 1]
  {
    [trade] + (if |trades| <= MAX_RECENT_TRADES - 1 then trades else trades[..MAX_RECENT_TRADES - 1])
  }

  /** The list the screen shows after recording every trade of `ledger` in turn, starting from none. */
  function Recent(ledger: seq<TradeRecord>): seq<TradeRecord> {
    if ledger == [] then []
    else RecordTrade(Recent(ledger[..|ledger| - 1]), ledger[|ledger| - 1])
  }

  /** The recent trades are the last ten trades of the whole history, newest first. */
  lemma {:induction false} RecentIsNewestFirst(ledger: seq<TradeRecord>)
    ensures var r := Recent(ledger);
      && |r| == (if |ledger| < MAX_RECENT_TRADES then |ledger| else MAX_RECENT_TRADES)
      && forall i :: 0 <= i < |r| ==> r[i] == ledger[|ledger| - 1 - i]
  {
    if ledger != [] {
      var init := ledger[..|ledger| - 1];
      RecentIsNewestFirst(init);
      var r := Recent(ledger);
      forall i | 1 <= i < |r|
        ensures r[i] == ledger[|ledger| - 1 - i]
      {
        assert r[i] == Recent(init)[i - 1];
        assert init[|init| - 1 - (i - 1)] == ledger[|ledger| - 1 - i];
      }
    }
  }

  class TradingInterface {
    var selectedPair: TradingPair
    var amountIn: AmountText
    var amountOut: Option<real>
    var isTokenAToB: bool
    var isSwapping: bool
    var recentTrades: seq<TradeRecord>
    /** Every trade that completed, oldest first. */
    ghost var ledger: seq<TradeRecord>

    /**
     * The quote agrees with the input, no swap is in flight between
     * handlers, and the list shown is the recent part of the ledger.
     */
    ghost predicate Valid()
      reads this
    {
      selectedPair in DEMO_TRADING_PAIRS &&
      amountOut == QuoteFor(amountIn, selectedPair, isTokenAToB) &&
      !isSwapping &&
      recentTrades == Recent(ledger)
    }

    constructor ()
      ensures Valid()
      ensures selectedPair == DEMO_TRADING_PAIRS[0] && amountIn == Blank && amountOut == None
      ensures isTokenAToB && !isSwapping && recentTrades == [] && ledger == []
    {
      selectedPair := DEMO_TRADING_PAIRS[0];
      amountIn := Blank;
      amountOut := None;
      isTokenAToB := true;
      isSwapping := false;
      recentTrades := [];
      ledger := [];
    }

    /** Typing in the input field, followed by the quote effect. */
    method SetAmountIn(text: AmountText)
      requires Valid()
      modifies this`amountIn, this`amountOut
      ensures Valid()
      ensures amountIn == text && amountOut == QuoteFor(text, selectedPair, isTokenAToB)
    {
      amountIn := text;
      amountOut := QuoteFor(amountIn, selectedPair, isTokenAToB);
    }

    /** Tapping one of the demo pairs, followed by the quote effect. */
    method SelectPair(pair: TradingPair)
      requires Valid() && pair in DEMO_TRADING_PAIRS
      modifies this`selectedPair, this`amountOut
      ensures Valid()
      ensures selectedPair == pair && amountOut == QuoteFor(amountIn, pair, isTokenAToB)
    {
      selectedPair := pair;
      amountOut := QuoteFor(amountIn, selectedPair, isTokenAToB);
    }

    /**
     * `switchTokens`: the direction flips and the quoted output becomes the
     * input. The effect then re-quotes the new input, which overwrites the
     * old input that `switchTokens` had moved to the output field.
     */
    method SwitchTokens()
      requires Valid()
      modifies this`isTokenAToB, this`amountIn, this`amountOut
      ensures Valid()
      ensures isTokenAToB == !old(isTokenAToB)
      ensures amountIn == AsInput(old(amountOut))
      ensures amountOut == QuoteFor(amountIn, selectedPair, isTokenAToB)
    {
      isTokenAToB := !isTokenAToB;
      amountIn := AsInput(amountOut);
      amountOut := QuoteFor(amountIn, selectedPair, isTokenAToB);
    }

    /**
     * `handleSwap`. Without a wallet or service, or without both amounts,
     * nothing changes. Otherwise the swap is sent; when it resolves with a
     * signature the trade is recorded at the head of the list and the form
     * is cleared, and when it rejects the state is as before.
     */
    method HandleSwap(walletConnected: bool, serviceAvailable: bool, outcome: CallResult<string>, timestamp: string)
      requires Valid()
      modifies this`isSwapping, this`recentTrades, this`ledger, this`amountIn, this`amountOut
      ensures Valid()
      ensures !(walletConnected && serviceAvailable && SwapReady(old(amountIn), old(amountOut))) || outcome.Rejected?
        ==> unchanged(this)
      ensures walletConnected && serviceAvailable && SwapReady(old(amountIn), old(amountOut)) && outcome.Resolved? ==>
        var trade := NewTrade(selectedPair, isTokenAToB, old(amountIn).parsed.value, old(amountOut).value,
                              outcome.value, timestamp);
        && recentTrades == RecordTrade(old(recentTrades), trade)
        && ledger == old(ledger) + [trade]
        && amountIn == Blank && amountOut == None
    {
      if !(walletConnected && serviceAvailable) {
        return;
      }
      if !SwapReady(amountIn, amountOut) {
        return;
      }
      isSwapping := true;
      match outcome {
        case Resolved(signature) =>
          var trade := NewTrade(selectedPair, isTokenAToB, amountIn.parsed.value, amountOut.value,
                                signature, timestamp);
          recentTrades := RecordTrade(recentTrades, trade);
          ledger := ledger + [trade];
          assert ledger[..|ledger| - 1] == old(ledger);
          amountIn := Blank;
          amountOut := None;
        case Rejected =>
      }
      isSwapping := false;
    }
  }

  /** One swap of 10 SOL on a fresh screen: the list shows it, quoted at 9.462 DEMO, and the form is cleared. */
  method SwapOnFreshScreen(signature: string, timestamp: string) returns (shown: seq<TradeRecord>, cleared: bool)
    ensures shown == [TradeRecord(signature, timestamp, "SOL", "DEMO", 10.0, 9.462, "Fee Collection")]
    ensures cleared
  {
    var screen := new TradingInterface();
    screen.SetAmountIn(Typed(Some(10.0)));
    assert screen.amountOut == Some(9.462);
    screen.HandleSwap(true, true, Resolved(signature), timestamp);
    shown := screen.recentTrades;
    cleared := screen.amountIn == Blank && screen.amountOut == None;
  }
}
