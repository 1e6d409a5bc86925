/** The risk rules as functions of a risk state: market level, circuit breaker, daily drawdown, cooldown, sizing. */
module RiskRules {
  import opened Collections
  import opened Arithmetic

  datatype Level = Green | Yellow | Orange | Red

  function ParseLevel(name: string): Option<Level>
  {
    match name
    case "GREEN" => Some(Green)
    case "YELLOW" => Some(Yellow)
    case "ORANGE" => Some(Orange)
    case "RED" => Some(Red)
    case _ => None
  }

  function SizeMultiplier(level: Level): real
  {
    match level
    case Green => 1.0
    case Yellow => 0.5
    case Orange => 0.0
    case Red => 0.0
  }

  predicate CanOpen(level: Level) { level.Green? || level.Yellow? }

  const BTC_ETH := {"BTC/USDT", "ETH/USDT", "BTCUSDT", "ETHUSDT"}
  const MAJOR_L1 := {"SOL/USDT", "BNB/USDT", "XRP/USDT", "ADA/USDT", "AVAX/USDT", "DOT/USDT",
                     "SOLUSDT", "BNBUSDT", "XRPUSDT", "ADAUSDT", "AVAXUSDT", "DOTUSDT"}
  const DEFI := {"UNI/USDT", "LINK/USDT", "AAVE/USDT", "CRV/USDT", "UNIUSDT", "LINKUSDT", "AAVEUSDT", "CRVUSDT"}
  const MEME := {"DOGE/USDT", "SHIB/USDT", "PEPE/USDT", "DOGEUSDT", "SHIBUSDT", "PEPEUSDT"}
  const INFRA := {"LTC/USDT", "ATOM/USDT", "FIL/USDT", "NEAR/USDT", "TRX/USDT",
                  "LTCUSDT", "ATOMUSDT", "FILUSDT", "NEARUSDT", "TRXUSDT"}

  datatype Group = BtcEth | MajorL1 | Defi | Meme | Infra

  function GroupOf(symbol: string): Option<Group>
  {
    if symbol in BTC_ETH then Some(BtcEth)
    else if symbol in MAJOR_L1 then Some(MajorL1)
    else if symbol in DEFI then Some(Defi)
    else if symbol in MEME then Some(Meme)
    else if symbol in INFRA then Some(Infra)
    else None
  }

  predicate Begins(x: string, a: char, b: char, c: char) { |x| >= 3 && x[0] == a && x[1] == b && x[2] == c }

  lemma BtcEthBegin(x: string)
    requires x in BTC_ETH
    ensures Begins(x, 'B', 'T', 'C') || Begins(x, 'E', 'T', 'H')
  {
  }

  lemma MajorL1Begin(x: string)
    requires x in MAJOR_L1
    ensures Begins(x, 'S', 'O', 'L') || Begins(x, 'B', 'N', 'B') || Begins(x, 'X', 'R', 'P')
         || Begins(x, 'A', 'D', 'A') || Begins(x, 'A', 'V', 'A') || Begins(x, 'D', 'O', 'T')
  {
  }

  lemma DefiBegin(x: string)
    requires x in DEFI
    ensures Begins(x, 'U', 'N', 'I') || Begins(x, 'L', 'I', 'N') || Begins(x, 'A', 'A', 'V')
         || Begins(x, 'C', 'R', 'V')
  {
  }

  lemma MemeBegin(x: string)
    requires x in MEME
    ensures Begins(x, 'D', 'O', 'G') || Begins(x, 'S', 'H', 'I') || Begins(x, 'P', 'E', 'P')
  {
  }

  lemma InfraBegin(x: string)
    requires x in INFRA
    ensures Begins(x, 'L', 'T', 'C') || Begins(x, 'A', 'T', 'O') || Begins(x, 'F', 'I', 'L')
         || Begins(x, 'N', 'E', 'A') || Begins(x, 'T', 'R', 'X')
  {
  }

  /** No symbol is in two groups. */
  lemma OneGroup(x: string)
    ensures x in BTC_ETH ==> x !in MAJOR_L1 && x !in DEFI && x !in MEME && x !in INFRA
    ensures x in MAJOR_L1 ==> x !in DEFI && x !in MEME && x !in INFRA
    ensures x in DEFI ==> x !in MEME && x !in INFRA
    ensures x in MEME ==> x !in INFRA
  {
    if x in BTC_ETH { BtcEthBegin(x); }
    if x in MAJOR_L1 { MajorL1Begin(x); }
    if x in DEFI { DefiBegin(x); }
    if x in MEME { MemeBegin(x); }
    if x in INFRA { InfraBegin(x); }
  }

  function Members(symbols: set<string>, g: Group): set<string>
  {
    set s | s in symbols && GroupOf(s) == Some(g)
  }

  datatype Limits = Limits(
    maxPosition: real, maxDailyDrawdownPct: real, breakerPct: real, cooldown: real, maxCorrelated: int)

  /** `day` is the UTC date as a day number; times are seconds. */
  datatype Risk = Risk(
    limits: Limits, peak: real, breaker: bool, cooldowns: map<string, real>,
    dayStart: Option<real>, dayPeak: Option<real>, day: Option<int>, last: Option<real>,
    level: Level, recommendation: string)

  function Initial(limits: Limits, balance: real): Risk
  {
    Risk(limits, balance, false, map[], None, None, None, None, Green, "normal")
  }

  function Day(now: real): int { (now / 86400.0).Floor }

  function CheckDateReset(r: Risk, today: int): Risk
  {
    if r.day != Some(today) then r.(day := Some(today), dayStart := None, dayPeak := None) else r
  }

  /** At or under this balance the circuit breaker is active. */
  function BreakerLine(peak: real, pct: real): real { peak * (1.0 - pct / 100.0) }

  function UpdateBalance(r0: Risk, balance: real, today: int): Risk
  {
    var r := CheckDateReset(r0, today);
    var peak := if balance > r.peak then balance else r.peak;
    r.(last := Some(balance),
       dayStart := if r.dayStart == None then Some(balance) else r.dayStart,
       dayPeak := if r.dayPeak == None || balance > r.dayPeak.value then Some(balance) else r.dayPeak,
       peak := peak,
       breaker := balance <= BreakerLine(peak, r.limits.breakerPct))
  }

  /** `DivisionError` stands for the ZeroDivisionError of a daily start balance of zero. */
  datatype Verdict =
    | Allowed | LevelBlocks | BreakerBlocks | DrawdownBlocks | CooldownBlocks | CorrelationBlocks | DivisionError

  /** The daily change in percent. */
  function DailyPct(last: real, start: real): real
    requires start != 0.0
  {
    (last - start) / start * 100.0
  }

  function Drawdown(last: Option<real>, start: Option<real>, maxPct: real): Option<Verdict>
  {
    if last == None || start == None then None
    else if start.value == 0.0 then Some(DivisionError)
    else if DailyPct(last.value, start.value) < -maxPct then Some(DrawdownBlocks)
    else None
  }

  /** The verdict, and the state after the date check that comes with asking. */
  function CanTrade(r0: Risk, symbol: string, open: set<string>, now: real): (Risk, Verdict)
  {
    if !CanOpen(r0.level) then (r0, LevelBlocks)
    else if r0.breaker then (r0, BreakerBlocks)
    else
      var r := CheckDateReset(r0, Day(now));
      var d := Drawdown(r.last, r.dayStart, r.limits.maxDailyDrawdownPct);
      if d.Some? then (r, d.value)
      else if symbol in r.cooldowns && now - r.cooldowns[symbol] < r.limits.cooldown then (r, CooldownBlocks)
      else
        var g := GroupOf(symbol);
        if open != {} && r.limits.maxCorrelated > 0 && g.Some? && |Members(open, g.value)| >= r.limits.maxCorrelated
        then (r, CorrelationBlocks)
        else (r, Allowed)
  }

  function OrderSize(maxPosition: real, balance: real, level: Level): real
  {
    Min(maxPosition, balance * 0.1) * SizeMultiplier(level)
  }

  /** What an order is worth at each level, for this limit and balance. */
  predicate SizedFor(size: real, limit: real, balance: real, level: Level)
  {
    var full := if balance / 10.0 < limit then balance / 10.0 else limit;
    match level
    case Green => size == full
    case Yellow => size + size == full
    case Orange => size == 0.0
    case Red => size == 0.0
  }

  function RecordTrade(r: Risk, symbol: string, now: real): Risk { r.(cooldowns := r.cooldowns[symbol := now]) }

  function SetMarketStatus(r: Risk, name: string, recommendation: string): Risk
  {
    match ParseLevel(name)
    case None => r
    case Some(level) => r.(level := level, recommendation := recommendation)
  }
}

/** The risk manager as the object it is; `State` is its value. */
module RiskManagers {
  import opened Arithmetic
  import opened Collections
  import opened RiskRules

  class RiskManager {
    const limits: Limits
    var peakBalance: real
    var circuitBreakerActive: bool
    var cooldowns: map<string, real>
    var dailyStartBalance: Option<real>
    var dailyPeak: Option<real>
    var currentDate: Option<int>
    var lastBalance: Option<real>
    var marketLevel: Level
    var marketRecommendation: string

    ghost function State(): Risk
      reads this
    {
      Risk(limits, peakBalance, circuitBreakerActive, cooldowns, dailyStartBalance, dailyPeak,
           currentDate, lastBalance, marketLevel, marketRecommendation)
    }

    constructor (limits: Limits, initialBalance: real)
      ensures State() == Initial(limits, initialBalance)
    {
      this.limits, peakBalance, circuitBreakerActive, cooldowns := limits, initialBalance, false, map[];
      dailyStartBalance, dailyPeak, currentDate, lastBalance := None, None, None, None;
      marketLevel, marketRecommendation := Green, "normal";
    }

    method SetMarketStatus(level: string, recommendation: string)
      modifies this
      ensures State() == RiskRules.SetMarketStatus(old(State()), level, recommendation)
    {
      var parsed := ParseLevel(level);
      if parsed == None {
        return;
      }
      marketLevel, marketRecommendation := parsed.value, recommendation;
    }

    method CheckDateReset(today: int)
      modifies this
      ensures State() == RiskRules.CheckDateReset(old(State()), today)
    {
      if currentDate != Some(today) {
        currentDate, dailyStartBalance, dailyPeak := Some(today), None, None;
      }
    }

    method UpdateBalance(balance: real, now: real)
      modifies this
      ensures State() == RiskRules.UpdateBalance(old(State()), balance, Day(now))
    {
      CheckDateReset(Day(now));
      lastBalance := Some(balance);
      if dailyStartBalance == None {
        dailyStartBalance := Some(balance);
      }
      if dailyPeak == None || balance > dailyPeak.value {
        dailyPeak := Some(balance);
      }
      if balance > peakBalance {
        peakBalance := balance;
      }
      circuitBreakerActive := balance <= BreakerLine(peakBalance, limits.breakerPct);
    }

    method CanTrade(symbol: string, openSymbols: set<string>, now: real) returns (v: Verdict)
      modifies this
      ensures (State(), v) == RiskRules.CanTrade(old(State()), symbol, openSymbols, now)
    {
      if !CanOpen(marketLevel) {
        return LevelBlocks;
      }
      if circuitBreakerActive {
        return BreakerBlocks;
      }
      CheckDateReset(Day(now));
      if lastBalance.Some? && dailyStartBalance.Some? {
        if dailyStartBalance.value == 0.0 {
          return DivisionError;
        }
        if DailyPct(lastBalance.value, dailyStartBalance.value) < -limits.maxDailyDrawdownPct {
          return DrawdownBlocks;
        }
      }
      if symbol in cooldowns && now - cooldowns[symbol] < limits.cooldown {
        return CooldownBlocks;
      }
      if openSymbols != {} && limits.maxCorrelated > 0 {
        var group := GroupOf(symbol);
        if group.Some? && |Members(openSymbols, group.value)| >= limits.maxCorrelated {
          return CorrelationBlocks;
        }
      }
      return Allowed;
    }

    /**
     * No answer exactly at price zero. The order is worth the smaller of the user's limit and a tenth of the
     * balance under GREEN, half of that under YELLOW, and nothing under ORANGE and RED.
     */
    method CalculatePositionSize(balance: real, price: real) returns (quantity: Option<real>)
      ensures quantity == None <==> price == 0.0
      ensures quantity.Some? ==> quantity.value * price == OrderSize(limits.maxPosition, balance, marketLevel)
      ensures quantity.Some? ==> SizedFor(quantity.value * price, limits.maxPosition, balance, marketLevel)
      ensures quantity.Some? && limits.maxPosition >= 0.0 && balance >= 0.0 ==>
                && 0.0 <= quantity.value * price <= limits.maxPosition
                && quantity.value * price <= balance * 0.1
                && (limits.maxPosition > 0.0 && balance > 0.0 ==> (quantity.value != 0.0 <==> CanOpen(marketLevel)))
    {
      var size := OrderSize(limits.maxPosition, balance, marketLevel);
      if price != 0.0 {
        QuotientTimes(size, price);
      }
      quantity := if price == 0.0 then None else Some(size / price);
    }

    method RecordTrade(symbol: string, now: real)
      modifies this
      ensures State() == RiskRules.RecordTrade(old(State()), symbol, now)
    {
      cooldowns := cooldowns[symbol := now];
    }

    method ResetCircuitBreaker()
      modifies this
      ensures State() == old(State()).(breaker := false)
    {
      circuitBreakerActive := false;
    }
  }
}
