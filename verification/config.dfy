/** The trader's module-level configuration (bybit_auto_trader.py, lines 25-39),
    fixed for the whole run. */
module Config {

  const SmaFast := 20
  const SmaSlow := 50
  const EmaTrend := 200
  const RsiLen := 14
  const RsiLong := 55.0
  const RsiShort := 45.0
  const AtrLen := 14
  const AtrSlMult := 1.5
  const AtrTpMult := 2.0

  const RiskPct := 0.003
  const MaxLeverage := 5
  const MaxPosEquityFrac := 0.2
  const DailyLossLimit := 0.02
  const GlobalDdLimit := 0.05
}
