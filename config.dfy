/** Constants of backend/app/config.py that the scanners and the API use. */
module Config {
  /** The demonstration universe: the fifty NIFTY symbols listed as `NIFTY_500_SYMBOLS`. */
  const Nifty500Symbols: seq<string> := [
    "RELIANCE", "TCS", "HDFCBANK", "INFY", "ICICIBANK",
    "HINDUNILVR", "BHARTIARTL", "SBIN", "KOTAKBANK", "ITC",
    "BAJFINANCE", "LT", "AXISBANK", "ASIANPAINT", "MARUTI",
    "HCLTECH", "SUNPHARMA", "TITAN", "ULTRACEMCO", "WIPRO",
    "ONGC", "NTPC", "POWERGRID", "TATASTEEL", "JSWSTEEL",
    "ADANIENT", "ADANIPORTS", "COALINDIA", "BPCL", "GRASIM",
    "TECHM", "INDUSINDBK", "HINDALCO", "DRREDDY", "DIVISLAB",
    "CIPLA", "EICHERMOT", "BAJAJ-AUTO", "HEROMOTOCO", "BRITANNIA",
    "NESTLEIND", "APOLLOHOSP", "TATACONSUM", "M&M", "TATAMOTORS",
    "SBILIFE", "HDFCLIFE", "BAJAJFINSV", "SHREECEM", "DMART"
  ]

  /** `VCP_SETTINGS["min_legs"]`. */
  const MinLegs: nat := 3
  /** `VCP_SETTINGS["final_base_depth_max"] * 100`, in percent. */
  const FinalBaseDepthMaxPct: real := 15.0
  /** `BREAKOUT_SETTINGS["relative_volume_threshold"]`. */
  const RelativeVolumeThreshold: real := 1.0
  /** `BREAKOUT_SETTINGS["pivot_range"]`. */
  const PivotRange: nat := 100
}
