/** Operation and event names of the trading platform's WebSocket protocol,
    as the client uses them (myiq/core/constants.py). */
module Constants {
  // Operations
  const OP_AUTHENTICATE := "authenticate"
  const OP_GET_BALANCES := "internal-billing.get-balances"
  const OP_OPEN_OPTION := "binary-options.open-option"
  const OP_SUBSCRIBE_POSITIONS := "subscribe-positions"
  const OP_GET_CANDLES := "get-candles"
  const OP_SET_SETTINGS := "set-user-settings"
  const OP_GET_FINANCIAL_INFO := "get-financial-information"

  // Events
  const EV_AUTHENTICATED := "authenticated"
  const EV_FINANCIAL_INFO := "financial-information"
  const EV_TIME_SYNC := "timeSync"
  const EV_POSITION_CHANGED := "position-changed"
  const EV_CANDLE_GENERATED := "candle-generated"
  const EV_UNDERLYING_LIST_CHANGED := "underlying-list-changed"
  const EV_PROFILE := "profile"
  const EV_FEATURES := "features"
  const EV_USER_SETTINGS := "user-settings"
  const EV_INIT_DATA := "initialization-data"

  // Blitz options
  const OPTION_TYPE_BLITZ := 12
  const INSTRUMENT_TYPE_BLITZ := "blitz-option"

  /** The generic envelope whose `msg` is itself a named message. */
  const SEND_MESSAGE := "sendMessage"
}
