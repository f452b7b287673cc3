/** The configuration constants of src/shared/config/constants.ts that the core uses. */
module Config {
  /** WS_CONFIG.RECONNECT_INTERVAL: the base reconnect delay, in milliseconds. */
  const ReconnectInterval: nat := 3000
  /** WS_CONFIG.MAX_RECONNECT_ATTEMPTS: reconnects scheduled before giving up. */
  const MaxReconnectAttempts: nat := 10
  /** WS_CONFIG.PING_INTERVAL: the heartbeat period, in milliseconds. */
  const PingInterval: nat := 30000
  /** APP_CONFIG.MAX_ALERTS: the capacity of the alert list. */
  const MaxAlerts: nat := 20
}
