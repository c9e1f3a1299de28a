/** The configuration values the core reads from its settings object. */
module Config {

  /**
   * `jwtKey` is the signing key material, `expiry` the access-token lifetime in
   * minutes (the default of `set_token` and the lifetime the codec stamps), and
   * `refreshRestrictMinutes` the refresh-restriction window in minutes.
   */
  datatype Secrets = Secrets(jwtKey: string, expiry: int, refreshRestrictMinutes: int)
  {
    /** The store refuses a key written with a non-positive expiry, so the window must be positive. */
    predicate Valid() { refreshRestrictMinutes > 0 }
  }
}
