/** Which categories the `fetch` command collects for one account, from its four
    limiting flags and the account's fetch configuration. */
module FetchGating {
  import opened Wrappers

  /** An account's fetch configuration. There is no separate NFT switch. */
  datatype FetchConfig = FetchConfig(actions: bool, balances: bool, trades: bool)

  /** The `--actions`, `--balances`, `--trades` and `--nfts` flags. */
  datatype FetchFlags = FetchFlags(actions: bool, balances: bool, trades: bool, nfts: bool)

  /** What is fetched for one account. */
  datatype FetchPlan = FetchPlan(actions: bool, balances: bool, trades: bool, nfts: bool)

  /** Any one of the flags limits fetching to the flagged categories. */
  predicate Limited(flags: FetchFlags)
  {
    flags.actions || flags.balances || flags.trades || flags.nfts
  }

  /** `account.config.fetch or FetchConfig()`: the account's own configuration if
      it has one, else the default one. */
  function EffectiveConfig(configured: Option<FetchConfig>, default: FetchConfig): (c: FetchConfig)
    ensures configured.Some? ==> c == configured.value
    ensures configured.None? ==> c == default
  {
    if configured.Some? then configured.value else default
  }

  /** A category is fetched when it is not excluded by the flags (none set, or its
      own set) and the configuration enables it; NFTs follow the trades switch. */
  function PlanFetch(flags: FetchFlags, config: FetchConfig): (p: FetchPlan)
    ensures !Limited(flags) ==> p == FetchPlan(config.actions, config.balances, config.trades, config.trades)
    ensures Limited(flags) ==>
              p == FetchPlan(flags.actions && config.actions, flags.balances && config.balances,
                             flags.trades && config.trades, flags.nfts && config.trades)
  {
    var limited := Limited(flags);
    FetchPlan((!limited || flags.actions) && config.actions,
              (!limited || flags.balances) && config.balances,
              (!limited || flags.trades) && config.trades,
              (!limited || flags.nfts) && config.trades)
  }

  /** Nothing is fetched that the configuration disables, whatever the flags; in
      particular NFTs are never fetched for an account whose trades are off. */
  lemma PlanWithinConfig(flags: FetchFlags, config: FetchConfig)
    ensures var p := PlanFetch(flags, config);
            && (p.actions ==> config.actions)
            && (p.balances ==> config.balances)
            && (p.trades ==> config.trades)
            && (p.nfts ==> config.trades)
  {
  }

  /** Setting all four flags fetches the same as setting none. */
  lemma AllFlagsAsNoFlags(config: FetchConfig)
    ensures PlanFetch(FetchFlags(true, true, true, true), config)
         == PlanFetch(FetchFlags(false, false, false, false), config)
  {
  }

  /** A single flag fetches at most its own category. */
  lemma SingleFlagFetchesOnlyItsCategory(config: FetchConfig)
    ensures var p := PlanFetch(FetchFlags(false, false, true, false), config);
            !p.actions && !p.balances && !p.nfts && p.trades == config.trades
    ensures var p := PlanFetch(FetchFlags(false, false, false, true), config);
            !p.actions && !p.balances && !p.trades && p.nfts == config.trades
    ensures var p := PlanFetch(FetchFlags(true, false, false, false), config);
            p.actions == config.actions && !p.balances && !p.trades && !p.nfts
    ensures var p := PlanFetch(FetchFlags(false, true, false, false), config);
            !p.actions && p.balances == config.balances && !p.trades && !p.nfts
  {
  }

  /** Adding a category's flag to a set of flags that is already limiting turns that
      category on (if configured) without changing any other category. */
  lemma AddingFlagOnlyAddsItsCategory(flags: FetchFlags, config: FetchConfig)
    requires Limited(flags)
    ensures var p := PlanFetch(flags, config);
            && PlanFetch(flags.(actions := true), config) == p.(actions := config.actions)
            && PlanFetch(flags.(balances := true), config) == p.(balances := config.balances)
            && PlanFetch(flags.(trades := true), config) == p.(trades := config.trades)
            && PlanFetch(flags.(nfts := true), config) == p.(nfts := config.trades)
  {
  }
}
