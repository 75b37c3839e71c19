/** The configuration facts the prewarm engine relies on, and the plan and state
    tests shared by probes, tickets and response watchdogs
    (internal/prewarm/config.go). */
module PrewarmConfig {
  import opened Base
  import Text

  const MAX_ACCOUNTS: nat := 1000
  const MAX_MODELS: nat := 16

  datatype Account = Account(email: string, authID: string, plan: string, models: seq<string>)

  datatype Config = Config(
    models: seq<string>,
    accounts: seq<Account>,
    maxProbesPerHour: nat,
    maxAttempts: nat,
    cooldown: Time,
    ttl: Time,
    refreshBefore: Time,
    maxPending: nat)
  {
    /** Accounts without a plan or models of their own are selectors, and the
        accounts themselves are discovered. */
    predicate AutoAccounts() {
      forall a <- accounts :: a.plan == "" && a.models == []
    }

    predicate Selects(selector: Account, a: Account) {
      || (selector.authID != "" && selector.authID == a.authID)
      || (selector.email != "" && Text.EqualFold(selector.email, Text.TrimSpace(a.email)))
    }

    predicate Selected(a: Account) {
      accounts == [] || exists selector <- accounts :: Selects(selector, a)
    }

    /** The part of Validate that the engine depends on. */
    ghost predicate Valid() {
      && |accounts| <= MAX_ACCOUNTS
      && |models| <= MAX_MODELS
      && (AutoAccounts() ==> models != [])
      && (!AutoAccounts() ==> forall a <- accounts ::
            (a.plan == "pro" || a.plan == "team") && a.authID != "" && a.models != [])
      && (!AutoAccounts() ==> UniqueKeys())
      && 1 <= maxAttempts
      && 1 <= maxPending
      && 0 < refreshBefore < ttl
    }

    ghost predicate UniqueKeys() {
      forall i, j, m | 0 <= i < |accounts| && 0 <= j < |accounts|
                       && m in accounts[i].models && m in accounts[j].models ::
        accounts[i].authID == accounts[j].authID ==> i == j
    }
  }

  predicate ValidAuthID(id: string) {
    id != "" && |id| <= 1024 && id == Text.TrimSpace(id)
  }

  /** The length family of a raw plan name, or "" for an unknown plan. */
  function CanonicalPlan(raw: string): string {
    var plan := Text.ToLower(Text.TrimSpace(raw));
    if plan in {"pro", "plus", "free", "individual"} then "pro"
    else if plan in {"team", "business", "self_serve_business_prolite"} then "team"
    else ""
  }

  predicate PlanMatches(raw: string, expected: string) {
    Text.TrimSpace(raw) == "" || (CanonicalPlan(raw) != "" && CanonicalPlan(raw) == expected)
  }

  predicate TokenChar(c: char) {
    'a' <= c <= 'z' || 'A' <= c <= 'Z' || '0' <= c <= '9' || c == '_' || c == '-' || c == '='
  }

  predicate ValidToken(s: string, n: nat) {
    |s| == n && Text.HasPrefix(s, "gAAAAA") && forall c <- s :: TokenChar(c)
  }

  predicate ValidState(s: string, plan: string) {
    if plan == "team" then ValidToken(s, 332)
    else plan == "pro" && ValidToken(s, 292)
  }

  predicate KnownPlan(plan: string) {
    plan == "pro" || plan == "team"
  }
}
