/** The dashboard's own rules: the balance display (unit cycling, unit
    label, masking), the wholesale replacement of account and transactions
    on a data fetch, and logout. */
module Dashboard {
  import opened Wrappers
  import opened Strings
  import opened Json
  import opened Session

  // ---------------------------------------------------------------------------
  // Balance display
  // ---------------------------------------------------------------------------

  datatype DisplayUnit = Sats | Btc | Fiat

  /** The cycle the unit toggle walks through. */
  const Units: seq<DisplayUnit> := [Sats, Btc, Fiat]

  /** The name the label shows for a non-fiat unit. */
  function UnitName(u: DisplayUnit): string {
    match u
    case Sats => "sats"
    case Btc => "btc"
    case Fiat => "fiat"
  }

  /** `units.indexOf(unit)`: every unit is in the cycle. */
  function IndexOf(u: DisplayUnit): (i: nat)
    ensures i < |Units| && Units[i] == u
  {
    match u
    case Sats => 0
    case Btc => 1
    case Fiat => 2
  }

  /** `toggleDisplayUnit`: the unit after `u` in the cycle, wrapping round. */
  function NextUnit(u: DisplayUnit): DisplayUnit {
    Units[(IndexOf(u) + 1) % |Units|]
  }

  /** The toggle walks sats, btc, fiat and back; it never stays put and three
      toggles are the identity. */
  lemma NextUnitCycles(u: DisplayUnit)
    ensures NextUnit(Sats) == Btc && NextUnit(Btc) == Fiat && NextUnit(Fiat) == Sats
    ensures NextUnit(u) != u
    ensures NextUnit(NextUnit(NextUnit(u))) == u
  {
  }

  /** `getDisplayUnitLabel`. */
  function UnitLabel(visible: bool, unit: DisplayUnit, currency: string): (l: string)
    ensures !visible ==> l == ""
    ensures visible && unit == Fiat ==> |l| == |currency| && forall i :: 0 <= i < |l| ==> l[i] == UpperChar(currency[i])
    ensures visible && unit != Fiat ==> l == UnitName(unit)
  {
    if !visible then "" else if unit == Fiat then ToUpper(currency) else UnitName(unit)
  }

  /** The label is empty exactly when the balance is hidden or the fiat
      currency code is empty. */
  lemma UnitLabelEmpty(visible: bool, unit: DisplayUnit, currency: string)
    ensures UnitLabel(visible, unit, currency) == "" <==> !visible || (unit == Fiat && currency == "")
  {
    if visible && unit == Fiat && currency != "" {
      assert |UnitLabel(visible, unit, currency)| == |currency|;
    }
  }

  /** The account as the dashboard reads it: a balance in sats and the fiat
      value of that balance per currency code. */
  datatype Account = Account(balance: int, fiatEquivalents: map<string, real>)

  /** What `formatBalance` shows; the locale formatting of the numbers is
      left to the view. */
  datatype BalanceText =
    | Masked                 // "•••••••"
    | SatsText(sats: int)    // the balance, locale formatted
    | BtcText(sats: int)     // balance / 100 000 000 with eight decimals
    | FiatText(value: real)  // the fiat value with two decimals
    | NotAvailable           // "N/A"

  const MaskText := "•••••••"

  function FormatBalance(isClient: bool, account: Option<Account>, visible: bool, unit: DisplayUnit, currency: string): (b: BalanceText)
    ensures b == Masked <==> !isClient || account.None? || !visible
    ensures b == NotAvailable <==> isClient && account.Some? && visible && unit == Fiat
                                   && currency !in account.value.fiatEquivalents
    ensures b.SatsText? ==> unit == Sats && b.sats == account.value.balance
    ensures b.BtcText? ==> unit == Btc && b.sats == account.value.balance
    ensures b.FiatText? ==> unit == Fiat && currency in account.value.fiatEquivalents
                            && b.value == account.value.fiatEquivalents[currency]
  {
    if !isClient || account.None? then Masked
    else if !visible then Masked
    else
      var a := account.value;
      match unit
      case Sats => SatsText(a.balance)
      case Btc => BtcText(a.balance)
      case Fiat => if currency in a.fiatEquivalents then FiatText(a.fiatEquivalents[currency]) else NotAvailable
  }

  /** A shown balance is in the unit the toggle selects. */
  lemma ShownBalanceFollowsUnit(account: Account, unit: DisplayUnit, currency: string)
    ensures var b := FormatBalance(true, Some(account), true, unit, currency);
            (unit == Sats <==> b.SatsText?) && (unit == Btc <==> b.BtcText?)
            && (unit == Fiat <==> (b.FiatText? || b == NotAvailable))
  {
  }

  // ---------------------------------------------------------------------------
  // Data fetch and logout
  // ---------------------------------------------------------------------------

  const FetchFailedPrefix := "Failed to fetch data: "

  /** `transData.transactions || []`: throws on a `null` reply. */
  function TransactionsOf(transData: Json): (t: Result<Json>)
    ensures t.Err? <==> transData.Null?
    ensures t.Ok? ==> Truthy(t.value) || t.value == Arr([])
    ensures t.Ok? && transData.Obj? && Present(Lookup(transData.members, "transactions"))
            ==> t.value == Lookup(transData.members, "transactions").value
  {
    match Member(transData, "transactions")
    case Err(e) => Err(e)
    case Ok(v) => Ok(if Present(v) then v.value else Arr([]))
  }

  /** The dashboard's state: what it shows, plus the token and the
      authentication flag it shares with its parent. */
  class DashboardState {
    const store: TokenStore
    var account: Option<Json>
    var transactions: Json
    var error: string
    var loading: bool
    var unit: DisplayUnit
    var token: string
    var authenticated: bool
    var logoutRequests: seq<string>  // refresh tokens sent to "/auth/logout"

    constructor (store: TokenStore, token: string)
      ensures this.store == store && this.token == token && authenticated
      ensures account == None && transactions == Arr([]) && error == "" && loading && unit == Sats
      ensures logoutRequests == []
    {
      this.store := store;
      this.token := token;
      authenticated := true;
      account := None;
      transactions := Arr([]);
      error := "";
      loading := true;
      unit := Sats;
      logoutRequests := [];
    }

    method ToggleDisplayUnit()
      modifies this
      ensures unit == NextUnit(old(unit))
      ensures account == old(account) && transactions == old(transactions) && error == old(error)
      ensures loading == old(loading) && token == old(token) && authenticated == old(authenticated)
      ensures logoutRequests == old(logoutRequests)
    {
      unit := NextUnit(unit);
    }

    /** `fetchAllData` once both requests have settled: `reply` is what
        `Promise.all` settles with. The account and the transactions are
        replaced, never merged; a failure only sets the error, and success
        does not clear an earlier one. The account is set before the
        transactions are read, so a `null` transactions reply leaves the new
        account in place. */
    method FetchAllData(reply: Result<(Json, Json)>)
      modifies this
      ensures match reply
              case Err(m) =>
                && account == old(account) && transactions == old(transactions)
                && error == FetchFailedPrefix + m
              case Ok((a, t)) =>
                && account == Some(a)
                && (TransactionsOf(t).Ok? ==> transactions == TransactionsOf(t).value && error == old(error))
                && (TransactionsOf(t).Err? ==> transactions == old(transactions)
                                               && error == FetchFailedPrefix + TransactionsOf(t).message)
      ensures loading == old(loading) && unit == old(unit) && token == old(token)
      ensures authenticated == old(authenticated) && logoutRequests == old(logoutRequests)
    {
      match reply {
        case Err(m) =>
          error := FetchFailedPrefix + m;
        case Ok((a, t)) =>
          account := Some(a);
          match TransactionsOf(t) {
            case Ok(list) => transactions := list;
            case Err(e) => error := FetchFailedPrefix + e;
          }
      }
    }

    /** The first load: loading shown, error cleared, data fetched, loading
        hidden. */
    method Load(reply: Result<(Json, Json)>)
      modifies this
      ensures !loading
      ensures match reply
              case Err(m) =>
                && account == old(account) && transactions == old(transactions)
                && error == FetchFailedPrefix + m
              case Ok((a, t)) =>
                && account == Some(a)
                && (TransactionsOf(t).Ok? ==> transactions == TransactionsOf(t).value && error == "")
                && (TransactionsOf(t).Err? ==> transactions == old(transactions)
                                               && error == FetchFailedPrefix + TransactionsOf(t).message)
      ensures unit == old(unit) && token == old(token) && authenticated == old(authenticated)
      ensures logoutRequests == old(logoutRequests)
    {
      loading := true;
      error := "";
      FetchAllData(reply);
      loading := false;
    }

    /** `logout`: the server is told only when a refresh token is stored;
        whatever it answers, both tokens are removed, the token is emptied
        and the user is unauthenticated. */
    method Logout()
      modifies this, store
      ensures logoutRequests == old(logoutRequests) + (if HasText(old(store.refresh)) then [old(store.refresh).value] else [])
      ensures store.access == None && store.refresh == None
      ensures token == "" && !authenticated
      ensures account == old(account) && transactions == old(transactions) && error == old(error)
      ensures loading == old(loading) && unit == old(unit)
    {
      var refreshToken := store.refresh;
      if HasText(refreshToken) {
        logoutRequests := logoutRequests + [refreshToken.value];
      }
      store.Clear();
      token := "";
      authenticated := false;
    }
  }
}
