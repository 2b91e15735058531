/** The fiat currency selection: the list of currencies the server offers,
    the stored preference ("preferredCurrency") and the selected currency. */
module Currency {
  import opened Wrappers
  import opened Strings
  import opened Json
  import opened Session

  const PreferenceKey := "preferredCurrency"
  const DefaultCurrency := "usd"
  /** The list shown when the currencies cannot be fetched. */
  const FallbackCurrencies: seq<Json> := [Str("usd"), Str("pyg"), Str("ars"), Str("eur")]
  /** Stand-in for the TypeError of calling `includes` on a value that has none. */
  const NotCallableText := "TypeError: currencies.includes is not a function"

  /** How the currencies request ends. */
  datatype CurrencyReply = FetchFailed(message: string) | Fetched(currencies: Json)

  /** `storedCurrency && currencies.includes(storedCurrency)`: whether the
      stored preference is adopted, or the error evaluating it throws. A
      string reply is searched as text; anything else without `includes`
      throws. No stored preference never looks at the reply. */
  function Adopt(currencies: Json, stored: Option<string>): (r: Result<bool>)
    ensures !HasText(stored) ==> r == Ok(false)
    ensures currencies.Arr? ==> (r == Ok(true) <==> HasText(stored) && Str(stored.value) in currencies.items)
    ensures currencies.Arr? ==> r.Ok?
    ensures r.Err? <==> HasText(stored) && !currencies.Arr? && !currencies.Str?
    ensures currencies.Str? && HasText(stored) ==> r == Ok(Contains(currencies.s, stored.value))
  {
    if !HasText(stored) then Ok(false)
    else
      match currencies
      case Arr(items) => Ok(Str(stored.value) in items)
      case Str(s) => Ok(Contains(s, stored.value))
      case Null => Err(TypeErrorText)
      case _ => Err(NotCallableText)
  }

  class CurrencyState {
    var selected: string
    var available: seq<Json>
    var loading: bool
    var preference: Option<string>  // what storage holds under "preferredCurrency"

    constructor (preference: Option<string>)
      ensures selected == DefaultCurrency && available == [] && loading
      ensures this.preference == preference
    {
      selected := DefaultCurrency;
      available := [];
      loading := true;
      this.preference := preference;
    }

    /** `initializeCurrency` once the request has settled. An array replaces
        the list; the stored preference is adopted only when the reply lists
        it; a failed request, or an error evaluating the adoption test, puts
        the fallback list in place. Loading ends in every outcome. */
    method Initialize(reply: CurrencyReply)
      modifies this
      ensures !loading && preference == old(preference)
      ensures reply.FetchFailed? ==> available == FallbackCurrencies && selected == old(selected)
      ensures reply.Fetched? ==>
                var a := Adopt(reply.currencies, old(preference));
                && (a.Err? ==> available == FallbackCurrencies && selected == old(selected))
                && (a.Ok? ==> available == (if reply.currencies.Arr? then reply.currencies.items else old(available)))
                && (a == Ok(true) ==> selected == old(preference).value)
                && (a == Ok(false) ==> selected == old(selected))
    {
      match reply {
        case FetchFailed(_) =>
          available := FallbackCurrencies;
        case Fetched(currencies) =>
          if currencies.Arr? {
            available := currencies.items;
          }
          match Adopt(currencies, preference) {
            case Ok(adopt) =>
              if adopt {
                selected := preference.value;
              }
            case Err(_) =>
              available := FallbackCurrencies;
          }
      }
      loading := false;
    }

    /** `setSelectedCurrency`: stored first, then selected. */
    method Select(currency: string)
      modifies this
      ensures preference == Some(currency) && selected == currency
      ensures available == old(available) && loading == old(loading)
    {
      preference := Some(currency);
      selected := currency;
    }
  }

  /** A currency chosen by the user survives the next start exactly when the
      server still lists it. */
  method ChoiceSurvivesRestart(choice: string, listed: seq<Json>) returns (selected: string)
    requires choice != ""
    ensures selected == choice <==> Str(choice) in listed || choice == DefaultCurrency
    ensures selected != choice ==> selected == DefaultCurrency
  {
    var before := new CurrencyState(None);
    before.Select(choice);
    var after := new CurrencyState(before.preference);
    after.Initialize(Fetched(Arr(listed)));
    selected := after.selected;
  }
}
