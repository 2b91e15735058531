/** How one transaction is shown in the list: credit or debit, and the
    colours, icon and texts its status selects. Locale formatting of the
    amount, the date and the fiat value is left to the caller. */
module Transactions {
  import opened Wrappers
  import opened Strings

  /** A transaction as the list reads it; `fiatEquivalents` may be absent. */
  datatype Transaction = Transaction(
    id: string,
    kind: string,
    amount: int,
    date: string,
    status: string,
    fiatEquivalents: Option<map<string, real>>)

  datatype Icon = Spinner | Shield | ArrowIn | ArrowOut

  /** The fields `getTransactionProperties` returns. The failed row shows the
      same text struck through. */
  datatype Display = Display(
    color: string,
    bgColor: string,
    icon: Icon,
    text: string,
    struck: bool,
    statusText: string,
    fiatText: string)

  const Pending := "PENDING"
  const Failed := "FAILED"
  const PendingText := "Pending..."
  const FailedText := "Failed"

  /** A credit is any type that mentions CREDIT or DEPOSIT. */
  predicate IsCredit(kind: string) {
    Contains(kind, "CREDIT") || Contains(kind, "DEPOSIT")
  }

  /** `tx.fiat_equivalents?.[currency]`. */
  function FiatValue(tx: Transaction, currency: string): Option<real> {
    if tx.fiatEquivalents.Some? && currency in tx.fiatEquivalents.value
    then Some(tx.fiatEquivalents.value[currency])
    else None
  }

  /** `fiatValue ? "~ " + format(fiatValue) : ""`: a zero rate is falsy. */
  function FiatText(value: Option<real>, format: real -> string): (t: string)
    ensures t == "" <==> value.None? || value.value == 0.0
  {
    if value.Some? && value.value != 0.0 then "~ " + format(value.value) else ""
  }

  /** `getTransactionProperties(tx, currency)`, with the locale texts of
      the amount and the date given and the currency formatter passed in. */
  function Properties(tx: Transaction, currency: string, amountText: string, dateText: string, format: real -> string): (d: Display)
    ensures d.text == [if IsCredit(tx.kind) then '+' else '-'] + " " + amountText + " sats"
    ensures d.struck <==> tx.status == Failed
    ensures tx.status == Pending ==> d.statusText == PendingText && d.icon == Spinner && d.color == "text-yellow-400"
                                     && d.bgColor == "bg-yellow-500/20"
    ensures tx.status == Failed ==> d.statusText == FailedText && d.icon == Shield && d.color == "text-gray-400"
                                    && d.bgColor == "bg-gray-500/20"
    ensures tx.status != Pending && tx.status != Failed ==>
              && d.statusText == dateText
              && (IsCredit(tx.kind) ==> d.color == "text-green-400" && d.bgColor == "bg-green-500/20" && d.icon == ArrowIn)
              && (!IsCredit(tx.kind) ==> d.color == "text-red-400" && d.bgColor == "bg-red-500/20" && d.icon == ArrowOut)
    ensures d.fiatText == "" <==> tx.status == Failed || FiatValue(tx, currency).None? || FiatValue(tx, currency).value == 0.0
    ensures d.fiatText != "" ==> d.fiatText == "~ " + format(FiatValue(tx, currency).value)
  {
    var credit := IsCredit(tx.kind);
    var text := [if credit then '+' else '-'] + " " + amountText + " sats";
    var fiat := FiatText(FiatValue(tx, currency), format);
    if tx.status == Pending then
      Display("text-yellow-400", "bg-yellow-500/20", Spinner, text, false, PendingText, fiat)
    else if tx.status == Failed then
      Display("text-gray-400", "bg-gray-500/20", Shield, text, true, FailedText, "")
    else
      Display(if credit then "text-green-400" else "text-red-400",
              if credit then "bg-green-500/20" else "bg-red-500/20",
              if credit then ArrowIn else ArrowOut,
              text, false, dateText, fiat)
  }

  /** The sign depends only on the type, never on the status. */
  lemma SignIgnoresStatus(tx: Transaction, status: string, currency: string, amountText: string, dateText: string, format: real -> string)
    ensures Properties(tx, currency, amountText, dateText, format).text
            == Properties(tx.(status := status), currency, amountText, dateText, format).text
  {
  }

  /** A deposit type is a credit whatever else it says. */
  lemma DepositIsCredit(prefix: string, suffix: string)
    ensures IsCredit(prefix + "DEPOSIT" + suffix)
  {
    var s := prefix + "DEPOSIT" + suffix;
    assert OccursAt(s, "DEPOSIT", |prefix|) by {
      assert s[|prefix|..|prefix| + 7] == "DEPOSIT";
    }
    ContainsIff(s, "DEPOSIT");
  }

  /** So is a credit type. */
  lemma CreditIsCredit(prefix: string, suffix: string)
    ensures IsCredit(prefix + "CREDIT" + suffix)
  {
    var s := prefix + "CREDIT" + suffix;
    assert OccursAt(s, "CREDIT", |prefix|) by {
      assert s[|prefix|..|prefix| + 6] == "CREDIT";
    }
    ContainsIff(s, "CREDIT");
  }
}
