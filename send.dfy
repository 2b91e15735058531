/** The send-payment form: decode what the user pasted, estimate the fee of
    an on-chain payment, and pay an invoice, an LNURL or an address, with
    the local check of the LNURL amount bounds. Each handler runs to its
    end with the reply its request got. */
module Send {
  import opened Wrappers
  import opened Strings
  import opened Json

  /** The LNURL pay parameters the decoder returns; amounts are in
      millisatoshis. */
  datatype LnurlParams = LnurlParams(callback: string, minSendable: int, maxSendable: int)

  /** What the decoder made of the input, by its `type`. */
  datatype Decoded =
    | Invoice(invoice: Json)                     // "lightning_invoice"
    | Lnurl(isAlias: bool, params: LnurlParams)  // "lnurl_params" or "alias"
    | Address(address: string)                   // "bitcoin_address"
    | Other(kind: string, data: Json)            // any other type but "error"

  /** `!!decoded.data`. */
  predicate HasData(d: Decoded) {
    match d
    case Invoice(j) => Truthy(j)
    case Lnurl(_, _) => true
    case Address(a) => a != ""
    case Other(_, j) => Truthy(j)
  }

  /** How the decoder request ends: rejected, answered with type "error"
      and its optional `error` value, or answered with a decoded value. */
  datatype DecoderReply = DecodeFailed(message: string) | DecodeError(error: Option<Json>) | DecodeOk(decoded: Decoded)

  const InvalidFormat := "Unsupported or invalid format"
  const NotSupported := "Payment type not supported yet."
  const LnurlDefaultTitle := "LNURL Payment"
  const PaymentSentDelayMs := 2000

  /** The message of the error a decoder answer of type "error" throws. */
  function DecodeErrorText(error: Option<Json>): (m: string)
    ensures Present(error) ==> m == ToText(error.value)
    ensures !Present(error) ==> m == InvalidFormat
  {
    if Present(error) then ToText(error.value) else InvalidFormat
  }

  /** The form shows its error only when the text is not empty. A decoder
      error answer always leaves a message to show, except for an `error`
      that is an array, whose text can be empty (`[]` reads as ""). */
  lemma DecodeErrorShown(error: Option<Json>)
    ensures !(error.Some? && error.value.Arr?) ==> DecodeErrorText(error) != ""
    ensures DecodeErrorText(Some(Arr([]))) == ""
  {
    assert ToText(Arr([])) == Join([], ",");
  }

  /** The requests the form sends; a `None` amount is `NaN`, which the JSON
      body carries as `null`. */
  datatype Request =
    | DecodeRequest(input: string)
    | EstimateFee(address: string, sats: Option<int>)
    | PayInvoice(invoice: string)
    | LnurlPay(callback: string, amountMsat: Option<int>, comment: string)
    | PayOnchain(address: string, sats: Option<int>)

  // ---------------------------------------------------------------------------
  // Pure rules
  // ---------------------------------------------------------------------------

  datatype Action = DoDecode | DoEstimateFee | DoPay

  /** What Enter does: decode when nothing is decoded, estimate the fee of
      an address whose fee is not shown, pay otherwise. */
  function EnterAction(decoded: Option<Decoded>, showFee: bool): (a: Action)
    ensures a == DoDecode <==> decoded.None?
    ensures a == DoEstimateFee <==> decoded.Some? && decoded.value.Address? && !showFee
    ensures a == DoPay <==> decoded.Some? && !(decoded.value.Address? && !showFee)
  {
    if decoded.None? then DoDecode
    else if decoded.value.Address? && !showFee then DoEstimateFee
    else DoPay
  }

  /** `parseInt(lnurlAmount) * 1000`, `None` standing for `NaN`. */
  function AmountMsat(lnurlAmount: string): (m: Option<int>)
    ensures m.None? <==> ParseInt(lnurlAmount).None?
    ensures m.Some? ==> m.value == ParseInt(lnurlAmount).value * 1000
  {
    match ParseInt(lnurlAmount)
    case None => None
    case Some(sats) => Some(sats * 1000)
  }

  /** The local bounds check: below the minimum or above the maximum. `NaN`
      compares false with everything, so it is never out of bounds. */
  predicate OutOfBounds(amountMsat: Option<int>, p: LnurlParams) {
    amountMsat.Some? && (amountMsat.value < p.minSendable || amountMsat.value > p.maxSendable)
  }

  function BoundsMessage(p: LnurlParams): string {
    "Amount must be between " + ThousandthsText(p.minSendable) + " and " + ThousandthsText(p.maxSendable) + " sats."
  }

  /** The request `handlePay` sends for a decoded value, or the error it
      throws before sending anything. */
  function PayRequest(d: Decoded, inputValue: string, lnurlAmount: string, lnurlComment: string, onChainAmount: string): (r: Result<Request>)
    ensures d.Invoice? ==> r == Ok(PayInvoice(inputValue))
    ensures d.Address? ==> r == Ok(PayOnchain(d.address, ParseInt(onChainAmount)))
    ensures d.Other? ==> r == Err(NotSupported)
    ensures d.Lnurl? ==> (r.Err? <==> OutOfBounds(AmountMsat(lnurlAmount), d.params))
    ensures d.Lnurl? && r.Err? ==> r.message == BoundsMessage(d.params)
    ensures d.Lnurl? && r.Ok? ==> r.value == LnurlPay(d.params.callback, AmountMsat(lnurlAmount), lnurlComment)
  {
    match d
    case Invoice(_) => Ok(PayInvoice(inputValue))
    case Lnurl(_, p) =>
      var msat := AmountMsat(lnurlAmount);
      if OutOfBounds(msat, p) then Err(BoundsMessage(p)) else Ok(LnurlPay(p.callback, msat, lnurlComment))
    case Address(a) => Ok(PayOnchain(a, ParseInt(onChainAmount)))
    case Other(_, _) => Err(NotSupported)
  }

  /** Both bounds are accepted: an amount typed in sats goes out exactly
      when its millisatoshi value lies between the bounds, inclusive. */
  lemma LnurlBoundsInclusive(p: LnurlParams, sats: int, comment: string, isAlias: bool, inputValue: string, onChainAmount: string)
    ensures var r := PayRequest(Lnurl(isAlias, p), inputValue, IntText(sats), comment, onChainAmount);
            (r.Ok? <==> p.minSendable <= sats * 1000 <= p.maxSendable)
            && (r.Ok? ==> r.value == LnurlPay(p.callback, Some(sats * 1000), comment))
  {
    ParseIntRoundTrip(sats);
  }

  /** An amount that does not parse is not stopped locally: the request
      goes out with a `null` amount. */
  lemma LnurlNaNNotRejected(p: LnurlParams, lnurlAmount: string, comment: string, isAlias: bool, inputValue: string, onChainAmount: string)
    requires ParseInt(lnurlAmount).None?
    ensures PayRequest(Lnurl(isAlias, p), inputValue, lnurlAmount, comment, onChainAmount) == Ok(LnurlPay(p.callback, None, comment))
  {
  }

  /** The bound message names the bounds in sats; for whole-sat bounds it
      reads back. */
  lemma BoundsMessageInSats(minSats: int, maxSats: int, callback: string)
    ensures BoundsMessage(LnurlParams(callback, minSats * 1000, maxSats * 1000))
            == "Amount must be between " + IntText(minSats) + " and " + IntText(maxSats) + " sats."
  {
    assert (minSats * 1000) % 1000 == 0 && (minSats * 1000) / 1000 == minSats;
    assert (maxSats * 1000) % 1000 == 0 && (maxSats * 1000) / 1000 == maxSats;
  }

  /** `metadata.find(m => m[0] === "text/plain")`: the first entry whose
      first element is "text/plain". */
  function FirstPlainText(metadata: seq<seq<Json>>): (r: Option<nat>)
    ensures r.Some? ==> r.value < |metadata| && |metadata[r.value]| > 0 && metadata[r.value][0] == Str("text/plain")
    ensures r.Some? ==> forall k :: 0 <= k < r.value ==> !(|metadata[k]| > 0 && metadata[k][0] == Str("text/plain"))
    ensures r.None? ==> forall k :: 0 <= k < |metadata| ==> !(|metadata[k]| > 0 && metadata[k][0] == Str("text/plain"))
    decreases |metadata|
  {
    if metadata == [] then None
    else if |metadata[0]| > 0 && metadata[0][0] == Str("text/plain") then Some(0)
    else
      match FirstPlainText(metadata[1..])
      case None => None
      case Some(i) => Some(i + 1)
  }

  /** The title of an LNURL payment: the description of the first
      "text/plain" metadata entry, `Str("LNURL Payment")` when there is none
      or it is falsy. The value is the one the heading renders, unconverted. */
  function LnurlTitle(metadata: seq<seq<Json>>): (t: Json)
    ensures FirstPlainText(metadata).None? ==> t == Str(LnurlDefaultTitle)
    ensures FirstPlainText(metadata).Some? ==>
              var e := metadata[FirstPlainText(metadata).value];
              t == if |e| > 1 && Truthy(e[1]) then e[1] else Str(LnurlDefaultTitle)
  {
    match FirstPlainText(metadata)
    case None => Str(LnurlDefaultTitle)
    case Some(i) =>
      var entry := metadata[i];
      if |entry| > 1 && Truthy(entry[1]) then entry[1] else Str(LnurlDefaultTitle)
  }

  /** The title comes from the first "text/plain" entry alone: its
      description when that is truthy, the default otherwise, whatever later
      entries hold. */
  lemma LnurlTitleOfFirst(before: seq<seq<Json>>, entry: seq<Json>, after: seq<seq<Json>>)
    requires forall k :: 0 <= k < |before| ==> !(|before[k]| > 0 && before[k][0] == Str("text/plain"))
    requires |entry| > 0 && entry[0] == Str("text/plain")
    ensures LnurlTitle(before + [entry] + after)
            == if |entry| > 1 && Truthy(entry[1]) then entry[1] else Str(LnurlDefaultTitle)
  {
    var m := before + [entry] + after;
    assert m[|before|] == entry;
    assert forall k :: 0 <= k < |before| ==> m[k] == before[k];
    assert FirstPlainText(m) == Some(|before|);
  }

  /** A non-empty string description is the title; an empty one, `false`,
      or one that is missing, gives "LNURL Payment" even when a later entry
      has a description. Any other truthy value is the title as it is. */
  lemma LnurlTitleFallsBack(before: seq<seq<Json>>, description: string, later: seq<seq<Json>>)
    requires forall k :: 0 <= k < |before| ==> !(|before[k]| > 0 && before[k][0] == Str("text/plain"))
    ensures description != "" ==> LnurlTitle(before + [[Str("text/plain"), Str(description)]] + later) == Str(description)
    ensures LnurlTitle(before + [[Str("text/plain"), Str("")]] + later) == Str(LnurlDefaultTitle)
    ensures LnurlTitle(before + [[Str("text/plain"), Bool(false)]] + later) == Str(LnurlDefaultTitle)
    ensures LnurlTitle(before + [[Str("text/plain")]] + later) == Str(LnurlDefaultTitle)
    ensures LnurlTitle(before + [[Str("text/plain"), Bool(true)]] + later) == Bool(true)
  {
    LnurlTitleOfFirst(before, [Str("text/plain"), Str(description)], later);
    LnurlTitleOfFirst(before, [Str("text/plain"), Str("")], later);
    LnurlTitleOfFirst(before, [Str("text/plain"), Bool(false)], later);
    LnurlTitleOfFirst(before, [Str("text/plain")], later);
    LnurlTitleOfFirst(before, [Str("text/plain"), Bool(true)], later);
  }

  // ---------------------------------------------------------------------------
  // The form
  // ---------------------------------------------------------------------------

  class SendForm {
    var inputValue: string
    var decoded: Option<Decoded>
    var error: string
    var success: string
    var lnurlAmount: string
    var lnurlComment: string
    var onChainAmount: string
    var fee: Option<Json>
    var showFee: bool
    var requests: seq<Request>
    var paymentSentTimers: seq<nat>  // delays after which `onPaymentSent` fires

    /** The fee is shown exactly when one has been estimated for the
        current input. */
    ghost predicate Valid()
      reads this
    {
      showFee <==> fee.Some?
    }

    constructor ()
      ensures Valid()
      ensures inputValue == "" && decoded == None && error == "" && success == ""
      ensures lnurlAmount == "" && lnurlComment == "" && onChainAmount == ""
      ensures fee == None && !showFee && requests == [] && paymentSentTimers == []
    {
      inputValue := "";
      decoded := None;
      error := "";
      success := "";
      lnurlAmount := "";
      lnurlComment := "";
      onChainAmount := "";
      fee := None;
      showFee := false;
      requests := [];
      paymentSentTimers := [];
    }

    /** The on-chain amount can no longer be edited once a fee is shown,
        that is, exactly while an estimate is held. */
    predicate AmountInputDisabled(): (r: bool)
      reads this
      ensures Valid() ==> (r <==> fee.Some?)
    {
      showFee
    }

    /** `handleDecode(value)` with the decoder's reply. Empty input does
        nothing; otherwise everything decoded or typed for the previous
        input is cleared before the request goes out. */
    method HandleDecode(value: string, reply: DecoderReply)
      requires Valid()
      modifies this
      ensures Valid() && inputValue == old(inputValue) && paymentSentTimers == old(paymentSentTimers)
      ensures value == "" ==> decoded == old(decoded) && error == old(error) && success == old(success)
                              && lnurlAmount == old(lnurlAmount) && lnurlComment == old(lnurlComment)
                              && onChainAmount == old(onChainAmount) && fee == old(fee)
                              && showFee == old(showFee) && requests == old(requests)
      ensures value != "" ==> && success == "" && lnurlAmount == "" && lnurlComment == ""
                              && onChainAmount == "" && fee == None && !showFee
                              && requests == old(requests) + [DecodeRequest(value)]
      ensures value != "" ==> match reply
                              case DecodeFailed(m) => decoded == None && error == m
                              case DecodeError(e) => decoded == None && error == DecodeErrorText(e)
                              case DecodeOk(d) => decoded == Some(d) && error == ""
    {
      if value == "" {
        return;
      }
      error := "";
      decoded := None;
      success := "";
      lnurlAmount := "";
      lnurlComment := "";
      onChainAmount := "";
      fee := None;
      showFee := false;
      requests := requests + [DecodeRequest(value)];
      match reply {
        case DecodeFailed(m) => error := m;
        case DecodeError(e) => error := DecodeErrorText(e);
        case DecodeOk(d) => decoded := Some(d);
      }
    }

    /** `handleEstimateFee` with the reply to its request. It runs only for
        a decoded address with an amount typed; success shows the fee. */
    method HandleEstimateFee(reply: Result<Json>)
      requires Valid()
      modifies this
      ensures Valid()
      ensures inputValue == old(inputValue) && decoded == old(decoded) && success == old(success)
      ensures lnurlAmount == old(lnurlAmount) && lnurlComment == old(lnurlComment)
      ensures onChainAmount == old(onChainAmount) && paymentSentTimers == old(paymentSentTimers)
      ensures var runs := old(decoded).Some? && old(decoded).value.Address? && old(onChainAmount) != "";
              && (!runs ==> error == old(error) && fee == old(fee) && showFee == old(showFee) && requests == old(requests))
              && (runs ==> requests == old(requests) + [EstimateFee(old(decoded).value.address, ParseInt(old(onChainAmount)))])
              && (runs && reply.Ok? ==> fee == Some(reply.value) && showFee && error == "")
              && (runs && reply.Err? ==> fee == old(fee) && showFee == old(showFee) && error == reply.message)
    {
      if decoded.None? || !decoded.value.Address? || onChainAmount == "" {
        return;
      }
      error := "";
      requests := requests + [EstimateFee(decoded.value.address, ParseInt(onChainAmount))];
      match reply {
        case Ok(data) =>
          fee := Some(data);
          showFee := true;
        case Err(m) =>
          error := m;
      }
    }

    /** `handlePay` with the reply its request would get. Nothing happens
        without decoded data. A local rejection sends nothing. On success
        the status is reported, the input and the decoded value are cleared
        and `onPaymentSent` is scheduled; on failure only the error is set. */
    method HandlePay(reply: Result<Json>)
      requires Valid()
      modifies this
      ensures Valid()
      ensures lnurlAmount == old(lnurlAmount) && lnurlComment == old(lnurlComment)
      ensures onChainAmount == old(onChainAmount) && fee == old(fee) && showFee == old(showFee)
      ensures old(decoded).None? || !HasData(old(decoded).value) ==>
                && inputValue == old(inputValue) && decoded == old(decoded) && error == old(error)
                && success == old(success) && requests == old(requests) && paymentSentTimers == old(paymentSentTimers)
      ensures old(decoded).Some? && HasData(old(decoded).value) ==>
                var r := PayRequest(old(decoded).value, old(inputValue), lnurlAmount, lnurlComment, onChainAmount);
                && requests == old(requests) + (if r.Ok? then [r.value] else [])
                && (r.Err? ==> error == r.message && success == "" && inputValue == old(inputValue)
                               && decoded == old(decoded) && paymentSentTimers == old(paymentSentTimers))
                && (r.Ok? ==> PaySettled(reply, old(inputValue), old(decoded), old(paymentSentTimers)))
    {
      if decoded.None? || !HasData(decoded.value) {
        return;
      }
      error := "";
      success := "";
      var r := PayRequest(decoded.value, inputValue, lnurlAmount, lnurlComment, onChainAmount);
      match r {
        case Err(m) =>
          error := m;
        case Ok(request) =>
          requests := requests + [request];
          SettlePay(reply);
      }
    }

    /** The payment request was sent: the reply's `status` is reported and
        the form cleared, or its error shown. */
    method SettlePay(reply: Result<Json>)
      requires Valid() && error == "" && success == ""
      modifies this
      ensures Valid()
      ensures PaySettled(reply, old(inputValue), old(decoded), old(paymentSentTimers))
      ensures lnurlAmount == old(lnurlAmount) && lnurlComment == old(lnurlComment)
      ensures onChainAmount == old(onChainAmount) && fee == old(fee) && showFee == old(showFee)
      ensures requests == old(requests)
    {
      match reply {
        case Err(m) =>
          error := m;
        case Ok(data) =>
          match Member(data, "status") {
            case Err(e) =>
              error := e;
            case Ok(status) =>
              success := SuccessText(status);
              inputValue := "";
              decoded := None;
              paymentSentTimers := paymentSentTimers + [PaymentSentDelayMs];
          }
      }
    }

    /** How the form ends once the payment request has been answered. */
    ghost predicate PaySettled(reply: Result<Json>, oldInput: string, oldDecoded: Option<Decoded>, oldTimers: seq<nat>)
      reads this
    {
      var status := if reply.Ok? then Member(reply.value, "status") else Err(reply.message);
      if status.Ok? then
        && success == SuccessText(status.value) && error == "" && inputValue == "" && decoded == None
        && paymentSentTimers == oldTimers + [PaymentSentDelayMs]
      else
        && error == status.message && success == "" && inputValue == oldInput && decoded == oldDecoded
        && paymentSentTimers == oldTimers
    }

    /** `handleBack`: back to the input, which is kept, as are the amounts
        and the fee. */
    method HandleBack()
      requires Valid()
      modifies this
      ensures Valid() && decoded == None && error == "" && success == ""
      ensures inputValue == old(inputValue) && lnurlAmount == old(lnurlAmount) && lnurlComment == old(lnurlComment)
      ensures onChainAmount == old(onChainAmount) && fee == old(fee) && showFee == old(showFee)
      ensures requests == old(requests) && paymentSentTimers == old(paymentSentTimers)
    {
      decoded := None;
      error := "";
      success := "";
    }
  }

  /** The success message names the status the server returned. */
  function SuccessText(status: Option<Json>): string {
    "Payment initiated! Status: " + OptionText(status) + "."
  }
}
