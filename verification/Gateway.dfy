/** simulated-payment-gateway.ts: provider-side idempotency over mutable maps, with lost answers. */
module Gateway {
  import opened Basics
  import opened Retries
  import opened MoneySafety

  const SUCCESS_TOKEN := "tok_success"
  const DECLINE_TOKEN := "tok_decline"
  const TIMEOUT_BEFORE_CHARGE_TOKEN := "tok_timeout_before_charge"
  const LOST_RESPONSE_TOKEN := "tok_lost_response"
  const REFUND_FAILS_TWICE_TOKEN := "tok_refund_fails_twice"
  const REFUND_FAILS_PERMANENTLY_TOKEN := "tok_refund_fails_permanently"
  const CHARGING_TOKENS := {SUCCESS_TOKEN, TIMEOUT_BEFORE_CHARGE_TOKEN, LOST_RESPONSE_TOKEN,
                            REFUND_FAILS_TWICE_TOKEN, REFUND_FAILS_PERMANENTLY_TOKEN}
  const TRANSIENT_REFUND_FAILURES := 2

  function Digits(n: nat): string {
    (if n < 10 then "" else Digits(n / 10)) + ["0123456789"[n % 10]]
  }

  function ReferenceOf(id: Id): string { "sim_ch_" + Digits(id) }

  /** What the provider decides the first time it sees a payment id. */
  function Decision(id: Id, token: string): ChargeAnswer {
    if token in CHARGING_TOKENS then Succeeded(ReferenceOf(id))
    else Denied(if token == DECLINE_TOKEN then "card_declined" else "unknown_payment_method")
  }

  lemma {:induction false} DigitsDiffer(m: nat, n: nat)
    requires Digits(m) == Digits(n)
    ensures m == n
    decreases m + n
  {
    var ds := "0123456789";
    assert Digits(m)[|Digits(m)| - 1] == ds[m % 10] && Digits(n)[|Digits(n)| - 1] == ds[n % 10];
    assert m % 10 == n % 10;
    assert Digits(m)[..|Digits(m)| - 1] == (if m < 10 then "" else Digits(m / 10));
    assert Digits(n)[..|Digits(n)| - 1] == (if n < 10 then "" else Digits(n / 10));
    if m >= 10 && n >= 10 { DigitsDiffer(m / 10, n / 10); }
  }

  /** No two payments share a provider reference. */
  lemma ReferencesDiffer(a: Id, b: Id)
    requires ReferenceOf(a) == ReferenceOf(b)
    ensures a == b
  {
    assert Digits(a) == ReferenceOf(a)[7..] && Digits(b) == ReferenceOf(b)[7..];
    DigitsDiffer(a, b);
  }

  class SimulatedGateway {
    var charges: map<Id, ChargeAnswer>
    var tokens: map<Id, string>
    var unreachedOnce: set<Id>
    var refunded: set<Id>
    var refundAttempts: map<Id, nat>
    /** The money itself, as a customer's bank would list it. */
    ghost var ledger: multiset<Entry>

    ghost function Books(): Provider
      reads this
    {
      Provider(charges, refunded, ledger)
    }

    constructor ()
      ensures Books() == Provider(map[], {}, multiset{})
    {
      charges, tokens, unreachedOnce, refunded, refundAttempts := map[], map[], {}, {}, map[];
      ledger := multiset{};
    }

    /** The call gets through, unless cut off on the way or the token's first call never arrives. */
    predicate Reaches(id: Id, token: string, cutOff: bool)
      reads this
    {
      !cutOff && (id in charges || token != TIMEOUT_BEFORE_CHARGE_TOKEN || id in unreachedOnce)
    }

    /** `cutOff`: the timeout ran out on the network. None is "unknown": the provider may have acted. */
    method ChargeOnce(id: Id, amount: nat, token: string, cutOff: bool) returns (answer: Option<ChargeAnswer>)
      modifies this
      ensures Books() ==
        if old(Reaches(id, token, cutOff)) then Charge(old(Books()), id, amount, Decision(id, token)) else old(Books())
      ensures answer.Some? ==> old(Reaches(id, token, cutOff)) && id in charges && answer.value == charges[id]
      ensures !cutOff && id in old(charges) ==> answer == Some(old(charges)[id])
      ensures old(Reaches(id, token, cutOff)) && answer.None? ==> token == LOST_RESPONSE_TOKEN && id !in old(charges)
      ensures !cutOff && id !in old(charges) ==>
        && (id in old(unreachedOnce) || token !in {"tok_timeout_before_charge", "tok_lost_response"} ==>
              answer.Some? && id in charges)
        && (id !in old(unreachedOnce) && token in {"tok_timeout_before_charge", "tok_lost_response"} ==>
              && answer == None && unreachedOnce == old(unreachedOnce) + {id}
              && (id in charges <==> token == "tok_lost_response"))
      ensures id in charges && id !in old(charges) ==>
        && charges == old(charges)[id := charges[id]] && tokens == old(tokens)[id := token]
        && (token in {"tok_success", "tok_timeout_before_charge", "tok_lost_response",
                      "tok_refund_fails_twice", "tok_refund_fails_permanently"} ==>
              charges[id] == Succeeded("sim_ch_" + Digits(id)) && ledger == old(ledger) + multiset{TookMoney(id, amount)})
        && (token == "tok_decline" ==> charges[id] == Denied("card_declined") && ledger == old(ledger))
        && (token !in {"tok_success", "tok_timeout_before_charge", "tok_lost_response",
                       "tok_refund_fails_twice", "tok_refund_fails_permanently", "tok_decline"} ==>
              charges[id] == Denied("unknown_payment_method") && ledger == old(ledger))
      ensures id !in charges ==> Books() == old(Books()) && tokens == old(tokens)
      ensures cutOff || id in old(charges) ==>
        Books() == old(Books()) && tokens == old(tokens) && unreachedOnce == old(unreachedOnce)
      ensures refunded == old(refunded) && refundAttempts == old(refundAttempts)
    {
      if cutOff {
        return None;
      }
      if id in charges {
        return Some(charges[id]);
      }
      if token == TIMEOUT_BEFORE_CHARGE_TOKEN && id !in unreachedOnce {
        unreachedOnce := unreachedOnce + {id};
        return None;
      }
      var result := Decision(id, token);
      ledger := if result.Succeeded? then ledger + multiset{TookMoney(id, amount)} else ledger;
      charges, tokens := charges[id := result], tokens[id := token];
      if token == LOST_RESPONSE_TOKEN && id !in unreachedOnce {
        unreachedOnce := unreachedOnce + {id};
        return None;
      }
      return Some(result);
    }

    method RefundOnce(id: Id, reference: string, amount: nat, cutOff: bool) returns (answer: RefundAnswer)
      modifies this
      ensures Books() == if answer.Refunded? then GiveBack(old(Books()), id, amount) else old(Books())
      ensures answer.Refunded? ==> KnownCharge(old(Books()), id, reference)
      ensures cutOff <==> answer == Unknown
      ensures !cutOff && !KnownCharge(old(Books()), id, reference) ==> answer == Failed("unknown_charge", false)
      ensures !cutOff && KnownCharge(old(Books()), id, reference) && id in old(refunded) ==> answer == Refunded
      ensures !cutOff && KnownCharge(old(Books()), id, reference) && id !in old(refunded) ==>
        var token := if id in tokens then tokens[id] else "";
        var before := if id in old(refundAttempts) then old(refundAttempts)[id] else 0;
        && answer == (if token == "tok_refund_fails_permanently" then Failed("card_account_closed", false)
                      else if token == "tok_refund_fails_twice" && before < 2 then Failed("provider_unavailable", true)
                      else Refunded)
        && refundAttempts == if token == "tok_refund_fails_permanently" then old(refundAttempts)
                             else old(refundAttempts)[id := before + 1]
      ensures answer.Refunded? && id !in old(refunded) ==> ledger == old(ledger) + multiset{GaveBack(id, amount)}
      ensures charges == old(charges) && tokens == old(tokens) && unreachedOnce == old(unreachedOnce)
    {
      if cutOff {
        return Unknown;
      }
      if id !in charges || charges[id] != Succeeded(reference) {
        return Failed("unknown_charge", false);
      }
      if id in refunded {
        return Refunded;
      }
      var token := if id in tokens then tokens[id] else "";
      if token == REFUND_FAILS_PERMANENTLY_TOKEN {
        return Failed("card_account_closed", false);
      }
      var attempt := (if id in refundAttempts then refundAttempts[id] else 0) + 1;
      refundAttempts := refundAttempts[id := attempt];
      if token == REFUND_FAILS_TWICE_TOKEN && attempt <= TRANSIENT_REFUND_FAILURES {
        return Failed("provider_unavailable", true);
      }
      refunded := refunded + {id};
      ledger := ledger + multiset{GaveBack(id, amount)};
      return Refunded;
    }
  }
}
