/** A small world for concrete histories: one merchant, and one payer with 2 to spend. */
module Scenario {
  import opened Common
  import opened Ledger
  import opened Machine

  const MERCHANTS: map<Id, MerchantStatus> := map["m" := Active]

  function Opening(): Action {
    AddPayer("payer", 2, "USD", 0)
  }

  function Paying(p: Id, h: Id, e: Id): Action {
    DoAuthorize(AuthorizeInput("m", "payer", 1, "USD"), 0, Draw(p, h, e))
  }

  predicate Purse(l: Ledger, available: int, held: int) {
    && "payer" in l.payers && l.payers["payer"].id == "payer" && l.payers["payer"].currency == "USD"
    && l.payers["payer"].available == available && l.payers["payer"].held == held
  }

  predicate Unused(l: Ledger, p: Id, h: Id, e: Id) {
    && p != "" && h != "" && p !in l.payments && p !in l.holdOf && h !in l.holds && FreshEvent(l, e)
  }

  lemma PayingWorks(l: Ledger, p: Id, h: Id, e: Id, available: int, held: int)
    requires Keyed(l) && Purse(l, available, held) && Unused(l, p, h, e) && available >= 1 && 0 <= held <= 1
    ensures var m := LedgerStep(l, MERCHANTS, Paying(p, h, e));
            && Keyed(m) && Purse(m, available - 1, held + 1) && p in m.payments
            && m.payments == l.payments[p := m.payments[p]]
            && m.payments[p].status.Authorized? && m.payments[p].expiresAt == HOLD_PERIOD && m.payments[p].amount == 1
            && m.payments[p].payerId == "payer" && m.payments[p].id == p
            && m.holds.Keys == l.holds.Keys + {h} && m.holdOf.Keys == l.holdOf.Keys + {p}
            && (forall x :: x != e && FreshEvent(l, x) ==> FreshEvent(m, x))
  {
    var r := Authorize(l, MERCHANTS, AuthorizeInput("m", "payer", 1, "USD"), 0, Draw(p, h, e));
    assert r.Ok?;
    assert r.value.payer == l.payers["payer"].Reserve(1, "USD", 0).value;
  }

  lemma OpeningWorks()
    ensures Keyed(EMPTY.ledger)
    ensures var l := LedgerStep(EMPTY.ledger, MERCHANTS, Opening());
            Keyed(l) && Purse(l, 2, 0) && l.payments == map[] && l.holds == map[] && l.holdOf == map[] && l.log == []
  {}

  predicate IsLedgerAction(a: Action) {
    a.AddPayer? || a.DoAuthorize? || a.DoCapture? || a.DoExpire?
  }
}
