/**
 * Concrete runs of the ledger from its start-up state: the panel the seed
 * data produces, what recording payments without validation leads to, and
 * the seed credentials.
 */
module Scenarios {
  import opened Dues

  /** The seed log already holds a payment for a month the schedule lacks. */
  lemma SeedPaysUnscheduledMonth()
    ensures Pago(1, "2026-02", 4000) in SeedPagos
    ensures forall i :: 0 <= i < |SeedCuotas| ==> SeedCuotas[i].0 != "2026-02"
  {
  }

  /** The panel at start-up: balances 1000, 5000 and 9000 out of 9000 owed. */
  method SeedPanel() returns (datos: seq<Row>)
    ensures datos == [Row("Juan Perez", 1000), Row("Maria Gomez", 5000), Row("Carlos Lopez", 9000)]
  {
    var ledger := new Ledger();
    assert TotalDebido(SeedCuotas) == 9000;
    assert TotalPagado(SeedPagos, 1) == 8000;
    assert TotalPagado(SeedPagos, 2) == 4000;
    assert TotalPagado(SeedPagos, 3) == 0;
    datos := ledger.Panel();
  }

  /**
   * Recording a second payment for a month already paid, and a payment for
   * a member and a month that exist nowhere, both succeed. The first makes
   * Juan Perez's balance negative; the second shows in no panel row.
   */
  method UnvalidatedPayments() returns (datos: seq<Row>, log: seq<Pago>)
    ensures datos == [Row("Juan Perez", -3000), Row("Maria Gomez", 5000), Row("Carlos Lopez", 9000)]
    ensures log == SeedPagos + [Pago(1, "2026-01", 4000), Pago(9, "2030-12", 700)]
  {
    var ledger := new Ledger();
    assert TotalDebido(SeedCuotas) == 9000;
    assert TotalPagado(SeedPagos, 1) == 8000;
    assert TotalPagado(SeedPagos, 2) == 4000;
    assert TotalPagado(SeedPagos, 3) == 0;
    ledger.RecordPayment(1, "2026-01", 4000);
    ledger.RecordPayment(9, "2030-12", 700);
    assert ledger.Saldo(1) == -3000 && ledger.Saldo(2) == 5000 && ledger.Saldo(3) == 9000;
    datos := ledger.Panel();
    log := ledger.pagos;
  }

  /** The seed credentials: exact, case-sensitive matches only. */
  lemma SeedLogins()
    ensures CheckLogin(SeedUsuarios, Some("admin"), Some("1234"))
    ensures CheckLogin(SeedUsuarios, Some("Tesorero"), Some("cuotas2025"))
    ensures CheckLogin(SeedUsuarios, Some("Secretaria"), Some("scout"))
    ensures !CheckLogin(SeedUsuarios, Some("admin"), Some("cuotas2025"))
    ensures !CheckLogin(SeedUsuarios, Some("tesorero"), Some("cuotas2025"))
    ensures !CheckLogin(SeedUsuarios, Some("admin"), None)
    ensures !CheckLogin(SeedUsuarios, None, Some("1234"))
  {
  }
}
