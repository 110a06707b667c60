/**
 * The dues ledger of the membership-fee web panel: a fee schedule (month to
 * amount), a roster (member id to name), a payment log, the balance of a
 * member, the rows of the panel, recording a payment, and the credential
 * check of the login form.
 */
module Dues {

  /** A value that may be missing, as a field absent from a submitted form. */
  datatype Option<T> = None | Some(value: T)

  /** One record of the payment log: who paid, for which month, how much. */
  datatype Pago = Pago(persona: int, mes: string, monto: int)

  /** One row of the panel: a member's name and current balance. */
  datatype Row = Row(nombre: string, saldo: int)

  /** The months of a fee schedule are dictionary keys: pairwise distinct. */
  predicate DistinctMonths(cuotas: seq<(string, int)>) {
    forall i, j :: 0 <= i < j < |cuotas| ==> cuotas[i].0 != cuotas[j].0
  }

  /** The ids of a roster are dictionary keys: pairwise distinct. */
  predicate DistinctIds(personas: seq<(int, string)>) {
    forall i, j :: 0 <= i < j < |personas| ==> personas[i].0 != personas[j].0
  }

  // ---------------------------------------------------------------------
  // The two sums a balance is made of
  // ---------------------------------------------------------------------

  /** The sum of every scheduled fee, accumulated in schedule order. */
  function TotalDebido(cuotas: seq<(string, int)>): int {
    if cuotas == [] then 0
    else TotalDebido(cuotas[..|cuotas| - 1]) + cuotas[|cuotas| - 1].1
  }

  /** The sum of the amounts of the log records whose member is `pid`. */
  function TotalPagado(pagos: seq<Pago>, pid: int): int {
    if pagos == [] then 0
    else (if pagos[0].persona == pid then pagos[0].monto else 0) + TotalPagado(pagos[1..], pid)
  }

  /** The amount paid over two stretches of the log is the sum of the two. */
  lemma {:induction false} TotalPagadoAppend(a: seq<Pago>, b: seq<Pago>, pid: int)
    ensures TotalPagado(a + b, pid) == TotalPagado(a, pid) + TotalPagado(b, pid)
  {
    if a == [] {
      assert a + b == b;
    } else {
      assert (a + b)[1..] == a[1..] + b;
      TotalPagadoAppend(a[1..], b, pid);
    }
  }

  /**
   * Appending the record (q, mes, monto) raises q's paid total by exactly
   * `monto` and leaves every other member's paid total as it was.
   */
  lemma TotalPagadoRecord(pagos: seq<Pago>, q: int, mes: string, monto: int, r: int)
    ensures TotalPagado(pagos + [Pago(q, mes, monto)], r)
         == TotalPagado(pagos, r) + (if r == q then monto else 0)
  {
    TotalPagadoAppend(pagos, [Pago(q, mes, monto)], r);
  }

  /** A member none of whose records appear in the log has paid nothing. */
  lemma {:induction false} TotalPagadoAbsent(pagos: seq<Pago>, pid: int)
    requires forall i :: 0 <= i < |pagos| ==> pagos[i].persona != pid
    ensures TotalPagado(pagos, pid) == 0
  {
    if pagos != [] {
      TotalPagadoAbsent(pagos[1..], pid);
    }
  }

  /** The amount owed over two stretches of the schedule is the sum of the two. */
  lemma {:induction false} TotalDebidoAppend(a: seq<(string, int)>, b: seq<(string, int)>)
    ensures TotalDebido(a + b) == TotalDebido(a) + TotalDebido(b)
  {
    if b == [] {
      assert a + b == a;
    } else {
      var n := |b| - 1;
      assert (a + b)[..|a + b| - 1] == a + b[..n];
      TotalDebidoAppend(a, b[..n]);
    }
  }

  /**
   * The amount owed does not depend on the order in which the schedule is
   * iterated: any rearrangement of the same entries owes the same total.
   */
  lemma {:induction false} TotalDebidoPermutation(a: seq<(string, int)>, b: seq<(string, int)>)
    requires multiset(a) == multiset(b)
    ensures TotalDebido(a) == TotalDebido(b)
  {
    if a == [] {
      assert |multiset(b)| == 0;
    } else {
      var n := |a| - 1;
      var x := a[n];
      assert x in multiset(b) by {
        assert a == a[..n] + [x];
        assert x in multiset(a);
      }
      var k :| 0 <= k < |b| && b[k] == x;
      var rest := b[..k] + b[k + 1..];
      assert b == b[..k] + [x] + b[k + 1..];
      assert a == a[..n] + [x];
      assert multiset(a) == multiset(a[..n]) + multiset{x};
      assert multiset(b) == multiset(b[..k]) + multiset{x} + multiset(b[k + 1..]);
      assert multiset(rest) == multiset(b[..k]) + multiset(b[k + 1..]);
      assert multiset(a[..n]) == multiset(a) - multiset{x};
      assert multiset(rest) == multiset(b) - multiset{x};
      TotalDebidoPermutation(a[..n], rest);
      TotalDebidoAppend(b[..k] + [x], b[k + 1..]);
      TotalDebidoAppend(b[..k], [x]);
      TotalDebidoAppend(b[..k], b[k + 1..]);
      assert TotalDebido([x]) == x.1 by {
        assert [x][..0] == [];
      }
    }
  }

  // ---------------------------------------------------------------------
  // The login check
  // ---------------------------------------------------------------------

  /**
   * The login form is accepted exactly when both fields were submitted, the
   * user name is a key of the credential table, and the password stored
   * under it equals the submitted one.
   */
  function CheckLogin(usuarios: map<string, string>, user: Option<string>, password: Option<string>): (ok: bool)
    ensures ok <==> user.Some? && password.Some? && user.value in usuarios
                    && usuarios[user.value] == password.value
  {
    match user
    case None => false
    case Some(u) => u in usuarios && Some(usuarios[u]) == password
  }

  /** A user name is accepted with at most one password. */
  lemma LoginPasswordUnique(usuarios: map<string, string>, user: string, p1: Option<string>, p2: Option<string>)
    requires CheckLogin(usuarios, Some(user), p1) && CheckLogin(usuarios, Some(user), p2)
    ensures p1 == p2 && p1 == Some(usuarios[user])
  {
  }

  // ---------------------------------------------------------------------
  // The seed data the application starts with
  // ---------------------------------------------------------------------

  const SeedUsuarios: map<string, string> :=
    map["admin" := "1234", "Tesorero" := "cuotas2025", "Secretaria" := "scout"]

  const SeedPersonas: seq<(int, string)> :=
    [(1, "Juan Perez"), (2, "Maria Gomez"), (3, "Carlos Lopez")]

  const SeedCuotas: seq<(string, int)> :=
    [("2026-01", 4000), ("2026-07", 5000)]

  const SeedPagos: seq<Pago> :=
    [Pago(1, "2026-01", 4000), Pago(1, "2026-02", 4000), Pago(2, "2026-01", 4000)]

  // ---------------------------------------------------------------------
  // The application state
  // ---------------------------------------------------------------------

  /**
   * The state the request handlers share: the credential table, the roster,
   * the fee schedule and the payment log. Dictionaries keep insertion order,
   * so the roster and the schedule are sequences of (key, value) pairs with
   * distinct keys.
   */
  class Ledger {
    var usuarios: map<string, string>
    var personas: seq<(int, string)>
    var cuotas: seq<(string, int)>
    var pagos: seq<Pago>

    /** The roster and the schedule are dictionaries. */
    ghost predicate Valid()
      reads this
    {
      DistinctIds(personas) && DistinctMonths(cuotas)
    }

    /** The balance of member `pid`: all scheduled fees minus what they paid. */
    ghost function Saldo(pid: int): int
      reads this
    {
      TotalDebido(cuotas) - TotalPagado(pagos, pid)
    }

    /** The state at start-up. */
    constructor ()
      ensures Valid()
      ensures usuarios == SeedUsuarios && personas == SeedPersonas
      ensures cuotas == SeedCuotas && pagos == SeedPagos
    {
      usuarios := SeedUsuarios;
      personas := SeedPersonas;
      cuotas := SeedCuotas;
      pagos := SeedPagos;
    }

    /**
     * The balance of member `pid`: the sum of every scheduled fee, the same
     * for every member, minus the sum of that member's payments. It is not
     * clamped and is negative when the payments exceed the schedule.
     */
    method CalcularSaldo(pid: int) returns (saldo: int)
      ensures saldo == TotalDebido(cuotas) - TotalPagado(pagos, pid)
      ensures saldo < 0 <==> TotalPagado(pagos, pid) > TotalDebido(cuotas)
    {
      var totalPagado := TotalPagado(pagos, pid);
      var totalDebido := 0;
      for i := 0 to |cuotas|
        invariant totalDebido == TotalDebido(cuotas[..i])
      {
        assert cuotas[..i + 1][..i] == cuotas[..i];
        totalDebido := totalDebido + cuotas[i].1;
      }
      assert cuotas[..|cuotas|] == cuotas;
      saldo := totalDebido - totalPagado;
    }

    /**
     * The panel: one row per roster entry, in roster order, holding that
     * member's name and balance.
     */
    method Panel() returns (datos: seq<Row>)
      ensures |datos| == |personas|
      ensures forall i :: 0 <= i < |personas| ==>
                datos[i] == Row(personas[i].1, TotalDebido(cuotas) - TotalPagado(pagos, personas[i].0))
    {
      datos := [];
      for i := 0 to |personas|
        invariant |datos| == i
        invariant forall k :: 0 <= k < i ==>
                    datos[k] == Row(personas[k].1, TotalDebido(cuotas) - TotalPagado(pagos, personas[k].0))
      {
        var (pid, nombre) := personas[i];
        var saldo := CalcularSaldo(pid);
        datos := datos + [Row(nombre, saldo)];
      }
    }

    /**
     * Recording a payment appends exactly one record at the end of the log
     * and always succeeds: it checks neither the month nor the member nor
     * an earlier payment for the same month. The recorded member's balance
     * goes down by exactly `monto`; every other balance is unchanged.
     */
    method RecordPayment(persona: int, mes: string, monto: int)
      requires Valid()
      modifies this`pagos
      ensures Valid()
      ensures pagos == old(pagos) + [Pago(persona, mes, monto)]
      ensures usuarios == old(usuarios) && personas == old(personas) && cuotas == old(cuotas)
      ensures forall r :: Saldo(r) == old(Saldo(r)) - (if r == persona then monto else 0)
    {
      pagos := pagos + [Pago(persona, mes, monto)];
      forall r
        ensures Saldo(r) == old(Saldo(r)) - (if r == persona then monto else 0)
      {
        TotalPagadoRecord(old(pagos), persona, mes, monto, r);
      }
    }
  }
}
