# Dues ledger of the membership-fee panel

A model in Dafny of the ledger behind a small web panel that tracks
membership dues. The application keeps four pieces of state:

- `USUARIOS`, the credential table: user name to password.
- `PERSONAS`, the roster: member id to display name.
- `CUOTAS`, the fee schedule: month (`YYYY-MM`) to amount.
- `PAGOS`, the payment log: a list of `{persona, mes, monto}` records.

On top of that state it offers four operations:

- `calcular_saldo` gives a member's balance. The balance is the sum of every scheduled fee minus the sum of that member's payments.
- The panel builds one `{nombre, saldo}` row per member.
- The payment form appends a record to the log.
- The login form checks a user name and password against the credential table.

`dues.dfy` (module `Dues`) holds these parts:

- The entities: `Pago` for a log record, `Row` for a panel row, and `Option` for a form field that may be missing.
- The two sums a balance is made of, `TotalDebido` and `TotalPagado`, with lemmas about them.
- The credential check `CheckLogin`.
- The class `Ledger`, which holds the shared state. Its methods are `CalcularSaldo`, `Panel` and `RecordPayment`.

Python dictionaries keep insertion order. So the roster and the schedule are
sequences of (key, value) pairs, and `Ledger.Valid()` says their keys are
distinct. `scenarios.dfy` (module `Scenarios`) runs the ledger from its
start-up state.

The code has no validation, and the model adds none:

- A payment is accepted for any member id, whether or not the id is in the roster.
- A payment is accepted for any month, whether or not the month is in the schedule.
- A payment is accepted for any amount.
- A second payment for a month already paid is accepted.

The seed log itself already holds a payment for "2026-02", which is not a
scheduled month. The balance is never clamped. Amounts are Python integers,
which are unbounded, so Dafny's `int` models them exactly.

Some behaviour is described for later versions of the system but is absent from this code:

- at most one payment per (member, month), and the month and member checks that go with it;
- member groups and the active flag;
- editing the fee schedule;
- deleting payments;
- receipts;
- sorted listings.

Where those descriptions and the code disagree, the model follows the code.

## Model

| member | source | states |
|---|---|---|
| `Dues.Ledger.CalcularSaldo` | app.py:33-42 | The balance of `pid` is the sum of every scheduled fee minus the sum of `monto` over the log records whose `persona` is `pid`. The amount owed is the same for every member, because it depends only on the schedule. The balance is negative exactly when the member's payments exceed the schedule's total, so it is not clamped. The loop that accumulates the owed total is proved against `TotalDebido`. |
| `Dues.Ledger.Panel` | app.py:70-76 | Returns exactly one row per roster entry, in roster order. Row i holds member i's name and that member's balance. |
| `Dues.Ledger.RecordPayment` | app.py:86-94 | Always succeeds and appends exactly one record `(persona, mes, monto)` at the end of the log. Earlier records, the roster, the schedule and the credential table are unchanged, and the dictionary invariant is kept. Afterwards the recorded member's balance is exactly `monto` lower, and every other member's balance is unchanged. |
| `Dues.Ledger.constructor` | app.py:7-26 | The start-up state is exactly the seed credentials, roster, schedule and log, and the roster and schedule have distinct keys. |
| `Dues.TotalPagadoAppend` | app.py:34-36 | What a member paid over a log made of two parts is the sum of what they paid in each part. |
| `Dues.TotalPagadoRecord` | app.py:34-36 | Appending the record `(q, mes, monto)` raises q's paid total by exactly `monto` and leaves every other member's total unchanged, whatever the month. |
| `Dues.TotalPagadoAbsent` | app.py:34-36 | A member with no record in the log has paid 0. |
| `Dues.TotalDebidoAppend` | app.py:38-40 | The owed total of a schedule made of two parts is the sum of the two parts' totals. |
| `Dues.TotalDebidoPermutation` | app.py:38-40 | Any reordering of the schedule's entries owes the same total. So the balance does not depend on the order in which the schedule is iterated. |
| `Dues.CheckLogin` | app.py:57-61 | Login succeeds exactly when both form fields are present, the user name is a key of the credential table, and the stored password equals the submitted one. Otherwise it fails. |
| `Dues.LoginPasswordUnique` | app.py:57 | For a given user name, at most one password is accepted: the stored one. |
| `Scenarios.SeedPaysUnscheduledMonth` | app.py:17-26 | The seed log holds a payment for "2026-02", a month the schedule does not contain. |
| `Scenarios.SeedPanel` | app.py:12-26 | From the seed data the panel is Juan Perez 1000, Maria Gomez 5000 and Carlos Lopez 9000. The schedule owes 9000 in total. |
| `Scenarios.UnvalidatedPayments` | app.py:90-94 | Two payments are both appended to the log: a second one for an already paid month, and one for an unknown member and month. Juan Perez's balance becomes -3000. The unknown member appears in no panel row. |
| `Scenarios.SeedLogins` | app.py:7-11 | Each seed user logs in with their own password. A wrong password, a user name in the wrong case, or a missing field is refused. |

## Left out

- The web framework: routing, templates, redirects, `app.run` and the secret key. This is framework plumbing outside the ledger.
- Reading the form. `RecordPayment` takes the member id and the amount as integers that were already converted. A missing field or a failed `int()` conversion raises an exception in the framework before the ledger is touched.
- The debugging `print` calls in the login handler. They are output only.
- Sessions: the "logged in" guards on the panel and payment routes, storing the user in the session on login, and clearing it on logout. These are framework state, so login is modelled as the pure credential check `CheckLogin`.
- The GET branch of the payment route and the GET branch of the login route. They only render a template.
- Rendering the panel rows into HTML. `Panel` returns the rows that the handler passes to the template.
