# Catering registry — a Dafny model

This project models the in-memory core of a console catering application: a
registry of **menu options** (a name, a remaining-capacity counter and a list
of dishes) and of **guests** (a name and, possibly, a reference to the menu
option assigned to them). The registry adds options and guests, assigns a
menu to a guest when the option has capacity left, reassigns a guest to
another menu after giving the old serving back, and reports the remaining
capacity of every option and the selection of every guest.

The model is imperative, like the Java it follows:

- `MenuOption`, `Invitado` and `SistemaCatering` are classes.
- Their methods update fields in place, under `modifies` clauses.
- A guest's menu is an object reference, not a name. After a menu name is
  filed again, a guest can still point at the replaced option, and a
  reassignment then updates that replaced option.
- The counter is Java's 32-bit `int`: `int32`, with the wrap-around of `++`
  written out in `Inc32`.

Module `Tally` counts how many keys of a table point at a value. Module
`Catering` holds the three classes. Module `Scenarios` holds client runs
proved from the operations' contracts alone.

**The ledger.** The registry's conservation rule is "servings taken from an
option equal the guests pointing at it". The model states it with the ghost
predicate `LibroCuadrado`, over every option the registry can reach,
including replaced ones. The code does not keep this rule in three places:

- A failed reassignment has already given the old option its serving back,
  but the guest still points at that option.
- Assigning a guest who already holds a menu never gives the earlier serving
  back.
- Adding a guest under an existing name drops the old guest, together with
  the serving that guest held.

So the rule is not a class invariant. Each operation states when it keeps
the ledger balanced and, on each of these three paths, that the option
concerned is left unbalanced. Only the reassignment states both directions:
from a balanced ledger, the ledger is balanced afterwards exactly when the
reassignment succeeded. For the other two paths the contracts show the
imbalance of the option concerned, not of the whole ledger. That option may
no longer be reachable (its name was filed again), and the whole-registry
predicate then holds again.

The failed reassignment is modelled as the code behaves: the guest keeps
pointing at the old option, whose serving was returned. An all-or-nothing
reassignment would instead leave the guest on the old option with its
serving still taken. The model follows the code.

## Model

| member | source | states |
|---|---|---|
| Catering.Inc32 | src/CateringApp.java:33 | `++` on a Java `int`: the result is the successor modulo 2^32 |
| Catering.MenuOption.constructor | src/CateringApp.java:10-14 | the new option has the given name, capacity and dishes; its ledger starts at that capacity |
| Catering.MenuOption.DecrementarDisponibilidad | src/CateringApp.java:24-30 | a positive counter drops by exactly one; a counter at zero or below is unchanged, so the method never takes a counter below zero |
| Catering.MenuOption.IncrementarDisponibilidad | src/CateringApp.java:32-34 | the counter goes up by one, with no upper bound other than the 32-bit wrap |
| Catering.Invitado.constructor | src/CateringApp.java:53-55 | a new guest has the given name and no menu |
| Catering.Invitado.AsignarMenu | src/CateringApp.java:65-67 | the guest now points at the given option |
| Catering.SistemaCatering.constructor | src/CateringApp.java:72-73 | both tables start empty and the ledger balances |
| Catering.SistemaCatering.AgregarMenu | src/CateringApp.java:76-78 | the name now maps to a fresh option with exactly the given name, capacity and dishes; no other entry and no guest changes; the availability report changes only at that name; the new option's ledger balances and a balanced ledger stays balanced |
| Catering.SistemaCatering.AgregarInvitado | src/CateringApp.java:81-83 | the name now maps to a fresh guest with no menu, replacing any earlier guest; nothing else changes, the availability report included; the ledger stays balanced unless the replaced guest held a menu, in which case that option is left unbalanced |
| Catering.SistemaCatering.TomarPlaza | src/CateringApp.java:91-92 | for an option filed under its own name: the guest points at it and its counter drops by exactly one; the other guests keep their menus; the availability report changes only at that option's name |
| Catering.SistemaCatering.AsignarMenuAInvitado | src/CateringApp.java:86-97 | succeeds exactly when the guest exists, the menu exists and its counter is positive; on success the guest holds that option and its counter drops by one; on failure nothing changes; the availability report loses exactly one serving at that menu's name on success and is unchanged otherwise; the ledger stays balanced unless the guest already held a menu, whose serving is then never returned |
| Catering.SistemaCatering.Reasignar | src/CateringApp.java:117-127 | the old option always gets its serving back; the guest moves exactly when the new option exists and then has capacity (counting the returned serving when both are the same option), taking one serving; otherwise the guest keeps the old option and the new one is untouched; from a balanced ledger the result is balanced exactly when the move succeeded |
| Catering.SistemaCatering.ActualizarMenuInvitado | src/CateringApp.java:114-131 | a missing guest or a guest with no menu changes nothing and gets its own outcome; otherwise the outcome, the counters and the guest's menu are those of the reassignment above, under the names of both tables; the availability report changes only at the old option's name (when that option is still filed) and at the new menu's name; the ledger stays balanced on success and is broken by a failed reassignment |
| Catering.SistemaCatering.InformePorOpcion | src/CateringApp.java:134-138 | the availability report, computed by menu name, is the printed report: one line per filed option, under the option's own name, holding its current counter |
| Catering.SistemaCatering.OpcionesSeleccionadas | src/CateringApp.java:100-111 | the assignment report has one entry per guest name; it is empty exactly when the guest holds no menu, and otherwise shows the name and dishes of the option the guest points at in the registry's view of the assignments |
| Tally.CountAbsent | src/CateringApp.java:77 | a value no key points at has count zero (a new option is held by nobody) |
| Tally.CountPositive | src/CateringApp.java:117-118 | a value some key points at has a positive count, so returning a serving under a balanced ledger cannot wrap the counter |
| Tally.CountWithout | src/CateringApp.java:82 | dropping one key lowers the count of its own value by one and leaves every other count unchanged |
| Tally.CountAfterUpdate | src/CateringApp.java:91 | redirecting one key takes one from the count of its old value, adds one to the count of its new value, and leaves every other count unchanged |
| Scenarios.UltimaPlaza | src/CateringApp.java:86-96 | with one vegetarian serving, Alice is assigned, Bob is refused and the counter ends at zero |
| Scenarios.CambioDeMenu | src/CateringApp.java:114-124 | moving Alice from Vegetarian (1) to Vegan (2) succeeds; both counters end at one and Alice's report shows Vegan with Tofu |
| Scenarios.CambioFallido | src/CateringApp.java:117-127 | moving Alice to an exhausted Vegan fails; Vegetarian shows one free serving, yet Alice's report still shows Vegetarian |
| Scenarios.AsignacionDoble | src/CateringApp.java:90-92 | assigning Alice twice takes one serving from each option, while she holds only the second |
| Scenarios.InvitadoRepetido | src/CateringApp.java:82 | adding Alice again leaves her unassigned while her vegetarian serving stays taken |
| Scenarios.MenuRepetido | src/CateringApp.java:77 | after Vegetarian is filed again, Alice's report still shows the replaced option; reassigning her to Vegetarian returns the serving to the replaced option and takes one from the new one |

## Left out

- The getters (`getNombre`, `getCantidadDisponible`, `getPlatos`, `getMenuAsignado`) are direct field reads in the model.
- Console output is not modelled: every `System.out.println`, including the "no capacity left" message of `decrementarDisponibilidad` and `mostrarPlatos`. The reports return the data those loops print.
- The console input methods `ingresarInvitados`, `ingresarOpcionesDeMenu` and `asignarMenuAInvitados` are left out. They only read strings and integers from the terminal and pass them to the core.
- `main` is left out; it is orchestration only.
- `guardarDatos` and `cargarDatos` are left out. They rely on Java object serialization, an opaque library format with no visible encoding to reason about.
- The iteration order of the report loops is not modelled: `HashMap` gives no order. Both reports are therefore maps keyed by name, not sequences.
- `AsignarMenuAInvitado`'s `ok` and `ActualizarMenuInvitado`'s `Reasignacion` stand in for the console messages the Java methods print. The Java methods return `void`.
- The dish list is a Java array that the caller could still mutate. It is modelled as an immutable sequence, because nothing in the core writes to it.
- Java `null` names, dish arrays and map keys are not modelled. Names are Dafny strings, which cannot be null.
