/**
 * The catering registry: menu options with a remaining-capacity counter and a
 * dish list, guests that may hold a reference to one menu option, and the
 * registry that owns both tables and moves capacity between them when a menu
 * is assigned or reassigned.
 *
 * The registry is an object whose maps are updated in place, and a guest's
 * menu is a reference to a `MenuOption` object, not a name: after a menu name
 * is overwritten, a guest can still point at the replaced option, and
 * reassigning that guest updates the replaced option's counter.
 */
module Catering {
  import opened Tally

  /** Java's 32-bit `int`. */
  newtype int32 = x: int | -0x8000_0000 <= x < 0x8000_0000

  const INT32_MIN: int32 := -0x8000_0000
  const INT32_MAX: int32 := 0x7fff_ffff

  /** Java's `++` on an `int`: the successor modulo 2^32, read back as a signed value. */
  function Inc32(c: int32): (r: int32)
    ensures (r as int - c as int - 1) % 0x1_0000_0000 == 0
  {
    if c == INT32_MAX then INT32_MIN else c + 1
  }

  datatype Option<T> = None | Some(value: T)

  /** What the assignment report shows for a guest that has a menu: its name and its dishes. */
  datatype Seleccion = Seleccion(menu: string, platos: seq<string>)

  /** The three outcomes of a reassignment, one per message the registry reports. */
  datatype Reasignacion =
    | Actualizado            // the guest now holds the new menu
    | NuevoMenuNoDisponible  // the new menu is missing or exhausted (the old slot was already returned)
    | InvitadoSinMenu        // the guest is missing or holds no menu; nothing changed

  /** The report line of one guest. */
  function Resumen(m: MenuOption?): Option<Seleccion>
  {
    if m == null then None else Some(Seleccion(m.nombre, m.platos))
  }

  /**
   * The capacity the reassignment sees on the new option `t`, once the old
   * option `p` has had its serving returned: `p`'s counter after the `++`
   * when both are the same option, `t`'s own counter otherwise.
   */
  function DisponibleTrasDevolver(p: MenuOption, t: MenuOption, cp: int32, ct: int32): int32
  {
    if t == p then Inc32(cp) else ct
  }

  /** A menu option: a name, a remaining capacity and a fixed list of dishes. */
  class MenuOption {
    const nombre: string
    var cantidadDisponible: int32
    const platos: seq<string>
    /** The capacity the option was created with; only the ledger below uses it. */
    ghost const capacidadInicial: int32

    constructor (nombre: string, cantidadDisponible: int32, platos: seq<string>)
      ensures this.nombre == nombre && this.cantidadDisponible == cantidadDisponible
      ensures this.platos == platos && capacidadInicial == cantidadDisponible
    {
      this.nombre := nombre;
      this.cantidadDisponible := cantidadDisponible;
      this.platos := platos;
      capacidadInicial := cantidadDisponible;
    }

    /** Takes one serving; at zero (or below) it only reports that none is left. */
    method DecrementarDisponibilidad()
      modifies this
      ensures old(cantidadDisponible) > 0 ==> cantidadDisponible as int == old(cantidadDisponible) as int - 1
      ensures old(cantidadDisponible) <= 0 ==> cantidadDisponible == old(cantidadDisponible)
      // corollary of the two above: the method never takes a counter below zero
      ensures cantidadDisponible < 0 ==> cantidadDisponible == old(cantidadDisponible)
    {
      if cantidadDisponible > 0 {
        cantidadDisponible := cantidadDisponible - 1;
      }
    }

    /** Gives one serving back, with no upper bound (a Java `int` wraps at its maximum). */
    method IncrementarDisponibilidad()
      modifies this
      ensures cantidadDisponible == Inc32(old(cantidadDisponible))
    {
      cantidadDisponible := Inc32(cantidadDisponible);
    }
  }

  /** A guest: a name and, possibly, the menu option assigned to it. */
  class Invitado {
    const nombre: string
    var menuAsignado: MenuOption?

    constructor (nombre: string)
      ensures this.nombre == nombre && menuAsignado == null
    {
      this.nombre := nombre;
      menuAsignado := null;
    }

    method AsignarMenu(menu: MenuOption?)
      modifies this
      ensures menuAsignado == menu
    {
      menuAsignado := menu;
    }
  }

  /**
   * The registry: menu name -> option, guest name -> guest. The ghost map
   * `asignaciones` is the abstract view of which option every guest name
   * points at; `Valid` ties it to the guests' own fields.
   */
  class SistemaCatering {
    var invitados: map<string, Invitado>
    var menus: map<string, MenuOption>
    ghost var asignaciones: map<string, MenuOption?>

    /** Every entry is filed under its own name, as both add operations do, and the view is exact. */
    ghost predicate Valid()
      reads this, invitados.Values
    {
      && MenusPorNombre()
      && (forall k | k in invitados :: invitados[k].nombre == k)
      && asignaciones.Keys == invitados.Keys
      && (forall k | k in invitados :: invitados[k].menuAsignado == asignaciones[k])
    }

    /** Every option is filed under its own name. */
    ghost predicate MenusPorNombre()
      reads this`menus
    {
      forall k | k in menus :: menus[k].nombre == k
    }

    /** The options the registry can reach: those in the menu table and those some guest points at. */
    ghost function Conocidos(): set<MenuOption>
      reads this
    {
      menus.Values + set m: MenuOption | m in asignaciones.Values
    }

    /** The ledger of one option balances: servings taken == guests pointing at it. */
    ghost predicate Cuadra(m: MenuOption)
      reads this, m
    {
      m.capacidadInicial as int - m.cantidadDisponible as int == Count(asignaciones, m)
    }

    /** The ledger of every reachable option balances. */
    ghost predicate LibroCuadrado()
      reads this, Conocidos()
    {
      forall m | m in Conocidos() :: Cuadra(m)
    }

    ghost function FrameInvitado(nombreInvitado: string): set<object>
      reads this
    {
      if nombreInvitado in invitados then {invitados[nombreInvitado]} else {}
    }

    ghost function FrameMenu(nombreMenu: string): set<object>
      reads this
    {
      if nombreMenu in menus then {menus[nombreMenu]} else {}
    }

    ghost function FrameMenuActual(nombreInvitado: string): set<object>
      reads this
    {
      if nombreInvitado in asignaciones && asignaciones[nombreInvitado] != null
      then {asignaciones[nombreInvitado]} else {}
    }

    constructor ()
      ensures Valid() && invitados == map[] && menus == map[] && asignaciones == map[]
      ensures LibroCuadrado()
    {
      invitados := map[];
      menus := map[];
      asignaciones := map[];
    }

    /** Files a new option under `nombreMenu`, replacing any option of that name. */
    method AgregarMenu(nombreMenu: string, cantidad: int32, platos: seq<string>)
      requires Valid()
      modifies this`menus
      ensures Valid()
      ensures invitados == old(invitados) && asignaciones == old(asignaciones)
      ensures nombreMenu in menus && fresh(menus[nombreMenu])
      ensures menus == old(menus)[nombreMenu := menus[nombreMenu]]
      ensures menus[nombreMenu].nombre == nombreMenu && menus[nombreMenu].platos == platos
      ensures menus[nombreMenu].cantidadDisponible == cantidad
      ensures DisponibilidadRestante() == old(DisponibilidadRestante())[nombreMenu := cantidad]
      ensures Cuadra(menus[nombreMenu])
      ensures old(LibroCuadrado()) ==> LibroCuadrado()
    {
      var menu := new MenuOption(nombreMenu, cantidad, platos);
      CountAbsent(asignaciones, menu);
      menus := menus[nombreMenu := menu];
      if old(LibroCuadrado()) {
        forall m | m in Conocidos()
          ensures Cuadra(m)
        {
          if m != menu {
            assert m in old(Conocidos());
          }
        }
      }
    }

    /** Files a new guest with no menu under `nombreInvitado`, replacing any guest of that name. */
    method AgregarInvitado(nombreInvitado: string)
      requires Valid()
      modifies this`invitados, this`asignaciones
      ensures Valid()
      ensures menus == old(menus)
      ensures DisponibilidadRestante() == old(DisponibilidadRestante())
      ensures nombreInvitado in invitados && fresh(invitados[nombreInvitado])
      ensures invitados == old(invitados)[nombreInvitado := invitados[nombreInvitado]]
      ensures invitados[nombreInvitado].nombre == nombreInvitado
      ensures invitados[nombreInvitado].menuAsignado == null
      ensures asignaciones == old(asignaciones)[nombreInvitado := null]
      ensures old(LibroCuadrado()) && (nombreInvitado in old(invitados) ==> old(asignaciones[nombreInvitado]) == null)
              ==> LibroCuadrado()
      // a replaced guest's serving is never given back
      ensures nombreInvitado in old(invitados) && old(asignaciones[nombreInvitado]) != null && old(LibroCuadrado())
              ==> !Cuadra(old(asignaciones[nombreInvitado]))
    {
      ghost var a := asignaciones;
      var invitado := new Invitado(nombreInvitado);
      invitados := invitados[nombreInvitado := invitado];
      asignaciones := asignaciones[nombreInvitado := null];
      if nombreInvitado in a && a[nombreInvitado] != null && old(LibroCuadrado()) {
        var p := a[nombreInvitado];
        assert p in old(Conocidos());
        CountAfterUpdate(a, nombreInvitado, null, p);
      }
      if old(LibroCuadrado()) && (nombreInvitado in a ==> a[nombreInvitado] == null) {
        forall m | m in Conocidos()
          ensures Cuadra(m)
        {
          assert m in old(Conocidos());
          CountAfterUpdate(a, nombreInvitado, null, m);
        }
      }
    }

    /** The step both assignment operations share: the guest takes one serving of `menu`. */
    method TomarPlaza(nombreInvitado: string, menu: MenuOption)
      requires Valid() && nombreInvitado in invitados && menu.cantidadDisponible > 0
      requires menu.nombre in menus && menus[menu.nombre] == menu
      modifies this`asignaciones, invitados[nombreInvitado], menu
      ensures Valid()
      ensures DisponibilidadRestante() == old(DisponibilidadRestante())[menu.nombre := menu.cantidadDisponible]
      ensures invitados[nombreInvitado].menuAsignado == menu
      ensures menu.cantidadDisponible as int == old(menu.cantidadDisponible) as int - 1
      ensures asignaciones == old(asignaciones)[nombreInvitado := menu]
    {
      var invitado := invitados[nombreInvitado];
      invitado.AsignarMenu(menu);
      menu.DecrementarDisponibilidad();
      asignaciones := asignaciones[nombreInvitado := menu];
      forall k | k in menus && k != menu.nombre
        ensures DisponibilidadRestante()[k] == old(DisponibilidadRestante())[k]
      {
        assert menus[k].nombre != menu.nombre;
      }
      forall k | k in invitados
        ensures invitados[k].menuAsignado == asignaciones[k]
      {
        if k != nombreInvitado {
          assert invitados[k].nombre != invitado.nombre;
        }
      }
    }

    /**
     * Gives the guest the option filed under `nombreMenu` when both exist and
     * the option has capacity left, taking one serving; otherwise changes nothing.
     * A menu the guest already held is not given back.
     */
    method AsignarMenuAInvitado(nombreInvitado: string, nombreMenu: string) returns (ok: bool)
      requires Valid()
      modifies this`asignaciones, FrameInvitado(nombreInvitado), FrameMenu(nombreMenu)
      ensures Valid()
      ensures invitados == old(invitados) && menus == old(menus)
      ensures ok <==> nombreInvitado in invitados && nombreMenu in menus && old(menus[nombreMenu].cantidadDisponible) > 0
      ensures ok ==> invitados[nombreInvitado].menuAsignado == menus[nombreMenu]
      ensures ok ==> menus[nombreMenu].cantidadDisponible as int == old(menus[nombreMenu].cantidadDisponible) as int - 1
      ensures ok ==> asignaciones == old(asignaciones)[nombreInvitado := menus[nombreMenu]]
      ensures !ok ==> asignaciones == old(asignaciones) && unchanged(FrameInvitado(nombreInvitado), FrameMenu(nombreMenu))
      // the availability report loses one serving at `nombreMenu` and nowhere else
      ensures ok ==> DisponibilidadRestante()
                     == old(DisponibilidadRestante())[nombreMenu := old(DisponibilidadRestante())[nombreMenu] - 1]
      ensures !ok ==> DisponibilidadRestante() == old(DisponibilidadRestante())
      ensures old(LibroCuadrado()) && (ok ==> old(asignaciones[nombreInvitado]) == null) ==> LibroCuadrado()
      // assigning over an existing assignment never returns the earlier serving
      ensures ok && old(asignaciones[nombreInvitado]) != null && old(LibroCuadrado())
              ==> !Cuadra(old(asignaciones[nombreInvitado]))
    {
      var invitado: Invitado? := if nombreInvitado in invitados then invitados[nombreInvitado] else null;
      var menu: MenuOption? := if nombreMenu in menus then menus[nombreMenu] else null;
      if invitado != null && menu != null && menu.cantidadDisponible > 0 {
        ghost var a := asignaciones;
        TomarPlaza(nombreInvitado, menu);
        ok := true;
        if a[nombreInvitado] != null && old(LibroCuadrado()) {
          var p := a[nombreInvitado];
          assert p in old(Conocidos());
          CountAfterUpdate(a, nombreInvitado, menu, p);
        }
        if old(LibroCuadrado()) && a[nombreInvitado] == null {
          forall m | m in Conocidos()
            ensures Cuadra(m)
          {
            assert m in old(Conocidos());
            CountAfterUpdate(a, nombreInvitado, menu, m);
          }
        }
      } else {
        ok := false;
      }
    }

    /**
     * The reassignment once the guest's current option `actual` and the
     * option `nuevo` filed under the new name (if any) are known: the serving
     * goes back to `actual`, then the guest takes one serving of `nuevo` when
     * it exists and has capacity left. When it does not, the guest keeps
     * pointing at `actual`, whose serving stays returned.
     */
    method Reasignar(nombreInvitado: string, actual: MenuOption, nuevo: MenuOption?) returns (ok: bool)
      requires Valid() && nombreInvitado in invitados && asignaciones[nombreInvitado] == actual
      requires nuevo != null ==> nuevo in menus.Values
      modifies this`asignaciones, invitados[nombreInvitado], actual, nuevo
      ensures Valid() && invitados == old(invitados) && menus == old(menus)
      ensures ok <==> nuevo != null
                      && DisponibleTrasDevolver(actual, nuevo, old(actual.cantidadDisponible), old(nuevo.cantidadDisponible)) > 0
      ensures ok ==>
        && invitados[nombreInvitado].menuAsignado == nuevo
        && nuevo.cantidadDisponible as int
           == DisponibleTrasDevolver(actual, nuevo, old(actual.cantidadDisponible), old(nuevo.cantidadDisponible)) as int - 1
        && (nuevo != actual ==> actual.cantidadDisponible == Inc32(old(actual.cantidadDisponible)))
        && asignaciones == old(asignaciones)[nombreInvitado := nuevo]
      ensures !ok ==>
        && invitados[nombreInvitado].menuAsignado == actual
        && actual.cantidadDisponible == Inc32(old(actual.cantidadDisponible))
        && (nuevo != null && nuevo != actual ==> unchanged(nuevo))
        && asignaciones == old(asignaciones)
      // a failed reassignment leaves `actual` one serving short of balancing
      ensures old(LibroCuadrado()) ==> (ok <==> LibroCuadrado())
    {
      ghost var a := asignaciones;
      ghost var cp := actual.cantidadDisponible;
      ghost var ct := if nuevo != null then nuevo.cantidadDisponible else 0;
      ghost var balanced := LibroCuadrado();
      if balanced {
        assert actual in Conocidos();
        CountPositive(a, nombreInvitado);
      }
      actual.IncrementarDisponibilidad();
      if nuevo != null && nuevo.cantidadDisponible > 0 {
        assert nuevo.cantidadDisponible == DisponibleTrasDevolver(actual, nuevo, cp, ct);
        TomarPlaza(nombreInvitado, nuevo);
        ok := true;
        if balanced {
          forall m | m in Conocidos()
            ensures Cuadra(m)
          {
            assert m in old(Conocidos());
            CountAfterUpdate(a, nombreInvitado, nuevo, m);
            if m != actual && m != nuevo {
              assert m.cantidadDisponible == old(m.cantidadDisponible);
            } else if m == actual && m != nuevo {
              assert m.cantidadDisponible as int == cp as int + 1;
            } else if m == nuevo && m != actual {
              assert m.cantidadDisponible as int == ct as int - 1;
            }
          }
        }
      } else {
        ok := false;
        if balanced {
          assert actual in Conocidos();
          assert !Cuadra(actual);
        }
      }
    }

    /**
     * Looks the guest and the new option up and, when the guest holds a
     * menu, performs the reassignment; reports which of the three outcomes
     * happened.
     */
    method ActualizarMenuInvitado(nombreInvitado: string, nuevoMenu: string) returns (r: Reasignacion)
      requires Valid()
      modifies this`asignaciones, FrameInvitado(nombreInvitado), FrameMenuActual(nombreInvitado), FrameMenu(nuevoMenu)
      ensures Valid()
      ensures invitados == old(invitados) && menus == old(menus)
      ensures r == InvitadoSinMenu <==> !(nombreInvitado in invitados && old(asignaciones[nombreInvitado]) != null)
      ensures r == InvitadoSinMenu ==> unchanged(FrameInvitado(nombreInvitado), FrameMenu(nuevoMenu))
      ensures r != InvitadoSinMenu ==>
        var p := old(asignaciones[nombreInvitado]);
        r == Actualizado <==> nuevoMenu in menus && DisponibleTrasDevolver(p, menus[nuevoMenu], old(p.cantidadDisponible), old(menus[nuevoMenu].cantidadDisponible)) > 0
      ensures r == Actualizado ==>
        var p, t := old(asignaciones[nombreInvitado]), menus[nuevoMenu];
        && invitados[nombreInvitado].menuAsignado == t
        && t.cantidadDisponible as int == DisponibleTrasDevolver(p, t, old(p.cantidadDisponible), old(t.cantidadDisponible)) as int - 1
        && (t != p ==> p.cantidadDisponible == Inc32(old(p.cantidadDisponible)))
      ensures r == NuevoMenuNoDisponible ==>
        var p := old(asignaciones[nombreInvitado]);
        && invitados[nombreInvitado].menuAsignado == p
        && p.cantidadDisponible == Inc32(old(p.cantidadDisponible))
        && (nuevoMenu in menus && menus[nuevoMenu] != p ==> unchanged(menus[nuevoMenu]))
      ensures r == Actualizado ==> asignaciones == old(asignaciones)[nombreInvitado := menus[nuevoMenu]]
      ensures r != Actualizado ==> asignaciones == old(asignaciones)
      // the availability report changes only at the old option (when it is still filed) and the new one
      ensures r == InvitadoSinMenu ==> DisponibilidadRestante() == old(DisponibilidadRestante())
      ensures r == NuevoMenuNoDisponible ==>
        var p := old(asignaciones[nombreInvitado]);
        DisponibilidadRestante()
        == if p.nombre in menus && menus[p.nombre] == p
           then old(DisponibilidadRestante())[p.nombre := Inc32(old(p.cantidadDisponible))]
           else old(DisponibilidadRestante())
      ensures r == Actualizado ==>
        var p, t := old(asignaciones[nombreInvitado]), menus[nuevoMenu];
        DisponibilidadRestante()
        == (if p.nombre in menus && menus[p.nombre] == p
            then old(DisponibilidadRestante())[p.nombre := p.cantidadDisponible]
            else old(DisponibilidadRestante()))[nuevoMenu := t.cantidadDisponible]
      ensures old(LibroCuadrado()) && r != NuevoMenuNoDisponible ==> LibroCuadrado()
      // a failed reassignment leaves the old option one serving short of balancing
      ensures old(LibroCuadrado()) && r == NuevoMenuNoDisponible ==> !LibroCuadrado()
    {
      var invitado: Invitado? := if nombreInvitado in invitados then invitados[nombreInvitado] else null;
      if invitado != null && invitado.menuAsignado != null {
        var nuevo: MenuOption? := if nuevoMenu in menus then menus[nuevoMenu] else null;
        var ok := Reasignar(nombreInvitado, invitado.menuAsignado, nuevo);
        r := if ok then Actualizado else NuevoMenuNoDisponible;
      } else {
        r := InvitadoSinMenu;
      }
    }

    /** The availability report: remaining capacity by menu name. */
    function DisponibilidadRestante(): map<string, int32>
      reads this`menus, menus.Values
    {
      map k | k in menus :: menus[k].cantidadDisponible
    }

    /**
     * The availability report read the way the registry prints it: one line
     * per filed option, under the option's own name, with its counter.
     */
    lemma InformePorOpcion()
      requires MenusPorNombre()
      ensures DisponibilidadRestante().Keys == set m | m in menus.Values :: m.nombre
      ensures forall m | m in menus.Values :: DisponibilidadRestante()[m.nombre] == m.cantidadDisponible
    {
    }

    /** The assignment report: every guest's menu name and dishes, or none, by guest name. */
    function OpcionesSeleccionadas(): (r: map<string, Option<Seleccion>>)
      requires Valid()
      reads this, invitados.Values
      ensures r.Keys == asignaciones.Keys
      ensures forall k | k in r :: r[k].None? <==> asignaciones[k] == null
      ensures forall k | k in r && asignaciones[k] != null
                :: r[k] == Some(Seleccion(asignaciones[k].nombre, asignaciones[k].platos))
    {
      map k | k in invitados :: Resumen(invitados[k].menuAsignado)
    }
  }
}
