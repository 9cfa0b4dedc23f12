/**
 * Client runs of the registry, proved from the operations' contracts alone:
 * the documented assignment and reassignment scenarios, and the three
 * behaviours the registry shows when an operation does not give a serving
 * back (a failed reassignment, an assignment over an existing one, and a
 * duplicate add).
 */
module Scenarios {
  import opened Catering

  /**
   * The registry every run starts from: a Vegetarian option (Salad) and a
   * Vegan option (Tofu) with the given capacities, and Alice with no menu.
   */
  method Registro(vegetariano: int32, vegano: int32) returns (s: SistemaCatering, veg: MenuOption, vegan: MenuOption)
    ensures fresh(s) && s.Valid()
    ensures s.menus == map["Vegetarian" := veg, "Vegan" := vegan] && veg != vegan
    ensures veg.nombre == "Vegetarian" && veg.platos == ["Salad"] && veg.cantidadDisponible == vegetariano
    ensures vegan.nombre == "Vegan" && vegan.platos == ["Tofu"] && vegan.cantidadDisponible == vegano
    ensures s.invitados.Keys == {"Alice"} && s.asignaciones == map["Alice" := null]
    ensures fresh(s.invitados["Alice"]) && fresh(veg) && fresh(vegan)
  {
    s := new SistemaCatering();
    s.AgregarMenu("Vegetarian", vegetariano, ["Salad"]);
    veg := s.menus["Vegetarian"];
    s.AgregarMenu("Vegan", vegano, ["Tofu"]);
    vegan := s.menus["Vegan"];
    s.AgregarInvitado("Alice");
  }

  /** The same registry after Alice has been given a vegetarian serving. */
  method AliceVegetariana(vegetariano: int32, vegano: int32) returns (s: SistemaCatering, veg: MenuOption, vegan: MenuOption)
    requires vegetariano > 0
    ensures fresh(s) && s.Valid()
    ensures s.menus == map["Vegetarian" := veg, "Vegan" := vegan] && veg != vegan
    ensures veg.nombre == "Vegetarian" && veg.platos == ["Salad"] && veg.cantidadDisponible == vegetariano - 1
    ensures vegan.nombre == "Vegan" && vegan.platos == ["Tofu"] && vegan.cantidadDisponible == vegano
    ensures s.invitados.Keys == {"Alice"} && s.asignaciones == map["Alice" := veg]
    ensures fresh(s.invitados["Alice"]) && fresh(veg) && fresh(vegan)
  {
    s, veg, vegan := Registro(vegetariano, vegano);
    var ok := s.AsignarMenuAInvitado("Alice", "Vegetarian");
  }

  /** The last vegetarian serving goes to Alice; Bob is refused and the counter stays at zero. */
  method UltimaPlaza() returns (alice: bool, bob: bool, restante: int32)
    ensures alice && !bob && restante == 0
  {
    var s, veg, vegan := Registro(1, 2);
    s.AgregarInvitado("Bob");
    alice := s.AsignarMenuAInvitado("Alice", "Vegetarian");
    bob := s.AsignarMenuAInvitado("Bob", "Vegetarian");
    restante := s.DisponibilidadRestante()["Vegetarian"];
  }

  /** Moving Alice from Vegetarian to Vegan returns her vegetarian serving and takes a vegan one. */
  method CambioDeMenu() returns (r: Reasignacion, vegetariano: int32, vegano: int32, alice: Option<Seleccion>)
    ensures r == Actualizado && vegetariano == 1 && vegano == 1
    ensures alice == Some(Seleccion("Vegan", ["Tofu"]))
  {
    var s, veg, vegan := AliceVegetariana(1, 2);
    r := s.ActualizarMenuInvitado("Alice", "Vegan");
    vegetariano := veg.cantidadDisponible;
    vegano := vegan.cantidadDisponible;
    alice := s.OpcionesSeleccionadas()["Alice"];
  }

  /**
   * Moving Alice to an exhausted menu fails after her vegetarian serving was
   * returned: she still holds Vegetarian, and Vegetarian shows one serving free.
   */
  method CambioFallido() returns (r: Reasignacion, vegetariano: int32, vegano: int32, alice: Option<Seleccion>)
    ensures r == NuevoMenuNoDisponible && vegetariano == 1 && vegano == 0
    ensures alice == Some(Seleccion("Vegetarian", ["Salad"]))
  {
    var s, veg, vegan := AliceVegetariana(1, 0);
    r := s.ActualizarMenuInvitado("Alice", "Vegan");
    vegetariano := veg.cantidadDisponible;
    vegano := vegan.cantidadDisponible;
    alice := s.OpcionesSeleccionadas()["Alice"];
  }

  /** Assigning Alice twice takes a serving from both menus although she holds only the second. */
  method AsignacionDoble() returns (vegetariano: int32, vegano: int32, alice: Option<Seleccion>)
    ensures vegetariano == 0 && vegano == 0
    ensures alice == Some(Seleccion("Vegan", ["Tofu"]))
  {
    var s, veg, vegan := AliceVegetariana(1, 1);
    var segunda := s.AsignarMenuAInvitado("Alice", "Vegan");
    vegetariano := veg.cantidadDisponible;
    vegano := vegan.cantidadDisponible;
    alice := s.OpcionesSeleccionadas()["Alice"];
  }

  /** Adding Alice again replaces her with an unassigned guest; her serving stays taken. */
  method InvitadoRepetido() returns (vegetariano: int32, alice: Option<Seleccion>)
    ensures vegetariano == 0 && alice == None
  {
    var s, veg, vegan := AliceVegetariana(1, 2);
    s.AgregarInvitado("Alice");
    vegetariano := veg.cantidadDisponible;
    alice := s.OpcionesSeleccionadas()["Alice"];
  }

  /**
   * Adding Vegetarian again replaces the option in the table, but Alice still
   * holds the replaced one: the report shows its dishes, and reassigning her
   * gives the serving back to the replaced option, not to the new one.
   */
  method MenuRepetido() returns (antes: Option<Seleccion>, r: Reasignacion, vegetariano: int32, reemplazado: int32)
    ensures antes == Some(Seleccion("Vegetarian", ["Salad"]))
    ensures r == Actualizado && vegetariano == 2 && reemplazado == 1
  {
    var s, original, vegan := AliceVegetariana(1, 2);
    s.AgregarMenu("Vegetarian", 3, ["Soup"]);
    antes := s.OpcionesSeleccionadas()["Alice"];
    r := s.ActualizarMenuInvitado("Alice", "Vegetarian");
    vegetariano := s.DisponibilidadRestante()["Vegetarian"];
    reemplazado := original.cantidadDisponible;
  }
}
