/**
 * The department/city picker state behind the checkout form: the selected
 * department and the selected city, the city list derived from the selected
 * department, and the two table checks it re-exports.
 */
module DepartmentSelection {
  import opened Wrappers
  import opened Departamentos

  class ColombiaDepartments {
    var departamentoSeleccionado: Option<string>
    var ciudadSeleccionada: Option<string>

    /** Both selections start out empty. */
    constructor ()
      ensures departamentoSeleccionado == None && ciudadSeleccionada == None
    {
      departamentoSeleccionado := None;
      ciudadSeleccionada := None;
    }

    /** `departamentos`: the whole table. */
    function DepartamentosDisponibles(): (ds: seq<Departamento>)
      ensures |ds| == 33
    {
      TableFacts();
      DEPARTAMENTOS_COLOMBIA
    }

    /**
     * `ciudades`: nothing for no selection or the empty string (both falsy), otherwise
     * the table lookup. The empty string matches no entry, so the falsy test changes nothing.
     */
    function Ciudades(): (cs: seq<string>)
      reads this
      ensures departamentoSeleccionado.None? ==> cs == []
      ensures departamentoSeleccionado.Some? ==> cs == GetCiudadesPorDepartamento(departamentoSeleccionado.value)
    {
      match departamentoSeleccionado
      case None => []
      case Some(d) =>
        if d == "" then
          UnknownDepartment("");
          []
        else
          GetCiudadesPorDepartamento(d)
    }

    /** Selecting a department, known or not, clears the city. */
    method SeleccionarDepartamento(departamento: string)
      modifies this
      ensures departamentoSeleccionado == Some(departamento)
      ensures ciudadSeleccionada == None
      ensures Ciudades() == GetCiudadesPorDepartamento(departamento)
    {
      departamentoSeleccionado := Some(departamento);
      ciudadSeleccionada := None;
    }

    /** Selecting a city changes only the city; it is not checked against `Ciudades()`. */
    method SeleccionarCiudad(ciudad: string)
      modifies this
      ensures ciudadSeleccionada == Some(ciudad)
      ensures departamentoSeleccionado == old(departamentoSeleccionado)
      ensures Ciudades() == old(Ciudades())
    {
      ciudadSeleccionada := Some(ciudad);
    }

    method LimpiarSeleccion()
      modifies this
      ensures departamentoSeleccionado == None && ciudadSeleccionada == None
      ensures Ciudades() == []
    {
      departamentoSeleccionado := None;
      ciudadSeleccionada := None;
    }

    /** `validarDepartamento`: a department is valid exactly when it has cities. */
    function ValidarDepartamento(departamento: string): (b: bool)
      ensures b <==> GetCiudadesPorDepartamento(departamento) != []
    {
      EsDepartamentoValido(departamento)
    }

    /** `validarCiudad`: only ever true for a valid department. */
    function ValidarCiudad(ciudad: string, departamento: string): (b: bool)
      ensures b ==> ValidarDepartamento(departamento)
      ensures b <==> exists k :: 0 <= k < |GetCiudadesPorDepartamento(departamento)|
                      && SameText(GetCiudadesPorDepartamento(departamento)[k], ciudad)
    {
      EsCiudadValidaEnDepartamento(ciudad, departamento)
    }
  }

  lemma AntioquiaCities()
    ensures GetCiudadesPorDepartamento("Antioquia") == ANTIOQUIA.ciudades
    ensures "Medellín" in ANTIOQUIA.ciudades
  {
    assert DEPARTAMENTOS_COLOMBIA[1] == ANTIOQUIA;
    assert EntryMatches(1, "Antioquia");
    assert ANTIOQUIA.ciudades[0] == "Medellín";
  }

  lemma CundinamarcaCities()
    ensures GetCiudadesPorDepartamento("Cundinamarca") == CUNDINAMARCA.ciudades
    ensures "Soacha" in CUNDINAMARCA.ciudades
  {
    assert DEPARTAMENTOS_COLOMBIA[14] == CUNDINAMARCA;
    assert EntryMatches(14, "Cundinamarca");
    assert CUNDINAMARCA.ciudades[0] == "Soacha";
  }

  lemma BogotaValid()
    ensures EsDepartamentoValido("Bogotá D.C.")
  {
    assert DEPARTAMENTOS_COLOMBIA[4].nombre == "Bogotá D.C.";
  }

  /** Selecting a department loads its cities; switching department drops the chosen city. */
  method ScenarioSwitchDepartment()
  {
    var picker := new ColombiaDepartments();
    assert picker.Ciudades() == [];
    assert |picker.DepartamentosDisponibles()| == 33;

    picker.SeleccionarDepartamento("Antioquia");
    AntioquiaCities();
    assert "Medellín" in picker.Ciudades();
    picker.SeleccionarCiudad("Medellín");
    assert picker.ciudadSeleccionada == Some("Medellín");
    assert picker.departamentoSeleccionado == Some("Antioquia");

    picker.SeleccionarDepartamento("Cundinamarca");
    CundinamarcaCities();
    assert picker.ciudadSeleccionada == None;
    assert "Soacha" in picker.Ciudades();

    picker.LimpiarSeleccion();
    assert picker.departamentoSeleccionado == None && picker.ciudadSeleccionada == None;
  }

  /** The checks the picker re-exports, on the cases the form relies on. */
  method ScenarioValidation()
  {
    var picker := new ColombiaDepartments();
    AntioquiaCities();
    BogotaValid();
    InvalidDepartmentExample();
    MedellinNotInCundinamarca();
    CaliInValleDelCaucaAnyCase();
    assert picker.ValidarDepartamento("Antioquia");
    assert picker.ValidarDepartamento("Bogotá D.C.");
    assert !picker.ValidarDepartamento("Departamento Inválido");
    assert !picker.ValidarCiudad("Medellín", "Cundinamarca");
    assert picker.ValidarCiudad("cali", "VALLE DEL CAUCA");
  }
}
