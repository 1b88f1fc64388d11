/**
 * The table of Colombia's 33 departments (32 departments and the capital district)
 * with their main cities, and the three case-insensitive lookups over it used by the
 * checkout form: the cities of a department, whether a department exists, and
 * whether a city belongs to a department. Names are compared after `toLowerCase`
 * on both sides (`Lower`).
 */
module Departamentos {
  import opened Wrappers
  import opened Text

  datatype Departamento = Departamento(nombre: string, ciudades: seq<string>)

  const AMAZONAS := Departamento("Amazonas", ["Leticia", "Puerto Nariño", "La Pedrera", "Tarapacá"])
  const ANTIOQUIA := Departamento("Antioquia", [
      "Medellín", "Bello", "Itagüí", "Envigado", "Rionegro", "Apartadó", "Turbo", "Sabaneta",
      "Caucasia", "Yarumal", "Puerto Berrío"
    ])
  const ARAUCA := Departamento("Arauca", ["Arauca", "Arauquita", "Saravena", "Tame", "Fortul"])
  const ATLANTICO := Departamento("Atlántico", [
      "Barranquilla", "Soledad", "Malambo", "Sabanalarga", "Puerto Colombia", "Galapa",
      "Baranoa"
    ])
  const BOGOTA := Departamento("Bogotá D.C.", [
      "Usaquén", "Chapinero", "Santa Fe", "San Cristóbal", "Usme", "Tunjuelito", "Bosa",
      "Kennedy", "Fontibón", "Engativá", "Suba", "Barrios Unidos", "Teusaquillo",
      "Los Mártires", "Antonio Nariño", "Puente Aranda", "La Candelaria", "Rafael Uribe Uribe",
      "Ciudad Bolívar", "Sumapaz"
    ])
  const BOLIVAR := Departamento("Bolívar", [
      "Cartagena", "Magangué", "Turbaco", "Arjona", "El Carmen de Bolívar", "Mompós"
    ])
  const BOYACA := Departamento("Boyacá", [
      "Tunja", "Duitama", "Sogamoso", "Chiquinquirá", "Paipa", "Villa de Leyva",
      "Puerto Boyacá", "Moniquirá"
    ])
  const CALDAS := Departamento("Caldas", [
      "Manizales", "La Dorada", "Chinchiná", "Villamaría", "Riosucio", "Anserma", "Palestina"
    ])
  const CAQUETA := Departamento("Caquetá", [
      "Florencia", "San Vicente del Caguán", "Puerto Rico", "El Doncello",
      "Belén de los Andaquíes"
    ])
  const CASANARE := Departamento("Casanare", [
      "Yopal", "Aguazul", "Villanueva", "Monterrey", "Tauramena", "Paz de Ariporo"
    ])
  const CAUCA := Departamento("Cauca", [
      "Popayán", "Santander de Quilichao", "Puerto Tejada", "Patía", "Piendamó", "Guapi",
      "Miranda"
    ])
  const CESAR := Departamento("Cesar", [
      "Valledupar", "Aguachica", "Bosconia", "Codazzi", "Chimichagua", "La Jagua de Ibirico",
      "Curumaní"
    ])
  const CHOCO := Departamento("Chocó", [
      "Quibdó", "Istmina", "Condoto", "Tadó", "Bahía Solano", "Nuquí", "Alto Baudó"
    ])
  const CORDOBA := Departamento("Córdoba", [
      "Montería", "Cereté", "Lorica", "Sahagún", "Planeta Rica", "Montelíbano", "Ciénaga de Oro"
    ])
  const CUNDINAMARCA := Departamento("Cundinamarca", [
      "Soacha", "Fusagasugá", "Facatativá", "Zipaquirá", "Chía", "Mosquera", "Madrid", "Funza",
      "Cajicá", "Girardot", "Tocancipá", "La Calera"
    ])
  const GUAINIA := Departamento("Guainía", [
      "Inírida", "Barranco Minas", "Puerto Colombia", "Cacahual"
    ])
  const GUAVIARE := Departamento("Guaviare", [
      "San José del Guaviare", "Calamar", "El Retorno", "Miraflores"
    ])
  const HUILA := Departamento("Huila", [
      "Neiva", "Pitalito", "Garzón", "La Plata", "Campoalegre", "Timaná", "San Agustín"
    ])
  const LA_GUAJIRA := Departamento("La Guajira", [
      "Riohacha", "Maicao", "Uribia", "Fonseca", "San Juan del Cesar", "Villanueva", "Barrancas"
    ])
  const MAGDALENA := Departamento("Magdalena", [
      "Santa Marta", "Ciénaga", "Fundación", "Plato", "El Banco", "Zona Bananera"
    ])
  const META := Departamento("Meta", [
      "Villavicencio", "Acacías", "Granada", "Puerto López", "San Martín", "Restrepo",
      "Puerto Gaitán"
    ])
  const NARINO := Departamento("Nariño", [
      "Pasto", "Tumaco", "Ipiales", "Túquerres", "Barbacoas", "La Unión", "Samaniego"
    ])
  const NORTE_DE_SANTANDER := Departamento("Norte de Santander", [
      "Cúcuta", "Ocaña", "Pamplona", "Villa del Rosario", "Los Patios", "Tibú", "El Zulia"
    ])
  const PUTUMAYO := Departamento("Putumayo", [
      "Mocoa", "Puerto Asís", "Valle del Guamuez", "Orito", "San Miguel", "Villagarzón"
    ])
  const QUINDIO := Departamento("Quindío", [
      "Armenia", "Calarcá", "La Tebaida", "Montenegro", "Quimbaya", "Circasia", "Salento"
    ])
  const RISARALDA := Departamento("Risaralda", [
      "Pereira", "Dosquebradas", "La Virginia", "Santa Rosa de Cabal", "Marsella",
      "Belén de Umbría"
    ])
  const SAN_ANDRES := Departamento("San Andrés y Providencia", ["San Andrés", "Providencia"])
  const SANTANDER := Departamento("Santander", [
      "Bucaramanga", "Floridablanca", "Girón", "Piedecuesta", "Barrancabermeja", "San Gil",
      "Socorro", "Málaga"
    ])
  const SUCRE := Departamento("Sucre", [
      "Sincelejo", "Corozal", "Sampués", "San Marcos", "Tolú", "Coveñas", "Majagual"
    ])
  const TOLIMA := Departamento("Tolima", [
      "Ibagué", "Espinal", "Melgar", "Honda", "Líbano", "Mariquita", "Chaparral", "Purificación"
    ])
  const VALLE_DEL_CAUCA := Departamento("Valle del Cauca", [
      "Cali", "Palmira", "Buenaventura", "Tuluá", "Cartago", "Buga", "Jamundí", "Yumbo",
      "Candelaria", "Pradera"
    ])
  const VAUPES := Departamento("Vaupés", ["Mitú", "Caruru", "Taraira"])
  const VICHADA := Departamento("Vichada", [
      "Puerto Carreño", "La Primavera", "Santa Rosalía", "Cumaribo"
    ])

  /** The table, in the order of the source array. */
  const DEPARTAMENTOS_COLOMBIA: seq<Departamento> := [
    AMAZONAS, ANTIOQUIA, ARAUCA, ATLANTICO, BOGOTA, BOLIVAR, BOYACA, CALDAS, CAQUETA, CASANARE,
    CAUCA, CESAR, CHOCO, CORDOBA, CUNDINAMARCA, GUAINIA, GUAVIARE, HUILA, LA_GUAJIRA, MAGDALENA,
    META, NARINO, NORTE_DE_SANTANDER, PUTUMAYO, QUINDIO, RISARALDA, SAN_ANDRES, SANTANDER,
    SUCRE, TOLIMA, VALLE_DEL_CAUCA, VAUPES, VICHADA
  ]

  /** `a.toLowerCase() === b.toLowerCase()`. */
  predicate SameText(a: string, b: string) {
    Lower(a) == Lower(b)
  }

  // ----- the lookups, over any table -----

  /** The index `find` stops at: the first entry at or after `from` whose name matches. */
  function FindFrom(table: seq<Departamento>, departamento: string, from: nat): (r: Option<nat>)
    requires from <= |table|
    ensures r.Some? ==> from <= r.value < |table| && SameText(table[r.value].nombre, departamento)
    ensures r.Some? ==> forall j :: from <= j < r.value ==> !SameText(table[j].nombre, departamento)
    ensures r.None? ==> forall j :: from <= j < |table| ==> !SameText(table[j].nombre, departamento)
    decreases |table| - from
  {
    if from == |table| then None
    else if SameText(table[from].nombre, departamento) then Some(from)
    else FindFrom(table, departamento, from + 1)
  }

  /** The cities of the first matching entry, or `[]` when no entry matches. */
  function CiudadesEn(table: seq<Departamento>, departamento: string): (r: seq<string>)
    ensures (forall j :: 0 <= j < |table| ==> !SameText(table[j].nombre, departamento)) ==> r == []
    ensures forall i :: 0 <= i < |table| && SameText(table[i].nombre, departamento)
              && (forall j :: 0 <= j < i ==> !SameText(table[j].nombre, departamento))
              ==> r == table[i].ciudades
  {
    match FindFrom(table, departamento, 0)
    case Some(i) => table[i].ciudades
    case None => []
  }

  // ----- the exported functions -----

  /** Entry `i` of the table is the one named `departamento`, ignoring case. */
  predicate EntryMatches(i: int, departamento: string) {
    0 <= i < |DEPARTAMENTOS_COLOMBIA| && SameText(DEPARTAMENTOS_COLOMBIA[i].nombre, departamento)
  }

  /**
   * `getCiudadesPorDepartamento`: the cities of the entry whose name matches ignoring case
   * (names are distinct, so there is at most one), or `[]` when none matches.
   */
  function GetCiudadesPorDepartamento(departamento: string): (ciudades: seq<string>)
    ensures forall i :: EntryMatches(i, departamento) ==> ciudades == DEPARTAMENTOS_COLOMBIA[i].ciudades
    ensures (forall i :: !EntryMatches(i, departamento)) ==> ciudades == []
  {
    FirstMatchIsOnlyMatch(departamento);
    CiudadesEn(DEPARTAMENTOS_COLOMBIA, departamento)
  }

  /**
   * `esDepartamentoValido`: some entry's name matches ignoring case. Every entry has cities,
   * so this is exactly "the department has cities".
   */
  function EsDepartamentoValido(departamento: string): (valido: bool)
    ensures valido <==> GetCiudadesPorDepartamento(departamento) != []
  {
    TableFacts();
    exists i :: 0 <= i < |DEPARTAMENTOS_COLOMBIA| && EntryMatches(i, departamento)
  }

  /**
   * `esCiudadValidaEnDepartamento`: one of the department's cities matches ignoring case.
   * Only a valid department has a valid city, and in the entry that matches the department
   * the city is valid exactly when that entry lists it.
   */
  function EsCiudadValidaEnDepartamento(ciudad: string, departamento: string): (valida: bool)
    ensures valida ==> EsDepartamentoValido(departamento)
    ensures forall i :: EntryMatches(i, departamento) ==>
              (valida <==> exists k :: 0 <= k < |DEPARTAMENTOS_COLOMBIA[i].ciudades|
                                       && SameText(DEPARTAMENTOS_COLOMBIA[i].ciudades[k], ciudad))
  {
    var ciudades := GetCiudadesPorDepartamento(departamento);
    exists k :: 0 <= k < |ciudades| && SameText(ciudades[k], ciudad)
  }

  // ----- facts about the table -----

  /** Names are distinct, so the entry that matches is also the first that matches. */
  lemma FirstMatchIsOnlyMatch(departamento: string)
    ensures forall i :: EntryMatches(i, departamento) ==>
              forall j :: 0 <= j < i ==> !SameText(DEPARTAMENTOS_COLOMBIA[j].nombre, departamento)
    ensures (forall i :: !EntryMatches(i, departamento)) ==>
              forall j :: 0 <= j < |DEPARTAMENTOS_COLOMBIA| ==> !SameText(DEPARTAMENTOS_COLOMBIA[j].nombre, departamento)
  {
    NamesDistinct();
    if forall i :: !EntryMatches(i, departamento) {
      forall j | 0 <= j < |DEPARTAMENTOS_COLOMBIA|
        ensures !SameText(DEPARTAMENTOS_COLOMBIA[j].nombre, departamento)
      {
        assert !EntryMatches(j, departamento);
      }
    }
  }

  lemma TableFacts()
    ensures |DEPARTAMENTOS_COLOMBIA| == 33
    ensures forall i :: 0 <= i < |DEPARTAMENTOS_COLOMBIA| ==> DEPARTAMENTOS_COLOMBIA[i].ciudades != []
  {
  }

  // ----- distinct names: each lowered name is recognised by its length and first two letters -----

  /** The entry whose lowered name has the length and first two letters of `l`; -1 if none. */
  ghost function TableSlot(l: string): int {
    if |l| < 2 then -1
    else if |l| == 8 && l[0] == 'a' && l[1] == 'm' then 0
    else if |l| == 9 && l[0] == 'a' && l[1] == 'n' then 1
    else if |l| == 6 && l[0] == 'a' && l[1] == 'r' then 2
    else if |l| == 9 && l[0] == 'a' && l[1] == 't' then 3
    else if |l| == 11 && l[0] == 'b' && l[1] == 'o' then 4
    else if |l| == 7 && l[0] == 'b' && l[1] == 'o' then 5
    else if |l| == 6 && l[0] == 'b' && l[1] == 'o' then 6
    else if |l| == 6 && l[0] == 'c' && l[1] == 'a' then 7
    else if |l| == 7 && l[0] == 'c' && l[1] == 'a' then 8
    else if |l| == 8 && l[0] == 'c' && l[1] == 'a' then 9
    else if |l| == 5 && l[0] == 'c' && l[1] == 'a' then 10
    else if |l| == 5 && l[0] == 'c' && l[1] == 'e' then 11
    else if |l| == 5 && l[0] == 'c' && l[1] == 'h' then 12
    else if |l| == 7 && l[0] == 'c' && l[1] == 'ó' then 13
    else if |l| == 12 && l[0] == 'c' && l[1] == 'u' then 14
    else if |l| == 7 && l[0] == 'g' && l[1] == 'u' then 15
    else if |l| == 8 && l[0] == 'g' && l[1] == 'u' then 16
    else if |l| == 5 && l[0] == 'h' && l[1] == 'u' then 17
    else if |l| == 10 && l[0] == 'l' && l[1] == 'a' then 18
    else if |l| == 9 && l[0] == 'm' && l[1] == 'a' then 19
    else if |l| == 4 && l[0] == 'm' && l[1] == 'e' then 20
    else if |l| == 6 && l[0] == 'n' && l[1] == 'a' then 21
    else if |l| == 18 && l[0] == 'n' && l[1] == 'o' then 22
    else if |l| == 8 && l[0] == 'p' && l[1] == 'u' then 23
    else if |l| == 7 && l[0] == 'q' && l[1] == 'u' then 24
    else if |l| == 9 && l[0] == 'r' && l[1] == 'i' then 25
    else if |l| == 24 && l[0] == 's' && l[1] == 'a' then 26
    else if |l| == 9 && l[0] == 's' && l[1] == 'a' then 27
    else if |l| == 5 && l[0] == 's' && l[1] == 'u' then 28
    else if |l| == 6 && l[0] == 't' && l[1] == 'o' then 29
    else if |l| == 15 && l[0] == 'v' && l[1] == 'a' then 30
    else if |l| == 6 && l[0] == 'v' && l[1] == 'a' then 31
    else if |l| == 7 && l[0] == 'v' && l[1] == 'i' then 32
    else -1
  }

  lemma {:induction false} TableSlotOfEntries0To2(i: nat)
    requires 0 <= i < 3
    ensures TableSlot(Lower(DEPARTAMENTOS_COLOMBIA[i].nombre)) == i
  {
    if i == 0 {
      assert DEPARTAMENTOS_COLOMBIA[0] == AMAZONAS;
      assert |Lower(AMAZONAS.nombre)| == 8 && Lower(AMAZONAS.nombre)[0] == 'a' && Lower(AMAZONAS.nombre)[1] == 'm';
    }
    else if i == 1 {
      assert DEPARTAMENTOS_COLOMBIA[1] == ANTIOQUIA;
      assert |Lower(ANTIOQUIA.nombre)| == 9 && Lower(ANTIOQUIA.nombre)[0] == 'a' && Lower(ANTIOQUIA.nombre)[1] == 'n';
    }
    else {
      assert DEPARTAMENTOS_COLOMBIA[2] == ARAUCA;
      assert |Lower(ARAUCA.nombre)| == 6 && Lower(ARAUCA.nombre)[0] == 'a' && Lower(ARAUCA.nombre)[1] == 'r';
    }
  }

  lemma {:induction false} TableSlotOfEntries3To5(i: nat)
    requires 3 <= i < 6
    ensures TableSlot(Lower(DEPARTAMENTOS_COLOMBIA[i].nombre)) == i
  {
    if i == 3 {
      assert DEPARTAMENTOS_COLOMBIA[3] == ATLANTICO;
      assert |Lower(ATLANTICO.nombre)| == 9 && Lower(ATLANTICO.nombre)[0] == 'a' && Lower(ATLANTICO.nombre)[1] == 't';
    }
    else if i == 4 {
      assert DEPARTAMENTOS_COLOMBIA[4] == BOGOTA;
      assert |Lower(BOGOTA.nombre)| == 11 && Lower(BOGOTA.nombre)[0] == 'b' && Lower(BOGOTA.nombre)[1] == 'o';
    }
    else {
      assert DEPARTAMENTOS_COLOMBIA[5] == BOLIVAR;
      assert |Lower(BOLIVAR.nombre)| == 7 && Lower(BOLIVAR.nombre)[0] == 'b' && Lower(BOLIVAR.nombre)[1] == 'o';
    }
  }

  lemma {:induction false} TableSlotOfEntries6To8(i: nat)
    requires 6 <= i < 9
    ensures TableSlot(Lower(DEPARTAMENTOS_COLOMBIA[i].nombre)) == i
  {
    if i == 6 {
      assert DEPARTAMENTOS_COLOMBIA[6] == BOYACA;
      assert |Lower(BOYACA.nombre)| == 6 && Lower(BOYACA.nombre)[0] == 'b' && Lower(BOYACA.nombre)[1] == 'o';
    }
    else if i == 7 {
      assert DEPARTAMENTOS_COLOMBIA[7] == CALDAS;
      assert |Lower(CALDAS.nombre)| == 6 && Lower(CALDAS.nombre)[0] == 'c' && Lower(CALDAS.nombre)[1] == 'a';
    }
    else {
      assert DEPARTAMENTOS_COLOMBIA[8] == CAQUETA;
      assert |Lower(CAQUETA.nombre)| == 7 && Lower(CAQUETA.nombre)[0] == 'c' && Lower(CAQUETA.nombre)[1] == 'a';
    }
  }

  lemma {:induction false} TableSlotOfEntries9To11(i: nat)
    requires 9 <= i < 12
    ensures TableSlot(Lower(DEPARTAMENTOS_COLOMBIA[i].nombre)) == i
  {
    if i == 9 {
      assert DEPARTAMENTOS_COLOMBIA[9] == CASANARE;
      assert |Lower(CASANARE.nombre)| == 8 && Lower(CASANARE.nombre)[0] == 'c' && Lower(CASANARE.nombre)[1] == 'a';
    }
    else if i == 10 {
      assert DEPARTAMENTOS_COLOMBIA[10] == CAUCA;
      assert |Lower(CAUCA.nombre)| == 5 && Lower(CAUCA.nombre)[0] == 'c' && Lower(CAUCA.nombre)[1] == 'a';
    }
    else {
      assert DEPARTAMENTOS_COLOMBIA[11] == CESAR;
      assert |Lower(CESAR.nombre)| == 5 && Lower(CESAR.nombre)[0] == 'c' && Lower(CESAR.nombre)[1] == 'e';
    }
  }

  lemma {:induction false} TableSlotOfEntries12To14(i: nat)
    requires 12 <= i < 15
    ensures TableSlot(Lower(DEPARTAMENTOS_COLOMBIA[i].nombre)) == i
  {
    if i == 12 {
      assert DEPARTAMENTOS_COLOMBIA[12] == CHOCO;
      assert |Lower(CHOCO.nombre)| == 5 && Lower(CHOCO.nombre)[0] == 'c' && Lower(CHOCO.nombre)[1] == 'h';
    }
    else if i == 13 {
      assert DEPARTAMENTOS_COLOMBIA[13] == CORDOBA;
      assert |Lower(CORDOBA.nombre)| == 7 && Lower(CORDOBA.nombre)[0] == 'c' && Lower(CORDOBA.nombre)[1] == 'ó';
    }
    else {
      assert DEPARTAMENTOS_COLOMBIA[14] == CUNDINAMARCA;
      assert |Lower(CUNDINAMARCA.nombre)| == 12 && Lower(CUNDINAMARCA.nombre)[0] == 'c' && Lower(CUNDINAMARCA.nombre)[1] == 'u';
    }
  }

  lemma {:induction false} TableSlotOfEntries15To17(i: nat)
    requires 15 <= i < 18
    ensures TableSlot(Lower(DEPARTAMENTOS_COLOMBIA[i].nombre)) == i
  {
    if i == 15 {
      assert DEPARTAMENTOS_COLOMBIA[15] == GUAINIA;
      assert |Lower(GUAINIA.nombre)| == 7 && Lower(GUAINIA.nombre)[0] == 'g' && Lower(GUAINIA.nombre)[1] == 'u';
    }
    else if i == 16 {
      assert DEPARTAMENTOS_COLOMBIA[16] == GUAVIARE;
      assert |Lower(GUAVIARE.nombre)| == 8 && Lower(GUAVIARE.nombre)[0] == 'g' && Lower(GUAVIARE.nombre)[1] == 'u';
    }
    else {
      assert DEPARTAMENTOS_COLOMBIA[17] == HUILA;
      assert |Lower(HUILA.nombre)| == 5 && Lower(HUILA.nombre)[0] == 'h' && Lower(HUILA.nombre)[1] == 'u';
    }
  }

  lemma {:induction false} TableSlotOfEntries18To20(i: nat)
    requires 18 <= i < 21
    ensures TableSlot(Lower(DEPARTAMENTOS_COLOMBIA[i].nombre)) == i
  {
    if i == 18 {
      assert DEPARTAMENTOS_COLOMBIA[18] == LA_GUAJIRA;
      assert |Lower(LA_GUAJIRA.nombre)| == 10 && Lower(LA_GUAJIRA.nombre)[0] == 'l' && Lower(LA_GUAJIRA.nombre)[1] == 'a';
    }
    else if i == 19 {
      assert DEPARTAMENTOS_COLOMBIA[19] == MAGDALENA;
      assert |Lower(MAGDALENA.nombre)| == 9 && Lower(MAGDALENA.nombre)[0] == 'm' && Lower(MAGDALENA.nombre)[1] == 'a';
    }
    else {
      assert DEPARTAMENTOS_COLOMBIA[20] == META;
      assert |Lower(META.nombre)| == 4 && Lower(META.nombre)[0] == 'm' && Lower(META.nombre)[1] == 'e';
    }
  }

  lemma {:induction false} TableSlotOfEntries21To23(i: nat)
    requires 21 <= i < 24
    ensures TableSlot(Lower(DEPARTAMENTOS_COLOMBIA[i].nombre)) == i
  {
    if i == 21 {
      assert DEPARTAMENTOS_COLOMBIA[21] == NARINO;
      assert |Lower(NARINO.nombre)| == 6 && Lower(NARINO.nombre)[0] == 'n' && Lower(NARINO.nombre)[1] == 'a';
    }
    else if i == 22 {
      assert DEPARTAMENTOS_COLOMBIA[22] == NORTE_DE_SANTANDER;
      assert |Lower(NORTE_DE_SANTANDER.nombre)| == 18 && Lower(NORTE_DE_SANTANDER.nombre)[0] == 'n' && Lower(NORTE_DE_SANTANDER.nombre)[1] == 'o';
    }
    else {
      assert DEPARTAMENTOS_COLOMBIA[23] == PUTUMAYO;
      assert |Lower(PUTUMAYO.nombre)| == 8 && Lower(PUTUMAYO.nombre)[0] == 'p' && Lower(PUTUMAYO.nombre)[1] == 'u';
    }
  }

  lemma {:induction false} TableSlotOfEntries24To26(i: nat)
    requires 24 <= i < 27
    ensures TableSlot(Lower(DEPARTAMENTOS_COLOMBIA[i].nombre)) == i
  {
    if i == 24 {
      assert DEPARTAMENTOS_COLOMBIA[24] == QUINDIO;
      assert |Lower(QUINDIO.nombre)| == 7 && Lower(QUINDIO.nombre)[0] == 'q' && Lower(QUINDIO.nombre)[1] == 'u';
    }
    else if i == 25 {
      assert DEPARTAMENTOS_COLOMBIA[25] == RISARALDA;
      assert |Lower(RISARALDA.nombre)| == 9 && Lower(RISARALDA.nombre)[0] == 'r' && Lower(RISARALDA.nombre)[1] == 'i';
    }
    else {
      assert DEPARTAMENTOS_COLOMBIA[26] == SAN_ANDRES;
      assert |Lower(SAN_ANDRES.nombre)| == 24 && Lower(SAN_ANDRES.nombre)[0] == 's' && Lower(SAN_ANDRES.nombre)[1] == 'a';
    }
  }

  lemma {:induction false} TableSlotOfEntries27To29(i: nat)
    requires 27 <= i < 30
    ensures TableSlot(Lower(DEPARTAMENTOS_COLOMBIA[i].nombre)) == i
  {
    if i == 27 {
      assert DEPARTAMENTOS_COLOMBIA[27] == SANTANDER;
      assert |Lower(SANTANDER.nombre)| == 9 && Lower(SANTANDER.nombre)[0] == 's' && Lower(SANTANDER.nombre)[1] == 'a';
    }
    else if i == 28 {
      assert DEPARTAMENTOS_COLOMBIA[28] == SUCRE;
      assert |Lower(SUCRE.nombre)| == 5 && Lower(SUCRE.nombre)[0] == 's' && Lower(SUCRE.nombre)[1] == 'u';
    }
    else {
      assert DEPARTAMENTOS_COLOMBIA[29] == TOLIMA;
      assert |Lower(TOLIMA.nombre)| == 6 && Lower(TOLIMA.nombre)[0] == 't' && Lower(TOLIMA.nombre)[1] == 'o';
    }
  }

  lemma {:induction false} TableSlotOfEntries30To32(i: nat)
    requires 30 <= i < 33
    ensures TableSlot(Lower(DEPARTAMENTOS_COLOMBIA[i].nombre)) == i
  {
    if i == 30 {
      assert DEPARTAMENTOS_COLOMBIA[30] == VALLE_DEL_CAUCA;
      assert |Lower(VALLE_DEL_CAUCA.nombre)| == 15 && Lower(VALLE_DEL_CAUCA.nombre)[0] == 'v' && Lower(VALLE_DEL_CAUCA.nombre)[1] == 'a';
    }
    else if i == 31 {
      assert DEPARTAMENTOS_COLOMBIA[31] == VAUPES;
      assert |Lower(VAUPES.nombre)| == 6 && Lower(VAUPES.nombre)[0] == 'v' && Lower(VAUPES.nombre)[1] == 'a';
    }
    else {
      assert DEPARTAMENTOS_COLOMBIA[32] == VICHADA;
      assert |Lower(VICHADA.nombre)| == 7 && Lower(VICHADA.nombre)[0] == 'v' && Lower(VICHADA.nombre)[1] == 'i';
    }
  }

  lemma TableSlotOfEntry(i: nat)
    requires i < |DEPARTAMENTOS_COLOMBIA|
    ensures TableSlot(Lower(DEPARTAMENTOS_COLOMBIA[i].nombre)) == i
  {
    if i < 3 {
      TableSlotOfEntries0To2(i);
    } else if i < 6 {
      TableSlotOfEntries3To5(i);
    } else if i < 9 {
      TableSlotOfEntries6To8(i);
    } else if i < 12 {
      TableSlotOfEntries9To11(i);
    } else if i < 15 {
      TableSlotOfEntries12To14(i);
    } else if i < 18 {
      TableSlotOfEntries15To17(i);
    } else if i < 21 {
      TableSlotOfEntries18To20(i);
    } else if i < 24 {
      TableSlotOfEntries21To23(i);
    } else if i < 27 {
      TableSlotOfEntries24To26(i);
    } else if i < 30 {
      TableSlotOfEntries27To29(i);
    } else {
      TableSlotOfEntries30To32(i);
    }
  }

  /** No two entries have names that are equal ignoring case, so `find` has at most one candidate. */
  lemma NamesDistinct()
    ensures forall i, j :: 0 <= i < j < |DEPARTAMENTOS_COLOMBIA| ==>
              !SameText(DEPARTAMENTOS_COLOMBIA[i].nombre, DEPARTAMENTOS_COLOMBIA[j].nombre)
  {
    forall i, j | 0 <= i < j < |DEPARTAMENTOS_COLOMBIA|
      ensures !SameText(DEPARTAMENTOS_COLOMBIA[i].nombre, DEPARTAMENTOS_COLOMBIA[j].nombre)
    {
      TableSlotOfEntry(i);
      TableSlotOfEntry(j);
    }
  }

  // ----- the lookups over the table -----

  lemma {:induction false} FindFromIgnoresCase(table: seq<Departamento>, d: string, e: string, from: nat)
    requires from <= |table|
    requires SameText(d, e)
    ensures FindFrom(table, d, from) == FindFrom(table, e, from)
    decreases |table| - from
  {
    if from < |table| {
      FindFromIgnoresCase(table, d, e, from + 1);
    }
  }

  /** All three lookups give the same answers for inputs that differ only in case. */
  lemma LookupsIgnoreCase(d: string, e: string, c: string, c': string)
    requires SameText(d, e) && SameText(c, c')
    ensures GetCiudadesPorDepartamento(d) == GetCiudadesPorDepartamento(e)
    ensures EsDepartamentoValido(d) <==> EsDepartamentoValido(e)
    ensures EsCiudadValidaEnDepartamento(c, d) <==> EsCiudadValidaEnDepartamento(c', e)
  {
    FindFromIgnoresCase(DEPARTAMENTOS_COLOMBIA, d, e, 0);
  }

  /** In particular, lowering the inputs first changes nothing. */
  lemma LookupsOfLowered(d: string, c: string)
    ensures GetCiudadesPorDepartamento(Lower(d)) == GetCiudadesPorDepartamento(d)
    ensures EsDepartamentoValido(Lower(d)) <==> EsDepartamentoValido(d)
    ensures EsCiudadValidaEnDepartamento(Lower(c), Lower(d)) <==> EsCiudadValidaEnDepartamento(c, d)
  {
    LowerIdempotent(d);
    LowerIdempotent(c);
    LookupsIgnoreCase(Lower(d), d, Lower(c), c);
  }

  /** A name that is recognised by no slot matches no entry. */
  lemma UnknownDepartment(departamento: string)
    requires TableSlot(Lower(departamento)) == -1
    ensures !EsDepartamentoValido(departamento)
    ensures GetCiudadesPorDepartamento(departamento) == []
  {
    forall i: int
      ensures !EntryMatches(i, departamento)
    {
      if 0 <= i < |DEPARTAMENTOS_COLOMBIA| {
        TableSlotOfEntry(i);
      }
    }
  }

  // ----- concrete cases -----

  lemma MedellinInAntioquia()
    ensures EsCiudadValidaEnDepartamento("Medellín", "Antioquia")
  {
    assert DEPARTAMENTOS_COLOMBIA[1] == ANTIOQUIA;
    assert EntryMatches(1, "Antioquia");
    assert SameText(DEPARTAMENTOS_COLOMBIA[1].ciudades[0], "Medellín");
  }

  lemma CaliInValleDelCaucaAnyCase()
    ensures EsCiudadValidaEnDepartamento("cali", "VALLE DEL CAUCA")
  {
    assert DEPARTAMENTOS_COLOMBIA[30] == VALLE_DEL_CAUCA;
    assert EntryMatches(30, "VALLE DEL CAUCA");
    assert SameText(DEPARTAMENTOS_COLOMBIA[30].ciudades[0], "cali");
  }

  lemma MedellinNotInCundinamarca()
    ensures EsDepartamentoValido("Cundinamarca")
    ensures !EsCiudadValidaEnDepartamento("Medellín", "Cundinamarca")
  {
    assert DEPARTAMENTOS_COLOMBIA[14] == CUNDINAMARCA;
    forall k | 0 <= k < |CUNDINAMARCA.ciudades|
      ensures !SameText(CUNDINAMARCA.ciudades[k], "Medellín")
    {
      assert Lower(CUNDINAMARCA.ciudades[k])[1] != Lower("Medellín")[1]
          || Lower(CUNDINAMARCA.ciudades[k])[0] != Lower("Medellín")[0];
    }
    assert EntryMatches(14, "Cundinamarca");
  }

  /** City names repeat across departments: Villanueva is in Casanare ... */
  lemma VillanuevaInCasanare()
    ensures EsCiudadValidaEnDepartamento("Villanueva", "Casanare")
  {
    assert DEPARTAMENTOS_COLOMBIA[9] == CASANARE;
    assert EntryMatches(9, "Casanare");
    assert SameText(DEPARTAMENTOS_COLOMBIA[9].ciudades[2], "Villanueva");
  }

  /** ... and in La Guajira. */
  lemma VillanuevaInLaGuajira()
    ensures EsCiudadValidaEnDepartamento("Villanueva", "La Guajira")
  {
    assert DEPARTAMENTOS_COLOMBIA[18] == LA_GUAJIRA;
    assert EntryMatches(18, "La Guajira");
    assert SameText(DEPARTAMENTOS_COLOMBIA[18].ciudades[5], "Villanueva");
  }

  lemma InvalidDepartmentExample()
    ensures !EsDepartamentoValido("Departamento Inválido")
    ensures GetCiudadesPorDepartamento("Departamento Inválido") == []
    ensures !EsCiudadValidaEnDepartamento("Medellín", "Departamento Inválido")
  {
    UnknownDepartment("Departamento Inválido");
  }
}
