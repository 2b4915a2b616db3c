/** The level test page: the user ticks items of a level's checklist and the
    page recommends a level (for the general test) or comments on the user's
    fitness for the chosen level. */
module Niveles {
  import opened Common
  import opened Lists

  datatype Nivel = Nivel(
    nombre: string,
    title: string,
    number: nat,
    subtitle: string,
    listTest: seq<string>,
    listTemario: seq<string>)

  /** The five levels, in the order the page lists them. */
  const NivelesTable: seq<Nivel> := [
    Nivel("test", "POR DETERMINAR", 0,
      "Selecciona según tus conocimientos para saber a qué nivel debes acudir:",
      ["Paso básico", "Giro derecha", "Cross", "Cross con giro", "Copa", "Figuras complejas"],
      []),
    Nivel("principiantes", "PRINCIPIANTES", 1, "Nivel de aptitud:",
      ["Deseo aprender", "Quiero divertirme", "Soy constante", "Presto atención", "Soy paciente"],
      ["Básicos de bachata", "Básicos de kizomba", "Giros pivotados", "Cross con giro", "Copa"]),
    Nivel("intermedio", "INTERMEDIO", 2, "Lo que sé hacer:",
      ["Paso básico", "Giros pivotados", "Cross", "Cross con giro", "Copa"],
      ["Figuras simples", "Ondas en Bachata", "Contragiros", "Cross giro frenado", "Figuras con Copa"]),
    Nivel("avanzado", "AVANZADO", 3, "Lo que sé hacer:",
      ["Vueltas rápidas", "Giros dobles", "360", "Cross con giro", "Copa"],
      ["Figuras complejas", "Corporales en Bachata", "Pasos libres", "Cross giro frenado", "360"]),
    Nivel("kizomba", "KIZOMBA", 4, "Nivel de aptitud:",
      ["No tengo ni idea", "Tengo nivel medio", "Se los pasos básicos", "Escucho con atención", "Soy paciente"],
      ["Figuras de kizomba", "Figuras de urban-kizz", "Técnicas de control del eje",
       "Técnicas para lideres", "Técnicas para followers"])
  ]

  const NoSelection := "No has seleccionado ninguna casilla."
  const TestNoSelection := "No has seleccionado ninguna casilla. El nivel que mejor se adapta a ti es: PRINCIPIANTES"
  const TestPrincipiantes := "El nivel que mejor se adapta a ti es: PRINCIPIANTES"
  const TestPrincipiantesCopa := "El nivel que mejor se adapta a ti es: PRINCIPIANTES."
    + " Ahí te enseñaremos la copa, para que puedas asistir al nievel intermedio."
  const TestIntermedio := "El nivel que mejor se adapta a ti es: INTERMEDIO"
  const TestAvanzado := "El nivel que mejor se adapta a ti es: AVANZADO"
  const TestAvanzadoSinCopa := "El nivel que mejor se adapta a ti es: AVANZADO"
    + " Pero habría que evaluar antes si sabes hacer la Copa."
  const PrincipiantesGenial := "¡Genial! Este es tu momento, con esa actitud vas a disfrutar de cada clase y aprenderás a buen ritmo."
  const PrincipiantesAprovecha := "Aprovecha tu motivación para unirte a nuestras clases, donde el aprendizaje y la diversión van de la mano."
  const NivelGenial := "¡Genial! Sabes los pasos necesarios para atender a este nivel."
  const IntermedioFalta := "El cross con giro es un paso indispensable para poder seguir el ritmo de la clase,"
    + " y la copa es aconsejable saber hacerla aunque no sea perfecta, pues la trabajamos mucho."
    + " Ambos pasos te los enseñamos en el nivel principiantes."
  const AvanzadoFalta := "El cross con giro y la copa son pasos indispensables para poder seguir el ritmo de la clase,"
    + " Ambos pasos te los enseñamos en el nivel principiantes."
  const KizombaSinNivel := "No te preocupes, no es necesario tener conocimientos previos."
  const KizombaConNivel := "Cada mes empezamos con combinaciones nuevas, si te unes a principios de mes no tendrás problema para ponerte al día."

  /** The general test, over "Cross con giro", "Copa" and "Figuras complejas".
      The one selection it does not answer (None) is "Cross con giro" and
      "Figuras complejas" without "Copa". */
  function TestResult(items: seq<string>): (r: Option<string>)
    ensures items == [] ==> r == Some(TestNoSelection)
    ensures items != [] && "Cross con giro" !in items && "Copa" !in items && "Figuras complejas" !in items
            ==> r == Some(TestPrincipiantes)
    ensures "Cross con giro" in items && "Copa" in items && "Figuras complejas" in items
            ==> r == Some(TestAvanzado)
    ensures "Copa" in items && "Figuras complejas" !in items ==> r == Some(TestIntermedio)
    ensures r.None? <==>
              items != [] && "Cross con giro" in items && "Copa" !in items && "Figuras complejas" in items
  {
    var test := NivelesTable[0];
    var c := test.listTest[3] in items;
    var p := test.listTest[4] in items;
    var f := test.listTest[5] in items;
    if |items| == 0 then Some(TestNoSelection)
    else if !c && !p && !f then Some(TestPrincipiantes)
    else if c && !p && !f then Some(TestPrincipiantesCopa)
    else if c && p && !f then Some(TestIntermedio)
    else if c && p && f then Some(TestAvanzado)
    else if f && !c && !p then Some(TestAvanzadoSinCopa)
    else if f && p then Some(TestAvanzado)
    else if p && !f then Some(TestIntermedio)
    else None
  }

  /** The comment for the level chosen; None when the level is not one of the
      five or the general test gives no answer. For the intermediate and
      advanced levels the verdict is positive exactly when both "Cross con giro"
      and "Copa" are ticked, or all five items are; otherwise the comment names
      the two missing steps. For kizomba, ticking "No tengo ni idea" gives the
      reassurance for beginners. */
  function LevelResult(nivel: string, items: seq<string>): (r: Option<string>)
    ensures nivel == "test" ==> r == TestResult(items)
    ensures nivel != "test" && items == [] && r.Some? ==> r == Some(NoSelection)
    ensures (nivel == "intermedio" || nivel == "avanzado") && items != [] ==>
              (r == Some(NivelGenial) <==> ("Cross con giro" in items && "Copa" in items) || |items| == 5)
    ensures nivel == "intermedio" && items != [] && r != Some(NivelGenial) ==> r == Some(IntermedioFalta)
    ensures nivel == "avanzado" && items != [] && r != Some(NivelGenial) ==> r == Some(AvanzadoFalta)
    ensures nivel == "principiantes" && items != [] ==>
              (r == Some(PrincipiantesGenial) <==> |items| > 3)
    ensures nivel == "principiantes" && 1 <= |items| <= 3 ==> r == Some(PrincipiantesAprovecha)
    ensures nivel == "kizomba" && items != [] ==>
              (r == Some(KizombaSinNivel) <==> "No tengo ni idea" in items)
    ensures nivel == "kizomba" && items != [] && "No tengo ni idea" !in items ==> r == Some(KizombaConNivel)
    ensures r.None? <==>
              (nivel !in {"test", "principiantes", "intermedio", "avanzado", "kizomba"}
               || (nivel == "test" && TestResult(items).None?))
  {
    var intermedio := NivelesTable[2];
    var avanzado := NivelesTable[3];
    var kizomba := NivelesTable[4];
    if nivel == "test" then TestResult(items)
    else if nivel == "principiantes" then
      if |items| == 0 then Some(NoSelection)
      else if |items| > 3 then Some(PrincipiantesGenial)
      else Some(PrincipiantesAprovecha)
    else if nivel == "intermedio" then
      if |items| == 0 then Some(NoSelection)
      else if (intermedio.listTest[3] in items && intermedio.listTest[4] in items) || |items| == 5
      then Some(NivelGenial)
      else Some(IntermedioFalta)
    else if nivel == "avanzado" then
      if |items| == 0 then Some(NoSelection)
      else if (avanzado.listTest[3] in items && avanzado.listTest[4] in items) || |items| == 5
      then Some(NivelGenial)
      else Some(AvanzadoFalta)
    else if nivel == "kizomba" then
      if |items| == 0 then Some(NoSelection)
      else if kizomba.listTest[0] in items then Some(KizombaSinNivel)
      else Some(KizombaConNivel)
    else None
  }

  /** `pushSelectedItem(item)` on the list's contents. */
  function Toggle(items: seq<string>, item: string): (r: seq<string>)
    ensures item !in items ==> r == items + [item]
    ensures item in items ==> item !in r && |r| <= |items|
    ensures forall i :: 0 <= i < |items| ==> items[i] in r || items[i] == item
  {
    if item !in items then items + [item] else RemoveAll(items, item)
  }

  /** Ticking an item twice gives the list back. */
  lemma ToggleTwice(items: seq<string>, item: string)
    requires item !in items
    ensures Toggle(Toggle(items, item), item) == items
  {
    RemoveAllAppend(items, [item], item);
    assert RemoveAll([item], item) == [] by {
      assert [item][1..] == [];
    }
    assert items + [] == items;
  }

  /** The list never holds an item twice. */
  lemma ToggleNoDup(items: seq<string>, item: string)
    requires NoDup(items)
    ensures NoDup(Toggle(items, item))
  {
    if item in items {
      RemoveAllNoDup(items, item);
    }
  }

  class NivelesComponent {
    var nivelSelected: string
    var mostrarResultado: bool
    var itemsList: seq<string>
    var resultado: string

    constructor ()
      ensures nivelSelected == "" && !mostrarResultado && itemsList == [] && resultado == ""
    {
      nivelSelected, mostrarResultado, itemsList, resultado := "", false, [], "";
    }

    /** `activarResultado()`: the comment replaces the result when a branch
        fires; the result is shown in any case. */
    method ActivarResultado()
      modifies this
      ensures mostrarResultado
      ensures LevelResult(nivelSelected, itemsList).Some? ==>
                resultado == LevelResult(nivelSelected, itemsList).value
      ensures LevelResult(nivelSelected, itemsList).None? ==> resultado == old(resultado)
      ensures nivelSelected == old(nivelSelected) && itemsList == old(itemsList)
    {
      var r := LevelResult(nivelSelected, itemsList);
      if r.Some? {
        resultado := r.value;
      }
      mostrarResultado := true;
    }

    /** `cerrarResultado()`. */
    method CerrarResultado()
      modifies this
      ensures !mostrarResultado && resultado == ""
      ensures nivelSelected == old(nivelSelected) && itemsList == old(itemsList)
    {
      mostrarResultado := false;
      resultado := "";
    }

    /** `pushSelectedItem(item)`. */
    method PushSelectedItem(item: string)
      modifies this
      ensures itemsList == Toggle(old(itemsList), item)
      ensures nivelSelected == old(nivelSelected) && resultado == old(resultado)
      ensures mostrarResultado == old(mostrarResultado)
    {
      if item !in itemsList {
        itemsList := itemsList + [item];
      } else {
        itemsList := RemoveAll(itemsList, item);
      }
    }

    /** `resetItemList()`. */
    method ResetItemList()
      modifies this
      ensures itemsList == [] && !mostrarResultado && resultado == ""
      ensures nivelSelected == old(nivelSelected)
    {
      itemsList := [];
      CerrarResultado();
    }
  }
}
