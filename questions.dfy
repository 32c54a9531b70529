/**
 * The question record and the two-category table (src/data/questions.ts).
 * The table is transcribed as data; its invariants (unique ids, four
 * options, the answer among the options, 31 questions per category) are
 * proved below because the single-player bookkeeping relies on them.
 */
module Questions {
  import opened Text

  datatype Question = Question(id: string, question: string, options: seq<string>, answer: string)

  /** The answer the question card reports when its countdown runs out (components/QuestionCard.tsx:61). */
  const TIMEOUT_ANSWER: string := "__TIMEOUT__"

  /** Four options, the answer is one of them, and it is never the timeout sentinel. */
  ghost predicate WellFormed(q: Question) {
    |q.options| == 4 && q.answer in q.options && q.answer != TIMEOUT_ANSWER
  }

  const INGENIERIA: seq<Question> := [
    Question("ing1", "¿Qué es un algoritmo?",
      ["Conjunto de pasos", "Un lenguaje", "Un diagrama", "Una variable"],
      "Conjunto de pasos"),
    Question("ing2", "Unidad básica de datos en programación:",
      ["Variable", "Array", "Bit", "Función"],
      "Bit"),
    Question("ing3", "¿Qué significa \"CPU\"?",
      ["Central Process Unit", "Central Processing Unit", "Control Program Unit", "Computer Power Unit"],
      "Central Processing Unit"),
    Question("ing4", "¿Cuál de los siguientes es un lenguaje de programación?",
      ["Python", "HTML", "CSS", "SQL"],
      "Python"),
    Question("ing5", "En bases de datos, SQL se utiliza para:",
      ["Estilos de página", "Diseño gráfico", "Administrar datos", "Compilar código"],
      "Administrar datos"),
    Question("ing6", "Un diagrama de flujo se utiliza para:",
      ["Representar procesos", "Guardar datos", "Compilar programas", "Diseñar hardware"],
      "Representar procesos"),
    Question("ing7", "¿Qué significa \"bug\" en programación?",
      ["Un programa", "Un error", "Una actualización", "Un lenguaje"],
      "Un error"),
    Question("ing8", "¿Cuál es la base del sistema binario?",
      ["0 y 1", "1 y 2", "2 y 3", "10 y 11"],
      "0 y 1"),
    Question("ing9", "La memoria RAM se utiliza para:",
      ["Almacenamiento temporal", "Almacenamiento permanente", "Gráficos", "Energía"],
      "Almacenamiento temporal"),
    Question("ing10", "¿Qué es un compilador?",
      ["Un programa que traduce código fuente a lenguaje máquina", "Un lenguaje de programación", "Un editor de texto", "Un sistema operativo"],
      "Un programa que traduce código fuente a lenguaje máquina"),
    Question("ing11", "En ingeniería de software, UML se utiliza para:",
      ["Diseñar diagramas", "Compilar código", "Optimizar hardware", "Depurar programas"],
      "Diseñar diagramas"),
    Question("ing12", "¿Qué es un sistema operativo?",
      ["Un tipo de hardware", "Software base del sistema", "Un lenguaje", "Un compilador"],
      "Software base del sistema"),
    Question("ing13", "¿Qué es una variable?",
      ["Un valor fijo", "Un dato que cambia", "Un algoritmo", "Una función"],
      "Un dato que cambia"),
    Question("ing14", "HTML se utiliza para:",
      ["Diseño", "Bases de datos", "Estructurar páginas web", "Compilar código"],
      "Estructurar páginas web"),
    Question("ing15", "¿Qué es un bit?",
      ["Unidad mínima de información", "Un archivo", "Una interacción", "Un número decimal"],
      "Unidad mínima de información"),
    Question("ing16", "¿Qué es una función?",
      ["Un proceso reutilizable", "Un archivo", "Una memoria", "Un compilador"],
      "Un proceso reutilizable"),
    Question("ing17", "¿Qué permite un bucle “for”?",
      ["Repetir acciones", "Declarar variables", "Conectar servidores", "Renderizar gráficos"],
      "Repetir acciones"),
    Question("ing18", "¿Qué es una API?",
      ["Un hardware", "Un servidor", "Un puente entre sistemas", "Un algoritmo"],
      "Un puente entre sistemas"),
    Question("ing19", "La nube (cloud) permite:",
      ["Almacenar datos online", "Crear virus", "Mejorar gráficos", "Apagar computadoras"],
      "Almacenar datos online"),
    Question("ing20", "¿Cuál NO es un lenguaje de programación?",
      ["Java", "C++", "Ruby", "WiFi"],
      "WiFi"),
    Question("ing21", "¿Qué es un servidor?",
      ["Una computadora que provee servicios", "Un smartphone", "Un algoritmo", "Un lenguaje de programación"],
      "Una computadora que provee servicios"),
    Question("ing22", "CSS sirve para:",
      ["Estilos visuales", "Bases de datos", "Compilar código", "Realidad virtual"],
      "Estilos visuales"),
    Question("ing23", "La red LAN se refiere a:",
      ["Red global", "Red local", "Red satelital", "Red telefónica"],
      "Red local"),
    Question("ing24", "¿Qué es Git?",
      ["Un servidor", "Un lenguaje", "Un sistema de control de versiones", "Una base de datos"],
      "Un sistema de control de versiones"),
    Question("ing25", "¿Qué es un archivo .exe?",
      ["Un archivo ejecutable", "Un archivo comprimido", "Un archivo de texto", "Un archivo de imagen"],
      "Un archivo ejecutable"),
    Question("ing26", "¿Cuál es un lenguaje orientado a objetos?",
      ["Java", "HTML", "CSS", "Markdown"],
      "Java"),
    Question("ing27", "¿Qué es un framework?",
      ["Un conjunto de herramientas", "Un compilador", "Un sistema operativo", "Un diagrama"],
      "Un conjunto de herramientas"),
    Question("ing28", "¿Qué es un “array”?",
      ["Una variable simple", "Un conjunto de datos", "Un servidor", "Un pixel"],
      "Un conjunto de datos"),
    Question("ing29", "¿Qué significa HTTP?",
      ["HyperText Transfer Protocol", "High Transmission Packet Processor", "Host Transfer Tunnel Platform", "Hardware Transfer Protocol"],
      "HyperText Transfer Protocol"),
    Question("ing30", "¿Qué es un “debugger”?",
      ["Un editor", "Un analizador de errores", "Una red", "Un sistema operativo"],
      "Un analizador de errores"),
    Question("ing31", "¿Cuál es un tipo de dato?",
      ["Entero", "Pantalla", "Servidor", "Internet"],
      "Entero")
  ]

  const MEDICINA: seq<Question> := [
    Question("med1", "¿Cuál es el órgano más grande del cuerpo humano?",
      ["Piel", "Hígado", "Corazón", "Cerebro"],
      "Piel"),
    Question("med2", "La sangre está compuesta principalmente por:",
      ["Células", "Agua", "Plaquetas", "Plasma"],
      "Plasma"),
    Question("med3", "¿Dónde se produce la insulina?",
      ["Hígado", "Páncreas", "Riñón", "Estómago"],
      "Páncreas"),
    Question("med4", "¿Cuál es la función principal de los glóbulos rojos?",
      ["Defender el cuerpo", "Transportar oxígeno", "Formar coágulos", "Regular hormonas"],
      "Transportar oxígeno"),
    Question("med5", "¿Qué hueso protege al cerebro?",
      ["Craneo", "Columna vertebral", "Costillas", "Mandíbula"],
      "Craneo"),
    Question("med6", "¿Cómo se llama el proceso de división celular?",
      ["Meiosis", "Fisión", "Mitosis", "Clonación"],
      "Mitosis"),
    Question("med7", "¿Qué tipo de sangre se considera donante universal?",
      ["A+", "O-", "B+", "AB+"],
      "O-"),
    Question("med8", "¿Cuál es el órgano encargado de filtrar la sangre?",
      ["Riñón", "Pulmón", "Hígado", "Bazo"],
      "Riñón"),
    Question("med9", "El corazón está dividido en:",
      ["2 cavidades", "3 cavidades", "4 cavidades", "5 cavidades"],
      "4 cavidades"),
    Question("med10", "¿Cuál es la unidad funcional del riñón?",
      ["Glomérulo", "Nefrona", "Alvéolo", "Neurona"],
      "Nefrona"),
    Question("med11", "¿Qué vitamina se produce con la exposición al sol?",
      ["Vitamina A", "Vitamina C", "Vitamina D", "Vitamina K"],
      "Vitamina D"),
    Question("med12", "¿Qué órgano bombea la sangre?",
      ["Pulmón", "Hígado", "Corazón", "Riñón"],
      "Corazón"),
    Question("med13", "¿Dónde se encuentran los alveolos?",
      ["Hígado", "Pulmones", "Estómago", "Corazón"],
      "Pulmones"),
    Question("med14", "¿Qué tipo de tejido cubre superficies del cuerpo?",
      ["Epitelial", "Óseo", "Muscular", "Nervioso"],
      "Epitelial"),
    Question("med15", "¿Qué órgano produce bilis?",
      ["Corazón", "Páncreas", "Hígado", "Riñón"],
      "Hígado"),
    Question("med16", "¿Qué componente transporta oxígeno en la sangre?",
      ["Plaquetas", "Plasma", "Glóbulos rojos", "Glóbulos blancos"],
      "Glóbulos rojos"),
    Question("med17", "¿Qué parte del ojo controla la cantidad de luz?",
      ["Iris", "Retina", "Córnea", "Cristalino"],
      "Iris"),
    Question("med18", "¿Qué hueso es el más largo del cuerpo?",
      ["Fémur", "Húmero", "Tibia", "Radio"],
      "Fémur"),
    Question("med19", "¿Qué sistema controla movimientos voluntarios?",
      ["Endocrino", "Digestivo", "Nervioso", "Respiratorio"],
      "Nervioso"),
    Question("med20", "¿Dónde ocurre la digestión química inicial?",
      ["Boca", "Intestino grueso", "Esófago", "Tráquea"],
      "Boca"),
    Question("med21", "¿Qué parte del cerebro coordina el equilibrio?",
      ["Bulbo", "Cerebelo", "Hipotálamo", "Tronco"],
      "Cerebelo"),
    Question("med22", "¿Cuántos huesos tiene el cuerpo humano adulto?",
      ["106", "206", "150", "300"],
      "206"),
    Question("med23", "¿Qué estructura conecta músculo y hueso?",
      ["Ligamento", "Tendón", "Cartílago", "Fascia"],
      "Tendón"),
    Question("med24", "¿Qué célula combate infecciones?",
      ["Plaquetas", "Glóbulos blancos", "Neurona", "Eritrocito"],
      "Glóbulos blancos"),
    Question("med25", "¿Qué órgano regula la temperatura corporal?",
      ["Hígado", "Hipotálamo", "Corazón", "Bazo"],
      "Hipotálamo"),
    Question("med26", "¿El páncreas produce?",
      ["Insulina", "Bilis", "Urea", "Adrenalina"],
      "Insulina"),
    Question("med27", "¿Qué estructura permite el intercambio gaseoso?",
      ["Bronquios", "Alvéolos", "Tráquea", "Diafragma"],
      "Alvéolos"),
    Question("med28", "¿Qué es la anemia?",
      ["Exceso de oxígeno", "Deficiencia de glóbulos rojos", "Fiebre alta", "Inflamación del hígado"],
      "Deficiencia de glóbulos rojos"),
    Question("med29", "¿Cuál es la función principal del hígado?",
      ["Bombear sangre", "Filtrar toxinas", "Regular hormonas", "Transmitir impulsos"],
      "Filtrar toxinas"),
    Question("med30", "¿Dónde se almacena la orina?",
      ["Riñón", "Uréter", "Vejiga", "Intestino"],
      "Vejiga"),
    Question("med31", "¿Qué vitamina es esencial para la coagulación?",
      ["Vitamina K", "Vitamina E", "Vitamina B12", "Vitamina C"],
      "Vitamina K")
  ]

  lemma IngenieriaBlock0(i: nat)
    requires 0 <= i < 2 <= |INGENIERIA|
    ensures WellFormed(INGENIERIA[i]) && INGENIERIA[i].id == "ing" + NatText(i + 1)
  {
    if i == 0 {} else {}
  }

  lemma IngenieriaBlock2(i: nat)
    requires 2 <= i < 4 <= |INGENIERIA|
    ensures WellFormed(INGENIERIA[i]) && INGENIERIA[i].id == "ing" + NatText(i + 1)
  {
    if i == 2 {} else {}
  }

  lemma IngenieriaBlock4(i: nat)
    requires 4 <= i < 6 <= |INGENIERIA|
    ensures WellFormed(INGENIERIA[i]) && INGENIERIA[i].id == "ing" + NatText(i + 1)
  {
    if i == 4 {} else {}
  }

  lemma IngenieriaBlock6(i: nat)
    requires 6 <= i < 8 <= |INGENIERIA|
    ensures WellFormed(INGENIERIA[i]) && INGENIERIA[i].id == "ing" + NatText(i + 1)
  {
    if i == 6 {} else {}
  }

  lemma IngenieriaBlock8(i: nat)
    requires 8 <= i < 10 <= |INGENIERIA|
    ensures WellFormed(INGENIERIA[i]) && INGENIERIA[i].id == "ing" + NatText(i + 1)
  {
    if i == 8 {} else {}
  }

  lemma IngenieriaBlock10(i: nat)
    requires 10 <= i < 12 <= |INGENIERIA|
    ensures WellFormed(INGENIERIA[i]) && INGENIERIA[i].id == "ing" + NatText(i + 1)
  {
    if i == 10 {} else {}
  }

  lemma IngenieriaBlock12(i: nat)
    requires 12 <= i < 14 <= |INGENIERIA|
    ensures WellFormed(INGENIERIA[i]) && INGENIERIA[i].id == "ing" + NatText(i + 1)
  {
    if i == 12 {} else {}
  }

  lemma IngenieriaBlock14(i: nat)
    requires 14 <= i < 16 <= |INGENIERIA|
    ensures WellFormed(INGENIERIA[i]) && INGENIERIA[i].id == "ing" + NatText(i + 1)
  {
    if i == 14 {} else {}
  }

  lemma IngenieriaBlock16(i: nat)
    requires 16 <= i < 18 <= |INGENIERIA|
    ensures WellFormed(INGENIERIA[i]) && INGENIERIA[i].id == "ing" + NatText(i + 1)
  {
    if i == 16 {} else {}
  }

  lemma IngenieriaBlock18(i: nat)
    requires 18 <= i < 20 <= |INGENIERIA|
    ensures WellFormed(INGENIERIA[i]) && INGENIERIA[i].id == "ing" + NatText(i + 1)
  {
    if i == 18 {} else {}
  }

  lemma IngenieriaBlock20(i: nat)
    requires 20 <= i < 22 <= |INGENIERIA|
    ensures WellFormed(INGENIERIA[i]) && INGENIERIA[i].id == "ing" + NatText(i + 1)
  {
    if i == 20 {} else {}
  }

  lemma IngenieriaBlock22(i: nat)
    requires 22 <= i < 24 <= |INGENIERIA|
    ensures WellFormed(INGENIERIA[i]) && INGENIERIA[i].id == "ing" + NatText(i + 1)
  {
    if i == 22 {} else {}
  }

  lemma IngenieriaBlock24(i: nat)
    requires 24 <= i < 26 <= |INGENIERIA|
    ensures WellFormed(INGENIERIA[i]) && INGENIERIA[i].id == "ing" + NatText(i + 1)
  {
    if i == 24 {} else {}
  }

  lemma IngenieriaBlock26(i: nat)
    requires 26 <= i < 28 <= |INGENIERIA|
    ensures WellFormed(INGENIERIA[i]) && INGENIERIA[i].id == "ing" + NatText(i + 1)
  {
    if i == 26 {} else {}
  }

  lemma IngenieriaBlock28(i: nat)
    requires 28 <= i < 30 <= |INGENIERIA|
    ensures WellFormed(INGENIERIA[i]) && INGENIERIA[i].id == "ing" + NatText(i + 1)
  {
    if i == 28 {} else {}
  }

  lemma IngenieriaBlock30(i: nat)
    requires 30 <= i < 31 <= |INGENIERIA|
    ensures WellFormed(INGENIERIA[i]) && INGENIERIA[i].id == "ing" + NatText(i + 1)
  {
  }

  /** Every Ingenieria question is well formed and its id is "ing" followed by its 1-based position. */
  lemma IngenieriaFacts()
    ensures |INGENIERIA| == 31
    ensures forall i :: 0 <= i < |INGENIERIA| ==> WellFormed(INGENIERIA[i]) && INGENIERIA[i].id == "ing" + NatText(i + 1)
  {
    forall i | 0 <= i < |INGENIERIA| ensures WellFormed(INGENIERIA[i]) && INGENIERIA[i].id == "ing" + NatText(i + 1) {
      if i < 2 { IngenieriaBlock0(i); }
      else if i < 4 { IngenieriaBlock2(i); }
      else if i < 6 { IngenieriaBlock4(i); }
      else if i < 8 { IngenieriaBlock6(i); }
      else if i < 10 { IngenieriaBlock8(i); }
      else if i < 12 { IngenieriaBlock10(i); }
      else if i < 14 { IngenieriaBlock12(i); }
      else if i < 16 { IngenieriaBlock14(i); }
      else if i < 18 { IngenieriaBlock16(i); }
      else if i < 20 { IngenieriaBlock18(i); }
      else if i < 22 { IngenieriaBlock20(i); }
      else if i < 24 { IngenieriaBlock22(i); }
      else if i < 26 { IngenieriaBlock24(i); }
      else if i < 28 { IngenieriaBlock26(i); }
      else if i < 30 { IngenieriaBlock28(i); }
      else { IngenieriaBlock30(i); }
    }
  }

  lemma MedicinaBlock0(i: nat)
    requires 0 <= i < 2 <= |MEDICINA|
    ensures WellFormed(MEDICINA[i]) && MEDICINA[i].id == "med" + NatText(i + 1)
  {
    if i == 0 {} else {}
  }

  lemma MedicinaBlock2(i: nat)
    requires 2 <= i < 4 <= |MEDICINA|
    ensures WellFormed(MEDICINA[i]) && MEDICINA[i].id == "med" + NatText(i + 1)
  {
    if i == 2 {} else {}
  }

  lemma MedicinaBlock4(i: nat)
    requires 4 <= i < 6 <= |MEDICINA|
    ensures WellFormed(MEDICINA[i]) && MEDICINA[i].id == "med" + NatText(i + 1)
  {
    if i == 4 {} else {}
  }

  lemma MedicinaBlock6(i: nat)
    requires 6 <= i < 8 <= |MEDICINA|
    ensures WellFormed(MEDICINA[i]) && MEDICINA[i].id == "med" + NatText(i + 1)
  {
    if i == 6 {} else {}
  }

  lemma MedicinaBlock8(i: nat)
    requires 8 <= i < 10 <= |MEDICINA|
    ensures WellFormed(MEDICINA[i]) && MEDICINA[i].id == "med" + NatText(i + 1)
  {
    if i == 8 {} else {}
  }

  lemma MedicinaBlock10(i: nat)
    requires 10 <= i < 12 <= |MEDICINA|
    ensures WellFormed(MEDICINA[i]) && MEDICINA[i].id == "med" + NatText(i + 1)
  {
    if i == 10 {} else {}
  }

  lemma MedicinaBlock12(i: nat)
    requires 12 <= i < 14 <= |MEDICINA|
    ensures WellFormed(MEDICINA[i]) && MEDICINA[i].id == "med" + NatText(i + 1)
  {
    if i == 12 {} else {}
  }

  lemma MedicinaBlock14(i: nat)
    requires 14 <= i < 16 <= |MEDICINA|
    ensures WellFormed(MEDICINA[i]) && MEDICINA[i].id == "med" + NatText(i + 1)
  {
    if i == 14 {} else {}
  }

  lemma MedicinaBlock16(i: nat)
    requires 16 <= i < 18 <= |MEDICINA|
    ensures WellFormed(MEDICINA[i]) && MEDICINA[i].id == "med" + NatText(i + 1)
  {
    if i == 16 {} else {}
  }

  lemma MedicinaBlock18(i: nat)
    requires 18 <= i < 20 <= |MEDICINA|
    ensures WellFormed(MEDICINA[i]) && MEDICINA[i].id == "med" + NatText(i + 1)
  {
    if i == 18 {} else {}
  }

  lemma MedicinaBlock20(i: nat)
    requires 20 <= i < 22 <= |MEDICINA|
    ensures WellFormed(MEDICINA[i]) && MEDICINA[i].id == "med" + NatText(i + 1)
  {
    if i == 20 {} else {}
  }

  lemma MedicinaBlock22(i: nat)
    requires 22 <= i < 24 <= |MEDICINA|
    ensures WellFormed(MEDICINA[i]) && MEDICINA[i].id == "med" + NatText(i + 1)
  {
    if i == 22 {} else {}
  }

  lemma MedicinaBlock24(i: nat)
    requires 24 <= i < 26 <= |MEDICINA|
    ensures WellFormed(MEDICINA[i]) && MEDICINA[i].id == "med" + NatText(i + 1)
  {
    if i == 24 {} else {}
  }

  lemma MedicinaBlock26(i: nat)
    requires 26 <= i < 28 <= |MEDICINA|
    ensures WellFormed(MEDICINA[i]) && MEDICINA[i].id == "med" + NatText(i + 1)
  {
    if i == 26 {} else {}
  }

  lemma MedicinaBlock28(i: nat)
    requires 28 <= i < 30 <= |MEDICINA|
    ensures WellFormed(MEDICINA[i]) && MEDICINA[i].id == "med" + NatText(i + 1)
  {
    if i == 28 {} else {}
  }

  lemma MedicinaBlock30(i: nat)
    requires 30 <= i < 31 <= |MEDICINA|
    ensures WellFormed(MEDICINA[i]) && MEDICINA[i].id == "med" + NatText(i + 1)
  {
  }

  /** Every Medicina question is well formed and its id is "med" followed by its 1-based position. */
  lemma MedicinaFacts()
    ensures |MEDICINA| == 31
    ensures forall i :: 0 <= i < |MEDICINA| ==> WellFormed(MEDICINA[i]) && MEDICINA[i].id == "med" + NatText(i + 1)
  {
    forall i | 0 <= i < |MEDICINA| ensures WellFormed(MEDICINA[i]) && MEDICINA[i].id == "med" + NatText(i + 1) {
      if i < 2 { MedicinaBlock0(i); }
      else if i < 4 { MedicinaBlock2(i); }
      else if i < 6 { MedicinaBlock4(i); }
      else if i < 8 { MedicinaBlock6(i); }
      else if i < 10 { MedicinaBlock8(i); }
      else if i < 12 { MedicinaBlock10(i); }
      else if i < 14 { MedicinaBlock12(i); }
      else if i < 16 { MedicinaBlock14(i); }
      else if i < 18 { MedicinaBlock16(i); }
      else if i < 20 { MedicinaBlock18(i); }
      else if i < 22 { MedicinaBlock20(i); }
      else if i < 24 { MedicinaBlock22(i); }
      else if i < 26 { MedicinaBlock24(i); }
      else if i < 28 { MedicinaBlock26(i); }
      else if i < 30 { MedicinaBlock28(i); }
      else { MedicinaBlock30(i); }
    }
  }

  // ---------------------------------------------------------------------
  // The table as a whole
  // ---------------------------------------------------------------------

  /** QUESTIONS: category name to its pool (src/data/questions.ts:8-430). */
  const QUESTIONS: map<string, seq<Question>> := map["Ingenieria" := INGENIERIA, "Medicina" := MEDICINA]

  /** Object.keys(QUESTIONS): the categories in the order they are written. */
  const CATEGORIES: seq<string> := ["Ingenieria", "Medicina"]

  /** Object.values(QUESTIONS).flat(): every question, category by category. */
  function AllQuestions(): seq<Question> {
    INGENIERIA + MEDICINA
  }

  /** The ids of a list of questions. */
  function IdsOf(qs: seq<Question>): set<string>
    decreases |qs|
  {
    if qs == [] then {} else {qs[0].id} + IdsOf(qs[1..])
  }

  ghost predicate DistinctIds(qs: seq<Question>) {
    forall i, j :: 0 <= i < j < |qs| ==> qs[i].id != qs[j].id
  }

  /** There are exactly two categories, listed in the order of the table. */
  lemma CategoriesOfTable()
    ensures QUESTIONS.Keys == {"Ingenieria", "Medicina"}
    ensures |CATEGORIES| == 2 && CATEGORIES[0] != CATEGORIES[1]
    ensures forall c :: c in QUESTIONS <==> c in CATEGORIES
  {
  }

  /** 31 questions per category, 62 in all. */
  lemma TableSize()
    ensures |QUESTIONS["Ingenieria"]| == 31 && |QUESTIONS["Medicina"]| == 31
    ensures |AllQuestions()| == 62
  {
    IngenieriaFacts();
    MedicinaFacts();
  }

  /** Every question in the table is well formed. */
  lemma AllWellFormed()
    ensures forall q :: q in AllQuestions() ==> WellFormed(q)
  {
    IngenieriaFacts();
    MedicinaFacts();
    forall q | q in AllQuestions() ensures WellFormed(q) {
      var k :| 0 <= k < |AllQuestions()| && AllQuestions()[k] == q;
      if k < |INGENIERIA| {
        assert q == INGENIERIA[k];
      } else {
        assert q == MEDICINA[k - |INGENIERIA|];
      }
    }
  }

  lemma PrefixedTextsDiffer(p: string, m: nat, n: nat)
    requires m != n
    ensures p + NatText(m) != p + NatText(n)
  {
    if p + NatText(m) == p + NatText(n) {
      assert (p + NatText(m))[|p|..] == NatText(m);
      assert (p + NatText(n))[|p|..] == NatText(n);
      NatTextInjective(m, n);
    }
  }

  /** No id appears twice in the whole table. */
  lemma UniqueIds()
    ensures DistinctIds(AllQuestions())
  {
    IngenieriaFacts();
    MedicinaFacts();
    var all := AllQuestions();
    forall i, j | 0 <= i < j < |all| ensures all[i].id != all[j].id {
      var n := |INGENIERIA|;
      if j < n {
        assert all[i] == INGENIERIA[i] && all[j] == INGENIERIA[j];
        PrefixedTextsDiffer("ing", i + 1, j + 1);
      } else if n <= i {
        assert all[i] == MEDICINA[i - n] && all[j] == MEDICINA[j - n];
        PrefixedTextsDiffer("med", i - n + 1, j - n + 1);
      } else {
        assert all[i] == INGENIERIA[i] && all[j] == MEDICINA[j - n];
        assert all[i].id[0] == 'i' && all[j].id[0] == 'm';
      }
    }
  }

  lemma {:induction false} IdsOfDistinct(qs: seq<Question>)
    requires DistinctIds(qs)
    ensures |IdsOf(qs)| == |qs|
    ensures forall q :: q in qs ==> q.id in IdsOf(qs)
    decreases |qs|
  {
    if qs != [] {
      assert DistinctIds(qs[1..]);
      IdsOfDistinct(qs[1..]);
      if qs[0].id in IdsOf(qs[1..]) {
        var j := IdIndex(qs[1..], qs[0].id);  // a second element with the first one's id
        assert false;
      }
      forall q | q in qs ensures q.id in IdsOf(qs) {
        if q != qs[0] {
          assert q in qs[1..];
        }
      }
    }
  }

  /** Where an id of IdsOf(qs) sits in qs. */
  lemma {:induction false} IdIndex(qs: seq<Question>, id: string) returns (j: nat)
    requires id in IdsOf(qs)
    ensures j < |qs| && qs[j].id == id
    decreases |qs|
  {
    if qs[0].id == id {
      j := 0;
    } else {
      var k := IdIndex(qs[1..], id);
      j := k + 1;
    }
  }

  /** The set of all ids: what the single-player used-id set fills up towards. */
  function AllIds(): set<string> {
    IdsOf(AllQuestions())
  }

  /** The table holds 62 distinct ids, and every question's id is among them. */
  lemma AllIdsCount()
    ensures |AllIds()| == 62 == |AllQuestions()|
    ensures forall q :: q in AllQuestions() ==> q.id in AllIds()
  {
    UniqueIds();
    TableSize();
    IdsOfDistinct(AllQuestions());
  }

  /** Each category's pool is part of the flat list, so its ids are table ids. */
  lemma PoolsInTable(category: string)
    requires category in QUESTIONS
    ensures forall q :: q in QUESTIONS[category] ==> q in AllQuestions()
  {
  }

  /** What a draw from one category's pool may rely on. */
  lemma PoolFacts(category: string)
    requires category in QUESTIONS
    ensures |QUESTIONS[category]| == 31
    ensures forall q :: q in QUESTIONS[category] ==> q in AllQuestions() && WellFormed(q)
  {
    TableSize();
    AllWellFormed();
  }

  /** The timeout sentinel is no question's answer, so a timeout always scores as a miss. */
  lemma TimeoutNeverCorrect(q: Question)
    requires q in AllQuestions()
    ensures TIMEOUT_ANSWER != q.answer
  {
    AllWellFormed();
  }
}
