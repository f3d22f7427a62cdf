/**
  The submission handler of the Home screen (`handleCalcular`): it checks the form,
  parses and normalises the numbers, runs the four calculators and puts the new record
  at the head of the in-memory list, then clears the name, weight and water fields.
  The parsers `parseFloat` and `parseInt` are parameters: a result None stands for NaN.
*/
module Home {
  import opened Wrappers
  import opened Numeric
  import opened HealthCalculations

  /** One completed assessment; the timestamp id and the formatted date are not modelled. */
  datatype Registro = Registro(
    nome: string, idade: string, genero: string, tipoTrabalho: string, frequenciaExercicio: string,
    peso: real, altura: real,
    imc: real, diagnostico: Diagnosis, cor: string,
    aguaIngerida: Option<real>, aguaMeta: real,
    calorias: int, plano: Plan)

  /** How a submission ended: the missing-data alert, a silent rejection, or a new record. */
  datatype Outcome = Incomplete | Rejected | Recorded

  /** `s.replace(',', '.')`: only the first comma becomes a dot. */
  function ReplaceFirstComma(s: string): (t: string)
    ensures |t| == |s|
    ensures forall i :: 0 <= i < |s| ==> t[i] == (if s[i] == ',' && ',' !in s[..i] then '.' else s[i])
  {
    if s == [] then []
    else if s[0] == ',' then ['.'] + s[1..]
    else
      var rest := ReplaceFirstComma(s[1..]);
      CommaInPrefix(s);
      [s[0]] + rest
  }

  /** A prefix of a string without a leading comma has a comma exactly when the tail's prefix has. */
  lemma CommaInPrefix(s: string)
    requires |s| > 0 && s[0] != ','
    ensures forall i :: 1 <= i <= |s| ==> (',' in s[..i] <==> ',' in s[1..][..i - 1])
  {
    forall i | 1 <= i <= |s|
      ensures ',' in s[..i] <==> ',' in s[1..][..i - 1]
    {
      assert s[..i] == [s[0]] + s[1..][..i - 1];
    }
  }

  /** A decimal field parsed after its comma is turned into a dot. */
  function ParseDecimal(parseFloat: string -> Option<real>, s: string): Option<real>
  {
    parseFloat(ReplaceFirstComma(s))
  }

  /** The water intake: an empty field counts as 0 litres. */
  function ParseIntake(parseFloat: string -> Option<real>, s: string): (ingerida: Option<real>)
    ensures s == "" ==> ingerida == Some(0.0)
    ensures s != "" ==> ingerida == ParseDecimal(parseFloat, s)
  {
    if s == "" then Some(0.0) else ParseDecimal(parseFloat, s)
  }

  /** A height above 3 is taken to be in centimetres. */
  function NormalizarAltura(altura: real): (metros: real)
    ensures altura > 3.0 ==> metros * 100.0 == altura
    ensures altura <= 3.0 ==> metros == altura
    ensures altura > 0.0 <==> metros > 0.0
    ensures altura != 0.0 <==> metros != 0.0
  {
    if altura > 3.0 then altura / 100.0 else altura
  }

  /** The test of the source: weight and height are numbers and the weight is positive. */
  predicate AdmitsAsWritten(pesoNum: Option<real>, alturaNum: Option<real>)
  {
    pesoNum.Some? && alturaNum.Some? && pesoNum.value > 0.0
  }

  /**
    The test the rest of the model uses: it also asks for a positive height and a
    parsed age, so that every calculator gets numbers it is defined on.
  */
  predicate Admits(pesoNum: Option<real>, alturaNum: Option<real>, idadeNum: Option<int>)
  {
    AdmitsAsWritten(pesoNum, alturaNum) && alturaNum.value > 0.0 && idadeNum.Some?
  }

  /** A zero height passes the source's test, leaving the BMI a division by zero. */
  lemma ZeroHeightAdmitted()
    ensures AdmitsAsWritten(Some(70.0), Some(0.0))
    ensures NormalizarAltura(0.0) == 0.0
    ensures !Admits(Some(70.0), Some(0.0), Some(30))
  {
  }

  /**
    A negative height also passes the source's test, stays negative after normalisation,
    and yields finite results: 70 kg at -1.75 m lands in the healthy band.
  */
  lemma NegativeHeightAdmitted()
    ensures AdmitsAsWritten(Some(70.0), Some(-1.75))
    ensures NormalizarAltura(-1.75) == -1.75
    ensures CalcularIMC(70.0, -1.75).diagnostico == Healthy
    ensures !Admits(Some(70.0), Some(-1.75), Some(30))
  {
    assert Sq(-1.75) == 3.0625;
    assert 18.5 * 3.0625 <= 70.0 < 24.9 * 3.0625;
    DivAbove(70.0, 3.0625, 18.5);
    DivAbove(70.0, 3.0625, 24.9);
  }

  /** An age that does not parse passes the source's test, leaving no integer expenditure. */
  lemma UnparsedAgeAdmitted()
    ensures AdmitsAsWritten(Some(70.0), Some(1.75))
    ensures !Admits(Some(70.0), Some(1.75), None)
  {
  }

  /** The record of one submission, built from the normalised numbers. */
  function NovoRegistro(nome: string, idade: string, genero: string, tipoTrabalho: string,
                        frequenciaExercicio: string, pesoNum: real, alturaNum: real, idadeNum: int,
                        aguaIngeridaNum: Option<real>): (r: Registro)
    requires alturaNum != 0.0
    ensures WellFormed(r)
    ensures r.peso == pesoNum && r.altura == NormalizarAltura(alturaNum) && r.aguaIngerida == aguaIngeridaNum
    ensures r.calorias == CalcularTDEE(r.peso, r.altura, idadeNum, genero, tipoTrabalho, frequenciaExercicio)
    ensures (r.nome, r.idade, r.genero, r.tipoTrabalho, r.frequenciaExercicio)
         == (nome, idade, genero, tipoTrabalho, frequenciaExercicio)
  {
    var altura := NormalizarAltura(alturaNum);
    var resultadoIMC := CalcularIMC(pesoNum, altura);
    var metaAgua := CalcularAgua(pesoNum, frequenciaExercicio);
    var tdee := CalcularTDEE(pesoNum, altura, idadeNum, genero, tipoTrabalho, frequenciaExercicio);
    var plano := GerarPlanoDeAcao(pesoNum, altura, tdee, aguaIngeridaNum, metaAgua, frequenciaExercicio);
    Registro(nome, idade, genero, tipoTrabalho, frequenciaExercicio, pesoNum, altura,
             resultadoIMC.valor, resultadoIMC.diagnostico, resultadoIMC.cor,
             aguaIngeridaNum, metaAgua, tdee, plano)
  }

  /**
    A record's results are functions of its own measurement: the BMI fields, the water
    target and the plan are what the calculators give on the stored numbers.
  */
  ghost predicate WellFormed(r: Registro)
  {
    && r.altura != 0.0
    && var imc := CalcularIMC(r.peso, r.altura);
    && (r.imc, r.diagnostico, r.cor) == (imc.valor, imc.diagnostico, imc.cor)
    && r.aguaMeta == CalcularAgua(r.peso, r.frequenciaExercicio)
    && r.plano == GerarPlanoDeAcao(r.peso, r.altura, r.calorias, r.aguaIngerida, r.aguaMeta, r.frequenciaExercicio)
  }

  /** What every stored record shows: a colour matching its band, the 1200 kcal floor, three tips. */
  lemma WellFormedRecordShows(r: Registro)
    requires WellFormed(r)
    ensures r.cor == Color(r.diagnostico)
    ensures r.plano.caloriasDiarias >= 1200
    ensures |r.plano.dicas| == 3
    ensures r.plano.objetivo == LoseFat ==> Bmi(r.peso, r.altura) > 22.0
    ensures r.plano.objetivo == GainMass ==> Bmi(r.peso, r.altura) < 22.0
  {
    GoalAgreesWithBmi(r.peso, r.altura, r.calorias, r.aguaIngerida, r.aguaMeta, r.frequenciaExercicio);
  }

  /**
    Under the corrected test every submission gives a usable record: a positive height,
    an integer expenditure, and a plan at or above the 1200 kcal floor.
  */
  lemma AdmittedSubmissionIsWellFormed(nome: string, idade: string, genero: string, tipoTrabalho: string,
                                       frequenciaExercicio: string, pesoNum: Option<real>,
                                       alturaNum: Option<real>, idadeNum: Option<int>,
                                       aguaIngeridaNum: Option<real>)
    requires Admits(pesoNum, alturaNum, idadeNum)
    ensures var r := NovoRegistro(nome, idade, genero, tipoTrabalho, frequenciaExercicio,
                                  pesoNum.value, alturaNum.value, idadeNum.value, aguaIngeridaNum);
      && r.peso > 0.0 && r.altura > 0.0
      && r.plano.caloriasDiarias >= 1200
      && r.cor == Color(r.diagnostico)
  {
    var r := NovoRegistro(nome, idade, genero, tipoTrabalho, frequenciaExercicio,
                          pesoNum.value, alturaNum.value, idadeNum.value, aguaIngeridaNum);
    WellFormedRecordShows(r);
  }

  /** The state of the Home screen that `handleCalcular` reads and writes. */
  class HomeScreen {
    var nome: string
    var idade: string
    var peso: string
    var altura: string
    var aguaIngerida: string
    var genero: string
    var tipoTrabalho: string
    var frequenciaExercicio: string
    var registros: seq<Registro>

    ghost predicate Valid()
      reads this
    {
      forall i :: 0 <= i < |registros| ==> WellFormed(registros[i])
    }

    /** The initial form: empty text fields, male, office work, no exercise, no records. */
    constructor ()
      ensures Valid()
      ensures nome == "" && idade == "" && peso == "" && altura == "" && aguaIngerida == ""
      ensures genero == "masculino" && tipoTrabalho == "escritorio" && frequenciaExercicio == "0"
      ensures registros == []
    {
      nome, idade, peso, altura, aguaIngerida := "", "", "", "", "";
      genero, tipoTrabalho, frequenciaExercicio := "masculino", "escritorio", "0";
      registros := [];
    }

    /**
      `handleCalcular`: an empty name, age, weight or height raises the missing-data alert and
      changes nothing; a submission the test rejects changes nothing either; otherwise the new
      record goes to the head of the list and the name, weight and water fields are cleared.
      The test is the corrected one, `Admits`, which also turns away a non-positive height and
      an age that is not a number.
    */
    method HandleCalcular(parseFloat: string -> Option<real>, parseInt: string -> Option<int>)
      returns (outcome: Outcome)
      requires Valid()
      modifies this
      ensures Valid()
      ensures outcome == Incomplete <==> old(nome == "" || idade == "" || peso == "" || altura == "")
      ensures outcome == Recorded <==>
        (outcome != Incomplete
         && Admits(ParseDecimal(parseFloat, old(peso)), ParseDecimal(parseFloat, old(altura)), parseInt(old(idade))))
      ensures outcome != Recorded ==> unchanged(this)
      ensures outcome == Recorded ==>
        && registros == [NovoRegistro(old(nome), old(idade), old(genero), old(tipoTrabalho),
                                      old(frequenciaExercicio),
                                      ParseDecimal(parseFloat, old(peso)).value,
                                      ParseDecimal(parseFloat, old(altura)).value,
                                      parseInt(old(idade)).value,
                                      ParseIntake(parseFloat, old(aguaIngerida)))] + old(registros)
        && nome == "" && peso == "" && aguaIngerida == ""
        && idade == old(idade) && altura == old(altura) && genero == old(genero)
        && tipoTrabalho == old(tipoTrabalho) && frequenciaExercicio == old(frequenciaExercicio)
    {
      if nome == "" || idade == "" || peso == "" || altura == "" {
        return Incomplete;
      }

      var pesoNum := ParseDecimal(parseFloat, peso);
      var alturaNum := ParseDecimal(parseFloat, altura);
      var idadeNum := parseInt(idade);
      var aguaIngeridaNum := ParseIntake(parseFloat, aguaIngerida);

      if !Admits(pesoNum, alturaNum, idadeNum) {
        return Rejected;
      }
      var novoRegistro := NovoRegistro(nome, idade, genero, tipoTrabalho, frequenciaExercicio,
                                       pesoNum.value, alturaNum.value, idadeNum.value, aguaIngeridaNum);
      registros := [novoRegistro] + registros;
      nome, peso, aguaIngerida := "", "", "";
      outcome := Recorded;
    }
  }
}
