/**
  The calculator module of HealthCalc: body-mass index with its diagnostic band, the
  daily water target, the daily energy expenditure (Harris-Benedict BMR times an
  activity factor) and the action plan (goal, calorie target, tips, exercises).
  Every calculator is a pure function of its arguments. Numbers are exact reals;
  `toFixed` and `parseInt` are the explicit helpers of module Numeric. Text shown to the
  user is replaced by tags, except the four colours, which are kept as the hex strings.
*/
module HealthCalculations {
  import opened Wrappers
  import opened Numeric

  // ---------------------------------------------------------------------------------
  // Body-mass index

  datatype Diagnosis = Underweight | Healthy | Overweight | Obese

  /** The bands in increasing order of BMI. */
  function Rank(d: Diagnosis): nat
  {
    match d
    case Underweight => 0
    case Healthy => 1
    case Overweight => 2
    case Obese => 3
  }

  /** The fixed display colour of each band. */
  function Color(d: Diagnosis): string
  {
    match d
    case Underweight => "#FF9F0A"
    case Healthy => "#30D158"
    case Overweight => "#FFD60A"
    case Obese => "#FF453A"
  }

  /** `valor` is the BMI rounded to two decimals; the band and colour use the exact BMI. */
  datatype ImcResult = ImcResult(valor: real, diagnostico: Diagnosis, cor: string)

  /** The square of a length, `altura * altura` in the source. */
  function Sq(x: real): (s: real)
    ensures s >= 0.0
  {
    x * x
  }

  lemma SqPositive(x: real)
    requires x != 0.0
    ensures Sq(x) > 0.0
  {
    if x > 0.0 {
      calc {
        Sq(x);
        x * x;
      > { ProductPositive(x, x); }
        0.0;
      }
    } else {
      calc {
        Sq(x);
        x * x;
      > { ProductNegative(x, x); }
        0.0;
      }
    }
  }

  lemma ProductPositive(x: real, y: real)
    requires x > 0.0 && y > 0.0
    ensures x * y > 0.0
  {
  }

  lemma ProductNegative(x: real, y: real)
    requires x < 0.0 && y < 0.0
    ensures x * y > 0.0
  {
  }

  lemma ProductMonotone(a: real, b: real, c: real, d: real)
    requires 0.0 <= a <= b && 0.0 <= c <= d
    ensures a * c <= b * d
  {
    assert a * c <= b * c;
    assert b * c <= b * d;
  }

  lemma SqMonotone(x: real, y: real)
    requires 0.0 <= x <= y
    ensures Sq(x) <= Sq(y)
  {
    ProductMonotone(x, y, x, y);
  }

  lemma DivMonotone(a: real, b: real, s: real)
    requires a <= b && s > 0.0
    ensures a / s <= b / s
  {
  }

  lemma DivAntitone(p: real, s1: real, s2: real)
    requires p >= 0.0 && 0.0 < s1 <= s2
    ensures p / s2 <= p / s1
  {
    var q1, q2 := p / s1, p / s2;
    assert q1 * s1 == p;
    assert q2 * s2 == p;
    assert q2 >= 0.0;
    assert q2 * s1 <= q2 * s2;
  }

  lemma DivAbove(p: real, s: real, b: real)
    requires s > 0.0
    ensures p / s > b <==> p > b * s
    ensures p / s >= b <==> p >= b * s
  {
    var q := p / s;
    assert q * s == p;
    if q > b { assert q * s > b * s; }
    if q >= b { assert q * s >= b * s; }
    if q < b { assert q * s < b * s; }
    if q <= b { assert q * s <= b * s; }
  }

  function Bmi(peso: real, altura: real): real
    requires altura != 0.0
  {
    SqPositive(altura);
    peso / Sq(altura)
  }

  /** The else-if chain that picks the band: each test is the upper bound of one band. */
  function Band(imc: real): Diagnosis
  {
    if imc < 18.5 then Underweight
    else if imc < 24.9 then Healthy
    else if imc < 29.9 then Overweight
    else Obese
  }

  /** `calcularIMC`: the BMI, its band (lower bounds inclusive) and the band's colour. */
  function CalcularIMC(peso: real, altura: real): (r: ImcResult)
    requires altura != 0.0
    ensures r.diagnostico == Underweight <==> Bmi(peso, altura) < 18.5
    ensures r.diagnostico == Healthy <==> 18.5 <= Bmi(peso, altura) < 24.9
    ensures r.diagnostico == Overweight <==> 24.9 <= Bmi(peso, altura) < 29.9
    ensures r.diagnostico == Obese <==> 29.9 <= Bmi(peso, altura)
    ensures r.cor == Color(r.diagnostico)
    ensures OnGrid(r.valor, 2) && -0.005 <= r.valor - Bmi(peso, altura) <= 0.005
  {
    var imc := Bmi(peso, altura);
    var d := Band(imc);
    assert Step(2) == 0.01;
    ImcResult(ToFixed(imc, 2), d, Color(d))
  }

  /** Different bands never share a colour, so the colour alone tells the band. */
  lemma ColorIdentifiesBand(d1: Diagnosis, d2: Diagnosis)
    ensures Color(d1) == Color(d2) <==> d1 == d2
  {
  }

  lemma BandMonotone(x: real, y: real)
    requires x <= y
    ensures Rank(Band(x)) <= Rank(Band(y))
  {
  }

  /** For a fixed height, a heavier person is never put in a lower band. */
  lemma BandMonotoneInWeight(peso1: real, peso2: real, altura: real)
    requires altura != 0.0 && peso1 <= peso2
    ensures Rank(CalcularIMC(peso1, altura).diagnostico) <= Rank(CalcularIMC(peso2, altura).diagnostico)
  {
    SqPositive(altura);
    DivMonotone(peso1, peso2, Sq(altura));
    BandMonotone(Bmi(peso1, altura), Bmi(peso2, altura));
  }

  /** For a fixed non-negative weight, a taller person is never put in a higher band. */
  lemma BandAntitoneInHeight(peso: real, altura1: real, altura2: real)
    requires peso >= 0.0 && 0.0 < altura1 <= altura2
    ensures Rank(CalcularIMC(peso, altura2).diagnostico) <= Rank(CalcularIMC(peso, altura1).diagnostico)
  {
    SqPositive(altura1);
    SqMonotone(altura1, altura2);
    DivAntitone(peso, Sq(altura1), Sq(altura2));
    BandMonotone(Bmi(peso, altura2), Bmi(peso, altura1));
  }

  // ---------------------------------------------------------------------------------
  // Water target

  /** Millilitres of water per kilogram, keyed on the exercise frequency. */
  function BaseMl(frequenciaExercicio: string): (ml: real)
    ensures ml == 38.0 <==> frequenciaExercicio == "3-4"
    ensures ml == 42.0 <==> frequenciaExercicio == "5+"
    ensures ml == 35.0 <==> frequenciaExercicio != "3-4" && frequenciaExercicio != "5+"
    ensures 35.0 <= ml <= 42.0
  {
    var ml := 35.0;
    var ml := if frequenciaExercicio == "3-4" then 38.0 else ml;
    if frequenciaExercicio == "5+" then 42.0 else ml
  }

  /** The unrounded target in litres: weight times the per-kilogram rate, over 1000. */
  function LitrosBrutos(peso: real, frequenciaExercicio: string): real
  {
    (peso * BaseMl(frequenciaExercicio)) / 1000.0
  }

  /** `calcularAgua`: litres per day, weight times the rate over 1000, to one decimal. */
  function CalcularAgua(peso: real, frequenciaExercicio: string): (litros: real)
    ensures OnGrid(litros, 1)
    ensures -0.05 <= litros - LitrosBrutos(peso, frequenciaExercicio) <= 0.05
    ensures peso >= 0.0 ==> litros >= 0.0
  {
    assert Step(1) == 0.1;
    ToFixed(LitrosBrutos(peso, frequenciaExercicio), 1)
  }

  /** The water target never decreases when the weight or the per-kilogram rate grows. */
  lemma AguaMonotone(peso1: real, peso2: real, freq1: string, freq2: string)
    requires 0.0 <= peso1 <= peso2
    requires BaseMl(freq1) <= BaseMl(freq2)
    ensures CalcularAgua(peso1, freq1) <= CalcularAgua(peso2, freq2)
  {
    LitrosBrutosMonotone(peso1, peso2, freq1, freq2);
    ToFixedMonotone(LitrosBrutos(peso1, freq1), LitrosBrutos(peso2, freq2), 1);
    AguaIsRoundedRate(peso1, freq1);
    AguaIsRoundedRate(peso2, freq2);
  }

  lemma AguaIsRoundedRate(peso: real, frequenciaExercicio: string)
    ensures CalcularAgua(peso, frequenciaExercicio) == ToFixed(LitrosBrutos(peso, frequenciaExercicio), 1)
  {
  }

  lemma LitrosBrutosMonotone(peso1: real, peso2: real, freq1: string, freq2: string)
    requires 0.0 <= peso1 <= peso2
    requires BaseMl(freq1) <= BaseMl(freq2)
    ensures LitrosBrutos(peso1, freq1) <= LitrosBrutos(peso2, freq2)
  {
    var ml1, ml2 := BaseMl(freq1), BaseMl(freq2);
    ProductMonotone(peso1, peso2, ml1, ml2);
    DivMonotone(peso1 * ml1, peso2 * ml2, 1000.0);
  }

  /** When weight times rate over 1000 already has one decimal, the target is that exact value. */
  lemma AguaExactOnGrid(peso: real, frequenciaExercicio: string)
    requires OnGrid(LitrosBrutos(peso, frequenciaExercicio), 1)
    ensures CalcularAgua(peso, frequenciaExercicio) == LitrosBrutos(peso, frequenciaExercicio)
  {
    ToFixedOnGrid(LitrosBrutos(peso, frequenciaExercicio), 1);
  }

  /** Sample values for a 70 kg person: 2.45 L rounds up to 2.5, 2.94 L down to 2.9. */
  lemma AguaSamples()
    ensures CalcularAgua(70.0, "0") == 2.5
    ensures CalcularAgua(70.0, "1-2") == 2.5
    ensures CalcularAgua(70.0, "3-4") == 2.7
    ensures CalcularAgua(70.0, "5+") == 2.9
  {
    assert Scale(1) == 10.0;
    assert (24.5 + 0.5).Floor == 25;
    assert (26.6 + 0.5).Floor == 27;
    assert (29.4 + 0.5).Floor == 29;
  }

  // ---------------------------------------------------------------------------------
  // Daily energy expenditure

  /** Harris-Benedict basal metabolic rate; the height is taken in metres and used in cm. */
  function Bmr(peso: real, altura: real, idade: int, genero: string): real
  {
    var alturaCm := altura * 100.0;
    if genero == "masculino" then
      88.36 + 13.4 * peso + 4.8 * alturaCm - 5.7 * idade as real
    else
      447.6 + 9.2 * peso + 3.1 * alturaCm - 4.3 * idade as real
  }

  /** What the exercise frequency adds to the activity factor. */
  function FrequencyBonus(frequenciaExercicio: string): real
  {
    match frequenciaExercicio
    case "1-2" => 0.15
    case "3-4" => 0.30
    case "5+" => 0.50
    case _ => 0.0
  }

  /** The activity factor: 1.2, plus 0.2 for physical work, plus the frequency's share. */
  function FatorAtividade(tipoTrabalho: string, frequenciaExercicio: string): (fator: real)
    ensures 1.2 <= fator <= 1.9
    ensures tipoTrabalho == "fisico" ==> fator >= 1.4
    ensures fator == 1.2 <==> tipoTrabalho != "fisico" && frequenciaExercicio !in {"1-2", "3-4", "5+"}
  {
    var fator := 1.2;
    var fator := if tipoTrabalho == "fisico" then fator + 0.2 else fator;
    fator + FrequencyBonus(frequenciaExercicio)
  }

  /** The daily expenditure before truncation: the BMR times the activity factor. */
  function Gasto(peso: real, altura: real, idade: int, genero: string,
                 tipoTrabalho: string, frequenciaExercicio: string): real
  {
    Bmr(peso, altura, idade, genero) * FatorAtividade(tipoTrabalho, frequenciaExercicio)
  }

  /** `calcularTDEE`: the expenditure truncated toward zero to whole kilocalories. */
  function CalcularTDEE(peso: real, altura: real, idade: int, genero: string,
                        tipoTrabalho: string, frequenciaExercicio: string): (kcal: int)
    ensures var e := Gasto(peso, altura, idade, genero, tipoTrabalho, frequenciaExercicio);
      && (e >= 0.0 ==> kcal as real <= e < kcal as real + 1.0)
      && (e < 0.0 ==> kcal as real - 1.0 < e <= kcal as real)
  {
    Truncate(Gasto(peso, altura, idade, genero, tipoTrabalho, frequenciaExercicio))
  }

  /** Physical work adds exactly 0.2 to the factor, whatever the exercise frequency. */
  lemma PhysicalWorkBonus(tipoTrabalho: string, frequenciaExercicio: string)
    requires tipoTrabalho != "fisico"
    ensures FatorAtividade("fisico", frequenciaExercicio) == FatorAtividade(tipoTrabalho, frequenciaExercicio) + 0.2
  {
  }

  /** An exercise frequency other than "1-2", "3-4" and "5+" counts as no exercise. */
  lemma UnknownFrequencyAddsNothing(tipoTrabalho: string, frequenciaExercicio: string)
    requires frequenciaExercicio !in {"1-2", "3-4", "5+"}
    ensures FatorAtividade(tipoTrabalho, frequenciaExercicio) == FatorAtividade(tipoTrabalho, "0")
  {
  }

  /** Each known frequency adds its own share to the factor of no exercise: 0.15, 0.30, 0.50. */
  lemma FrequencyBonusAmounts(tipoTrabalho: string)
    ensures FatorAtividade(tipoTrabalho, "1-2") == FatorAtividade(tipoTrabalho, "0") + 0.15
    ensures FatorAtividade(tipoTrabalho, "3-4") == FatorAtividade(tipoTrabalho, "0") + 0.30
    ensures FatorAtividade(tipoTrabalho, "5+") == FatorAtividade(tipoTrabalho, "0") + 0.50
  {
  }

  /** "masculino" gets the male formula, with the height converted to centimetres. */
  lemma MaleUsesMaleFormula(peso: real, altura: real, idade: int)
    ensures Bmr(peso, altura, idade, "masculino") == 88.36 + 13.4 * peso + 480.0 * altura - 5.7 * idade as real
  {
  }

  /** Every gender value other than "masculino" gets the female formula. */
  lemma NonMaleUsesFemaleFormula(peso: real, altura: real, idade: int, genero: string)
    requires genero != "masculino"
    ensures Bmr(peso, altura, idade, genero) == 447.6 + 9.2 * peso + 310.0 * altura - 4.3 * idade as real
  {
  }

  lemma TdeeIsTruncatedGasto(peso: real, altura: real, idade: int, genero: string,
                             tipoTrabalho: string, frequenciaExercicio: string)
    ensures CalcularTDEE(peso, altura, idade, genero, tipoTrabalho, frequenciaExercicio)
         == Truncate(Gasto(peso, altura, idade, genero, tipoTrabalho, frequenciaExercicio))
  {
  }

  lemma GastoMonotoneInWeight(peso1: real, peso2: real, altura: real, idade: int, genero: string,
                              tipoTrabalho: string, frequenciaExercicio: string)
    requires peso1 <= peso2
    ensures Gasto(peso1, altura, idade, genero, tipoTrabalho, frequenciaExercicio)
         <= Gasto(peso2, altura, idade, genero, tipoTrabalho, frequenciaExercicio)
  {
    var b1, b2 := Bmr(peso1, altura, idade, genero), Bmr(peso2, altura, idade, genero);
    var f := FatorAtividade(tipoTrabalho, frequenciaExercicio);
    assert b1 <= b2;
    assert b1 * f <= b2 * f;
  }

  lemma GastoAntitoneInAge(peso: real, altura: real, idade1: int, idade2: int, genero: string,
                           tipoTrabalho: string, frequenciaExercicio: string)
    requires idade1 <= idade2
    ensures Gasto(peso, altura, idade2, genero, tipoTrabalho, frequenciaExercicio)
         <= Gasto(peso, altura, idade1, genero, tipoTrabalho, frequenciaExercicio)
  {
    var b1, b2 := Bmr(peso, altura, idade1, genero), Bmr(peso, altura, idade2, genero);
    var f := FatorAtividade(tipoTrabalho, frequenciaExercicio);
    assert b2 <= b1;
    assert b2 * f <= b1 * f;
  }

  /** The expenditure never drops when the weight grows, everything else fixed. */
  lemma TdeeMonotoneInWeight(peso1: real, peso2: real, altura: real, idade: int, genero: string,
                             tipoTrabalho: string, frequenciaExercicio: string)
    requires peso1 <= peso2
    ensures CalcularTDEE(peso1, altura, idade, genero, tipoTrabalho, frequenciaExercicio)
         <= CalcularTDEE(peso2, altura, idade, genero, tipoTrabalho, frequenciaExercicio)
  {
    GastoMonotoneInWeight(peso1, peso2, altura, idade, genero, tipoTrabalho, frequenciaExercicio);
    TruncateMonotone(Gasto(peso1, altura, idade, genero, tipoTrabalho, frequenciaExercicio),
                     Gasto(peso2, altura, idade, genero, tipoTrabalho, frequenciaExercicio));
    TdeeIsTruncatedGasto(peso1, altura, idade, genero, tipoTrabalho, frequenciaExercicio);
    TdeeIsTruncatedGasto(peso2, altura, idade, genero, tipoTrabalho, frequenciaExercicio);
  }

  /** The expenditure never grows with age, everything else fixed. */
  lemma TdeeAntitoneInAge(peso: real, altura: real, idade1: int, idade2: int, genero: string,
                          tipoTrabalho: string, frequenciaExercicio: string)
    requires idade1 <= idade2
    ensures CalcularTDEE(peso, altura, idade2, genero, tipoTrabalho, frequenciaExercicio)
         <= CalcularTDEE(peso, altura, idade1, genero, tipoTrabalho, frequenciaExercicio)
  {
    GastoAntitoneInAge(peso, altura, idade1, idade2, genero, tipoTrabalho, frequenciaExercicio);
    TruncateMonotone(Gasto(peso, altura, idade2, genero, tipoTrabalho, frequenciaExercicio),
                     Gasto(peso, altura, idade1, genero, tipoTrabalho, frequenciaExercicio));
    TdeeIsTruncatedGasto(peso, altura, idade1, genero, tipoTrabalho, frequenciaExercicio);
    TdeeIsTruncatedGasto(peso, altura, idade2, genero, tipoTrabalho, frequenciaExercicio);
  }

  /** The reference case: 70 kg, 1.75 m, 30 years, male, office work, no exercise. */
  lemma TdeeSample()
    ensures Bmr(70.0, 1.75, 30, "masculino") == 1695.36
    ensures CalcularTDEE(70.0, 1.75, 30, "masculino", "escritorio", "0") == 2034
  {
    assert (1695.36 * 1.2).Floor == 2034;
  }

  // ---------------------------------------------------------------------------------
  // Action plan

  datatype Goal = LoseFat | GainMass | KeepWeight

  /** The calorie message: it quotes the expenditure and the target computed in its branch. */
  datatype CaloricAction =
    | DeficitAdvice(tdee: int, meta: int)
    | SurplusAdvice(tdee: int, meta: int)
    | MaintenanceAdvice(tdee: int)

  /** The last tip: how much more water to drink (to one decimal), or that hydration is fine. */
  datatype WaterStatus = DrinkMore(litros: real) | Hydrated

  datatype Tip =
    | EatProtein | AvoidSweets
    | NeverSkipMeals | GoodFats
    | KeepRoutine | VaryProduce
    | Water(status: WaterStatus)

  datatype Exercise =
    | BriskWalk | LightWeights
    | IntenseCardio | Weights
    | HeavyTraining | Rest
    | FavoriteActivity

  datatype Plan = Plan(pesoIdeal: real, objetivo: Goal, acaoCalorica: CaloricAction,
                       caloriasDiarias: int, dicas: seq<Tip>, exercicios: seq<Exercise>)

  /** The weight at BMI 22 for the given height. */
  function PesoIdeal(altura: real): real
  {
    22.0 * Sq(altura)
  }

  function Max(a: int, b: int): int
  {
    if a < b then b else a
  }

  /**
    The water message. A missing intake stands for NaN: every comparison with NaN is
    false, so the message is then the "on track" one.
  */
  function StatusAgua(aguaMeta: real, aguaIngerida: Option<real>): (s: WaterStatus)
    ensures s.DrinkMore? <==> aguaIngerida.Some? && aguaMeta - aguaIngerida.value > 0.0
    ensures s.DrinkMore? ==>
      (OnGrid(s.litros, 1) && s.litros >= 0.0 && -0.05 <= s.litros - (aguaMeta - aguaIngerida.value) <= 0.05)
  {
    assert Step(1) == 0.1;
    match aguaIngerida
    case None => Hydrated
    case Some(ingerida) =>
      var diferencaAgua := aguaMeta - ingerida;
      if diferencaAgua > 0.0 then DrinkMore(ToFixed(diferencaAgua, 1)) else Hydrated
  }

  /** `gerarPlanoDeAcao`: goal, calorie target, message, tips and exercises. */
  function GerarPlanoDeAcao(pesoAtual: real, altura: real, tdee: int, aguaIngerida: Option<real>,
                            aguaMeta: real, frequenciaExercicio: string): (p: Plan)
    ensures p.objetivo == LoseFat <==> pesoAtual - PesoIdeal(altura) > 2.0
    ensures p.objetivo == GainMass <==> pesoAtual - PesoIdeal(altura) < -2.0
    ensures p.objetivo == KeepWeight <==> -2.0 <= pesoAtual - PesoIdeal(altura) <= 2.0
    ensures p.caloriasDiarias >= 1200
    ensures p.objetivo == LoseFat ==> p.caloriasDiarias == Max(1200, tdee - 500)
    ensures p.objetivo == GainMass ==> p.caloriasDiarias == Max(1200, tdee + 350)
    ensures p.objetivo == KeepWeight ==> p.caloriasDiarias == Max(1200, tdee)
    ensures |p.dicas| == 3 && p.dicas[2] == Water(StatusAgua(aguaMeta, aguaIngerida))
    ensures p.objetivo == LoseFat ==>
      (|p.exercicios| == 2 && (p.exercicios == [BriskWalk, LightWeights] <==> frequenciaExercicio in {"0", "1-2"}))
    ensures p.objetivo == LoseFat && frequenciaExercicio !in {"0", "1-2"} ==> p.exercicios == [IntenseCardio, Weights]
    ensures p.objetivo == GainMass ==> p.exercicios == [HeavyTraining, Rest]
    ensures p.objetivo == KeepWeight ==> p.exercicios == [FavoriteActivity]
    ensures p.objetivo == LoseFat ==> p.dicas[..2] == [EatProtein, AvoidSweets]
    ensures p.objetivo == GainMass ==> p.dicas[..2] == [NeverSkipMeals, GoodFats]
    ensures p.objetivo == KeepWeight ==> p.dicas[..2] == [KeepRoutine, VaryProduce]
    ensures p.objetivo == LoseFat ==> p.acaoCalorica == DeficitAdvice(tdee, tdee - 500)
    ensures p.objetivo == GainMass ==> p.acaoCalorica == SurplusAdvice(tdee, tdee + 350)
    ensures p.objetivo == KeepWeight ==> p.acaoCalorica == MaintenanceAdvice(tdee)
    ensures OnGrid(p.pesoIdeal, 1) && -0.05 <= p.pesoIdeal - PesoIdeal(altura) <= 0.05
  {
    var pesoIdeal := PesoIdeal(altura);
    var diferenca := pesoAtual - pesoIdeal;
    var statusAgua := StatusAgua(aguaMeta, aguaIngerida);
    var (objetivo, acaoCalorica, caloriasDiarias, dicas, exercicios) :=
      if diferenca > 2.0 then
        var caloriasDiarias := tdee - 500;
        (LoseFat, DeficitAdvice(tdee, caloriasDiarias), caloriasDiarias,
         [EatProtein, AvoidSweets, Water(statusAgua)],
         if frequenciaExercicio == "0" || frequenciaExercicio == "1-2"
         then [BriskWalk, LightWeights] else [IntenseCardio, Weights])
      else if diferenca < -2.0 then
        var caloriasDiarias := tdee + 350;
        (GainMass, SurplusAdvice(tdee, caloriasDiarias), caloriasDiarias,
         [NeverSkipMeals, GoodFats, Water(statusAgua)], [HeavyTraining, Rest])
      else
        (KeepWeight, MaintenanceAdvice(tdee), tdee,
         [KeepRoutine, VaryProduce, Water(statusAgua)], [FavoriteActivity]);
    var caloriasDiarias := if caloriasDiarias < 1200 then 1200 else caloriasDiarias;
    assert Step(1) == 0.1;
    Plan(ToFixed(pesoIdeal, 1), objetivo, acaoCalorica, caloriasDiarias, dicas, exercicios)
  }

  /** A higher expenditure never gives a lower calorie target, everything else fixed. */
  lemma CaloriesMonotoneInTdee(pesoAtual: real, altura: real, tdee1: int, tdee2: int,
                               aguaIngerida: Option<real>, aguaMeta: real, frequenciaExercicio: string)
    requires tdee1 <= tdee2
    ensures GerarPlanoDeAcao(pesoAtual, altura, tdee1, aguaIngerida, aguaMeta, frequenciaExercicio).caloriasDiarias
         <= GerarPlanoDeAcao(pesoAtual, altura, tdee2, aguaIngerida, aguaMeta, frequenciaExercicio).caloriasDiarias
  {
    var p1 := GerarPlanoDeAcao(pesoAtual, altura, tdee1, aguaIngerida, aguaMeta, frequenciaExercicio);
    var p2 := GerarPlanoDeAcao(pesoAtual, altura, tdee2, aguaIngerida, aguaMeta, frequenciaExercicio);
    assert p1.objetivo == p2.objetivo;
  }

  /**
    The calorie message is written before the 1200 floor is applied: in the lose and gain
    branches it quotes a target different from the plan's exactly when the floor fired.
  */
  lemma AdviceQuotesUnclampedTarget(pesoAtual: real, altura: real, tdee: int, aguaIngerida: Option<real>,
                                    aguaMeta: real, frequenciaExercicio: string)
    ensures var p := GerarPlanoDeAcao(pesoAtual, altura, tdee, aguaIngerida, aguaMeta, frequenciaExercicio);
      && (p.acaoCalorica.DeficitAdvice? <==> p.objetivo == LoseFat)
      && (p.acaoCalorica.SurplusAdvice? <==> p.objetivo == GainMass)
      && (p.acaoCalorica.MaintenanceAdvice? <==> p.objetivo == KeepWeight)
      && p.acaoCalorica.tdee == tdee
      && (!p.acaoCalorica.MaintenanceAdvice? ==>
            (p.acaoCalorica.meta != p.caloriasDiarias <==> p.acaoCalorica.meta < 1200))
  {
  }

  /** With enough water drunk (including exactly the target) the message is "on track". */
  lemma WaterOnTrackAtTarget(aguaMeta: real, aguaIngerida: real)
    requires aguaIngerida >= aguaMeta
    ensures StatusAgua(aguaMeta, Some(aguaIngerida)) == Hydrated
  {
  }

  /** A deficit below 0.05 L still asks for more water, with the amount shown as 0.0. */
  lemma DrinkMoreCanShowZero()
    ensures StatusAgua(2.5, Some(2.46)) == DrinkMore(0.0)
  {
    assert Scale(1) == 10.0;
    assert (0.4 + 0.5).Floor == 0;
  }

  /** The goal agrees with the BMI: losing is advised only above BMI 22, gaining only below (any nonzero height). */
  lemma GoalAgreesWithBmi(pesoAtual: real, altura: real, tdee: int, aguaIngerida: Option<real>,
                          aguaMeta: real, frequenciaExercicio: string)
    requires altura != 0.0
    ensures var p := GerarPlanoDeAcao(pesoAtual, altura, tdee, aguaIngerida, aguaMeta, frequenciaExercicio);
      && (p.objetivo == LoseFat ==> Bmi(pesoAtual, altura) > 22.0)
      && (p.objetivo == GainMass ==> Bmi(pesoAtual, altura) < 22.0)
  {
    SqPositive(altura);
    DivAbove(pesoAtual, Sq(altura), 22.0);
  }

  /** From 0.85 m up, an overweight or obese BMI always leads to the lose-fat plan. */
  lemma OverweightIsAdvisedToLose(pesoAtual: real, altura: real, tdee: int, aguaIngerida: Option<real>,
                                  aguaMeta: real, frequenciaExercicio: string)
    requires altura >= 0.85
    requires Rank(CalcularIMC(pesoAtual, altura).diagnostico) >= Rank(Overweight)
    ensures GerarPlanoDeAcao(pesoAtual, altura, tdee, aguaIngerida, aguaMeta, frequenciaExercicio).objetivo == LoseFat
  {
    SqPositive(altura);
    SqMonotone(0.85, altura);
    assert Sq(0.85) == 0.7225;
    DivAbove(pesoAtual, Sq(altura), 24.9);
  }

  /** From 0.76 m up, an underweight BMI always leads to the gain-mass plan. */
  lemma UnderweightIsAdvisedToGain(pesoAtual: real, altura: real, tdee: int, aguaIngerida: Option<real>,
                                   aguaMeta: real, frequenciaExercicio: string)
    requires altura >= 0.76
    requires CalcularIMC(pesoAtual, altura).diagnostico == Underweight
    ensures GerarPlanoDeAcao(pesoAtual, altura, tdee, aguaIngerida, aguaMeta, frequenciaExercicio).objetivo == GainMass
  {
    SqPositive(altura);
    SqMonotone(0.76, altura);
    assert Sq(0.76) == 0.5776;
    DivAbove(pesoAtual, Sq(altura), 18.5);
  }

  /** The reference case: 75 kg at 1.75 m is 7.575 kg above the ideal 67.375 kg. */
  lemma PlanSample(tdee: int, aguaIngerida: Option<real>, aguaMeta: real, frequenciaExercicio: string)
    ensures PesoIdeal(1.75) == 67.375
    ensures GerarPlanoDeAcao(75.0, 1.75, tdee, aguaIngerida, aguaMeta, frequenciaExercicio).objetivo == LoseFat
  {
  }
}
