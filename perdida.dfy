/** A model of the credit-risk arithmetic of the "Risk Map Coop 360" page:
    the applicant profile read from the form, the bounds its widgets declare,
    and the four risk quantities computed when the evaluation button is
    pressed: probability of default (PD), loss given default (LGD), exposure
    at default (EAD) and expected loss (EL).

    All quantities are exact `real` arithmetic. The exponential used by the
    logistic transform is a parameter `exp` that obeys `ExpLaws`. */
module Perdida {

  // ---------------------------------------------------------------------
  // Applicant profile
  // ---------------------------------------------------------------------

  datatype EstadoCivil = Soltero | Casado | Divorciado | Viudo

  datatype TipoCredito = Hipotecario | Automotriz | Consumo | Empresarial | Educativo

  /** One applicant, as read from the form. Every numeric widget yields an
      integer; the fields are `int` so that the widget bounds are a
      property of the value, stated by `Valid`. */
  datatype Profile = Profile(
    nombre: string,
    edad: int,
    estadoCivil: EstadoCivil,
    ingresoMensual: int,
    gastosMensuales: int,
    deudaActual: int,
    patrimonioNeto: int,
    ahorrosDisponibles: int,
    historialEmpleo: int,
    cuentasCredito: int,
    cuentasMorosas: int,
    tiempoCredito: int,
    pagosAtrasados: int,
    bancarrotas: int,
    consultasCredito: int,
    limiteCredito: int,
    usoActualCredito: int,
    tarjetasCredito: int,
    tipoCredito: TipoCredito,
    montoCredito: int,
    plazoCredito: int
  )

  // ---------------------------------------------------------------------
  // Widget bounds
  // ---------------------------------------------------------------------

  /** The numeric input widgets of the form, one per integer field. */
  datatype Field =
    | Edad | IngresoMensual | GastosMensuales | DeudaActual | PatrimonioNeto
    | AhorrosDisponibles | HistorialEmpleo | CuentasCredito | CuentasMorosas
    | TiempoCredito | PagosAtrasados | Bancarrotas | ConsultasCredito
    | LimiteCredito | UsoActualCredito | TarjetasCredito | MontoCredito
    | PlazoCredito

  datatype Option<T> = None | Some(value: T)

  /** A number input's declared range: an inclusive minimum and an
      optional inclusive maximum. */
  datatype NumberInput = NumberInput(minValue: int, maxValue: Option<int>)

  predicate Accepts(w: NumberInput, v: int) {
    w.minValue <= v && (w.maxValue.Some? ==> v <= w.maxValue.value)
  }

  function FieldValue(p: Profile, f: Field): int {
    match f
    case Edad => p.edad
    case IngresoMensual => p.ingresoMensual
    case GastosMensuales => p.gastosMensuales
    case DeudaActual => p.deudaActual
    case PatrimonioNeto => p.patrimonioNeto
    case AhorrosDisponibles => p.ahorrosDisponibles
    case HistorialEmpleo => p.historialEmpleo
    case CuentasCredito => p.cuentasCredito
    case CuentasMorosas => p.cuentasMorosas
    case TiempoCredito => p.tiempoCredito
    case PagosAtrasados => p.pagosAtrasados
    case Bancarrotas => p.bancarrotas
    case ConsultasCredito => p.consultasCredito
    case LimiteCredito => p.limiteCredito
    case UsoActualCredito => p.usoActualCredito
    case TarjetasCredito => p.tarjetasCredito
    case MontoCredito => p.montoCredito
    case PlazoCredito => p.plazoCredito
  }

  /** The range each widget declares. The delinquent-accounts widget takes
      its maximum from the value already entered for credit accounts, so
      the table depends on the profile. */
  function WidgetOf(p: Profile, f: Field): NumberInput {
    match f
    case Edad => NumberInput(18, Some(99))
    case IngresoMensual => NumberInput(0, None)
    case GastosMensuales => NumberInput(0, None)
    case DeudaActual => NumberInput(0, None)
    case PatrimonioNeto => NumberInput(0, None)
    case AhorrosDisponibles => NumberInput(0, None)
    case HistorialEmpleo => NumberInput(0, Some(50))
    case CuentasCredito => NumberInput(0, None)
    case CuentasMorosas => NumberInput(0, Some(p.cuentasCredito))
    case TiempoCredito => NumberInput(0, Some(50))
    case PagosAtrasados => NumberInput(0, Some(12))
    case Bancarrotas => NumberInput(0, None)
    case ConsultasCredito => NumberInput(0, None)
    case LimiteCredito => NumberInput(0, None)
    case UsoActualCredito => NumberInput(0, Some(100))
    case TarjetasCredito => NumberInput(0, None)
    case MontoCredito => NumberInput(0, None)
    case PlazoCredito => NumberInput(6, Some(360))
  }

  /** A profile the form can submit: every widget accepts its value. */
  predicate FormAccepts(p: Profile) {
    forall f: Field :: Accepts(WidgetOf(p, f), FieldValue(p, f))
  }

  /** A valid profile: the widget bounds written out field by field. */
  predicate Valid(p: Profile) {
    && 18 <= p.edad <= 99
    && p.ingresoMensual >= 0
    && p.gastosMensuales >= 0
    && p.deudaActual >= 0
    && p.patrimonioNeto >= 0
    && p.ahorrosDisponibles >= 0
    && 0 <= p.historialEmpleo <= 50
    && p.cuentasCredito >= 0
    && 0 <= p.cuentasMorosas <= p.cuentasCredito
    && 0 <= p.tiempoCredito <= 50
    && 0 <= p.pagosAtrasados <= 12
    && p.bancarrotas >= 0
    && p.consultasCredito >= 0
    && p.limiteCredito >= 0
    && 0 <= p.usoActualCredito <= 100
    && p.tarjetasCredito >= 0
    && p.montoCredito >= 0
    && 6 <= p.plazoCredito <= 360
  }

  /** The form accepts a profile exactly when it meets every bound. */
  lemma FormAcceptsIffValid(p: Profile)
    ensures FormAccepts(p) <==> Valid(p)
  {
    if FormAccepts(p) {
      assert Accepts(WidgetOf(p, Edad), FieldValue(p, Edad));
      assert Accepts(WidgetOf(p, IngresoMensual), FieldValue(p, IngresoMensual));
      assert Accepts(WidgetOf(p, GastosMensuales), FieldValue(p, GastosMensuales));
      assert Accepts(WidgetOf(p, DeudaActual), FieldValue(p, DeudaActual));
      assert Accepts(WidgetOf(p, PatrimonioNeto), FieldValue(p, PatrimonioNeto));
      assert Accepts(WidgetOf(p, AhorrosDisponibles), FieldValue(p, AhorrosDisponibles));
      assert Accepts(WidgetOf(p, HistorialEmpleo), FieldValue(p, HistorialEmpleo));
      assert Accepts(WidgetOf(p, CuentasCredito), FieldValue(p, CuentasCredito));
      assert Accepts(WidgetOf(p, CuentasMorosas), FieldValue(p, CuentasMorosas));
      assert Accepts(WidgetOf(p, TiempoCredito), FieldValue(p, TiempoCredito));
      assert Accepts(WidgetOf(p, PagosAtrasados), FieldValue(p, PagosAtrasados));
      assert Accepts(WidgetOf(p, Bancarrotas), FieldValue(p, Bancarrotas));
      assert Accepts(WidgetOf(p, ConsultasCredito), FieldValue(p, ConsultasCredito));
      assert Accepts(WidgetOf(p, LimiteCredito), FieldValue(p, LimiteCredito));
      assert Accepts(WidgetOf(p, UsoActualCredito), FieldValue(p, UsoActualCredito));
      assert Accepts(WidgetOf(p, TarjetasCredito), FieldValue(p, TarjetasCredito));
      assert Accepts(WidgetOf(p, MontoCredito), FieldValue(p, MontoCredito));
      assert Accepts(WidgetOf(p, PlazoCredito), FieldValue(p, PlazoCredito));
    }
    if Valid(p) {
      forall f: Field ensures Accepts(WidgetOf(p, f), FieldValue(p, f)) {
        match f
        case Edad =>
        case IngresoMensual =>
        case GastosMensuales =>
        case DeudaActual =>
        case PatrimonioNeto =>
        case AhorrosDisponibles =>
        case HistorialEmpleo =>
        case CuentasCredito =>
        case CuentasMorosas =>
        case TiempoCredito =>
        case PagosAtrasados =>
        case Bancarrotas =>
        case ConsultasCredito =>
        case LimiteCredito =>
        case UsoActualCredito =>
        case TarjetasCredito =>
        case MontoCredito =>
        case PlazoCredito =>
      }
    }
  }

  // ---------------------------------------------------------------------
  // Probability of default
  // ---------------------------------------------------------------------

  /** What the model relies on about the exponential function. */
  ghost predicate ExpLaws(exp: real -> real) {
    && exp(0.0) == 1.0
    && (forall x :: exp(x) > 0.0)
    && (forall x, y :: x < y ==> exp(x) < exp(y))
  }

  /** The ten fixed weights, in feature order. There is no intercept. */
  const Coeficientes: seq<real> := [-2.5, 0.01, -0.5, 1.2, 0.8, -0.3, -0.7, 0.5, 1.1, 0.9]

  /** The scaled feature vector, in the order the weights expect. */
  function Features(p: Profile): (x: seq<real>)
    ensures |x| == |Coeficientes|
  {
    [ p.edad as real / 100.0, p.ingresoMensual as real / 10000.0, p.cuentasCredito as real / 10.0,
      p.cuentasMorosas as real / 5.0, p.usoActualCredito as real / 100.0, p.deudaActual as real / 50000.0,
      p.tiempoCredito as real / 50.0, p.pagosAtrasados as real / 12.0, p.bancarrotas as real,
      p.consultasCredito as real / 10.0 ]
  }

  /** For a valid profile every feature is non-negative; the age, the
      utilisation, the credit-history and the late-payment features lie in
      [0, 1]. The others (income, accounts, delinquencies, debt,
      bankruptcies, inquiries) have no upper bound. */
  lemma FeaturesInRange(p: Profile)
    requires Valid(p)
    ensures forall i :: 0 <= i < |Features(p)| ==> 0.0 <= Features(p)[i]
    ensures 0.18 <= Features(p)[0] <= 0.99
    ensures Features(p)[4] <= 1.0 && Features(p)[6] <= 1.0 && Features(p)[7] <= 1.0
  {
  }

  /** Dot product of two vectors of equal length, summed from index `i`
      to the end. */
  function DotFrom(c: seq<real>, x: seq<real>, i: nat): real
    requires |c| == |x| && i <= |c|
    decreases |c| - i
  {
    if i == |c| then 0.0 else c[i] * x[i] + DotFrom(c, x, i + 1)
  }

  function Dot(c: seq<real>, x: seq<real>): real
    requires |c| == |x|
  {
    DotFrom(c, x, 0)
  }

  /** Adding `d` to component `k` of `x` moves the partial dot product from
      `i` by the matching weight times `d` when `i <= k`, and leaves it
      alone when `k < i`. */
  lemma {:induction false} DotFromUpdate(c: seq<real>, x: seq<real>, i: nat, k: nat, d: real)
    requires |c| == |x| && i <= |c| && k < |x|
    ensures DotFrom(c, x[k := x[k] + d], i) == DotFrom(c, x, i) + (if i <= k then c[k] * d else 0.0)
    decreases |c| - i
  {
    if i < |c| {
      DotFromUpdate(c, x, i + 1, k, d);
    }
  }

  /** Adding `d` to one component of `x` moves the dot product by the
      matching weight times `d`. */
  lemma DotUpdate(c: seq<real>, x: seq<real>, k: nat, d: real)
    requires |c| == |x| && k < |x|
    ensures Dot(c, x[k := x[k] + d]) == Dot(c, x) + c[k] * d
  {
    DotFromUpdate(c, x, 0, k, d);
  }

  function Logit(p: Profile): real {
    Dot(Coeficientes, Features(p))
  }

  /** A dot product of length ten, written out term by term. */
  lemma Dot10(c: seq<real>, x: seq<real>)
    requires |c| == 10 && |x| == 10
    ensures Dot(c, x)
         == c[0] * x[0] + c[1] * x[1] + c[2] * x[2] + c[3] * x[3] + c[4] * x[4]
          + c[5] * x[5] + c[6] * x[6] + c[7] * x[7] + c[8] * x[8] + c[9] * x[9]
  {
    assert DotFrom(c, x, 10) == 0.0;
    assert DotFrom(c, x, 9) == c[9] * x[9];
    assert DotFrom(c, x, 8) == c[8] * x[8] + DotFrom(c, x, 9);
    assert DotFrom(c, x, 7) == c[7] * x[7] + DotFrom(c, x, 8);
    assert DotFrom(c, x, 6) == c[6] * x[6] + DotFrom(c, x, 7);
    assert DotFrom(c, x, 5) == c[5] * x[5] + DotFrom(c, x, 6);
    assert DotFrom(c, x, 4) == c[4] * x[4] + DotFrom(c, x, 5);
    assert DotFrom(c, x, 3) == c[3] * x[3] + DotFrom(c, x, 4);
    assert DotFrom(c, x, 2) == c[2] * x[2] + DotFrom(c, x, 3);
    assert DotFrom(c, x, 1) == c[1] * x[1] + DotFrom(c, x, 2);
  }

  /** The logit is the weighted sum of the ten scaled features. */
  lemma LogitExpanded(p: Profile)
    ensures Logit(p)
         == -2.5 * (p.edad as real / 100.0) + 0.01 * (p.ingresoMensual as real / 10000.0)
          - 0.5 * (p.cuentasCredito as real / 10.0) + 1.2 * (p.cuentasMorosas as real / 5.0)
          + 0.8 * (p.usoActualCredito as real / 100.0) - 0.3 * (p.deudaActual as real / 50000.0)
          - 0.7 * (p.tiempoCredito as real / 50.0) + 0.5 * (p.pagosAtrasados as real / 12.0)
          + 1.1 * p.bancarrotas as real + 0.9 * (p.consultasCredito as real / 10.0)
  {
    Dot10(Coeficientes, Features(p));
  }

  /** Taking reciprocals reverses the order of positive reals. */
  lemma ReciprocalAntitone(a: real, b: real)
    requires 0.0 < b < a
    ensures 1.0 / a < 1.0 / b
  {
    var ia, ib := 1.0 / a, 1.0 / b;
    assert ia * a == 1.0 && ib * b == 1.0;
  }

  /** Multiplying by a non-negative factor keeps an order. */
  lemma MulMonotone(a: real, b: real, c: real)
    requires 0.0 <= a && b <= c
    ensures a * b <= a * c
  {
    assert a * c - a * b == a * (c - b);
  }

  /** The logistic transform of a logit. */
  function Pd(exp: real -> real, logit: real): (r: real)
    requires ExpLaws(exp)
    ensures 0.0 < r < 1.0
  {
    var e := exp(-logit);
    assert 1.0 + e > 1.0;
    1.0 / (1.0 + e)
  }

  /** The logistic transform is strictly increasing. */
  lemma PdStrictlyIncreasing(exp: real -> real, a: real, b: real)
    requires ExpLaws(exp) && a < b
    ensures Pd(exp, a) < Pd(exp, b)
  {
    var ea, eb := exp(-a), exp(-b);
    assert eb < ea;
    var da, db := 1.0 + ea, 1.0 + eb;
    assert 0.0 < db < da;
    assert Pd(exp, a) == 1.0 / da && Pd(exp, b) == 1.0 / db;
    ReciprocalAntitone(da, db);
  }

  /** A zero logit gives an even chance of default. */
  lemma PdAtZero(exp: real -> real)
    requires ExpLaws(exp)
    ensures Pd(exp, 0.0) == 0.5
  {
    assert -0.0 == 0.0;
  }

  /** The probability of default of an applicant. */
  function PdScore(exp: real -> real, p: Profile): (r: real)
    requires ExpLaws(exp)
    ensures 0.0 < r < 1.0
  {
    Pd(exp, Logit(p))
  }

  /** One more late payment raises the logit by exactly 0.5/12, with every
      other field unchanged, and so raises the probability of default. */
  lemma LatePaymentRaisesPd(exp: real -> real, p: Profile)
    requires ExpLaws(exp)
    ensures Logit(p.(pagosAtrasados := p.pagosAtrasados + 1)) == Logit(p) + 0.5 / 12.0
    ensures PdScore(exp, p) < PdScore(exp, p.(pagosAtrasados := p.pagosAtrasados + 1))
  {
    var q := p.(pagosAtrasados := p.pagosAtrasados + 1);
    var x := Features(p);
    assert Features(q) == x[7 := x[7] + 1.0 / 12.0];
    DotUpdate(Coeficientes, x, 7, 1.0 / 12.0);
    PdStrictlyIncreasing(exp, Logit(p), Logit(q));
  }

  /** The income weight is positive: one more unit of monthly income
      raises the logit by 0.01/10000 and so raises the probability of
      default. */
  lemma IncomeRaisesPd(exp: real -> real, p: Profile)
    requires ExpLaws(exp)
    ensures Logit(p.(ingresoMensual := p.ingresoMensual + 1)) == Logit(p) + 0.01 / 10000.0
    ensures PdScore(exp, p) < PdScore(exp, p.(ingresoMensual := p.ingresoMensual + 1))
  {
    var q := p.(ingresoMensual := p.ingresoMensual + 1);
    var x := Features(p);
    assert Features(q) == x[1 := x[1] + 1.0 / 10000.0];
    DotUpdate(Coeficientes, x, 1, 1.0 / 10000.0);
    PdStrictlyIncreasing(exp, Logit(p), Logit(q));
  }

  /** The debt weight is negative: one more unit of current debt lowers
      the logit by 0.3/50000 and so lowers the probability of default. */
  lemma DebtLowersPd(exp: real -> real, p: Profile)
    requires ExpLaws(exp)
    ensures Logit(p.(deudaActual := p.deudaActual + 1)) == Logit(p) - 0.3 / 50000.0
    ensures PdScore(exp, p.(deudaActual := p.deudaActual + 1)) < PdScore(exp, p)
  {
    var q := p.(deudaActual := p.deudaActual + 1);
    var x := Features(p);
    assert Features(q) == x[5 := x[5] + 1.0 / 50000.0];
    DotUpdate(Coeficientes, x, 5, 1.0 / 50000.0);
    PdStrictlyIncreasing(exp, Logit(q), Logit(p));
  }

  // ---------------------------------------------------------------------
  // Loss given default
  // ---------------------------------------------------------------------

  /** The one failure of the computation: the savings-to-income ratio is
      taken with a monthly income of zero. */
  datatype EvalError = DivisionByZero

  datatype Result<T> = Ok(value: T) | Err(error: EvalError)

  /** The loss fraction before it is floored at zero. */
  function RawLgd(p: Profile): real
    requires p.patrimonioNeto != 0 && p.ingresoMensual != 0
  {
    0.45 + 0.2 * (p.deudaActual as real / p.patrimonioNeto as real)
      - 0.1 * (p.ahorrosDisponibles as real / p.ingresoMensual as real)
  }

  function Max(a: real, b: real): real {
    if a >= b then a else b
  }

  /** Loss given default: the formula floored at zero when there is net
      worth, the fixed fallback 0.85 otherwise. */
  function Lgd(p: Profile): (r: Result<real>)
    ensures r.Err? <==> p.patrimonioNeto > 0 && p.ingresoMensual == 0
    ensures p.patrimonioNeto <= 0 ==> r == Ok(0.85)
    ensures r.Ok? ==> r.value >= 0.0
    ensures r.Ok? && p.patrimonioNeto > 0 ==>
      r.value >= RawLgd(p) && (r.value == 0.0 || r.value == RawLgd(p))
  {
    if p.patrimonioNeto > 0 then
      if p.ingresoMensual == 0 then Err(DivisionByZero)
      else Ok(Max(0.0, RawLgd(p)))
    else
      Ok(0.85)
  }

  /** With net worth, the floor changes nothing when the formula is
      already non-negative. */
  lemma LgdIsRawWhenNonNegative(p: Profile)
    requires p.patrimonioNeto > 0 && p.ingresoMensual != 0 && RawLgd(p) >= 0.0
    ensures Lgd(p) == Ok(RawLgd(p))
  {
  }

  /** A valid profile without net worth gets the fallback 0.85, whatever its
      debt, savings and income. */
  lemma LgdFallback(p: Profile, deuda: int, ahorros: int, ingreso: int)
    requires Valid(p) && p.patrimonioNeto <= 0
    ensures p.patrimonioNeto == 0
    ensures Lgd(p.(deudaActual := deuda, ahorrosDisponibles := ahorros, ingresoMensual := ingreso)) == Ok(0.85)
  {
  }

  /** With net worth and income, more debt never lowers the loss fraction. */
  lemma LgdMonotoneInDebt(p: Profile, deuda: int)
    requires p.patrimonioNeto > 0 && p.ingresoMensual != 0 && p.deudaActual <= deuda
    ensures Lgd(p).Ok? && Lgd(p.(deudaActual := deuda)).Ok?
    ensures Lgd(p).value <= Lgd(p.(deudaActual := deuda)).value
  {
    var q := p.(deudaActual := deuda);
    var n := p.patrimonioNeto as real;
    assert p.deudaActual as real / n <= deuda as real / n by {
      assert (p.deudaActual as real / n) * n == p.deudaActual as real;
      assert (deuda as real / n) * n == deuda as real;
    }
    assert RawLgd(p) <= RawLgd(q);
  }

  /** For a valid profile with net worth and income, more savings never
      raise the loss fraction. */
  lemma LgdAntitoneInSavings(p: Profile, ahorros: int)
    requires Valid(p) && p.patrimonioNeto > 0 && p.ingresoMensual != 0
    requires p.ahorrosDisponibles <= ahorros
    ensures Lgd(p).Ok? && Lgd(p.(ahorrosDisponibles := ahorros)).Ok?
    ensures Lgd(p.(ahorrosDisponibles := ahorros)).value <= Lgd(p).value
  {
    var q := p.(ahorrosDisponibles := ahorros);
    var m := p.ingresoMensual as real;
    assert m > 0.0;
    assert p.ahorrosDisponibles as real / m <= ahorros as real / m by {
      assert (p.ahorrosDisponibles as real / m) * m == p.ahorrosDisponibles as real;
      assert (ahorros as real / m) * m == ahorros as real;
    }
    assert RawLgd(q) <= RawLgd(p);
  }

  // ---------------------------------------------------------------------
  // Exposure and expected loss
  // ---------------------------------------------------------------------

  /** Exposure at default: the requested amount times the utilisation
      fraction. For a valid profile it lies between zero and the amount. */
  function Ead(p: Profile): (r: real)
    ensures r * 100.0 == p.montoCredito as real * p.usoActualCredito as real
    ensures Valid(p) ==> 0.0 <= r <= p.montoCredito as real
  {
    var r := p.montoCredito as real * (p.usoActualCredito as real / 100.0);
    assert Valid(p) ==> 0.0 <= r <= p.montoCredito as real by {
      if Valid(p) {
        MulMonotone(p.montoCredito as real, p.usoActualCredito as real / 100.0, 1.0);
        MulMonotone(p.montoCredito as real, 0.0, p.usoActualCredito as real / 100.0);
      }
    }
    r
  }

  /** Expected loss: the product of the three quantities. With a
      probability below one and non-negative loss and exposure it lies
      between zero and the loss-weighted exposure. */
  function El(pd: real, lgd: real, ead: real): (r: real)
    ensures 0.0 <= pd < 1.0 && 0.0 <= lgd && 0.0 <= ead ==> 0.0 <= r <= lgd * ead
  {
    var r := pd * lgd * ead;
    assert r == pd * (lgd * ead);
    assert 0.0 <= pd < 1.0 && 0.0 <= lgd && 0.0 <= ead ==> 0.0 <= r <= lgd * ead by {
      if 0.0 <= pd < 1.0 && 0.0 <= lgd && 0.0 <= ead {
        MulMonotone(lgd, 0.0, ead);
        MulMonotone(lgd * ead, pd, 1.0);
        MulMonotone(lgd * ead, 0.0, pd);
      }
    }
    r
  }

  // ---------------------------------------------------------------------
  // Evaluation
  // ---------------------------------------------------------------------

  datatype Assessment = Assessment(pd: real, lgd: real, ead: real, el: real)

  /** One press of the evaluation button. It fails exactly when the
      savings-to-income ratio divides by a zero income; otherwise it
      reports the four risk quantities of the profile. */
  function Evaluate(exp: real -> real, p: Profile): (r: Result<Assessment>)
    requires ExpLaws(exp)
    ensures r.Err? <==> p.patrimonioNeto > 0 && p.ingresoMensual == 0
    ensures r.Ok? ==>
      && r.value.pd == PdScore(exp, p)
      && Lgd(p) == Ok(r.value.lgd)
      && r.value.ead == Ead(p)
      && r.value.el == r.value.pd * r.value.lgd * r.value.ead
  {
    var l := Lgd(p);
    if l.Err? then Err(l.error)
    else
      var pd, lgd, ead := PdScore(exp, p), l.value, Ead(p);
      Ok(Assessment(pd, lgd, ead, El(pd, lgd, ead)))
  }

  /** Every assessment has a probability strictly between zero and one and
      a non-negative loss fraction; for a valid profile the exposure lies
      between zero and the requested amount and the expected loss between
      zero and the loss-weighted exposure. */
  lemma AssessmentBounds(exp: real -> real, p: Profile)
    requires ExpLaws(exp) && !(p.patrimonioNeto > 0 && p.ingresoMensual == 0)
    ensures Evaluate(exp, p).Ok?
    ensures var a := Evaluate(exp, p).value;
      && 0.0 < a.pd < 1.0 && 0.0 <= a.lgd
      && (Valid(p) ==> 0.0 <= a.ead <= p.montoCredito as real && 0.0 <= a.el <= a.lgd * a.ead)
  {
    var a := Evaluate(exp, p).value;
    assert a.el == El(a.pd, a.lgd, a.ead);
  }

  /** The worked example: an applicant aged 30 with income 2000, five
      accounts (one delinquent), 40% utilisation, debt 10000, five years of
      history, one late payment, two inquiries, net worth 5000, savings
      1000 and a requested amount of 10000. */
  lemma WorkedExample(exp: real -> real)
    requires ExpLaws(exp)
    ensures
      var p := Profile("", 30, Soltero, 2000, 0, 10000, 5000, 1000, 0, 5, 1, 5, 1, 0, 2,
                       0, 40, 0, Consumo, 10000, 6);
      && Valid(p)
      && Logit(p) == -1039.0 / 3000.0
      && Lgd(p) == Ok(0.8)
      && Ead(p) == 4000.0
      && Evaluate(exp, p).Ok?
      && Evaluate(exp, p).value.el == Pd(exp, -1039.0 / 3000.0) * 3200.0
  {
    var p := Profile("", 30, Soltero, 2000, 0, 10000, 5000, 1000, 0, 5, 1, 5, 1, 0, 2,
                     0, 40, 0, Consumo, 10000, 6);
    LogitExpanded(p);
  }
}
