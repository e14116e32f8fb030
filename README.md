# Credit-risk arithmetic of Risk Map Coop 360

This project models in Dafny the evaluation step of the "Risk Map Coop 360"
Streamlit page (`perdida.py`). An applicant profile is read from the form's
widgets. When the "Evaluar Riesgo" button is pressed, the page computes four
quantities:

- the probability of default (PD): the logistic transform of a fixed linear
  score over ten scaled features;
- the loss given default (LGD): a floored formula in debt, net worth,
  savings and income, with the fallback 0.85 when there is no net worth;
- the exposure at default (EAD): the requested amount times the utilisation
  fraction;
- the expected loss (EL): the product PD · LGD · EAD.

Everything is in module `Perdida` (`perdida.dfy`). The model has these parts:

- `Profile` holds every form field. The numeric fields are integers.
- `WidgetOf` lists the range each number widget declares.
- `FormAccepts` says every widget accepts its value. `Valid` writes the same
  bounds out field by field, and `FormAcceptsIffValid` proves the two agree.
- The scores are pure functions of real numbers.

The exponential used by the logistic transform is the parameter `exp`. All
the model assumes about it is `ExpLaws`: `exp(0) = 1`, `exp` is positive,
and `exp` is strictly increasing.

A zero income with positive net worth makes the source divide by zero: the
savings-to-income ratio raises Python's `ZeroDivisionError`. The model turns
that into the error value `Err(DivisionByZero)`, returned by `Lgd` and
`Evaluate`. It is a result, not a precondition, because the income widget
accepts 0.

Points of the arithmetic worth knowing:

- The logit has no intercept: -2.5 multiplies `edad/100` (perdida.py:53-55).
- The income weight is +0.01, so more income raises PD (`IncomeRaisesPd`).
- The debt weight is -0.3, so more debt lowers PD (`DebtLowersPd`).
- The code has no risk-band classification.
- The code does not guard a zero income when net worth is positive
  (perdida.py:65); the model returns the error value there.

## Model

| member | source | states |
|---|---|---|
| `Perdida.Valid` | perdida.py:18-47 | A profile is valid when every field meets its widget's declared bound, written out field by field (the partner of the widget table `WidgetOf`). |
| `Perdida.FormAcceptsIffValid` | perdida.py:18-47 | The form accepts a profile exactly when it meets every declared bound: age in 18..99; money fields ≥ 0; delinquent accounts in 0..credit accounts; employment years and credit-history years in 0..50; late payments in 0..12; utilisation in 0..100; term in 6..360; counts ≥ 0. |
| `Perdida.Features` | perdida.py:54-58 | The scaled feature vector has exactly one entry per weight (ten). |
| `Perdida.FeaturesInRange` | perdida.py:54-58 | For a valid profile every feature is ≥ 0. The age feature lies in [0.18, 0.99]. The utilisation, credit-history and late-payment features are ≤ 1. |
| `Perdida.DotUpdate` | perdida.py:60 | Adding d to one feature moves the dot product by exactly that feature's weight times d. |
| `Perdida.Logit` | perdida.py:53-60 | The logit is the dot product of the ten fixed weights with the scaled feature vector; its closed form is `LogitExpanded`. |
| `Perdida.LogitExpanded` | perdida.py:53-60 | The logit is the sum of the ten weights (-2.5, 0.01, -0.5, 1.2, 0.8, -0.3, -0.7, 0.5, 1.1, 0.9) times their scaled features (age/100, income/10000, accounts/10, delinquent/5, utilisation/100, debt/50000, history/50, late/12, bankruptcies, inquiries/10). There is no intercept. |
| `Perdida.Pd` | perdida.py:61 | The logistic transform of any logit lies strictly between 0 and 1. |
| `Perdida.PdStrictlyIncreasing` | perdida.py:61 | A larger logit gives a strictly larger probability of default. |
| `Perdida.PdAtZero` | perdida.py:61 | A zero logit gives probability 1/2. |
| `Perdida.PdScore` | perdida.py:53-61 | An applicant's probability of default lies strictly between 0 and 1. |
| `Perdida.LatePaymentRaisesPd` | perdida.py:53-61 | One more late payment, all else fixed, raises the logit by exactly 0.5/12 and strictly raises PD. |
| `Perdida.IncomeRaisesPd` | perdida.py:53-61 | One more unit of monthly income, all else fixed, raises the logit by exactly 0.01/10000 and strictly raises PD. |
| `Perdida.DebtLowersPd` | perdida.py:53-61 | One more unit of current debt, all else fixed, lowers the logit by exactly 0.3/50000 and strictly lowers PD. |
| `Perdida.RawLgd` | perdida.py:65 | The loss fraction before the floor, 0.45 + 0.2·debt/netWorth − 0.1·savings/income, defined only when both divisors are non-zero. |
| `Perdida.Lgd` | perdida.py:64-67 | The result is an error exactly when net worth > 0 and income = 0. Without net worth it is 0.85. Otherwise it is ≥ 0 and ≥ the raw formula 0.45 + 0.2·debt/netWorth − 0.1·savings/income, and equals either 0 or that formula. |
| `Perdida.LgdIsRawWhenNonNegative` | perdida.py:65 | With net worth and a non-zero income, LGD equals the raw formula whenever the formula is ≥ 0. |
| `Perdida.LgdFallback` | perdida.py:64-67 | For a valid profile without positive net worth, net worth is exactly 0 (widget minimum 0, line 26). LGD is then 0.85 whatever the debt, savings and income. |
| `Perdida.LgdMonotoneInDebt` | perdida.py:65 | With net worth and a non-zero income, LGD never decreases as debt grows. |
| `Perdida.LgdAntitoneInSavings` | perdida.py:65 | For a valid profile with net worth and a non-zero income, LGD never increases as savings grow. |
| `Perdida.Ead` | perdida.py:70 | 100 times the exposure equals amount · utilisation. For a valid profile the exposure lies between 0 and the requested amount. |
| `Perdida.El` | perdida.py:73 | Given 0 ≤ PD < 1, LGD ≥ 0 and EAD ≥ 0, the expected loss lies between 0 and LGD · EAD. |
| `Perdida.Evaluate` | perdida.py:50-73 | One evaluation fails exactly on the zero-income division. Otherwise it reports PD, LGD and EAD of the profile, and EL = PD · LGD · EAD. |
| `Perdida.AssessmentBounds` | perdida.py:60-73 | Unless income is zero with positive net worth, the evaluation succeeds. Every assessment has 0 < PD < 1 and LGD ≥ 0. For a valid profile, 0 ≤ EAD ≤ requested amount and 0 ≤ EL ≤ LGD · EAD. |
| `Perdida.WorkedExample` | perdida.py:53-73 | For the profile age 30, income 2000, 5 accounts (1 delinquent), 40% utilisation, debt 10000, 5 years of history, 1 late payment, 2 inquiries, net worth 5000, savings 1000 and amount 10000: the logit is −1039/3000, LGD = 0.8 and EAD = 4000. The evaluation succeeds with EL = PD(−1039/3000) · 3200. |

## Left out

- Page set-up, titles, the text input for the name, the select boxes and result printing (perdida.py:1-17, 19, 44-45, 76-80) are presentation. The select boxes become the enumerations `EstadoCivil` and `TipoCredito`.
- The Plotly charts (perdida.py:82-119) are presentation only.
- The widgets' `step` values are not modelled. They set the widget's increment buttons; they do not restrict which integers are accepted.
- Streamlit's re-run model (the script re-executes on every interaction, and the widgets are globals) is replaced by one `Profile` value passed to pure functions.
- `np.exp` and IEEE double arithmetic are replaced by exact `real` arithmetic and the `exp` parameter. In doubles, PD can round to exactly 0.0 or 1.0 for extreme logits. The exact model keeps it strictly inside (0, 1).
- The logistic bounds are proved from `ExpLaws` only. They hold for every positive, increasing function with exp(0) = 1, not just for the true exponential.
- Fields that no computation reads (name, marital status, monthly expenses, employment years, credit limit, credit cards, credit type, term) appear in `Profile` and in the bounds, but have no behaviour.
- No risk-band classification and no trained estimator appear in the code, so neither is modelled.
