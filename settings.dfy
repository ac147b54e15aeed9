/**
 * `roundMinutes`, `adjustForPhototype` and `computeSettings` (app.jsx): the
 * per-phototype factor table applied to a catalog baseline, and the payload
 * the page shows and exports. Factors are exact hundredths (0.95 is 95).
 */
module Settings {
  import opened Rounding
  import opened HexColor
  import opened Phototypes
  import opened Catalog

  /** One row of the factor table, in hundredths. */
  datatype Factors = Factors(intensityFactor: nat, irFactor: nat)

  /**
   * `map[phototypeTag] || map.III`: the row for one of the five tags, and the
   * "III" row for any other string.
   */
  function FactorsFor(tag: string): (f: Factors)
    ensures 75 <= f.intensityFactor <= 100 && 75 <= f.irFactor <= 100
  {
    if tag == "I-II" then Factors(100, 100)
    else if tag == "III" then Factors(95, 95)
    else if tag == "IV" then Factors(90, 90)
    else if tag == "V" then Factors(80, 80)
    else if tag == "VI" then Factors(75, 75)
    else Factors(95, 95)
  }

  /** Darker classes never get larger factors. */
  lemma FactorsDecrease(p: Phototype, q: Phototype)
    requires p.Rank() <= q.Rank()
    ensures FactorsFor(q.Tag()).intensityFactor <= FactorsFor(p.Tag()).intensityFactor
    ensures FactorsFor(q.Tag()).irFactor <= FactorsFor(p.Tag()).irFactor
  {
  }

  /**
   * `roundMinutes(num / den)`: `Math.max(1, Math.round(n))`. The result is a
   * whole number of at least one minute, and it is the rounded value
   * whenever `n >= 0.5`, the point from which rounding gives at least 1.
   */
  function RoundMinutes(num: nat, den: nat): (m: nat)
    requires den > 0
    ensures m >= 1
    ensures 2 * num >= den ==> m == RoundHalfUp(num, den)
    ensures 2 * num < den ==> m == 1
  {
    var r := RoundHalfUp(num, den);
    if r < 1 then 1 else r
  }

  datatype Adjusted = Adjusted(ledColor: string, intensity: nat, irMinutes: nat)

  /**
   * `adjustForPhototype(base, tag)`: the colour passes through; the
   * intensity is `base.intensity * f` rounded to the nearest integer (halves
   * up), so never above the base; the minutes are `roundMinutes` of
   * `base.ir_minutes * f'`, so at least one.
   */
  function AdjustForPhototype(base: Baseline, tag: string): (a: Adjusted)
    ensures a.ledColor == base.ledColor
    ensures a.intensity <= base.intensity
    ensures var f := FactorsFor(tag).intensityFactor;
      2 * a.intensity * 100 <= 2 * base.intensity * f + 100 < 2 * (a.intensity + 1) * 100
    ensures a.irMinutes == RoundMinutes(base.irMinutes * FactorsFor(tag).irFactor, 100)
    ensures a.irMinutes >= 1
    ensures a.irMinutes <= base.irMinutes || base.irMinutes == 0
  {
    var f := FactorsFor(tag);
    ScaledAtMost(base.intensity, f.intensityFactor);
    ScaledAtMost(base.irMinutes, f.irFactor);
    Adjusted(base.ledColor,
             RoundHalfUp(base.intensity * f.intensityFactor, 100),
             RoundMinutes(base.irMinutes * f.irFactor, 100))
  }

  /** A tag outside the five gives exactly what "III" gives. */
  lemma UnknownTagFallsBack(base: Baseline, tag: string)
    requires tag !in {"I-II", "III", "IV", "V", "VI"}
    ensures AdjustForPhototype(base, tag) == AdjustForPhototype(base, "III")
  {
  }

  const Notes: string := "El tiempo de infrarrojo está en minutos enteros (no segundos). Use la toma inteligente para programar encendido/apagado. Validar clínicamente antes de uso."

  datatype Led = Led(color: string, intensityPct: nat)
  datatype Infrared = Infrared(minutes: nat)

  /** The settings object the page shows, copies and downloads. */
  datatype Payload = Payload(disease: string, diseaseLabel: string, phototype: string,
                             led: Led, infrared: Infrared, notes: string)

  /**
   * `computeSettings(diseaseKey, phototypeTag)`: the key, the label and the
   * tag are copied verbatim; the LED and infrared entries are the adjusted
   * values; the notes are the fixed advisory text. The colour is a valid
   * `#RRGGBB`, the intensity a percentage no larger than the baseline's, and
   * the infrared time at least one minute.
   */
  function ComputeSettings(d: Disease, tag: string): (p: Payload)
    ensures p.disease == Key(d) && p.diseaseLabel == Base(d).labelText && p.phototype == tag
    ensures p.notes == Notes
    ensures p.led.color == Base(d).ledColor && IsUpperHexColor(p.led.color)
    ensures p.led.intensityPct <= Base(d).intensity <= 100
    ensures p.infrared.minutes >= 1
    ensures p.led.intensityPct == AdjustForPhototype(Base(d), tag).intensity
    ensures p.infrared.minutes == AdjustForPhototype(Base(d), tag).irMinutes
  {
    var base := Base(d);
    var adj := AdjustForPhototype(base, tag);
    Payload(Key(d), base.labelText, tag, Led(adj.ledColor, adj.intensity), Infrared(adj.irMinutes), Notes)
  }

  /** Mild acne on class V skin: 60 % becomes 48 %, 6 minutes become 5. */
  lemma AcneOnTypeV()
    ensures ComputeSettings(AcneLeve, "V").led == Led("#0000FF", 48)
    ensures ComputeSettings(AcneLeve, "V").infrared.minutes == 5
  {
  }

  /** A superficial ulcer on class I-II skin keeps its baseline: 70 % and 10 minutes. */
  lemma UlcerOnTypeI_II()
    ensures ComputeSettings(UlceraSuperficial, "I-II").led == Led("#FF7F50", 70)
    ensures ComputeSettings(UlceraSuperficial, "I-II").infrared.minutes == 10
  {
  }

  /**
   * The products that land exactly on a half are rounded up, as `Math.round`
   * does: 70 * 0.95 = 66.5, 10 * 0.95 = 9.5, 70 * 0.75 = 52.5, 10 * 0.75 = 7.5
   * and, for the minutes, 5 * 0.9 = 4.5 and 6 * 0.75 = 4.5.
   */
  lemma HalfwayProductsRoundUp()
    ensures AdjustForPhototype(Base(UlceraSuperficial), "III") == Adjusted("#FF7F50", 67, 10)
    ensures AdjustForPhototype(Base(UlceraSuperficial), "VI") == Adjusted("#FF7F50", 53, 8)
    ensures AdjustForPhototype(Base(PielSensible), "IV") == Adjusted("#00FF7F", 36, 5)
    ensures AdjustForPhototype(Base(AcneLeve), "VI") == Adjusted("#0000FF", 45, 5)
  {
  }

  /** The smallest baseline under the strongest reduction still gives whole minutes above zero: 5 * 0.75 rounds to 4. */
  lemma ShortestInfrared()
    ensures ComputeSettings(PielSensible, "VI").infrared.minutes == 4
  {
  }
}
