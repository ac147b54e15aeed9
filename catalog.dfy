/**
 * The `DISEASES` table (app.jsx): four fixed conditions, each with a label,
 * a description, a base LED colour, a base LED intensity in percent and a
 * base infrared time in whole minutes.
 */
module Catalog {
  import opened Wrappers
  import opened HexColor

  datatype Disease = UlceraSuperficial | AcneLeve | DolorMuscular | PielSensible

  datatype Baseline = Baseline(labelText: string, desc: string, ledColor: string, intensity: nat, irMinutes: nat)

  /** The keys of the table, in the order the selector lists them. */
  const AllDiseases: seq<Disease> := [UlceraSuperficial, AcneLeve, DolorMuscular, PielSensible]

  /** The property name under which the table stores a condition; looking it up finds that condition. */
  function Key(d: Disease): (k: string)
    ensures Lookup(k) == Some(d)
  {
    match d
    case UlceraSuperficial => "ulcera_superficial"
    case AcneLeve => "acné_leve"
    case DolorMuscular => "dolor_muscular"
    case PielSensible => "piel_sensible"
  }

  /** `DISEASES[Key(d)]`; every entry has a valid colour, a percentage and at least one minute. */
  function Base(d: Disease): (b: Baseline)
    ensures IsUpperHexColor(b.ledColor)
    ensures 0 < b.intensity <= 100
    ensures b.irMinutes >= 1
  {
    match d
    case UlceraSuperficial =>
      Baseline("Úlcera superficial", "Cicatrización, inflamación local", "#FF7F50", 70, 10)
    case AcneLeve =>
      Baseline("Acné leve", "Reducir inflamación y bacterias", "#0000FF", 60, 6)
    case DolorMuscular =>
      Baseline("Dolor muscular / contractura", "Mejora circulación y reduce dolor", "#FF4500", 80, 12)
    case PielSensible =>
      Baseline("Piel sensible / enrojecida", "Calmar enrojecimiento", "#00FF7F", 40, 5)
  }

  /** `DISEASES[key]` for a key read from the selector: `None` where JavaScript gets `undefined`. */
  function Lookup(key: string): Option<Disease>
  {
    if key == "ulcera_superficial" then Some(UlceraSuperficial)
    else if key == "acné_leve" then Some(AcneLeve)
    else if key == "dolor_muscular" then Some(DolorMuscular)
    else if key == "piel_sensible" then Some(PielSensible)
    else None
  }

  /**
   * Only the four property names are found, each under exactly one
   * condition, and every condition is among the selector's entries.
   */
  lemma LookupKey(key: string, d: Disease)
    ensures Lookup(key) == Some(d) <==> key == Key(d)
    ensures d in AllDiseases
  {
  }
}
