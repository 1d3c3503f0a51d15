/** Apparent magnitude of the solar-system bodies: the default rule (base magnitude plus
    the distance term 5 log10(r) + 5 log10(delta)), and the Mercury and Venus rules that
    add a polynomial in the phase angle (Mallama and Hilton, 2018). The distance term is
    an input: logarithms are not part of this model. */
module Magnitude {

  /** Which `calculateMagnitude` a body uses. */
  datatype MagnitudeRule = BaseMagnitude(baseMag: real) | MercuryPhase | VenusPhase

  /** Mercury's phase term, in the nested (Horner) form `mercury.calculateMagnitude` uses. */
  function MercuryPhaseFactor(phase: real): real
  {
    (((((-0.0000000000030334 * phase + 0.0000000016893) * phase - 0.00000034265) * phase + 0.000033644) * phase
      - 0.0016336) * phase + 0.063280) * phase
  }

  /** Venus's phase term below 163.7 degrees: a quartic without constant term. */
  function VenusPhaseFactorLow(phase: real): real
  {
    -0.001044 * phase + 0.0003687 * phase * phase - 0.000002814 * phase * phase * phase
      + 0.000000008938 * phase * phase * phase * phase
  }

  /** Venus's phase term from 163.7 degrees on, shifted by +4.384 to cancel the constant
      that the rule adds. */
  function VenusPhaseFactorHigh(phase: real): real
  {
    236.05828 + 4.384 - 2.81914 * phase + 0.00839034 * phase * phase
  }

  function VenusPhaseFactor(phase: real): real
  {
    if phase < 163.7 then VenusPhaseFactorLow(phase) else VenusPhaseFactorHigh(phase)
  }

  /** `calculateMagnitude(phaseAngle, r, delta, distanceMagFactor)` for each rule; the
      separate r and delta factors are unused by all three rules. */
  function ApparentMagnitude(rule: MagnitudeRule, phase: real, distanceMagFactor: real): real
  {
    match rule
    case BaseMagnitude(baseMag) => baseMag + distanceMagFactor
    case MercuryPhase => -0.613 + distanceMagFactor + MercuryPhaseFactor(phase)
    case VenusPhase => -4.384 + distanceMagFactor + VenusPhaseFactor(phase)
  }

  /** The magnitude at phase angle 0: base magnitude for the default rule, the absolute
      magnitudes -0.613 and -4.384 for Mercury and Venus, each plus the distance term. */
  lemma MagnitudeAtFullPhase(rule: MagnitudeRule, d: real)
    ensures ApparentMagnitude(rule, 0.0, d) == d + match rule
      case BaseMagnitude(b) => b
      case MercuryPhase => -0.613
      case VenusPhase => -4.384
  {
  }

  /** For a fixed phase angle every rule is the distance term plus a constant: the
      magnitude grows strictly, and by exactly as much as the distance term grows. */
  lemma MagnitudeIncreasesWithDistance(rule: MagnitudeRule, phase: real, d1: real, d2: real)
    ensures ApparentMagnitude(rule, phase, d2) - ApparentMagnitude(rule, phase, d1) == d2 - d1
    ensures d1 < d2 ==> ApparentMagnitude(rule, phase, d1) < ApparentMagnitude(rule, phase, d2)
  {
  }

  /** The two Venus expressions meet to within 0.01 magnitudes at the 163.7 degree switch. */
  lemma VenusBranchesMeet()
    ensures -0.01 < VenusPhaseFactorHigh(163.7) - VenusPhaseFactorLow(163.7) < 0.01
  {
  }
}
