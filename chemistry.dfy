/** The pH engine of the titration simulator: the three titration types, the
    moles and volume bookkeeping, the branch selection of calculatePH, the
    equivalence volume and the colour banding of the solution.

    Volumes are in mL, molarities in mol/L, and all arithmetic is exact
    (real numbers, not floating point). Math.log10 and Math.sqrt are not
    interpreted: they are supplied as a Transcendentals record, so the only
    pH values the model fixes exactly are the literal 7s. */
module Chemistry {

  /** Ka of ethanoic acid. */
  const KA_ETHANOIC: real := 1.8e-5
  /** Kb of ammonia. */
  const KB_AMMONIA: real := 1.8e-5
  /** Ionic product of water. */
  const KW: real := 1.0e-14

  /** The value of the titration type selector. A name that is none of the
      three known types is kept as Other, for which calculatePH answers 7. */
  datatype SimulationType =
    | StrongAcidStrongBase
    | WeakAcidStrongBase
    | StrongAcidWeakBase
    | Other(name: string)

  /** Molarities of the acid in the flask and of the base in the burette. */
  datatype Concentration = Concentration(acid: real, base: real)

  predicate ValidConcentration(c: Concentration) {
    c.acid > 0.0 && c.base > 0.0
  }

  type PositiveReal = r: real | r > 0.0 witness 1.0

  /** Math.log10 and Math.sqrt, left uninterpreted. The model fixes only their
      domain (positive arguments) and that a square root of a positive number
      is positive, which is what keeps every division in calculatePH defined. */
  datatype Transcendentals = Transcendentals(log10: PositiveReal -> real, sqrt: PositiveReal -> PositiveReal)

  /** Which formula calculatePH uses. */
  datatype Branch =
    | ExcessAcid       // more acid than base: pH from the excess strong acid
    | ExcessBase       // more base than acid: pH from the excess strong base
    | Equivalence      // equal moles: 7, or the hydrolysis of the conjugate species
    | Buffer           // a weak species and its conjugate coexist
    | InitialWeakAcid  // weak acid before any base is added
    | Default          // unrecognised titration type

  /** Moles of solute in `volumeMl` mL of a `molarity` mol/L solution. */
  function Moles(volumeMl: real, molarity: real): real {
    (volumeMl / 1000.0) * molarity
  }

  /** The dispatch of calculatePH: on the titration type, then on how the
      moles of acid compare with the moles of base; for a weak acid with
      excess acid, also on whether any base has been added. */
  function SelectBranch(t: SimulationType, nAcid: real, nBase: real, baseVol: real): Branch {
    match t
    case StrongAcidStrongBase =>
      if nAcid > nBase then ExcessAcid
      else if nAcid < nBase then ExcessBase
      else Equivalence
    case WeakAcidStrongBase =>
      if nAcid > nBase then (if baseVol > 0.0 then Buffer else InitialWeakAcid)
      else if nAcid < nBase then ExcessBase
      else Equivalence
    case StrongAcidWeakBase =>
      if nAcid > nBase then ExcessAcid
      else if nAcid < nBase then Buffer
      else Equivalence
    case Other(_) => Default
  }

  /** The branch calculatePH takes for `acidVol` mL of acid and `baseVol` mL
      of base added. It depends only on where the base volume lies relative
      to the equivalence volume. */
  function BranchAt(t: SimulationType, c: Concentration, acidVol: real, baseVol: real): (b: Branch)
    requires ValidConcentration(c)
    ensures var e := EquivalenceVolume(acidVol, c);
      b == match t
        case StrongAcidStrongBase =>
          if baseVol < e then ExcessAcid else if baseVol == e then Equivalence else ExcessBase
        case WeakAcidStrongBase =>
          if baseVol < e then (if baseVol > 0.0 then Buffer else InitialWeakAcid)
          else if baseVol == e then Equivalence else ExcessBase
        case StrongAcidWeakBase =>
          if baseVol < e then ExcessAcid else if baseVol == e then Equivalence else Buffer
        case Other(_) => Default
  {
    MolesOrder(acidVol, baseVol, c);
    SelectBranch(t, Moles(acidVol, c.acid), Moles(baseVol, c.base), baseVol)
  }

  lemma QuotientPositive(a: real, b: real)
    requires a > 0.0 && b > 0.0
    ensures a / b > 0.0 && a * b > 0.0
  {
  }

  /** pH of `acidVol` mL of acid after `baseVol` mL of base were added. The
      exact results are 7 at the equivalence volume of a strong acid and a
      strong base, and 7 for an unrecognised type. */
  function CalculatePH(m: Transcendentals, t: SimulationType, c: Concentration, acidVol: real, baseVol: real): (pH: real)
    requires ValidConcentration(c) && acidVol > 0.0 && baseVol >= 0.0
    ensures t.StrongAcidStrongBase? && baseVol == EquivalenceVolume(acidVol, c) ==> pH == 7.0
    ensures t.Other? ==> pH == 7.0
  {
    var nAcid := Moles(acidVol, c.acid);
    var nBase := Moles(baseVol, c.base);
    var totalVolume := (acidVol + baseVol) / 1000.0;
    QuotientPositive(acidVol / 1000.0, c.acid);
    match BranchAt(t, c, acidVol, baseVol)
    case ExcessAcid =>
      var cH := (nAcid - nBase) / totalVolume;
      QuotientPositive(nAcid - nBase, totalVolume);
      -m.log10(cH)
    case ExcessBase =>
      var cOH := (nBase - nAcid) / totalVolume;
      QuotientPositive(nBase - nAcid, totalVolume);
      QuotientPositive(KW, cOH);
      -m.log10(KW / cOH)
    case Buffer =>
      if t.WeakAcidStrongBase? then
        var cHA := (nAcid - nBase) / totalVolume;
        QuotientPositive(nAcid - nBase, totalVolume);
        QuotientPositive(baseVol / 1000.0, c.base);
        var cA := nBase / totalVolume;
        QuotientPositive(nBase, totalVolume);
        QuotientPositive(cA, cHA);
        -m.log10(KA_ETHANOIC) + m.log10(cA / cHA)
      else
        var cB := (nBase - nAcid) / totalVolume;
        QuotientPositive(nBase - nAcid, totalVolume);
        var cBH := nAcid / totalVolume;
        QuotientPositive(nAcid, totalVolume);
        QuotientPositive(KB_AMMONIA, cB);
        var cOH := KB_AMMONIA * cB / cBH;
        QuotientPositive(KB_AMMONIA * cB, cBH);
        QuotientPositive(KW, cOH);
        -m.log10(KW / cOH)
    case InitialWeakAcid =>
      var cHA := nAcid / totalVolume;
      QuotientPositive(nAcid, totalVolume);
      QuotientPositive(KA_ETHANOIC, cHA);
      -m.log10(m.sqrt(KA_ETHANOIC * cHA))
    case Equivalence =>
      if t.WeakAcidStrongBase? then
        var cA := nAcid / totalVolume;
        QuotientPositive(nAcid, totalVolume);
        QuotientPositive(KW, cA);
        QuotientPositive(KW * cA, KA_ETHANOIC);
        var cOH := m.sqrt(KW * cA / KA_ETHANOIC);
        QuotientPositive(KW, cOH);
        -m.log10(KW / cOH)
      else if t.StrongAcidWeakBase? then
        var cBH := nAcid / totalVolume;
        QuotientPositive(nAcid, totalVolume);
        QuotientPositive(KW, cBH);
        QuotientPositive(KW * cBH, KB_AMMONIA);
        -m.log10(m.sqrt(KW * cBH / KB_AMMONIA))
      else
        7.0
    case Default => 7.0
  }

  /** Base volume (mL) whose moles equal the moles of acid in the flask. */
  function EquivalenceVolume(acidVol: real, c: Concentration): (v: real)
    requires ValidConcentration(c)
    ensures Moles(v, c.base) == Moles(acidVol, c.acid)
    ensures acidVol > 0.0 ==> v > 0.0
  {
    (Moles(acidVol, c.acid) / c.base) * 1000.0
  }

  /** With positive molarities, comparing moles of base with moles of acid is
      the same as comparing the base volume with the equivalence volume. */
  lemma MolesOrder(acidVol: real, baseVol: real, c: Concentration)
    requires ValidConcentration(c)
    ensures Moles(baseVol, c.base) < Moles(acidVol, c.acid) <==> baseVol < EquivalenceVolume(acidVol, c)
    ensures Moles(baseVol, c.base) == Moles(acidVol, c.acid) <==> baseVol == EquivalenceVolume(acidVol, c)
    ensures Moles(baseVol, c.base) > Moles(acidVol, c.acid) <==> baseVol > EquivalenceVolume(acidVol, c)
  {
    var e := EquivalenceVolume(acidVol, c);
    var d := baseVol - e;
    assert Moles(baseVol, c.base) - Moles(acidVol, c.acid) == (d / 1000.0) * c.base;
    if d > 0.0 {
      QuotientPositive(d / 1000.0, c.base);
    } else if d < 0.0 {
      QuotientPositive(-d / 1000.0, c.base);
    }
  }

  /** The default flask: 25 mL of 0.1 mol/L acid against 0.1 mol/L base
      reaches equivalence at exactly 25 mL. */
  lemma DefaultEquivalenceVolume()
    ensures EquivalenceVolume(25.0, Concentration(0.1, 0.1)) == 25.0
  {
  }

  /** Colour of the solution, one band per range of pH. */
  datatype ColorBand =
    | StrongAcidRed
    | WeakAcidOrange
    | NeutralPurple
    | WeakBaseLightBlue
    | StrongBaseBlue

  /** Position of a band on the pH scale, from most acidic to most basic. */
  function BandIndex(band: ColorBand): nat {
    match band
    case StrongAcidRed => 0
    case WeakAcidOrange => 1
    case NeutralPurple => 2
    case WeakBaseLightBlue => 3
    case StrongBaseBlue => 4
  }

  /** Colour of the solution at a given pH: every pH falls in exactly one of
      five ranges, and both 6 and 8 count as near neutral. */
  function GetSolutionColor(pH: real): (band: ColorBand)
    ensures band == StrongAcidRed <==> pH < 4.0
    ensures band == WeakAcidOrange <==> 4.0 <= pH < 6.0
    ensures band == NeutralPurple <==> 6.0 <= pH <= 8.0
    ensures band == WeakBaseLightBlue <==> 8.0 < pH < 11.0
    ensures band == StrongBaseBlue <==> pH >= 11.0
  {
    if pH < 4.0 then StrongAcidRed
    else if pH < 6.0 then WeakAcidOrange
    else if pH >= 6.0 && pH <= 8.0 then NeutralPurple
    else if pH > 8.0 && pH < 11.0 then WeakBaseLightBlue
    else StrongBaseBlue
  }

  /** A higher pH never gets a more acidic colour. */
  lemma ColorMonotone(pH1: real, pH2: real)
    requires pH1 <= pH2
    ensures BandIndex(GetSolutionColor(pH1)) <= BandIndex(GetSolutionColor(pH2))
  {
  }
}
