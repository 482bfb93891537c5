/** The nine variant cases a calibrated call is scored under
    (namespace CALIBRATION_MODEL), their labels, the quality filter each one
    raises, and the stored state of one scoring model (class c_model). */
module CalibrationModel {
  import opened Checks
  import opened VcfFilters

  /** Zygosity × variant type, in the order of the C++ enumeration. */
  datatype VarCase =
    | HetSNP
    | HomSNP
    | HetAltSNP
    | HetIns
    | HomIns
    | HetAltIns
    | HetDel
    | HomDel
    | HetAltDel

  datatype Zygosity = Het | Hom | HetAlt
  datatype VariantType = SNP | Insertion | Deletion

  /** The enumerator SIZE: the number of variant cases. */
  const CASES: nat := 9

  /** The enumerator value of a variant case. */
  function CaseIndex(c: VarCase): (r: nat)
    ensures r < CASES
  {
    match c
    case HetSNP => 0
    case HomSNP => 1
    case HetAltSNP => 2
    case HetIns => 3
    case HomIns => 4
    case HetAltIns => 5
    case HetDel => 6
    case HomDel => 7
    case HetAltDel => 8
  }

  /** The variant case with a given enumerator value. */
  function CaseOf(idx: nat): (r: Checked<VarCase>)
    ensures r.Ok? <==> idx < CASES
    ensures r.Ok? ==> CaseIndex(r.value) == idx
  {
    if idx == 0 then Ok(HetSNP)
    else if idx == 1 then Ok(HomSNP)
    else if idx == 2 then Ok(HetAltSNP)
    else if idx == 3 then Ok(HetIns)
    else if idx == 4 then Ok(HomIns)
    else if idx == 5 then Ok(HetAltIns)
    else if idx == 6 then Ok(HetDel)
    else if idx == 7 then Ok(HomDel)
    else if idx == 8 then Ok(HetAltDel)
    else AssertFails
  }

  function ZygosityOf(c: VarCase): Zygosity {
    match c
    case HetSNP | HetIns | HetDel => Het
    case HomSNP | HomIns | HomDel => Hom
    case HetAltSNP | HetAltIns | HetAltDel => HetAlt
  }

  function TypeOf(c: VarCase): VariantType {
    match c
    case HetSNP | HomSNP | HetAltSNP => SNP
    case HetIns | HomIns | HetAltIns => Insertion
    case HetDel | HomDel | HetAltDel => Deletion
  }

  /** The nine cases are exactly the cross product of zygosity and variant type,
      enumerated type-major: index = 3 * type + zygosity. */
  lemma CasesAreCrossProduct(z: Zygosity, t: VariantType)
    ensures exists c :: ZygosityOf(c) == z && TypeOf(c) == t
    ensures forall c, d :: ZygosityOf(c) == ZygosityOf(d) && TypeOf(c) == TypeOf(d) ==> c == d
  {
    var c := match t
      case SNP => (match z case Het => HetSNP case Hom => HomSNP case HetAlt => HetAltSNP)
      case Insertion => (match z case Het => HetIns case Hom => HomIns case HetAlt => HetAltIns)
      case Deletion => (match z case Het => HetDel case Hom => HomDel case HetAlt => HetAltDel);
    assert ZygosityOf(c) == z && TypeOf(c) == t;
  }

  /** get_label: the key of a case in the model parameter file. */
  function Label(idx: nat): (r: Checked<string>)
    ensures r.Ok? <==> idx < CASES
    ensures r.Ok? ==> |r.value| > 0
  {
    match CaseOf(idx)
    case AssertFails => AssertFails
    case Ok(c) =>
      Ok(match c
        case HetSNP => "snphet"
        case HomSNP => "snphom"
        case HetAltSNP => "snphetalt"
        case HetIns => "inshet"
        case HomIns => "inshom"
        case HetAltIns => "inshetalt"
        case HetDel => "delhet"
        case HomDel => "delhom"
        case HetAltDel => "delhetalt")
  }

  /** get_label_header: the human-readable name of a case for the VCF header. */
  function LabelHeader(idx: nat): (r: Checked<string>)
    ensures r.Ok? <==> idx < CASES
    ensures r.Ok? ==> |r.value| > 0
  {
    match CaseOf(idx)
    case AssertFails => AssertFails
    case Ok(c) =>
      Ok(match c
        case HetSNP => "het SNP"
        case HomSNP => "hom SNP"
        case HetAltSNP => "het-alt SNP"
        case HetIns => "het insertion"
        case HomIns => "hom insertion"
        case HetAltIns => "het-alt insertion"
        case HetDel => "het deletion"
        case HomDel => "hom deletion"
        case HetAltDel => "het-alt deletion")
  }

  /** Distinct cases have distinct parameter-file labels and distinct header labels. */
  lemma LabelsDistinct(i: nat, j: nat)
    requires i < CASES && j < CASES && i != j
    ensures Label(i).value != Label(j).value
    ensures LabelHeader(i).value != LabelHeader(j).value
  {
  }

  /** get_Qscore_filter: the low-quality filter a call of a given case receives. */
  function QscoreFilter(idx: nat): (r: Checked<Filter>)
    ensures r.Ok? <==> idx < CASES
  {
    match CaseOf(idx)
    case AssertFails => AssertFails
    case Ok(c) =>
      Ok(match c
        case HetSNP => LowQscoreHetSNP
        case HomSNP => LowQscoreHomSNP
        case HetAltSNP => LowQscoreHetAltSNP
        case HetIns => LowQscoreHetIns
        case HomIns => LowQscoreHomIns
        case HetAltIns => LowQscoreHetAltIns
        case HetDel => LowQscoreHetDel
        case HomDel => LowQscoreHomDel
        case HetAltDel => LowQscoreHetAltDel)
  }

  /** The nine per-case quality filters, listed independently of QscoreFilter. */
  function LowQscoreFilters(): set<Filter> {
    {LowQscoreHetSNP, LowQscoreHomSNP, LowQscoreHetAltSNP,
     LowQscoreHetIns, LowQscoreHomIns, LowQscoreHetAltIns,
     LowQscoreHetDel, LowQscoreHomDel, LowQscoreHetAltDel}
  }

  /** The filter of case idx is the filter enumerated idx places after
      LowQscoreHetSNP: same zygosity and variant type, same order. */
  lemma QscoreFilterInOrder(idx: nat)
    requires idx < CASES
    ensures Index(QscoreFilter(idx).value) == Index(LowQscoreHetSNP) + idx
  {
  }

  /** get_Qscore_filter is injective on the nine cases. */
  lemma QscoreFilterInjective(i: nat, j: nat)
    requires i < CASES && j < CASES
    requires QscoreFilter(i).value == QscoreFilter(j).value
    ensures i == j
  {
  }

  /** get_Qscore_filter maps the nine cases onto exactly the nine LowQscore filters. */
  lemma QscoreFilterImage()
    ensures (set i: nat | i < CASES :: QscoreFilter(i).value) == LowQscoreFilters()
  {
    var image := set i: nat | i < CASES :: QscoreFilter(i).value;
    forall f | f in LowQscoreFilters()
      ensures f in image
    {
      var i: nat := Index(f) - Index(LowQscoreHetSNP);
      QscoreFilterInOrder(i);
      assert FromIndex(Index(QscoreFilter(i).value)) == FromIndex(Index(f));
      IndexRoundTrip(f);
      IndexRoundTrip(QscoreFilter(i).value);
    }
  }

  /** No valid case is ever given a conflict, depth, strand-bias or
      genotype-quality filter:
      LowGQX is what the C++ returns only after its assertion has failed. */
  lemma QscoreFilterNeverOther(idx: nat)
    requires idx < CASES
    ensures QscoreFilter(idx).value !in
      {IndelConflict, SiteConflict, PloidyConflict, PhasingConflict, LowGQX, HighDepth, HighSNVSB}
  {
  }

  /** Model parameters, keyed by case label, then sub-table name
      (coefficients, normalisation factors, cut-offs, ...), then feature name. */
  type FeatureMap = map<string, real>
  type ParMap = map<string, map<string, FeatureMap>>

  /** One named scoring model. The derived options it keeps a reference to
      are not part of this model. */
  class CModel {
    const modelName: string
    const modelType: string
    var pars: ParMap

    constructor (name: string, kind: string)
      ensures modelName == name && modelType == kind
      ensures pars == map[]
    {
      modelName := name;
      modelType := kind;
      pars := map[];
    }
  }
}
