/** The fixed set of VCF FILTER flags a site or indel call can carry
    (namespace VCF_FILTERS), with their numeric indices and their labels. */
module VcfFilters {
  import opened Checks

  /** The filters, declared in the order of the C++ enumeration, so that a
      filter's index is its position below. */
  datatype Filter =
    | IndelConflict
    | SiteConflict
    | PloidyConflict
    | LowGQX
    | LowQscoreHetSNP
    | LowQscoreHomSNP
    | LowQscoreHetAltSNP
    | LowQscoreHetIns
    | LowQscoreHomIns
    | LowQscoreHetAltIns
    | LowQscoreHetDel
    | LowQscoreHomDel
    | LowQscoreHetAltDel
    | PhasingConflict
    | HighBaseFilt
    | HighDepth
    | HighSNVSB
    | HighSNVHPOL
    | HighRefRep

  /** The enumerator SIZE: the number of filters. */
  const SIZE: nat := 19

  /** The enumerator value of a filter. */
  function Index(f: Filter): (r: nat)
    ensures r < SIZE
  {
    match f
    case IndelConflict => 0
    case SiteConflict => 1
    case PloidyConflict => 2
    case LowGQX => 3
    case LowQscoreHetSNP => 4
    case LowQscoreHomSNP => 5
    case LowQscoreHetAltSNP => 6
    case LowQscoreHetIns => 7
    case LowQscoreHomIns => 8
    case LowQscoreHetAltIns => 9
    case LowQscoreHetDel => 10
    case LowQscoreHomDel => 11
    case LowQscoreHetAltDel => 12
    case PhasingConflict => 13
    case HighBaseFilt => 14
    case HighDepth => 15
    case HighSNVSB => 16
    case HighSNVHPOL => 17
    case HighRefRep => 18
  }

  /** The filter with a given enumerator value; every value below SIZE names one. */
  function FromIndex(idx: nat): (r: Checked<Filter>)
    ensures r.Ok? <==> idx < SIZE
    ensures r.Ok? ==> Index(r.value) == idx
  {
    if idx == 0 then Ok(IndelConflict)
    else if idx == 1 then Ok(SiteConflict)
    else if idx == 2 then Ok(PloidyConflict)
    else if idx == 3 then Ok(LowGQX)
    else if idx == 4 then Ok(LowQscoreHetSNP)
    else if idx == 5 then Ok(LowQscoreHomSNP)
    else if idx == 6 then Ok(LowQscoreHetAltSNP)
    else if idx == 7 then Ok(LowQscoreHetIns)
    else if idx == 8 then Ok(LowQscoreHomIns)
    else if idx == 9 then Ok(LowQscoreHetAltIns)
    else if idx == 10 then Ok(LowQscoreHetDel)
    else if idx == 11 then Ok(LowQscoreHomDel)
    else if idx == 12 then Ok(LowQscoreHetAltDel)
    else if idx == 13 then Ok(PhasingConflict)
    else if idx == 14 then Ok(HighBaseFilt)
    else if idx == 15 then Ok(HighDepth)
    else if idx == 16 then Ok(HighSNVSB)
    else if idx == 17 then Ok(HighSNVHPOL)
    else if idx == 18 then Ok(HighRefRep)
    else AssertFails
  }

  /** Index and FromIndex are inverse: the enumeration is a bijection onto [0, SIZE). */
  lemma IndexRoundTrip(f: Filter)
    ensures FromIndex(Index(f)) == Ok(f)
  {
  }

  /** The text written in the VCF FILTER column for a filter. */
  function LabelOf(f: Filter): (r: string)
  {
    match f
    case HighDepth => "HighDepth"
    case LowGQX => "LowGQX"
    case LowQscoreHetSNP => "LowGQXHetSNP"
    case LowQscoreHomSNP => "LowGQXHomSNP"
    case LowQscoreHetAltSNP => "LowGQXHetAltSNP"
    case LowQscoreHetIns => "LowGQXHetIns"
    case LowQscoreHomIns => "LowGQXHomIns"
    case LowQscoreHetAltIns => "LowGQXHetAltIns"
    case LowQscoreHetDel => "LowGQXHetDel"
    case LowQscoreHomDel => "LowGQXHomDel"
    case LowQscoreHetAltDel => "LowGQXHetAltDel"
    case PhasingConflict => "PhasingConflict"
    case HighSNVSB => "HighSNVSB"
    case HighSNVHPOL => "HighSNVHPOL"
    case HighBaseFilt => "HighDPFRatio"
    case HighRefRep => "HighREFREP"
    case IndelConflict => "IndelConflict"
    case SiteConflict => "SiteConflict"
    case PloidyConflict => "PLOIDY_CONFLICT"
  }

  /** get_label: the label for a filter index; any index that is not a
      filter is an assertion failure. */
  function Label(idx: nat): (r: Checked<string>)
    ensures r.Ok? <==> idx < SIZE
    ensures r.Ok? ==> |r.value| > 0 && FromIndex(idx).Ok? && r.value == LabelOf(FromIndex(idx).value)
  {
    match FromIndex(idx)
    case AssertFails => AssertFails
    case Ok(f) => Ok(LabelOf(f))
  }

  /** Reading a FILTER label back: the filter whose label it is, if any.
      Labels are told apart by their length first. */
  function FilterOfLabel(s: string): (r: Checked<Filter>)
  {
    if |s| == 6 then
      if s == "LowGQX" then Ok(LowGQX)
      else AssertFails
    else if |s| == 9 then
      if s == "HighDepth" then Ok(HighDepth)
      else if s == "HighSNVSB" then Ok(HighSNVSB)
      else AssertFails
    else if |s| == 10 then
      if s == "HighREFREP" then Ok(HighRefRep)
      else AssertFails
    else if |s| == 11 then
      if s == "HighSNVHPOL" then Ok(HighSNVHPOL)
      else AssertFails
    else if |s| == 12 then
      if s == "LowGQXHetSNP" then Ok(LowQscoreHetSNP)
      else if s == "LowGQXHomSNP" then Ok(LowQscoreHomSNP)
      else if s == "LowGQXHetIns" then Ok(LowQscoreHetIns)
      else if s == "LowGQXHomIns" then Ok(LowQscoreHomIns)
      else if s == "LowGQXHetDel" then Ok(LowQscoreHetDel)
      else if s == "LowGQXHomDel" then Ok(LowQscoreHomDel)
      else if s == "HighDPFRatio" then Ok(HighBaseFilt)
      else if s == "SiteConflict" then Ok(SiteConflict)
      else AssertFails
    else if |s| == 13 then
      if s == "IndelConflict" then Ok(IndelConflict)
      else AssertFails
    else if |s| == 15 then
      if s == "LowGQXHetAltSNP" then Ok(LowQscoreHetAltSNP)
      else if s == "LowGQXHetAltIns" then Ok(LowQscoreHetAltIns)
      else if s == "LowGQXHetAltDel" then Ok(LowQscoreHetAltDel)
      else if s == "PhasingConflict" then Ok(PhasingConflict)
      else if s == "PLOIDY_CONFLICT" then Ok(PloidyConflict)
      else AssertFails
    else AssertFails
  }

  /** Every label reads back as its own filter. */
  lemma LabelRoundTrip(f: Filter)
    ensures FilterOfLabel(LabelOf(f)) == Ok(f)
  {
    match f
    case HighDepth =>
    case LowGQX =>
    case LowQscoreHetSNP =>
    case LowQscoreHomSNP =>
    case LowQscoreHetAltSNP =>
    case LowQscoreHetIns =>
    case LowQscoreHomIns =>
    case LowQscoreHetAltIns =>
    case LowQscoreHetDel =>
    case LowQscoreHomDel =>
    case LowQscoreHetAltDel =>
    case PhasingConflict =>
    case HighSNVSB =>
    case HighSNVHPOL =>
    case HighBaseFilt =>
    case HighRefRep =>
    case IndelConflict =>
    case SiteConflict =>
    case PloidyConflict =>
  }

  /** No two filters share a label, so the FILTER column can be read back. */
  lemma LabelsDistinct(f: Filter, g: Filter)
    requires f != g
    ensures LabelOf(f) != LabelOf(g)
  {
    LabelRoundTrip(f);
    LabelRoundTrip(g);
  }

  /** The same, stated over indices as get_label takes them. */
  lemma LabelIndicesDistinct(i: nat, j: nat)
    requires i < SIZE && j < SIZE && i != j
    ensures Label(i).value != Label(j).value
  {
    var f, g := FromIndex(i).value, FromIndex(j).value;
    LabelsDistinct(f, g);
  }
}
