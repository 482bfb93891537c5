/** Site and indel call records and their modifiers (gvcf_locus_info.hh).
    The C++ types are structs with value semantics (the phasing buffer stores
    copies), so each is a datatype here and each in-place reset or update is a
    member function that returns the updated value. */
module LocusInfo {
  import opened Checks
  import opened VcfFilters

  // ---------------------------------------------------------------------------
  // shared_modifiers

  /** The fields every call carries: the filter bitset (one flag per Filter,
      kept as the set of raised filters), GQX, GQ and the selected genotype. */
  datatype SharedModifiers = SharedModifiers(filters: set<Filter>, gqx: int, gq: int, maxGt: nat)
  {
    /** set_filter: raise one filter; every other flag keeps its value. */
    function SetFilter(f: Filter): (r: SharedModifiers)
      ensures f in r.filters
      ensures forall g :: g != f ==> (g in r.filters <==> g in filters)
      ensures r.gqx == gqx && r.gq == gq && r.maxGt == maxGt
    {
      this.(filters := filters + {f})
    }

    /** clear: reset the whole bitset; the numeric fields are left as they are. */
    function Clear(): (r: SharedModifiers)
      ensures forall g :: g !in r.filters
      ensures r.gqx == gqx && r.gq == gq && r.maxGt == maxGt
    {
      this.(filters := {})
    }
  }

  /** A run of set_filter calls, in order. */
  function SetFilters(m: SharedModifiers, fs: seq<Filter>): SharedModifiers
    decreases |fs|
  {
    if fs == [] then m else SetFilters(m.SetFilter(fs[0]), fs[1..])
  }

  /** Between two clears the filters only accumulate: after any run of
      set_filter calls exactly the old filters and the newly set ones are raised. */
  lemma {:induction false} FiltersOnlyAccumulate(m: SharedModifiers, fs: seq<Filter>)
    ensures SetFilters(m, fs).filters == m.filters + (set i | 0 <= i < |fs| :: fs[i])
    ensures SetFilters(m, fs).maxGt == m.maxGt
    decreases |fs|
  {
    if fs != [] {
      var m' := m.SetFilter(fs[0]);
      FiltersOnlyAccumulate(m', fs[1..]);
      var rest := set i | 0 <= i < |fs[1..]| :: fs[1..][i];
      var all := set i | 0 <= i < |fs| :: fs[i];
      assert all == {fs[0]} + rest by {
        forall g | g in all ensures g in {fs[0]} + rest {
          var i :| 0 <= i < |fs| && fs[i] == g;
          if i > 0 { assert fs[1..][i - 1] == g; }
        }
        forall g | g in rest ensures g in all {
          var i :| 0 <= i < |fs[1..]| && fs[1..][i] == g;
          assert fs[i + 1] == g;
        }
      }
    }
  }

  // ---------------------------------------------------------------------------
  // indel_modifiers

  /** One operation of an alignment path (ALIGNPATH::path_t is not part of this model). */
  datatype PathSegment = PathSegment(op: char, length: nat)

  datatype IndelModifiers = IndelModifiers(
    shared: SharedModifiers,
    cigar: seq<PathSegment>,
    isOverlap: bool,
    ploidy: seq<nat>)
  {
    /** clear: no filters, not an overlap, no per-offset ploidy; the path is kept. */
    function Clear(): (r: IndelModifiers)
      ensures r.shared.filters == {}
      ensures !r.isOverlap && r.ploidy == []
      ensures r.cigar == cigar
      ensures r.shared.gqx == shared.gqx && r.shared.gq == shared.gq && r.shared.maxGt == shared.maxGt
    {
      this.(shared := shared.Clear(), isOverlap := false, ploidy := [])
    }
  }

  // ---------------------------------------------------------------------------
  // MODIFIED_SITE_GT

  datatype ModifiedSiteGt = NoneGt | UnknownGt | ZeroGt | OneGt

  function ModifiedGtIndex(g: ModifiedSiteGt): (r: nat)
    ensures r < 4
  {
    match g
    case NoneGt => 0
    case UnknownGt => 1
    case ZeroGt => 2
    case OneGt => 3
  }

  /** get_label: the GT text of a genotype override. NONE (index 0) and any
      index past ONE are assertion failures. */
  function ModifiedGtLabel(idx: nat): (r: Checked<string>)
    ensures r.Ok? <==> 1 <= idx <= 3
    ensures r.Ok? ==> |r.value| == 1
  {
    if idx == 2 then Ok("0")
    else if idx == 3 then Ok("1")
    else if idx == 1 then Ok(".")
    else AssertFails
  }

  /** The three override labels are pairwise distinct. */
  lemma ModifiedGtLabelsDistinct(i: nat, j: nat)
    requires 1 <= i <= 3 && 1 <= j <= 3 && i != j
    ensures ModifiedGtLabel(i).value != ModifiedGtLabel(j).value
  {
  }

  // ---------------------------------------------------------------------------
  // site_modifiers

  datatype SiteModifiers = SiteModifiers(
    shared: SharedModifiers,
    isUnknown: bool,
    isCovered: bool,
    isUsedCovered: bool,
    isZeroPloidy: bool,
    isBlock: bool,
    isPhasedRegion: bool,
    modifiedGt: ModifiedSiteGt)
  {
    /** clear: no filters, unknown, uncovered, no override. */
    function Clear(): (r: SiteModifiers)
      ensures r.shared.filters == {}
      ensures r.isUnknown
      ensures !r.isCovered && !r.isUsedCovered && !r.isZeroPloidy && !r.isBlock && !r.isPhasedRegion
      ensures r.modifiedGt == NoneGt
      ensures r.shared.gqx == shared.gqx && r.shared.gq == shared.gq && r.shared.maxGt == shared.maxGt
    {
      SiteModifiers(shared.Clear(), true, false, false, false, false, false, NoneGt)
    }

    /** is_gqx: the site has a genotype whose quality is reported. */
    predicate IsGqx()
    {
      !isUnknown && isUsedCovered && !isZeroPloidy
    }
  }

  /** A freshly cleared site never reports a genotype quality. */
  lemma ClearedSiteIsNotGqx(m: SiteModifiers)
    ensures !m.Clear().IsGqx()
  {
  }

  // ---------------------------------------------------------------------------
  // site_info

  /** The diploid-genotype tables a site call consults (DIGT is not part of this
      model): whether a genotype index is heterozygous, its two allele bases,
      and the VCF GT text of a genotype given the reference genotype. */
  datatype SiteCodes = SiteCodes(
    isHet: nat -> bool,
    alleles: nat -> (char, char),
    vcfGt: (nat, nat) -> string)

  datatype SiteInfo = SiteInfo(
    pos: int,
    ref: char,
    phasedRef: string,
    phasedAlt: string,
    phasedAD: string,
    nUsedCalls: nat,
    nUnusedCalls: nat,
    knownCounts: seq<nat>,
    refGt: nat,              // dgt.ref_gt; the rest of diploid_genotype is not modelled
    hpol: nat,
    hapscore: real,
    mq: real,
    readPosRankSum: real,
    baseQRankSum: real,
    mqRankSum: real,
    avgBaseQ: real,
    rawPos: real,
    mapqZero: nat,
    qscore: int,
    unphasable: bool,
    smod: SiteModifiers)
  {
    /** init: a new position with its reference base and allele counts (the
        counts are extracted from the pileup upstream); the phasing strings,
        the quality score and the modifiers are reset, the rest is kept. */
    function Init(initPos: int, initRef: char, counts: seq<nat>): (r: SiteInfo)
      ensures r.pos == initPos && r.ref == initRef && r.knownCounts == counts
      ensures r.phasedRef == "" && r.phasedAlt == "" && r.phasedAD == ""
      ensures r.qscore == -1 && !r.unphasable
      ensures r.smod == smod.Clear()
      ensures r.nUsedCalls == nUsedCalls && r.nUnusedCalls == nUnusedCalls && r.refGt == refGt
      ensures r.hpol == hpol && r.mq == mq && r.mapqZero == mapqZero
      ensures r.hapscore == hapscore && r.readPosRankSum == readPosRankSum
      ensures r.baseQRankSum == baseQRankSum && r.mqRankSum == mqRankSum
      ensures r.avgBaseQ == avgBaseQ && r.rawPos == rawPos
    {
      this.(pos := initPos, ref := initRef, knownCounts := counts,
            phasedRef := "", phasedAlt := "", phasedAD := "",
            qscore := -1, unphasable := false, smod := smod.Clear())
    }

    /** get_gt: an override wins; a site without a used, known call prints ".";
        otherwise the selected genotype (the reference genotype inside a
        non-variant block) is printed relative to the reference genotype. */
    function GetGt(codes: SiteCodes): (r: string)
      ensures smod.modifiedGt != NoneGt ==> Ok(r) == ModifiedGtLabel(ModifiedGtIndex(smod.modifiedGt))
      ensures smod.modifiedGt == NoneGt && (smod.isUnknown || !smod.isUsedCovered) ==> r == "."
      ensures smod.modifiedGt == NoneGt && !smod.isUnknown && smod.isUsedCovered ==>
                r == codes.vcfGt(if smod.isBlock then refGt else smod.shared.maxGt, refGt)
    {
      if smod.modifiedGt != NoneGt then ModifiedGtLabel(ModifiedGtIndex(smod.modifiedGt)).value
      else if smod.isUnknown || !smod.isUsedCovered then "."
      else codes.vcfGt(if smod.isBlock then refGt else smod.shared.maxGt, refGt)
    }

    predicate IsHet(codes: SiteCodes) {
      codes.isHet(smod.shared.maxGt)
    }

    /** is_hetalt: heterozygous, and neither called allele is the reference base. */
    predicate IsHetalt(codes: SiteCodes) {
      var (a, b) := codes.alleles(smod.shared.maxGt);
      IsHet(codes) && ref != a && ref != b
    }

    /** is_nonref: the selected genotype is not the reference genotype. */
    predicate IsNonref() {
      smod.shared.maxGt != refGt
    }

    /** is_qual: a variant call outside a block whose quality is reported. */
    function IsQual(): (r: bool)
      ensures r <==> !smod.isBlock && smod.IsGqx() && IsNonref()
    {
      !smod.isBlock && !smod.isUnknown && smod.isUsedCovered && !smod.isZeroPloidy && IsNonref()
    }

    /** is_deletion: in the C++ its body is the same expression as is_qual. */
    function IsDeletion(): (r: bool)
      ensures r == IsQual()
    {
      !smod.isBlock && !smod.isUnknown && smod.isUsedCovered && !smod.isZeroPloidy && IsNonref()
    }
  }

  /** A het-alt site is heterozygous. */
  lemma HetaltIsHet(s: SiteInfo, codes: SiteCodes)
    requires s.IsHetalt(codes)
    ensures s.IsHet(codes)
  {
  }

  /** init keeps the selected and the reference genotype, so a site is
      heterozygous, and differs from the reference, exactly as it did before. */
  lemma InitKeepsSiteGenotype(s: SiteInfo, p: int, c: char, counts: seq<nat>, codes: SiteCodes)
    ensures s.Init(p, c, counts).IsHet(codes) == s.IsHet(codes)
    ensures s.Init(p, c, counts).IsNonref() == s.IsNonref()
  {
  }

  /** A freshly initialised site has no genotype: it prints "." and is not a
      qualifying variant, whatever its previous state. */
  lemma InitSiteHasNoCall(s: SiteInfo, p: int, c: char, counts: seq<nat>, codes: SiteCodes)
    ensures s.Init(p, c, counts).GetGt(codes) == "."
    ensures !s.Init(p, c, counts).IsQual()
    ensures s.Init(p, c, counts).smod.shared.filters == {}
  {
  }

  // ---------------------------------------------------------------------------
  // indel_info

  /** The indel genotype indices (STAR_DIINDEL, not part of this model) and
      the GT text of each diploid genotype index. */
  datatype IndelCodes = IndelCodes(noIndel: nat, hom: nat, het: nat, gtLabel: nat -> string)
  {
    /** The three enumerators are distinct, as the C++ switch requires. */
    predicate Distinct() {
      noIndel != hom && noIndel != het && hom != het
    }
  }

  /** The parts of starling_diploid_indel_core the record reads. */
  datatype IndelCore = IndelCore(maxGt: nat, isHaploid: bool, isNoploid: bool)

  /** An indel call; the indel key and the two report records are carried
      as they are given (their contents are not part of this model). */
  datatype IndelInfo<Key, Report, SampleReport> = IndelInfo(
    pos: int,
    ik: Key,
    dindel: IndelCore,
    iri: Report,
    isri: SampleReport,
    imod: IndelModifiers,
    mq: real,
    readPosRankSum: real,
    baseQRankSum: real,
    mqRankSum: real,
    qscore: int)
  {
    /** init: store the call, reset the modifiers, zero the statistics. */
    function Init(initPos: int, initIk: Key, initDindel: IndelCore, initIri: Report, initIsri: SampleReport)
      : (r: IndelInfo<Key, Report, SampleReport>)
      ensures r.pos == initPos && r.ik == initIk && r.dindel == initDindel
      ensures r.iri == initIri && r.isri == initIsri
      ensures r.imod == imod.Clear()
      ensures r.mq == 0.0 && r.readPosRankSum == 0.0 && r.baseQRankSum == 0.0 && r.mqRankSum == 0.0
      ensures r.qscore == -1
    {
      IndelInfo(initPos, initIk, initDindel, initIri, initIsri, imod.Clear(), 0.0, 0.0, 0.0, 0.0, -1)
    }

    /** get_gt: "1/2" for an overlapping pair; "0"/"1" for a haploid call; the
        diploid label otherwise. Any other haploid genotype index is an
        assertion failure. */
    function GetGt(codes: IndelCodes): (r: Checked<string>)
      requires codes.Distinct()
      ensures imod.isOverlap ==> r == Ok("1/2")
      ensures !imod.isOverlap && dindel.isHaploid ==>
                (r.Ok? <==> imod.shared.maxGt in {codes.noIndel, codes.hom})
      ensures !imod.isOverlap && dindel.isHaploid && r.Ok? ==>
                (r.value == "0" <==> imod.shared.maxGt == codes.noIndel)
      ensures !imod.isOverlap && dindel.isHaploid && imod.shared.maxGt == codes.hom ==> r == Ok("1")
      ensures !imod.isOverlap && !dindel.isHaploid ==> r == Ok(codes.gtLabel(imod.shared.maxGt))
    {
      if imod.isOverlap then Ok("1/2")
      else if dindel.isHaploid then
        (if imod.shared.maxGt == codes.noIndel then Ok("0")
         else if imod.shared.maxGt == codes.hom then Ok("1")
         else AssertFails)
      else Ok(codes.gtLabel(imod.shared.maxGt))
    }

    /** is_hetalt: the call is one of an overlapping pair. */
    predicate IsHetalt() {
      imod.isOverlap
    }

    /** is_het: the selected genotype index is above 1. */
    predicate IsHet() {
      imod.shared.maxGt > 1
    }

    /** get_ploidy: site ploidy at an offset inside the indel. Without overlap it
        follows from the genotype (its offset does not matter); with overlap it
        is read from the per-offset vector, and an offset past its end is an
        assertion failure, as is a genotype that is none of the three. */
    function GetPloidy(offset: nat, codes: IndelCodes): (r: Checked<nat>)
      requires codes.Distinct()
      ensures dindel.isNoploid ==> r == Ok(0)
      ensures !dindel.isNoploid && imod.isOverlap ==>
                (r.Ok? <==> offset < |imod.ploidy|) && (r.Ok? ==> r.value == imod.ploidy[offset])
      ensures !dindel.isNoploid && !imod.isOverlap ==>
                (r.Ok? <==> dindel.maxGt in {codes.noIndel, codes.hom, codes.het}) && (r.Ok? ==> r.value <= 2)
    {
      if dindel.isNoploid then Ok(0)
      else if !imod.isOverlap then
        (if dindel.maxGt == codes.hom then Ok(0)
         else if dindel.maxGt == codes.het then Ok(1)
         else if dindel.maxGt == codes.noIndel then Ok(if dindel.isHaploid then 1 else 2)
         else AssertFails)
      else if offset < |imod.ploidy| then Ok(imod.ploidy[offset])
      else AssertFails
    }
  }

  /** The ploidy invariant of a non-overlapping indel: homozygous 0,
      heterozygous 1, non-variant 1 (haploid) or 2 (diploid), at every offset. */
  lemma NonOverlapPloidy<K, R, S>(ii: IndelInfo<K, R, S>, codes: IndelCodes, o1: nat, o2: nat)
    requires codes.Distinct() && !ii.imod.isOverlap && !ii.dindel.isNoploid
    ensures ii.dindel.maxGt == codes.hom ==> ii.GetPloidy(o1, codes) == Ok(0)
    ensures ii.dindel.maxGt == codes.het ==> ii.GetPloidy(o1, codes) == Ok(1)
    ensures ii.dindel.maxGt == codes.noIndel ==>
              ii.GetPloidy(o1, codes) == Ok(if ii.dindel.isHaploid then 1 else 2)
    ensures ii.GetPloidy(o1, codes) == ii.GetPloidy(o2, codes)
  {
  }

  /** is_hetalt and is_het against get_gt: a het-alt call prints "1/2"; with
      NOINDEL and HOM numbered below 2 (the enumeration itself is not part of
      this model) a haploid call that is_het flags has no haploid GT and fails
      the assertion. */
  lemma IndelZygosityAgainstGt<K, R, S>(ii: IndelInfo<K, R, S>, codes: IndelCodes)
    requires codes.Distinct() && codes.noIndel <= 1 && codes.hom <= 1
    ensures ii.IsHetalt() ==> ii.GetGt(codes) == Ok("1/2")
    ensures !ii.IsHetalt() && ii.dindel.isHaploid && ii.IsHet() ==> ii.GetGt(codes) == AssertFails
    ensures !ii.IsHetalt() && ii.dindel.isHaploid && ii.GetGt(codes).Ok? ==> !ii.IsHet()
  {
  }

  /** init clears the overlap state, so afterwards the ploidy is the genotype's
      at every offset and a diploid call is no longer labelled "1/2". */
  lemma InitIndelIsNotOverlap<K, R, S>(ii: IndelInfo<K, R, S>, p: int, k: K, d: IndelCore, iri: R, isri: S,
                                       codes: IndelCodes, o1: nat, o2: nat)
    requires codes.Distinct()
    ensures !ii.Init(p, k, d, iri, isri).IsHetalt()
    ensures ii.Init(p, k, d, iri, isri).IsHet() == ii.IsHet()
    ensures ii.Init(p, k, d, iri, isri).GetPloidy(o1, codes) == ii.Init(p, k, d, iri, isri).GetPloidy(o2, codes)
    ensures !d.isHaploid ==> ii.Init(p, k, d, iri, isri).GetGt(codes) == Ok(codes.gtLabel(ii.imod.shared.maxGt))
  {
  }
}
