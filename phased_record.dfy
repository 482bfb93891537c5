/** The decisions and the record rewrite of create_phased_record, as functions
    of the collected evidence: the diploid consistency checks, the ALT and AD
    strings of the phased record, and the new buffer. */
module PhasedRecord {
  import opened LocusInfo
  import opened AlleleTable
  import opened ReadEvidence

  // ---------------------------------------------------------------------------
  // The diploid checks

  /** The outcome of the checks; the first three decline to phase. */
  datatype Verdict = LowCoverage | NotDiploid | Imbalanced | Accept

  /** At least 10 usable reads; the two leading alleles hold at least 80% of
      them; the runner-up has at least half the leader's count. The two
      fractions are compared by cross-multiplying in integers. */
  function Assess(total: nat, first: AlleleCount, second: AlleleCount): (v: Verdict)
    ensures v == LowCoverage <==> total < 10
    ensures v == Accept ==> first.count + second.count >= 8 && second.count > 0
  {
    if total < 10 then LowCoverage
    else if 5 * (first.count + second.count) < 4 * total then NotDiploid
    else if 2 * second.count < first.count then Imbalanced
    else Accept
  }

  /** For a positive denominator, a quotient is at least c exactly when the
      numerator is at least c times the denominator. */
  lemma QuotientAtLeast(x: real, d: real, c: real)
    requires d > 0.0
    ensures x / d >= c <==> x >= c * d
  {
  }

  /** The integer tests decide exactly as the fractions of the C++ would in
      exact arithmetic: max_allele_frac >= 0.8 and relative_allele_frac >= 0.5. */
  lemma AssessMatchesFractions(total: nat, first: AlleleCount, second: AlleleCount)
    requires total > 0 && first.count > 0
    ensures Assess(total, first, second) == Accept <==>
      && total >= 10
      && (first.count + second.count) as real / total as real >= 0.8
      && second.count as real / first.count as real >= 0.5
  {
    QuotientAtLeast((first.count + second.count) as real, total as real, 0.8);
    QuotientAtLeast(second.count as real, first.count as real, 0.5);
  }

  // ---------------------------------------------------------------------------
  // ALT and AD of the phased record

  /** Comma-separated list. */
  function Join(xs: seq<string>): string
    decreases |xs|
  {
    if xs == [] then ""
    else if |xs| == 1 then xs[0]
    else Join(xs[..|xs| - 1]) + "," + xs[|xs| - 1]
  }

  /** The alleles other than the reference string, in order. */
  function NonReference(reference: string, alleles: seq<string>): (r: seq<string>)
    ensures forall a :: a in r <==> a in alleles && a != reference
    ensures |r| <= |alleles|
    decreases |alleles|
  {
    if alleles == [] then []
    else
      var rest := NonReference(reference, alleles[..|alleles| - 1]);
      var last := alleles[|alleles| - 1];
      assert alleles == alleles[..|alleles| - 1] + [last];
      if last == reference then rest else rest + [last]
  }

  function DigitChar(d: nat): char
    requires d < 10
  {
    "0123456789"[d]
  }

  /** Decimal text of a count, as a stream insertion writes it. */
  function NatToString(n: nat): (s: string)
    ensures |s| > 0
    decreases n
  {
    if n < 10 then [DigitChar(n)] else NatToString(n / 10) + [DigitChar(n % 10)]
  }

  function DepthList(t: Table, alleles: seq<string>): (r: seq<string>)
    ensures |r| == |alleles|
    decreases |alleles|
  {
    if alleles == [] then []
    else DepthList(t, alleles[..|alleles| - 1]) + [NatToString(t.Count(alleles[|alleles| - 1]))]
  }

  /** phased_alt: the leading alleles that differ from the reference, comma-separated. */
  function PhasedAlt(reference: string, first: string, second: string): string {
    Join(NonReference(reference, [first, second]))
  }

  /** phased_AD: the reference count, then the count of each listed ALT allele. */
  function PhasedDepths(t: Table, reference: string, first: string, second: string): string {
    NatToString(t.Count(reference)) + "," + Join(DepthList(t, NonReference(reference, [first, second])))
  }

  /** phased_alt as the C++ loop builds it: the separator is written before the
      second allele whenever that allele is written, even if nothing was written
      before it. */
  function PhasedAltAsWritten(reference: string, first: string, second: string): string {
    var alt := if first != reference then first else "";
    if second != reference then alt + "," + second else alt
  }

  /** When the reference is the leading allele, the C++ writes an ALT field
      that starts with a comma. */
  lemma PhasedAltAsWrittenLeadingComma()
    ensures PhasedAltAsWritten("AA", "AA", "AC") == ",AC"
    ensures PhasedAlt("AA", "AA", "AC") == "AC"
  {
  }

  /** The non-reference alleles among the two leading ones, case by case. */
  lemma NonReferenceOfTwo(reference: string, first: string, second: string)
    ensures NonReference(reference, [first, second]) ==
      if first == reference && second == reference then []
      else if first == reference then [second]
      else if second == reference then [first]
      else [first, second]
  {
  }

  /** The ALT field lists exactly the leading alleles that are not the reference,
      in rank order, separated by single commas. */
  lemma PhasedAltIsNonReferenceList(reference: string, first: string, second: string)
    requires first != second
    ensures first == reference ==> PhasedAlt(reference, first, second) == second
    ensures second == reference ==> PhasedAlt(reference, first, second) == first
    ensures first != reference && second != reference ==>
              PhasedAlt(reference, first, second) == first + "," + second
  {
    NonReferenceOfTwo(reference, first, second);
    assert Join([first, second]) == first + "," + second by {
      assert [first, second][..1] == [first];
      assert Join([first]) == first;
    }
  }

  lemma JoinOfTwo(a: string, b: string)
    ensures Join([a]) == a
    ensures Join([a, b]) == a + "," + b
  {
  }

  lemma DepthListOfTwo(t: Table, a: string, b: string)
    ensures DepthList(t, [a]) == [NatToString(t.Count(a))]
    ensures DepthList(t, [a, b]) == [NatToString(t.Count(a)), NatToString(t.Count(b))]
  {
  }

  /** The ALT field as the C++ loop writes it and as intended differ in one
      case only: when the leader is the reference, the written field carries
      a leading comma before the runner-up. */
  lemma AsWrittenAltAgainstIntended(reference: string, first: string, second: string)
    requires first != second
    ensures first == reference ==>
              PhasedAltAsWritten(reference, first, second) == "," + PhasedAlt(reference, first, second)
    ensures first != reference ==>
              PhasedAltAsWritten(reference, first, second) == PhasedAlt(reference, first, second)
  {
    PhasedAltIsNonReferenceList(reference, first, second);
  }

  /** The AD field: the reference count, then one count per listed ALT allele. */
  lemma PhasedDepthsCases(t: Table, reference: string, first: string, second: string)
    requires first != second
    ensures first == reference ==>
              PhasedDepths(t, reference, first, second) ==
              NatToString(t.Count(reference)) + "," + NatToString(t.Count(second))
    ensures second == reference ==>
              PhasedDepths(t, reference, first, second) ==
              NatToString(t.Count(reference)) + "," + NatToString(t.Count(first))
    ensures first != reference && second != reference ==>
              PhasedDepths(t, reference, first, second) ==
              NatToString(t.Count(reference)) + "," + NatToString(t.Count(first)) + "," + NatToString(t.Count(second))
  {
    NonReferenceOfTwo(reference, first, second);
    var n0 := NatToString(t.Count(first));
    var n1 := NatToString(t.Count(second));
    if first == reference {
      DepthListOfTwo(t, second, first);
      JoinOfTwo(n1, n0);
    } else if second == reference {
      DepthListOfTwo(t, first, second);
      JoinOfTwo(n0, n1);
    } else {
      DepthListOfTwo(t, first, second);
      JoinOfTwo(n0, n1);
    }
  }

  /** The separator never comes first: an ALT field whose alleles are
      non-empty and do not begin with a comma does not begin with a comma,
      which the as-written form violates (PhasedAltAsWrittenLeadingComma). */
  lemma PhasedAltNoLeadingComma(reference: string, first: string, second: string)
    requires first != second && |first| > 0 && |second| > 0
    requires first[0] != ',' && second[0] != ','
    requires first != reference || second != reference
    ensures |PhasedAlt(reference, first, second)| > 0
    ensures PhasedAlt(reference, first, second)[0] != ','
  {
    PhasedAltIsNonReferenceList(reference, first, second);
    if first != reference && second != reference {
      assert (first + "," + second)[0] == first[0];
    }
  }

  /** The loop that writes phased_alt and phased_AD over the two leading
      alleles, with the separator of phased_alt written only after an allele
      (see PhasedAltAsWritten for the loop as the C++ has it). */
  method DescribeAlleles(t: Table, reference: string, first: AlleleCount, second: AlleleCount)
    returns (alt: string, ad: string)
    requires first.allele != second.allele
    ensures alt == PhasedAlt(reference, first.allele, second.allele)
    ensures ad == PhasedDepths(t, reference, first.allele, second.allele)
  {
    var top := [first, second];
    var isRef := first.allele == reference || second.allele == reference;
    var head := NatToString(t.Count(reference)) + ",";
    ghost var alt1 := if first.allele != reference then first.allele else "";
    ghost var ad1 := head + if first.allele != reference then NatToString(t.Count(first.allele)) else "";
    ad := head;
    alt := "";
    for i := 0 to 2
      invariant i == 0 ==> alt == "" && ad == head
      invariant i == 1 ==> alt == alt1 && ad == ad1
      invariant i == 2 ==> alt == (if second.allele == reference then alt1 else alt1 + (if first.allele != reference then "," else "") + second.allele)
      invariant i == 2 ==> ad == (if second.allele == reference then ad1 else ad1 + (if !isRef then "," else "") + NatToString(t.Count(second.allele)))
    {
      if i > 0 && !isRef {
        ad := ad + ",";
      }
      if top[i].allele != reference {
        if i > 0 && top[0].allele != reference {
          alt := alt + ",";
        }
        alt := alt + top[i].allele;
        ad := ad + NatToString(t.Count(top[i].allele));
      }
    }
    PhasedAltIsNonReferenceList(reference, first.allele, second.allele);
    PhasedDepthsCases(t, reference, first.allele, second.allele);
  }

  // ---------------------------------------------------------------------------
  // The record rewrite

  /** buffer[0] after a successful phase: the block's reference string, the
      het genotype index 4, reference genotype 0 when the reference is one of
      the two leading alleles (a 0/1 call) and 2 otherwise (a 1/2 call), the
      phasing strings, the read counts, and the phased-region flag. */
  function PhasedSite(base: SiteInfo, reference: string, isRef: bool, alt: string, ad: string,
                      used: nat, unused: nat): SiteInfo
  {
    base.(phasedRef := reference,
          smod := base.smod.(shared := base.smod.shared.(maxGt := 4), isPhasedRegion := true),
          refGt := if isRef then 0 else 2,
          phasedAlt := alt,
          phasedAD := ad,
          nUsedCalls := used,
          nUnusedCalls := unused)
  }

  /** The two leading alleles of the collected evidence. */
  function Ranked(ev: Evidence): (AlleleCount, AlleleCount) {
    TopTwoOf(ev.table.order, ev.table.counts)
  }

  /** The evidence passes all three diploid checks. */
  predicate Accepted(ev: Evidence) {
    Assess(ev.used, Ranked(ev).0, Ranked(ev).1) == Accept
  }

  /** create_phased_record: the buffer and the observation table afterwards. */
  function PhaseBlock(buffer: seq<SiteInfo>, reference: string, ev: Evidence, blockLength: int)
    : (r: (seq<SiteInfo>, Table))
    requires ev.Valid() && 1 <= blockLength <= |buffer|
    ensures r.1.Valid()
  {
    var f := Ranked(ev).0;
    var s := Ranked(ev).1;
    if !Accepted(ev) then (buffer, ev.table)
    else
      var t := ev.table.Touch(reference);
      var isRef := f.allele == reference || s.allele == reference;
      var base := PhasedSite(buffer[0], reference, isRef, PhasedAlt(reference, f.allele, s.allele),
                             PhasedDepths(t, reference, f.allele, s.allele), ev.used, ev.unused);
      ([base] + buffer[blockLength..], t)
  }

  /** What create_phased_record does to the block: when the checks decline,
      nothing changes; when they accept, the first site becomes the phased
      record (the block's reference string, the phasing strings, genotype
      index 4 with reference genotype 0 or 2, the read counts, the
      phased-region flag; its position and base kept), the other sites of the
      block are dropped, the trailing sites are kept, and the reference is
      added to the table without changing any count. */
  lemma PhaseBlockShape(buffer: seq<SiteInfo>, reference: string, ev: Evidence, blockLength: int)
    requires ev.Valid() && 1 <= blockLength <= |buffer|
    ensures !Accepted(ev) ==> PhaseBlock(buffer, reference, ev, blockLength) == (buffer, ev.table)
    ensures Accepted(ev) ==>
        var (f, s) := Ranked(ev);
        var (sites, t) := PhaseBlock(buffer, reference, ev, blockLength);
        && |sites| == |buffer| - blockLength + 1
        && sites[1..] == buffer[blockLength..]
        && sites[0].pos == buffer[0].pos && sites[0].ref == buffer[0].ref
        && sites[0].phasedRef == reference
        && sites[0].phasedAlt == PhasedAlt(reference, f.allele, s.allele)
        && sites[0].phasedAD == PhasedDepths(t, reference, f.allele, s.allele)
        && sites[0].smod.isPhasedRegion
        && sites[0].smod.shared.maxGt == 4
        && (sites[0].refGt == 0 <==> f.allele == reference || s.allele == reference)
        && (sites[0].refGt == 0 || sites[0].refGt == 2)
        && sites[0].nUsedCalls == ev.used && sites[0].nUnusedCalls == ev.unused
        && reference in t.counts
        && (forall x :: t.Count(x) == ev.table.Count(x))
  {
  }

  /** The accepted case of PhaseBlock, in the terms the imperative
      create_phased_record computes it. */
  lemma PhaseBlockAccepted(buffer: seq<SiteInfo>, reference: string, ev: Evidence, blockLength: int,
                           first: AlleleCount, second: AlleleCount)
    requires ev.Valid() && 1 <= blockLength <= |buffer|
    requires Accepted(ev) && Ranked(ev) == (first, second)
    ensures first.allele != second.allele
    ensures
      var t := ev.table.Touch(reference);
      var isRef := first.allele == reference || second.allele == reference;
      var base := PhasedSite(buffer[0], reference, isRef, PhasedAlt(reference, first.allele, second.allele),
                             PhasedDepths(t, reference, first.allele, second.allele), ev.used, ev.unused);
      PhaseBlock(buffer, reference, ev, blockLength) == ([base] + buffer[blockLength..], t)
  {
    TableTopTwo(ev.table);
  }

  /** A block is left exactly as it was when the reads do not support a phased
      diploid call: fewer than 10 usable reads, or the two leading alleles
      holding under 80% of them, or the runner-up under half the leader. */
  lemma DeclinedBlockUnchanged(buffer: seq<SiteInfo>, reference: string, ev: Evidence, blockLength: int)
    requires ev.Valid() && 1 <= blockLength <= |buffer|
    requires
      || ev.used < 10
      || 5 * (Ranked(ev).0.count + Ranked(ev).1.count) < 4 * ev.used
      || 2 * Ranked(ev).1.count < Ranked(ev).0.count
    ensures PhaseBlock(buffer, reference, ev, blockLength) == (buffer, ev.table)
  {
  }

  /** The accepting branch of create_phased_record: the phased record built
      from the two leading alleles replaces the block's first site, the
      block's other sites are dropped, and the reference is in the table. */
  method PhaseAccepted(buffer: seq<SiteInfo>, reference: string, ev: Evidence, blockLength: int,
                       first: AlleleCount, second: AlleleCount)
    returns (phasedBuffer: seq<SiteInfo>, phasedTable: Table)
    requires ev.Valid() && 1 <= blockLength <= |buffer|
    requires Accepted(ev) && Ranked(ev) == (first, second)
    ensures (phasedBuffer, phasedTable) == PhaseBlock(buffer, reference, ev, blockLength)
  {
    PhaseBlockAccepted(buffer, reference, ev, blockLength, first, second);
    var isRef := first.allele == reference || second.allele == reference;
    phasedTable := ev.table.Touch(reference);
    var alt, ad := DescribeAlleles(phasedTable, reference, first, second);
    var base := PhasedSite(buffer[0], reference, isRef, alt, ad, ev.used, ev.unused);
    phasedBuffer := [base] + buffer[blockLength..];
  }

  /** 20 usable reads, 16 "AC" and 4 "AT", reference "AA": all reads are in
      the two leading alleles, but 4/16 is below one half, so no phasing. */
  lemma ImbalancedScenario(buffer: seq<SiteInfo>)
    requires 2 <= |buffer|
    ensures
      var t := Table(map["AC" := 16, "AT" := 4], ["AC", "AT"]);
      var (f, s) := TopTwoOf(t.order, t.counts);
      && f == AlleleCount("AC", 16) && s == AlleleCount("AT", 4)
      && Assess(20, f, s) == Imbalanced
      && PhaseBlock(buffer, "AA", Evidence(t, 20, 0), 2).0 == buffer
  {
  }

  /** The ranking of 12 "AC" and 8 "AT" reads. */
  lemma ScenarioRanking()
    ensures
      var t := Table(map["AC" := 12, "AT" := 8], ["AC", "AT"]);
      && t.Valid()
      && TopTwoOf(t.order, t.counts) == (AlleleCount("AC", 12), AlleleCount("AT", 8))
  {
  }

  /** The same block with 12 "AC" and 8 "AT": phased, the reference absent
      from the two leading alleles, so a 1/2 call with ALT "AC,AT". */
  lemma PhasedScenario(buffer: seq<SiteInfo>)
    requires 2 <= |buffer|
    ensures
      var ev := Evidence(Table(map["AC" := 12, "AT" := 8], ["AC", "AT"]), 20, 0);
      var r := PhaseBlock(buffer, "AA", ev, 2);
      && Accepted(ev)
      && |r.0| == |buffer| - 1
      && r.0[0].phasedRef == "AA"
      && r.0[0].phasedAlt == "AC" + "," + "AT"
      && r.0[0].refGt == 2
  {
    var ev := Evidence(Table(map["AC" := 12, "AT" := 8], ["AC", "AT"]), 20, 0);
    ScenarioRanking();
    assert Ranked(ev) == (AlleleCount("AC", 12), AlleleCount("AT", 8));
    assert Accepted(ev);
    var r := PhaseBlock(buffer, "AA", ev, 2);
    assert r.0[0].phasedAlt == PhasedAlt("AA", "AC", "AT");
    PhasedAltIsNonReferenceList("AA", "AC", "AT");
    assert "AC" != "AA" && "AT" != "AA" by {
      assert "AC"[1] != "AA"[1] && "AT"[1] != "AA"[1];
    }
  }
}
