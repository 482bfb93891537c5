/** Codon_phaser: buffers consecutive site calls, grows a block from the
    first heterozygous call to the last one seen within the phasing range, and
    when the block closes with more than one heterozygous call, collects the
    reads spanning it and rewrites the block as one phased record. The read
    buffer is given to the operations that read it as a ReadSource. */
module CodonPhaser {
  import opened LocusInfo
  import opened AlleleTable
  import opened ReadEvidence
  import opened PhasedRecord

  /** An open block: the buffer holds consecutive positions from start, the
      block begins and ends with a heterozygous call, at most range - 2
      non-heterozygous calls follow its end, and hets counts at least one and
      at most every position of the block. */
  predicate OpenBlock(buffer: seq<SiteInfo>, start: int, end: int, hets: int, range: int, codes: SiteCodes) {
    && |buffer| >= 1
    && (forall i :: 0 <= i < |buffer| ==> buffer[i].pos == start + i)
    && start <= end < start + |buffer|
    && (start + |buffer| - 1 == end || start + |buffer| - end < range)
    && 1 <= hets <= end - start + 1
    && buffer[0].IsHet(codes)
    && buffer[end - start].IsHet(codes)
  }

  /** A heterozygous call outside a block opens one. */
  lemma OpenWithHet(si: SiteInfo, range: int, codes: SiteCodes)
    requires si.IsHet(codes)
    ensures OpenBlock([si], si.pos, si.pos, 1, range, codes)
  {
  }

  /** The next heterozygous call moves the block's end to it. */
  lemma ExtendWithHet(buffer: seq<SiteInfo>, start: int, end: int, hets: int, range: int, codes: SiteCodes,
                      si: SiteInfo)
    requires OpenBlock(buffer, start, end, hets, range, codes)
    requires si.pos == buffer[|buffer| - 1].pos + 1 && si.IsHet(codes)
    ensures OpenBlock(buffer + [si], start, si.pos, hets + 1, range, codes)
  {
  }

  /** A later call within range of the block's end joins the block. */
  lemma ExtendWithCall(buffer: seq<SiteInfo>, start: int, end: int, hets: int, range: int, codes: SiteCodes,
                       si: SiteInfo)
    requires OpenBlock(buffer, start, end, hets, range, codes)
    requires si.pos == buffer[|buffer| - 1].pos + 1 && si.pos - end + 1 < range
    ensures OpenBlock(buffer + [si], start, end, hets, range, codes)
  {
  }

  /** The call that closes a block lies range - 1 positions past its end, so
      the buffer then holds the block and range - 1 more sites. */
  lemma ClosingBlock(buffer: seq<SiteInfo>, start: int, end: int, hets: int, range: int, codes: SiteCodes,
                     si: SiteInfo)
    requires range >= 2 && OpenBlock(buffer, start, end, hets, range, codes)
    requires si.pos == buffer[|buffer| - 1].pos + 1 && si.pos - end + 1 >= range
    ensures |buffer + [si]| == end - start + 1 + range - 1
    ensures si.pos - end + 1 == range
  {
  }

  /** reference spells the reference bases of the first |reference| sites of block. */
  ghost predicate SpellsReference(reference: string, block: seq<SiteInfo>) {
    |reference| <= |block| && forall i :: 0 <= i < |reference| ==> reference[i] == block[i].ref
  }

  /** make_record as a relation between the buffered block and the evidence
      held before it (block, ev0) and the state it leaves (reference, ev,
      buffer): the reference string is the reference bases of block without
      its last range - 1 sites; the counters are those of the evidence
      collected from the read_len positions before the block; buffer and
      table are those of the phasing decision, with the reference then added
      to the table. */
  ghost predicate MadeRecord(block: seq<SiteInfo>, ev0: Evidence, src: ReadSource, p: ScanParams, range: int,
                             reference: string, ev: Evidence, buffer: seq<SiteInfo>)
    requires ev0.Valid()
  {
    && |reference| == |block| - (range - 1)
    && SpellsReference(reference, block)
    && 1 <= p.blockEnd - p.blockStart + 1 <= |block|
    && var collected := ScanWindow(ev0, src, p.blockStart - p.readLen, p.blockStart, p);
       var phased := PhaseBlock(block, reference, collected, p.blockEnd - p.blockStart + 1);
       && ev.used == collected.used && ev.unused == collected.unused
       && buffer == phased.0
       && ev.table == phased.1.Touch(reference)
  }

  /** The three steps of make_record, composed. */
  lemma MadeRecordSteps(block: seq<SiteInfo>, ev0: Evidence, src: ReadSource, p: ScanParams, range: int,
                        reference: string, collected: Evidence, phased: (seq<SiteInfo>, Table), ev: Evidence,
                        buffer: seq<SiteInfo>)
    requires ev0.Valid()
    requires |reference| == |block| - (range - 1)
    requires SpellsReference(reference, block)
    requires 1 <= p.blockEnd - p.blockStart + 1 <= |block|
    requires collected == ScanWindow(ev0, src, p.blockStart - p.readLen, p.blockStart, p)
    requires phased == PhaseBlock(block, reference, collected, p.blockEnd - p.blockStart + 1)
    requires ev == Evidence(phased.1.Touch(reference), collected.used, collected.unused)
    requires buffer == phased.0
    ensures MadeRecord(block, ev0, src, p, range, reference, ev, buffer)
  {
  }

  class Phaser {
    var blockStart: int
    var blockEnd: int
    const range: int
    var isInBlock: bool
    var hetCount: int
    const readLen: int
    const minMapq: int
    const minBaseq: int
    const phaseIndels: bool
    var buffer: seq<SiteInfo>
    var observations: Table
    var totalReads: nat
    var totalReadsUnused: nat
    var reference: string
    /** The genotype tables site calls are read with. */
    const codes: SiteCodes

    /** The state between two calls of AddSite: no block evidence is held,
        and either no block is open and nothing is buffered, or a block is
        open (InBlock). */
    ghost predicate Valid()
      reads this
    {
      && range >= 2
      && observations == EmptyTable() && totalReads == 0 && totalReadsUnused == 0
      && (!isInBlock ==> buffer == [] && hetCount == 0)
      && (isInBlock ==> InBlock())
    }

    ghost predicate InBlock()
      reads this
    {
      OpenBlock(buffer, blockStart, blockEnd, hetCount, range, codes)
    }

    /** The state make_record leaves for a block buffered as block, with
        evidence ev0 held before (MadeRecord). */
    ghost predicate RecordMade(block: seq<SiteInfo>, ev0: Evidence, src: ReadSource)
      reads this
      requires ev0.Valid()
    {
      MadeRecord(block, ev0, src, ScanParams(blockStart, blockEnd, readLen, minMapq, minBaseq), range,
                 reference, Evidence(observations, totalReads, totalReadsUnused), buffer)
    }

    constructor (siteCodes: SiteCodes)
      ensures Valid()
      ensures blockStart == -1 && blockEnd == -1 && !isInBlock && hetCount == 0
      ensures range == 3 && readLen == 100 && minMapq == 20 && minBaseq == 17 && !phaseIndels
      ensures buffer == [] && reference == "" && codes == siteCodes
    {
      blockStart := -1;
      blockEnd := -1;
      range := 3;
      isInBlock := false;
      hetCount := 0;
      readLen := 100;
      minMapq := 20;
      minBaseq := 17;
      phaseIndels := false;
      codes := siteCodes;
      buffer := [];
      observations := EmptyTable();
      reference := "";
      new;
      ClearBuffer();
    }

    /** clear_buffer: forget the block and its evidence; blockStart is kept. */
    method ClearBuffer()
      requires range >= 2
      modifies this
      ensures Valid()
      ensures buffer == [] && observations == EmptyTable() && blockEnd == -1 && !isInBlock
      ensures hetCount == 0 && totalReads == 0 && totalReadsUnused == 0 && reference == ""
      ensures blockStart == old(blockStart)
    {
      buffer := [];
      observations := EmptyTable();
      blockEnd := -1;
      isInBlock := false;
      hetCount := 0;
      totalReads := 0;
      totalReadsUnused := 0;
      reference := "";
    }

    /** add_site: buffer the next call. A heterozygous call opens or extends
        the block; a later call within range of the block's end extends it;
        any other call closes the buffer (the result is true), after turning
        a block of two or more heterozygous calls into a phased record. The
        caller writes out and then clears the buffer after a true result. */
    method AddSite(si: SiteInfo, src: ReadSource) returns (closes: bool)
      requires Valid()
      requires buffer != [] ==> si.pos == buffer[|buffer| - 1].pos + 1
      modifies this
      ensures !closes <==> si.IsHet(codes) || (old(isInBlock) && si.pos - old(blockEnd) + 1 < range)
      ensures !closes ==> Valid() && buffer == old(buffer) + [si]
      ensures si.IsHet(codes) ==>
                && isInBlock && blockEnd == si.pos && hetCount == old(hetCount) + 1
                && blockStart == (if old(isInBlock) then old(blockStart) else si.pos)
      ensures !si.IsHet(codes) ==>
                && blockStart == old(blockStart) && blockEnd == old(blockEnd)
                && isInBlock == old(isInBlock) && hetCount == old(hetCount)
      ensures closes && old(hetCount) <= 1 ==>
                && buffer == old(buffer) + [si] && observations == old(observations)
                && totalReads == 0 && totalReadsUnused == 0 && reference == old(reference)
      ensures closes && old(hetCount) > 1 ==>
                && |old(buffer)| + 1 == (blockEnd - blockStart + 1) + (range - 1)
                && |reference| == blockEnd - blockStart + 1
                && RecordMade(old(buffer) + [si], Evidence(EmptyTable(), 0, 0), src)
    {
      ghost var before := buffer;
      buffer := buffer + [si];
      if si.IsHet(codes) {
        if !isInBlock {
          blockStart := si.pos;
          OpenWithHet(si, range, codes);
        } else {
          ExtendWithHet(before, blockStart, blockEnd, hetCount, range, codes, si);
        }
        isInBlock := true;
        blockEnd := si.pos;
        hetCount := hetCount + 1;
        closes := false;
      } else if isInBlock && si.pos - blockEnd + 1 < range {
        ExtendWithCall(before, blockStart, blockEnd, hetCount, range, codes, si);
        closes := false;
      } else {
        if hetCount > 1 {
          ClosingBlock(before, blockStart, blockEnd, hetCount, range, codes, si);
          MakeRecord(src);
        }
        closes := true;
      }
    }

    /** construct_reference: the reference bases of the buffer without its
        last range - 1 sites. */
    method ConstructReference()
      requires range >= 1 && |buffer| >= range - 1
      modifies this`reference
      ensures |reference| == |buffer| - (range - 1)
      ensures forall i :: 0 <= i < |reference| ==> reference[i] == buffer[i].ref
    {
      reference := "";
      var i := 0;
      while i < |buffer| - (range - 1)
        invariant 0 <= i <= |buffer| - (range - 1)
        invariant |reference| == i
        invariant forall k :: 0 <= k < i ==> reference[k] == buffer[k].ref
      {
        reference := reference + [buffer[i].ref];
        i := i + 1;
      }
    }

    /** collect_read_evidence: scan the reads starting at each position of
        [blockStart - readLen, blockStart), reading the ones that span the
        block into the observation table. */
    method CollectReadEvidence(src: ReadSource)
      requires observations.Valid()
      modifies this`observations, this`totalReads, this`totalReadsUnused
      ensures Evidence(observations, totalReads, totalReadsUnused) ==
              ScanWindow(Evidence(old(observations), old(totalReads), old(totalReadsUnused)), src,
                         blockStart - readLen, blockStart, ScanParams(blockStart, blockEnd, readLen, minMapq, minBaseq))
    {
      var bufferStart := blockStart - readLen;
      var bufferEnd := blockStart;
      var p := ScanParams(blockStart, blockEnd, readLen, minMapq, minBaseq);
      ghost var goal := ScanWindow(Evidence(observations, totalReads, totalReadsUnused), src, bufferStart, bufferEnd, p);
      var i := bufferStart;
      while i < bufferEnd
        invariant observations.Valid()
        invariant goal == ScanWindow(Evidence(observations, totalReads, totalReadsUnused), src, i, bufferEnd, p)
        decreases bufferEnd - i
      {
        var ev := TakeReadsAt(Evidence(observations, totalReads, totalReadsUnused), ReadsAt(src, i), p);
        observations, totalReads, totalReadsUnused := ev.table, ev.used, ev.unused;
        i := i + 1;
      }
    }

    /** create_phased_record: decline unless the evidence supports a diploid
        call; otherwise rewrite the first site of the buffer as the phased
        record and drop the rest of the block (get_block_length sites from
        the first). */
    method CreatePhasedRecord()
      requires observations.Valid() && 1 <= blockEnd - blockStart + 1 <= |buffer|
      modifies this`buffer, this`observations
      ensures (buffer, observations) ==
              PhaseBlock(old(buffer), reference, Evidence(old(observations), totalReads, totalReadsUnused),
                         blockEnd - blockStart + 1)
    {
      var ev := Evidence(observations, totalReads, totalReadsUnused);
      var blockLength := blockEnd - blockStart + 1;
      if totalReads < 10 {
        DeclinedBlockUnchanged(buffer, reference, ev, blockLength);
        return;
      }
      var first, second := TopTwo(observations);
      if 5 * (first.count + second.count) < 4 * totalReads {
        DeclinedBlockUnchanged(buffer, reference, ev, blockLength);
        return;
      }
      if 2 * second.count < first.count {
        DeclinedBlockUnchanged(buffer, reference, ev, blockLength);
        return;
      }
      buffer, observations := PhaseAccepted(buffer, reference, ev, blockLength, first, second);
    }

    /** make_record: the block's reference string, its read evidence, then the
        phased record. The debug listing of the alleles at the end reads the
        reference's count through operator[], which adds the reference to the
        table at 0 when no read showed it. */
    method MakeRecord(src: ReadSource)
      requires range >= 1 && |buffer| >= range - 1
      requires observations.Valid() && 1 <= blockEnd - blockStart + 1 <= |buffer|
      modifies this`reference, this`observations, this`totalReads, this`totalReadsUnused, this`buffer
      ensures |reference| == |old(buffer)| - (range - 1)
      ensures RecordMade(old(buffer), Evidence(old(observations), old(totalReads), old(totalReadsUnused)), src)
    {
      ghost var block, ev0 := buffer, Evidence(observations, totalReads, totalReadsUnused);
      var p := ScanParams(blockStart, blockEnd, readLen, minMapq, minBaseq);
      ConstructReference();
      CollectReadEvidence(src);
      ghost var collected := Evidence(observations, totalReads, totalReadsUnused);
      CreatePhasedRecord();
      ghost var phased := (buffer, observations);
      observations := observations.Touch(reference);
      MadeRecordSteps(block, ev0, src, p, range, reference, collected, phased,
                      Evidence(observations, totalReads, totalReadsUnused), buffer);
    }
  }
}
