/** The read evidence the phaser gathers for a block: which buffered reads
    span it, which of those are usable, and the allele each usable one shows.
    The read buffer itself is not part of this model: it is given as a map
    from a start position to the reads the buffer lists at that position. */
module ReadEvidence {
  import opened AlleleTable

  /** One base of a read with its base-call quality. */
  datatype BaseCall = BaseCall(base: char, qual: int)

  /** A read segment: mapping quality, the buffer position it starts at, and its bases. */
  datatype Read = Read(mapq: int, bufferPos: int, calls: seq<BaseCall>)

  type ReadSource = map<int, seq<Read>>

  /** The reads the read buffer yields for a position. */
  function ReadsAt(src: ReadSource, i: int): seq<Read> {
    if i in src then src[i] else []
  }

  /** The fixed thresholds of the scan and the block it is for. */
  datatype ScanParams = ScanParams(blockStart: int, blockEnd: int, readLen: int, minMapq: int, minBaseq: int)

  /** A base of the read; outside the read's sequence it reads as 'N'. */
  function BaseAt(r: Read, t: int): char {
    if 0 <= t < |r.calls| then r.calls[t].base else 'N'
  }

  /** A base a read may contribute: a called base (not 'N') of sufficient quality. */
  predicate GoodBase(r: Read, t: int, minBaseq: int) {
    BaseAt(r, t) != 'N' && r.calls[t].qual >= minBaseq
  }

  /** The bases of r from offset s to offset e, both included. */
  function AlleleOf(r: Read, s: int, e: int): (a: string)
    ensures |a| == if e < s then 0 else e - s + 1
    ensures forall k :: 0 <= k < |a| ==> a[k] == BaseAt(r, s + k)
  {
    if e < s then [] else seq(e - s + 1, k requires 0 <= k < e - s + 1 => BaseAt(r, s + k))
  }

  /** The offsets of the block inside the read, and whether every base there is good. */
  predicate AllGood(r: Read, s: int, e: int, minBaseq: int) {
    forall t :: s <= t <= e ==> GoodBase(r, t, minBaseq)
  }

  /** The bases of a run of good bases are called bases. */
  lemma GoodAlleleHasNoN(r: Read, s: int, e: int, minBaseq: int)
    requires AllGood(r, s, e, minBaseq)
    ensures forall k :: 0 <= k < |AlleleOf(r, s, e)| ==> AlleleOf(r, s, e)[k] != 'N'
  {
    var a := AlleleOf(r, s, e);
    forall k | 0 <= k < |a| ensures a[k] != 'N' {
      assert GoodBase(r, s + k, minBaseq);
    }
  }

  /** What a read of sufficient mapping quality contributes. */
  datatype Outcome = NotSpanning | Unusable | Usable(allele: string)

  /** A read spans the block when the block's first offset is not before its
      start and the block's last offset is below the nominal read length. A
      spanning read is usable when its bases over the block are all good. */
  function Examine(r: Read, p: ScanParams): (o: Outcome)
    ensures o.Usable? ==> |o.allele| == if p.blockEnd < p.blockStart then 0 else p.blockEnd - p.blockStart + 1
    ensures o.Usable? ==> forall k :: 0 <= k < |o.allele| ==> o.allele[k] != 'N'
  {
    var s := p.blockStart - r.bufferPos;
    var e := p.blockEnd - r.bufferPos;
    if s >= 0 && e < p.readLen then
      if AllGood(r, s, e, p.minBaseq) then
        GoodAlleleHasNoN(r, s, e, p.minBaseq);
        Usable(AlleleOf(r, s, e))
      else Unusable
    else NotSpanning
  }

  /** The observation table and the two read counters of the phaser. */
  datatype Evidence = Evidence(table: Table, used: nat, unused: nat)
  {
    ghost predicate Valid() {
      table.Valid()
    }

    /** total_reads is the number of reads in the table. */
    ghost predicate Balanced() {
      used == table.Total()
    }
  }

  /** Account for one read of sufficient mapping quality. */
  function Record(ev: Evidence, o: Outcome): (r: Evidence)
    requires ev.Valid()
    ensures r.Valid()
    ensures ev.Balanced() ==> r.Balanced()
  {
    match o
    case NotSpanning => ev
    case Unusable => ev.(unused := ev.unused + 1)
    case Usable(a) => Evidence(ev.table.Increment(a), ev.used + 1, ev.unused)
  }

  /** The reads listed at one position, in order; a read of low mapping
      quality is counted as unused and ends the scan of that position. */
  function ScanPosition(ev: Evidence, rs: seq<Read>, p: ScanParams): (r: Evidence)
    requires ev.Valid()
    ensures r.Valid()
    ensures ev.Balanced() ==> r.Balanced()
    ensures r.used >= ev.used && r.unused >= ev.unused
    ensures r.used + r.unused <= ev.used + ev.unused + |rs|
    decreases |rs|
  {
    if rs == [] then ev
    else if rs[0].mapq < p.minMapq then ev.(unused := ev.unused + 1)
    else ScanPosition(Record(ev, Examine(rs[0], p)), rs[1..], p)
  }

  /** The positions lo, lo+1, ..., hi-1, in that order. */
  function ScanWindow(ev: Evidence, src: ReadSource, lo: int, hi: int, p: ScanParams): (r: Evidence)
    requires ev.Valid()
    ensures r.Valid()
    ensures ev.Balanced() ==> r.Balanced()
    ensures r.used >= ev.used && r.unused >= ev.unused
    decreases hi - lo
  {
    if lo >= hi then ev
    else ScanWindow(ScanPosition(ev, ReadsAt(src, lo), p), src, lo + 1, hi, p)
  }

  /** A read is excluded as soon as one base of the block is 'N' or of low
      quality; otherwise it adds one to those reads' counts. Starting from an
      empty table, total_reads is always the sum of the observation counts. */
  lemma CollectedEvidenceBalanced(src: ReadSource, lo: int, hi: int, p: ScanParams)
    ensures ScanWindow(Evidence(EmptyTable(), 0, 0), src, lo, hi, p).Balanced()
  {
  }

  /** The inner loop of collect_read_evidence: pull the bases from offset s to
      offset e out of the read, stopping at the first bad one. */
  method ExtractAllele(r: Read, s: int, e: int, minBaseq: int) returns (doInclude: bool, allele: string)
    ensures doInclude <==> AllGood(r, s, e, minBaseq)
    ensures doInclude ==> allele == AlleleOf(r, s, e)
  {
    doInclude := true;
    allele := "";
    var t := s;
    while t < e + 1
      invariant s <= t || e < s
      invariant e < s ==> t == s
      invariant s <= t <= e + 1 || e < s
      invariant doInclude
      invariant forall u :: s <= u < t ==> GoodBase(r, u, minBaseq)
      invariant |allele| == if t <= s then 0 else t - s
      invariant forall k :: 0 <= k < |allele| ==> allele[k] == BaseAt(r, s + k)
    {
      if BaseAt(r, t) == 'N' || r.calls[t].qual < minBaseq {
        doInclude := false;
        break;
      }
      allele := allele + [BaseAt(r, t)];
      t := t + 1;
    }
    if !doInclude {
      assert !GoodBase(r, t, minBaseq);
    }
  }

  /** One read of sufficient mapping quality, as the body of the read loop
      of collect_read_evidence handles it. */
  method TakeRead(ev: Evidence, r: Read, p: ScanParams) returns (next: Evidence)
    requires ev.Valid()
    ensures next == Record(ev, Examine(r, p))
  {
    next := ev;
    var subStart := p.blockStart - r.bufferPos;
    var subEnd := p.blockEnd - r.bufferPos;
    if subStart >= 0 && subEnd < p.readLen {
      var doInclude, sub := ExtractAllele(r, subStart, subEnd, p.minBaseq);
      if doInclude {
        assert Examine(r, p) == Usable(sub);
        next := next.(table := next.table.Increment(sub), used := next.used + 1);
      } else {
        next := next.(unused := next.unused + 1);
      }
    }
  }

  /** The read loop of collect_read_evidence over the reads listed at one
      position: a read of low mapping quality is counted as unused and ends
      the loop. */
  method TakeReadsAt(ev: Evidence, rs: seq<Read>, p: ScanParams) returns (next: Evidence)
    requires ev.Valid()
    ensures next == ScanPosition(ev, rs, p)
  {
    next := ev;
    var j := 0;
    while j < |rs|
      invariant 0 <= j <= |rs|
      invariant next.Valid()
      invariant ScanPosition(ev, rs, p) == ScanPosition(next, rs[j..], p)
    {
      if rs[j].mapq < p.minMapq {
        next := next.(unused := next.unused + 1);
        return;
      }
      next := TakeRead(next, rs[j], p);
      assert rs[j..][1..] == rs[j + 1..];
      j := j + 1;
    }
  }
}
