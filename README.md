# Codon phaser and gVCF call records, in Dafny

This project models three parts of the Starling/Starka small-variant caller,
and proves properties of the model.

**The codon phaser (`Codon_phaser`).** It is a streaming state machine. It
buffers consecutive site calls and opens a block at a heterozygous call. It
extends the block with every further heterozygous call, and with any call
that lies within `range` of the block's end. Any other call closes the buffer.
When the closing block holds two or more heterozygous calls, the phaser:
- builds the block's reference string;
- counts the alleles that the reads spanning the block show over it;
- ranks the two most frequent alleles;
- if the reads support a diploid call, replaces the block by one phased
  record.

**The gVCF call records (`gvcf_locus_info.hh`).** These are:
- the 19 VCF filters and their labels;
- the filter bitset shared by site and indel calls, and the site and indel
  modifiers together with their resets;
- the site and indel records with their `init` resets and their genotype
  queries.

**The calibration-model tables (`cmodel.hh`).** These are the nine variant
cases, their two label tables, the map from a case to its low-quality filter,
and the stored state of a `c_model`.

Modules, one per file:
- `Checks` (checks.dfy): `Checked<T>`, which is a value or an assertion
  failure. A C++ `assert` on a `switch` default becomes `AssertFails`.
- `VcfFilters` (vcf_filters.dfy): the filter enumeration, `get_label`, and
  reading a label back.
- `LocusInfo` (locus_info.dfy):
  - the modifiers, `site_info` and `indel_info`. These C++ structs are copied
    by value (the phaser's buffer holds copies), so they are datatypes. Their
    in-place resets (`set_filter`, `clear`, `init`) are member functions that
    return the updated record.
  - the genotype tables `DIGT` and `STAR_DIINDEL` are not part of this model.
    They are parameters: `SiteCodes` and `IndelCodes`.
- `CalibrationModel` (calibration_model.dfy): the variant cases, the labels,
  `get_Qscore_filter`, and the `c_model` constructor.
- `AlleleTable` (allele_table.dfy): the phaser's `allele_map`.
  - A `std::map<std::string,int>` is a count map plus its keys in map order,
    which is ascending `std::string` order.
  - Also here: `observations[k]++`, a read through `operator[]`, and the
    top-two ranking loop.
- `ReadEvidence` (read_evidence.dfy): which reads span a block, which are
  usable, and the allele each usable read shows. The read buffer is given as
  a map from a start position to the reads listed there.
- `PhasedRecord` (phased_record.dfy): the diploid checks of
  `create_phased_record`, the `phased_alt` and `phased_AD` strings, and the
  rewrite of the block as a phased record.
- `CodonPhaser` (codon_phaser.dfy): the `Phaser` class. Its fields are those
  of `Codon_phaser`, and its methods update them in place.

**How `Phaser.Valid()` is meant.** It is the state between two calls of
`add_site`. In that state no evidence is held, and either nothing is buffered
or a block is open. An open block means:
- the buffer holds consecutive positions from `block_start`;
- the block starts and ends with a heterozygous call;
- at most `range - 2` calls follow the block's end.

The model assumes that its caller, the gVCF aggregator (not part of this
model), calls `clear_buffer` after `add_site` returns true.
`AddSite` states what it leaves in that case, and `ClearBuffer` restores
`Valid()`.

The accept decision of `create_phased_record` is defined once, by
`PhasedRecord.PhaseBlock`. `PhasedRecord.PhaseAccepted` and
`Phaser.CreatePhasedRecord` repeat its steps only to keep each proof small,
and each is proved to compute `PhaseBlock`'s result.

## Model

Source paths are relative to the repository root.

| member | source | states |
|---|---|---|
| CodonPhaser.Phaser.constructor | starka/src/lib/starling_common/codon_phaser.cpp:18-29 | The fields start at block_start = block_end = -1, range 3, no block, het_count 0, read_len 100, min_mapq 20, min_baseq 17 and indels not phased. The buffer, evidence and reference start empty, and the state satisfies Valid. |
| CodonPhaser.Phaser.AddSite | starka/src/lib/starling_common/codon_phaser.cpp:40-72 | A heterozygous call opens a block at its position when none is open. Otherwise it extends the block: block_end becomes its position and het_count grows by one. A non-heterozygous call within range of the block end changes none of the block fields. In both cases the result is false and the call is appended to the buffer, with Valid kept. The result is true exactly in the other case. Then make_record runs exactly when het_count > 1, and its outcome is MadeRecord over the buffer including the new call, starting from empty evidence (intended phased_alt, see Findings). Otherwise the buffer gains the call, and the table and the reference are unchanged. |
| CodonPhaser.Phaser.ConstructReference | starka/src/lib/starling_common/codon_phaser.cpp:74-79 | The reference has length buffer.size() - (range - 1), and its i-th base is buffer[i].ref. |
| CodonPhaser.Phaser.CollectReadEvidence | starka/src/lib/starling_common/codon_phaser.cpp:195-257 | The table and both read counters become ReadEvidence.ScanWindow of their old values, over the start positions [block_start - read_len, block_start) in order. |
| CodonPhaser.Phaser.CreatePhasedRecord | starka/src/lib/starling_common/codon_phaser.cpp:81-181 | Buffer and table become those of PhasedRecord.PhaseBlock for the current reference, evidence and block length; the phased site carries the intended phased_alt (see Findings). |
| CodonPhaser.Phaser.MakeRecord | starka/src/lib/starling_common/codon_phaser.cpp:183-193 | The reference is construct_reference's, the evidence is collected from the old evidence, and the buffer is create_phased_record's result. The reference is then in the table at an unchanged count, because the debug listing reads it through operator[] (line 11 defines DEBUG_CODON). The phased site carries the intended phased_alt (see Findings). |
| CodonPhaser.Phaser.ClearBuffer | starka/src/lib/starling_common/codon_phaser.cpp:259-269 | The buffer and table are emptied; block_end is -1; no block is open; het_count and both read totals are 0; the reference is "". block_start is unchanged, and Valid holds. |
| CodonPhaser.OpenWithHet | starka/src/lib/starling_common/codon_phaser.cpp:45-50 | A heterozygous call opens a one-site block at its own position. |
| CodonPhaser.ExtendWithHet | starka/src/lib/starling_common/codon_phaser.cpp:45-50 | The next heterozygous call keeps the block open and moves its end to the call, with one more het. |
| CodonPhaser.ExtendWithCall | starka/src/lib/starling_common/codon_phaser.cpp:58-63 | A call within range of the block end keeps the block open with the same start, end and het count. |
| CodonPhaser.ClosingBlock | starka/src/lib/starling_common/codon_phaser.cpp:58-69 | The call that closes a block lies exactly range - 1 past its end. So the buffer then holds the block and range - 1 more sites. |
| CodonPhaser.MadeRecordSteps | starka/src/lib/starling_common/codon_phaser.cpp:185-193 | Composing construct_reference, collect_read_evidence, create_phased_record and the debug read of the reference's count gives MadeRecord. |
| AlleleTable.Table.Increment | starka/src/lib/starling_common/codon_phaser.cpp:244 | observations[sub]++ raises the count of sub by one and no other count, and the total by one. A new key enters in map order. |
| AlleleTable.Table.Touch | starka/src/lib/starling_common/codon_phaser.cpp:149 | A read through operator[] leaves the key in the table and keeps the table ordered. |
| AlleleTable.TouchKeepsCounts | starka/src/lib/starling_common/codon_phaser.cpp:149 | That read changes no count, and so does not change the total. |
| AlleleTable.EmptyTable | starka/src/lib/starling_common/codon_phaser.cpp:262 | An emptied table holds no reads, and every allele's count is 0. |
| AlleleTable.LexTransitive | starka/src/lib/starling_common/codon_phaser.cpp:98 | The std::string order the map iterates in is transitive. |
| AlleleTable.LexTotal | starka/src/lib/starling_common/codon_phaser.cpp:98 | It is total: of two different strings, one comes first. |
| AlleleTable.InsertKeepsSorted | starka/src/lib/starling_common/codon_phaser.cpp:244 | Inserting a key that is not yet in a key list in map order keeps the list in map order. |
| AlleleTable.InsertSorted | starka/src/lib/starling_common/codon_phaser.cpp:244 | The key list after inserting a new key is one longer, and holds exactly the old keys and the new one. |
| AlleleTable.PositiveTotalHasAllele | starka/src/lib/starling_common/codon_phaser.cpp:98-108 | A table holding reads has an allele with a positive count. |
| AlleleTable.TopTwoCorrect | starka/src/lib/starling_common/codon_phaser.cpp:96-108 | Over distinct keys in visiting order, the loop's two slots satisfy IsTopTwo. The leader has the largest count and is the first key with it. The runner-up has the largest count among the other keys and is the first of those with it. A slot that never rose above 0 still holds ("N", 0). |
| AlleleTable.TopTwoStep | starka/src/lib/starling_common/codon_phaser.cpp:99-107 | One loop iteration over a new key preserves IsTopTwo. |
| AlleleTable.TableTopTwo | starka/src/lib/starling_common/codon_phaser.cpp:96-108 | Over a table in map order the ranking satisfies IsTopTwo, and no count exceeds the leader's. When the table holds reads, the leader is one of its alleles with a positive count. |
| AlleleTable.TopTwo | starka/src/lib/starling_common/codon_phaser.cpp:96-108 | The ranking loop computes TopTwoOf over the keys in map order; TableTopTwo states what that ranking satisfies. |
| ReadEvidence.AlleleOf | starka/src/lib/starling_common/codon_phaser.cpp:226-233 | The substring from offset s to offset e has length e - s + 1, and its k-th base is the read's base at s + k ('N' outside the read). |
| ReadEvidence.GoodAlleleHasNoN | starka/src/lib/starling_common/codon_phaser.cpp:227-233 | A run of good bases contains no 'N'. |
| ReadEvidence.Examine | starka/src/lib/starling_common/codon_phaser.cpp:215-249 | A usable read's allele is exactly block_end - block_start + 1 bases long and contains no 'N'. |
| ReadEvidence.Record | starka/src/lib/starling_common/codon_phaser.cpp:243-248 | Accounting for one read keeps the table ordered, and keeps total_reads equal to the sum of the counts. |
| ReadEvidence.ScanPosition | starka/src/lib/starling_common/codon_phaser.cpp:202-251 | Scanning one position keeps the table ordered and keeps total_reads equal to the sum of the counts. Neither counter decreases, and together they grow by at most the number of reads listed. |
| ReadEvidence.ScanWindow | starka/src/lib/starling_common/codon_phaser.cpp:196-252 | Scanning the window of positions keeps the table ordered and keeps total_reads equal to the sum of the counts, and neither counter decreases. |
| ReadEvidence.CollectedEvidenceBalanced | starka/src/lib/starling_common/codon_phaser.cpp:243-248 | From an empty table, total_reads equals the sum of the observation counts after the scan. |
| ReadEvidence.ExtractAllele | starka/src/lib/starling_common/codon_phaser.cpp:224-233 | do_include holds exactly when every base in [sub_start, sub_end] is called and of quality at least min_baseq; the string built is then that substring. |
| ReadEvidence.TakeRead | starka/src/lib/starling_common/codon_phaser.cpp:215-249 | The body of the read loop, for a read of sufficient mapping quality, accounts for it as Record(Examine(read)). |
| ReadEvidence.TakeReadsAt | starka/src/lib/starling_common/codon_phaser.cpp:202-251 | The read loop at one position computes ScanPosition. A low-mapq read is counted as unused and ends the position. |
| PhasedRecord.Assess | starka/src/lib/starling_common/codon_phaser.cpp:83-136 | The verdict is low coverage exactly when there are fewer than 10 usable reads. An acceptance implies that the top two hold at least 8 reads and the runner-up at least one. |
| PhasedRecord.AssessMatchesFractions | starka/src/lib/starling_common/codon_phaser.cpp:116-136 | With the exact fractions of the source, acceptance holds exactly when: total ≥ 10, (c0+c1)/total ≥ 0.8, and c1/c0 ≥ 0.5. Each step uses that, for a positive divisor, x/d ≥ c exactly when x ≥ c·d. |
| PhasedRecord.NonReference | starka/src/lib/starling_common/codon_phaser.cpp:156 | The alleles kept are exactly those that are not the reference, and no more than were given. |
| PhasedRecord.NonReferenceOfTwo | starka/src/lib/starling_common/codon_phaser.cpp:154-161 | The non-reference list of the two leading alleles, case by case. |
| PhasedRecord.PhasedAltIsNonReferenceList | starka/src/lib/starling_common/codon_phaser.cpp:154-168 | The intended phased_alt (see Findings) is: the runner-up when the leader is the reference; the leader when the runner-up is; otherwise "first,second". |
| PhasedRecord.PhasedDepthsCases | starka/src/lib/starling_common/codon_phaser.cpp:149-169 | phased_AD is the reference's count, then a comma, then the count of each non-reference leading allele, comma-separated. |
| PhasedRecord.AsWrittenAltAgainstIntended | starka/src/lib/starling_common/codon_phaser.cpp:154-161 | For all inputs with distinct leaders: phased_alt as written equals the intended one when the leader is not the reference, and is "," followed by the intended one when it is. |
| PhasedRecord.PhasedAltNoLeadingComma | starka/src/lib/starling_common/codon_phaser.cpp:154-161 | The corrected phased_alt is non-empty and never begins with a comma. |
| PhasedRecord.PhasedAltAsWrittenLeadingComma | starka/src/lib/starling_common/codon_phaser.cpp:156-158 | As written, reference "AA" with leaders "AA" then "AC" gives phased_alt ",AC", where "AC" is intended. |
| PhasedRecord.DescribeAlleles | starka/src/lib/starling_common/codon_phaser.cpp:149-161 | The loop over the two leading alleles, with the separator corrected (see Findings), writes phased_alt equal to PhasedAlt and phased_AD equal to PhasedDepths. The separator is written only after an allele. |
| PhasedRecord.PhaseBlock | starka/src/lib/starling_common/codon_phaser.cpp:81-181 | create_phased_record as a function of buffer, reference, evidence and block length, writing the intended phased_alt (see Findings). The resulting table is ordered. |
| PhasedRecord.PhaseBlockShape | starka/src/lib/starling_common/codon_phaser.cpp:126-178 | A declined block leaves buffer and table unchanged. Otherwise one phased site replaces the block's first block_length sites, and the sites after the block are unchanged. The phased site keeps its pos and ref. It has: phased_ref = the reference; the intended phased_alt (see Findings) and phased_AD as above; is_phased_region set; max_gt 4; ref_gt 0 exactly when the reference is a leading allele and 2 otherwise; n_used_calls = total_reads; n_unused_calls = total_reads_unused. The reference is then in the table, and no count has changed. |
| PhasedRecord.PhaseBlockAccepted | starka/src/lib/starling_common/codon_phaser.cpp:138-178 | On acceptance the two leading alleles differ, and the result is the phased site, with the intended phased_alt (see Findings), followed by buffer[block_length..]. |
| PhasedRecord.DeclinedBlockUnchanged | starka/src/lib/starling_common/codon_phaser.cpp:83-136 | Buffer and table are unchanged when any of these holds: fewer than 10 reads; the top two under 80%; the runner-up under half the leader. |
| PhasedRecord.PhaseAccepted | starka/src/lib/starling_common/codon_phaser.cpp:138-178 | The accepting branch computes PhaseBlock's result, with the intended phased_alt (see Findings). |
| PhasedRecord.ImbalancedScenario | starka/src/lib/starling_common/codon_phaser.cpp:132-136 | 16 "AC" and 4 "AT" reads are imbalanced, and the block is kept as it was. |
| PhasedRecord.ScenarioRanking | starka/src/lib/starling_common/codon_phaser.cpp:96-108 | A table of 12 "AC" and 8 "AT" ranks AC (12) first and AT (8) second. |
| PhasedRecord.PhasedScenario | starka/src/lib/starling_common/codon_phaser.cpp:138-178 | With those reads and reference "AA", the block is phased into one site whose phased_ref is "AA", phased_alt is "AC,AT" and ref_gt is 2. |
| VcfFilters.Index | src/c++/lib/applications/starling/gvcf_locus_info.hh:33-55 | Every filter's enumerator value is below SIZE. |
| VcfFilters.FromIndex | src/c++/lib/applications/starling/gvcf_locus_info.hh:33-55 | An index names a filter exactly when it is below SIZE = 19, and that filter's value is the index. |
| VcfFilters.IndexRoundTrip | src/c++/lib/applications/starling/gvcf_locus_info.hh:33-55 | The enumeration is a bijection onto [0, 19). |
| VcfFilters.Label | src/c++/lib/applications/starling/gvcf_locus_info.hh:57-105 | get_label is defined exactly below SIZE and gives a non-empty label, namely the label of that filter. Any other index is an assertion failure. |
| VcfFilters.LabelRoundTrip | src/c++/lib/applications/starling/gvcf_locus_info.hh:57-105 | Every filter's label reads back as that filter. |
| VcfFilters.LabelsDistinct | src/c++/lib/applications/starling/gvcf_locus_info.hh:57-105 | Distinct filters have distinct labels. |
| VcfFilters.LabelIndicesDistinct | src/c++/lib/applications/starling/gvcf_locus_info.hh:57-105 | Distinct indices below SIZE have distinct labels. |
| LocusInfo.SharedModifiers.SetFilter | src/c++/lib/applications/starling/gvcf_locus_info.hh:117-121 | set_filter raises the given flag and leaves every other flag and the numeric fields as they were. |
| LocusInfo.SharedModifiers.Clear | src/c++/lib/applications/starling/gvcf_locus_info.hh:126-130 | clear lowers every flag and keeps gqx, gq and max_gt. |
| LocusInfo.FiltersOnlyAccumulate | src/c++/lib/applications/starling/gvcf_locus_info.hh:117-136 | After any run of set_filter calls, the flags are exactly the old flags plus those set. |
| LocusInfo.IndelModifiers.Clear | src/c++/lib/applications/starling/gvcf_locus_info.hh:150-156 | indel_modifiers::clear: no flags, not an overlap, an empty ploidy vector; cigar and the numeric fields are kept. |
| LocusInfo.ModifiedGtIndex | src/c++/lib/applications/starling/gvcf_locus_info.hh:171-177 | The four overrides are numbered below 4. |
| LocusInfo.ModifiedGtLabel | src/c++/lib/applications/starling/gvcf_locus_info.hh:179-195 | The label is defined exactly for ZERO, ONE and UNKNOWN (1 to 3) and is one character long. NONE and every other index fail the assertion. |
| LocusInfo.ModifiedGtLabelsDistinct | src/c++/lib/applications/starling/gvcf_locus_info.hh:179-195 | The three override labels are pairwise distinct. |
| LocusInfo.SiteModifiers.Clear | src/c++/lib/applications/starling/gvcf_locus_info.hh:205-216 | site_modifiers::clear: no flags; is_unknown set; is_covered, is_used_covered, is_zero_ploidy, is_block and is_phased_region false; modified_gt NONE; the numeric fields kept. |
| LocusInfo.ClearedSiteIsNotGqx | src/c++/lib/applications/starling/gvcf_locus_info.hh:205-222 | A cleared site fails is_gqx, which requires a known, used-covered, non-zero-ploidy call. |
| LocusInfo.SiteInfo.Init | src/c++/lib/applications/starling/gvcf_locus_info.hh:355-373 | site_info::init sets pos, ref and the known counts. It empties the three phased strings, sets Qscore to -1 and Unphasable to false, and clears smod. Every other field is kept. |
| LocusInfo.SiteInfo.GetGt | src/c++/lib/applications/starling/gvcf_locus_info.hh:376-396 | The three cases of get_gt in order: an override's label; "." for an unknown or not used-covered site; otherwise the VCF GT of max_gt (ref_gt inside a block) relative to ref_gt. |
| LocusInfo.SiteInfo.IsQual | src/c++/lib/applications/starling/gvcf_locus_info.hh:427-431 | is_qual holds exactly for a non-block site that passes is_gqx and is non-reference. |
| LocusInfo.SiteInfo.IsDeletion | src/c++/lib/applications/starling/gvcf_locus_info.hh:421-425 | is_deletion has the same value as is_qual on every site. |
| LocusInfo.HetaltIsHet | src/c++/lib/applications/starling/gvcf_locus_info.hh:400-413 | A het-alt site is heterozygous. |
| LocusInfo.InitKeepsSiteGenotype | src/c++/lib/applications/starling/gvcf_locus_info.hh:355-419 | init keeps max_gt and ref_gt, so is_het and is_nonref are what they were before init. |
| LocusInfo.InitSiteHasNoCall | src/c++/lib/applications/starling/gvcf_locus_info.hh:355-396 | A freshly initialised site prints GT ".", fails is_qual and carries no filters. |
| LocusInfo.IndelInfo.Init | src/c++/lib/applications/starling/gvcf_locus_info.hh:241-259 | indel_info::init stores the call and clears imod. It zeroes MQ and the three rank sums and sets Qscore to -1. |
| LocusInfo.IndelInfo.GetGt | src/c++/lib/applications/starling/gvcf_locus_info.hh:261-284 | "1/2" for an overlap. A haploid call is defined exactly for NOINDEL and HOM, it gives "0" exactly for NOINDEL and "1" for HOM (other indices fail the assertion). A diploid call gives the STAR_DIINDEL label. |
| LocusInfo.IndelInfo.GetPloidy | src/c++/lib/applications/starling/gvcf_locus_info.hh:299-324 | 0 when noploid. With overlap it is defined exactly for an offset inside the ploidy vector and returns that entry. Without overlap it is defined exactly for HOM, HET and NOINDEL, and is at most 2. |
| LocusInfo.NonOverlapPloidy | src/c++/lib/applications/starling/gvcf_locus_info.hh:304-317 | Without overlap: HOM gives 0, HET 1, NOINDEL 1 when haploid and 2 otherwise. The result is the same at every offset. |
| LocusInfo.IndelZygosityAgainstGt | src/c++/lib/applications/starling/gvcf_locus_info.hh:261-296 | A het-alt (overlapping) indel prints "1/2". When NOINDEL and HOM are numbered below 2, a haploid non-overlapping call that is_het flags fails get_gt's assertion, and one that prints a GT is not het. |
| LocusInfo.InitIndelIsNotOverlap | src/c++/lib/applications/starling/gvcf_locus_info.hh:241-324 | After init the call is not het-alt, is_het is what it was before, its ploidy does not depend on the offset, and a diploid call takes its STAR_DIINDEL label. |
| CalibrationModel.CaseIndex | src/c++/lib/applications/starling/cmodel.hh:31-43 | Every case's enumerator value is below SIZE = 9. |
| CalibrationModel.CaseOf | src/c++/lib/applications/starling/cmodel.hh:31-43 | An index names a case exactly when it is below 9, and that case's value is the index. |
| CalibrationModel.CasesAreCrossProduct | src/c++/lib/applications/starling/cmodel.hh:31-43 | Each combination of zygosity and SNP/insertion/deletion is exactly one case. |
| CalibrationModel.Label | src/c++/lib/applications/starling/cmodel.hh:45-73 | get_label is defined exactly below 9 and gives a non-empty label. |
| CalibrationModel.LabelHeader | src/c++/lib/applications/starling/cmodel.hh:75-103 | get_label_header is defined exactly below 9 and gives a non-empty label. |
| CalibrationModel.LabelsDistinct | src/c++/lib/applications/starling/cmodel.hh:45-103 | The nine labels are pairwise distinct, and so are the nine header labels. |
| CalibrationModel.QscoreFilter | src/c++/lib/applications/starling/cmodel.hh:105-133 | get_Qscore_filter is defined exactly on the nine cases. |
| CalibrationModel.QscoreFilterInOrder | src/c++/lib/applications/starling/cmodel.hh:109-128 | The filter of case i is the filter enumerated i places after LowQscoreHetSNP. |
| CalibrationModel.QscoreFilterInjective | src/c++/lib/applications/starling/cmodel.hh:107-133 | Different cases get different filters. |
| CalibrationModel.QscoreFilterImage | src/c++/lib/applications/starling/cmodel.hh:107-133 | The nine cases map onto exactly the nine LowQscore filters. |
| CalibrationModel.QscoreFilterNeverOther | src/c++/lib/applications/starling/cmodel.hh:129-132 | No valid case is given a conflict, depth, strand-bias (HighSNVSB) or LowGQX filter. |
| CalibrationModel.CModel.constructor | src/c++/lib/applications/starling/cmodel.hh:136-171 | The constructor stores name and type unchanged. It starts with an empty three-level parameter map: case label, then sub-table, then feature, then value. |

## Left out

- Logging is left out. This covers `write_out_buffer`, `write_out_alleles` and
  the `log_os` output, and `clear_read_buffer`, which only logs. The one effect
  of `write_out_alleles` on the state is kept: it reads the reference's count
  through `operator[]`.
- The read buffer is not part of this model. That covers
  `get_pos_read_segment_iter`, `read_segment` and `bam_seq` decoding. A
  `ReadSource` maps each start position to its reads, and each read has a
  mapping quality, a buffer position and its bases with their qualities.
  `bam_seq::get_char` outside the read is taken to give 'N'.
- `codon_phaser.hh` is not part of this model. `get_block_length` is taken to
  be block_end - block_start + 1, the positions from the block's first
  heterozygous call to its last.
- The `DIGT`, `STAR_DIINDEL` and `diploid_genotype` tables (`is_het`, `label`,
  `get_vcf_gt`, `get_gt_label`, the indel enumerators) are not modelled. They
  are the `SiteCodes` and `IndelCodes` parameters. `diploid_genotype` is kept
  only as its `ref_gt`.
- PhasedRecord.Assess: the two `float` quotients are compared exactly, by
  integer cross-multiplication. Single-precision rounding matters only within
  about 2^-24 of 0.8 or 0.5, that is, with more than about 10^7 reads at one
  block.
- The phased site's ALT: the members below write the intended phased_alt,
  PhasedAlt, and not the string the C++ loop writes. The two differ only when
  the leading allele is the reference. The C++ then writes "," followed by
  PhasedAlt (PhasedRecord.AsWrittenAltAgainstIntended; see Findings).
- PhasedRecord.PhaseBlock: writes the intended phased_alt; with the reference as leader the
  source writes a leading comma before it.
- PhasedRecord.DescribeAlleles: writes the intended phased_alt; with the reference as leader the
  source writes a leading comma before it.
- PhasedRecord.PhaseBlockShape: writes the intended phased_alt; with the reference as leader the
  source writes a leading comma before it.
- PhasedRecord.PhaseBlockAccepted: writes the intended phased_alt; with the reference as leader the
  source writes a leading comma before it.
- PhasedRecord.PhaseAccepted: writes the intended phased_alt; with the reference as leader the
  source writes a leading comma before it.
- CodonPhaser.Phaser.CreatePhasedRecord: writes the intended phased_alt; with the reference as leader the
  source writes a leading comma before it.
- CodonPhaser.Phaser.AddSite: a block it closes and phases carries the
  intended phased_alt, through CreatePhasedRecord.
- CodonPhaser.Phaser.MakeRecord: the phased site it leaves carries the
  intended phased_alt, through CreatePhasedRecord.
- PhasedRecord.PhasedAltIsNonReferenceList: states the intended phased_alt. The string as
  written is related to it by PhasedRecord.AsWrittenAltAgainstIntended.
- In-place update of the gVCF records is not modelled: `shared_modifiers::set_filter`,
  the `clear` of the three modifier structs, `site_info::init` and
  `indel_info::init` return the updated record instead of changing it in place.
  The structs are copied by value, so no aliasing is lost.
- The empty loop "set GQ and GQX" in `create_phased_record` does nothing and
  is not modelled.
- AddSite: positions must be consecutive. A caller that skips positions is
  not modelled, because the block arithmetic assumes one site per position.
  That case of the source is not examined here. With a gap, the reference
  length `buffer.size()-(range-1)` of `construct_reference` (codon_phaser.cpp
  line 76) no longer equals block_end - block_start + 1. Also, the test
  `(si.pos-block_end+1)<range` then closes a block on distance, not on the
  number of calls.
- `add_site_indel` is commented out in the source, and `phase_indels` is
  stored but never read.
- Integer widths: `het_count`, the read totals and the counts are unbounded.
  Their 32-bit limits are not reached by the block sizes and read depths the
  phaser handles.
- The c_model scoring members are not modelled: `add_parameters`,
  `score_instance`, `get_var_threshold`, `normalize`, `log_odds`,
  `logistic_score`, `do_rule_model`, `apply_qscore_filters` and
  `sanity_check`. They are only declared, and they compute in double
  precision. The `gvcf_deriv_options` reference is not modelled either.
- `get_qscore_features`, `calc_vqsr_metrics`, `write_filters` and the
  `operator<<` overloads are not modelled: they are only declared or are
  output formatting.
- `calibration_models.hh` is not part of this model: it holds declarations
  and file loading. `indel_set.cpp` only writes an indel set to a stream.

## Findings

| source | as written | input that shows it | evidently intended | confidence | as-written member | corrected member |
|---|---|---|---|---|---|---|
| starka/src/lib/starling_common/codon_phaser.cpp:154-158 | A comma is written before the second leading allele whenever it is not the reference (`i>0`), even when nothing was written before it | reference "AA", leading alleles "AA" then "AC": phased_alt is ",AC" | the separator only between two written alleles: "AC" | not executed | PhasedRecord.PhasedAltAsWrittenLeadingComma | PhasedRecord.PhasedAltNoLeadingComma |
