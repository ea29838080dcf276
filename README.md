# Labware bookkeeping of the Tecan Fluent protocol generator

The repository generates worklists for a Tecan Fluent liquid handler. Each assay protocol
(Dotblot, nanoDSF, SEC-HPLC, DLS, A280, general dilution, volume transfer, drug product
preparation, colour project dilutions) is a class. It keeps labware counters (`used_labware_pos`,
or `last_eppendorf_pos`/`last_deep_well_pos` in the oldest modules), hands out the next free
position of each labware, and turns source and destination positions into CSV rows. Those rows
become GWL command files. The shared helpers in `utils.py` and `helper/utils.py` build labware
labels (`pos_2_str`), expand a start position into label and well lists (`dilution_position_def`),
place samples on deep-well plates (`get_deep_well_pos`), convert CSV rows into GWL commands, wrap
text and pick containers. `app.py` validates numbers typed into the window and keeps the
dictionary of warning labels.

The Dafny project models:

- the labware tables of both generations (`Catalog`);
- Python's `str(int)` and the string methods the code relies on (`Numerals`, `PyStrings`);
- the shared helpers (`Addressing`, `WellGeometry`, `Gwl`, `TextTools`);
- the three counter dialects (`Allocation`);
- the shared dilution-series bookkeeping of the old Dotblot and nanoDSF modules (`Dilution`);
- one module per protocol file, and `App` for the window's bookkeeping.

Each protocol is a class whose methods update its counters in place. Each method is proved
against a specification function of the old counters. Lemmas then state what the protocols
promise: positions are handed out in order, rows read back what the dilution wrote, wells of
different samples are disjoint, and the modelled operations raise their errors where the code
raises them. Some call sites cannot run as written and are modelled with the error they raise:
the log message of helper/DLS.py:94 reads the unset `final_concentration`
(`Dls.IsSampleDilutionNeeded` returns AttributeError above 5 mg/mL), nanoDSF.py:113 reads the
unset `sample_dilutions_csv_name` (`NanoDSFLegacy.SampleDilutionsAsWritten`), and
helper/DrugProductPreparation.py:95 calls an undefined method
(`DrugProduct.DrugProductPreparationMethod.SampleDilutions`). The call sites not modelled,
and the errors the model does not raise, are listed under "Left out". Exceptions are the `PyError` values of `Wrappers`:
ValueError, KeyError, TypeError, IndexError, AssertionError, AttributeError and
ZeroDivisionError.

## Model

| member | source | states |
|---|---|---|
| `Numerals.NatToString` | helper/utils.py:372-375 | `str(n)` of a natural number is a non-empty digit string, one digit exactly below 10, with no leading zero |
| `Numerals.ParseNatToString` | helper/utils.py:372-375 | reading back the digits of `str(n)` gives `n` |
| `Numerals.IntToStringRoundTrip` | helper/utils.py:372-375 | `str(n)` of any integer is a numeral whose sign is '-' exactly for negative `n`, and `int(str(n)) == n` |
| `Numerals.IntToStringInjective` | helper/utils.py:372-375 | two integers with the same `str` are equal |
| `PyStrings.TrimStart` | helper/utils.py:600 | the leading-whitespace removal of `strip()` gives a suffix that starts with a non-space |
| `PyStrings.TrimEnd` | helper/utils.py:600 | the trailing-whitespace removal of `strip()` gives a prefix that ends with a non-space |
| `PyStrings.Split` | helper/utils.py:605 | `line.split(',')` has at least one part and no part holds the separator |
| `PyStrings.JoinSplit` | helper/utils.py:605 | joining the parts of a split with the separator gives the line back |
| `PyStrings.SplitJoin` | helper/utils.py:605 | splitting a join of separator-free parts gives those parts back |
| `PyStrings.SplitNoSeparator` | helper/utils.py:605-607 | a line without the separator splits into itself alone |
| `PyStrings.JoinSnoc` | helper/utils.py:617-618 | joining one more part appends the separator and that part |
| `PyStrings.Words` | helper/utils.py:927 | `split()` gives non-empty words without whitespace, the first starting with the text's first character |
| `PyStrings.WordsKeepText` | helper/utils.py:927 | the words concatenated are exactly the non-whitespace characters of the text, in order |
| `PyStrings.WordsOfRun` | helper/utils.py:927 | a non-empty run without whitespace is exactly one word, so `split()` never cuts inside a run |
| `PyStrings.WordsSplitAtSpace` | helper/utils.py:927 | a whitespace character always ends a word: the words of `a + [c] + b` are those of `a` followed by those of `b`; with `WordsOfRun` the words are the maximal runs |
| `PyStrings.ConsWord` | helper/utils.py:927 | one character in front of already split text: a non-space always heads the first word, a space adds none |
| `PyStrings.WordsCons` | helper/utils.py:927 | the words of `[x] + t` are one such step over the words of `t`, so `split()` reads the text left to right |
| `PyStrings.ConsWordSplit` | helper/utils.py:927 | a character in front of `t` joins the first word of `t` whether or not a whitespace character and more text follow `t` |
| `PyStrings.WordsSplitStep` | helper/utils.py:927 | the inductive step of `WordsSplitAtSpace`: one more leading character keeps the words after the whitespace character apart |
| `Addressing.Pos2Str` | helper/utils.py:342-377 | the label starts with the labware name and ends with `]`, after at least four more characters |
| `Addressing.Pos2StrPadding` | helper/utils.py:372-375 | positions 0..99 get three zero-padded digits; 100 and above get "[0" and all their digits |
| `Addressing.Pos2StrArg` | helper/utils.py:367-370 | an int or a one-element list gives the label of that position; any other list raises TypeError at the comparison with 10 |
| `Addressing.Pos2StrFirst` | GeneralDilution.py:100-135 | the older `pos_2_str` takes the first item of any list; only an empty list raises IndexError |
| `Addressing.Pos2StrInjective` | helper/utils.py:372-375 | two positions of one labware get the same label if and only if they are equal |
| `Addressing.Pos2StrAsDigits` | helper/utils.py:372-375 | every label is the name, "[0", the position's digits (one more '0' below 10) and "]" |
| `Addressing.DigitsRoundTrip` | helper/utils.py:372-375 | the text between "[0" and "]" reads back as the position |
| `Addressing.MiddleDetermined` | helper/utils.py:372-375 | two labels with the same name and brackets have the same middle |
| `Addressing.Pos2StrExamples` | helper/utils.py:358-364 | the docstring examples "Eppendorf[003]" and "Eppendorf[013]" |
| `Addressing.DilutionPositionDef` | helper/utils.py:380-416 | the two lists are the labels and wells of `DilutionLabels`/`DilutionWells`: a plate's display name with consecutive wells, or one rack label per position with well 1 |
| `Addressing.DilutionSnoc` | helper/utils.py:405-414 | one more sample appends one label and one well, as the loop body does |
| `Addressing.DilutionPositionsDistinct` | helper/utils.py:380-416 | both lists have one entry per sample, and two samples never share a label and a well |
| `Catalog.PlatesAreNamed` | helper/utils.py:50-117 | every plate of either generation has a display name, so the plate branch of `dilution_position_def` never raises |
| `Catalog.CapacityIsPartial` | helper/utils.py:58-101 | "384_Well" has a name but no capacity, and "CustomVialHolder" a capacity but no name |
| `Catalog.PosCtrVialName` | helper/utils.py:64 | the display name of the positive control vial |
| `Catalog.NegCtrVialName` | helper/utils.py:62 | the display name of the negative control vial |
| `Catalog.AssayBufferName` | helper/utils.py:68 | the assay buffer is "100ml_3" in both generations |
| `Catalog.BsaTubeName` | helper/utils.py:79 | the BSA tube's display name |
| `Catalog.MobilePhaseName` | helper/utils.py:82 | the mobile phase's display name |
| `Catalog.CustomVialHolderName` | utils.py:17 | the older generation names the custom vial holder |
| `Gwl.RowFields` | helper/utils.py:598-607 | a line kept after `strip()` and `split(',')` has exactly five fields |
| `Gwl.KeptRows` | helper/utils.py:598-614 | every kept row has five fields |
| `Gwl.ExpandIsTriples` | helper/utils.py:598-624 | the first loop's output is one aspirate/dispense/wash triple per kept row, in input order; other lines add nothing |
| `Gwl.TriplesAt` | helper/utils.py:617-624 | row `k`'s aspirate, dispense and wash lines sit at 3k, 3k+1 and 3k+2 |
| `Gwl.CountWExpand` | helper/utils.py:619-630 | the expansion holds one wash line per kept row |
| `Gwl.KeepRanksShape` | helper/utils.py:632-635 | with more than eight wash lines, `indices_to_keep` is eight strictly increasing ranks from 0 to n-1 |
| `Gwl.ThinCounts` | helper/utils.py:638-644 | the comprehension keeps one wash line per kept rank |
| `Gwl.ThinKeepsCommands` | helper/utils.py:644 | thinning drops wash lines only; every other line stays, in order |
| `Gwl.ThinKeepsEight` | helper/utils.py:628-646 | with `onetime_tip_change` and more than eight wash lines exactly eight remain, and every other line is kept |
| `Gwl.WashIndicesRanks` | helper/utils.py:653 | `w_indices` lists every wash line, in order: its t-th entry has t wash lines before it |
| `Gwl.FlushWashes` | helper/utils.py:652-655 | the final loop, in place on the line array, turns every wash line (or all but the last) into a flush line |
| `Gwl.OverwriteAt` | helper/utils.py:654-655 | exactly the listed entries now hold the new line |
| `Gwl.FlushedByIndices` | helper/utils.py:653-655 | overwriting the lines `w_indices` lists is flushing the washes |
| `Gwl.FlushAllLeavesNoWash` | helper/utils.py:652-655 | with `reuse_tips` no wash line is left |
| `Gwl.FlushAllButLastLeavesOne` | utils.py:416-419 | the older converter leaves exactly one wash line when there was any |
| `Gwl.FlushAllButLastKeepsLast` | utils.py:416-419 | that wash line is the last one, and every flushed line was a wash with another after it |
| `Gwl.ExpandRows` | helper/utils.py:598-624 | the first loop's output is `Expand(lines)` |
| `Gwl.ConvertCsvToGwl` | helper/utils.py:539-658 | the lines written are expand, thin if asked, then flush every wash if `reuse_tips` |
| `Gwl.ConvertCsvToGwlOld` | utils.py:307-422 | the lines written are expand, thin if asked, then flush every wash but the last |
| `Gwl.ConvertedNewShape` | helper/utils.py:539-658 | without options one triple per row; with `reuse_tips` no wash; otherwise eight washes when thinned past eight rows, else one per row; commands kept in order |
| `Gwl.ConvertedOldShape` | utils.py:307-422 | the older converter leaves one wash line exactly when a row was converted |
| `Gwl.InsertSorts` | helper/utils.py:721 | inserting into an ascending list keeps it ascending and adds exactly that element |
| `Gwl.SortedSorts` | helper/utils.py:721 | `sorted(excluded_positions)` is ascending and a permutation of its input |
| `Gwl.ExcludedFields` | helper/utils.py:719-722 | one field per excluded well |
| `Gwl.ReagentHead` | helper/utils.py:716 | the fixed part of the `R;` line has 16 fields |
| `Gwl.TransferHead` | helper/utils.py:798 | the fixed part of the `T;` line has 19 fields |
| `Gwl.ReagentHeadReadsAs` | helper/utils.py:716 | the `R;` fields hold the command letter, both labware names, the wells, volume, tip reuses and dispenses, and the constant 0 |
| `Gwl.TransferHeadReadsAs` | helper/utils.py:798 | the `T;` fields hold the letter, both labware names, the wells, volume, reuses, dispenses, counts and directions |
| `Gwl.ExcludedFieldsReadBack` | helper/utils.py:719-722 | the excluded fields read back as the wells in ascending order, a permutation of those given |
| `Gwl.LineReadBack` | helper/utils.py:716-724 | a line of `;`-free fields and a newline splits back into those fields |
| `Gwl.ReagentFieldsNoSemicolons` | helper/utils.py:716-722 | no `R;` field holds a `;` when the labware names hold none |
| `Gwl.TransferFieldsNoSemicolons` | helper/utils.py:798-804 | no `T;` field holds a `;` when the labware names hold none |
| `Gwl.ReagentDistributionLayout` | helper/utils.py:661-727 | a mode other than "a"/"w" fails the assertion; otherwise the line ends in a newline and splits back into its fields |
| `Gwl.SampleTransferLayout` | helper/utils.py:730-809 | the same for the `T;` line |
| `Gwl.TailReadBack` | helper/utils.py:719-724 | after the fixed fields come the excluded wells ascending, then the empty field after the last `;` |
| `Gwl.ReagentFieldsReadBack` | helper/utils.py:716-724 | the `R;` line has 17 fields plus one per excluded well, each reading back as its argument |
| `Gwl.TransferFieldsReadBack` | helper/utils.py:798-806 | the `T;` line has 20 fields plus one per excluded well, each reading back as its argument |
| `Gwl.ReagentDistributionExample` | helper/utils.py:703-707 | the docstring's `R;100ml_1;;;1;1;dotblot_apparatus;;;1;24;100;;12;12;0;` line |
| `Gwl.SortedExample` | helper/utils.py:721 | excluded wells are written ascending whatever their order |
| `TextTools.Pack` | helper/utils.py:926-935 | the greedy packing always yields at least one line |
| `TextTools.StripLineText` | helper/utils.py:931 | `line.strip()` takes off the trailing space and leaves the words joined by spaces |
| `TextTools.DivideStringIntoLines` | helper/utils.py:917-940 | the loop's result is the rendering of the greedy packing of the words |
| `TextTools.BreakKeepsState` | helper/utils.py:929-932 | a word that does not fit closes the line and starts the next |
| `TextTools.ExtendKeepsState` | helper/utils.py:933-935 | a word that fits joins the current line |
| `TextTools.PackKeepsWords` | helper/utils.py:926-938 | packing keeps every word, in order |
| `TextTools.PackFits` | helper/utils.py:929 | a line of two or more words is shorter than the width |
| `TextTools.PackBreaks` | helper/utils.py:929-932 | only the first line can be empty, and a line closes only when the next word would not have fitted |
| `TextTools.WrappedLinesProperties` | helper/utils.py:917-940 | the lines hold the words in order; only the first may be empty, exactly when there are no words or the first does not fit; lines of two or more words are shorter than the width |
| `TextTools.WrapLeadingNewline` | helper/utils.py:929-931 | a first word too long for the line makes the text start with a newline |
| `TextTools.BestIn` | helper/utils.py:955-960 | the loop's choice is one of the entries seen |
| `TextTools.BestInIsBest` | helper/utils.py:950-965 | nothing is chosen exactly when nothing fits; otherwise the choice fits and has the least usable room, the first such |
| `TextTools.BestIsUnique` | helper/utils.py:955-960 | there is only one best entry |
| `TextTools.FindBestContainer` | helper/utils.py:950-965 | the scalar form returns the best entry's name or "VOLUME TOO BIG" |
| `TextTools.BestContainerExamples` | helper/utils.py:119-127 | with each generation's table: 1 mL to an Eppendorf, 10 mL to a Falcon15, 97.5 mL too big for the newer reservoir but not the older |
| `TextTools.FindBestContainers` | helper/utils.py:967-986 | the dict form gives every reagent its own best container |
| `TextTools.Lower` | helper/utils.py:911 | `lower()` keeps the length |
| `TextTools.AssayIndicesUpTo` | helper/utils.py:909-912 | the indices are ascending and are exactly the matching assays among the first `n` |
| `TextTools.GetAssayIndices` | helper/utils.py:887-914 | an index is listed if and only if its assay matches the method and product, ascending |
| `TextTools.GetAssayIndicesIgnoresCase` | helper/utils.py:911 | lower-casing the query changes nothing |
| `TextTools.LowerIdempotent` | helper/utils.py:911 | lower-casing twice is lower-casing once |
| `TextTools.GenerateMethodsAndProducts` | helper/utils.py:872-884 | METHODS_LIST is the methods in order of first appearance, PRODUCTS_DICT has one key per method with its products in order |
| `TextTools.MethodsListed` | helper/utils.py:875-877 | each method appears once, exactly the methods of the assays, ordered by first appearance |
| `TextTools.ProductsListed` | helper/utils.py:879-882 | a method's product list holds exactly its assays' products, one per assay |
| `TextTools.ConcatenatedMembers` | helper/utils.py:530-534 | an item is in the flat list exactly when it is in one of the rows |
| `TextTools.FlattenOld` | utils.py:290-304 | the older `flatten` concatenates list rows and raises TypeError on anything else |
| `TextTools.Flatten` | helper/utils.py:519-536 | the newer `flatten` returns the argument unchanged where the older one raises |
| `TextTools.FlattenExample` | helper/utils.py:523-526 | the docstring example |
| `Allocation.Draws` | Dotblot.py:81-106 | `k` successive calls return `k` values |
| `Allocation.AdvancedClosed` | Dotblot.py:81-93 | the counter climbs one per call and then stays at the capacity, or where it was if above |
| `Allocation.AdvancedSnoc` | Dotblot.py:81-93 | one more call advances the counter from where the first `k` left it |
| `Allocation.DrawsSnoc` | Dotblot.py:81-93 | call `k + 1` returns what the counter left by the first `k` calls draws |
| `Allocation.DrawsFrom` | Dotblot.py:81-93 | call `i` returns `last + i` while that is below the capacity, and -1 from then on |
| `Allocation.DrawsAfterReset` | Dotblot.py:644-645 | after `set_all_parameters` resets the counter to 1, the calls yield 1 .. capacity - 1 and then -1: the last position is never handed out |
| `Allocation.TwoFieldCounter.constructor` | Dotblot.py:19-20 | both counters start at 1 with the table's Eppendorf and DeepWell capacities |
| `Allocation.TwoFieldCounter.NextEppendorfPos` | Dotblot.py:81-93 | returns the counter and adds one while `counter + 1 <= capacity`; otherwise -1 and no change; the DeepWell counter is untouched |
| `Allocation.TwoFieldCounter.NextDeepWellPos` | Dotblot.py:94-106 | the same for the DeepWell counter, leaving the Eppendorf counter untouched |
| `Allocation.TwoFieldCounter.Reset` | Dotblot.py:644-645 | both counters are 1 again |
| `Allocation.Zeros` | GeneralDilution.py:21 | one zero counter for every key, and no other key |
| `Allocation.SentinelStepCases` | GeneralDilution.py:43-68 | the sentinel `next_labware_pos` returns the new count exactly while under capacity, None exactly at capacity, -1 otherwise; only the named counter changes, and only on success |
| `Allocation.SentinelCountedValue` | GeneralDilution.py:270-288 | `n` sentinel calls advance a countable name to `used + n`, stopping at the capacity; any other name changes nothing |
| `Allocation.Recorded` | GeneralDilution.py:248-250 | a loop recording the counter after each call records `n` values |
| `Allocation.SentinelCountedAdd` | GeneralDilution.py:270-288 | `a` calls and then `b` more are `a + b` calls |
| `Allocation.RecordedValues` | GeneralDilution.py:248-250 | the recorded values climb one by one, then repeat the capacity; an uncountable name records its unchanged value |
| `Allocation.RecordedAdd` | GeneralDilution.py:248-250 | recording `a` calls and then `b` more records what `a + b` calls record |
| `Allocation.RecordedClimb` | GeneralDilution.py:248-250 | with room for `n` more, the recorded values are the next `n` positions |
| `Allocation.StartCountAsWritten` | GeneralDilution.py:270-288 | `count_starting_lw_pos` counts the origin's display name and keeps the set of counters |
| `Allocation.StartCountIntended` | GeneralDilution.py:270-277 | counting the origin's own counter, as the docstring says, keeps the set of counters |
| `Allocation.RaisingStepCases` | helper/SEC_HPLC.py:51-80 | the raising `next_labware_pos` succeeds exactly under capacity, returning the new count; on failure nothing changes, and the error is KeyError exactly when the name has no counter or no capacity |
| `Allocation.RaisingCountedValue` | helper/SEC_HPLC.py:81-91 | `n` raising calls either all succeed and advance the counter by `n`, or stop with ValueError at the capacity; no other counter changes |
| `Allocation.SentinelCounters.constructor` | GeneralDilution.py:21 | one zero counter per key of `LabwareNames` |
| `Allocation.SentinelCounters.NextLabwarePos` | GeneralDilution.py:43-68 | reply and new counters are those of one sentinel step |
| `Allocation.SentinelCounters.CountStartingLwPos` | GeneralDilution.py:270-288 | `n` sentinel calls on the display name of a known origin; an unknown origin changes nothing |
| `Allocation.SentinelCounters.Reset` | GeneralDilution.py:314 | `dict.fromkeys(used, 0)`: every counter back to zero, same keys |
| `Allocation.RaisingCounters.constructor` | helper/SEC_HPLC.py:25 | one zero counter per key of `LabwareNames` |
| `Allocation.RaisingCounters.NextLabwarePos` | helper/SEC_HPLC.py:51-80 | result and new counters are those of one raising step |
| `Allocation.RaisingCounters.CountStartingLwPos` | helper/SEC_HPLC.py:81-91 | `n` raising calls on the display name, the first exception ending the loop with earlier increments kept |
| `Allocation.RaisingCounters.Reset` | helper/SEC_HPLC.py:411 | every counter back to zero, same keys |
| `Allocation.DisplayNameNotCounted` | GeneralDilution.py:285-286 | when the display name is no key, the sentinel form consumes nothing and the raising form raises KeyError at once |
| `Allocation.DisplayNames` | helper/utils.py:50-57 | the DeepWell display name is no key of either table, the Eppendorf one is its own key |
| `Allocation.NewDeepWellNameNoKey` | helper/utils.py:50-88 | "96 Deep Well 2ml[001]" is no key of the newer table |
| `Allocation.OldDeepWellNameNoKey` | utils.py:10-27 | nor of the older one |
| `Allocation.OldVialNamesNoKey` | utils.py:15-16 | the older display names "2R Vial holder[001]" and "8R Vial holder[001]" are no keys either |
| `Dilution.WorktablesHold` | helper/utils.py:50-117 | both tables have DeepWell as a named plate and Eppendorf as a rack with a capacity |
| `Dilution.DestOfLists` | helper/utils.py:380-416 | sample `j` of a `dilution_position_def` call goes to entry `j` of its label and well lists |
| `Dilution.DrawsAt` | Dotblot.py:81-106 | draw `i` is what the counter left by the first `i` draws gives |
| `Dilution.ControlPrefixSnoc` | helper/Dotblot.py:157-188 | one more step, taken from where the chain ends, extends the chain |
| `Dilution.ChainDestination` | helper/Dotblot.py:161-166 | the last step goes to the next Eppendorf tube (well 1), every other step to the DeepWell position drawn next; only that step's counter advances, by one draw |
| `Dilution.ChainSteps` | helper/Dotblot.py:157-188 | the step loop: rows chained from the source with the steps' volumes, intermediate steps into the DeepWell wells drawn one by one, the last into the Eppendorf tube drawn once, whose prior counter value is recorded |
| `Dilution.ControlChain` | helper/Dotblot.py:150-195 | a control chain: one sample and one buffer row per step with the step's volumes, each from the previous destination; intermediate steps into successive DeepWell wells, the last into the next Eppendorf tube, whose counter value is recorded; counters advance by the steps taken |
| `Dilution.CounterValues` | helper/Dotblot.py:358-360 | `n` draws see `n` counter values |
| `Dilution.CounterValuesAdd` | helper/Dotblot.py:358-360 | values over `a` draws then `b` more are the values over `a + b` draws |
| `Dilution.StepBaseNext` | helper/Dotblot.py:333-362 | each intermediate step starts where the previous step's `n` draws left the DeepWell counter |
| `Dilution.AdvancedAdd` | Dotblot.py:81-106 | `a + b` calls are `a` calls then `b` |
| `Dilution.StepSamples` | helper/Dotblot.py:338-362 | one step writes `n` paired sample and buffer rows from the previous wells into the step's labels, drawing one tube (final step) or one well per sample |
| `Dilution.RowsChainSnoc` | helper/Dotblot.py:327-368 | one more step whose rows fit the chain extends it |
| `Dilution.DilutionSteps` | helper/Dotblot.py:327-368 | the step loop: one row set per step, the first from the initial lists, each next from the previous, intermediate steps into consecutive DeepWell wells, the final one into consecutive tubes whose values are recorded |
| `Dilution.InitialTransfer` | helper/Dotblot.py:300-319 | the initial transfer: `n` rows from the sources into the DeepWell labels and wells from the current counter, which advances by `n` |
| `Dilution.ControlVialGrid` | helper/Dotblot.py:137-148 | the vial's column is 1..5, its holder position reads back as its row and column, and two vials share a position only if they are the same |
| `Dilution.ChunksOfFlat` | helper/Dotblot.py:378 | the chunks concatenated give the list back |
| `Dilution.ChunksOfSizes` | helper/Dotblot.py:378 | every chunk is nonempty and no longer than the size, all but the last exactly the size |
| `Dilution.ChunksOfOne` | helper/Dotblot.py:204 | chunks of one are the items one by one |
| `Dilution.SingletonChunkAt` | helper/Dotblot.py:204 | chunk `n` of the recorded control tubes is the counter after `n` draws |
| `Dilution.SampleSeries` | helper/Dotblot.py:288-376 | the whole sample series: initial transfer, then the chained steps, the final tubes recorded, counters advanced by `n` per step |
| `Dilution.ChunksOfCount` | helper/Dotblot.py:378 | `size * m` items make `m` chunks of exactly `size` |
| `WellGeometry.WrapMod` | helper/utils.py:483-485 | `x % m` with 0 replaced by `m` lies in 1..m |
| `WellGeometry.DeepWellPos` | helper/utils.py:419-518 | ValueError exactly for a bad plate, direction or transfer token; an off-plate position returns the error object; triplicate gives three wells, vertical single gives the position itself |
| `WellGeometry.DocstringExamples96` | helper/utils.py:440-445 | the 96-well docstring examples |
| `WellGeometry.DocstringExamples384` | helper/utils.py:446-449 | the 384-well vertical examples |
| `WellGeometry.DocstringExample384Horizontal` | helper/utils.py:450-451 | the 384-well horizontal example |
| `WellGeometry.TripletStartsAtSlot` | helper/utils.py:480-499 | a triplet starts at its slot's row in the first column of its block |
| `WellGeometry.WrapModPredecessor` | helper/utils.py:483-485 | the wrapped remainder is `(x - 1) % m + 1` |
| `WellGeometry.DeepWellPosTriplicate` | helper/utils.py:480-516 | triplicate mode returns the slot's three wells, one column apart |
| `WellGeometry.WellCoordinates` | helper/utils.py:514-516 | a well of a block sits at the expected row and column |
| `WellGeometry.SlotBounds` | helper/utils.py:480-499 | samples 1..plate/3 use the blocks and rows of the plate |
| `WellGeometry.TripletOnPlate` | helper/utils.py:480-516 | a triplicate sample 1..plate/3 occupies three adjacent columns of one row; a vertical sample beyond plate/3 starts off the plate |
| `WellGeometry.SlotDeterminesSample` | helper/utils.py:480-499 | the slot gives the sample back |
| `WellGeometry.SameSlotSameSample` | helper/utils.py:480-499 | two samples in one slot are one sample |
| `WellGeometry.SharedWellSameSample` | helper/utils.py:480-516 | a shared well puts two samples in one slot |
| `WellGeometry.TripletWellAt` | helper/utils.py:514-516 | well `j` of a triplet is in column `3b + j` of its row |
| `WellGeometry.TripletsDisjoint` | helper/utils.py:480-516 | different triplicate samples never share a well |
| `WellGeometry.TripletsCoverPlate` | helper/utils.py:480-516 | every well of the plate belongs to some sample's triplet |
| `WellGeometry.SampleOfWell` | helper/utils.py:480-516 | the sample owning a well has that well's block and row |
| `WellGeometry.WellInTriplet` | helper/utils.py:514-516 | a well is entry `column mod 3` of its triplet |
| `WellGeometry.HorizontalSingleAsWrittenCollides` | helper/utils.py:501-512 | as written, samples 360 and 384 of a 384-well plate both get well 384, and sample 12 of a 96-well plate gets well 186 |
| `WellGeometry.HorizontalSingleAgreesOffLastColumn` | helper/utils.py:501-512 | the code as written and the row-major mapping differ only at the end of a row |
| `WellGeometry.HorizontalSingleRowMajor` | helper/utils.py:501-512 | the intended mapping fills the plate row by row |
| `WellGeometry.HorizontalSingleBijective` | helper/utils.py:501-512 | the intended mapping is one-to-one and onto the plate's wells |
| `WellGeometry.OldDeepWellPosAgrees` | utils.py:255-287 | the older mapper agrees with the newer defaults on 1..96 |
| `WellGeometry.OldDeepWellPosExamples` | utils.py:270-287 | the older docstring examples, and an answer for position 0 since it has no range check |
| `Dotblot.ChainsOfSnoc` | helper/Dotblot.py:150-195 | one more chain, ending in the tube the counter gives after the earlier chains, extends the control run |
| `Dotblot.ControlGroups` | helper/Dotblot.py:150-204 | the control loop builds one chain per coating group, each ending in the next tube, recorded in a list of its own; asking for more groups than the data holds raises IndexError; counters advance by the steps taken |
| `Dotblot.ControlStep` | helper/Dotblot.py:157-195 | one pass builds the next chain and records its tube, the counters advancing accordingly |
| `Dotblot.PositiveControlDilutions` | helper/Dotblot.py:118-206 | chains start from the positive-control vial at its holder position and take the named buffer; an unknown buffer key raises KeyError before anything is drawn |
| `Dotblot.NegativeControlDilutions` | helper/Dotblot.py:207-272 | chains start from the first negative-control vial; the loop counts positive-control groups, so fewer negative groups raise IndexError; an unknown buffer raises KeyError first |
| `Dotblot.ControlPositionsAreSingletons` | helper/Dotblot.py:204 | one recorded list per chain with steps, holding the counter's successive values |
| `Dotblot.ControlTubeRecorded` | helper/Dotblot.py:161-164 | under capacity, chain `k` ends in the tube after the earlier chains' tubes, and that tube is recorded |
| `Dotblot.TubeUnderCapacity` | helper/Dotblot.py:92-104 | below capacity, draw `n` hands out tube `e0 + n` |
| `Dotblot.NonemptyGrows` | helper/Dotblot.py:150 | counting chains over a longer prefix never gives fewer |
| `Dotblot.SampleSources` | helper/Dotblot.py:303-308 | one source label per sample |
| `Dotblot.TubeUseIsProduct` | helper/Dotblot.py:358-360 | each group with steps draws `n` tubes |
| `Dotblot.SampleGroups` | helper/Dotblot.py:296-376 | one series per coating group from the same sources; the recorded tubes are the counter's successive values; counters advance by the wells and tubes used |
| `Dotblot.SampleStep` | helper/Dotblot.py:297-368 | one pass runs the next group's series from the counters the earlier ones left |
| `Dotblot.DrawTubes` | helper/Dotblot.py:291-294 | `n` calls of `next_eppendorf_pos` collect the positions they hand out |
| `Dotblot.SampleDilutions` | helper/Dotblot.py:273-380 | for an Eppendorf origin tubes are drawn first; every group runs a series; the result is the recorded tubes in lists of `n`; no samples means ValueError from `range` with step 0 |
| `Dotblot.SeriesOfSnoc` | helper/Dotblot.py:296-368 | one more series, started from the counters the earlier ones left, extends the run |
| `Dotblot.SamplePositionsChunked` | helper/Dotblot.py:378 | the recorded lists hold `n` tubes each, one per group, concatenating to the counter's values, consecutive tubes under capacity |
| `DotblotPump.CalculatePumpLabwarePositions` | helper/Dotblot.py:381-444 | the loop builds exactly `PumpLayoutOf`: the control triplets in slots 1, 2 (and 9, 10), samples in slots `i + 3 + 8k` or two blocks further; ValueError unless one or two coatings, IndexError for a sample in a group past the coatings |
| `DotblotPump.PumpIndexSlots` | helper/Dotblot.py:422-429 | within a group's capacity, sample slots lie in 3..32, clear of the control slots, and differ between samples |
| `DotblotPump.SlotsDisjoint` | helper/Dotblot.py:427-429 | slots 1..32 are triplets whose wells never meet and lie on the plate |
| `DotblotPump.SamplesDisjoint` | helper/Dotblot.py:422-429 | within the capacity, two different samples share no well |
| `DotblotPump.SampleClearOfControls` | helper/Dotblot.py:402-429 | within the capacity, no sample shares a well with a control |
| `DotblotPump.SlotsCollideBeyondCapacity` | helper/Dotblot.py:426-429 | with two coatings the fifteenth sample of the first group lands on the seventh of the second |
| `DotblotPump.PumpWellsFirstColumn` | helper/Dotblot.py:403-404 | slots 1..8 are the triplets `p, p + 8, p + 16` |
| `DotblotPump.FirstGroupSlots` | helper/Dotblot.py:427 | the first four samples of the first coating are slots 3..6 |
| `DotblotPump.PumpDocstringExample` | helper/Dotblot.py:389-395 | the docstring's example layout |
| `DotblotPump.SeqMax` | helper/Dotblot.py:571 | `np.max` is an element no smaller than any other, and raises ValueError on an empty list |
| `DotblotPump.KindOf` | helper/Dotblot.py:543-566 | "DPBS" is a reagent distribution, "Pos/Neg control" and "Samples" their own kinds, every other liquid goes to all wells |
| `DotblotPump.SampleArray` | helper/Dotblot.py:570 | NumPy flattens the sample wells exactly when the groups are rectangular lists of triplets |
| `DotblotPump.ControlRows` | helper/Dotblot.py:677-701 | the control rows go to exactly the control wells of the groups from `j` on, or IndexError |
| `DotblotPump.SampleRows` | helper/Dotblot.py:661-675 | the sample rows go to exactly the wells of the groups' samples, or IndexError when a group does not fit the layout |
| `DotblotPump.TransferToWells` | helper/Dotblot.py:517-730 | the sample array comes first, so a bad one fails every step; distributions carry the volume and serve DPBS or the all-wells liquids; per-well rows serve the control and sample steps |
| `DotblotPump.ExcludedIsComplement` | helper/Dotblot.py:650-651 | a well in range is excluded exactly when it is not used |
| `DotblotPump.UsedWellsServed` | helper/Dotblot.py:595-598 | with the range taken from the used wells, every used well gets reagent |
| `DotblotPump.DpbsCoversEveryWell` | helper/Dotblot.py:703-709 | DPBS goes to every well from 1 to the highest sample well, none excluded |
| `DotblotPump.AllWellsServeUsedWells` | helper/Dotblot.py:635-657 | with one coating, any other liquid reaches every used well below the highest sample well and skips exactly the unused ones |
| `DotblotPump.NoSamplesNoTransfer` | helper/Dotblot.py:570-571 | with no samples, every step raises ValueError at `np.max` |
| `DotblotPump.RaggedGroupsRaise` | helper/Dotblot.py:570 | with two coatings, groups of different sizes make every step raise ValueError |
| `DotblotPump.SampleRowsServeEverySample` | helper/Dotblot.py:661-675 | the "Samples" step gives a 100 uL row to every sample well and to nothing else |
| `DotblotPump.GroupsPastCoatingsEmpty` | helper/Dotblot.py:424-429 | a layout exists only when the groups past the coatings are empty |
| `DotblotPump.SampleRowsWhole` | helper/Dotblot.py:663-675 | the sample rows of a layout built from non-empty groups never raise |
| `DotblotPump.ControlRowsMissSamples` | helper/Dotblot.py:677-701 | the control step never writes into a sample well within the capacity |
| `DotblotPump.FlattenEmpty` | helper/Dotblot.py:570 | groups without samples flatten to nothing |
| `DotblotLegacy.ControlBuffer` | Dotblot.py:123-127 | the control's buffer trough is "100ml_2" exactly for DPBS, "100ml_1" otherwise |
| `DotblotLegacy.ControlDilutions` | Dotblot.py:107-195 | the older control chain starts from its vial's holder position, takes buffer from the control's trough, goes through DeepWell wells and ends in the recorded tube; counters advance by the steps |
| `DotblotLegacy.PositiveControlDilutions` | Dotblot.py:107-195 | the positive-control chain records one tube and advances the counters by its steps |
| `DotblotLegacy.NegativeControlDilutions` | Dotblot.py:196-278 | the same for the negative control |
| `DotblotLegacy.ContainerSources` | Dotblot.py:305-307 | sample `j` comes from container `j + 1` of its labware |
| `DotblotLegacy.SampleDilutions` | Dotblot.py:279-376 | one series from containers 1..n, buffered from "100ml_1"; the recorded tubes are the counter's successive values |
| `DotblotLegacy.SampleTriplets` | Dotblot.py:407-408 | one triplet per recorded position, in order |
| `DotblotLegacy.CalculatePumpLabwarePositions` | Dotblot.py:377-416 | controls in slots 1 and 2, then one triplet per recorded tube |
| `DotblotLegacy.PumpDocstringExample` | Dotblot.py:385-391 | the docstring example |
| `DotblotLegacy.SampleTripletsDisjoint` | Dotblot.py:395-408 | different recorded positions 3..32 give triplets on the plate, apart from each other and from the controls |
| `DotblotLegacy.OldIsPump` | Dotblot.py:395-396 | the older mapper gives the newer default triplets on 1..96 |
| `NanoDSF.Iota` | helper/nanoDSF.py:94 | the initial slots are 1..n |
| `NanoDSF.SlotWellIsMapper` | helper/nanoDSF.py:123 | a slot's well is what `get_deep_well_pos(p, 384, "horizontal", "single")` gives |
| `NanoDSF.SlotWells` | helper/nanoDSF.py:117-123 | the loop maps slots 1..count to their wells, in order |
| `NanoDSF.IntendedSlotWells` | helper/nanoDSF.py:117-123 | the same with the row-major mapping |
| `NanoDSF.RunBsaWells` | helper/nanoDSF.py:105-110 | a BSA run appends one first-column well per started row of 24 slots |
| `NanoDSF.BsaSlotWell` | helper/nanoDSF.py:108-109 | BSA slot `24j + 1` is row `j`, column 1, under both mappings |
| `NanoDSF.InsertBsaSlots` | helper/nanoDSF.py:97-114 | the `while` loop leaves the slots 1..n+k and records the k BSA wells in order |
| `NanoDSF.SampleSlotBounds` | helper/nanoDSF.py:105-110 | sample slots avoid the row starts, keep the sample order and stay inside 1..n+k |
| `NanoDSF.SlotsSplit` | helper/nanoDSF.py:105-114 | after the loop the row starts are BSA slots and every other slot belongs to exactly one sample |
| `NanoDSF.Ints` | helper/nanoDSF.py:128 | the integer wells of a list holding rejection objects |
| `NanoDSF.Ascending` | helper/nanoDSF.py:128 | `sorted(list(s))` is strictly ascending with the same elements |
| `NanoDSF.PastThePlateMixesTypes` | helper/nanoDSF.py:123-128 | a slot past the plate puts a rejection object beside well 17 in the difference, so `sorted` raises TypeError |
| `NanoDSF.FreshDestIsSamples` | helper/nanoDSF.py:128 | the corrected destinations are exactly the wells of the samples' slots |
| `NanoDSF.FreshDestOnlySamples` | helper/nanoDSF.py:128 | every corrected destination is some sample's well |
| `NanoDSF.ListedSlot` | helper/nanoDSF.py:128 | a listed well belongs to a slot and is no BSA well of the run |
| `NanoDSF.RowStartIsBsa` | helper/nanoDSF.py:108-109 | a row-start slot's well is one of the run's BSA wells |
| `NanoDSF.FreshDestHasSample` | helper/nanoDSF.py:128 | every sample's well is listed |
| `NanoDSF.SampleWellsDistinct` | helper/nanoDSF.py:117-128 | different samples get different wells under the row-major mapping |
| `NanoDSF.StaleBsaWellsDropSamples` | helper/nanoDSF.py:97-128 | `BSA_wells` is never cleared: a BSA run of 24 samples followed by a run of 25 without BSA drops wells 1 and 2 from the destinations |
| `NanoDSF.RowEndShiftedDown` | helper/nanoDSF.py:123 | as written, with BSA and 23 samples the last sample is listed at well 370 while well 369 stays unused |
| `NanoDSF.FirstRowSlot` | helper/utils.py:501-507 | a slot before the end of the first row lands in row 0 |
| `NanoDSF.LastSlotsMerge` | helper/nanoDSF.py:123-128 | with BSA and 368 samples, slots 360 and 384 get the same well, so the set merges two samples |
| `NanoDSF.SampleExcluded` | helper/nanoDSF.py:156-161 | the excluded wells are exactly the wells from 1 up to the highest destination that are neither destinations nor, with BSA, BSA wells; no destinations raise ValueError |
| `NanoDSF.ExcludedSparesSamples` | helper/nanoDSF.py:156-161 | with the corrected destinations no sample well is excluded |
| `NanoDSF.NanoDSFMethod.constructor` | helper/nanoDSF.py:17-35 | zero counters, no BSA wells, destinations `[0]` |
| `NanoDSF.NanoDSFMethod.CountStartingLwPos` | helper/nanoDSF.py:64-76 | one count for the BSA tube's display name, then `n` for the origin's display name |
| `NanoDSF.MapSlots` | helper/nanoDSF.py:117-123 | the mapping loop: with the misspelt triplicate token the first slot raises ValueError; otherwise every slot is mapped in order, slots past the plate to the rejection object |
| `NanoDSF.NanoDSFMethod.CalculateDeepWellPositions` | helper/nanoDSF.py:77-134 | BSA with triplicates fails the assertion; triplicates otherwise reach the mapper with the misspelt token and raise ValueError; slots past the plate raise TypeError; otherwise the slot wells are returned, the BSA wells appended and the destinations set as written |
| `NanoDSF.BsaRequestCountsNothing` | helper/nanoDSF.py:70 | the BSA tube is requested by its display name, which is no key, so nothing is counted |
| `NanoDSFLegacy.NanoSources` | nanoDSF.py:94-100 | one origin label per sample: the tube the Eppendorf counter shows after `j` draws, or container `j + 1` |
| `NanoDSFLegacy.OriginSources` | nanoDSF.py:94-100 | the origin labels are `NanoSources`, drawing one tube per sample for an Eppendorf origin and leaving the DeepWell counter alone |
| `NanoDSFLegacy.SampleDilutionsAsWritten` | nanoDSF.py:72-113 | as written: the initial loop draws one origin tube per sample (Eppendorf origin) and `n` DeepWell wells and builds one row per sample into the wells from the counter; the first CSV path then raises AttributeError, so no dilution step runs and no tube is recorded |
| `NanoDSFLegacy.SampleDilutions` | nanoDSF.py:72-171 | as intended, with the CSV name set: the older series from the origin labels; the recorded tubes are drawn after the origin tubes; counters advance by the wells and tubes used |
| `NanoDSFLegacy.FinalTubesAvoidOrigins` | nanoDSF.py:97-152 | in the intended run, with enough tubes, the final dilutions never land in an origin tube |
| `NanoDSFLegacy.CalculatePumpLabwarePositions` | nanoDSF.py:190-201 | each recorded tube maps to its triplet, in order |
| `SecHplc.IsSampleDilutionNeeded` | helper/SEC_HPLC.py:92-134 | ValueError exactly below 2 and at 4; dilution is needed except at 2 and 10; an undiluted sample keeps its concentration, a diluted one (bar the 3 mg/mL placeholder row) goes lower |
| `SecHplc.ColumnLoad` | helper/SEC_HPLC.py:108-124 | every settled row loads 200 ug on the column: concentration times injection volume |
| `SecHplc.PlaceholderRow` | helper/SEC_HPLC.py:114-120 | the 2 < c < 4 row "dilutes" a 3 mg/mL sample up to 9.99 mg/mL and loads a different amount |
| `SecHplc.DilutionParameter` | helper/utils.py:1016-1021 | `calculate_dilution_parameter` with the total volume given: ZeroDivisionError exactly at a zero initial concentration, otherwise AssertionError or two non-negative volumes that add up to the total and whose sample volume times the initial concentration is the total times the final one |
| `SecHplc.DilutionParameterOk` | helper/utils.py:1016-1021 | for a positive total and final concentration, the volumes exist exactly when the initial concentration is at least the final one |
| `SecHplc.SampleVolumesSettled` | helper/SEC_HPLC.py:143-156 | every settled row but the 3 mg/mL placeholder yields volumes that bring 1000 uL to the final concentration; the placeholder raises AssertionError |
| `SecHplc.NewTablesServe` | helper/utils.py:50-117 | the current tables name their plates and place the mobile phase in "100ml_1" |
| `SecHplc.VialsRunMeaning` | helper/SEC_HPLC.py:305-326 | the four (or three) reservations before the reference material succeed exactly with room for them; the blank gets the second vial and the standard the fourth |
| `SecHplc.PosCtrRunMeaning` | helper/SEC_HPLC.py:203-253 | `pos_ctr_dilution` succeeds exactly when the reference material is at least 10 mg/mL and both labware have room, reserving its source and one more destination vial; below 10 mg/mL it raises AssertionError (ZeroDivisionError at 0) before any reservation |
| `SecHplc.StandardsRunSucceeds` | helper/SEC_HPLC.py:298-339 | `standards_transfer` succeeds exactly when the reference material is at least 10 mg/mL and the labware have room; a failure is the ValueError or KeyError of a reservation or lookup, or the dilution's AssertionError or ZeroDivisionError raised once the vials are reserved |
| `SecHplc.StandardsRunCounters` | helper/SEC_HPLC.py:298-339 | after success the counters stand at the reserved positions |
| `SecHplc.StandardsRunRows` | helper/SEC_HPLC.py:298-339 | a successful run writes the blank, reference and detectability rows at the reserved vials, with the reference diluted to 10 mg/mL in 1000 uL and the detectability standard 10 uL in 990 uL |
| `SecHplc.DestOfInjective` | helper/utils.py:380-416 | different positions of one labware are different destinations |
| `SecHplc.ReservationOrder` | helper/SEC_HPLC.py:305-329 | the blank, the standard and the reference material get three different vials; the first and third get no row; the reference material comes last |
| `SecHplc.RowsFromLists` | helper/SEC_HPLC.py:135-202 | the sample rows built from the `dilution_position_def` lists take sample `j` from position `j + 1` into vial `start + j`, with a buffer row only when dilution is needed |
| `SecHplc.BufferMatchesSamples` | helper/SEC_HPLC.py:135-202 | the buffer rows fill exactly the sample rows' destinations, from the mobile phase |
| `SecHplc.BufferRows` | helper/SEC_HPLC.py:135-202 | the buffer loop writes one row per destination, in order |
| `SecHplc.SecHplcMethod.constructor` | helper/SEC_HPLC.py:25 | zero counters over the current table and CSV number 1 |
| `SecHplc.SecHplcMethod.Reset` | helper/SEC_HPLC.py:369-370 | every counter back to zero and CSV number 1 |
| `SecHplc.SecHplcMethod.StandardsTransfer` | helper/SEC_HPLC.py:298-339 | the result and counters are those of `StandardsRun`; three CSV files (five with a detectability standard) are numbered on success |
| `SecHplc.SecHplcMethod.DrawSampleRows` | helper/SEC_HPLC.py:174-185 | one row per sample from its origin position to its destination with the given volume, each followed by a draw from the origin; stops with the draw's error, and the counters end as `RaisingCounted` says |
| `SecHplc.SecHplcMethod.SampleDilution` | helper/SEC_HPLC.py:135-202 | an unknown destination raises KeyError; otherwise one vial is reserved, then a dilution that cannot be made raises with that vial kept, else the origin counter advances per sample; result and counters match `SampleRun` |
| `SecHplc.PlaceholderSampleRaises` | helper/SEC_HPLC.py:149-154 | with room for the first vial, a 3 mg/mL sample raises AssertionError after that vial is reserved |
| `SecHplc.SecRunFails` | helper/SEC_HPLC.py:361-399 | no run succeeds for a 3 mg/mL sample or a reference material below 10 mg/mL (the default 1 mg/mL included) |
| `SecHplc.SecHplcMethod.Run` | helper/SEC_HPLC.py:361-399 | `sec_HPLC` in full: result and counters match `SecRun`; a rejected concentration, the 3 mg/mL placeholder or a reference material below 10 mg/mL makes it fail; on success it returns the number of CSV files written, 5 or 7 |
| `SecHplcLegacy.IsSampleDilutionNeeded` | SEC_HPLC.py:70-112 | ValueError exactly below 2 and at 4; dilution needed except at 2 and 10; the final concentration is missing exactly in the 3 mg/mL row |
| `SecHplcLegacy.TablesAgree` | SEC_HPLC.py:70-112 | the older and later tables agree for every concentration but 3 and 10; at 10 the older one injects nothing |
| `SecHplcLegacy.SecHplcMethod.constructor` | SEC_HPLC.py:20 | zero counters over the older table |
| `SecHplcLegacy.SecHplcMethod.SetAllParameters` | SEC_HPLC.py:153 | every counter back to zero |
| `SecHplcLegacy.SecHplcMethod.Run` | SEC_HPLC.py:123-141 | counts the samples' positions, then returns the decision, raising after the counting for a rejected concentration |
| `Dls.IsSampleDilutionNeeded` | helper/DLS.py:83-100 | no dilution up to 5 mg/mL; above it the log message reads an attribute the class never sets and raises AttributeError |
| `Dls.DlsWellsCases` | helper/utils.py:472-499 | slots on the 384-well plate give the horizontal triplet, slots off it the returned error object |
| `Dls.FirstSampleTakesBlank` | helper/DLS.py:188-197 | as written, the first sample is pipetted into the blank's three wells |
| `Dls.SlotsDisjoint` | helper/utils.py:492-499 | two of the first 128 horizontal triplet slots never share a well |
| `Dls.IntendedLayoutDisjoint` | helper/DLS.py:186-197 | with the samples after the blank, and up to 126 samples, the SST, the blank and every sample get wells of their own |
| `Dls.AsWrittenCollidesOnlyOnce` | helper/DLS.py:186-197 | as written, every sample but the first has wells of its own, apart from the SST and the blank |
| `Dls.DlsMethod.constructor` | helper/DLS.py:21 | zero counters, CSV number 1, empty layout |
| `Dls.DlsMethod.Reset` | helper/DLS.py:282-283 | every counter back to zero and CSV number 1, the layout kept |
| `Dls.DlsMethod.CalculatePumpLabwarePositions` | helper/DLS.py:168-211 | the layout as written, also kept in `reagents_pos` |
| `Dls.DlsMethod.Run` | helper/DLS.py:274-303 | the reset and the count of the samples' positions, with the first exception; on success `n_steps` is 0 |
| `GeneralDilution.OldTablesServe` | utils.py:10-44 | the older tables name DeepWell as a plate and name the assay buffer |
| `GeneralDilution.UsedBeforeKeys` | GeneralDilution.py:211-251 | the counters before each step keep the set of keys |
| `GeneralDilution.InitialRows` | GeneralDilution.py:195-211 | one initial row per sample |
| `GeneralDilution.InitialRowsFromLists` | GeneralDilution.py:195-211 | rows joining entry `j` of the origin's lists to entry `j` of the DeepWell lists are the initial transfer |
| `GeneralDilution.InitialRowsLeave` | GeneralDilution.py:196-221 | the initial transfer leaves the samples at the DeepWell lists the first step reads |
| `GeneralDilution.StepsDoneNext` | GeneralDilution.py:217-259 | one more step starting where the last ended and filling the next positions extends the steps done |
| `GeneralDilution.AllStepRowsNext` | GeneralDilution.py:228-247 | one more step with a sample and a buffer row per sample at the step's volumes extends the rows |
| `GeneralDilution.ChainNext` | GeneralDilution.py:221 | a step taking its samples from the previous destinations extends the chain |
| `GeneralDilution.AllIntoNext` | GeneralDilution.py:223-226 | a step filling the next positions of its labware extends the placements |
| `GeneralDilution.FollowsNext` | GeneralDilution.py:221 | rows taken from where the previous rows left the samples follow them |
| `GeneralDilution.IntermediateCounters` | GeneralDilution.py:211-251 | before any step but the last only DeepWell positions are consumed: `n` per earlier step and `n` initially |
| `GeneralDilution.IntermediateWells` | GeneralDilution.py:226 | with room, step `i` before the last fills DeepWell wells `used + n(i + 1) + 1` onwards |
| `GeneralDilution.IntermediateCounterValue` | GeneralDilution.py:226 | the DeepWell counter at step `i` is `used + n(i + 1)` while there is room |
| `GeneralDilution.FinalStartsAfterCount` | GeneralDilution.py:224 | the final step of a non-DeepWell destination starts after that destination's counter at the start |
| `GeneralDilution.FinalPositions` | GeneralDilution.py:248-250 | with room, the returned positions are the `n` positions after the destination's counter, and position `j` is where sample `j` ended |
| `GeneralDilution.IntoPositions` | GeneralDilution.py:224-226 | rows filling the positions after a counter sit at the positions the counter then hands out |
| `GeneralDilution.RackOriginNotReused` | GeneralDilution.py:195-250 | with an Eppendorf-like rack as origin and destination and room for both, the final step fills positions none of the samples came from |
| `GeneralDilution.RackIntoApart` | GeneralDilution.py:224 | rows into a rack past its first `n` positions avoid the initial transfer's sources |
| `GeneralDilution.LastStepInto` | GeneralDilution.py:224 | the last step fills the destination after what the earlier steps left |
| `GeneralDilution.InitialSources` | GeneralDilution.py:195 | sample `k` of a rack origin is taken from position `k + 1` |
| `GeneralDilution.RackPositionsApart` | GeneralDilution.py:195-224 | rows into positions past the `n` source positions avoid every source |
| `GeneralDilution.EppendorfIsRack` | utils.py:10-44 | the older Eppendorf is a rack of 48, named by its own key |
| `GeneralDilution.DeepWellOriginCopiedOntoItself` | GeneralDilution.py:284-286 | as written, a DeepWell origin is not counted, so after a reset the initial transfer moves every sample onto its own well |
| `GeneralDilution.VialOriginRefilled` | GeneralDilution.py:284-286 | with a 2R or 8R Vial holder as both origin and destination, as the menus allow, the holder is not counted and the final step puts sample `j` back into the vial it came from |
| `GeneralDilution.DeepWellOriginIntended` | GeneralDilution.py:270-288 | counting the origin itself moves the samples to wells after their own |
| `GeneralDilution.GeneralDilutionMethod.constructor` | GeneralDilution.py:16-41 | zero counters over the older tables and no positions |
| `GeneralDilution.GeneralDilutionMethod.SetAllParameters` | GeneralDilution.py:314 | every counter back to zero |
| `GeneralDilution.GeneralDilutionMethod.InitialTransfer` | GeneralDilution.py:191-215 | the initial rows, the DeepWell lists from the counter, `n` DeepWell positions consumed |
| `GeneralDilution.GeneralDilutionMethod.CopyToWells` | GeneralDilution.py:199-211 | one row per sample at 300 uL, one DeepWell position each |
| `GeneralDilution.StepShape` | GeneralDilution.py:221-251 | the rows of one step pair each sample with its buffer row at the step's volumes, start from the source lists and end at the destination labware's positions after its counter |
| `GeneralDilution.GeneralDilutionMethod.Step` | GeneralDilution.py:221-251 | one step: sample `j` from source entry `j` to destination entry `j` with a buffer row, one position each, the counter recorded on the final step |
| `GeneralDilution.GeneralDilutionMethod.DilutionStepAt` | GeneralDilution.py:217-259 | step `i` extends the steps done and moves the counters on to the next step's |
| `GeneralDilution.GeneralDilutionMethod.SampleDilutions` | GeneralDilution.py:176-269 | the rows and positions of `Outcome`: KeyError when the destination is no key, after the earlier steps consumed their positions |
| `GeneralDilution.GeneralDilutionMethod.Run` | GeneralDilution.py:289-303 | counts the origin as written, runs the dilutions and keeps the returned positions on success |
| `VolumeTransfer.AfterCounted` | VolumeTransfer.py:150-172 | `k` samples of `r` transfers leave the counters of `k * r` calls |
| `VolumeTransfer.PositionsRecorded` | VolumeTransfer.py:171-172 | they record what `k * r` calls in a row record |
| `VolumeTransfer.TransferRowsLength` | VolumeTransfer.py:150-169 | the samples from `i` on give `r` rows each |
| `VolumeTransfer.TransferRowSource` | VolumeTransfer.py:148-169 | row `k` is a transfer of sample `i + k / r`, read from that sample's container, with the given volume |
| `VolumeTransfer.TransferRowsSources` | VolumeTransfer.py:148-169 | every row reads the container of the sample it belongs to |
| `VolumeTransfer.TransferRowsAllSources` | VolumeTransfer.py:148-169 | the same, over all rows |
| `VolumeTransfer.DilutionShift` | helper/utils.py:380-416 | entry `k` of a run of positions from `start` is entry `k - d` of the run from `start + d` |
| `VolumeTransfer.TransferRowDest` | VolumeTransfer.py:151-171 | with room, row `k` goes to entry `k` of the run after the destination's counter |
| `VolumeTransfer.TransferRowsDest` | VolumeTransfer.py:151-171 | every row goes to its entry of that one run |
| `VolumeTransfer.TransferredRows` | VolumeTransfer.py:135-187 | `sample_dilutions` gives `n * r` rows, sample by sample, records the counter after each call and leaves the counters of `n * r` calls; KeyError when the destination is no key |
| `VolumeTransfer.TransferredPositions` | VolumeTransfer.py:151-172 | with room, the returned positions are the run after the counter, and row `k` went to the position returned with it |
| `VolumeTransfer.DeepWellSampleOntoItself` | VolumeTransfer.py:194-196 | as written, DeepWell samples are not counted, so the first transfer of the first sample goes back into its own well 1 |
| `VolumeTransfer.VialSampleOntoItself` | VolumeTransfer.py:194-196 | the same for the 2R and 8R Vial origins the menu offers: from a vial holder into the same holder, the first transfer goes from vial 1 back into vial 1 |
| `VolumeTransfer.PlateFirstRowOntoItself` | VolumeTransfer.py:148-151 | from a plate into itself with the counter at 0, the first row stays in well 1 |
| `VolumeTransfer.DeepWellSamplesIntended` | VolumeTransfer.py:188-198 | counting the origin itself sends every transfer to a well after the samples' own |
| `VolumeTransfer.PlateSamplesApart` | VolumeTransfer.py:148-171 | from a plate into itself past the samples, rows read wells 1..n and write only later wells |
| `VolumeTransfer.ProgressDone` | VolumeTransfer.py:150-172 | once every sample is done, rows, positions and counters are those of the whole run |
| `VolumeTransfer.VolumeTransferMethod.constructor` | VolumeTransfer.py:19 | zero counters over the older tables, no positions |
| `VolumeTransfer.VolumeTransferMethod.SetAllParameters` | VolumeTransfer.py:226 | every counter back to zero |
| `VolumeTransfer.VolumeTransferMethod.SampleTransfers` | VolumeTransfer.py:151-172 | one sample's `r` rows into the run after the counter, each followed by a call and the record of the counter |
| `VolumeTransfer.VolumeTransferMethod.SampleStep` | VolumeTransfer.py:150-172 | sample `i`'s transfers extend the progress of the samples before it |
| `VolumeTransfer.VolumeTransferMethod.SampleDilutions` | VolumeTransfer.py:135-187 | the result is `Transferred` and the counters those of `n * r` calls |
| `VolumeTransfer.VolumeTransferMethod.Run` | VolumeTransfer.py:199-215 | counts the origin as written, runs the transfers, and keeps the returned positions on success |
| `A280.SampleDilutionWith` | A280.py:72-127 | a dilution keeps the set of counters |
| `A280.OldTablesServe` | utils.py:10-56 | the older tables serve the protocol: named plates, a 48-tube Eppendorf rack, no "VOLUME TOO BIG" labware, no container or cuvette rack among the plates |
| `A280.OldNamesServe` | utils.py:10-41 | the older names know the Eppendorf rack of 48 and no "VOLUME TOO BIG" |
| `A280.OldPlatesServe` | utils.py:44 | the older plates are named, and the racks, cuvettes and containers are no plates |
| `A280.DilutionOutcome` | A280.py:89-116 | a dilution fails only when the buffer labware is full; otherwise one sample and one buffer row per sample, the Eppendorf counter advancing per sample, nothing else changing |
| `A280.DilutionRow` | A280.py:92-114 | sample row `j` and buffer row `j` fill the `j`-th tube after the counter, with 125 uL of sample from container `j + 1` and 375 uL of buffer |
| `A280.DilutedRow` | A280.py:92-114 | the same for the rows once the buffer is placed |
| `A280.DilutionDest` | A280.py:93 | sample row `j` goes into the `j`-th tube after the counter |
| `A280.DilutionShape` | A280.py:92-116 | a successful dilution pairs the origin run with the Eppendorf run |
| `A280.DilutionTubesDistinct` | A280.py:93-103 | no two samples share a tube |
| `A280.BestContainerNamed` | utils.py:556-600 | `find_best_container` names a container of the volume table or "VOLUME TOO BIG" |
| `A280.BufferRequestTooBig` | A280.py:85-89 | from one sample on the total in uL fits no container |
| `A280.BufferInEppendorf` | A280.py:85-89 | up to three samples the total in mL fits an Eppendorf tube best |
| `A280.BufferNotCounted` | A280.py:89 | as written, the buffer's position is asked for the uL total: the reply is -1, no counter moves, and the buffer row reads position -1 |
| `A280.BufferIntended` | A280.py:88 | counting the buffer's own labware puts the buffer of up to three samples in the next tube and the samples after it |
| `A280.EppendorfBufferApart` | A280.py:88-93 | a buffer on the Eppendorf rack takes the next tube and the samples the tubes after it |
| `A280.EppendorfBufferPlace` | A280.py:88-93 | the samples' tubes follow the buffer's |
| `A280.EppendorfBufferTube` | A280.py:88-93 | no sample shares the buffer's tube |
| `A280.TransferRow` | A280.py:134-160 | transfer row `j` goes from entry `j` of its source run into cuvette `j + 1`, 100 uL |
| `A280.TransferReadsDilutions` | A280.py:134-136 | with room, a diluted run's transfer reads exactly the tubes the dilution filled, in order |
| `A280.TransferReadsTube` | A280.py:134-136 | transfer row `j` reads dilution tube `j` |
| `A280.TransferReadsDilutionsAsWritten` | A280.py:134-136 | the code as written also reads the tubes its dilution filled |
| `A280.DilutionFromStep` | A280.py:89-116 | the dilution once the buffer call has replied |
| `A280.A280Method.constructor` | A280.py:16-31 | zero counters, no samples, concentration and limit 100, no buffer place |
| `A280.A280Method.SetAllParameters` | A280.py:192-208 | counters back to zero and the run's parameters read |
| `A280.A280Method.CountStartingLwPos` | A280.py:60-71 | one count per sample for the origin's display name |
| `A280.A280Method.DiluteEach` | A280.py:95-116 | the loop pairs the sources with the tubes and the buffer with each tube, one Eppendorf call per sample |
| `A280.A280Method.MoveEach` | A280.py:149-160 | the loop pairs sources with cuvettes, one call per sample |
| `A280.A280Method.SampleDilution` | A280.py:72-127 | the result and counters of `sample_dilution` as written; the buffer's place kept on success |
| `A280.A280Method.PlaceDilutions` | A280.py:92-124 | the rows once the buffer is placed, one tube per sample |
| `A280.A280Method.SampleTransfer` | A280.py:128-169 | the transfer: a diluted run reads the last tubes and sets the origin to "Eppendorf" |
| `A280.A280Method.A280` | A280.py:170-191 | count, dilute when the concentration reaches the limit and keep the positions, then transfer |
| `ColorProject.RoundHalf` | helper/ColorProjectDilutions.py:112 | Python's `round` of a half: within one half of `a / 2`, and an exact half goes to the even neighbour |
| `ColorProject.SampleVolumes` | helper/ColorProjectDilutions.py:109-116 | one sample volume per sample |
| `ColorProject.DiluentVolumes` | helper/ColorProjectDilutions.py:109-116 | one diluent volume per sample |
| `ColorProject.VolumeSequencesOk` | helper/ColorProjectDilutions.py:109-123 | with a non-negative step the assertions pass exactly when the last sample volume and the first diluent volume are non-negative |
| `ColorProject.SampleVolumesFloor` | helper/ColorProjectDilutions.py:110-120 | the sample volumes are all non-negative exactly when the last one is |
| `ColorProject.DiluentVolumesFloor` | helper/ColorProjectDilutions.py:111-121 | the diluent volumes are all non-negative exactly when the first one is |
| `ColorProject.VolumesKeepTotal` | helper/ColorProjectDilutions.py:109-116 | every cuvette receives the same total of sample and diluent, the halved diluent counted twice when the start and step above 1000 uL are even |
| `ColorProject.DefaultVolumesAllowSamples` | helper/ColorProjectDilutions.py:82-123 | from 50 uL of sample and 1950 uL of diluent by 2 uL, at most 26 samples pass |
| `ColorProject.TinySumPositive` | helper/ColorProjectDilutions.py:142-144 | the pre-transfer happens exactly when some sample volume lies in 1..9 uL |
| `ColorProject.Begin` | helper/ColorProjectDilutions.py:137-150 | both holders keep a counter |
| `ColorProject.RaisingCountedKeys` | helper/ColorProjectDilutions.py:178-179 | the replicate calls keep the set of counters |
| `ColorProject.Account` | helper/ColorProjectDilutions.py:178-187 | the bookkeeping writes no line and keeps both holders' counters |
| `ColorProject.Step` | helper/ColorProjectDilutions.py:154-187 | a sample keeps both holders' counters |
| `ColorProject.Run` | helper/ColorProjectDilutions.py:126-189 | the run keeps both holders' counters |
| `ColorProject.Next` | helper/ColorProjectDilutions.py:154-187 | each sample after the ones before it keeps both holders' counters |
| `ColorProject.RunStopsAtBegin` | helper/ColorProjectDilutions.py:137 | a failed first call ends the run |
| `ColorProject.RunStops` | helper/ColorProjectDilutions.py:154-187 | once a sample raises, later samples change nothing |
| `ColorProject.StepLines` | helper/ColorProjectDilutions.py:159-175 | a sample writes its solution and diluent lines to the block starting at the destination's counter, from the DeepWell exactly under 10 uL |
| `ColorProject.AccountAdvances` | helper/ColorProjectDilutions.py:178-182 | while the next block fits, the destination's counter moves on by `n_replicates` |
| `ColorProject.IntendedAccountKeepsRoom` | helper/ColorProjectDilutions.py:181-187 | testing before counting keeps every block within places 1..40 of its holder |
| `ColorProject.FullHolderRaises` | helper/ColorProjectDilutions.py:178-187 | as written, a block ending on place 40 of the first holder raises ValueError; the corrected order moves to the second holder |
| `ColorProject.OneReplicateRun` | helper/ColorProjectDilutions.py:137-187 | `k` samples of one replicate from fresh counters leave the first holder at `k + 1` |
| `ColorProject.FortiethCuvetteRaises` | helper/ColorProjectDilutions.py:178-187 | forty single samples raise ValueError as written, and finish on the second holder in the corrected order |
| `ColorProject.DefaultDilutionsVolumeLimit` | helper/ColorProjectDilutions.py:211-235 | with the defaults the whole run fails the volume assertion exactly beyond 26 samples |
| `ColorProject.RunRaisesNoAssertion` | helper/ColorProjectDilutions.py:126-189 | the GWL generation raises only the counters' errors |
| `ColorProject.AccountRaisesNoAssertion` | helper/ColorProjectDilutions.py:178-187 | the bookkeeping raises only the counters' errors |
| `ColorProject.CountedRaisesNoAssertion` | helper/ColorProjectDilutions.py:41-70 | the raising counter fails only with KeyError or ValueError |
| `ColorProject.ColorProjectDilutionsMethod.constructor` | helper/ColorProjectDilutions.py:17-33 | zero counters, one sample of 50 uL with 1950 uL of diluent, one replicate, the first holder |
| `ColorProject.ColorProjectDilutionsMethod.SetAllParameters` | helper/ColorProjectDilutions.py:240-262 | counters back to zero, numbers from the form, the holder left where it was |
| `ColorProject.ColorProjectDilutionsMethod.GenerateVolumeSequences` | helper/ColorProjectDilutions.py:82-123 | the loop's lists, or the AssertionError |
| `ColorProject.ColorProjectDilutionsMethod.CountBlock` | helper/ColorProjectDilutions.py:178-179 | `n_replicates` raising calls for the destination holder |
| `ColorProject.ColorProjectDilutionsMethod.AccountBlock` | helper/ColorProjectDilutions.py:178-187 | the bookkeeping after a sample, as written |
| `ColorProject.ColorProjectDilutionsMethod.DispenseSample` | helper/ColorProjectDilutions.py:154-187 | one pass of the sample loop, as written |
| `ColorProject.ColorProjectDilutionsMethod.DispenseNext` | helper/ColorProjectDilutions.py:154-187 | the state after sample `i` is the specification's run up to `i` |
| `ColorProject.ColorProjectDilutionsMethod.DispenseSamples` | helper/ColorProjectDilutions.py:154-189 | the loop ends in the specification's whole run |
| `ColorProject.ColorProjectDilutionsMethod.GenerateGwlFiles` | helper/ColorProjectDilutions.py:126-189 | the lines, counters, holder and exception of `generate_GWL_files` |
| `ColorProject.ColorProjectDilutionsMethod.CountStartingLwPos` | helper/ColorProjectDilutions.py:71-81 | `n_samples` raising calls for a known origin's display name, none otherwise |
| `ColorProject.ColorProjectDilutionsMethod.ColorProjectDilutions` | helper/ColorProjectDilutions.py:211-239 | the whole run's lines, or the exception that ends it |
| `App.ValidateInput` | app.py:648-660 | an accepted text is empty or all digits |
| `App.NumeralAccepted` | app.py:648-660 | a count's numeral is accepted exactly within the bounds |
| `App.NegativeRefused` | app.py:648-660 | a signed negative number is always refused |
| `App.DefaultExamples` | app.py:648-660 | with bounds 1 and 1000: empty, "1", "1000" and "007" pass; "0", "1001", "-5" and "1.5" do not |
| `App.LabelText` | app.py:602-636 | the custom message when given, else the code's text, else KeyError |
| `App.ColorOf` | app.py:602-636 | no colour exactly for a type other than warning, error and info |
| `App.Without` | app.py:637-647 | exactly the labels whose code differs, unchanged |
| `App.RemoveUndoesAdd` | app.py:602-647 | removing a code undoes adding a fresh label with it |
| `App.WithoutCommutes` | app.py:637-647 | removal is idempotent and order-independent |
| `App.WarningFrame.constructor` | app.py:103 | no labels |
| `App.WarningFrame.AddLabel` | app.py:602-636 | KeyError and no change for an unknown code without a message; otherwise one fresh label with its text, colour, code and timer |
| `App.WarningFrame.RemoveLabel` | app.py:637-647 | the labels become those without the code |
| `DrugProduct.Outcome` | helper/DrugProductPreparation.py:168 | the call fails exactly when a step raised |
| `DrugProduct.Climb` | helper/DrugProductPreparation.py:149-151 | `n` consecutive positions from `start` |
| `DrugProduct.RunStops` | helper/DrugProductPreparation.py:118-159 | once a step raised, later steps change nothing |
| `DrugProduct.CountFromZero` | helper/DrugProductPreparation.py:180-182 | whatever the counters held, the reset and the count leave zero everywhere but the origin's display name, at `n` |
| `DrugProduct.IntermediateRun` | helper/DrugProductPreparation.py:118-153 | while DeepWell has room, each step before the last consumes `n` wells and asks for the wells after the previous step's |
| `DrugProduct.AfterInitialTransfer` | helper/DrugProductPreparation.py:96-116 | a non-zero initial volume moves the DeepWell counter up by `n`, a zero volume leaves it |
| `DrugProduct.FinalStepFills` | helper/DrugProductPreparation.py:124-153 | the final step raises the destination's counter by `n` and records the new positions |
| `DrugProduct.RunWithRoom` | helper/DrugProductPreparation.py:118-159 | with room on both plates the steps succeed and the last fills the destination |
| `DrugProduct.DilutionsWithRoom` | helper/DrugProductPreparation.py:76-168 | with room everywhere the intended dilutions succeed, DeepWell giving `n` wells to the transfer and to each intermediate step, the destination `n` to the last, no other counter moving |
| `DrugProduct.DilutionsRecordDestination` | helper/DrugProductPreparation.py:124-168 | the returned positions are the `n` destination positions after its counter, and the transfer's wells are the first placement asked for |
| `DrugProduct.RunKeepsPlacements` | helper/DrugProductPreparation.py:96-127 | the initial transfer's placement stays first |
| `DrugProduct.NoInitialTransferDilutesInPlace` | helper/DrugProductPreparation.py:96-127 | with a zero initial volume the first step asks for the very DeepWell wells it takes its samples from |
| `DrugProduct.UnknownDestination` | helper/DrugProductPreparation.py:125 | a destination with no counter raises KeyError at the final step, after the DeepWell wells are given |
| `DrugProduct.DrugProductPreparationMethod.constructor` | helper/DrugProductPreparation.py:16-34 | zero counters, one sample, no origin and no recorded positions |
| `DrugProduct.DrugProductPreparationMethod.SetAllParameters` | helper/DrugProductPreparation.py:189-213 | counters back to zero, the origin, count, destination and number of steps from the window |
| `DrugProduct.DrugProductPreparationMethod.SampleDilutions` | helper/DrugProductPreparation.py:95 | as written, AttributeError |
| `DrugProduct.DrugProductPreparationMethod.GeneralDilution` | helper/DrugProductPreparation.py:171-186 | as written: reset, count the origin, then AttributeError, the positions left unset |
| `DrugProduct.DrugProductPreparationMethod.Advance` | helper/DrugProductPreparation.py:129-153 | one raising call per sample, the new values recorded on the final step |
| `DrugProduct.DrugProductPreparationMethod.InitialTransfer` | helper/DrugProductPreparation.py:96-116 | the DeepWell wells after the counter, consumed only for a non-zero volume |
| `DrugProduct.DrugProductPreparationMethod.DilutionStep` | helper/DrugProductPreparation.py:118-159 | step `i` moves the state on to the specification's run up to `i + 1` |
| `DrugProduct.DrugProductPreparationMethod.SampleDilutionsIntended` | helper/DrugProductPreparation.py:76-168 | the result, counters and placements of the intended dilutions |
| `DrugProduct.DrugProductPreparationMethod.GeneralDilutionIntended` | helper/DrugProductPreparation.py:171-186 | reset, count, dilute, and keep the positions on success |

The counters of helper/Color_Project_dilutions.py (`next_labware_pos` at helper/Color_Project_dilutions.py:38-63, `count_starting_lw_pos` at :64-75, the reset at :107) are the same code as GeneralDilution.py:43-68 and :270-288 over the newer tables, so `Allocation.SentinelCounters` built on `Catalog.NewTables` models them; the counters of helper/DrugProductPreparation.py are likewise `Allocation.RaisingCounters`.

## Left out

- PyStrings.IsSpace: ASCII whitespace only; Python's `split()` and `strip()` also split on Unicode spaces, which the spreadsheet texts do not carry.
- PyStrings.Strip: ASCII whitespace only, for the same reason.
- PyStrings.Words: ASCII whitespace only, for the same reason; where words begin and end is stated by `PyStrings.WordsOfRun` and `PyStrings.WordsSplitAtSpace`.
- TextTools.Lower: ASCII letters only; Python's `lower()` also folds other scripts.
- App.ValidateInput: ASCII digits only; Python's `isdigit()` also accepts other Unicode digits, whose value `int()` would then read.
- TextTools.FindBestContainer: volumes are `real`, since the code only compares and divides them; floating-point rounding is not modelled.
- Addressing.Pos2Str: takes an integer position; numpy scalars and arrays passed as positions are not modelled.
- DrugProduct.DrugProductPreparationMethod.SampleDilutionsIntended: models the positions and counters only; the CSV rows, the volumes of the dilution table and the undefined `utils.LabwareNames` at helper/DrugProductPreparation.py:142 are not modelled.
- App.WarningFrame.AddLabel: the eight-second timer that destroys a label is recorded as a flag only; the destroyed widget stays in the dictionary in the source too, and the widget itself is not modelled.
- Every `to_csv` write, the blank CSV padding loops, the `open`/`writelines` of the GWL functions, `generate_config_file`, `convert_all_csv_files_in_directory`, `new_log_file`, logging and print: file and console I/O; the model keeps the row lists and lines in memory.
- The window's widgets, tab and slider callbacks, `messagebox`, `calculate_volume_text` and the packaging script: GUI code; the values the protocols read from the window become method parameters.
- The Excel and JSON imports (`import_excel_dotblot`, `import_excel_dotblot_2_coating`, `import_excel_general_dilution`, the `json.load` of `generate_methods_and_products`): reads through pandas and the file system; their results become parameters.
- `calculate_dilution_parameter` outside SEC-HPLC, its branch with the total volume unknown, `calculate_total_volumes` of helper/Dotblot.py and the timer scaling: floating-point arithmetic; the volumes they produce are parameters of the model. SEC-HPLC's own calls are modelled over exact reals by `SecHplc.DilutionParameter`, so floating-point rounding is not.
- The calls of `generate_reagent_distribution_gwl` at helper/Dotblot.py:602, :630, :655, :709, :809 and :812 and at helper/nanoDSF.py:177: they leave out `open_mode` and so pass ten positional arguments to a signature with eleven (helper/utils.py:661), and Python raises TypeError for the missing `n_multi_dispenses` before the function body runs. At helper/nanoDSF.py:177 a run without BSA wells raises ValueError from `min()` even earlier. `Gwl` models the function itself; these calls are not modelled.
- `next_eppendorf_pos`/`next_deep_well_pos` of GeneralDilution.py:69-96: marked deprecated and never called in that file; their bodies read `AvailableLabware`, a dict, as an object (`utils.AvailableLabware.Eppendorf`, `self.utils`) and would raise AttributeError. They are not modelled; the class's own counters are `Allocation.SentinelCounters`.
- NanoDSFLegacy.SampleDilutions: models the run as intended, with `sample_dilutions_csv_name` set. As written, the class never sets that attribute, and the call raises AttributeError at nanoDSF.py:113 after the initial loop; `NanoDSFLegacy.SampleDilutionsAsWritten` models that outcome (see Findings).
- The row of Dotblot.py:577 that reads `LabwareNames["PosControl"]`: that key is commented out at helper/utils.py:74, so the lookup raises KeyError; the row is not modelled.
- NanoDSFLegacy.CalculatePumpLabwarePositions: models the mapping loop of nanoDSF.py:200-201 only; the dictionary built after it at nanoDSF.py:203-205 names the undefined `pos_ctr_pos` and `neg_ctr_pos`, so the call raises NameError and `pump_lw_well_pos` is never set.
- `standards_transfer` of helper/DLS.py:212-252: `DLS()` never calls it, and it reads `has_detectability_standard`, which the class never sets, and calls `pos_ctr_dilution`, which the class does not define (helper/DLS.py:239-246).
- The key "UV cuvette holder" of the constructor at helper/Color_Project_dilutions.py:31 names no labware; that file's run itself is not modelled, only its counters.
- A280.A280Method.A280: the concentration is a `real`. In the source it is the text of a `StringVar` (app.py:180, read at A280.py:207), and comparing that string with the integer limit at A280.py:180 raises TypeError in Python 3; the model compares the number the text stands for.
- The code after `return` at helper/nanoDSF.py:181: unreachable.

## Findings

| source | as written | input that shows it | evidently intended | confidence | as-written member | corrected member |
|---|---|---|---|---|---|---|
| helper/utils.py:501-512 | the horizontal single branch computes the row by dividing by 24 and folds well 385 back onto 384 | sample 360 and sample 384 of a 384-well plate both go to well 384; sample 12 of a 96-well plate goes to well 186 | a one-to-one row-major mapping of positions onto wells | not executed | `WellGeometry.HorizontalSingleAsWrittenCollides` | `WellGeometry.HorizontalSingleBijective` |
| helper/nanoDSF.py:123-128 | the destinations are `set(sample_wells)` of the as-written mapping, so two samples can share a well | with BSA and 368 samples, slots 360 and 384 merge into well 384; with BSA and 23 samples, sample 23 lands in well 370 instead of 369 | one well per sample | not executed | `NanoDSF.LastSlotsMerge` | `NanoDSF.FreshDestIsSamples` |
| helper/nanoDSF.py:33-128 | `BSA_wells` is set in the constructor and never cleared, and its wells are subtracted from every later run's destinations | a BSA run of 24 samples, then a run of 25 samples without BSA: wells 1 and 2, the wells of samples 1 and 25, are dropped | each run subtracts only its own BSA wells | not executed | `NanoDSF.StaleBsaWellsDropSamples` | `NanoDSF.FreshDestIsSamples` |
| A280.py:89 | the buffer's labware is chosen for the total in mL, but its position is asked for the total in uL, which fits no container | one sample: the position request names "VOLUME TOO BIG", replies -1 and counts nothing | count a position of the buffer's own labware | not executed | `A280.BufferNotCounted` | `A280.BufferIntended` |
| helper/ColorProjectDilutions.py:178-187 | the replicate block is counted before the switch test, so a block ending on place 40 pushes the first holder to 41 | forty samples of one replicate: ValueError on the fortieth | test for room first and switch to the second holder | not executed | `ColorProject.FortiethCuvetteRaises` | `ColorProject.IntendedAccountKeepsRoom` |
| helper/DLS.py:188-197 | the sample loop starts at slot `2 + sample`, and `sample_pos` starts with an empty group | the first sample gets slot 2, the blank's three wells | samples from slot 3, after the SST and the blank | not executed | `Dls.FirstSampleTakesBlank` | `Dls.IntendedLayoutDisjoint` |
| GeneralDilution.py:284-286 | the origin is counted under its display name, which is no counter key for the DeepWell plate or the 2R and 8R vial holders | 2R Vial as origin and destination (both offered by the menus at app.py:235 and :250): the final step fills vials 1..n, the samples' own; DeepWell origin, one sample: the initial transfer copies DeepWell well 1 onto itself | count the origin's own counter | not executed | `GeneralDilution.VialOriginRefilled` | `GeneralDilution.DeepWellOriginIntended` |
| VolumeTransfer.py:194-196 | the same display-name count | 2R Vial as origin and destination (offered at app.py:265 and :283), one sample: the first transfer goes from vial 1 back into vial 1; likewise from DeepWell to DeepWell | count the origin's own counter | not executed | `VolumeTransfer.VialSampleOntoItself` | `VolumeTransfer.DeepWellSamplesIntended` |
| helper/DrugProductPreparation.py:95 | `sample_dilutions` calls `self.dilution_position_def`, which the class does not define | any run: AttributeError after the origin is counted | the helper of helper/utils.py | not executed | `DrugProduct.DrugProductPreparationMethod.SampleDilutions` | `DrugProduct.DrugProductPreparationMethod.SampleDilutionsIntended` |
| nanoDSF.py:113 | `sample_dilutions` builds its CSV path from `self.sample_dilutions_csv_name`, which neither `__init__` (nanoDSF.py:15-43) nor `set_all_parameters` sets | any call, e.g. one sample from an Eppendorf origin: AttributeError after the origin tube and one DeepWell well are drawn, before any dilution step | a CSV name set in the constructor, as Dotblot.py:25 and VolumeTransfer.py:22 do | not executed | `NanoDSFLegacy.SampleDilutionsAsWritten` | `NanoDSFLegacy.SampleDilutions` |
