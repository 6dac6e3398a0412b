# HackRF live spectrum viewer — data path model

A Dafny model of the data path of the HackRF live spectrum viewer (`main.py`).
The viewer receives a stream of ASCII sweep lines, each of the form
`f0,f1,start_hz,f3,bin_width_hz,f5,db_0,db_1,...`, over a TCP connection. It maps
every power sample onto a fixed array of 1000 bins that covers 1 GHz to 6 GHz.
A plot timer keeps an optional per-bin running maximum ("max hold") and marks
the peak of the live spectrum and of the max-hold curve.

The model has five parts:

- `demux.dfy` (`Demux`): the residual buffer. It models Python's `split` on a
  separator, its inverse `Join`, and `Feed`, one chunk of the receive loop.
  Feed returns the complete lines and the new residual. Lemmas prove that no
  byte is lost, added or reordered. They also prove that this cut into lines
  is the only one possible.
- `records.dfy` (`Records`): one line to one sweep record. This covers
  decoding, the `#` comment test, `strip`, the comma split, the seven-field
  minimum and the all-or-nothing conversion of fields 2, 4 and 6.. to numbers.
- `binning.dfy` (`Binning`): the frequency of sample `i`, the window and
  bin-index filters, the samples collected from a chunk in order, and their
  writes into the bins (last write wins).
- `maxhold.dfy` (`MaxHold`): the max-hold bins (unset, or the highest power
  seen), one tick of `np.maximum`, a run of ticks, and `np.argmax`.
- `viewer.dfy` (`Viewer`): the module-level state of the program as the class
  `SpectrumViewer`. Its fields are the residual `buffer`, the `powers` array,
  the `hold` array and the `active` flag. Its methods are the receive-loop body
  (`Receive`), the max-hold button (`ToggleMaxHold`) and the plot tick
  (`UpdatePlot`). Each method is proved against the functions above.

Model choices:

- Frequencies and powers are `real`.
- `int(...)` is truncation toward zero (`Trunc`). On the kept path its argument
  is never negative, so truncation there is the same as floor.
- `bytes.decode()` and `float()` are library internals. Every operation that
  needs them takes them as function parameters returning `Option` (`Decoder`,
  `NumberParser`).
- `str.strip()` is modelled exactly, using the set of characters for which
  Python's `str.isspace()` holds.
- The `-inf` sentinel of the max-hold array is the constructor `Unset` of
  `Hold`.
- Each received chunk is an argument of `Receive`, and an empty chunk is the
  end of the stream.
- The timer tick is a call of `UpdatePlot`.

A line split across chunks is completed by the chunk that brings its newline
(main.py:130-132): the chunks `a,b,c\nd,` and then `e\n` give `a,b,c` from the
first chunk and `d,e` from the second (`Demux.SplitAcrossChunks`).

## Model

| member | source | states |
|---|---|---|
| `Demux.Split` | main.py:131 | `split` on a separator gives at least one piece, no piece holds the separator, and there is one piece more than there are separators |
| `Demux.JoinSplit` | main.py:130-132 | joining the pieces of a split with the separator gives back the input: splitting loses, adds and reorders nothing |
| `Demux.SplitJoin` | main.py:131-132 | the inverse direction: pieces without separators are recovered exactly by splitting their join |
| `Demux.JoinIsTerminatedPlusLast` | main.py:131-132 | a join equals every piece but the last followed by the separator, then the last piece unterminated |
| `Demux.Feed` | main.py:130-132 | after a chunk, the old residual followed by the chunk equals the emitted lines, each followed by `\n`, then the new residual; neither a line nor the new residual holds `\n` |
| `Demux.FeedUnique` | main.py:130-132 | any decomposition of residual plus chunk into newline-free terminated lines and a newline-free tail is the one `Feed` produces |
| `Demux.SplitAcrossChunks` | main.py:130-132 | the chunks `a,b,c\nd,` then `e\n` give the line `a,b,c` with residual `d,`, then the line `d,e` with an empty residual |
| `Records.TrimStart` | main.py:147 | the leading-whitespace part of `strip`: a suffix not starting with whitespace, where everything removed is whitespace |
| `Records.TrimEnd` | main.py:147 | the trailing-whitespace part of `strip`: a prefix not ending with whitespace, where everything removed is whitespace |
| `Records.ParseAll` | main.py:152 | `list(map(float, fields))` succeeds exactly when every field converts; it then holds one number per field, in order |
| `Records.ParseLine` | main.py:143-152 | an accepted line decoded, is not a comment, and has exactly six fields more than it has powers |
| `Records.SkippedExactly` | main.py:142-152 | a line gives no record if and only if it fails to decode, its unstripped text starts with `#`, its stripped text has fewer than 7 comma-separated fields, or field 2, field 4 or one of fields 6.. is not a number |
| `Records.BlankSkipped` | main.py:147-149 | an empty or all-whitespace line has exactly one field and gives no record |
| `Records.AcceptedRecord` | main.py:150-152 | an accepted record has field 2 as its start frequency, field 4 as its bin width, and fields 6.. as its powers, in order |
| `Binning.Trunc` | main.py:159 | Python `int()`: the result is within one of its argument, toward zero |
| `Binning.BinInterval` | main.py:159 | for a frequency at or above 1 GHz, bin `b` holds exactly `[start + b*5 MHz, start + (b+1)*5 MHz)` |
| `Binning.KeptExactly` | main.py:158-160 | a sample is kept if and only if `start_freq <= f < end_freq`; a sample at exactly `end_freq` passes the window test, maps to index N and is dropped |
| `Binning.SweepSamples` | main.py:155-162 | the samples collected from a record are no more than its powers, and every one of them passes both filters |
| `Binning.SweepSamplesPrefix` | main.py:155-162 | collecting further samples only extends what was collected before |
| `Binning.KeptSampleCollected` | main.py:155-162 | every kept sample `i` is collected with frequency `start + i*width` and its own power, after every kept sample before it |
| `Binning.CollectedSampleOrigin` | main.py:155-162 | every collected sample is some kept sample `i` with its frequency and power, at the position that counts the kept samples before `i` |
| `Binning.Collected` | main.py:141-166 | every sample collected from a chunk's lines passes both filters |
| `Binning.CollectedAppend` | main.py:141-166 | lines contribute independently: collecting from two runs of lines gives each run's samples, one after the other |
| `Binning.SkippedLineIgnored` | main.py:142-166 | a skipped line contributes no samples, and the lines after it are still collected as if it were absent |
| `Binning.LastWriteWins` | main.py:169-173 | after the writes, a bin no sample maps to keeps its value, and a bin that samples map to holds the power of the last one |
| `MaxHold.Raise` | main.py:93 | one bin of `np.maximum`: the result is set, at least the new power and the old value, and equal to one of them |
| `MaxHold.PeakAt` | main.py:91-93 | the peak of a bin over a run of spectra is at least every value shown and equal to one of them |
| `MaxHold.SeedIsFirstTick` | main.py:65-66 | seeding unset bins from the live spectrum equals one max-hold tick from unset bins |
| `MaxHold.RunningMax` | main.py:59-70 | starting from unset bins (as after disabling), each bin after a run of ticks holds the largest power it showed in that run, with no memory of earlier values |
| `MaxHold.HoldNeverDecreases` | main.py:91-93 | over ticks, hold values never decrease, and each ends up at least every power its bin showed |
| `MaxHold.ArgMax` | main.py:82-84 | `np.argmax`: a valid index whose element is at least every element and greater than every element before it |
| `Viewer.AppendSweep` | main.py:155-162 | the loop over one record's powers appends exactly the record's collected samples, in order |
| `Viewer.CollectSamples` | main.py:138-166 | the loop over a chunk's lines yields exactly the samples collected from them, in line order then sample order |
| `Viewer.SpectrumViewer.constructor` | main.py:34-38 | start-up state: empty residual, 1000 zero bins, every max-hold bin unset, max hold off |
| `Viewer.SpectrumViewer.Receive` | main.py:126-173 | an empty chunk ends reception and changes neither the bins nor the residual; otherwise the old residual plus the chunk is cut, without loss, into newline-free lines and a newline-free residual, and the bins become the old bins with the collected samples written in order; max-hold state is untouched |
| `Viewer.SpectrumViewer.WriteSamples` | main.py:169-173 | the write loop leaves the bins equal to the old bins with every sample written in order |
| `Viewer.SpectrumViewer.ToggleMaxHold` | main.py:55-70 | afterwards the flag equals the request; disabling unsets every bin; enabling seeds the bins from the live spectrum when all are unset and keeps them otherwise; hold bins are all set while on and all unset while off |
| `Viewer.SpectrumViewer.UpdatePlot` | main.py:76-102 | the live marker is the first bin of greatest power; while on, every hold bin is raised by the live spectrum and the hold marker is the first greatest hold bin; while off, the hold bins are untouched and there is no hold marker |

## Left out

- The Qt application, widgets, the button text, the curves, the text markers and their formatting (main.py:11-49, 62-63, 68-69, 79, 87-88, 94, 101-102). These are display only. The markers, including the max-hold argmax of main.py:97-99, are returned as a bin index and a power.
- The frequency axis `np.linspace(start_freq, end_freq, 1000)` (main.py:36), and so the marker frequencies read from it (main.py:83, 98). The markers carry the bin index instead.
- Socket set-up, `recv`, the `KeyboardInterrupt` handler and the closing of the connection (main.py:109-114, 127, 179-184). These are network I/O. A chunk is an argument of `Receive`, and its `more` result is the loop's exit test.
- The `QTimer` and `app.processEvents()` (main.py:116-119, 175). These are event-loop scheduling. A tick is an explicit call of `UpdatePlot`.
- The debug `print` calls (main.py:112, 135, 144, 165, 177).
- IEEE floating point. The model has no `inf` or `nan` sample values, which Python's `float()` accepts, and no rounding in `i * bin_width` or in the bin-index division. The guard `0 <= index < N` exists against rounding. Without rounding, it only drops a sample exactly at `end_freq`.
- The guard `len(powers) > 0` (main.py:78). It always holds, because the array has 1000 bins.
- UTF-8 decoding and the text-to-number conversion. They are the `Decoder` and `NumberParser` parameters.
- Infinite powers in max hold. The invariant that every hold bin is set while max hold is on relies on powers being real numbers. In Python, a power of `-inf` would seed a bin with the sentinel value itself.
