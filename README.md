# Morse (CW) decoders and trainer of the QCX mini interface

The repository drives a QRP transceiver and decodes the Morse code (CW) it
hears. This project models the decoding core of that repository: seven Python
decoders built on one shared design.

Each decoder cuts the audio into chunks and measures the tone in each chunk.
All but FftMp3 find the strongest of 36 Goertzel test frequencies (400 to
1100 Hz in 20 Hz steps); FftMp3 takes the FFT peak near its target frequency.
The decoder compares the tone with a moving mean of the noise estimate and so
decides whether the key is down. All but FftMp3 time the run that ended at
every key change; FftMp3 times tones only, at each key-up. A release adds a
dot or a dash to the pending symbol, judged against the median or mean of the
recent durations. Enough silence flushes the symbol through the Morse dict,
and a longer silence writes a word space.

- **GoertzelMp3** (`decode_mp3_morse_goe3.py`): the offline decoder that feeds
  the Goertzel magnitudes of an MP3 chunk by chunk. It uses a simulated clock,
  a 1.4 × median dot/dash split, a cap of 30 marks and the all-dot fallback.
  Output goes through `' '.join(s.split()).strip()`.
- **FftMp3** (`decode_mp3_morse_fft.py`): the offline decoder on an FFT peak
  and noise estimate. It uses a 1.6 × mean split, times tones only, and uses
  an exact dict lookup with no fallback.
- **StableDecoder** (`sandbox-latest-stable`): the live GUI decoder. It keys
  with hysteresis (open at `multiplier`, close at `multiplier × 0.875` of the
  noise floor) and uses a 1.5 × median split. A symbol is decoded as soon as
  it reaches six marks. A word space writes two spaces after the Farnsworth
  stretched spacing. It also includes `calibrate_wpm`.
- **DevDecoder** (`dev/new_py11`): like the stable decoder, with a 1.3 ×
  median split and the all-dot and all-dash fallbacks.
- **NoCharsDecoder** (`new_py11/runs-but-no-chars`): a plain 4 × noise
  threshold and a 1.8 × mean split, with the letters, figures and prosigns
  dict.
- **UnboundDecoder** (`new_py11/again` and `new_py11/back`): the same design
  with a 10 × noise threshold and a 3 × mean character gap.
- **Trainer** (`cw_trainer` of the GUI files): keys a text as timed tones and
  pauses. Each character is echoed to the text area after it is keyed.

## How the model is built

**Chunk steps.** Each decoder is a pure chunk step on a `State` value. The
step is the composition of the loop's three blocks: the key transition
(`Edge`/`Key`), the inter-character check (`CharGap`) and the word check
(`WordSpace`/`WordCheck`). A run is the fold of that step over the chunks.

**Imperative form.**
- The GUI decoders keep their state in the enclosing function's variables.
  Each becomes a `class Session` whose fields are those variables. Its methods
  (`Step`, `HandleTransition`, `CheckCharacterSpace`, `CheckWordSpace`,
  `DecodeChar`) are proved to move the fields exactly as the step functions
  say.
- The two MP3 decoders are methods with the source's `for` loop. They are
  proved to return the run's text, which also covers the goertzel decoder's
  final clean-up.

**Dicts.** The Python dict displays are modelled as their list of pairs, and
`Build` gives the map a display builds, with later pairs overwriting earlier
ones. The repository holds three distinct displays:
- the full one, shared by the goertzel, FFT and development decoders;
- the stable decoder's, which orders its punctuation differently;
- the letters, figures and prosigns one, used by runs-but-no-chars, again and
  back.

Their overwritten pairs are proved:
- `-.-` reads `<K>`, never `K`;
- in the full dict `.----.` reads `'`, and `.` and `(` cannot be decoded;
- in the stable dict `.-.-.` reads `+` and `-...-` reads `=`.

**Time.** The time source is a parameter: `now` in the GUI decoders, and the
simulated clock `k · chunk_size / sample_rate` in the MP3 decoders. Reals are
exact.

**Notes on the code:**
- Only the stable and development decoders key with hysteresis. The others
  compare against one threshold.
- The stable decoder caps a symbol at six marks, where the goertzel and
  development decoders allow 30. So the seven- and
  nine-mark codes `BK` and `<SOS>` in its dict are never decoded
  (`StableDecoder.LongCodesUnreachable`).
- The trainer keys a dot as `0.05 × 20 / wpm` = `1 / wpm` seconds, not the
  PARIS-standard `1.2 / wpm`. A dash is three dots. The element gap is one dot. The
  character gap adds three dots after the last element gap. A space pauses
  `0.7 / (wpm / 20)` seconds.

## Model

| member | source | states |
|---|---|---|
| Chunking.AdvanceClock | sandbox_scratch/dev/standalone_mp3_decoder/decode_mp3_morse_goe3.py:85 | `sim_time += chunk_duration` takes the clock after k chunks to the clock after k + 1 chunks |
| Chunking.OffsetIsProduct | sandbox_scratch/dev/standalone_mp3_decoder/decode_mp3_morse_goe3.py:68 | the k-th chunk of `range(0, len(samples), chunk_size)` starts at sample k · chunk_size |
| Chunking.ElapsedIsProduct | sandbox_scratch/dev/standalone_mp3_decoder/decode_mp3_morse_goe3.py:66 | the simulated clock after k chunks reads k chunk durations |
| Chunking.ChunkDecision | sandbox_scratch/dev/standalone_mp3_decoder/decode_mp3_morse_goe3.py:68-71 | a chunk ends the loop exactly when it is shorter than half a chunk, and that is only possible for the last, partial chunk; every earlier chunk is decoded |
| Chunking.ChunksExhausted | sandbox_scratch/dev/standalone_mp3_decoder/decode_mp3_morse_fft.py:84-87 | a loop that runs past the last sample without breaking has decoded every chunk |
| Spectrum.TestFrequency | sandbox_scratch/dev/standalone_mp3_decoder/decode_mp3_morse_goe3.py:56 | each test frequency lies in 400..1100 Hz on the 20 Hz grid |
| Spectrum.Strongest | sandbox_scratch/dev/standalone_mp3_decoder/decode_mp3_morse_goe3.py:74-76 | `argmax`: the first position holding the largest magnitude |
| Spectrum.NoiseAtMostTone | sandbox_scratch/dev/standalone_mp3_decoder/decode_mp3_morse_goe3.py:78 | the mean of the five lowest and five highest bins never exceeds the tone magnitude |
| Stats.PushBounded | sandbox_scratch/dev/standalone_mp3_decoder/decode_mp3_morse_goe3.py:57-58 | `deque(maxlen=n).append(x)`: x is added at the end, and the oldest value is dropped only when the deque is full |
| Stats.PushKeepsAbove | sandbox_scratch/dev/standalone_mp3_decoder/decode_mp3_morse_goe3.py:88-90 | pushing only durations above 10 ms keeps every stored duration above 10 ms and the deque within its length |
| Stats.MeanAbove | sandbox_scratch/new_py11/runs-but-no-chars/qcx_cw_decoder.py:258 | the mean of durations that all exceed a bound exceeds it |
| Stats.MeanWithin | sandbox_scratch/dev/standalone_mp3_decoder/decode_mp3_morse_fft.py:94 | the mean lies between any lower and upper bound of the values |
| Stats.SortedCopyFacts | sandbox_scratch/dev/standalone_mp3_decoder/decode_mp3_morse_goe3.py:96 | the sorted copy `statistics.median` works on is sorted and a permutation of the data |
| Stats.MedianAbove | sandbox_scratch/dev/standalone_mp3_decoder/decode_mp3_morse_goe3.py:96 | the median of durations that all exceed a bound exceeds it |
| Stats.MedianBelow | sandbox-latest-stable/qcx_cw_decoder.py:183 | the median of durations that all lie below a bound lies below it |
| Timing.Max | sandbox_scratch/dev/standalone_mp3_decoder/decode_mp3_morse_goe3.py:108 | Python's `max`: at least both arguments and equal to one of them |
| Timing.HysteresisBand | sandbox-latest-stable/qcx_cw_decoder.py:230-237 | above the opening threshold the key is down, at or below the closing threshold it is up, and in between it keeps its state |
| Timing.StretchedSpacingValue | sandbox-latest-stable/qcx_cw_decoder.py:283-287 | the word spacing is seven units, or 105 · unit² (strictly more) when Farnsworth is on and the sender is slower than 18 wpm |
| Timing.Stretch | sandbox_scratch/new_py11/again/qcx_cw_decoder.py:247-251 | the imperative Farnsworth stretch computes the stretched spacing |
| Timing.MedianSpacing | sandbox_scratch/dev/new_py11/qcx_cw_decoder.py:381-385 | the word spacing on the median: seven units, or 0.7 s with nothing timed |
| Timing.MeanSpacing | sandbox_scratch/new_py11/runs-but-no-chars/qcx_cw_decoder.py:286-290 | the word spacing on the mean: seven units, or 0.7 s with nothing timed |
| MorseTable.BuildLast | sandbox_scratch/dev/standalone_mp3_decoder/decode_mp3_morse_goe3.py:14-31 | in a dict display the last pair with a key gives that key's value |
| MorseTable.BuildSource | sandbox_scratch/dev/new_py11/qcx_cw_decoder.py:237-254 | every key of the dict comes from the last pair of the display that carries it |
| MorseTable.BuildAbsent | sandbox_scratch/new_py11/runs-but-no-chars/qcx_cw_decoder.py:171-191 | a code that no pair carries is not in the dict |
| MorseTable.ShadowedText | sandbox_scratch/dev/new_py11/qcx_cw_decoder.py:251-252 | a text carried by one pair whose code is bound again later is read by no code |
| MorseTable.ItemsMatchBuild | sandbox_scratch/dev/new_py11/qcx_cw_decoder.py:450 | `MORSE_DICT.items()` lists every key once, with the value the dict holds |
| MorseTable.KeyFor | sandbox_scratch/dev/new_py11/qcx_cw_decoder.py:450 | `next(k for k, v in items if v == text)` finds a key exactly when some item has that value, and the key it finds is the first such item's: no earlier item has that value |
| MorseTable.KeyForRoundTrip | sandbox_scratch/new_py11/again/qcx_cw_decoder.py:314 | the reverse lookup's key decodes back to the text, and no key is found exactly when no code decodes to it |
| MorseTable.DotFallback | sandbox_scratch/dev/standalone_mp3_decoder/decode_mp3_morse_goe3.py:118-125 | the all-dot fallback changes a lookup only when it gave '?' for a run of dots |
| MorseTable.DotDashFallback | sandbox_scratch/dev/new_py11/qcx_cw_decoder.py:260-276 | the all-dash fallback changes a lookup only when the dot fallback gave '?' for a run of dashes |
| MorseTable.DotFallbackNamesShortRuns | sandbox-latest-stable/qcx_cw_decoder.py:156-163 | an unknown run of 1, 4 or 5 dots reads E, H or 5 and never '?' |
| MorseTable.DashFallbackNamesShortRuns | sandbox_scratch/dev/new_py11/qcx_cw_decoder.py:270-276 | an unknown run of 1 or 3 dashes passes the dot fallback unchanged and reads T or O, never '?' |
| MorseTable.FallbacksInert | sandbox_scratch/dev/new_py11/qcx_cw_decoder.py:262-276 | when the dict knows `.`, `....`, `.....` (and `-`, `---`) the fallbacks never change a lookup |
| Tables.FullTableOverrides | sandbox_scratch/dev/standalone_mp3_decoder/decode_mp3_morse_goe3.py:17-30 | in the full dict the later pairs win: `-.-` reads `<K>`, `-...-` reads `=`, `.----.` reads `'`, `-.--.-` reads `)`, `.-.-.-` reads `+` |
| Tables.FullTableFallbackCodes | sandbox_scratch/dev/new_py11/qcx_cw_decoder.py:238-245 | the full dict already reads `.`, `....`, `.....`, `-`, `---` as E, H, 5, T, O |
| Tables.FullTableLetters | sandbox_scratch/dev/standalone_mp3_decoder/decode_mp3_morse_fft.py:15-33 | the full dict reads `..` as I, `...` as S, `.-` as A |
| Tables.FullTableLongCodes | sandbox_scratch/dev/standalone_mp3_decoder/decode_mp3_morse_fft.py:15-33 | no code of the full dict is longer than nine marks, so a longer symbol is not a key |
| Tables.FullTableLostTexts | sandbox_scratch/dev/new_py11/qcx_cw_decoder.py:238-253 | no code of the full dict reads K, `<BT>`, `.` or `(` |
| Tables.StableTableOverrides | sandbox-latest-stable/qcx_cw_decoder.py:136-151 | in the stable dict `-.-` reads `<K>`, `.-.-.` reads `+`, `-...-` reads `=`, `-.--.-` reads `)`, `.-.-.-` reads `.` |
| Tables.StableTableFallbackCodes | sandbox-latest-stable/qcx_cw_decoder.py:137-143 | the stable dict already reads `.`, `....`, `.....` as E, H, 5 |
| Tables.StableTableLostTexts | sandbox-latest-stable/qcx_cw_decoder.py:145-150 | no code of the stable dict reads K, `<AR>`, `<BT>` or `(` |
| Tables.ProsignTableOverrides | sandbox_scratch/new_py11/back/qcx_cw_decoder.py:147-167 | in the letters, figures and prosigns dict `-.-` reads `<K>`, `-...-` reads `<BT>`, `.-.-.` reads `<AR>` |
| Tables.ProsignTableLostTexts | sandbox_scratch/new_py11/again/qcx_cw_decoder.py:154-166 | no code of the letters, figures and prosigns dict reads K |
| TextCleanup.DropSpaces | sandbox_scratch/dev/standalone_mp3_decoder/decode_mp3_morse_goe3.py:140 | the text after its leading whitespace: a suffix that starts with a visible character |
| TextCleanup.DropTrailing | sandbox_scratch/dev/standalone_mp3_decoder/decode_mp3_morse_goe3.py:140 | the text before its trailing whitespace: a prefix that ends with a visible character |
| TextCleanup.WordLength | sandbox_scratch/dev/standalone_mp3_decoder/decode_mp3_morse_goe3.py:140 | the first word is the maximal run of visible characters at the front |
| TextCleanup.WordsProper | sandbox_scratch/dev/standalone_mp3_decoder/decode_mp3_morse_goe3.py:140 | `split()` returns non-empty words without whitespace |
| TextCleanup.WordsKeepVisible | sandbox_scratch/dev/standalone_mp3_decoder/decode_mp3_morse_goe3.py:140 | the words of `split()` hold every visible character of the text, in order |
| TextCleanup.WordsOfJoin | sandbox_scratch/dev/standalone_mp3_decoder/decode_mp3_morse_goe3.py:140 | splitting a space-join of proper words gives the words back |
| TextCleanup.CleanupShape | sandbox_scratch/dev/standalone_mp3_decoder/decode_mp3_morse_goe3.py:140 | the cleaned text is empty or visible at both ends, and every whitespace in it is one space between visible characters |
| TextCleanup.CleanupKeepsVisible | sandbox_scratch/dev/standalone_mp3_decoder/decode_mp3_morse_goe3.py:140 | the clean-up keeps every visible character, in order |
| TextCleanup.CleanupIdempotent | sandbox_scratch/dev/standalone_mp3_decoder/decode_mp3_morse_goe3.py:140 | cleaning up twice is cleaning up once |
| GoertzelMp3.Timed | sandbox_scratch/dev/standalone_mp3_decoder/decode_mp3_morse_goe3.py:88-90 | the duration history stays within 50 values, all above 10 ms |
| GoertzelMp3.Edge | sandbox_scratch/dev/standalone_mp3_decoder/decode_mp3_morse_goe3.py:87-104 | the transition block keeps the deque bounds, the 10 ms floor and a symbol of dots and dashes |
| GoertzelMp3.CharGap | sandbox_scratch/dev/standalone_mp3_decoder/decode_mp3_morse_goe3.py:106-131 | the inter-character block keeps the decoder's bounds |
| GoertzelMp3.WordSpace | sandbox_scratch/dev/standalone_mp3_decoder/decode_mp3_morse_goe3.py:133-137 | the word-space block keeps the decoder's bounds |
| GoertzelMp3.Step | sandbox_scratch/dev/standalone_mp3_decoder/decode_mp3_morse_goe3.py:73-137 | one loop pass keeps the decoder's bounds |
| GoertzelMp3.Run | sandbox_scratch/dev/standalone_mp3_decoder/decode_mp3_morse_goe3.py:68-137 | every run of chunks ends in a state within the bounds |
| GoertzelMp3.RunFirst | sandbox_scratch/dev/standalone_mp3_decoder/decode_mp3_morse_goe3.py:68-137 | the state after the loop's first k chunks is within the bounds |
| GoertzelMp3.RunFirstIsRun | sandbox_scratch/dev/standalone_mp3_decoder/decode_mp3_morse_goe3.py:68 | counting chunks as the loop does and cutting the chunk sequence describe the same run |
| GoertzelMp3.Token | sandbox_scratch/dev/standalone_mp3_decoder/decode_mp3_morse_goe3.py:113-128 | a flush writes '?' for a symbol over 30 marks, else the dict's reading plus a space after a prosign |
| GoertzelMp3.KeyDecision | sandbox_scratch/dev/standalone_mp3_decoder/decode_mp3_morse_goe3.py:78-83 | the noise estimate is pushed on the 100-entry deque first; the key is down iff the tone exceeds 3 × the mean of that deque; the previous key state plays no part |
| GoertzelMp3.EdgeChunk | sandbox_scratch/dev/standalone_mp3_decoder/decode_mp3_morse_goe3.py:87-104 | a key change times the run; a release adds a dot below 1.4 × median, else a dash; both clocks restart; nothing is written |
| GoertzelMp3.FreshEdgeQuiet | sandbox_scratch/dev/standalone_mp3_decoder/decode_mp3_morse_goe3.py:102-104 | right after a key change neither silence check fires |
| GoertzelMp3.KeyHeldChunk | sandbox_scratch/dev/standalone_mp3_decoder/decode_mp3_morse_goe3.py:79-87 | a chunk with the key held down changes only the noise floor |
| GoertzelMp3.SilentChunk | sandbox_scratch/dev/standalone_mp3_decoder/decode_mp3_morse_goe3.py:106-137 | in silence, a pending symbol is flushed exactly past max(0.02, 0.6 × median) since the last change or flush; a space is written exactly past 0.35 s since the last change or space |
| GoertzelMp3.StepExtendsText | sandbox_scratch/dev/standalone_mp3_decoder/decode_mp3_morse_goe3.py:115-135 | a chunk only appends to the decoded text |
| GoertzelMp3.RunExtendsText | sandbox_scratch/dev/standalone_mp3_decoder/decode_mp3_morse_goe3.py:68-137 | the text after fewer chunks is a prefix of the text after more |
| GoertzelMp3.FlushOfK | sandbox_scratch/dev/standalone_mp3_decoder/decode_mp3_morse_goe3.py:118-128 | a flushed `-.-` writes `<K> `, never K |
| GoertzelMp3.HandleTransition | sandbox_scratch/dev/standalone_mp3_decoder/decode_mp3_morse_goe3.py:87-104 | the imperative transition block computes `Edge` |
| GoertzelMp3.TimeRun | sandbox_scratch/dev/standalone_mp3_decoder/decode_mp3_morse_goe3.py:88-90 | timing a run at `now` leaves the state as it was except that the history becomes `Timed`: a run longer than 10 ms is pushed on the 50-entry history, a shorter one dropped |
| GoertzelMp3.AddMark | sandbox_scratch/dev/standalone_mp3_decoder/decode_mp3_morse_goe3.py:95-100 | a release appends exactly one mark, judged against the median |
| GoertzelMp3.CheckCharacterSpace | sandbox_scratch/dev/standalone_mp3_decoder/decode_mp3_morse_goe3.py:106-131 | the imperative inter-character block computes `CharGap` |
| GoertzelMp3.DecodeSymbol | sandbox_scratch/dev/standalone_mp3_decoder/decode_mp3_morse_goe3.py:118-128 | the lookup with the all-dot fallback and the prosign space |
| GoertzelMp3.CheckWordSpace | sandbox_scratch/dev/standalone_mp3_decoder/decode_mp3_morse_goe3.py:133-137 | the imperative word-space block computes `WordSpace` |
| GoertzelMp3.DecodeChunk | sandbox_scratch/dev/standalone_mp3_decoder/decode_mp3_morse_goe3.py:73-137 | the imperative loop body computes `Step` |
| GoertzelMp3.DecodeMorseFromMp3 | sandbox_scratch/dev/standalone_mp3_decoder/decode_mp3_morse_goe3.py:48-140 | the decoder returns the cleaned-up text of the run over the chunks it processes, stopping at a short trailing chunk |
| FftMp3.Key | sandbox_scratch/dev/standalone_mp3_decoder/decode_mp3_morse_fft.py:102-118 | the key block keeps the deque bounds and the 20 ms floor |
| FftMp3.CharGap | sandbox_scratch/dev/standalone_mp3_decoder/decode_mp3_morse_fft.py:121-133 | the inter-character block keeps the decoder's bounds |
| FftMp3.WordSpace | sandbox_scratch/dev/standalone_mp3_decoder/decode_mp3_morse_fft.py:136-139 | the word-space block keeps the decoder's bounds |
| FftMp3.Step | sandbox_scratch/dev/standalone_mp3_decoder/decode_mp3_morse_fft.py:89-139 | one loop pass keeps the decoder's bounds |
| FftMp3.Run | sandbox_scratch/dev/standalone_mp3_decoder/decode_mp3_morse_fft.py:84-139 | every run of chunks ends in a state within the bounds |
| FftMp3.RunFirst | sandbox_scratch/dev/standalone_mp3_decoder/decode_mp3_morse_fft.py:84-139 | the state after the loop's first k chunks is within the bounds |
| FftMp3.RunFirstIsRun | sandbox_scratch/dev/standalone_mp3_decoder/decode_mp3_morse_fft.py:84 | counting chunks as the loop does and cutting the reading sequence describe the same run |
| FftMp3.KeyDecision | sandbox_scratch/dev/standalone_mp3_decoder/decode_mp3_morse_fft.py:93-98 | the noise estimate is pushed on the 200-entry deque first; the key is down iff the peak exceeds 3.5 × its mean; there is no hysteresis |
| FftMp3.KeyDownChunk | sandbox_scratch/dev/standalone_mp3_decoder/decode_mp3_morse_fft.py:102-105 | a key-down chunk writes nothing and moves neither clock; only the first chunk of a tone starts its timing |
| FftMp3.KeyUpMark | sandbox_scratch/dev/standalone_mp3_decoder/decode_mp3_morse_fft.py:106-118 | a release after a tone over 20 ms pushes it and adds a dot iff it is below 1.6 × the mean that already holds it; a shorter tone leaves no trace |
| FftMp3.FirstMarkIsDot | sandbox_scratch/dev/standalone_mp3_decoder/decode_mp3_morse_fft.py:109-113 | with nothing timed yet the first tone is always a dot |
| FftMp3.FlushWrites | sandbox_scratch/dev/standalone_mp3_decoder/decode_mp3_morse_fft.py:121-133 | a flush writes one of the full dict's readings or '?', clears the symbol and restarts the character clock; with no cap and no fallback, a symbol longer than every code (nine marks) writes '?' |
| FftMp3.ClocksMoveAlone | sandbox_scratch/dev/standalone_mp3_decoder/decode_mp3_morse_fft.py:132-139 | only a flush moves `last_char_time`, and only a word space moves `last_transition` |
| FftMp3.StepExtendsText | sandbox_scratch/dev/standalone_mp3_decoder/decode_mp3_morse_fft.py:121-139 | a chunk only appends to the decoded text |
| FftMp3.KeyUpFlushesAtOnce | sandbox_scratch/dev/standalone_mp3_decoder/decode_mp3_morse_fft.py:106-133 | a key-up chunk can flush the mark it has just added, with no silence at all |
| FftMp3.KeyUpWordSpace | sandbox_scratch/dev/standalone_mp3_decoder/decode_mp3_morse_fft.py:136-139 | a key-up chunk writes a word space once 0.6 s have passed since the previous one, however short the silence |
| FftMp3.SplitLetterI | sandbox_scratch/dev/standalone_mp3_decoder/decode_mp3_morse_fft.py:84-139 | as written, the letter I keyed at 24 wpm in 50 ms chunks decodes to "EE" |
| FftMp3.FixedKey | sandbox_scratch/dev/standalone_mp3_decoder/decode_mp3_morse_fft.py:102-118 | the key block with both clocks restarted at each key change keeps the bounds |
| FftMp3.FixedStep | sandbox_scratch/dev/standalone_mp3_decoder/decode_mp3_morse_fft.py:89-139 | the corrected loop pass keeps the bounds |
| FftMp3.FixedRun | sandbox_scratch/dev/standalone_mp3_decoder/decode_mp3_morse_fft.py:84-139 | the corrected run keeps the bounds |
| FftMp3.FixedEdgeWritesNothing | sandbox_scratch/dev/standalone_mp3_decoder/decode_mp3_morse_fft.py:102-139 | with the clocks restarted, a chunk that changes the key writes nothing and keeps the mark it added |
| FftMp3.FixedLetterI | sandbox_scratch/dev/standalone_mp3_decoder/decode_mp3_morse_fft.py:84-139 | with the clocks restarted, the same keying decodes to "I" |
| FftMp3.DecodeMorseFromMp3 | sandbox_scratch/dev/standalone_mp3_decoder/decode_mp3_morse_fft.py:69-147 | the decoder returns the text of the run over the chunks it processes, stopping at a short trailing chunk |
| FftMp3.DecodeChunk | sandbox_scratch/dev/standalone_mp3_decoder/decode_mp3_morse_fft.py:89-139 | the imperative loop body computes `Step` |
| FftMp3.HandleKey | sandbox_scratch/dev/standalone_mp3_decoder/decode_mp3_morse_fft.py:102-118 | the imperative key block computes `Key` |
| FftMp3.CheckCharacterSpace | sandbox_scratch/dev/standalone_mp3_decoder/decode_mp3_morse_fft.py:121-133 | the imperative inter-character block computes `CharGap` |
| FftMp3.CheckWordSpace | sandbox_scratch/dev/standalone_mp3_decoder/decode_mp3_morse_fft.py:136-139 | the imperative word-space block computes `WordSpace` |
| StableDecoder.FlushChar | sandbox-latest-stable/qcx_cw_decoder.py:153-171 | `decode_char` appends the dict's reading of a pending symbol and clears it; with nothing pending it does nothing |
| StableDecoder.Timed | sandbox-latest-stable/qcx_cw_decoder.py:242-244 | the duration history stays within 50 values, all above 10 ms |
| StableDecoder.Edge | sandbox-latest-stable/qcx_cw_decoder.py:241-267 | the transition block keeps the deques bounded and the symbol at five marks or fewer |
| StableDecoder.CharGap | sandbox-latest-stable/qcx_cw_decoder.py:269-277 | the inter-character block keeps the decoder's bounds |
| StableDecoder.WordCheck | sandbox-latest-stable/qcx_cw_decoder.py:279-291 | the word block keeps the decoder's bounds |
| StableDecoder.Next | sandbox-latest-stable/qcx_cw_decoder.py:216-291 | one loop pass keeps the decoder's bounds |
| StableDecoder.RecentDots | sandbox-latest-stable/qcx_cw_decoder.py:178 | the durations `calibrate_wpm` uses: exactly the durations under 0.1 s among the last ten of the history, each as often as it occurs there (as multisets) |
| StableDecoder.CalibrateWpm | sandbox-latest-stable/qcx_cw_decoder.py:173-186 | no estimate iff fewer than five timed durations or fewer than three recent short ones; otherwise the estimate is `int(1.2 / median)`: at most the quotient and within one of it, or 0 for a median that is not positive |
| StableDecoder.CalibrateWpmRange | sandbox-latest-stable/qcx_cw_decoder.py:183-185 | a calibrated speed always lies between 12 and 119 wpm |
| StableDecoder.FlushCharToken | sandbox-latest-stable/qcx_cw_decoder.py:153-171 | `decode_char` writes the dict's reading and never the all-dot fallback: `-.-` gives `<K>` and `.-.-.` gives `+` |
| StableDecoder.EdgeUp | sandbox-latest-stable/qcx_cw_decoder.py:249-267 | a release adds one mark; a sixth mark decodes the symbol at once |
| StableDecoder.EdgeChunk | sandbox-latest-stable/qcx_cw_decoder.py:230-267 | a chunk that changes the key restarts both clocks, adds a mark on a release and writes only a forced six-mark decode |
| StableDecoder.FreshEdgeQuiet | sandbox-latest-stable/qcx_cw_decoder.py:265-279 | right after a key change neither silence check fires |
| StableDecoder.KeyHeldChunk | sandbox-latest-stable/qcx_cw_decoder.py:222-241 | a chunk with the key held down changes only the noise floor |
| StableDecoder.SilentChunk | sandbox-latest-stable/qcx_cw_decoder.py:269-291 | in silence, a symbol is decoded past the character threshold or past 0.5 s; `last_char_time` moves whenever a symbol is pending; two spaces follow past the word spacing; `last_transition` never moves |
| StableDecoder.CharGapFacts | sandbox-latest-stable/qcx_cw_decoder.py:269-277 | the inter-character block in full: what it writes, clears and restarts |
| StableDecoder.WordCheckFacts | sandbox-latest-stable/qcx_cw_decoder.py:279-291 | the word block in full: decode after 0.5 s, two spaces after the word spacing |
| StableDecoder.WordSpacesRepeat | sandbox-latest-stable/qcx_cw_decoder.py:279-291 | once past the word spacing, every further silent chunk writes two more spaces |
| StableDecoder.LongCodesUnreachable | sandbox-latest-stable/qcx_cw_decoder.py:260-263 | between chunks a symbol never holds six marks, so `BK` and `<SOS>` are never decoded |
| StableDecoder.NextExtendsText | sandbox-latest-stable/qcx_cw_decoder.py:241-291 | a chunk only appends to the decoded text |
| StableDecoder.Session.constructor | sandbox-latest-stable/qcx_cw_decoder.py:126-134 | the decoder's variables start in the initial state, within the bounds |
| StableDecoder.Session.DecodeChar | sandbox-latest-stable/qcx_cw_decoder.py:153-171 | the imperative `decode_char` computes `FlushChar` |
| StableDecoder.Session.Step | sandbox-latest-stable/qcx_cw_decoder.py:212-300 | one loop pass updates the variables as `Next` says and keeps the bounds |
| StableDecoder.Session.HandleTransition | sandbox-latest-stable/qcx_cw_decoder.py:241-267 | the imperative transition block computes `Edge` |
| StableDecoder.Session.CheckCharacterSpace | sandbox-latest-stable/qcx_cw_decoder.py:269-277 | the imperative inter-character block computes `CharGap` |
| StableDecoder.Session.CheckWordSpace | sandbox-latest-stable/qcx_cw_decoder.py:279-291 | the imperative word block computes `WordCheck` |
| DevDecoder.FlushPending | sandbox_scratch/dev/new_py11/qcx_cw_decoder.py:256-283 | `decode_char` appends the dict's reading of the enclosing symbol and clears it; with nothing pending it does nothing |
| DevDecoder.Timed | sandbox_scratch/dev/new_py11/qcx_cw_decoder.py:336-338 | the duration history stays within 50 values, all above 10 ms |
| DevDecoder.Edge | sandbox_scratch/dev/new_py11/qcx_cw_decoder.py:335-359 | the transition block keeps the bounds and leaves the enclosing symbol alone |
| DevDecoder.CharGap | sandbox_scratch/dev/new_py11/qcx_cw_decoder.py:361-376 | the inter-character block keeps the bounds; an empty enclosing symbol stays empty |
| DevDecoder.WordCheck | sandbox_scratch/dev/new_py11/qcx_cw_decoder.py:378-389 | the word block keeps the bounds; an empty enclosing symbol stays empty |
| DevDecoder.Next | sandbox_scratch/dev/new_py11/qcx_cw_decoder.py:308-389 | one loop pass keeps the bounds; an empty enclosing symbol stays empty |
| DevDecoder.FlushPendingToken | sandbox_scratch/dev/new_py11/qcx_cw_decoder.py:256-283 | `decode_char` writes exactly the dict's reading (`-.-` gives `<K>`, `-...-` gives `=`); the fallbacks never apply |
| DevDecoder.EdgeChunk | sandbox_scratch/dev/new_py11/qcx_cw_decoder.py:335-359 | a key change restarts both clocks, adds a dot below 1.3 × median or else a dash on a release, and writes nothing |
| DevDecoder.FreshEdgeQuiet | sandbox_scratch/dev/new_py11/qcx_cw_decoder.py:357-378 | right after a key change neither silence check fires |
| DevDecoder.KeyHeldChunk | sandbox_scratch/dev/new_py11/qcx_cw_decoder.py:322-335 | a chunk with the key held down changes only the noise floor |
| DevDecoder.CharGapFacts | sandbox_scratch/dev/new_py11/qcx_cw_decoder.py:361-376 | the inter-character block in full: '?' for a symbol over 30 marks, else a `decode_char` that finds nothing |
| DevDecoder.WordCheckFacts | sandbox_scratch/dev/new_py11/qcx_cw_decoder.py:378-389 | the word block writes only two spaces past the word spacing |
| DevDecoder.SilentChunk | sandbox_scratch/dev/new_py11/qcx_cw_decoder.py:361-389 | in silence the loop's symbol is kept unless it is over 30 marks; no letter is ever written |
| DevDecoder.SymbolOnlyGrows | sandbox_scratch/dev/new_py11/qcx_cw_decoder.py:288 | a chunk keeps the loop's symbol, extends it by one mark, or clears it while writing '?' |
| DevDecoder.WordSpacesRepeat | sandbox_scratch/dev/new_py11/qcx_cw_decoder.py:378-389 | once past the word spacing, every further silent chunk writes two more spaces, possibly after a '?' |
| DevDecoder.SpacedChunk | sandbox_scratch/dev/new_py11/qcx_cw_decoder.py:378-389 | a silent chunk past the word spacing writes two spaces and keeps the word clock |
| DevDecoder.LetterKLost | sandbox_scratch/dev/new_py11/qcx_cw_decoder.py:361-376 | as written, a pending `-.-` past the character threshold stays pending and nothing is written for it |
| DevDecoder.Decoded | sandbox_scratch/dev/new_py11/qcx_cw_decoder.py:256-283 | `decode_char` on the loop's own symbol writes its dict reading and clears it |
| DevDecoder.FixedCharGap | sandbox_scratch/dev/new_py11/qcx_cw_decoder.py:361-376 | the corrected inter-character block keeps the bounds |
| DevDecoder.FixedWordCheck | sandbox_scratch/dev/new_py11/qcx_cw_decoder.py:378-389 | the corrected word block keeps the bounds |
| DevDecoder.FixedNext | sandbox_scratch/dev/new_py11/qcx_cw_decoder.py:308-389 | the corrected loop pass keeps the bounds |
| DevDecoder.FixedLetterK | sandbox_scratch/dev/new_py11/qcx_cw_decoder.py:361-376 | with one shared symbol, the same chunk writes `<K>` (and the word spaces, if due) and clears the symbol |
| DevDecoder.Session.constructor | sandbox_scratch/dev/new_py11/qcx_cw_decoder.py:228-234 | the decoder's variables start in the initial state, within the bounds |
| DevDecoder.Session.DecodeChar | sandbox_scratch/dev/new_py11/qcx_cw_decoder.py:256-283 | the imperative `decode_char` computes `FlushPending` |
| DevDecoder.Session.Step | sandbox_scratch/dev/new_py11/qcx_cw_decoder.py:304-398 | one loop pass updates the variables as `Next` says and keeps the bounds |
| DevDecoder.Session.HandleTransition | sandbox_scratch/dev/new_py11/qcx_cw_decoder.py:335-359 | the imperative transition block computes `Edge` |
| DevDecoder.Session.CheckCharacterSpace | sandbox_scratch/dev/new_py11/qcx_cw_decoder.py:361-376 | the imperative inter-character block computes `CharGap` |
| DevDecoder.Session.CheckWordSpace | sandbox_scratch/dev/new_py11/qcx_cw_decoder.py:378-389 | the imperative word block computes `WordCheck` |
| NoCharsDecoder.FlushPending | sandbox_scratch/new_py11/runs-but-no-chars/qcx_cw_decoder.py:193-201 | `decode_char` writes the prosign dict's reading of the enclosing symbol (`-.-` gives `<K>`, `-...-` gives `<BT>`, `.-.-.` gives `<AR>`) and clears it |
| NoCharsDecoder.Timed | sandbox_scratch/new_py11/runs-but-no-chars/qcx_cw_decoder.py:249-251 | the duration history stays within 50 values, all above 10 ms |
| NoCharsDecoder.Edge | sandbox_scratch/new_py11/runs-but-no-chars/qcx_cw_decoder.py:248-269 | the transition block keeps the bounds and writes nothing |
| NoCharsDecoder.CharGap | sandbox_scratch/new_py11/runs-but-no-chars/qcx_cw_decoder.py:272-281 | the inter-character block keeps the bounds; an empty enclosing symbol stays empty |
| NoCharsDecoder.WordCheck | sandbox_scratch/new_py11/runs-but-no-chars/qcx_cw_decoder.py:283-294 | the word block keeps the bounds; an empty enclosing symbol stays empty |
| NoCharsDecoder.Next | sandbox_scratch/new_py11/runs-but-no-chars/qcx_cw_decoder.py:226-294 | one loop pass keeps the bounds; an empty enclosing symbol stays empty |
| NoCharsDecoder.Replay | sandbox_scratch/new_py11/runs-but-no-chars/qcx_cw_decoder.py:222-298 | any number of loop passes keeps the bounds |
| NoCharsDecoder.KeyDecision | sandbox_scratch/new_py11/runs-but-no-chars/qcx_cw_decoder.py:240-242 | the key decision ignores the previous key state, and on a fresh floor it is tone > 4 × noise |
| NoCharsDecoder.EdgeChunk | sandbox_scratch/new_py11/runs-but-no-chars/qcx_cw_decoder.py:248-269 | a key change restarts both clocks, adds a dot below 1.8 × the mean or else a dash on a release, and writes nothing |
| NoCharsDecoder.FreshEdgeQuiet | sandbox_scratch/new_py11/runs-but-no-chars/qcx_cw_decoder.py:267-283 | right after a key change neither silence check fires |
| NoCharsDecoder.KeyHeldChunk | sandbox_scratch/new_py11/runs-but-no-chars/qcx_cw_decoder.py:240-248 | a chunk with the key held down changes only the noise floor |
| NoCharsDecoder.SilentChunk | sandbox_scratch/new_py11/runs-but-no-chars/qcx_cw_decoder.py:272-294 | in silence the symbol stays; the character clock restarts past max(0.08, 1.5 × mean); two spaces are written past both 0.5 s and the word spacing |
| NoCharsDecoder.ChunkWritesOnlySpaces | sandbox_scratch/new_py11/runs-but-no-chars/qcx_cw_decoder.py:206 | a chunk keeps the symbol's marks, adds at most one, and writes at most two spaces |
| NoCharsDecoder.NothingDecoded | sandbox_scratch/new_py11/runs-but-no-chars/qcx_cw_decoder.py:206 | as written, over any run of chunks the text only gains spaces and the symbol only gains marks |
| NoCharsDecoder.WordSpacesRepeat | sandbox_scratch/new_py11/runs-but-no-chars/qcx_cw_decoder.py:283-294 | once past the word spacing, every further silent chunk writes two more spaces |
| NoCharsDecoder.LetterKLost | sandbox_scratch/new_py11/runs-but-no-chars/qcx_cw_decoder.py:272-281 | as written, a pending `-.-` past the character threshold stays pending and no character is written |
| NoCharsDecoder.Decoded | sandbox_scratch/new_py11/runs-but-no-chars/qcx_cw_decoder.py:193-201 | `decode_char` on the loop's own symbol writes its prosign dict reading and clears it |
| NoCharsDecoder.FixedCharGap | sandbox_scratch/new_py11/runs-but-no-chars/qcx_cw_decoder.py:272-281 | the corrected inter-character block keeps the bounds |
| NoCharsDecoder.FixedWordCheck | sandbox_scratch/new_py11/runs-but-no-chars/qcx_cw_decoder.py:283-294 | the corrected word block keeps the bounds |
| NoCharsDecoder.FixedNext | sandbox_scratch/new_py11/runs-but-no-chars/qcx_cw_decoder.py:226-294 | the corrected loop pass keeps the bounds |
| NoCharsDecoder.FixedLetterK | sandbox_scratch/new_py11/runs-but-no-chars/qcx_cw_decoder.py:272-281 | with one shared symbol, the same chunk writes `<K>` (and the word spaces, if due) and clears the symbol |
| NoCharsDecoder.Session.constructor | sandbox_scratch/new_py11/runs-but-no-chars/qcx_cw_decoder.py:162-168 | the decoder's variables start in the initial state, within the bounds |
| NoCharsDecoder.Session.DecodeChar | sandbox_scratch/new_py11/runs-but-no-chars/qcx_cw_decoder.py:193-201 | the imperative `decode_char` computes `FlushPending` |
| NoCharsDecoder.Session.Step | sandbox_scratch/new_py11/runs-but-no-chars/qcx_cw_decoder.py:222-298 | one loop pass updates the variables as `Next` says and keeps the bounds |
| NoCharsDecoder.Session.HandleTransition | sandbox_scratch/new_py11/runs-but-no-chars/qcx_cw_decoder.py:248-269 | the imperative transition block computes `Edge` |
| NoCharsDecoder.Session.CheckCharacterSpace | sandbox_scratch/new_py11/runs-but-no-chars/qcx_cw_decoder.py:272-281 | the imperative inter-character block computes `CharGap` |
| NoCharsDecoder.Session.CheckWordSpace | sandbox_scratch/new_py11/runs-but-no-chars/qcx_cw_decoder.py:283-294 | the imperative word block computes `WordCheck` |
| UnboundDecoder.Timed | sandbox_scratch/new_py11/again/qcx_cw_decoder.py:216-218 | the duration history stays within 50 values, all above 10 ms |
| UnboundDecoder.Next | sandbox_scratch/new_py11/again/qcx_cw_decoder.py:191-263 | a loop pass, cut short where it raises, keeps the bounds |
| UnboundDecoder.Replay | sandbox_scratch/new_py11/back/qcx_cw_decoder.py:192-265 | any number of passes, each exception swallowed, keeps the bounds |
| UnboundDecoder.EveryChunkRaises | sandbox_scratch/new_py11/again/qcx_cw_decoder.py:215-242 | every pass raises, except one where the key is held down |
| UnboundDecoder.KeyStaysUp | sandbox_scratch/new_py11/back/qcx_cw_decoder.py:219-243 | with the key up, a pass leaves the key up and both clocks, the symbol and the text unchanged; only a timed run may enter the history |
| UnboundDecoder.Stuck | sandbox_scratch/new_py11/again/qcx_cw_decoder.py:191-263 | from a key-up state, no run ever puts the key down, moves a clock or writes anything |
| UnboundDecoder.NothingEverWritten | sandbox_scratch/new_py11/back/qcx_cw_decoder.py:178-265 | as written, from the window's opening the text stays empty however long the decoder runs |
| UnboundDecoder.DecodeChar | sandbox_scratch/new_py11/again/qcx_cw_decoder.py:168-175 | `decode_char` writes the prosign dict's reading of a pending symbol and clears it |
| UnboundDecoder.FixedEdge | sandbox_scratch/new_py11/again/qcx_cw_decoder.py:215-236 | the transition block with the symbol bound keeps the bounds |
| UnboundDecoder.FixedCharGap | sandbox_scratch/new_py11/again/qcx_cw_decoder.py:238-242 | the inter-character block with the symbol bound keeps the bounds |
| UnboundDecoder.FixedWordCheck | sandbox_scratch/new_py11/again/qcx_cw_decoder.py:244-255 | the word block with the symbol bound keeps the bounds |
| UnboundDecoder.FixedNext | sandbox_scratch/new_py11/again/qcx_cw_decoder.py:191-260 | the corrected pass keeps the bounds |
| UnboundDecoder.FixedKeyFollows | sandbox_scratch/new_py11/again/qcx_cw_decoder.py:215-236 | with the symbol bound, a key-down chunk puts the key down and restarts both clocks |
| UnboundDecoder.FixedLetterK | sandbox_scratch/new_py11/back/qcx_cw_decoder.py:240-243 | with the symbol bound, a pending `-.-` past three mean units of silence is written as `<K>` and cleared |
| UnboundDecoder.Session.constructor | sandbox_scratch/new_py11/again/qcx_cw_decoder.py:144-151 | the decoder's variables start in the initial state, within the bounds |
| UnboundDecoder.Session.Step | sandbox_scratch/new_py11/again/qcx_cw_decoder.py:191-263 | one pass updates the variables as `Next` says and reports whether it raised |
| Trainer.UpperText | sandbox_scratch/dev/new_py11/qcx_cw_decoder.py:446 | `text.upper()` keeps the length and upper-cases each character |
| Trainer.SendMark | sandbox_scratch/dev/new_py11/qcx_cw_decoder.py:452-458 | one mark: its tone when playing, its silence, then the element gap |
| Trainer.SendCode | sandbox_scratch/dev/new_py11/qcx_cw_decoder.py:449-459 | a character's code marks in order, then the character gap |
| Trainer.SendText | sandbox_scratch/dev/new_py11/qcx_cw_decoder.py:446-463 | the trainer loop emits each character's events in order |
| Trainer.Train | sandbox_scratch/new_py11/runs-but-no-chars/qcx_cw_decoder.py:351-368 | the whole schedule, or nothing when a wpm of zero or less makes the first length raise |
| Trainer.MarkFacts | sandbox_scratch/dev/new_py11/qcx_cw_decoder.py:452-458 | a mark echoes nothing and plays one tone of its own length when playing |
| Trainer.CharacterEchoesItself | sandbox_scratch/dev/new_py11/qcx_cw_decoder.py:461 | each character writes exactly itself to the text area |
| Trainer.EchoesUpperText | sandbox_scratch/dev/new_py11/qcx_cw_decoder.py:446-463 | the text area receives exactly the upper-cased text, in order |
| Trainer.ScheduleEchoesText | sandbox_scratch/new_py11/again/qcx_cw_decoder.py:310-327 | at a positive wpm the trainer finishes, and what it echoes is `text.upper()` |
| Trainer.HeardMark | sandbox_scratch/dev/new_py11/qcx_cw_decoder.py:453 | a dash lasts three dots, so only a dot's tone reads back as a dot |
| Trainer.MarksReadBack | sandbox_scratch/dev/new_py11/qcx_cw_decoder.py:452-458 | the tones played for a code read back as that code |
| Trainer.FoundCodeIsMorse | sandbox_scratch/dev/new_py11/qcx_cw_decoder.py:450 | the code found for a character is made of dots and dashes |
| Trainer.SentCharacterDecodes | sandbox_scratch/dev/new_py11/qcx_cw_decoder.py:450-459 | a character with a code is played as tones that the same dict decodes back to it; a character without one plays no tone |
| Trainer.KeyedTones | sandbox_scratch/dev/new_py11/qcx_cw_decoder.py:449-459 | a non-space character plays exactly its code's tones, or none |
| Trainer.KeyedScales | sandbox_scratch/dev/new_py11/qcx_cw_decoder.py:453-459 | every tone and gap at a given wpm is the 20 wpm one stretched by 20/wpm |
| Trainer.WordGapScales | sandbox_scratch/dev/new_py11/qcx_cw_decoder.py:448 | the word gap scales by 20/wpm too |
| Trainer.TrainerDictCodes | sandbox_scratch/dev/new_py11/qcx_cw_decoder.py:237-254 | every code of the trainers' dicts is made of dots and dashes |
| Trainer.FullTrainerRoundTrip | sandbox_scratch/dev/new_py11/qcx_cw_decoder.py:446-463 | the development trainer's tones for a character read back through the full dict as that character |
| Trainer.ProsignTrainerRoundTrip | sandbox_scratch/new_py11/again/qcx_cw_decoder.py:310-327 | the same round trip through the letters, figures and prosigns dict |
| Trainer.FullTrainerSkipsK | sandbox_scratch/dev/new_py11/qcx_cw_decoder.py:450 | K has no code in the full dict, so a K is echoed but never played |
| Trainer.ProsignTrainerSkipsK | sandbox_scratch/new_py11/runs-but-no-chars/qcx_cw_decoder.py:355 | the same holds for the letters, figures and prosigns dict |

## Left out

- Audio input and output: PyAudio streams, MP3 loading through pydub, `generate_tone`, and writing the decoded text to a file. Each chunk's spectrum enters as a parameter.
- Signal numerics: the Goertzel filter, the FFT and `fft_tone_detect`. The magnitudes and noise estimates are inputs. Floating point is modelled by exact reals, so rounding at threshold boundaries is not captured.
- The Tk GUI: labels, message boxes, the SNR and tone-frequency display, and the live wpm label.
- Threads and `win.after`: the stable decoder's word spaces are queued on the GUI thread, so they can land in the text area after a later `decode_char`. The model appends them in loop order.
- Starting and stopping decoding, device selection, `on_closing`, and the FT8 launcher.
- `time.time()` becomes the `now` parameter. `time.sleep` (including the 10 ms sleep in `decode_char`) becomes trainer pause events or is dropped.
- The trainer's random text choice for its practice modes: the text is a parameter.
- The trainer's START/END banners, and a second `code` for a character that two dict keys map to (the reverse lookup takes the first).
- The stable decoder's `cw_trainer`: it reads trainer variables that file never defines, and it is not part of this model.
- The `except` clauses of the GUI decoders other than again/back: the model assumes their loop bodies do not raise.
- Trainer.UpperText: upper-cases the ASCII letters only. Python's `str.upper` also maps other letters, and a few of them to more than one character.
- StableDecoder.CalibrateWpm: returns the speed estimate rather than setting the calibration label. It truncates toward zero as `int` does, and shows no message boxes.

## Findings

| source | as written | input that shows it | evidently intended | confidence | as-written member | corrected member |
|---|---|---|---|---|---|---|
| sandbox_scratch/dev/standalone_mp3_decoder/decode_mp3_morse_fft.py:102-133 | `last_char_time` moves only at a flush and `last_transition` only at a word space. The silence before a flush is therefore counted from the previous flush, and a key-up chunk can flush the mark it has just added. | the letter I keyed at 24 wpm in 50 ms chunks (tone, gap, tone, gap, gap) decodes to "EE" | restart both clocks at every key change, as the goertzel decoder does, so the same keying decodes to "I" | high, not executed | FftMp3.SplitLetterI | FftMp3.FixedLetterI |
| sandbox_scratch/dev/new_py11/qcx_cw_decoder.py:288 | `audio_decoder` binds its own local `current_symbol`. `decode_char` is declared `nonlocal` to the enclosing variable, which the loop never writes, so it never writes a character. | a `-.-` pending after a key-up, then a silent chunk past the character threshold: the symbol stays `-.-` and no `<K>` is written | one symbol shared by the loop and `decode_char` | high, not executed | DevDecoder.LetterKLost | DevDecoder.FixedLetterK |
| sandbox_scratch/new_py11/runs-but-no-chars/qcx_cw_decoder.py:206 | the same shadowed `current_symbol`, so no character is ever decoded | any run of chunks: the text gains only spaces | one symbol shared by the loop and `decode_char` | high, not executed | NoCharsDecoder.NothingDecoded | NoCharsDecoder.FixedLetterK |
| sandbox_scratch/new_py11/again/qcx_cw_decoder.py:178 | `audio_decoder` assigns `current_symbol` without declaring it `nonlocal`, so every read raises `UnboundLocalError`. The bare `except` swallows it, and the key never goes down. | any run of chunks from the window's opening: the text stays empty | `nonlocal current_symbol` added to line 178 | high, not executed | UnboundDecoder.NothingEverWritten | UnboundDecoder.FixedKeyFollows |
