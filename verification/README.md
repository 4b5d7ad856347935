# OpenWebSDR, verified

A Dafny model of the signal path and the scheduler of OpenWebSDR: the in-place FFT and its power
spectrum, the receive chain from emulator to audio, the queues and packets in between, and the
tune/close protocol of the scheduler. Loops, arrays and updated fields of the source are Dafny
methods over arrays and class fields; each is proved against a definition on sequences or states,
and the promises are proved of that definition.

`dafny verify dfyconfig.toml` checks everything.

## How the model is built

| files | what they hold |
|---|---|
| `Complex`, `Trig`, `RealSums`, `Division`, `Samples`, `Results` | exact complex arithmetic, the laws assumed of sine and cosine, sums, CS16 samples |
| `BitReversal`, `Dft`, `Fft`, `Energy` | the transform in place, the defining sum, energy and tone laws |
| `Hann`, `WindowedTone`, `KernelBound`, `Spectrum` | the window, what it lets into a bin and makes of a tone, the spectrum in display order |
| `RobustTone`, `ReceivedTone`, `RobustCarrier` | tones and carriers as 16-bit samples leave them, on the waterfall and in the audio |
| `FirDesign`, `TapShape`, `Channeliser`, `LowPass`, `FmDemodulator` | tap design and what the taps are, mix / filter / decimate, the filter's response, discriminator |
| `IqQueue`, `ChannelWorker`, `Waterfall` | the drop-oldest queue with its closing handshake, and its two consumers |
| `Emulator`, `EmulatedSignal`, `Packets`, `ChannelService` | block generation under faults, what its samples are and what FM they carry, the UDP packet and datagram, fan-out to workers |
| `Contracts`, `Policy`, `WindowEngine` | records, admission, service range, which window is whose default |
| `SchedulerState`, `SchedulerInvariants`, `SchedulerCapacity`, `SchedulerSaturation`, `SchedulerSessions` | tune split at its one suspension point; invariants, least bounds, saturation, sessions and tokens over all runs |
| `Stores`, `Scheduler` | the classes that refine it |

Floating-point values are real numbers. `cos`, `sin`, `sqrt`, `atan2` (as `arg`) and `log10` are
function parameters. What is assumed of them is stated as predicates: `Trig.Lawful` (values at 0 and
pi, parity, addition formulas), `Trig.TurnsOnce` where it is named (no angle short of a full turn is
back at 1), `Trig.QuarterIsI` (a quarter turn is i), `SineSteady` (the sine changes no faster than its
angle), `ArgLaw` (an angle short of half a turn is read back), `ArgRange` (principal angles),
`ArgSteady` (angles add up, and a number within d of 1 has an angle of at most d quarter turns),
`LogLaw` (0 at 1, increasing), `DecadeLaw` (ten times the argument adds 1), `sqrt(0) = 0` and
`sqrt(1) = 1`. Everything else about roots of unity, including that
those of the transform are distinct, is derived from these.

Each section the source runs under a mutex, and each stretch of `tune` between suspension points,
is one atomic step. Ids, the active window, random draws and fault choices are inputs of a step.

Preconditions kept explicit: the FFT size is a power of two (or empty input), and at least 2 for the
spectrum, whose window divides by size - 1; sample rates, deviation and modulation frequency are not
zero; drawn ids are new.

## Results worth knowing

* The FFT equals the quadratic sum for every power-of-two length. No spectrum line of a CS16 block
  exceeds (1 - 1/n)^2 / 2 of full scale, about -3 dB, and that bound is the least.
* Columns run in rising frequency with the centre in the middle one, and a tone at a column's frequency
  peaks there and nowhere else, under the Hann window that is always applied. That survives truncation to 16 bits for every tone of more than 15 steps and every size
  from 16, so every block of an emulator scene with one such tone shows its peak there. By Parseval's
  law a windowed unit tone has at most (n - 1)(n + 2) / 8 in any other bin, against (n - 1)^2 / 4 in its
  own.
* Cutting a block changes the channeliser's output for some input exactly when the first part is not
  a whole number of decimation groups and the second part is not empty.
* The single-step phase wrap keeps the accumulator in [-pi, pi] exactly when the increment is at most
  one turn; admission by the policy gives at most half a turn.
* An unmodulated carrier f Hz high comes out of a worker as the constant (f - channel) / deviation.
  Errors in the samples move it by at most half the audio rate times the share of the filtered error
  in the filtered carrier.
* What the emulator modulates the discriminator recovers: as long as neighbouring samples are short of
  half a turn apart, which holds wherever carrier offset and deviation together stay below half the
  sample rate, the audio of the first n + 1 samples of an FM signal adds up to gain times (n carrier
  steps + deviation / modulation x sin(2 pi modulation n / rate)) (`FmRecovered`, `WithinBandIsSlow`).
* A block reaches workers exactly when header, window id and samples fit one UDP datagram. A full
  block of the emulator is 262,144 bytes of samples and a datagram carries 65,507, so no run of the
  emulator changes any worker's queue (`Deliver`, `DeliverRun`).
* `maxUniqueChannels` is respected by every run only when tunes never overlap: with k tunes in
  flight, limit + k - 1 is reached, and is the least bound. The waterfall quota behaves the same way
  under the tighter of the two limits.
* Active channels are never given back: once the limit is reached no later tune of the run is given a
  new channel, and one user after another leaves the scheduler in that state with no session open.
* With k tunes in flight up to k channels serve the same request, and k is the least such bound.
* Neither `maxTotalSessions` nor `maxSessionsPerChannel` bounds the sessions of any run, of the whole
  scheduler or of one channel, unless no channel is ever given out (`SessionBoundExactly`): tunes that
  share a channel skip the policy. `maxTotalSessions` only stops new channels (`SaturatedExactly`).
* A token for a waterfall or for audio may name a channel set up without it, since sharing compares
  neither wish. In every run a tune's tokens are served exactly when it waited for its own channel or
  shares one set up with what it wishes (`HonestExactly`); all tokens of all runs are served only if
  no channel is ever given out (`AlwaysHonestExactly`).
* The scheduler tunes into the window engine's default window exactly while that is the only one
  running: opening a second window moves the scheduler but not the default, stopping one moves only
  the default.

Where the source's own comments disagree with its code, the code is followed, and the exact
condition under which the comment holds is proved:

* dsp_core.h:24 promises audio within [-1, 1]; the code scales phase steps by rate / (2 pi deviation)
  with no clamp. The promise holds exactly when the rate is at most twice the deviation
  (`AudioRangeExactly`); at the default 48,000 and 5,000 a quarter turn gives 2.4
  (`DefaultAudioTooLoud`).
* waterfall_generator.h:13 promises a line per block; that holds exactly when
  `blocks_per_line` is at most 1 (`LinePerBlockExactly`), and the defaults make it 100. The worker
  counts blocks as if each held `fft_size` samples, so the configured lines per second are met
  exactly when update rate x samples per block x period is the sample rate (`UpdateRateExactly`);
  with the defaults and the emulator's blocks, 64 seconds have 20 lines in place of 1,280
  (`DefaultRates`).
* scheduler.ts:137 logs that a channel without listeners is marked idle; its status does not change.
  A close leaves such a channel exactly when it closes the channel's only session (`IdleExactly`), and
  the channel goes on counting against the limit for the rest of the run (`ActiveGrows`,
  `StaysSaturated`).
* dsp_core.h:96 announces a low-pass filter; the code sets the sinc's centre to 1 in place of its limit
  2 cutoff / rate. The taps are those of the windowed ideal low-pass exactly when the channel is as
  wide as the window (`IdealExactly`). Otherwise every frequency passes with an extra
  1 - 2 cutoff / rate before normalisation (`EveryFrequencyPasses`), 0.994 for 12,500 Hz in 2,048,000
  (`DefaultShare`).
* The default rates 2,048,000 and 48,000 do not divide, so the channeliser's constructor throws on
  them. It runs on the worker's thread, where nothing catches the exception: the process ends
  (`Start`).

## Model

| member | source | states |
|---|---|---|
| BitReversal.BitRevInvolution | native/dsp-core/src/dsp_core.cpp:228-234 | reversing the low p bits of an index twice gives the index back, so the swap loop pairs indices |
| BitReversal.ReverseIncrement | native/dsp-core/src/dsp_core.cpp:230-232 | the carry loop takes the reversal of i - 1 to the reversal of i and stops at a clear bit before the mask is used up |
| BitReversal.Permute | native/dsp-core/src/dsp_core.cpp:228-234 | after the swap loop element k is the old element at the reversal of k, for every k |
| Fourier.EvalSplit | native/dsp-core/src/dsp_core.cpp:241-248 | the sum over all samples is the even sum plus the twiddle times the odd sum, at the squared twiddle: the identity a butterfly rests on |
| Fourier.TwiddleHalfTurn | native/dsp-core/src/dsp_core.cpp:238-239 | half as many steps of a stage's twiddle as its length make -1, from the addition formulas alone |
| FastFourier.ButterflyJoins | native/dsp-core/src/dsp_core.cpp:240-249 | one block of butterflies turns the transforms of the even and the odd samples into the transform of all of them |
| FastFourier.ButterflyBlock | native/dsp-core/src/dsp_core.cpp:241-248 | the inner loop with its running twiddle product replaces exactly one block by its butterflies with explicit twiddle powers |
| FastFourier.RunStage | native/dsp-core/src/dsp_core.cpp:240-249 | the middle loop applies the butterflies to every block of the stage |
| FastFourier.StageAdvances | native/dsp-core/src/dsp_core.cpp:237-250 | stage invariant: transforms of the 2m residue classes in bit-reversed order become transforms of the m classes of twice the length |
| FastFourier.FftInPlace | native/dsp-core/src/dsp_core.cpp:222-251 | for every power-of-two length and every input the array ends up holding the defining sum of each bin |
| SpectralLaws.StageEnergy | native/dsp-core/src/dsp_core.cpp:237-250 | each butterfly stage exactly doubles the total energy |
| SpectralLaws.ReversalEnergy | native/dsp-core/src/dsp_core.cpp:228-234 | the bit-reversal permutation keeps the energy |
| SpectralLaws.Parseval | native/dsp-core/src/dsp_core.cpp:222-251 | the transform multiplies the energy by the length |
| SpectralLaws.TwiddleOrder | native/dsp-core/src/dsp_core.cpp:238-239 | a power of the primitive root is 1 only for multiples of the length: the roots are distinct |
| SpectralLaws.ToneSpectrum | native/dsp-core/src/dsp_core.cpp:222-251 | an exponential on bin m transforms to length times its amplitude on bin m and to zero on every other bin |
| HannWindows.HannTotal | native/dsp-core/src/dsp_core.cpp:180-184 | the window's coefficients add up to exactly (n - 1) / 2, unless the cosine steps by whole turns, as for n = 2, where they add up to nothing |
| HannWindows.WindowedBinBound | native/dsp-core/src/dsp_core.cpp:197-216 | samples of energy at most b put at most b times the squared total of a non-negative window into any bin |
| KernelBounds.HannEnergy | native/dsp-core/src/dsp_core.cpp:180-184 | the squared coefficients of a window of n add up to 3 (n - 1) / 8 |
| KernelBounds.KernelOffBinBound | native/dsp-core/src/dsp_core.cpp:197-217 | what the window makes of a unit tone has at most (n - 1)(n + 2) / 8 of energy in any bin but its own, against (n - 1)^2 / 4 there |
| PowerSpectrum.BinPowerBound | native/dsp-core/src/dsp_core.cpp:197-217 | for every size and every CS16 input a bin's normalised power is at most (1 - 1/n)^2 / 2, and zero for n = 2 |
| PowerSpectrum.TopPowerExactly | native/dsp-core/src/dsp_core.cpp:197-217 | a number bounds every bin of every input if and only if it is at least that; a full-scale constant attains it |
| PowerSpectrum.TonePower | native/dsp-core/src/dsp_core.cpp:197-217 | a windowed tone has its energy times the squared window total over n^2 in its own bin, and no bin is stronger |
| PowerSpectrum.TonePeak | native/dsp-core/src/dsp_core.cpp:197-217 | from four samples on every other bin is strictly weaker |
| PowerSpectrum.FFTProcessor.Compute | native/dsp-core/src/dsp_core.cpp:187-220 | throws exactly when the input is shorter than twice the size taken modulo 2^32; otherwise column i is the level of raw bin (i + n/2) mod n of the windowed block, between the floor and the level of a full-scale constant |
| PowerSpectrum.FloorLevel | native/dsp-core/src/dsp_core.cpp:218 | no power at all is drawn at -120 dB |
| PowerSpectrum.TenDecibels | native/dsp-core/src/dsp_core.cpp:218 | ten times the power, the floor of 10^-12 included, is 10 dB more |
| PowerSpectrum.SilenceLevel | native/dsp-core/tests/fft_test.cpp:23-34 | every column of a silent block is at -120 dB, so below the -100 dB the test asks for |
| PowerSpectrum.LevelRange | native/dsp-core/tests/fft_test.cpp:70-89 | every column of every block is at or above the floor of 10^-12 and strictly below 0 dBFS |
| PowerSpectrum.ColumnOfBin | native/dsp-core/src/dsp_core.cpp:212-213 | for even sizes bin m is shown in column (m + n/2) mod n, and in no other |
| PowerSpectrum.ToneColumn | native/dsp-core/src/dsp_core.cpp:197-219 | the displayed line of an exact tone on bin m, of any amplitude and size from 4, is strictly lower in every column than in column (m + n/2) mod n |
| RobustTones.RobustColumn | native/dsp-core/src/dsp_core.cpp:197-219 | so is the line of every block within eps per sample of a tone, as long as amplitude times (1 - leak) exceeds 2 eps |
| RobustTones.TruncatedColumn | native/dsp-core/tests/fft_test.cpp:36-68 | and the line of every tone of more than 15 steps truncated to 16 bits, for every size from 16 |
| ReceivedTones.EmulatedTonePeaks | native/dsp-core/tests/fft_test.cpp:36-68 | columns run in rising frequency: every block of an emulator scene with one tone of more than 15 steps, (c - n/2) rate / n above the centre, is displayed with its peak in column c and no other |
| FirDesign.ComputeBesselI0 | native/dsp-core/src/dsp_core.cpp:43-56 | the multiplying loop with its early exit returns the sum of h^k / (k!)^2, h the square of x/2, from k = 0 to the first negligible term or the twentieth |
| FirDesign.TermAt | native/dsp-core/src/dsp_core.cpp:43-56 | term k of that series times (k!)^2 is (x/2)^2k |
| FirDesign.BesselAtZero | native/dsp-core/src/dsp_core.cpp:43-56 | the series is 1 at 0 |
| FirDesign.BesselPositive | native/dsp-core/src/dsp_core.cpp:43-56 | the series is at least 1 for every argument, so the Kaiser window never divides by zero |
| FirDesign.CentreTap | native/dsp-core/src/dsp_core.cpp:74-83 | the centre tap is exactly 1 before normalisation, so the taps are never all zero |
| FirDesign.RawTapSymmetric | native/dsp-core/src/dsp_core.cpp:70-84 | tap n equals tap M - n before normalisation |
| FirDesign.NormalisedTotal | native/dsp-core/src/dsp_core.cpp:86-90 | the taps sum to 1 exactly when their raw sum is positive |
| FirDesign.DesignFirLowpass | native/dsp-core/src/dsp_core.cpp:59-93 | asked for no tap or one the result is a single undefined tap; otherwise the taps are the normalised windowed sincs, odd in number, symmetric, non-zero at the centre, and of unit sum exactly when the raw sum is positive |
| TapShapes.TapFormula | native/dsp-core/src/dsp_core.cpp:70-84 | the taps j steps to either side of the centre are sin(2 pi j cutoff / rate) / (pi j) times I0(beta sqrt(1 - (j/h)^2)) / I0(beta), the sine as the imaginary part of a power of one step |
| TapShapes.WholeBandPasses | native/dsp-core/src/dsp_core.cpp:59-93 | where twice the cutoff is the rate the designed filter is the identity |
| TapShapes.HalfBand | native/dsp-core/src/dsp_core.cpp:70-84 | where four times the cutoff is the rate every second tap from the centre is 0 |
| TapShapes.HalfBandBeside | native/dsp-core/src/dsp_core.cpp:70-84 | and the two taps beside the centre are their Kaiser weight over pi |
| TapShapes.EndTaps | native/dsp-core/src/dsp_core.cpp:78-83 | at both ends the Kaiser weight is 1 / I0(beta) |
| TapShapes.ConfiguredEnds | native/dsp-core/src/dsp_core.cpp:109-114 | a worker has 127 taps of beta 8, cut off at half the channel bandwidth |
| LowPass.IdealExactly | native/dsp-core/include/dsp_core.h:95-101 | the raw taps are those of the windowed ideal low-pass if and only if twice the cutoff is the rate |
| LowPass.EveryFrequencyPasses | native/dsp-core/src/dsp_core.cpp:70-84 | at every frequency their response is that of the ideal taps plus a rotation of size 1 - 2 cutoff / rate |
| LowPass.DesignedResponse | native/dsp-core/src/dsp_core.cpp:59-93 | the designed taps, where normalised, have that response divided by their raw sum |
| LowPass.DefaultShare | apps/scheduler/src/scheduler.ts:42-49 | for a channel of 12,500 Hz in a window of 2,048,000 that size is 4071/4096 |
| Channelising.PhaseCongruent | native/dsp-core/src/dsp_core.cpp:145-154 | however often the accumulator has wrapped, the mixer after k samples stands at k increments |
| Channelising.PhaseBounded | native/dsp-core/src/dsp_core.cpp:151-154 | the accumulator stays in [-pi, pi] for ever exactly when the increment is at most one turn either way |
| Channelising.BlockOutputAt | native/dsp-core/src/dsp_core.cpp:138-170 | a call on n samples yields ceil(n / D) outputs, the i-th being the convolution at sample i D |
| Channelising.BlockOutputCausal | native/dsp-core/src/dsp_core.cpp:156-169 | later samples of the stream do not change earlier outputs |
| Channelising.RunIsOneCall | native/dsp-core/src/dsp_core.cpp:127-171 | over any run of blocks of which all but the last are whole groups, the outputs end to end equal one call on the whole stream |
| Channelising.SplitInvariantExactly | native/dsp-core/src/dsp_core.cpp:127-171 | cutting a block after na of na + nb samples is harmless for all samples and histories if and only if D divides na or nb is zero |
| Channelising.FirOfRotation | native/dsp-core/src/dsp_core.cpp:156-168 | once a steady rotation fills the delay line the filter multiplies it by one fixed complex response |
| Channelising.ConstantPasses | native/dsp-core/src/dsp_core.cpp:86-90 | after one delay line of constant mixed input, taps of unit sum output that constant |
| Channelising.Channeliser.constructor | native/dsp-core/src/dsp_core.cpp:99-125 | starts with an empty history, D times the output rate equal to the window rate, and the designed taps |
| Channelising.Channeliser.Create | native/dsp-core/src/dsp_core.cpp:102-105 | construction throws exactly when the output rate does not divide the window rate |
| Channelising.Channeliser.ShiftIn | native/dsp-core/src/dsp_core.cpp:156-160 | the in-place shift loop drops the oldest element and puts the new one in front |
| Channelising.Channeliser.Filter | native/dsp-core/src/dsp_core.cpp:162-166 | the accumulating loop over delay line and taps is the convolution at the newest sample |
| Channelising.Channeliser.MixNext | native/dsp-core/src/dsp_core.cpp:139-154 | the sample is mixed as by an unwrapped phase while the stored one is wrapped |
| Channelising.Channeliser.Process | native/dsp-core/src/dsp_core.cpp:127-171 | the per-sample loop with its delay line and wrapped phase outputs the mixed, convolved, decimated stream defined on everything received so far |
| FmDemodulation.DemodulatedSplits | native/dsp-core/src/dsp_core.cpp:24-37 | any split of the stream into blocks demodulates to the audio of the whole |
| FmDemodulation.DemodulatedConcat | native/dsp-core/src/dsp_core.cpp:24-37 | cutting the stream at any sample changes nothing, since the last sample is carried over |
| FmDemodulation.FmRoundTrip | native/dsp-core/src/dsp_core.cpp:24-37 | for samples of positive amplitude and phase steps short of half a turn, output n is the gain times the n-th phase step, including the first from the initial state |
| FmDemodulation.AudioRangeExactly | native/dsp-core/include/dsp_core.h:24 | every stream's audio keeps within [-1, 1], from the initial state or any other, if and only if the rate is at most twice the deviation |
| FmDemodulation.DefaultAudioTooLoud | native/channel-service/src/main.cpp:131-133 | at 48,000 Hz and 5,000 Hz a first sample a quarter turn from 1 gives 2.4 |
| FmDemodulation.FMDemodulator.constructor | native/dsp-core/src/dsp_core.cpp:19-22 | the gain is the one that makes gain times 2 pi deviation the sample rate, and the previous sample starts at 1 |
| FmDemodulation.FMDemodulator.Demodulate | native/dsp-core/src/dsp_core.cpp:24-37 | the loop outputs the discriminator of each sample against the one before it, across calls |
| IqQueues.RunKeeps | native/channel-service/src/channel_worker.cpp:44-105 | in every run the queue is a suffix of the submitted blocks within its depth, every earlier block was taken or dropped and never both, none was dropped without a full queue of newer ones, and takes are in order and among the newest `depth` of their time |
| IqQueues.CloseDrains | native/channel-service/src/channel_worker.cpp:93-105 | in every run without submissions the worker takes the queued blocks in order and none is dropped, and it can exit exactly once the queue has been closed and there were as many dequeues as blocks |
| IqQueues.IqQueue.Submit | native/channel-service/src/channel_worker.cpp:57-68 | a full queue loses its oldest block and gains the new one; what has been taken is unchanged |
| IqQueues.IqQueue.Take | native/channel-service/src/channel_worker.cpp:96-104 | removes the head and records it as taken |
| ChannelWorkers.WorkerLoop.Step | native/channel-service/src/channel_worker.cpp:93-117 | one turn of the loop: exits exactly when the queue is closed and empty, otherwise processes the head and hands one audio block to the callback |
| ChannelWorkers.WorkerLoop.ProcessBlock | native/channel-service/src/channel_worker.cpp:102-116 | one dequeued block extends the delivered audio so that it still is the audio of everything dequeued since the start |
| ChannelWorkers.WorkerLoop.Drain | native/channel-service/src/channel_worker.cpp:93-120 | from a closed queue the loop terminates, having processed every block that was queued |
| ChannelWorkers.WorkerMeaning | native/channel-service/src/channel_worker.cpp:102-116 | all audio delivered so far is, in modes FM and NFM, the discriminator over the channel of all dequeued blocks as one, when all but the last are whole numbers of output samples; in AM, USB, LSB and RAW it is zeros, as many as there were output samples |
| ChannelWorkers.CarrierAudio | native/channel-service/src/channel_worker.cpp:76-121 | in modes FM and NFM a carrier at f Hz within half the audio rate of the channel, and not filtered out, gives the constant (f - channel) / deviation once the delay line is full |
| RobustCarriers.NearCarrierAudio | native/channel-service/src/channel_worker.cpp:76-121 | in these modes, for samples within eps of a carrier the audio stands for its offset within half the audio rate times (eps times the taps' absolute sum) / (the filtered carrier), as long as that leaves it short of half the audio rate |
| RobustCarriers.TruncatedStream | native/dsp-core/src/dsp_core.cpp:138-143 | samples truncated to 16 bits are within a step and a half |
| ChannelWorkers.ChannelWorker.Start | native/channel-service/src/channel_worker.cpp:32-42 | refuses exactly when already active, ends the process exactly when it is not and the rates do not divide, otherwise starts a loop with fresh signal processing on the same queue |
| ChannelWorkers.DefaultRatesDoNotDivide | native/channel-service/src/main.cpp:131 | 48,000 leaves a remainder of 32,000 in 2,048,000 |
| ChannelWorkers.ChannelWorker.Stop | native/channel-service/src/channel_worker.cpp:44-55 | whatever is submitted between the close and the thread's exit, every block submitted before the exit has been processed in order or dropped, and none submitted after it has been touched; without late submissions the whole queue is processed |
| ChannelWorkers.ChannelWorker.SubmitIqBlock | native/channel-service/src/channel_worker.cpp:57-68 | submission touches nothing but the queue, which keeps its 16 newest blocks |
| Waterfalls.PeriodBounds | native/waterfall-service/src/waterfall_generator.cpp:40-59 | the blocks a line takes are the sample rate over the 32-bit product of size and update rate, rounded down, but never none |
| Waterfalls.LinePerBlockExactly | native/waterfall-service/include/waterfall_generator.h:13-14 | every stream of long enough blocks has a line per block if and only if the sample rate is below twice the 32-bit product of size and update rate |
| Waterfalls.UpdateRateExactly | native/waterfall-service/include/waterfall_generator.h:22 | with blocks of B samples every whole number of seconds has the configured number of lines if and only if update rate x B x period is the sample rate, or, for blocks too short for a line, if they carry no time at all |
| Waterfalls.DefaultRates | native/waterfall-service/include/waterfall_generator.h:21-23 | at the defaults a line takes 100 blocks, and 64 seconds of 65,536-sample blocks have 20 lines |
| Waterfalls.WaterfallGenerator.SubscriberCount | native/waterfall-service/src/waterfall_generator.cpp:40-74 | in every reachable state, if all blocks were long enough, a subscriber has been given exactly one line for every period of blocks that ended since it joined |
| Waterfalls.WaterfallGenerator.SubscriberLine | native/waterfall-service/src/waterfall_generator.cpp:58-74 | its k-th line is the spectrum of the last block of the k-th of these periods |
| Waterfalls.WaterfallGenerator.Step | native/waterfall-service/src/waterfall_generator.cpp:46-74 | one turn of the loop: a due line goes to every current subscriber and nothing else is delivered, so each stays up to date with all lines made since it joined; too short a block uses up its period without a line |
| Waterfalls.WaterfallGenerator.Subscribe | native/waterfall-service/src/waterfall_generator.cpp:118-124 | ids come from a wrapping 32-bit counter, a new subscriber starts with nothing from the present block on, and every other stays up to date |
| Waterfalls.WaterfallGenerator.Unsubscribe | native/waterfall-service/src/waterfall_generator.cpp:126-130 | exactly the named subscription ends, and every other stays up to date |
| Packets.WireFormat | native/receiver-emulator/src/main.cpp:235-246 | a packet is the length of the id in four bytes, lowest first, the id, and two bytes a sample in two's complement, low byte first |
| Packets.PacketRoundTrip | native/channel-service/src/main.cpp:67-92 | the receive buffer hands over the id and samples a packet was made from if and only if it has samples and fits the buffer of 262,212 bytes |
| Packets.TransmissionRoundTrip | native/receiver-emulator/src/main.cpp:235-250 | through the send, id and samples arrive if and only if there are samples and the packet fits one datagram of 65,507 bytes; otherwise nothing is accepted |
| Packets.FullBlockNeverSent | native/receiver-emulator/src/main.cpp:248-249 | a full emulator block is never sent, whatever the id |
| Packets.FullBlockFits | native/channel-service/src/main.cpp:67-68 | the receive buffer would hold a full emulator block with an id of at most 64 bytes |
| Packets.InBoundsExactly | native/channel-service/src/main.cpp:81-85 | the guard keeps the read of the id inside the buffer if and only if the header is below 2^32 - 4, where its 32-bit sum with 4 does not wrap |
| Packets.AcceptedReencodes | native/channel-service/src/main.cpp:79-92 | the decoder accepts nothing but encodings: every accepted packet re-encodes to itself |
| Packets.BuildPacket | native/receiver-emulator/src/main.cpp:235-246 | dropped and empty blocks make no packet; otherwise the buffer filled by three copies is the encoding |
| Packets.CopyBytes | native/receiver-emulator/src/main.cpp:242-246 | a copy replaces exactly its own stretch of the buffer |
| ChannelServices.ChannelService.FanOut | native/channel-service/src/main.cpp:94-99 | the block joins the queue of every worker that is active and has the packet's window id, and every other queue is unchanged |
| ChannelServices.ChannelService.ReceivePacket | native/channel-service/src/main.cpp:78-99 | a rejected packet changes no queue, an accepted one reaches the active workers of the window it names, and after a read out of bounds nothing is promised |
| ChannelServices.ChannelService.Deliver | native/receiver-emulator/src/main.cpp:235-250 | from the stream callback to the workers: exactly the active workers of the window are offered the samples, and exactly when the block is not dropped, not empty and fits one datagram; otherwise no queue changes |
| ChannelServices.ChannelService.DeliverRun | native/receiver-emulator/src/main.cpp:233-250 | no run of the emulator, under any faults, changes any queue |
| Emulation.ReceiverEmulator.SynthesiseSignal | native/receiver-emulator/src/emulator.cpp:148-219 | adding a signal with a base phase per block and steps within it equals adding its one global waveform at the block's position; noise overwrites it with draws of its own in every generation |
| Emulation.ReceiverEmulator.GenerateBlock | native/receiver-emulator/src/emulator.cpp:124-146 | the payload summed over all signals is the slice of the waveform that the sequence counter names |
| Emulation.ReceiverEmulator.NextBlock | native/receiver-emulator/src/emulator.cpp:92-116 | every numbered block uses up one sequence number, whatever its fault, and is marked dropped or corrupt exactly for that fault |
| Emulation.ReceiverEmulator.Spoil | native/receiver-emulator/src/emulator.cpp:111-113 | corruption is confined to the first 64 elements |
| Emulation.ReceiverEmulator.StreamLoop | native/receiver-emulator/src/emulator.cpp:66-122 | for every sequence of faults, which blocks are emitted, and that every emitted block uses up a sequence number except an end-of-stream block, which uses up only its noise |
| Emulation.FaultMarks | native/receiver-emulator/src/emulator.cpp:66-122 | block i of a run comes from the iteration before which i others did not stall; it is dropped exactly for a drop, corrupt exactly for a corruption, and then starts with those 64 values, and the end of the stream, without a number, exactly for a disconnect |
| Emulation.EmittedCount | native/receiver-emulator/src/emulator.cpp:66-122 | a run emits one block for every iteration up to the first disconnect that does not stall |
| Emulation.StreamContinuity | native/receiver-emulator/src/emulator.cpp:66-122 | block i of a run carries sequence number start + i and samples 65,536 (start + i) onwards of the waveform, apart from the first 64 elements of corrupt blocks; only the last block can end the stream, and it has no number |
| Emulation.StreamIsOneWaveform | native/receiver-emulator/src/emulator.cpp:124-219 | uncorrupted blocks put end to end are one stretch of one waveform |
| Samples.Truncate | native/receiver-emulator/src/emulator.cpp:179-180 | a conversion to 16 bits keeps the sign and never gains in size: the whole number next to the value on the side of zero |
| EmulatedSignals.ToneBlock | native/receiver-emulator/src/emulator.cpp:168-183 | sample n of a scene with one tone is amplitude times (cos, sin) of n steps of 2 pi offset / rate, truncated |
| EmulatedSignals.FmBlock | native/receiver-emulator/src/emulator.cpp:185-218 | with one FM signal the phase is n carrier steps plus deviation / modulation times the sine of n modulation steps |
| EmulatedSignals.SignalsAddUp | native/receiver-emulator/src/emulator.cpp:138-143 | without noise a sample is the sum of its signals, each truncated, in 16 bits |
| EmulatedSignals.NoiseOverwrites | native/receiver-emulator/src/emulator.cpp:156-166 | a noise signal replaces everything before it by its draws, truncated, or the nearest of -32,768 and 32,767 |
| EmulatedSignals.FmRecovered | native/receiver-emulator/src/emulator.cpp:185-213 | from the generator through the discriminator: with steps short of half a turn the audio of an FM signal's first n + 1 samples adds up to the gain times (n carrier steps + deviation / modulation times sin(2 pi modulation n / rate)) |
| EmulatedSignals.WithinBandIsSlow | native/receiver-emulator/src/emulator.cpp:185-213 | the steps are short of half a turn wherever offset and deviation together are below half the rate |
| EmulatedSignals.FmWholePeriods | native/receiver-emulator/src/emulator.cpp:185-213 | after whole modulation periods the modulation has added nothing |
| EmulatedSignals.FmQuarterPeriod | native/receiver-emulator/src/emulator.cpp:185-213 | and a quarter period later deviation / modulation |
| AdmissionPolicy.Evaluate | apps/scheduler/src/policy.ts:19-82 | admits exactly the requests in the window and below every limit that concerns them, and names the first limit broken |
| WindowEngine.ServiceRange | apps/window-engine/src/window-manager.ts:14-32 | a frequency is served exactly when it keeps the guard distance from both band edges |
| WindowEngine.AdmissionBoundsPhase | apps/window-engine/src/window-manager.ts:18-27 | a frequency admitted in a created window makes the mixer step at most half a turn and keeps its phase in [-pi, pi] after every sample |
| WindowEngine.WindowManager.Create | apps/window-engine/src/window-manager.ts:14-37 | stores exactly the requested window, pending, as the newest, with the configured centre and rate where the request names none |
| WindowEngine.WindowManager.Activate | apps/window-engine/src/window-manager.ts:39-45 | marks exactly the named window active, and reports whether it exists |
| WindowEngine.WindowManager.Stop | apps/window-engine/src/window-manager.ts:47-53 | marks exactly the named window stopped, reports whether it exists, and leaves the scheduler with the window it knows |
| WindowEngine.WindowManager.OpenAndTell | apps/window-engine/src/index.ts:38-44 | stores the requested window as the newest, active, and passes exactly that on to the scheduler |
| WindowEngine.WindowManager.GetDefault | apps/window-engine/src/window-manager.ts:63-76 | the scan returns the first active window in creation order |
| WindowEngine.DefaultIsOldest | apps/window-engine/src/window-manager.ts:63-76 | which is the oldest active one, and none exactly when none is active |
| WindowEngine.OpeningKeepsDefault | apps/window-engine/src/index.ts:38-44 | opening a window leaves an existing default alone, and makes the new window the default if there was none |
| WindowEngine.AgreementExactly | apps/window-engine/src/index.ts:11-44 | after every history of opened and stopped windows, the window the scheduler was told of is the default if and only if it is the only active one |
| SchedulerInvariants.RunKeeps | apps/scheduler/src/scheduler.ts:36-141 | over every interleaving of begins, resumes, failures, closes and window changes each channel's listener count is the number of its sessions, every session is on a stored active channel, and the starting channels are the suspended tunes |
| SchedulerInvariants.FailureIsClean | apps/scheduler/src/scheduler.ts:97-102 | a failed tune removes a channel without listeners or sessions, and no session |
| SchedulerInvariants.ClampNeverFires | apps/scheduler/src/channel-store.ts:55-60 | a session being closed is always counted, so the clamp at zero never acts |
| SchedulerInvariants.TuneDecision | apps/scheduler/src/scheduler.ts:36-92 | a tune attaches exactly when an active channel of the window has the request's frequency, mode and bandwidth, 12,500 Hz unless it names one, and then to such a channel; otherwise the first of range, channel limit, session limit and quota that is broken refuses it, and if none is it starts a channel; refusals change nothing |
| SchedulerInvariants.TuneRecords | apps/scheduler/src/scheduler.ts:53-92 | attaching adds one listener and a session with the request's user and wishes, and hands out tokens for these; starting stores a channel with all of the request's values or their defaults |
| SchedulerInvariants.SuccessRecords | apps/scheduler/src/scheduler.ts:94-124 | when provisioning returns the channel is active with one listener, and its only session has the suspended tune's user and wishes |
| SchedulerInvariants.FailUndoesBegin | apps/scheduler/src/scheduler.ts:92-102 | a tune whose provisioning fails leaves both stores as they were, order included |
| SchedulerInvariants.CloseUndoesAttach | apps/scheduler/src/scheduler.ts:53-74 | closing a session just attached to a channel restores both stores |
| SchedulerInvariants.OldestReusable | apps/scheduler/src/channel-store.ts:35-46 | the shared channel is the oldest active one with the same window, frequency, mode and bandwidth |
| SchedulerCapacity.CapacityBound | apps/scheduler/src/scheduler.ts:76-97 | with at most k tunes in flight, active and starting channels number at most the limit - 1 + k, and those with a waterfall at most the quota - 1 + k |
| SchedulerCapacity.BoundHoldsExactly | apps/scheduler/src/scheduler.ts:76-97 | a bound on stored channels holds for every run with k tunes in flight if and only if it is at least the limit - 1 + k, or zero where nothing is admitted |
| SchedulerCapacity.WaterfallBoundHoldsExactly | apps/scheduler/src/policy.ts:72-82 | a bound on channels with a waterfall holds for every such run if and only if it is at least the smaller of limit and quota, - 1 + k, or zero where none is admitted |
| SchedulerCapacity.SharingBound | apps/scheduler/src/scheduler.ts:51-97 | with at most k tunes in flight at most k channels serve the same window, frequency, mode and bandwidth |
| SchedulerCapacity.SharingBoundHoldsExactly | apps/scheduler/src/scheduler.ts:51-97 | a bound on channels serving one request holds for every run with k tunes in flight if and only if it is at least k, or zero where nothing is admitted |
| SchedulerCapacity.ReuseIsOrderFree | apps/scheduler/src/channel-store.ts:35-46 | with one tune at a time the reused channel does not depend on the order of the store |
| SchedulerSaturation.IdleExactly | apps/scheduler/src/scheduler.ts:126-141 | a close leaves its channel active, and without listeners exactly when the session was the channel's only one |
| SchedulerSaturation.ActiveGrows | apps/scheduler/src/scheduler.ts:36-141 | over every run the set of active channels only grows |
| SchedulerSaturation.SaturatedExactly | apps/scheduler/src/scheduler.ts:76-92 | no request whatever would be given a new channel if and only if the active channels have reached their limit or the open sessions theirs |
| SchedulerSaturation.StaysSaturated | apps/scheduler/src/scheduler.ts:36-141 | from the moment the limit is reached no later tune of the run is given a new channel |
| SchedulerSaturation.SaturatedByIdleChannels | apps/scheduler/src/scheduler.ts:126-141 | for every limit a run of single tunes, each closed again, gets there with no session and no suspended tune left |
| SchedulerSessions.SessionBoundExactly | packages/config/src/index.ts:84-85 | a number bounds the sessions of every run with k tunes in flight, or those of any one channel, if and only if no tune is ever admitted, which depends on neither session limit beyond its being positive |
| SchedulerSessions.HonestExactly | apps/scheduler/src/scheduler.ts:58-73 | over every run an answer's tokens are for what its channel was set up with if and only if the tune waited for its own channel or the shared channel was set up with all it wishes |
| SchedulerSessions.AlwaysHonestExactly | apps/scheduler/src/channel-store.ts:4-10 | that holds for all answers of all runs if and only if no tune is ever admitted |
| Stores.ChannelStore.Find | apps/scheduler/src/channel-store.ts:35-46 | the scan returns a channel exactly when an active, reusable one of the window with that frequency, mode and bandwidth is stored, the first in store order |
| Stores.ChannelStore.CreatePlaceholder | apps/scheduler/src/channel-store.ts:70-91 | stores a starting, reusable channel without listeners as the newest |
| Stores.ChannelStore.Activate | apps/scheduler/src/channel-store.ts:93-98 | makes exactly the named channel active, and reports whether it exists |
| Stores.ChannelStore.IncrementListeners | apps/scheduler/src/channel-store.ts:48-53 | one listener more on exactly the named channel |
| Stores.ChannelStore.DecrementListeners | apps/scheduler/src/channel-store.ts:55-60 | one listener fewer on exactly the named channel, never below zero |
| Stores.ChannelStore.CountActive | apps/scheduler/src/channel-store.ts:62-64 | the filtered scan counts exactly the active channels |
| Stores.ChannelStore.CountWaterfall | apps/scheduler/src/channel-store.ts:66-68 | the filtered scan counts exactly the active channels that asked for a waterfall |
| Stores.ChannelStore.Remove | apps/scheduler/src/channel-store.ts:23-25 | takes one channel out and keeps the others and their order |
| Stores.SessionStore.CountActive | apps/scheduler/src/session-store.ts:42-44 | counts exactly the open sessions |
| Stores.SessionStore.Create | apps/scheduler/src/session-store.ts:7-20 | stores one open session naming its channel |
| Stores.SessionStore.Close | apps/scheduler/src/session-store.ts:26-32 | removes exactly the named session, and reports whether it was there |
| Schedulers.Scheduler.TuneBegin | apps/scheduler/src/scheduler.ts:36-95 | the code before the await takes the state machine's begin step with the outcome it prescribes, and keeps the invariant |
| Schedulers.Scheduler.AttachSession | apps/scheduler/src/scheduler.ts:104-123 | a session and its channel's listener count change together, and a token is given for exactly the capabilities asked for |
| Schedulers.Scheduler.TuneResume | apps/scheduler/src/scheduler.ts:94-124 | the code after the await takes the success or failure step of its own channel, whatever happened meanwhile |
| Schedulers.Scheduler.Close | apps/scheduler/src/scheduler.ts:126-141 | succeeds exactly for stored sessions and takes the close step |
| Schedulers.Scheduler.GetMetrics | apps/scheduler/src/scheduler.ts:159-165 | every stored session is counted as active, active channels plus suspended tunes make up the stored channels, and the third number counts the active channels with a waterfall |

## Left out

- Floating-point rounding, and the actual values of the trigonometric, Bessel and logarithm functions: exact reals and stated laws stand in for them.
- DesignFirLowpass: how much the Kaiser-windowed ideal taps themselves let through outside their band is not bounded.
- Compute: size 1 is excluded, because the window then divides zero by zero; so is size 2^31 with too short an input, which the source does not refuse but reads past its end.
- RobustColumn: tones between two bins, and several signals at once, are not covered.
- BuildPacket: window ids of 2^32 - 4 bytes or more, whose packet length wraps at the sender, are encoded here as if it did not.
- Deliver: a datagram that is short enough is taken to arrive; loss and reordering on the way are not modelled.
- Stop: late events are a schedule given to the call; what other threads do to a worker's queue at any other time is covered by the queue's runs.
- AgreementExactly: the message to the scheduler is taken to arrive at once; it is sent without waiting, and a failure is only logged.
- SynthesiseSignal: random draws are inputs, and amplitudes are given in steps of 16 bits, where the source computes them from decibels. Conversions out of the 16-bit range, undefined in the source, are taken modulo 2^16.
- FftInPlace: the three nested loops of one function are three methods; ids and lengths are unbounded integers.
- TuneResume: the object handed to the caller of a tune is the stored channel itself; channels are values here, so later changes seen through that reference are not modelled. Timestamps, health records and stream paths are left out of the records.
- Channel reclamation: an idle timeout is configured and read by nothing; its absence is what `ActiveGrows` states.
- Adding and deleting workers over HTTP, routes, JSON, sockets, configuration, logging, the session gateway, the registry, the web UI and the RTL-SDR driver: input and output.
- The worker's window centre and rate: the scheduler's request does not carry them; a worker is assumed to be given those of its window.
