# remoteled — a verified model of the LED frame path

remoteled drives a 300-pixel RGB LED strip from live audio. The audio
monitor (`mled/mled.py`) captures S32_LE stereo samples and mixes them down
to mono. It cuts the stream into 40 ms windows and measures bass, mid and
treble in each window. It renders the three levels as three coloured lines
growing out from the centre of the strip. Each frame is sent as the Lua
chunk `return {v0,...,v899}`. The Lua sandbox server (`luasand/main.cpp`)
reassembles WebSocket fragments into a 1 MiB buffer per client and runs each
complete message as Lua. A frame of exactly 900 values is written to the
serial port and answered with "Accepted". The last accepted code is then
re-run periodically with a frame counter. A test server
(`server/main.py`) writes random 300-pixel pictures straight to the serial
port instead.

The model has one module per part:

- `LineRenderer` (mled_render.dfy) is `generate_lua_code`. `Frame` gives
  each channel of each pixel as a function of the pixel's distance from the
  centre and that channel's own band. `RenderLeds` is the source's
  imperative procedure on an array: fill with black, walk outward, force
  the centre. It is proved to produce exactly `Frame`, and lemmas state the
  frame's bounds, symmetry, fall-off and channel independence.
- `LuaTable` (mled_luatable.dfy) is the text form `return {…}`, with an
  independent reader and the round trip between them.
- `BandAnalysis` (mled_bands.dfy) is the post-FFT band step of
  `analyze_frequency_bands`: inclusive band masks, means and normalisation.
- `AudioMonitor` (mled_monitor.dfy) is the window buffer of
  `_calculate_frequency_loop`, the bounded histories of
  `_get_adaptive_boost_factors`, and a `Monitor` class whose loop is proved
  against a fold over the dequeued chunks.
- `SampleDecode` (mled_decode.dfy) is the S32_LE stereo-to-mono conversion
  of `_read_audio_loop`, including the errors numpy raises.
- `LuaSandbox` (luasand.dfy) is `runLuaSandboxed`, `ClientData` (fragment
  buffer and reply table) and `Sandbox` (client table, the five callbacks,
  `wsDataReceived` and one turn of the periodic thread). The Lua
  interpreter is a function parameter from (code, counter) to what
  `run_sandboxed` returns. Serial writes are recorded in `serialWrites`,
  and the reply handed to `lws_write` is the writable callback's result.
- `SerialFrames` (server_frames.dfy) is `write_pic` and the random picture
  of `main`.
- `EndToEnd` (end_to_end.dfy) follows one rendered frame through a fresh
  sandbox. It is accepted and written to the serial port unchanged, given
  that `run_sandboxed` evaluates every printable `return {...}` chunk to
  the table `LuaTable.ParseLuaTable` reads from its text
  (`EndToEnd.ReadsTableLiterals`). `LuaTable.ParseLuaCode` links that
  reading to the chunk the renderer writes.

Levels and magnitudes are reals. Python's `int()` of a non-negative real is
`Floor`. C integer conversions (`uint8_t`, `int`) and C's truncating `/` and
`%` are written out.

Some behaviour of the code is worth stating outright:

- Rendering applies no centre shift and no RMS scale. The reach is
  `int(level * (pix_num // 2))` and the intensity is truncated with `int()`,
  not rounded.
- `_get_adaptive_boost_factors` records the histories but always returns
  (2.0, 1.5, 8.0). It has no target level and no clamped adaptive gain.
- The window buffer takes at most one window per dequeued chunk. Windows
  therefore depend on how the samples were chunked
  (`AudioMonitor.ChunkingMatters`), and chunking invariance does not hold.
  Every sample is still kept, in order (`AudioMonitor.WindowsKeepSamples`).
- Below 25 Hz the window length is 0. Each window is then empty, the FFT
  raises on it, and the exception handler drops it, so nothing is recorded
  or queued (`AudioMonitor.Monitor.FeedChunk`).

## Model

| member | source | states |
|---|---|---|
| LuaTable.Decimal | mled/mled.py:177 | `str(n)` of a non-negative int is a non-empty string of decimal digits |
| LuaTable.DecimalRoundTrip | mled/mled.py:177 | `str(n)` of a non-negative int reads back as `n` |
| LuaTable.JoinCommas | mled/mled.py:177 | the joined text starts with the first part, and a comma follows it when there are more parts |
| LuaTable.SplitJoin | mled/mled.py:177 | splitting `",".join(parts)` at commas gives back `parts` when no part holds a comma |
| LuaTable.LuaCode | mled/mled.py:177-178 | the chunk starts with `return {` and ends with `}` |
| LuaTable.ParseLuaTable | mled/mled.py:178 | text is read as a table only when it starts with `return {` and ends with `}`, and the table is empty iff nothing lies between them |
| LuaTable.ParseLuaCode | mled/mled.py:177-180 | reading the chunk back gives exactly the values, in order and nothing else |
| LineRenderer.Clamp | mled/mled.py:116-118 | the level is in [0,1], equals the input inside it and saturates outside it |
| LineRenderer.Reach | mled/mled.py:121-127 | the reach lies in [0, centre], is 0 for a level ≤ 0 and the full centre for a level ≥ 1 |
| LineRenderer.Intensity | mled/mled.py:136-142 | the quadratic fall-off is at most 170, is 0 at the tip and is below 170 off the centre |
| LineRenderer.IntensityNonIncreasing | mled/mled.py:136-142 | the intensity never grows with the distance from the centre |
| LineRenderer.ChannelValue | mled/mled.py:136-174 | a channel value is at most 170, is 0 beyond its band's reach, is 170 at the centre iff the reach is positive, and is below 170 off the centre |
| LineRenderer.Frame | mled/mled.py:130-134 | the frame holds 3·pix_num values |
| LineRenderer.FrameChannel | mled/mled.py:145-174 | channel c of pixel p depends only on band c's reach and p's distance from the centre |
| LineRenderer.LightPixel | mled/mled.py:147-163 | one side of one step of the walk writes each band's intensity into its own channel of one pixel and leaves the rest |
| LineRenderer.WalkOutward | mled/mled.py:145-164 | after the outward walk every array entry is the value the walk specification gives |
| LineRenderer.FillBlack | mled/mled.py:129-133 | every entry of the `3·pix_num` array is 0 |
| LineRenderer.ForceCentre | mled/mled.py:166-174 | each centre channel whose band has a positive reach is 170, and every other entry is unchanged |
| LineRenderer.RenderLeds | mled/mled.py:129-174 | the imperative fill, walk and centre forcing produce exactly `Frame` |
| LineRenderer.GenerateLuaCode | mled/mled.py:101-180 | the returned chunk is the text of `Frame` and reads back as `Frame` |
| LineRenderer.ReachBounded | mled/mled.py:116-127 | every band's reach lies in [0, pix_num // 2] |
| LineRenderer.FrameBounded | mled/mled.py:136-174 | every value of the frame lies in [0, 170] |
| LineRenderer.CenterChannel | mled/mled.py:166-174 | the centre channel is 170 when its band reaches anywhere and 0 otherwise |
| LineRenderer.ZeroReachIsDark | mled/mled.py:145-174 | a band with reach 0 leaves its channel 0 in every pixel, centre included |
| LineRenderer.DarkBeyondReach | mled/mled.py:136-164 | a channel is 0 at every distance ≥ its band's reach |
| LineRenderer.FallOffNonIncreasing | mled/mled.py:136-164 | a pixel nearer the centre is never darker in any channel |
| LineRenderer.Mirrored | mled/mled.py:145-164 | pixels centre+i and centre−i carry the same value in every channel |
| LineRenderer.ChannelsIndependent | mled/mled.py:145-174 | channel c depends on band c's level only; bass, mid and treble write only red, green and blue |
| LineRenderer.FullLevelsOnDefaultStrip | mled/mled.py:101-180 | full levels on 300 pixels give 900 values with the centre pixel at (170,170,170) |
| LineRenderer.FourPixelExample | mled/mled.py:101-180 | levels (1, 0.5, 0.25) on 4 pixels give the frame computed by hand |
| BandAnalysis.BinFrequencies | mled/mled.py:74-78 | the positive half of `fftfreq` has n // 2 bins; the first is 0 Hz, neighbouring bins are rate/n apart, and every bin lies in [0, rate/2) |
| BandAnalysis.BandBins | mled/mled.py:81-83 | bin k lies in a band's inclusive range iff lo·n ≤ k·rate ≤ hi·n |
| BandAnalysis.DefaultBandBins | mled/mled.py:51-83 | with 1764-sample windows at 44.1 kHz, bass selects bins 1 to 10, mid 10 to 120 and treble 120 to 800 |
| BandAnalysis.SeqMax | mled/mled.py:91 | the maximum bounds every magnitude and is one of them |
| BandAnalysis.BandMean | mled/mled.py:86-88 | 0.0 when no bin lies in the band; otherwise the mean times the bin count is the sum of the in-band magnitudes |
| BandAnalysis.MaxMagnitude | mled/mled.py:91 | 1.0 for an empty spectrum; otherwise a bound of every magnitude that is one of them |
| BandAnalysis.Normalize | mled/mled.py:94-96 | the boosted fraction of the maximum capped at 1.0: at most 1.0, at most the boosted fraction, and equal to one of the two |
| BandAnalysis.AnalyzeBands | mled/mled.py:57-98 | with a positive maximum every level is at most 1.0; otherwise the three band means are returned unscaled |
| BandAnalysis.BandMeanBounds | mled/mled.py:86-88 | a band's mean of non-negative magnitudes lies between 0 and the largest magnitude |
| BandAnalysis.EmptyBandIsZero | mled/mled.py:86-96 | for each of bass, mid and treble, a band with no bin in range yields 0.0 whatever the boosts |
| BandAnalysis.LevelsNonNegative | mled/mled.py:81-98 | non-negative magnitudes and boosts give non-negative levels |
| BandAnalysis.ZeroPeakGivesZero | mled/mled.py:91-98 | with a zero maximum the means are returned unscaled, and are 0 for non-negative magnitudes |
| BandAnalysis.SilenceGivesZero | mled/mled.py:81-98 | an all-zero spectrum gives levels (0, 0, 0) |
| BandAnalysis.UnitBoostIsFraction | mled/mled.py:91-96 | for each of bass, mid and treble, the first pass with unit boosts gives the band mean as a fraction of the maximum |
| BandAnalysis.SharedEdgeBins | mled/mled.py:51-53 | at 44.1 kHz with 1764-sample windows the bins at 250 Hz and 3000 Hz each fall into two bands |
| AudioMonitor.SamplesPerInterval | mled/mled.py:314 | the window length is the floor of rate · 0.04, and is 0 iff the rate is below 25 Hz |
| AudioMonitor.DefaultWindowLength | mled/mled.py:314 | at 44100 Hz a window holds 1764 samples |
| AudioMonitor.TakeWindow | mled/mled.py:320-326 | a window is taken iff enough samples are buffered; it has exactly the window length and window + rest is the old buffer + chunk |
| AudioMonitor.Windows | mled/mled.py:316-326 | the fold over the chunks takes at most one window per chunk, each of exactly the window length |
| AudioMonitor.WindowsKeepSamples | mled/mled.py:313-326 | the windows followed by the remaining buffer are all pushed samples in order |
| AudioMonitor.ChunkingMatters | mled/mled.py:316-326 | the same samples chunked differently give different windows |
| AudioMonitor.BoundedAppend | mled/mled.py:298-306 | below the cap the value is appended; at the cap the oldest entry is dropped and the value appended; a history within the cap stays within it and ends with the new value |
| AudioMonitor.BoundedAppendFifo | mled/mled.py:297-306 | appending to a full history evicts the oldest entry; the newest is last; the length never exceeds the cap |
| AudioMonitor.Recorded | mled/mled.py:295-306 | a history within the cap stays within it, grows by at most the number of values recorded, and ends with the last value recorded |
| AudioMonitor.RecordedKeepsNewest | mled/mled.py:295-306 | after any number of appends the history is the newest min(n, cap) values in order |
| AudioMonitor.Monitor.constructor | mled/mled.py:186-197 | the histories start empty with a cap of 100 |
| AudioMonitor.Monitor.AttachQueue | mled/mled.py:367 | the sender's queue starts empty and the histories are untouched |
| AudioMonitor.Monitor.GetAdaptiveBoostFactors | mled/mled.py:295-309 | each history gets its value appended with oldest-first eviction; the result is (2.0, 1.5, 8.0) whatever the input |
| AudioMonitor.Monitor.AnalyzeWindow | mled/mled.py:328-339 | the unit-boost levels are recorded and the fixed-boost levels are queued when a queue is attached |
| AudioMonitor.TrackedSnoc | mled/mled.py:328-339 | analysing one more window appends its unit-boost levels to the histories and its fixed-boost levels to the queue, as recording the longer window list says |
| AudioMonitor.Monitor.FeedChunk | mled/mled.py:319-344 | the chunk is buffered; a full window of positive length is analysed (levels recorded, boosted levels queued); with no window or an empty one, histories and queue are unchanged; the rest is what `TakeWindow` keeps |
| AudioMonitor.Monitor.LoopStep | mled/mled.py:316-344 | one iteration keeps the histories and the queue equal to the levels of the windows analysed so far, and the fold's remaining windows after them |
| AudioMonitor.Monitor.CalculateFrequencyLoop | mled/mled.py:311-344 | over a sequence of chunks, the histories and the queue hold exactly the levels of the windows analysed (every window the fold takes, none below 25 Hz), and the rest stays buffered |
| SampleDecode.Int32LE | mled/mled.py:278 | a little-endian 32-bit sample lies in the int32 range |
| SampleDecode.Int32RoundTrip | mled/mled.py:278 | reading the four bytes of an int32 gives it back |
| SampleDecode.MonoSample | mled/mled.py:282-286 | the mean of two int32 channels scaled by 1/2^31 lies in [-1, 1) |
| SampleDecode.DecodeStereo | mled/mled.py:276-286 | decoding succeeds iff the byte count is a multiple of 8; otherwise it names numpy's error; one sample per 8 bytes, each in [-1, 1) |
| SampleDecode.DecodeEncodedStereo | mled/mled.py:276-286 | the bytes of any stereo frames decode to the scaled mean of each frame's two channels |
| SampleDecode.SilenceDecodesToZero | mled/mled.py:276-286 | all-zero bytes decode to silence |
| LuaSandbox.ToUint8 | luasand/main.cpp:95 | the byte is the value modulo 256, unchanged for values in 0..255 |
| LuaSandbox.ToInt32 | luasand/main.cpp:98 | the delay is in the int32 range, unchanged for values already in it |
| LuaSandbox.AcceptedFrame | luasand/main.cpp:90-97 | an accepted frame has LED_NUM = 900 bytes |
| LuaSandbox.CString | luasand/main.cpp:86 | the string Lua receives is the buffer up to its first NUL |
| LuaSandbox.RunLuaSandboxed | luasand/main.cpp:84-112 | success iff Lua returned true and exactly 900 entries; then byte i is entry i mod 256 and the delay is updated; Lua's message, up to its first NUL as `lua_tostring` and `strlen` read it, is handed back iff Lua returned false |
| LuaSandbox.PrintSlotAsWritten | luasand/main.cpp:53-56 | as written, a slot is handed out iff `outputPos < sizeof(output)` = 320, and the slot is `outputPos` |
| LuaSandbox.PrintGuardAsWrittenOverflows | luasand/main.cpp:53-56 | with 20 replies queued the guard as written lets a 21st through to slot 20 |
| LuaSandbox.PrintSlot | luasand/main.cpp:53-56 | the corrected guard hands out a slot iff fewer than 20 are taken, and that slot is the next one |
| LuaSandbox.Enqueue | luasand/main.cpp:52-66 | queued replies stay in place; the queue grows, by the message at its end, iff a slot is free; it never exceeds 20 |
| LuaSandbox.EnqueueAll | luasand/main.cpp:52-66 | queued replies stay in place; the queue never exceeds 20; when everything fits, every message is queued in order |
| LuaSandbox.ClientData.constructor | luasand/main.cpp:32-38 | a new client has no connection, an empty buffer and no replies |
| LuaSandbox.ClientData.Append | luasand/main.cpp:119-121 | the fragment is appended after the bytes received so far; earlier bytes and bytes past the new end are untouched |
| LuaSandbox.ClientData.Terminate | luasand/main.cpp:123 | the NUL lands right after the message, inside the buffer, and nothing else changes |
| LuaSandbox.ClientData.Print | luasand/main.cpp:52-66 | the C string's content (its `strlen` bytes, no NUL) is queued when a slot is free, and dropped otherwise |
| LuaSandbox.ClientData.TakeReply | luasand/main.cpp:184-195 | nothing with no reply queued; otherwise the newest reply leaves first, and another callback is requested iff replies remain |
| LuaSandbox.MoreAsWritten | luasand/main.cpp:189 | `(bool)outputPos > 0` is true iff replies remain |
| LuaSandbox.NextCounter | luasand/main.cpp:272-274 | the counter stays in [0, 0xFFFF] and counts up by one below the wrap |
| LuaSandbox.CounterAfter | luasand/main.cpp:259-276 | after k successful runs since a reset the counter is (1 + k) mod 0x10000 |
| LuaSandbox.SleepMillis | luasand/main.cpp:278-284 | the sleep is exactly the delay in milliseconds, and none for a negative delay |
| LuaSandbox.Sandbox.constructor | luasand/main.cpp:259-262 | no clients, no stored code, no reset pending, a delay of 1000 ms and a counter of 1 |
| LuaSandbox.Sandbox.DataReceived | luasand/main.cpp:114-137 | an overflowing fragment returns 1 and changes nothing; otherwise it is appended, and a final fragment is run and always empties the buffer |
| LuaSandbox.Replies | luasand/main.cpp:89-131 | at most one reply: Lua's error text up to its first NUL when Lua returned false, "Accepted" when the table is accepted, and none when Lua returned true with a table that is not 900 entries long |
| LuaSandbox.CopyBytes | luasand/main.cpp:129 | `memcpy` makes the first n bytes of the destination those of the source and leaves the rest |
| LuaSandbox.Sandbox.Accept | luasand/main.cpp:128-131 | an accepted message appends its frame to the serial writes, stores the client's code and its NUL at the start of `gLuaCode`, sets the reset request and queues "Accepted"; the client table, delay and counter are untouched |
| LuaSandbox.Sandbox.RunMessage | luasand/main.cpp:124-133 | the serial write, the stored code, the reset request and "Accepted" happen iff the message is accepted; Lua's error text up to its first NUL is queued when Lua returned false; a true result whose table is not 900 entries long gets no reply at all |
| LuaSandbox.Sandbox.FilterNetworkConnection | luasand/main.cpp:142-147 | a connection is refused iff more than 8 clients are recorded |
| LuaSandbox.Sandbox.Established | luasand/main.cpp:150-155 | the client's entry exists and records its connection; a new entry is fresh and empty; an existing one keeps its received bytes and replies; other entries are untouched |
| LuaSandbox.Sandbox.Closed | luasand/main.cpp:157-160 | the entry is erased and nothing else changes |
| LuaSandbox.Sandbox.Receive | luasand/main.cpp:162-173 | unknown or closing clients are ignored; an overflow closes the client with -1 and changes nothing else; a non-final fragment is appended; a final one is run, with the serial write, the stored code (message and NUL), the reset and the replies as `DataReceived` states; other clients' bytes and replies are untouched |
| LuaSandbox.Sandbox.Writeable | luasand/main.cpp:175-197 | 0 for an unknown client, -1 for a closing one, otherwise the newest reply is sent and another callback is requested iff replies remain; the client table, the client's received bytes and every other client are untouched |
| LuaSandbox.Sandbox.PeriodicStep | luasand/main.cpp:263-284 | a pending reset sets the delay, restarts the counter at 1 and clears the flag; otherwise stored code is run and a success writes its frame and advances the counter |
| SerialFrames.PackPixel | server/main.py:21 | one pixel packs to three bytes |
| SerialFrames.Packed | server/main.py:18-21 | packing succeeds iff every component is in 0..255, giving 3·n bytes |
| SerialFrames.PackedAt | server/main.py:20-21 | bytes 3i..3i+2 are pixel i's red, green and blue, with no header or separator |
| SerialFrames.Unpack | server/main.py:20-21 | a 3·n-byte frame holds n pixels, pixel i being bytes 3i, 3i+1 and 3i+2 |
| SerialFrames.UnpackPacked | server/main.py:18-21 | the receiver recovers every pixel of a written picture |
| SerialFrames.RejectsOutOfRange | server/main.py:21-23 | a component outside 0..255 anywhere means nothing is written |
| SerialFrames.WritePic | server/main.py:18-24 | the loop builds exactly the packed frame, or stops before writing |
| SerialFrames.RandomPicture | server/main.py:30-32 | a test picture has 300 pixels |
| SerialFrames.RandomFrameIsDraws | server/main.py:30-33 | each test frame is 900 bytes, the random draws in the order drawn |
| EndToEnd.RenderedCodeFits | mled/mled.py:176-180 | the chunk for a 300-pixel frame is printable ASCII and fits the 1 MiB buffer |
| EndToEnd.PrintableCString | luasand/main.cpp:86 | the C string Lua receives for a printable chunk is the whole chunk |
| EndToEnd.RenderedFrameAccepted | luasand/main.cpp:89-101 | a rendered 300-pixel frame is accepted and its bytes are the frame unchanged |
| EndToEnd.DeliverMessage | luasand/main.cpp:162-173 | an accepted single-fragment message to a fresh sandbox gives rc 0, one serial write of its frame and the reply "Accepted" |
| EndToEnd.DeliverRenderedFrame | luasand/main.cpp:114-137 | for a Lua runtime that reads table literals as `ParseLuaTable` does, a rendered frame sent as its chunk is written to the serial port unchanged and answered "Accepted" |

## Left out

- The Hann window, the FFT and the magnitudes (mled/mled.py:70-78) are floating-point numerics. `BandAnalysis` and `AudioMonitor` take the spectrum as an input.
- The capture plumbing of mled/mled.py is I/O and concurrency: `arecord`, `lsmod`, the reader and analysis threads, queue timeouts and `stop_monitoring`. `CalculateFrequencyLoop` consumes a given finite sequence of chunks instead of a blocking queue.
- `WebSocketClient`, asyncio and `main` of mled/mled.py are the network client and its event loop.
- mled/check_alsa_devices.py only runs device listing commands and prints.
- The Lua interpreter, init.lua's `run_sandboxed` and `lua_timestamp` are outside the model. Lua is a function parameter, and `EndToEnd` takes as given that it evaluates every printable `return {...}` chunk of decimal numbers to true and the table `LuaTable.ParseLuaTable` reads (`EndToEnd.ReadsTableLiterals`).
- libwebsockets is outside the model. Handles are plain identities; `lws_get_context`, `lws_get_protocol`, `lws_close_reason` and the server's `main` are not modelled.
- The `lws_callback_on_writable_all_protocol` request and the `cout` log in `print` are left out. The malloc, padding and free of reply buffers are left out too; a reply is its bytes.
- The serial `write` is recorded as a frame in `serialWrites`; short writes and errors of `write` are not modelled.
- `openSerialPort`, `open_serial`, port discovery, `random` and `time.sleep` are device setup and I/O. Random draws are a parameter of `SerialFrames.RandomPicture`.
- Mutexes are left out: every method is one uninterrupted step, so interleavings of the periodic thread with the callbacks are not modelled.
- LuaSandbox.Sandbox.PeriodicStep: `sleep` is the total sleep when no reset arrives. The early wake-up when a reset arrives during the 50 ms naps is concurrency and is not modelled.
- Floating-point rounding is not modelled. Levels, intensities and samples are reals, and `float32` conversion of samples is exact here. Agreement with CPython at truncation boundaries is not claimed.
- LuaSandbox.ClientData.Print: a second result of `run_sandboxed` that is neither a string nor a number makes `lua_tostring` return NULL, which `strlen` in `print` then dereferences (luasand/main.cpp:103-105, 56). The model always has a message, the bytes of a string.
- SampleDecode.MonoSample: `s < 1.0` holds over the reals only. The `float32` cast at mled/mled.py:286 can round a mean just below 2^31 up to exactly 1.0.
- LineRenderer.Reach: `pix_num` is a natural number, so negative strip lengths are not modelled.
- SampleDecode.DecodeStereo: a short final read and the end of the stream are not modelled; each chunk is decoded on its own.

## Findings

| source | as written | input that shows it | evidently intended | confidence | as-written member | corrected member |
|---|---|---|---|---|---|---|
| luasand/main.cpp:53 | `print` drops a reply only once `outputPos >= sizeof(output)`. That is the byte size of the 20-entry array, 320 on a 64-bit target, so `output[outputPos]` is written for `outputPos` from 20 to 319 | a client whose 21st reply is queued before any writable callback has run, e.g. one that keeps sending messages while not reading its socket: the 21st `print` writes `output[20]`, past the array | drop the reply once all 20 slots are taken (`outputPos >= 20`) | high; not executed | LuaSandbox.PrintGuardAsWrittenOverflows | LuaSandbox.ClientData.Print |
