# Verified models of slopgb

slopgb is a Game Boy and Super Game Boy emulator workspace. This project models the parts of it whose
behaviour over whole runs is hard to see from any one body, and proves what those parts are for.

* **SoundFont and BRR** (`Brr`, `BrrLossless`, `Utf8`, `Utf8Table`, `Riff`, `Sf2`, `Sf2Writer`, `Sf2Reader`,
  `Sf2Lookup`, `Sf2Zones`, `Sf2RoundTrip`, `Sf2Size`, `Sf2Layout`, `Mapping`, `BankExport`, `BankFields`,
  `BankRoundTrip`): the ADPCM codec with its exhaustive encoder, RIFF framing, the SoundFont printer and
  parser, and the exporter and importer of a sample bank. The results go from one block up to a whole bank
  that is exported to bytes, parsed, encoded, laid out in 64 KiB and decoded again.
* **Clocked peripherals** (`Serial`, `SerialTiming`, `SerialBits`, `SerialConservation`, `SerialLink`,
  `Timer`, `TimerTiming`, `TimerWrites`, `CycleClock`): the serial port alone and as one of two linked
  machines with their frontends, the TIMA timer, the deferred-commit CPU clock.
* **Super Game Boy input** (`SgbReceiver`, `SgbPackets`, `Joypad`): the command-packet receiver, the key
  matrix and its save state.
* **SNES side** (`Dma`, `DataTrn`, `DataTrnPairing`, `DataTrnStaging`, `Flush`, `FlushTiming`): the chunked
  DMA engine, the pairing of DATA_TRN packets with screen captures, the clock pump.
* **Dates** (`Calendar`): day numbers to Gregorian dates.

The functions that the main operations are proved against are described a second time by lemmas that do not use
them: by the positions of bytes and bits, by arithmetic, or by the definition of the standard concerned.

Objects that the program updates in place are classes; each method's contract ties the new state to a function
on values, and the lemmas are about that function and its runs. Where one loop nest of the program is long,
its inner loops are methods of their own (`Brr.BestBlock`, `Dma.Engine.WriteChunk`, `Flush.Pump.PumpFrame`).

How data is represented: machine words are ranges of integers with wrap-around written out. Serial bytes are
their eight bits, most significant first; command bits are least significant first, as they arrive. SC keeps its
three implemented bits. A name is its bytes, and reading one decodes it lossily as UTF-8. Plugins are memories,
ordered traces of what they are sent and asked, or functions of all accesses before. Sums that the program takes
modulo a field's width are unbounded and truncated when the field is written. Function-valued parameters stand
for the floating-point conversions.

What the code does against what is said about it:

* Decoding and encoding a BRR chain again is lossless exactly when some filter-0 candidate fits the first
  block (`BrrLossless.ReencodingIsLossless`). A chain whose first block uses filter 0 always qualifies, with
  any shifts; `BrrLossless.FilteredStartCanLose` names one that does not.
* The comment on `CycleClock::write` (`crates/slopgb-core/src/cycle_clock.rs:108-112`) says that a write
  without debt still conserves the 4 T-cycles of its M-cycle. An early write does not: it adds 5 or 6
  (`CycleClock.FlushConserves`).
* The comment in `poll` (`crates/slopgb-sgb-coprocessor/src/commands.rs:18-21`) says that a packet still
  pending had a payload identical to the one before. A packet is pending exactly when its payload has not come,
  was captured but not seen by a poll, or had the checksum before it (`DataTrnPairing.PendingExactly`). So the
  comment holds of payloads with distinct checksums when each is polled before the next packet
  (`DataTrnPairing.PromptRunsWaitForRepeats`); `DataTrnPairing.FirstPayloadCanWait` and `NewPayloadCanWait` are
  runs where it fails. The payload still goes to its own packet (`DataTrnPairing.PollsPair`).
* The comment in `read_state` (`crates/slopgb-core/src/joypad.rs:525-529`) says that no bad state can arm a
  later panic. The write index is loaded unchecked (line 519): a save with its write and stop flags set and a
  write index beyond the command buffer loads, and two writes later `tee_packet` slices outside the buffer
  (`Joypad.CorruptSaveTraps`). From no other state that loads can writes panic
  (`Joypad.LoadedReceiverCanTrap`).
* `write` makes a file for no instruments at all, and one whose generators no bag record can count, and `parse`
  refuses both (`Sf2RoundTrip.ReadBack`). So a bank of more than 5957 instruments is exported to a file that
  cannot be read (`BankRoundTrip.ExportIsReadBack`).

## Model

| member | source | states |
|---|---|---|
| Brr.Decode | crates/slopgb-sf2/src/brr.rs:82-116 | decoding returns the samples of the chain that ends at the first end-flag block, with history carried through, and fails exactly when no chain lies in the buffer |
| Brr.SampleIsDetermined | crates/slopgb-sf2/src/brr.rs:30-63 | a sample is the nibble at half its shift over a prediction with gains 15/32, 61/64 and -60/64, or 115/128 and -104/128, less exactly the bits the shifts drop; saturated, doubled and cut to 16 bits |
| Brr.DecodedSample | crates/slopgb-sf2/src/brr.rs:87-114 | every sample of a decoded chain is that, by the header and nibble bytes of the buffer and the two samples in front |
| Brr.NearestIsNearest | crates/slopgb-sf2/src/brr.rs:168-179 | the nibble search finds the first nibble whose decoded sample is closest |
| Brr.TrialErrorIsSquared | crates/slopgb-sf2/src/brr.rs:160-184 | a candidate is judged by the sum of its squared differences |
| Brr.BestBlock | crates/slopgb-sf2/src/brr.rs:155-190 | the block search returns the first allowed filter and shift with the least squared error over all candidates |
| Brr.PackedBlockDecodes | crates/slopgb-sf2/src/brr.rs:196-203 | a packed block decodes to the samples of its search |
| Brr.Encode | crates/slopgb-sf2/src/brr.rs:136-205 | every block is the best candidate against the history a decoder has there; the loop block is the nearest block boundary inside the chain |
| Brr.LoopBlockIsNearest | crates/slopgb-sf2/src/brr.rs:137-144 | the loop block is the one that begins nearest to the loop point, the later of two |
| BrrLossless.DegenerateShift | crates/slopgb-sf2/src/brr.rs:33-36 | shifts above 12 decode to what shift 12 gives for nibble -1 or 0 |
| BrrLossless.NoErrorIffExact | crates/slopgb-sf2/src/brr.rs:164-185 | a candidate has no error if and only if it reproduces its target |
| BrrLossless.BlockExactIffFits | crates/slopgb-sf2/src/brr.rs:155-190 | an encoded block reproduces its target if and only if some allowed candidate can |
| BrrLossless.EncodedChainDecodes | crates/slopgb-sf2/src/brr.rs:196-204 | encoder output placed anywhere decodes as one chain, ends at its own last block, and loops if and only if a loop point was given |
| BrrLossless.DecodesUniquely | crates/slopgb-sf2/src/brr.rs:87-114 | a start address has at most one decoding |
| BrrLossless.ReencodingIsLossless | crates/slopgb-sf2/src/brr.rs:122-205 | decode, encode, decode gives the same samples if and only if some filter-0 candidate fits the first block |
| BrrLossless.FilterZeroStartIsLossless | crates/slopgb-sf2/src/brr.rs:122-205 | a chain whose first block uses filter 0 survives re-encoding |
| BrrLossless.FilteredStartCanLose | crates/slopgb-sf2/src/brr.rs:158 | one block with filter 1 that no encoding reproduces |
| BrrLossless.EncodesUniquely | crates/slopgb-sf2/src/brr.rs:136-205 | the encoder's contract leaves no choice |
| Riff.U16OfLe16 | crates/slopgb-sf2/src/riff.rs:74-84 | 16-bit fields come back modulo their width, signed ones exactly |
| Riff.U32OfLe32 | crates/slopgb-sf2/src/riff.rs:78-80 | 32-bit fields come back modulo their width |
| Riff.ParseChunks | crates/slopgb-sf2/src/riff.rs:19-40 | the loop splits any input into sibling chunks or fails, as the recursive reading does, and terminates |
| Riff.ParseIsSplit | crates/slopgb-sf2/src/riff.rs:19-40 | a buffer parses to given chunks if and only if they lie in it one behind the other to its end, and fails if and only if none do |
| Riff.FramingInverse | crates/slopgb-sf2/src/riff.rs:19-64 | any sequence of chunks below 4 GiB is read back as written, odd-length padding skipped |
| Riff.ListInverse | crates/slopgb-sf2/src/riff.rs:44-72 | a list reads back as one chunk, its form and its nested chunks |
| Utf8.LossyIsText | crates/slopgb-sf2/src/riff.rs:88-91 | lossy decoding always gives text, and invents no NUL |
| Utf8.CutText | crates/slopgb-sf2/src/riff.rs:88-98 | text cut at a field's width decodes to the whole of it only if what is cut is a last U+FFFD |
| Utf8Table.EncodedIsChar | crates/slopgb-sf2/src/riff.rs:88-91 | the encoding of every scalar value is one character |
| Utf8Table.CharIsEncoded | crates/slopgb-sf2/src/riff.rs:88-91 | every character is the encoding of a scalar value, so no overlong form, surrogate or value past U+10FFFF is one |
| Utf8Table.MatchedIsLongest | crates/slopgb-sf2/src/riff.rs:88-91 | U+FFFD replaces the longest stretch that begins a character |
| Riff.NameInverse | crates/slopgb-sf2/src/riff.rs:88-100 | a name field gives back the bytes up to the first NUL and the width, decoded lossily; the whole name if and only if it is text without a NUL that fits or that ends in a cut U+FFFD |
| Sf2.SplitFlat | crates/slopgb-sf2/src/reader.rs:127-139 | fixed-size records are cut where they were joined |
| Sf2Writer.BuildSdta | crates/slopgb-sf2/src/writer.rs:57-71 | the sample chunk holds every sample followed by 46 silent points, and the spans say where |
| Sf2Writer.BuildShdr | crates/slopgb-sf2/src/writer.rs:73-91 | one 46-byte header for each sample, then the terminal record |
| Sf2Writer.BuildZones | crates/slopgb-sf2/src/writer.rs:163-174 | generators of all instruments in order, and bag records at their beginnings |
| Sf2Writer.BuildPdta | crates/slopgb-sf2/src/writer.rs:114-189 | the nine tables in their order in one list |
| Sf2Writer.Write | crates/slopgb-sf2/src/writer.rs:193-201 | the whole file |
| Sf2Layout.InfoReads | crates/slopgb-sf2/src/writer.rs:36-51 | the INFO list is read as version 2.1 and two names, terminated to an even length |
| Sf2Layout.SamplesTile | crates/slopgb-sf2/src/writer.rs:53-71 | the samples lie one behind the other from point 0 on, each in front of 46 points of silence, with loop points counted from a sample's start |
| Sf2Layout.PresetHeaders | crates/slopgb-sf2/src/writer.rs:119-136 | preset i has instrument i's name, number i in bank 0 and zone i by the positions of its bytes, and the terminal one, EOP, points behind the last zone |
| Sf2Layout.PresetZones | crates/slopgb-sf2/src/writer.rs:138-144 | the zone of preset i begins at generator i |
| Sf2Layout.PresetGenerators | crates/slopgb-sf2/src/writer.rs:146-151 | generator i has operator 41 and names instrument i, and the terminal one is zero |
| Sf2Reader.ParseShdr | crates/slopgb-sf2/src/reader.rs:119-141 | sample headers without the terminal one; other sizes fail |
| Sf2Lookup.RecordsLie | crates/slopgb-sf2/src/reader.rs:125-188 | records are cut by position, and a rest is dropped |
| Sf2Lookup.HeaderFields | crates/slopgb-sf2/src/reader.rs:127-138 | the fields of a sample header by their byte positions |
| Sf2Reader.FindSampleZone | crates/slopgb-sf2/src/reader.rs:270-302 | the first sample zone over the global zone, malformed zones skipped |
| Sf2Zones.WhenResolved | crates/slopgb-sf2/src/reader.rs:261-309 | an instrument can be read if and only if its bag records are in order and one of its zones is a well-formed one that ends in a sample ID |
| Sf2Zones.ResolvedByIndices | crates/slopgb-sf2/src/reader.rs:270-341 | for any tables, each field of an instrument is the last amount of its operator in its first sample zone, or else in a well-formed first zone in front of it, or else the default; by indices of the generators |
| Sf2Reader.ParseInstruments | crates/slopgb-sf2/src/reader.rs:261-341 | each instrument resolved by its own zones; one without a sample zone fails the file |
| Sf2Reader.Parse | crates/slopgb-sf2/src/reader.rs:215-347 | the file a byte string says, or failure |
| Sf2Lookup.FirstChunk | crates/slopgb-sf2/src/reader.rs:190-192 | the chunk used is the first with its id |
| Sf2Lookup.FirstList | crates/slopgb-sf2/src/reader.rs:194-202 | the list used is the first of its form; lists too short for a form are passed over |
| Sf2Lookup.SampleByPoints | crates/slopgb-sf2/src/reader.rs:238-258 | a sample is cut between its start and its end or the last point, its loop points not below its start |
| Sf2Lookup.TablesByPosition | crates/slopgb-sf2/src/reader.rs:234-347 | tables of fitting sizes are a file if and only if every instrument can be resolved; a sample for each header and an instrument for each record, but for the last |
| Sf2Lookup.FileBegins | crates/slopgb-sf2/src/reader.rs:216-224 | what is read begins with RIFF, a length within the bytes, and sfbk |
| Sf2RoundTrip.PcmInPlace | crates/slopgb-sf2/src/reader.rs:242-248 | a span cuts exactly its own sample out of all sample points |
| Sf2RoundTrip.ShdrFields | crates/slopgb-sf2/src/reader.rs:127-138 | a written sample header reads back field by field |
| Sf2RoundTrip.ZoneIsInstrument | crates/slopgb-sf2/src/reader.rs:276-284 | bag records partition the generators: zone i holds instrument i's |
| Sf2RoundTrip.CrossingIsLost | crates/slopgb-sf2/src/writer.rs:163-174 | the instrument with which the generators pass 65535 gets a bag record that points back, and cannot be read |
| Sf2RoundTrip.LastWins | crates/slopgb-sf2/src/reader.rs:294-298 | the last generator of an operator decides |
| Sf2RoundTrip.GlobalZoneIsDefault | crates/slopgb-sf2/src/reader.rs:287-298 | a global zone supplies exactly the operators the sample zone leaves out |
| Sf2RoundTrip.InstrumentBack | crates/slopgb-sf2/src/reader.rs:311-340 | an instrument's generators give the instrument back, but for what the format cannot hold |
| Sf2RoundTrip.FramesRead | crates/slopgb-sf2/src/reader.rs:216-233 | parsing undoes the framing of every level of a written file |
| Sf2RoundTrip.ReadBack | crates/slopgb-sf2/src/writer.rs:193-201 | what the parser makes of any written file below 4 GiB; a file without instruments, or with more generators than 16 bits count, is refused |
| Sf2RoundTrip.RoundTrip | crates/slopgb-sf2/src/writer.rs:193-201 | a file comes back whole if and only if it has an instrument, fewer than 65536 generators, names that survive their fields, root keys of at most 127, 16-bit sample indices and no key range |
| Mapping.FindLoops | crates/slopgb-sf2/src/mapping.rs:203-208 | a sample loops if and only if some instrument that uses it does |
| Mapping.SourceByRate | crates/slopgb-sf2/src/mapping.rs:212-224 | samples at 32 kHz are encoded as they are, others resampled, and no loop point lies behind the last sample |
| Mapping.LayOut | crates/slopgb-sf2/src/mapping.rs:210-237 | succeeds if and only if all chains fit below 64 KiB, and then the chains and the directory are the sources' own |
| Mapping.ImportSf2 | crates/slopgb-sf2/src/mapping.rs:183-265 | succeeds if and only if the file parses, has 1 to 64 samples, existing sample indices and chains that fit; the three regions |
| Mapping.ChainsTile | crates/slopgb-sf2/src/mapping.rs:226-233 | chains tile from BRR_DEST on without wrap, and each loop address is a block of its own chain |
| Mapping.DirectoryReads | crates/slopgb-sf2/src/mapping.rs:234-235 | the directory bytes give each start and loop address without truncation |
| Mapping.ImportedBankPlays | crates/slopgb-sf2/src/mapping.rs:212-237 | in any memory holding the region, decoding at an entry's start stops at that chain's last block, and loops if and only if a loop point was given |
| BankExport.SrcnOrder | crates/slopgb-sf2/src/mapping.rs:104-111 | exactly the sample numbers in use, each once, in the order of their first use |
| BankExport.ExportSamples | crates/slopgb-sf2/src/mapping.rs:117-157 | one decoded sample for each pair of addresses, found by every sample number that has them; fails exactly when one cannot be decoded |
| BankExport.ExportSf2 | crates/slopgb-sf2/src/mapping.rs:69-180 | succeeds if and only if the tables fit and every sample in use decodes, and writes the file of the bank, its samples numbered by first use |
| BankFields.WhenExportable | crates/slopgb-sf2/src/mapping.rs:76-140 | by the bytes of the bank, when it can be exported |
| BankFields.EntryByBytes | crates/slopgb-sf2/src/mapping.rs:127-132 | a directory entry's start and loop addresses are its two words, low byte first |
| BankFields.LoopPoint | crates/slopgb-sf2/src/mapping.rs:133-157 | an exported sample loops to the beginning of the block its loop address is in, if its chain loops and the address does not lie in front of it |
| BankFields.Names | crates/slopgb-sf2/src/mapping.rs:143-166 | names are the prefix and the number in upper-case hexadecimal of at least two digits |
| Sf2Size.BodySize | crates/slopgb-sf2/src/writer.rs:57-201 | a file is at most twice its sample points and 46, 120 and 400 bytes more for each sample, each instrument and the file |
| BankRoundTrip.ExportFits | crates/slopgb-sf2/src/mapping.rs:69-180 | every size and offset of an exported bank fits its field |
| BankRoundTrip.ExportIsReadBack | crates/slopgb-sf2/src/mapping.rs:159-180 | any exported bank of up to 5957 instruments reads back whole; a larger one is refused by the reader |
| BankRoundTrip.ReimportSucceeds | crates/slopgb-sf2/src/mapping.rs:183-237 | the bytes of an export can be imported if and only if the bank has at most 5957 instruments and 64 distinct samples, and its distinct chains fit behind BRR_DEST |
| BankRoundTrip.LoopsAgree | crates/slopgb-sf2/src/mapping.rs:203-208 | all instruments of an exported sample agree whether it loops |
| BankRoundTrip.TableNames | crates/slopgb-sf2/src/mapping.rs:239-258 | each instrument-table entry begins with its sample number |
| BankRoundTrip.BankSurvives | crates/slopgb-sf2/src/mapping.rs:69-265 | exported to bytes and imported from them, an instrument plays the same samples in as many blocks if and only if some filter-0 candidate fits the first block, and loops to the block it looped to |
| BankRoundTrip.EntriesSurvive | crates/slopgb-sf2/src/mapping.rs:159-258 | where the conversions undo each other, the five bytes of an instrument-table entry behind its sample number survive export and import |
| Serial.SerialPort.MasterEdge | crates/slopgb-core/src/serial.rs:125-181 | one master edge: the new port and whether it raises the interrupt |
| Serial.SerialPort.Tick | crates/slopgb-core/src/serial.rs:187-192 | an M-cycle sample of DIV |
| Serial.SerialPort.DivWrite | crates/slopgb-core/src/serial.rs:201-209 | the edge inside a DIV reset |
| Serial.SerialPort.Write | crates/slopgb-core/src/serial.rs:320-350 | SB and SC writes, the forced edge included |
| Serial.SerialPort.PushLinkIn | crates/slopgb-core/src/serial.rs:261-273 | completes a stalled master or queues the byte |
| Serial.SerialPort.SetLinkConnected | crates/slopgb-core/src/serial.rs:225-242 | unplugging completes a stall and empties the queues |
| Serial.SerialPort.LinkSlaveTransfer | crates/slopgb-core/src/serial.rs:289-300 | an armed slave swaps its byte |
| SerialTiming.TransferAfterEvents | crates/slopgb-core/src/serial.rs:125-181 | the state of a transfer is a function of the edges since its start |
| SerialTiming.CompletionTime | crates/slopgb-core/src/serial.rs:187-192 | without a cable the interrupt comes on exactly the 16th falling edge, DIV resets counted, or the 14th after a forced bit |
| SerialTiming.FreeRunningCompletion | crates/slopgb-core/src/serial.rs:187-192 | on a free-running divider that is the M-cycle at d - d mod P + 16 P, so 4096 behind d - d mod 256 on the slow clock |
| SerialBits.TransferMovesByte | crates/slopgb-core/src/serial.rs:125-181 | without a cable SB loses a bit and takes in a one with every second edge; at completion it is all ones, and what was captured is the byte it held at the SC write, the bit forced out counted |
| SerialBits.UnpluggingIsNoCable | crates/slopgb-core/src/serial.rs:225-242 | a cabled transfer whose peer stays silent, unplugged at any time, leaves the port as if there had been no cable |
| SerialBits.CabledCompletion | crates/slopgb-core/src/serial.rs:143-175 | the eighth shift sends the byte out and takes the oldest peer byte in, or stalls |
| SerialBits.ControlByNumber | crates/slopgb-core/src/serial.rs:320-350 | what the bits of SC mean, and which bit of DIV clocks the port |
| SerialConservation.EdgeConserves | crates/slopgb-core/src/serial.rs:143-175 | an eighth shift ships its byte, and completes or stalls |
| SerialConservation.RunConserves | crates/slopgb-core/src/serial.rs:125-300 | over every run of a connected port peer bytes are neither lost, invented nor reordered, and every eighth shift is a completion, the stall, or an abandoned stall |
| SerialLink.StepKeepsPhase | crates/slopgb/src/link.rs:511-640 | no step of two linked machines and their frontends leaves, skips or goes back in the phases of an exchange |
| SerialLink.RunStaysInPhase | crates/slopgb/src/link.rs:511-640 | under every interleaving the pair is in a phase, clocking exactly until the edges are used up |
| SerialLink.ExchangeIsExact | crates/slopgb/src/link.rs:511-640 | from the SC write on, whenever the slave arms, the master's byte is in one place or the slave's is on its way back, or the bytes are swapped with one interrupt on each side; the master stalls or is done exactly from its 16th edge |
| SerialLink.PumpCompletes | crates/slopgb/src/link.rs:582-640 | one move of each byte completes the exchange, buffered or not |
| SerialLink.BytesWaitInOrder | crates/slopgb/src/link.rs:600-621 | a master byte never overtakes one that waits, and at most 1024 wait |
| SerialLink.OldestByteGoesFirst | crates/slopgb/src/link.rs:582-596 | the oldest byte that waits goes to an armed port or a stalled master, or goes on waiting |
| SerialLink.AnswerNeedsStall | crates/slopgb/src/link.rs:622-631 | an answer completes a stalled master and is dropped otherwise |
| SgbReceiver.Sgb.JoypWrite | crates/slopgb-core/src/joypad.rs:150-177 | a P1 write as the receiver sees it |
| SgbReceiver.WriteKeepsValid | crates/slopgb-core/src/joypad.rs:150-306 | the receiver invariant: players, queue cap, zero bits past the write index, packet boundary while a stop bit is due |
| SgbReceiver.WriteKeepsSane | crates/slopgb-core/src/joypad.rs:150-306 | a write that does not panic keeps every loadable state one |
| SgbPackets.TrainDecodes | crates/slopgb-core/src/joypad.rs:194-277 | from every idle reachable state a packet's pulse train is decoded to that packet |
| SgbPackets.HeaderBits | crates/slopgb-core/src/joypad.rs:183-192 | by the number in the header byte: the packets announced are its remainder by 8, or one for 0 and for the bits of 0xF1; the multiplayer request is 0x11 above the three low bits |
| SgbPackets.CommandAssembles | crates/slopgb-core/src/joypad.rs:183-306 | as many trains as the header byte announces yield their concatenation as the command and nothing before, or set the player count by byte 1 modulo 4; each packet is queued, and the controllers have taken turns |
| SgbPackets.PulsesExpected | crates/slopgb-core/src/joypad.rs:150-265 | which pulses are taken, and which writes report a started transfer |
| SgbPackets.BadStopBit | crates/slopgb-core/src/joypad.rs:225-232 | a one for a stop bit drops all that was received, queues nothing, and the next reset starts afresh |
| SgbPackets.ResetRestarts | crates/slopgb-core/src/joypad.rs:246-262 | a train that begins in the middle of a packet is decoded as from scratch |
| Joypad.KeyMatrix.Write | crates/slopgb-core/src/joypad.rs:464-476 | a P1 write: the receiver's step, and the interrupt on any falling line |
| Joypad.KeyMatrix.Press | crates/slopgb-core/src/joypad.rs:398-407 | a press clears one line and interrupts if it was exposed |
| Joypad.KeyMatrix.SetSgbFeed | crates/slopgb-core/src/joypad.rs:378-387 | fed pads replace the keys and can interrupt |
| Joypad.InputLine | crates/slopgb-core/src/joypad.rs:344-363 | an input line is low if and only if a selected column has it low, in the selected controller's latch where pads are fed |
| Joypad.FallingLine | crates/slopgb-core/src/joypad.rs:365-376 | the interrupt is for a line that is high before and low after |
| Joypad.PressedLine | crates/slopgb-core/src/joypad.rs:398-407 | a button pulls its own line of its own column and no other |
| Joypad.SaveStateRoundTrip | crates/slopgb-core/src/joypad.rs:485-563 | every loadable state loads back, all but the feed and the pending command |
| Joypad.LoadedFields | crates/slopgb-core/src/joypad.rs:508-563 | what loads has each field from its own place |
| Joypad.LoadedControllersAreSane | crates/slopgb-core/src/joypad.rs:525-538 | whatever loads has its controllers, packet queue and command buffer in range |
| Joypad.LoadedReceiverCanTrap | crates/slopgb-core/src/joypad.rs:508-563 | a loaded receiver has a run of writes that panics if and only if its write and stop flags are set and its write index is beyond the buffer |
| Joypad.CorruptSaveTraps | crates/slopgb-core/src/joypad.rs:126-140 | one save state that loads and panics on the second write |
| Timer.Timer.TickSubstep | crates/slopgb-core/src/timer.rs:122-142 | one T-cycle of the reload pipeline and the edge detector |
| Timer.Timer.Tick | crates/slopgb-core/src/timer.rs:105-115 | one M-cycle |
| Timer.Timer.Write | crates/slopgb-core/src/timer.rs:193-235 | register writes with the edges and the reload-cycle cases |
| Timer.TickKeepsAlignment | crates/slopgb-core/src/timer.rs:105-142 | an aligned M-cycle fires a pending reload on substep 3 only, late, with the reloaded latch in exactly that cycle |
| Timer.RunStaysAligned | crates/slopgb-core/src/timer.rs:105-235 | alignment holds at every M-cycle boundary of every run of ticks and writes |
| TimerTiming.ClocksAreFloors | crates/slopgb-core/src/timer.rs:79-91 | TIMA is clocked floor((d+n)/P) - floor(d/P) times in n T-cycles, through counter wraps |
| TimerTiming.OverflowOnEdge | crates/slopgb-core/src/timer.rs:94-101 | what an overflow leaves |
| TimerTiming.InterruptTimes | crates/slopgb-core/src/timer.rs:94-142 | behind an overflow, T-cycle n interrupts if and only if n = 4 + k (256 - TMA) P for some k |
| TimerTiming.TicksAreSubsteps | crates/slopgb-core/src/timer.rs:105-115 | M-cycles are four T-cycles each, over any number of them |
| TimerWrites.RegisterWrites | crates/slopgb-core/src/timer.rs:193-235 | what each register write does, by the phase of the divider |
| TimerWrites.TimaWriteCancels | crates/slopgb-core/src/timer.rs:208-216 | between an overflow and its reload a TIMA write cancels the interrupt, and TIMA counts on from the value written |
| TimerWrites.WritesInReloadCycle | crates/slopgb-core/src/timer.rs:208-224 | in the cycle of the reload a TIMA write is lost and a TMA write is in TIMA at once |
| CycleClock.Clock.Write | crates/slopgb-core/src/cycle_clock.rs:114-151 | commit position and parked debt of each conflict class |
| CycleClock.OneMCycle | crates/slopgb-core/src/cycle_clock.rs:95-163 | an M-cycle adds 4, and what debt an early write lacks |
| CycleClock.FlushConserves | crates/slopgb-core/src/cycle_clock.rs:95-172 | from a flushed clock an instruction advances it by 4 for each M-cycle if and only if it does not begin with an early write |
| CycleClock.PositionsAreLocal | crates/slopgb-core/src/cycle_clock.rs:95-151 | M-cycle i commits at start + 4 i + its own delta, and all of them later by what an early write in front lacks |
| CycleClock.PositionsIncrease | crates/slopgb-core/src/cycle_clock.rs:95-151 | later accesses commit strictly later |
| CycleClock.DebtIsBounded | crates/slopgb-core/src/cycle_clock.rs:156-165 | the debt that can overflow grows by at most 4 for each M-cycle |
| Dma.RunLength | crates/slopgb-sgb-coprocessor/src/dma.rs:118-130 | a chunk is nonempty, ends within the bank, and lies wholly inside or outside the ICD2 window |
| Dma.WramUntouched | crates/slopgb-sgb-coprocessor/src/dma.rs:136-147 | no WMDATA write can change work RAM that the same chunk read ahead |
| Dma.ChunkIsBytes | crates/slopgb-sgb-coprocessor/src/dma.rs:131-162 | a chunk read ahead and written behind does what its bytes do one by one |
| Dma.ChunkedIsBytewise | crates/slopgb-sgb-coprocessor/src/dma.rs:88-167 | the chunked engine makes the same port writes, memory and window reads as the byte-at-a-time one, for every bank, start, mode and count |
| Dma.RegistersSay | crates/slopgb-sgb-coprocessor/src/dma.rs:62-80 | a channel by the bits of its registers |
| Dma.PortByMode | crates/slopgb-sgb-coprocessor/src/dma.rs:16-25 | the port of byte i in each mode, by arithmetic |
| Dma.AddressMap | crates/slopgb-sgb-coprocessor/src/dma.rs:31-42 | which A-bus addresses are work RAM or the ICD2 window |
| Dma.TransferredByte | crates/slopgb-sgb-coprocessor/src/dma.rs:94-109 | one byte between each kind of memory and a PPU port, in either direction; nothing between work RAM and its own ports |
| Dma.WmaddPorts | crates/slopgb-sgb-coprocessor/src/mmio.rs:41-44 | WMADD is written through three ports that leave each other's bits alone |
| Dma.PpuUpload | crates/slopgb-sgb-coprocessor/src/dma.rs:16-25 | an upload to PPU ports puts the bytes from start + step i on the ports of the mode, in order |
| Dma.WramUpload | crates/slopgb-sgb-coprocessor/src/dma.rs:217-220 | an upload through WMDATA fills work RAM from WMADD on, around its end |
| Dma.WramDownload | crates/slopgb-sgb-coprocessor/src/dma.rs:208-232 | reading WMDATA to the A bus stores work RAM in order from WMADD on, and transfers nothing where the target is work RAM |
| Dma.UploadComesBack | crates/slopgb-sgb-coprocessor/src/dma.rs:208-232 | bytes uploaded through WMDATA and read back are the source bytes in order |
| Dma.AfterIsStepped | crates/slopgb-sgb-coprocessor/src/dma.rs:163-174 | A1T ends one step further for each byte mod 65536, DAS at zero |
| Dma.Engine.WriteChunk | crates/slopgb-sgb-coprocessor/src/dma.rs:141-166 | holding PPU writes back and sending them before any other port keeps their order |
| Dma.Engine.DmaChannel | crates/slopgb-sgb-coprocessor/src/dma.rs:61-175 | a transfer in either direction is bytewise whichever path runs it; A1T ends behind the last byte, DAS at zero |
| DataTrn.Host.Poll | crates/slopgb-sgb-coprocessor/src/commands.rs:11-99 | the packet and payload halves of a poll |
| DataTrn.ComputeChecksum | crates/slopgb-sgb-coprocessor/src/commands.rs:300-307 | the FNV-1a fold |
| DataTrnPairing.OneTrn | crates/slopgb-sgb-coprocessor/src/commands.rs:23-53 | a poll's DATA_TRN packet finds the pending one its payload and takes its place, whatever other packets come along |
| DataTrnPairing.PollKeeps | crates/slopgb-sgb-coprocessor/src/commands.rs:11-99 | the pairing invariant over a poll |
| DataTrnPairing.PollsPair | crates/slopgb-sgb-coprocessor/src/commands.rs:11-99 | over every alternating run each payload has gone once, in order, to its own packet's destination, or its packet is the only one pending |
| DataTrnPairing.PendingExactly | crates/slopgb-sgb-coprocessor/src/commands.rs:11-99 | in every run a packet is pending if and only if its payload has not come, has not been seen, or had the checksum before it |
| DataTrnPairing.PromptRunsWaitForRepeats | crates/slopgb-sgb-coprocessor/src/commands.rs:15-22 | where every capture is polled before the next packet, a packet is overtaken while pending if and only if its payload repeats the one before |
| DataTrnPairing.FirstPayloadCanWait | crates/slopgb-sgb-coprocessor/src/commands.rs:18-21 | a run in which a packet is still pending though its payload is the first |
| DataTrnPairing.NewPayloadCanWait | crates/slopgb-sgb-coprocessor/src/commands.rs:18-21 | a run in which it is though its payload is any other than the one before |
| DataTrnPairing.OnlyRepeatsWait | crates/slopgb-sgb-coprocessor/src/commands.rs:15-22 | with checksums that tell payloads apart, a captured payload still waiting equals the one before it |
| DataTrnStaging.NamedAddress | crates/slopgb-sgb-coprocessor/src/commands.rs:154-171 | the destination is bytes 1 to 3, low byte first |
| DataTrnStaging.JumpSetsVector | crates/slopgb-sgb-coprocessor/src/commands.rs:40-53 | a JUMP sets the NMI vector unless it is all zero; packets other than DATA_TRN are delivered at once |
| DataTrnStaging.RunIsOrderly | crates/slopgb-sgb-coprocessor/src/commands.rs:154-190 | over every run payloads are staged in two buffers in turn, and a packet delivered with a pointer points at the payload that has just landed at its own destination |
| Flush.Pump.PumpFrame | crates/slopgb-sgb-coprocessor/src/flush.rs:123-157 | the frame position, the vblank edge and the autopoll window of one pass |
| Flush.Pump.Flush | crates/slopgb-sgb-coprocessor/src/flush.rs:26-176 | one pass of the frame clock and the chip clocks |
| Flush.Pump.Clock | crates/slopgb-sgb-coprocessor/src/flush.rs:13-19 | cycles are flushed in whole chunks, the rest carried |
| FlushTiming.FrameKeeps | crates/slopgb-sgb-coprocessor/src/flush.rs:32-157 | no pass steps over a vblank edge, and each autopoll is published once, in the next pass |
| FlushTiming.PumpIsExact | crates/slopgb-sgb-coprocessor/src/flush.rs:13-176 | after T cycles, however split, edges alternate and each chip target is the floor of the flushed cycles times its ratio, the MSU-1's included |
| FlushTiming.VblankEntries | crates/slopgb-sgb-coprocessor/src/flush.rs:123-126 | vblank has begun exactly floor((F + 9917) / 70224) times |
| FlushTiming.LastNmitimenDecides | crates/slopgb-sgb-coprocessor/src/flush.rs:123-140 | the last value of NMITIMEN decides which vblanks come with an NMI and with an autopoll |
| Calendar.CivilHasDayNumber | crates/slopfp/src/model.rs:632-644 | every day number gives a valid date with that day number |
| Calendar.CivilInvertsDayNumber | crates/slopfp/src/model.rs:632-644 | every valid date comes back from its day number |
| Calendar.CivilFollowsCalendar | crates/slopfp/src/model.rs:632-644 | the next day number is the next day of the calendar |
| Calendar.Epoch | crates/slopfp/src/model.rs:632-644 | day 0 is 1970-01-01 |

## Left out

- Dma.Engine.DmaChannel: does not model MDMAEN's channel order, plugin failures, the INIDISP bookkeeping and the debug trace; what memory other than work RAM makes of a stored byte is a function parameter.
- Joypad.KeyMatrix: reading P1, releasing a key and the debugger's view of the keys are not modelled; they change nothing the results speak of.
- Joypad.SaveStateRoundTrip: the save-state crate is not part of this model; its fields are a list of tokens, so truncated input is a missing token.
- Flush.Pump.PumpFrame: does not model the row shadow, the packet deposit and the frame-ready flag.
- Flush.Pump.Flush: does not model the MMIO ring, the scanline pump, the port mediation, the pad ring or the audio output of a pass; NMITIMEN is set by its own operation, and an MSU-1 is loaded from the start or not at all.
- DataTrn.Host.Poll: does not model the mailbox queue of raw packets, character rows, SOUND, DATA_SND, SOU_TRN and flags.
- Mapping.ImportSf2: resampling, loop-point scaling at other rates, envelope, gain and pitch conversion are function parameters, because they are floating point; the results hold for all of them.
- BankExport.ExportSf2: tuning, attenuation and envelope are function parameters, for the same reason.
- Timer.Timer: does not model the divider presample of STOP, register reads and the save state.
- CycleClock.Clock.Internal: the panic on a debt beyond 32 bits is a precondition; the save state is not modelled.
- Serial.SerialPort: does not model loading a save state into a live port (its link fields survive), draining the test capture, register reads and mode switching.
- Sf2RoundTrip.RoundTrip: files of 4 GiB and more, and loop points whose sum with the sample's start exceeds 32 bits, are outside its condition; the program truncates or panics there.
- SerialLink.ExchangeIsExact: connecting, disconnecting and the socket itself are not modelled; packets arrive in the order they were sent.
- Joypad.LoadedReceiverCanTrap: the saved select, key and interrupt bytes have their meaningful bits only.
- The file picker apart from its date arithmetic.
- Wasm hosting, the CPU, PPU, APU, cartridge mappers, the interconnect, mixing, the compact on-disk cache and all frontends.
