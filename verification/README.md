# A verified model of libcper

libcper converts CPER error records (UEFI Specification 2.9, Appendix N) to a JSON tree, the intermediate
representation, and back, checks such trees against JSON schemas, and generates random records. This project models
that stack in Dafny and proves the repository's own claim, that the trip through the representation is byte for byte,
for every record instead of for random samples.

How the model is built:

- Integers in memory are sequences of bytes, least significant first; a packed struct is cut into slices; bit fields are
  integers taken apart with halving and doubling (`Bytes`, `Packed`). The tree is a datatype whose objects are maps from
  strings, read through accessors that give a default for what is missing (`Json`), so that reader and writer have to
  agree on every key. json-c does the same, except that it aborts when asked for the length or an element of anything
  but an array; the writers that ask require one.
- A stream is a class with contents and a position (`Streams.File`); the reader seeks to each section and back, the
  writer appends.
- What a procedure with a loop, a cursor, a stream or a buffer computes is stated by a function, and the procedure is a
  method proved equal to it. The theorems are about these functions. Nearly all have one of two forms: writing what was
  read gives a *normal form*, for all inputs; and the inputs equal to their normal form are exactly the *canonical* ones.
- Readers and writers share their layouts, and a round trip holds for any layout. What the readers show is therefore also
  stated over the bytes alone, in the modules whose names end in `Readings`: there offsets, widths, bit positions, keys,
  names and GUID bytes are written out once more, as arithmetic on bytes, without the definitions that readers and writers
  share. Together with the round trips this fixes the writers and the normal forms too. In the same way the validator's
  outcome is compared with predicates that have their own reading of types, required members and closed objects.
- The lookup of a section's converter works on any table. The converters of section types that are not modelled are
  arbitrary functions, passed along as `Others`; a section of such a type is canonical when these functions say so.
- Random numbers are arbitrary. Allocation succeeds. Files that a schema refers to are a set of paths that can be loaded.

Main results: `RecordRoundTrip.ReadExactly`, `RecordRoundTrip.WriterGoesThrough`, `RecordRoundTrip.WholeRecord`,
`RecordLayout.LayoutExact`, `RecordLayout.SecondTrip`, `GeneratorRoundTrip.EndToEnd`, `GeneratorRoundTrip.BinaryTest`,
`SectionIa32x64.RoundTrip`, `Ia32x64Normal.NormalCanonical`, `GenSectionIa32x64.GenerateSectionIa32x64`,
`SectionCxlProtocol.RoundTrip`, `HeaderRoundTrip.HeaderTrip`, `Base64.DecodeEncode`, `Base64.DecodeOutcome`,
`JsonSchema.OutcomeExact`, `GenSectionArm.WalkConserves` and `GenSectionArm.CountsLost`; and, over the bytes,
`RecordReadings.RecordShown`, `HeaderReadings.HeaderParts`, `Ia32x64Readings.StructuresShown`,
`Ia32x64Readings.CheckInfoShown`, `ArmReadings.ArmSectionShown` and `CxlReadings.CxlShown`. The preconditions of the
theorems about records are met by every record `CperGenerate.GenerateCperRecord` writes, as `GeneratorRoundTrip.EndToEnd` shows.

Six findings, where the program does not do what it is meant to do:

- The generator of ARM sections stores the numbers of its structures in bytes 4 to 7 and then masks bytes 0 to 7, as one
  64-bit word, to the three validation bits (generator/sections/gen-section-arm.c:48-60). Every generated ARM section
  therefore says it has no structures, and the reader turns everything behind its header into vendor information.
  `GenSectionArm.CountsLost` proves this for every generated section, `GenSectionArm.WalkConserves` that the reader visits
  what was placed exactly when the two counts are right.
- A section that cannot be read is meant to become null, but the stream is not put back where it was
  (cper-parse.c:333-338). Unless that section is the last one, the whole record is given up; an empty section, which is
  never read either, instead sends the reader on to wherever its offset points, which does no harm only when that is the
  next descriptor. `RecordRoundTrip.ReadExactly` says exactly which records are read,
  `RecordExamples.FirstSectionMissing` gives one that is not.
- The null that stands for such a section makes the writer abort when the section is of PCI device or NVIDIA type, whose
  writers ask json-c for the length of an array (sections/cper-section-pci-dev.c:131-132,
  sections/cper-section-nvidia.c:58-59). By `RecordRoundTrip.WriterGoesThrough` these are the only cases among the sections
  modelled; `RecordExamples.WriterAborts` is such a record.
- The writer stores sections one after another but copies the offsets and lengths it read into their descriptors
  (ir-parse.c:55-65, ir-parse.c:194-198). By `RecordLayout.LayoutExact` the result points at its own sections exactly when
  the record read is stored back to back and gives every section the length that the section's own counts and sizes come
  to. `RecordExamples.SectionsSwapped` is a record that comes out with two sections exchanged,
  `RecordExamples.SecondSectionMissing` one stored back to back, its first section a byte too long, that comes out with an
  unreadable second section.
- Integer bounds in schemas are compared as unsigned 64-bit numbers after saturating to an `int` (json-schema.c:249-282).
  `JsonSchema.MinimumExact` and `JsonSchema.MaximumExact` say for which bounds and values that is the comparison meant;
  `JsonSchema.NegativeBound` gives inputs that wrongly validate and wrongly fail.
- The comment on `validate_field` (json-schema.c:118-119) promises -1 for fatal errors. `JsonSchema.OutcomeExact` says, for
  every schema and value, when -1 is returned: only for a fatal error at the top or in one of its options. Inside an object
  or an array a fatal error passes for a success (`JsonSchema.FatalPropertyPasses`, `JsonSchema.FatalItemPasses`). The
  model follows the code.

Reading past the end of a section's buffer is undefined in C; the model reads zeros there. Sections are canonical only if
they are as long as their own counts and sizes say, so no theorem about canonical sections depends on this.

## Model

| member | source | states |
|---|---|---|
| Base64.EncodeLookup | base64.c:9-10 | for each sextet the encode table holds its letter of the RFC 4648 section 4 alphabet |
| Base64.DecodeLookup | base64.c:70-86 | for each character the decode table holds the letter's place in the alphabet, zero for the pad and 0x80 for everything else |
| Base64.EncodeTail | base64.c:53-64 | the one or two bytes left over by the block loop come out as one padded block, written at the cursor |
| Base64.Base64Encode | base64.c:16-67 | yields the RFC 4648 text of the whole input (nothing when its length leaves INT32), with every store inside the buffer |
| Base64.EncodeLength | base64.c:27-28 | the text of n bytes has exactly 4 * ceil(n / 3) characters |
| Base64.FlushBlock | base64.c:127-142 | a full block appends its three bytes less the pads; three or four pads are an error |
| Base64.Base64Decode | base64.c:92-149 | computes the block-wise decoding, failing just when that fails, with the write cursor never past len / 4 * 3 |
| Base64.DecodeOutcome | base64.c:106-148 | decoding succeeds exactly when every character up to the end of the first complete block with a pad (else the whole text) is in the table and that block has at most two pads; the length is 3 * blocks - pads |
| Base64.DecodeEncode | base64.c:16-149 | decoding the encoding of any bytes gives those bytes |
| Base64.EncodeCanonical | base64.c:40-64 | every encoding is canonical text: full blocks of letters, pads only at the end, unused bits zero |
| Base64.EncodeDecode | base64.c:92-149 | a text decodes and encodes back to itself exactly when it is canonical |
| CommonUtils.IntToBcd | common-utils.c:18-28 | the digit loop yields the packed decimal byte of the value modulo 100 for every value below ten million, and zero for values not positive |
| CommonUtils.BcdRoundTrip | common-utils.c:12-28 | converting a byte to an integer and back keeps it exactly when both nibbles are digits |
| Text.PrintNumberDigits | cper-utils.c:245-283 | a printed number consists of digits of its base and denotes the number printed |
| Text.ScanPrint | cper-utils.c:255-298 | scanning a text gives back the values it was printed from whenever each number is delimited, by its width or by a literal that is no digit |
| Guids.GuidBytesOf | cper-utils.c:277-298 | sixteen bytes in memory and the fields of a GUID determine each other |
| Guids.GuidOfBytes | cper-utils.c:277-298 | the fields stored as sixteen bytes are loaded back unchanged |
| Guids.GuidEqual | cper-utils.c:301-317 | answers equality of all four fields, the last one compared in a loop |
| CperUtils.GuidRoundTrip | cper-utils.c:277-298 | the text of any GUID scans back to that GUID, whatever the target held before |
| CperUtils.TimestampRoundTrip | cper-utils.c:243-274 | a timestamp through text has each of its seven fields replaced by the packed decimal of its value's last two digits; the flag is not touched |
| CperUtils.TimestampScanned | cper-utils.c:255-274 | of any text printed in the timestamp's format each number is cut to a byte and its last two digits are packed |
| CperUtils.TimestampKept | cper-utils.c:243-274 | the text trip keeps exactly the timestamps whose seven fields are valid packed decimal |
| CperUtils.TimestampLength | cper-utils.c:243-252 | the text has at least 23 characters, and exactly 23 (what the buffer holds) when none of the five fields that are not cut to two digits reaches 100 |
| CperUtils.ValidTimestampLength | cper-utils.c:243-252 | a timestamp in packed decimal has a text of exactly 23 characters |
| TextReadings.GuidShown | cper-utils.c:277-283 | the text of the GUID in any sixteen bytes spells these bytes in hexadecimal, four, two and two of them with the most significant first, eight in a row, with three dashes |
| TextReadings.TimeShown | cper-utils.c:243-252 | the text of the timestamp in any eight bytes spells them as packed decimals: century and year, month, day, hours, minutes, seconds, no fractions |
| CperUtils.BuildBitfield | cper-utils.c:186-197 | the loop builds the object with the i-th name true exactly when bit i is set |
| CperUtils.ParseBitfield | cper-utils.c:200-211 | the loop sums a shifted one for every name that is true |
| CperUtils.BitfieldRoundTrip | cper-utils.c:186-211 | for pairwise different names, a bit field read and written again is its value modulo 2 to the number of names |
| CperUtils.IntegerToReadablePair | cper-utils.c:134-151 | the loop over the key table yields the value with the name of the last matching key or the default |
| NameReadings.BitShown | cper-utils.c:186-197 | under the i-th of different names is whether the value divided by 2 to the i is odd |
| NameReadings.HeaderBits | cper-parse.h:10-14 | the names of the three validation bits of a header and their weights |
| NameReadings.DescriptorBits | cper-parse.h:15-19 | the names of the two validation bits of a descriptor and their weights |
| NameReadings.DescriptorFlagBits | cper-parse.h:20-26 | the names of the eight flags of a descriptor and their weights |
| NameReadings.ErrorInfoBits | sections/cper-section-ia32x64.h:11-16 | the names of the five validation bits of an error structure and their weights |
| NameReadings.CacheBits | sections/cper-section-ia32x64.h:17-25 | the names of the eight validation bits of a cache or TLB check and their weights |
| NameReadings.BusBits | sections/cper-section-ia32x64.h:17-25 | the names of the eleven validation bits of a bus check and their weights |
| NameReadings.MsBits | sections/cper-section-ia32x64.h:26-32 | the names of the six validation bits of an MS check and their weights |
| NameReadings.CxlBits | sections/cper-section-cxl-protocol.h:11-17 | the names of the seven validation bits of a CXL protocol section and their weights |
| NameReadings.PciDevBits | sections/cper-section-pci-dev.h:11-16 | the names of the five validation bits of a PCI device section and their weights |
| NameReadings.SeverityNamed | cper-utils.c:236-239 | a severity's code and the name of each of the four, Unknown for others |
| NameReadings.HeaderFlagsNamed | cper-parse.h:27-36 | the names of the header flags 1, 2 and 4, Unknown for others |
| NameReadings.TransactionNamed | sections/cper-section-ia32x64.h:33-42 | each transaction type's name, reserved for others |
| NameReadings.OperationNamed | sections/cper-section-ia32x64.h:43-53 | each operation's name, reserved for others |
| NameReadings.ParticipationNamed | sections/cper-section-ia32x64.h:55-65 | each participation type's name |
| NameReadings.AddressSpaceNamed | sections/cper-section-ia32x64.h:67-75 | each address space's name |
| NameReadings.MsErrorNamed | sections/cper-section-ia32x64.c:326-332 | the first four MS error types' names, processor specific for all others, since the reader's table ends there |
| NameReadings.ContextNamed | sections/cper-section-ia32x64.h:88-99 | each register context type's name, reserved for others |
| NameReadings.AgentNamed | sections/cper-section-cxl-protocol.h:18-26 | each agent type's name, reserved for others |
| CperUtils.RevisionRoundTrip | cper-utils.c:225-233 | major and minor, put back together as minor + (major << 8), give the revision |
| CperUtils.TextKept | ir-parse.c:239-245 | copying the C string at the front of some memory into a buffer of n bytes reproduces those bytes exactly when they are terminated and hold only zeros after the first NUL |
| TextReadings.CharsShown | cper-parse.c:303-307 | the text of a buffer are its characters up to the first NUL |
| Json.MembersGet | cper-utils.c:186-197 | in an object built member by member from different keys each key holds its own value |
| Json.PresentGet | cper-parse.c:126-156 | a member that is added only when it is present is null otherwise |
| Json.Saturates | json-schema.c:253-265 | an integer read as a 32-bit or an unsigned 64-bit number becomes the nearest such number |
| Json.ReadAcross | ir-parse.c:75-153 | what is missing reads as zero, false or empty, and booleans and integers read as each other |
| Json.AskLength | sections/cper-section-pci-dev.c:129-132 | the length of an array, which json-c must not be asked for of anything else |
| Json.AskElement | sections/cper-section-ia32x64.c:620-627 | an element of an array, likewise |
| Json.AskString | sections/cper-section-nvidia.c:66-70 | the text of a member that is there, which is copied |
| Packed.StructRoundTrip | sections/cper-section-ia32x64.c:417-558 | a packed struct kept in an object under different keys comes back with its reserved bytes zeroed |
| Packed.OneReserved | sections/cper-section-ia32x64.c:480-558 | with one reserved field, the trip keeps the struct exactly when the reserved bytes are zero |
| Streams.File.Tell | cper-parse.c:30 | reports the position |
| Streams.File.Seek | cper-parse.c:331 | moves the position without touching the contents |
| Streams.File.Read | cper-parse.c:34-38 | reads one item whole or fails; the position after a failed read is the end of what was left, and an item of no bytes is never read |
| Streams.File.Write | ir-parse.c:33-34 | stores the bytes at the position and moves behind them |
| CperRecord.HeaderBytesOf | edk/Cper.h:162-186 | the 128 packed bytes of a header are determined by its fields |
| CperRecord.HeaderOfBytes | edk/Cper.h:162-186 | every field of a header is found again in its packed bytes |
| CperRecord.DescriptorBytesOf | edk/Cper.h:306-317 | the 72 packed bytes of a descriptor are determined by its fields |
| CperRecord.DescriptorOfBytes | edk/Cper.h:306-317 | every field of a descriptor is found again in its packed bytes |
| Ia32x64Checks.CheckRoundTrip | sections/cper-section-ia32x64.c:194-349 | cache, TLB, bus and MS checks read and written again have just the unnamed validation bits and the reserved bits cleared; an unknown check becomes zero |
| Ia32x64Checks.CheckKept | sections/cper-section-ia32x64.c:692-781 | exactly the checks without those bits are kept |
| Ia32x64CheckReadings.CacheShown | edk/Cper.h:508-519 | over any 64 bits: eight named validation bits, transaction type in bits 16 and 17, operation in 18 to 21, level in 22 to 24, five flags from 25 on |
| Ia32x64CheckReadings.BusShown | edk/Cper.h:631-645 | over any 64 bits: eleven named validation bits, the same fields, participation type in bits 30 and 31, time-out in 32, address space in 33 and 34 |
| Ia32x64CheckReadings.MsShown | edk/Cper.h:673-682 | over any 64 bits: six named validation bits, error type in bits 16 to 18, five flags from 19 on |
| GuidReadings.CheckShown | edk/Cper.c:193-212 | each of the four error types is recognised by its sixteen bytes in memory, which decide how check information is read |
| Ia32x64Registers.WriterAgrees | sections/cper-section-ia32x64.c:838-987 | the writer looks every register up under the key, and in the place, the reader uses |
| Ia32x64Registers.Ia32Layout | sections/cper-section-ia32x64.c:417-477 | the 32-bit register file has 92 bytes and different keys, and its fields fit a JSON number |
| Ia32x64Registers.X64Layout | sections/cper-section-ia32x64.c:480-558 | likewise the 64-bit register file with 244 bytes |
| SectionIa32x64.ReadPayload | sections/cper-section-ia32x64.c:375-411 | the registers or the raw data at the cursor, and the cursor moved by 92, 244 or the array size |
| SectionIa32x64.ReadContext | sections/cper-section-ia32x64.c:352-414 | the object of the context at the cursor, and the cursor behind header and payload |
| SectionIa32x64.ReadErrors | sections/cper-section-ia32x64.c:86-97 | the loop converts each 64-byte structure and ends right behind the last one |
| SectionIa32x64.ReadContexts | sections/cper-section-ia32x64.c:99-113 | the loop converts each context where the one before it ended |
| SectionIa32x64.ReadSection | sections/cper-section-ia32x64.c:46-116 | computes the section's object, which the rows of Ia32x64Readings describe byte by byte, with the cursor ending where its counts and sizes say |
| Ia32x64Readings.SectionShown | sections/cper-section-ia32x64.c:52-84 | the two flags and two counts in the first 64 bits, the APIC ID at byte 8 and the CPUID registers at 16, 24, 32 and 40 |
| Ia32x64Readings.StructuresShown | sections/cper-section-ia32x64.c:86-113 | as many error structures as bits 2 to 7 say, at byte 64 + 64 * i, then as many contexts as bits 8 to 13 say, each behind the one before it, where the section ends |
| Ia32x64Readings.ErrorInfoShown | sections/cper-section-ia32x64.c:119-191 | an error structure's type is the text and the name of its first sixteen bytes; validation bits, check information and four identifiers are the words at 16, 24, 32, 40, 48 and 56 |
| Ia32x64Readings.CheckInfoShown | sections/cper-section-ia32x64.c:156-176 | for the i-th error structure of a section: its word at 24 is shown as a cache, bus or MS check, or not at all, as its first sixteen bytes say |
| Ia32x64Readings.ContextMoves | sections/cper-section-ia32x64.c:375-411 | the cursor moves by 16 and then by 92 for type 2, 244 for type 3 and else as many bytes as the word at 2 says |
| Ia32x64Readings.ContextShown | sections/cper-section-ia32x64.c:352-414 | a context's type and its name, array size, MSR address and memory-mapped address are the numbers at 0, 2, 4 and 8; registers or base64 text follow from 16 on |
| Ia32x64Readings.Registers32Shown | sections/cper-section-ia32x64.c:418-477 | each of the 25 registers of the 32-bit file under its name is the number at its place |
| Ia32x64Readings.Registers64Shown | sections/cper-section-ia32x64.c:481-558 | each of the 36 registers of the 64-bit file under its name is the number at its place |
| SectionIa32x64.WriteErrorInfo | sections/cper-section-ia32x64.c:632-689 | appends the 64 bytes of the error structure, the check information laid out as its GUID says |
| SectionIa32x64.WritePayload | sections/cper-section-ia32x64.c:808-831 | appends a register file or the decoded raw data, as the type says |
| SectionIa32x64.WriteContext | sections/cper-section-ia32x64.c:785-835 | appends a context's header, then its payload |
| SectionIa32x64.WriteErrors | sections/cper-section-ia32x64.c:620-623 | appends the structures in order, as many as the masked count says; unless that is zero, an array is asked for |
| SectionIa32x64.WriteContexts | sections/cper-section-ia32x64.c:624-627 | appends the contexts in order, as many as the masked count says; unless that is zero, an array is asked for |
| SectionIa32x64.WriteSection | sections/cper-section-ia32x64.c:565-628 | appends the record, the error structures and the contexts |
| SectionIa32x64.CountsWritten | sections/cper-section-ia32x64.c:571-590 | for any object the counts stored are the numbers of structures written, which are the numbers given modulo 64 |
| SectionIa32x64.KindTruncated | sections/cper-section-ia32x64.c:785-800 | a context type too large for sixteen bits loses what does not fit |
| SectionIa32x64.ErrorInfoRoundTrip | sections/cper-section-ia32x64.c:119-191 | an error structure comes back with only unnamed or reserved bits cleared, whatever its GUID |
| SectionIa32x64.ErrorInfoKept | sections/cper-section-ia32x64.c:632-689 | exactly the error structures without such bits come back unchanged |
| SectionIa32x64.ContextRoundTrip | sections/cper-section-ia32x64.c:352-414 | a context comes back with its header unchanged, whatever its array size says, and its payload normalised as its type asks |
| SectionIa32x64.ContextKept | sections/cper-section-ia32x64.c:785-835 | a context keeps its size, and its bytes exactly when it is no 64-bit register file with its reserved word set |
| SectionIa32x64.RecordRoundTrip | sections/cper-section-ia32x64.c:571-607 | both counts and all record fields survive; fifty reserved bits and sixteen bytes are cleared |
| SectionIa32x64.SectionRoundTrip | sections/cper-section-ia32x64.c:565-628 | writing what was read from any bytes gives them with everything unnamed or reserved cleared, up to where the walk ends |
| SectionIa32x64.ReservedKept | sections/cper-section-ia32x64.c:46-116 | as far as the walk goes, the bytes are kept exactly when nothing reserved is set, for any counts and any mix of types |
| SectionIa32x64.SectionKept | sections/cper-section-ia32x64.c:46-116 | the fixed points are exactly the canonical sections |
| SectionIa32x64.RoundTrip | sections/cper-section-ia32x64.c:565-628 | reading and writing gives the same bytes exactly when nothing reserved is set and the section ends behind its last context |
| Ia32x64Normal.CursorAgain | sections/cper-section-ia32x64.c:99-113 | the cursor goes through the section written just as it went through the section read |
| Ia32x64Normal.NormalCanonical | sections/cper-section-ia32x64.c:565-628 | what is written of any bytes is canonical: both counts, every structure's place and every context's size come back, so that a second trip changes nothing |
| GenericStatus.StatusRoundTrip | cper-utils.c:17-77 | an error status comes back with its reserved bits cleared |
| GenericStatus.StatusKept | cper-utils.c:58-77 | exactly the statuses without reserved bits come back unchanged |
| PciDevReadings.StatusShown | edk/Cper.h:835-846 | over any 64 bits: the error type in bits 8 to 15 and the seven flags above it |
| RegisterPairs.ReadPairs | sections/cper-section-pci-dev.c:60-81 | the loop yields one object per pair and its cursor ends right behind the last of them |
| RegisterPairs.WritePairs | sections/cper-section-pci-dev.c:130-149 | appends sixteen bytes per element of the array |
| RegisterPairs.PairsRoundTrip | sections/cper-section-pci-dev.c:130-149 | after every pair the bytes written are the bytes read so far |
| SectionPciDev.IdTrip | sections/cper-section-pci-dev.c:30-53 | the ID information comes back unchanged exactly when its five reserved bytes are zero |
| SectionPciDev.ReadSection | sections/cper-section-pci-dev.c:14-84 | computes the section's object, which the rows of PciDevReadings describe byte by byte, with its cursor behind the last pair |
| PciDevReadings.IdShown | sections/cper-section-pci-dev.h:21-30 | vendor, device, class code, function, device, bus and segment are the numbers at 0, 2, 4 (three bytes), 7, 8, 9 and 10 of the ID information |
| PciDevReadings.PciDevShown | sections/cper-section-pci-dev.c:20-60 | validation bits at 0, error status at 8, ID information at 16, memory and I/O numbers at 32 and 36 |
| PciDevReadings.PciDevPairsShown | sections/cper-section-pci-dev.c:59-81 | as many pairs as the two numbers sum up to in 32 bits, none if that is negative, the i-th from the words at 40 + 16 * i and 48 + 16 * i |
| SectionPciDev.WriteSection | sections/cper-section-pci-dev.c:86-150 | appends the fixed part and as many pairs as the array holds, which is asked for |
| SectionPciDev.SectionRoundTrip | sections/cper-section-pci-dev.c:86-150 | any section comes back with its unnamed and reserved bits cleared and all its pairs |
| SectionPciDev.RoundTrip | sections/cper-section-pci-dev.c:17-150 | reading and writing gives the same bytes exactly when nothing reserved is set and the section ends behind its last pair |
| SectionPciDev.NormalCanonical | sections/cper-section-pci-dev.c:86-150 | what is written of any bytes is canonical |
| SectionNvidia.ReadSection | sections/cper-section-nvidia.c:14-53 | computes the section's object, which the rows of NvidiaReadings describe byte by byte, with its cursor behind the last register |
| NvidiaReadings.NvidiaShown | sections/cper-section-nvidia.c:19-38 | the signature are the characters from byte 0 to the first NUL, wherever that is; the other fields are the numbers at 16, 18, 20, 21, 22 and 24 |
| NvidiaReadings.NvidiaRegistersShown | sections/cper-section-nvidia.c:40-51 | as many registers as byte 22 says, address and value of the i-th from the words at 32 + 16 * i and 40 + 16 * i |
| SectionNvidia.FillRegisters | sections/cper-section-nvidia.c:87-95 | the loop fills the buffer behind the fixed fields with two words per register, its offset in step with the array |
| SectionNvidia.WriteSection | sections/cper-section-nvidia.c:56-101 | appends one buffer sized by the array, with the fields at its front; array and signature are asked for |
| SectionNvidia.SectionRoundTrip | sections/cper-section-nvidia.c:56-101 | any section comes back with its signature cut and padded and its reserved byte cleared |
| SectionNvidia.RoundTrip | sections/cper-section-nvidia.c:14-101 | reading and writing gives the same bytes exactly when the signature is terminated and clean, the reserved byte zero, and the section ends behind its last register |
| SectionNvidia.NormalCanonical | sections/cper-section-nvidia.c:56-101 | what is written of any bytes is canonical, also when the signature was not terminated |
| SectionCxlProtocol.AddressTrip | sections/cper-section-cxl-protocol.c:34-68 | the agent's address, laid out by agent type, comes back unchanged exactly when its reserved bytes are zero (all of it for other agents) |
| SectionCxlProtocol.DeviceTrip | sections/cper-section-cxl-protocol.c:71-93 | the device ID comes back unchanged exactly when the three bits below the slot number and its last four bytes are zero |
| SectionCxlProtocol.ReadTail | sections/cper-section-cxl-protocol.c:134-149 | the base64 text of the bytes at the cursor, and the cursor behind them |
| SectionCxlProtocol.ReadSection | sections/cper-section-cxl-protocol.c:15-169 | computes the section's object, which the rows of CxlReadings describe byte by byte, with the two tails read one behind the other |
| CxlReadings.AddressShown | sections/cper-section-cxl-protocol.c:34-68 | the agent's address: four numbers for a device, one for a port, nothing for others |
| CxlReadings.DeviceShown | sections/cper-section-cxl-protocol.h:34-43 | the device ID: five 16-bit numbers and the slot number, the sixth divided by eight |
| CxlReadings.CxlShown | sections/cper-section-cxl-protocol.c:21-126 | every field at its offset under its name; serial number at 40 and the text of the sixty bytes at 48 for devices only |
| CxlReadings.CxlTailsShown | sections/cper-section-cxl-protocol.c:129-166 | the texts of the two tails from byte 116 on, as long as the numbers at 108 and 110 say |
| SectionCxlProtocol.ParseCapability | sections/cper-section-cxl-protocol.c:236-252 | the decoded capability structure in its sixty bytes, zeros if the text is no base64 |
| SectionCxlProtocol.SlotTruncated | sections/cper-section-cxl-protocol.c:215-228 | a slot number too large for thirteen bits loses what does not fit |
| SectionCxlProtocol.WriteSection | sections/cper-section-cxl-protocol.c:172-296 | appends the fixed part, the DVSEC and the error log |
| SectionCxlProtocol.SectionRoundTrip | sections/cper-section-cxl-protocol.c:172-296 | any section comes back, through three base64 texts, with only reserved parts (and what only devices have) cleared |
| SectionCxlProtocol.RoundTrip | sections/cper-section-cxl-protocol.c:15-296 | reading and writing gives the same bytes exactly when the section is canonical, for every agent type and any tail lengths |
| SectionCxlProtocol.NormalCanonical | sections/cper-section-cxl-protocol.c:172-296 | what is written of any bytes is canonical, for every agent type |
| Sections.ConvertersAgree | cper-parse.c:343-357 | in every table whose rows have both converters or neither, the reader's row and the row the writer finds after the GUID went through text are the same, or both find none |
| Sections.DefinitionsMatched | sections/cper-section.c:26-75 | in the program's own table each row has both converters of one section type or neither, as tests/ir-tests.cpp:109-123 asks |
| Sections.SectionRoundTrip | ir-parse.c:156-188 | a section of any type comes back unchanged exactly when it is canonical for its converter, or has none and fits base64 |
| Sections.RewrittenLength | ir-parse.c:156-188 | what is written of a section is as long as the section's own counts and sizes say (without a converter: as long as it was, or nothing when it is too long for base64), however long it was |
| Sections.RewrittenCanonical | ir-parse.c:156-188 | what is written of a section of any type is canonical for its converter (for a converter outside this model: if that writes again what it wrote) |
| Sections.MissingWritable | ir-parse.c:156-168 | the null that stands for an unreadable section can be written exactly when its type's writer needs no array |
| Sections.FindReader | cper-parse.c:346-354 | the loop finds the converter of the first row with this GUID that has one |
| Sections.FindWriter | ir-parse.c:161-169 | the loop finds the converter of the first row with this GUID that has one |
| Sections.ConvertSection | cper-parse.c:343-373 | dispatches on the GUID and falls back to base64 text |
| Sections.IrSectionToCper | ir-parse.c:156-188 | dispatches on the GUID and falls back to decoding base64 text |
| Payloads.PayloadLength | ir-parse.c:170-188 | of a section without a converter as many bytes are written as the text's blocks and pads say, none when the text is no base64 |
| CperParse.CperSectionToIr | cper-parse.c:324-376 | the object of the section its descriptor points at, with the position restored; null, with the position left where the read ended, when it cannot be read |
| CperParse.CperToIr | cper-parse.c:27-84 | the record's object, or null when the header, its signature or a descriptor cannot be read, for every stream and every starting position |
| CperParse.EqualLengths | cper-parse.c:50-74 | whatever the stream holds, the arrays of descriptors and of sections always have the same length |
| CperParse.FailedForGood | cper-parse.c:54-66 | once a descriptor cannot be read the record is given up |
| HeaderReadings.AcceptedExactly | cper-parse.c:33-45 | a record is accepted exactly when 128 bytes are there and the first four are the letters CPER |
| HeaderReadings.HeaderShown | edk/Cper.h:162-186 | revision, section count, record length, record ID and persistence information are the little-endian numbers at offsets 4, 10, 20, 96 and 108, for any bytes |
| HeaderReadings.HeaderParts | cper-parse.c:133-162 | timestamp and its flag, platform ID and partition ID are null exactly when bit 1, 0 and 2 of the byte at offset 16 is clear, and else the text of the bytes at 24, 32 and 48; creator and notification GUIDs are the text of those at 64 and 80 |
| HeaderReadings.HeaderNames | cper-parse.c:103-238 | the validation bits at offset 16, the severity at 12 and the flags at 104 under their names |
| HeaderReadings.HeaderNotification | edk/Cper.c:19-78 | the notification type is named after the sixteen bytes at offset 80, Unknown if they are none of the twelve |
| HeaderReadings.WrittenHeader | ir-parse.c:75-153 | any header written after it was read starts with the letters CPER, has its end of signature set and nothing unnamed or reserved, and the bytes of what its validation bits say is missing are zero |
| HeaderReadings.DescriptorShown | edk/Cper.h:306-317 | section offset, section length and revision are the little-endian numbers at offsets 0, 4 and 8 of any 72 bytes, and the section type's GUID the text of those at 16 |
| HeaderReadings.DescriptorParts | cper-parse.c:294-308 | FRU ID and FRU text are null exactly when bit 0 and bit 1 of the byte at offset 10 is clear, and else the text of the bytes at 32 and the characters from 52 on |
| HeaderReadings.DescriptorNames | cper-parse.c:241-321 | the validation bits at offset 10, the eight flags at 12 and the severity at 48 under their names |
| HeaderReadings.DescriptorType | sections/cper-section.c:26-75 | the section type is named after the sixteen bytes at offset 16, Unknown if they are none of the 22 |
| HeaderReadings.WrittenDescriptor | ir-parse.c:191-246 | any descriptor written after it was read has nothing unnamed or reserved, and the bytes of what its validation byte says is missing are zero |
| GuidReadings.NotificationShown | edk/Cper.c:19-78 | each of the twelve notification types is recognised by its sixteen bytes in memory |
| RecordReadings.SectionShownAt | cper-parse.c:324-376 | the section of a descriptor is as long as its bytes 4 to 7 say and starts where bytes 0 to 3 say, counted from the record's start; null when it is empty or not all there |
| RecordReadings.RecordShown | cper-parse.c:47-82 | over the bytes of a record whose walk keeps in step: as many descriptors and sections as bytes 10 and 11 say, the i-th from the 72 bytes at 128 + 72 * i |
| RecordReadings.SectionDispatched | cper-parse.c:343-373 | which of the program's converters a section gets by the sixteen bytes of its type, and that it becomes base64 text when they are none of the 22 |
| GuidReadings.SectionShown | sections/cper-section.c:26-75 | each of the 22 section types is recognised by its sixteen bytes in memory, with its converter and its name |
| CperParse.CperSingleSectionToIr | cper-parse.c:379-405 | the object of a descriptor and the section it points at, or null |
| IrParse.IrHeaderToCper | ir-parse.c:75-153 | fills a zeroed header field by field from the object, leaving what is missing zero |
| IrParse.Truncated | ir-parse.c:75-153 | a number too large for its field of 32 or 16 bits loses what does not fit |
| IrParse.IrSectionDescriptorToCper | ir-parse.c:191-246 | fills a zeroed descriptor field by field from the object |
| IrParse.WriteDescriptors | ir-parse.c:37-51 | appends the descriptors in order and keeps them for the sections |
| IrParse.WriteSections | ir-parse.c:57-65 | appends the sections in order, each converted by its descriptor's type; the offsets play no part |
| IrParse.IrToCper | ir-parse.c:27-72 | appends header, descriptors and, if there are as many as descriptors, sections; it asks for both arrays and for sections that can be written, as json-c aborts otherwise |
| IrParse.IrSingleSectionToCper | ir-parse.c:249-268 | appends the descriptor and the section |
| HeaderRoundTrip.HeaderMembers | cper-parse.c:103-238 | each key holds its field, and the timestamp, platform ID and partition ID are there just when their validation bit is set |
| HeaderRoundTrip.HeaderTrip | ir-parse.c:75-153 | any header read and written again is its normal form: three validation bits, signatures restored, absent fields and reserved bytes zero, timestamp through decimal, its flag 0 or 1 |
| HeaderRoundTrip.HeaderKept | cper-parse.c:103-238 | the headers that come back unchanged are exactly the canonical ones |
| HeaderRoundTrip.NormalHeaderCanonical | ir-parse.c:75-153 | a normal form is canonical and normalising again changes nothing |
| HeaderRoundTrip.DescriptorMembers | cper-parse.c:241-321 | each key holds its field, and FRU ID and FRU text are there just when their validation bit is set |
| HeaderRoundTrip.DescriptorTrip | ir-parse.c:191-246 | any descriptor read and written again is its normal form: two validation bits, eight flags, absent fields zero, FRU text cut and padded after its first NUL |
| HeaderRoundTrip.DescriptorKept | cper-parse.c:241-321 | the descriptors that come back unchanged are exactly the canonical ones |
| HeaderRoundTrip.NormalDescriptorCanonical | ir-parse.c:191-246 | a normal form is canonical and normalising again changes nothing |
| RecordRoundTrip.WalkInStep | cper-parse.c:50-74 | as long as every section can be read, or is empty and said to start at the next descriptor, the stream stands at base + 128 + 72 * i before descriptor i, however far away the sections are that were read in between |
| RecordRoundTrip.InStepExactly | cper-parse.c:50-74 | all of n descriptors that are there are read where they are exactly when each section but the last can be read, or is empty and said to start where the next descriptor does |
| RecordRoundTrip.ReadExactly | cper-parse.c:27-91 | for every accepted header: a record whose walk stays in step becomes the object of its header, its descriptors and its sections (null where unreadable); any other becomes null unless the first section to derail the walk is empty and the remaining descriptors can be walked over from where it is said to start, when it becomes the object of what is met there |
| RecordRoundTrip.WriterGoesThrough | ir-parse.c:55-65 | the writer gets through the object of a record read in step exactly when no section that could not be read is of PCI device or NVIDIA type, whose writers ask for the length of an array |
| RecordRoundTrip.Derailed | cper-parse.c:333-338 | a section that cannot be read leaves the stream at or behind its end, so that no further descriptor is read, or, when it is empty, where it is said to start |
| RecordRoundTrip.RecordTrip | ir-parse.c:27-72 | for every record whose walk stays in step and whose object the writer gets through, and whatever the offsets, writing what was read gives the normal header, the normal descriptors and each section rewritten, in order |
| RecordRoundTrip.WholeRecord | ir-parse.c:27-72 | a record stored back to back comes back byte for byte, every section at its length, exactly when header, descriptors and sections are canonical |
| RecordLayout.WrittenAt | ir-parse.c:55-65 | section i of what is written lies at 128 + 72 * n plus the lengths of the sections written before it |
| RecordLayout.LayoutExact | ir-parse.c:194-198 | the written descriptors tell where the sections were written, and how long, exactly when the record read is stored back to back and gives each section the length that the section's own counts and sizes come to |
| RecordLayout.ReadAgain | cper-parse.c:27-91 | under that condition, when no section is empty, reading what was written gives the normal header, the normal descriptors and exactly the sections written |
| RecordLayout.SecondTrip | ir-parse.c:27-72 | under that condition a second trip changes nothing: what is written of a readable record is read and written again byte for byte |
| RecordExamples.FirstSectionMissing | cper-parse.c:333-338 | a record with a good header and two sections of one byte, of which the second can be read, becomes null because the first cannot |
| RecordExamples.SectionsSwapped | ir-parse.c:194-198 | a readable record whose two sections are stored the other way round than described comes out with each descriptor pointing at the other's section |
| RecordExamples.SecondSectionMissing | ir-parse.c:194-198 | a readable record stored back to back whose first section comes back one byte shorter comes out with a second section that cannot be read |
| RecordExamples.WriterAborts | sections/cper-section-pci-dev.c:129-132 | a record that is read, with a PCI device section missing at its end, gives an object the writer aborts on |
| RecordRoundTrip.SingleSection | ir-parse.c:249-268 | a descriptor with its section right behind it comes back byte for byte exactly when both are canonical |
| Buffers.MemCpy | generator/sections/gen-section-ia32x64.c:57-70 | replaces just the bytes it covers |
| Buffers.MaskU64 | generator/sections/gen-section-ia32x64.c:83-85 | ANDs eight bytes in place and leaves the rest |
| Buffers.SetU64 | generator/sections/gen-section-ia32x64.c:52-55 | ORs eight bytes in place and leaves the rest |
| Buffers.ZeroBytes | generator/sections/gen-section-ia32x64.c:46-49 | the loop clears just the bytes it covers |
| Buffers.StoredAt | generator/sections/gen-section-cxl-protocol.c:23-62 | after a run of stores to different places each of them still holds what was stored |
| GenUtils.GenerateRandomBytes | generator/gen-utils.c:20-27 | a fresh buffer of the given size with any contents |
| GenUtils.CreateValidErrorSection | generator/gen-utils.c:30-42 | the eight bytes become a status of a known type without reserved bits, and nothing else changes |
| GenUtils.TypesListed | generator/gen-utils.h:12-17 | the error types drawn from are 1, 4 to 9 and 16 to 26 |
| GenUtils.CopyBlocks | generator/sections/gen-section-ia32x64.c:57-70 | the blocks end up back to back, the cursor behind the last one, and what lies before them unchanged |
| GenSectionIa32x64.MasksAreGood | generator/sections/gen-section-ia32x64.c:91-131 | the masks leave just the named validation bits and the fields that are not reserved, for each kind of check |
| GenSectionIa32x64.MasksExactly | generator/sections/gen-section-ia32x64.c:91-131 | which bits of a random check the masks leave: of the fields that are not reserved, all but the operation's top bit and, in an MS check, the last named validation bit |
| GenSectionIa32x64.GenerateErrorStructure | generator/sections/gen-section-ia32x64.c:78-134 | every generated error structure is of one of the four types and has nothing reserved set |
| GenSectionIa32x64.GenerateContextStructure | generator/sections/gen-section-ia32x64.c:137-170 | every generated context has a type below eight, is as long as the reader will take it to be, and has nothing reserved set |
| GenSectionIa32x64.CountsSet | generator/sections/gen-section-ia32x64.c:51-55 | the two counts ORed above two flags are found again in the six-bit fields the reader uses |
| GenSectionIa32x64.CursorLands | sections/cper-section-ia32x64.c:99-111 | after i contexts the reader's cursor stands on the i-th context the generator placed |
| GenSectionIa32x64.GeneratedCanonical | generator/sections/gen-section-ia32x64.c:38-70 | a section laid out like this is canonical, each structure is read where it was placed, and the final cursor is the total length |
| GenSectionIa32x64.GenerateSectionIa32x64 | generator/sections/gen-section-ia32x64.c:19-75 | for every random choice the generated section is canonical and in step with the reader |
| GenSectionPciDev.GenerateSectionPciDev | generator/sections/gen-section-pci-dev.c:14-44 | for every random choice the generated section is canonical |
| GenSectionCxlProtocol.GenerateSectionCxlProtocol | generator/sections/gen-section-cxl-protocol.c:14-66 | for every random choice the generated section is canonical |
| SectionArm.ReadContext | sections/cper-section-arm.c:354-463 | the cursor moves over the header and the array size, but over the header only when an array of unknown type is too long to encode |
| SectionArm.ReadContexts | sections/cper-section-arm.c:103-116 | the loop visits each context where the one before it ended |
| SectionArm.ReadSection | sections/cper-section-arm.c:46-140 | computes the walk's object, which the rows of ArmReadings describe byte by byte, with the cursor where the walk ends |
| ArmReadings.ArmWalkEnds | sections/cper-section-arm.c:94-116 | the contexts start at 40 + 32 * e and the walk ends behind c of them, e and c being the numbers at bytes 4 and 6 |
| ArmReadings.ArmContextShown | sections/cper-section-arm.c:354-463 | a context's version, type and array size are the numbers at 0, 2 and 4; it is null when its type is above 8 and its array too long for base64 |
| ArmReadings.ArmSectionShown | sections/cper-section-arm.c:46-140 | the counts and the length, as many error structures and contexts as the counts say, and what the length at byte 8 leaves behind the walk as vendor information; null when that is too long for base64 |
| GenSectionArm.WalkConserves | sections/cper-section-arm.c:94-137 | on a section laid out as the generator intends, with a context at least, the reader visits context i at 40 + 32 * E + the sizes before it, ends there and leaves exactly the vendor information, if and only if the two counts in the header are the numbers of structures placed |
| GenSectionArm.CountsForced | sections/cper-section-arm.c:94-137 | where the reader visits the first context and where it ends determine the numbers at bytes 4 and 6 |
| GenSectionArm.CountsLost | generator/sections/gen-section-arm.c:48-60 | no generated section is walked like this: the 64-bit mask for the validation bits clears both counts, so the reader finds no structures and everything behind the header becomes vendor information |
| GenSectionArm.GenerateContextInfo | generator/sections/gen-section-arm.c:124-185 | every generated context is as long as its header says and as the registers of its type need |
| GenSectionArm.StampHeader | generator/sections/gen-section-arm.c:48-63 | stores the counts, then the length, then masks the eight bytes that hold validation bits and counts to three bits |
| GenSectionArm.GenerateSectionArm | generator/sections/gen-section-arm.c:19-82 | for every random choice the structures are placed back to back, the length is the size, and the counts are lost |
| CperGenerate.FindGenerator | generator/cper-generate.c:200-210 | the loop finds the first generator of this name |
| CperGenerate.GenerateSection | generator/cper-generate.c:189-220 | the section a generator makes (canonical for IA32/x64, PCI device and CXL protocol), up to 255 random bytes for the unknown type, nothing for an undefined name |
| CperGenerate.SectionOffset | generator/cper-generate.c:138-145 | the running sum yields 128 + 72 * n plus the lengths before, in 32 bits |
| CperGenerate.FixFruText | generator/cper-generate.c:147-157 | the loop replaces early NULs, and no other characters, and puts a NUL into the last byte |
| CperGenerate.GenerateSectionDescriptor | generator/cper-generate.c:119-186 | a canonical descriptor with both validation bits, a severity below four, nineteen characters of text and the section's offset, length and type, or none for an undefined name |
| CperGenerate.GenerateTimestamp | generator/cper-generate.c:54-60 | all fields are valid packed decimal and in the ranges of a date and a time, minutes zero, hours from 1 to 24 |
| CperGenerate.TotalLength | generator/cper-generate.c:69-75 | the sum of header, descriptors and sections |
| CperGenerate.GenerateCperRecord | generator/cper-generate.c:15-92 | writes a record with the header of a simulated record, canonical descriptors and the named sections, or nothing when one comes out empty |
| CperGenerate.GenerateSingleSectionRecord | generator/cper-generate.c:95-116 | writes a canonical descriptor, its offset corrected to 72, and the section |
| GeneratorRoundTrip.OffsetsTile | generator/cper-generate.c:138-145 | offsets of non-empty sections strictly increase, no byte is in two sections, and together they cover exactly what lies between the descriptors and the record's end |
| GeneratorRoundTrip.GeneratedOffsets | generator/cper-generate.c:68-75 | in a record of less than 2^32 bytes the stored offsets, lengths and record length are these |
| GeneratorRoundTrip.WrittenAround | generator/cper-generate.c:78-91 | what a write at any position leaves in a stream is the bytes written between what was there |
| GeneratorRoundTrip.EndToEnd | cper-parse.c:52-74 | from any starting position the reader of a generated record reads every descriptor and every section, the record is stored back to back, and the result is the object of exactly the generated header, descriptors and sections |
| GeneratorRoundTrip.WrittenThenRead | generator/cper-generate.c:78-91 | whatever a stream held and wherever in it a generated record was written, reading there gives that object |
| GeneratorRoundTrip.ReaderKnows | generator/sections/gen-section.c:8-46 | for each name the generator knows, the reader picks the converter of that section type |
| GeneratorReadings.GeneratorShown | generator/sections/gen-section.c:8-46 | each of the 21 names stands for the generator of the section type with its sixteen bytes, any other name for none |
| GeneratorRoundTrip.GeneratedRoundTrip | generator/cper-generate.c:22-92 | a generated record whose sections are canonical comes back byte for byte |
| GeneratorRoundTrip.KnownRoundTrip | tests/ir-tests.cpp:50-91 | that holds for every generated record of IA32/x64, PCI device and CXL protocol sections and of random sections no converter claims, anywhere in a stream |
| GeneratorRoundTrip.BinaryTest | tests/ir-tests.cpp:50-91 | for every list of IA32/x64, PCI device and CXL protocol sections and all random numbers, generating, reading and writing a record ends in the same bytes |
| GeneratorRoundTrip.SingleBinaryTest | tests/ir-tests.cpp:50-91 | likewise in single-section mode |
| GeneratorRoundTrip.SingleRoundTrip | generator/cper-generate.c:95-116 | a generated single section comes back byte for byte, anywhere in a stream |
| JsonSchema.ValidateField | json-schema.c:120-246 | computes the validator's outcome for any schema and value, ending because each call gets a strict part of the schema |
| JsonSchema.ValidateOptions | json-schema.c:181-221 | the loop stops at the first option that does not fail and passes over options that are no objects |
| JsonSchema.ValidateInteger | json-schema.c:249-282 | compares with the bounds saturated to an int and both sides unsigned |
| JsonSchema.CheckRequired | json-schema.c:301-336 | the loop answers whether every required entry is a string naming a member that is not null |
| JsonSchema.CheckClosed | json-schema.c:369-386 | the loop answers whether every member has a property schema |
| JsonSchema.ValidateObject | json-schema.c:298-390 | fails when a required member is missing, a property fails or a member has no schema, in whatever order the members come |
| JsonSchema.ValidateArray | json-schema.c:393-412 | fails when an item fails |
| JsonSchema.OutcomeExact | json-schema.c:120-246 | for every schema and every value: -1 exactly when an unusable schema is met at the top, through options after failing options alone; otherwise 1 exactly when the value passes, where a member or item with an unusable schema counts as passing and bounds are compared as the code compares them |
| JsonSchema.ValidatorExact | json-schema.c:120-246 | on schemas whose every part is usable and whose bounds are small, and on values without negative integers, the validator never errs, returns 1 exactly when the value conforms and 0 otherwise |
| JsonSchema.TypeExact | json-schema.c:160-175 | a schema with nothing but a type accepts exactly the values of that type, for all six type names, and none for any other name |
| JsonSchema.MinimumExact | json-schema.c:253-265 | the comparison with a minimum is the mathematical one exactly outside the values that saturation, clamping or a negative bound falsifies, for all integers |
| JsonSchema.MaximumExact | json-schema.c:268-279 | likewise for a maximum |
| JsonSchema.NegativeBound | json-schema.c:253-279 | a value of 5 validates against a maximum of -1 and fails a minimum of -1 |
| JsonSchema.FatalPropertyPasses | json-schema.c:352-366 | a property whose schema is unusable is a fatal error on its own but passes inside an object |
| JsonSchema.FatalItemPasses | json-schema.c:396-409 | likewise for the items of an array |

## Left out

- CperUtils.TimestampRoundTrip: a text longer than the 24 bytes of its buffer (some field's value is 100 or more) overruns it in C; the model keeps the whole text.
- CperUtils.GuidRoundTrip: scanning in C also skips blanks and accepts signs and a leading 0x; printed texts have none, and the model stops at such characters.
- CperUtils.TextKept: a text without a NUL in its buffer is read on behind it in C; the model ends it where the memory it is given ends.
- Base64.Base64Encode: for lengths whose text would not fit INT32 the C computation overflows; the model yields nothing.
- SectionCxlProtocol.ParseCapability: a text that decodes to more than sixty bytes overruns the struct in C; the model cuts it.
- GenericStatus.StatusRoundTrip: the name and the description of the error type are constants that nothing reads back; the object holds the type's value only.
- SectionArm.ReadSection: the fixed fields of the header other than the two counts and the length, the contents of error structures and of register arrays, and the ARM writer, which disagrees with the reader on several keys and sizes.
- GenSectionArm.GenerateErrorInfo: states only the layout bytes of an error structure, since the walk does not depend on the others.
- JsonSchema.ValidateField: file loading is a set of loadable paths; a loaded schema is not used by the code either. The check of the schema's version, the change of directory and the error messages are left out.
- IrParse.IrHeaderToCper: numbers given as JSON strings or as doubles, which json-c would convert, read as zero, and a missing creator, notification or section type, which C would scan as a null pointer, reads as the empty text.
- CperGenerate.GenerateSingleSectionRecord: an undefined name makes the C program use a null descriptor; the method requires a defined one.
- CperGenerate.GenerateSection: generators that are not modelled make any bytes of any length.
- Json.GetString: of a member that is neither a string nor null json-c gives the JSON text; the model gives the empty text.
- SectionIa32x64.WriteErrors: a missing GUID of an error structure, which C would scan as a null pointer, reads as the empty text.
- RecordLayout.LayoutExact: for the converters that are not modelled, the length at which a section comes back is the length of what these functions write.
- RecordRoundTrip.WriterGoesThrough: the converters that are not modelled are taken to write any object.
- Sections.SectionRoundTrip: for the converters that are not modelled, a canonical section is by definition one that comes back unchanged.
- Sections.RewrittenCanonical: for the same converters, that what they write is canonical is a precondition.
- Sections of the types generic, memory, memory 2, PCIe, PCI bus, DMAr, firmware, CCIX and CXL component: fixed-size structs whose codecs would only add easy members.
- The NVIDIA generator: its number of registers is random while its size is fixed.
- json-c's reference counts and its order of members, allocation failure, flushing, and the string and buffer wrappers around the reader.
- The command-line tools, the SWIG file, the build files and the quality of the random numbers.
