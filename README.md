# hermes_dec in Dafny

A model of the core of hermes_dec, a decompiler from Hermes bytecode (format version
93) to JavaScript, with proofs about it. The pipeline runs from bytes to statements:

1. **Instruction decoding.** The v93 `Instruction` enum gives every opcode its
   number and operand list. The `ByteCodeInstructions` derive turns that enum into
   `get_bytecode_size` and `read_opcode`. The per-function `disassemble_function` loop
   records each instruction with the offset it was read at.
2. **File reading.** `BytecodeFile::from_reader` reads the 128-byte file header,
   then every table whose length the header gives. The `FromBytes` derive generates
   the struct readers. The `#[bitfield]` words hold the small function headers and
   the string table entries. `get_string` slices the string storage.
3. **Graphs.** `construct_flow_graph` builds a graph with one node per instruction
   and edges labelled true or false. `get_instruction_by_offset` resolves jump
   targets. The graph is modelled for both the search as written and the corrected
   search (see "## Findings"). `ConstructFlowGraph` with `AsWritten` is the code as it
   stands. `construct_cfg` groups the instructions into basic blocks with a
   depth-first walk and joins the blocks.
4. **Statement generation.** `AstGenerator` is a staged state machine. It yields the
   statements of a block, detects `while` and `do..while` loops and `if`s by
   reachability, and chains on to the block that follows. `jump_inst_to_test` gives
   the condition of a conditional jump. `add_inside_while` repeats the loop-header
   statements before every `continue`. `simple_instructions_to_ast` turns each
   instruction of a block into statements.
5. **hbc_parser_tool.** A separate tool that reads Hermes' `BytecodeList.def` line
   by line into an insertion-ordered table from opcode names to operands, then
   serialises each operand with a tag for its kind.

Every `panic!`, `unwrap` of a failure, `todo!()` and `unimplemented!()` is an `Err`
carrying the panic's message. A `Seek + Read` stream is a byte sequence plus a
position (`Stream.Cursor`). A petgraph `Graph` is a node count plus its edges in
insertion order. swc's syntax tree is the small `Ast.Expr` / `Ast.Stmt` datatype
holding only the shapes the generator builds. The generator may run forever, so its
functions take a `fuel` bound.

Files, one module each: `wrappers.dfy`, `bytes.dfy`, `v93.dfy`, `stream.dfy`,
`bytecode_instructions.dfy`, `struct_reader.dfy`, `file_headers.dfy`,
`file_reader.dfy`, `function_reader.dfy`, `graphs.dfy`, `ast.dfy`,
`simple_instructions.dfy`, `jump_test.dfy`, `inside_while.dfy`, `traversals.dfy`,
`generate_ast.dfy`, `generate_ast_facts.dfy`, `searches.dfy`, `generator.dfy`,
`hbc_parser_tool.dfy`.

## Model

| member | source | states |
|---|---|---|
| Bytes.LeValue | hermes_dec/src/hermes_file_reader.rs:22-37 | a little-endian field of `n` bytes holds a value below 256^n |
| Bytes.LeBytes | hermes_dec/src/hermes_file_reader.rs:22-37 | the encoding of a value as a field takes exactly `n` bytes |
| Bytes.LeValueOfLeBytes | hermes_dec/src/hermes_file_reader.rs:22-37 | encoding a value that fits and reading it back gives the value |
| Bytes.LeBytesOfLeValue | hermes_dec/src/hermes_file_reader.rs:22-37 | reading a field and encoding the value gives the same bytes back |
| Bytes.Pow256Values | hermes_dec/src/hermes_file_reader.rs:594-766 | the ranges of the 1-, 2-, 4-, 8- and 16-byte integers the reader uses |
| Bytes.Low | hermes_dec/src/hermes_file_reader.rs:198-224 | a bitfield of width `w` holds a value below 2^w |
| Bytes.SplitJoin | hermes_dec/src/hermes_file_reader.rs:198-224 | splitting a word at bit `w` and packing the halves again gives the word |
| Bytes.JoinSplit | hermes_dec/src/hermes_file_reader.rs:198-224 | packing a `w`-bit field below a word and splitting gives both parts back |
| Bytes.LowSmall | hermes_dec/src/hermes_file_reader.rs:198-224 | a field already narrower than its width is stored unchanged |
| Bytes.HighBound | hermes_dec/src/hermes_file_reader.rs:198-224 | the fields above bit `a` of an `a + b`-bit word fit in `b` bits |
| Bytes.JoinBound | hermes_dec/src/hermes_file_reader.rs:198-224 | packing a `w`-bit field below a `b`-bit word gives a `w + b`-bit word |
| Bytes.OrBits | hermes_dec/src/hermes_file_reader.rs:229 | `x \| y` on `n` bits stays within `n` bits |
| Bytes.OrDisjoint | hermes_dec/src/hermes_file_reader.rs:229 | `(hi << k) \| lo` with `lo` below 2^k equals `hi * 2^k + lo` |
| V93.UnreachableIsZero | hermes_dec/src/bytecode/v93.rs:61-64 | `Unreachable` is opcode 0, with no operands |
| V93.JumpFormsPaired | hermes_dec/src/bytecode/v93.rs:712-947 | every short jump is followed by its `Long` form, which has an `i32` offset where the short form has an `i8`, and the same registers |
| V93.RegisterWidthsAll | hermes_dec/src/bytecode/v93.rs:63-1018 | every operand named `..._reg` is a `u8`, except in `MovLong`, whose two registers are `u32` |
| V93.RegistersOfWidthIff | hermes_dec/src/bytecode/v93.rs:63-1018 | the operand-by-operand register check holds exactly when every register operand has the given type |
| V93.BuiltinsCount | hermes_dec/src/bytecode/v93.rs:6-59 | the builtin name table has exactly 52 entries |
| Stream.Cursor.constructor | hermes_dec/src/hermes_file_reader.rs:262 | a new cursor over some bytes starts at position 0 |
| Stream.Cursor.Seek | hermes_dec/src/hermes_file_reader.rs:167-169 | a seek moves the position to where it was asked |
| Stream.Cursor.ReadExact | c_struct_macro/src/lib.rs:89-90 | `read_exact` returns the next `n` bytes and advances past them, or fails without moving when fewer remain |
| Stream.Cursor.ReadUint | help_macros/src/lib.rs:54-59 | a little-endian read returns the value of the next `n` bytes and advances, or fails at the end of the data |
| ByteCodeInstructions.OperandTypeOf | help_macros/src/lib.rs:20-34 | a field type is supported exactly when it is a path type named u8, i8, u16, i32, u32, f64 or bool |
| ByteCodeInstructions.Typed | help_macros/src/lib.rs:17-40 | a variant's operand list keeps its fields in declaration order with their types |
| ByteCodeInstructions.VariantSize | help_macros/src/lib.rs:14-44 | the derive's `u8` size of a variant succeeds exactly when every field type is supported and the width sum is at most 255, and is that sum |
| ByteCodeInstructions.CheckVariant | help_macros/src/lib.rs:17-40 | the checks on one variant pass exactly when the derive accepts it: unit, or named fields of supported types at most 255 bytes wide |
| ByteCodeInstructions.Derive | help_macros/src/lib.rs:5-105 | the derive succeeds exactly on an enum all of whose variants have named or no fields of supported types; the operand table then has one entry per variant, in declaration order |
| ByteCodeInstructions.GetBytecodeSize | help_macros/src/lib.rs:89-94 | `get_bytecode_size` is defined exactly for opcodes below the variant count, and is the width sum of the variant's operands |
| ByteCodeInstructions.DecodeOperands | help_macros/src/lib.rs:46-76 | one value per declared operand |
| ByteCodeInstructions.DecodeAdvances | help_macros/src/lib.rs:96-101 | a successful `read_opcode` consumes at least the opcode byte and stays within the data |
| ByteCodeInstructions.EncodeOperand | help_macros/src/lib.rs:53-62 | an operand's encoding has the width its type reads |
| ByteCodeInstructions.EncodeOperands | help_macros/src/lib.rs:46-76 | the operands' encoding has the size `get_bytecode_size` gives |
| ByteCodeInstructions.EncodeInstruction | help_macros/src/lib.rs:96-101 | an instruction's encoding is one opcode byte plus its operand bytes |
| ByteCodeInstructions.DecodeEncodeOperand | help_macros/src/lib.rs:53-62 | each operand read inverts its encoding |
| ByteCodeInstructions.DecodeEncodeOperands | help_macros/src/lib.rs:46-76 | reading a variant's operands in declaration order inverts their encoding |
| ByteCodeInstructions.DecodeEncode | help_macros/src/lib.rs:96-101 | `read_opcode` reads back every well-formed instruction from its encoding, wherever it sits, and stops right after it |
| ByteCodeInstructions.EncodedAt | help_macros/src/lib.rs:96-101 | an encoded instruction sits in the buffer as its opcode byte followed by its operand bytes |
| ByteCodeInstructions.DecodeLocal | help_macros/src/lib.rs:96-101 | a decode depends only on the bytes it consumes |
| ByteCodeInstructions.DecodeOperandsFit | help_macros/src/lib.rs:53-62 | every decoded operand lies in the range of its type |
| ByteCodeInstructions.DecodeOutcome | help_macros/src/lib.rs:89-101 | `read_opcode` fails exactly at the end of the data, at a byte that is no opcode (the `Unhandled opcode` panic) or when fewer operand bytes remain than `get_bytecode_size` gives |
| ByteCodeInstructions.BoolOperandIsZeroTest | help_macros/src/lib.rs:60 | a `bool` operand is true exactly when its byte is 0 |
| ByteCodeInstructions.OperandsLittleEndian | help_macros/src/lib.rs:56-59 | multi-byte operands are read least significant byte first |
| ByteCodeInstructions.SignedOperands | help_macros/src/lib.rs:55-57 | signed operands are two's complement |
| ByteCodeInstructions.ReadOpcode | help_macros/src/lib.rs:96-101 | the cursor method returns what the decoder reads and leaves the cursor where the instruction ends |
| ByteCodeInstructions.ReadOperands | help_macros/src/lib.rs:46-76 | the operand reads of one variant in order, failing with the end-of-file error when the bytes run out |
| StructReader.KindOf | c_struct_macro/src/lib.rs:27-56 | a field whose type is exactly `bool` is read as a bool; any other field as `size_of` raw bytes |
| StructReader.Derive | c_struct_macro/src/lib.rs:12-26 | the derive succeeds exactly on a struct whose fields all have names, keeping their order and sizes |
| StructReader.DecodeField | c_struct_macro/src/lib.rs:28-35 | a bool field fails exactly when its byte is neither 0 nor 1 |
| StructReader.ReadFields | c_struct_macro/src/lib.rs:21-57 | a successful read gives one value per field |
| StructReader.ReadFieldAt | c_struct_macro/src/lib.rs:37-45 | field `k` is the decoding of the `size_of` bytes at its running offset |
| StructReader.ReadFieldsAtOffsets | c_struct_macro/src/lib.rs:118-121 | every field of a successful read is the decoding of its slice at its running offset, inside the buffer |
| StructReader.ReadFieldsPrefix | c_struct_macro/src/lib.rs:118-121 | a read looks only at the first `size_of` bytes of the struct |
| StructReader.ReadFieldsPlain | c_struct_macro/src/lib.rs:21-57 | a struct without bool fields reads successfully exactly when all its bytes are there |
| StructReader.ReadFieldsStep | c_struct_macro/src/lib.rs:118-121 | a read is the first field followed by the read of the rest after it |
| StructReader.Rest | c_struct_macro/src/lib.rs:124-128 | the bytes a stream still holds from its position |
| StructReader.FromBytes | c_struct_macro/src/lib.rs:115-122 | `from_bytes` fails unless the input has exactly the struct's size, and then reads the fields at running offsets |
| StructReader.FromReader | c_struct_macro/src/lib.rs:59-95 | `from_reader` reads the fields from the stream's position and advances by the total field size |
| StructReader.ReadersAgree | c_struct_macro/src/lib.rs:115-128 | `from_bytes` on the struct's bytes and `from_reader` on a stream holding them agree, whatever follows |
| FileHeaders.ProhibitFrom | hermes_dec/src/hermes_file_reader.rs:95-104 | `Prohibit::from` succeeds exactly on 0, 1 and 2 |
| FileHeaders.ProhibitRoundTrip | hermes_dec/src/hermes_file_reader.rs:89-111 | converting a `Prohibit` to `u8` and back is the identity, both ways |
| FileHeaders.FlagsByteRoundTrip | hermes_dec/src/hermes_file_reader.rs:112-124 | the six fields of `FunctionHeaderFlags` tile the byte: reading and writing back gives the byte |
| FileHeaders.FlagsFieldsRoundTrip | hermes_dec/src/hermes_file_reader.rs:112-124 | writing flags and reading them back gives the flags |
| FileHeaders.CjsBit | hermes_dec/src/hermes_file_reader.rs:42-50 | `cjs_modules_statically_resolved` is bit 1 of the options byte |
| FileHeaders.SmallFuncHeaderWordRoundTrip | hermes_dec/src/hermes_file_reader.rs:198-224 | the ten fields of widths 25, 7, 15, 17, 25, 7, 8, 8, 8, 8 tile the `u128` exactly |
| FileHeaders.SmallFuncHeaderFieldsRoundTrip | hermes_dec/src/hermes_file_reader.rs:198-224 | a small header whose fields fit their widths reads back from its word |
| FileHeaders.SmallStringTableEntryRoundTrip | hermes_dec/src/hermes_file_reader.rs:284-292 | is_utf16 (1 bit), offset (23) and length (8) tile the `u32` both ways |
| FileHeaders.StringKindFrom | hermes_dec/src/hermes_file_reader.rs:301-305 | the kind is `Identifier` exactly when bit 0 is set |
| FileHeaders.StringKindEntryRoundTrip | hermes_dec/src/hermes_file_reader.rs:313-319 | count (31 bits) and kind (1 bit) tile the `u32` both ways |
| FileHeaders.OffsetLengthWordRoundTrip | hermes_dec/src/hermes_file_reader.rs:321-338 | the overflow, BigInt and RegExp entries split a `u64` into offset and length and pack back |
| FileHeaders.OffsetLengthFieldsRoundTrip | hermes_dec/src/hermes_file_reader.rs:321-338 | offset and length packed into a `u64` read back unchanged |
| FileHeaders.HeaderLayout | hermes_dec/src/hermes_file_reader.rs:54-81 | the file header's 24 fields fill its 128 bytes |
| FileHeaders.FunctionHeaderLayout | hermes_dec/src/hermes_file_reader.rs:145-163 | the large function header's ten fields take 31 bytes of its 32 |
| FileReader.Words | hermes_dec/src/hermes_file_reader.rs:600-608 | a successful table read gives `count` words |
| FileReader.WordsOk | hermes_dec/src/hermes_file_reader.rs:600-608 | a table reads successfully exactly when all its words are in the data |
| FileReader.WordAt | hermes_dec/src/hermes_file_reader.rs:600-608 | word `k` is the little-endian value of the bytes at `pos + k * width` |
| FileReader.WordTable | hermes_dec/src/hermes_file_reader.rs:600-608 | a table read succeeds exactly when its words fit, gives `count` words and ends right after them |
| FileReader.WordTableAt | hermes_dec/src/hermes_file_reader.rs:600-608 | entry `k` of a word table is the value of its `width` bytes |
| FileReader.ReadWords | hermes_dec/src/hermes_file_reader.rs:609-616 | the loop of reads computes the word table and leaves the stream after it |
| FileReader.ByteRun | hermes_dec/src/hermes_file_reader.rs:645-652 | a run of bytes reads successfully exactly when it fits, giving `count` bytes |
| FileReader.ByteTable | hermes_dec/src/hermes_file_reader.rs:645-652 | a byte run succeeds exactly when it fits and ends right after it |
| FileReader.ReadBytes | hermes_dec/src/hermes_file_reader.rs:653-660 | the loop of byte reads computes the byte run and leaves the stream after it |
| FileReader.Pairs | hermes_dec/src/hermes_file_reader.rs:735-745 | a successful pair table has `count` pairs |
| FileReader.PairsAreWords | hermes_dec/src/hermes_file_reader.rs:735-745 | a pair table is the word table of twice as many `u32`s, two at a time |
| FileReader.PairTable | hermes_dec/src/hermes_file_reader.rs:735-745 | a pair table has `count` pairs and ends 8 bytes per pair later |
| FileReader.ReadPairs | hermes_dec/src/hermes_file_reader.rs:712-734 | the loop of pair reads computes the pair table and leaves the stream after it |
| FileReader.HeaderAt | hermes_dec/src/hermes_file_reader.rs:595-599 | the header reads exactly when 128 bytes remain |
| FileReader.StringSectionAt | hermes_dec/src/hermes_file_reader.rs:600-652 | the function headers, string kinds, identifier hashes, string entries, overflow entries and string storage each have the length the header gives, the function headers are the first 16-byte words, and the section ends after their total size |
| FileReader.LiteralSectionAt | hermes_dec/src/hermes_file_reader.rs:653-711 | the three literal buffers, the BigInt and RegExp tables and their storage each have the length the header gives, and the section ends after their total size |
| FileReader.TablesAt | hermes_dec/src/hermes_file_reader.rs:600-766 | the whole file after the header, each table as long as its count, and exactly one of the two CommonJS tables present: the static one exactly when the option bit is set |
| FileReader.ReadStringSection | hermes_dec/src/hermes_file_reader.rs:600-652 | the reads of the string section compute `StringSectionAt` |
| FileReader.ReadLiteralSection | hermes_dec/src/hermes_file_reader.rs:653-711 | the reads of the literal section compute `LiteralSectionAt` |
| FileReader.FromReader | hermes_dec/src/hermes_file_reader.rs:594-766 | `from_reader` computes the parse of the file from the stream's position |
| FileReader.ReadTables | hermes_dec/src/hermes_file_reader.rs:600-745 | the reads after the header compute `TablesAt` |
| FileReader.StringSectionOk | hermes_dec/src/hermes_file_reader.rs:600-652 | the string section reads exactly when its size fits in the data |
| FileReader.LiteralSectionOk | hermes_dec/src/hermes_file_reader.rs:653-711 | the literal section reads exactly when its size fits in the data |
| FileReader.ParseFileOk | hermes_dec/src/hermes_file_reader.rs:594-766 | `from_reader` succeeds exactly when the header and every table it describes are in the data |
| FileReader.PairTableOk | hermes_dec/src/hermes_file_reader.rs:735-745 | a pair table reads exactly when its 8-byte pairs fit |
| FileReader.TablesOk | hermes_dec/src/hermes_file_reader.rs:600-745 | the tables read exactly when their total size fits |
| FileReader.SectionFunctionHeaderAt | hermes_dec/src/hermes_file_reader.rs:600-608 | function header `k` is the `k`-th 16-byte word of the string section |
| FileReader.FunctionHeaderAt | hermes_dec/src/hermes_file_reader.rs:600-608 | in a parsed file, function header `k` is the `k`-th 16-byte word after the file header |
| FileReader.Latin1 | hermes_dec/src/hermes_file_reader.rs:774-780 | each byte becomes the character with the same code point |
| FileReader.Latin1Bytes | hermes_dec/src/hermes_file_reader.rs:774-780 | the bytes of a string of narrow characters, one per character |
| FileReader.Latin1RoundTrip | hermes_dec/src/hermes_file_reader.rs:774-780 | the byte-to-character mapping loses nothing |
| FileReader.GetString | hermes_dec/src/hermes_file_reader.rs:767-782 | `get_string` panics past the table, is `None` exactly for an empty entry, panics when the entry runs past the storage, and otherwise gives `length` characters |
| FileReader.GetStringBytes | hermes_dec/src/hermes_file_reader.rs:767-782 | a returned string is exactly the entry's slice of the string storage |
| FunctionReader.ReadBytecode | hermes_dec/src/hermes_file_reader.rs:165-176 | the large header's `read_bytecode` returns `bytecode_size_in_bytes` bytes from `offset` and restores the stream position |
| FunctionReader.SmallReadBytecode | hermes_dec/src/hermes_file_reader.rs:238-252 | the small header's `read_bytecode` is `None` exactly when the header overflowed, and otherwise the bytes at `offset`, position restored |
| FunctionReader.ByteRunAt | hermes_dec/src/hermes_file_reader.rs:165-176 | byte `i` of a function's bytecode is byte `offset + i` of the file |
| FunctionReader.LargeHeaderOffset | hermes_dec/src/hermes_file_reader.rs:229 | the large header's position is a `u32` |
| FunctionReader.LargeHeaderOffsetSplit | hermes_dec/src/hermes_file_reader.rs:229 | when both halves fit in 16 bits, `(info_offset << 16) \| offset` is `info_offset * 65536 + offset` |
| FunctionReader.LargeHeaderAt | hermes_dec/src/hermes_file_reader.rs:230-231 | a large header reads exactly when its 31 bytes are there |
| FunctionReader.ReadLargeHeader | hermes_dec/src/hermes_file_reader.rs:227-236 | `read_large_header` reads at `(info_offset << 16) \| offset` and restores the stream position |
| FunctionReader.DisassembleBytes | hermes_dec/src/hermes_file_reader.rs:182-194 | the loop over a fresh cursor computes the disassembly from offset 0 |
| FunctionReader.DisassembleStep | hermes_dec/src/hermes_file_reader.rs:182-194 | one turn of the loop records the instruction at the cursor's position and goes on after it |
| FunctionReader.DisassembleFirst | hermes_dec/src/hermes_file_reader.rs:182-194 | the disassembly is empty exactly at the end of the bytecode and otherwise starts at the starting position |
| FunctionReader.DisassembleAt | hermes_dec/src/hermes_file_reader.rs:182-194 | instruction `k` is what `read_opcode` decodes at its offset, ending where instruction `k + 1` starts |
| FunctionReader.DisassembleOffsets | hermes_dec/src/hermes_file_reader.rs:182-194 | the offsets start where the loop starts, strictly increase, and each instruction is the decode at its offset |
| FunctionReader.InstructionsOf | hermes_dec/src/hermes_file_reader.rs:279-282 | the instructions of a disassembly without their offsets, in order |
| FunctionReader.DisassembleEncoded | hermes_dec/src/hermes_file_reader.rs:182-194 | disassembling the encodings of well-formed instructions gives them back |
| FunctionReader.DisassembleFunction | hermes_dec/src/hermes_file_reader.rs:178-195 | the large header's `disassemble_function` disassembles its bytecode and restores the stream position |
| FunctionReader.SmallDisassembleFunction | hermes_dec/src/hermes_file_reader.rs:254-275 | the small header's `disassemble_function` goes through the large header when overflowed, and otherwise disassembles its own bytecode |
| Graphs.ScanUp | hermes_dec/src/graphs.rs:1299-1310 | the first instruction at or after `j` at the target offset, or none there |
| Graphs.ScanDown | hermes_dec/src/graphs.rs:1299-1310 | the last instruction at or before `j` at the target offset, or none there |
| Graphs.Target | hermes_dec/src/graphs.rs:1291-1311 | the intended jump target search: the nearest instruction at the target offset in the jump's direction, or `None` when there is none |
| Graphs.TargetAsWrittenDiffers | hermes_dec/src/graphs.rs:1291-1311 | the code as written agrees with the intended search except for a forward jump from the first instruction, which it never resolves |
| Graphs.ForwardJumpFromFirstInstruction | hermes_dec/src/graphs.rs:1303-1306 | a `Jmp` of 4 bytes at offset 0 over instructions at 0, 2, 4 resolves as written to nothing, intended to index 2 |
| Graphs.TargetAsWritten | hermes_dec/src/graphs.rs:1291-1311 | the search as written: whatever it finds is at the jump's end offset; a `None` after the first step means no instruction at that offset on the searched side |
| Graphs.Resolve | hermes_dec/src/graphs.rs:1291-1311 | either search finds only an instruction at the jump's end offset |
| Graphs.GetInstructionByOffset | hermes_dec/src/graphs.rs:1291-1311 | the loop as written computes `TargetAsWritten` |
| Graphs.FindInstructionByOffset | hermes_dec/src/graphs.rs:1291-1311 | the corrected loop computes `Target` |
| Graphs.FallThrough | hermes_dec/src/graphs.rs:1198-1205 | a single `false` edge to the next instruction exactly when there is one |
| Graphs.InstructionEdges | hermes_dec/src/graphs.rs:20-1208 | an instruction's edges under the chosen search: a failure exactly when its jump does not resolve; none for `Ret` and `Throw`; one `false` edge for an unconditional jump; a `true` edge to the target plus the fall-through for a conditional one |
| Graphs.FlowEdgesErr | hermes_dec/src/graphs.rs:20-1210 | once one jump fails to resolve, the whole graph fails |
| Graphs.ConstructFlowGraph | hermes_dec/src/graphs.rs:8-1213 | `construct_flow_graph` computes `FlowGraph`; with `AsWritten` it calls `get_instruction_by_offset` as written |
| Graphs.AddInstructionEdges | hermes_dec/src/graphs.rs:23-1207 | one arm of the match pushes exactly the instruction's own edges, or fails on the `unwrap` of an unresolved jump |
| Graphs.EdgesFrom | hermes_dec/src/graphs.rs:1227-1229 | the out-edges of `v`, all leaving `v` |
| Graphs.FlowEdgesFrom | hermes_dec/src/graphs.rs:20-1210 | the out-edges of instruction `i` are exactly the ones its own arm adds |
| Graphs.FlowGraphShape | hermes_dec/src/graphs.rs:8-1213 | the flow graph exists exactly when the chosen search resolves every jump (as written: `TargetAsWritten` is never `None` for a jump), fails otherwise only with the `unwrap` panic, has one node per instruction, edges between nodes, and each node's out-edges are its own arm's |
| Graphs.FlowEdgesOk | hermes_dec/src/graphs.rs:20-1210 | the edge list builds exactly when every jump so far resolves |
| Graphs.FlowEdgesErrMsg | hermes_dec/src/graphs.rs:20-1210 | the only failure while adding edges is the `unwrap` of an unresolved jump |
| Graphs.ForwardJumpFlowGraph | hermes_dec/src/graphs.rs:8-1213 | the instructions at offsets 0, 2, 4 whose first `Jmp` goes forward by 4: the graph as written panics, the corrected one has the edges 0 to 2 and 1 to 2 |
| Graphs.Incoming | hermes_dec/src/graphs.rs:1224-1226 | the in-edges of `v`, all entering `v` |
| Graphs.NeighborsBound | hermes_dec/src/graphs.rs:1221 | the neighbours of a node are nodes of the graph |
| Graphs.Pop | hermes_dec/src/graphs.rs:1221 | the DFS stack once discovered nodes are popped: a prefix whose top is undiscovered |
| Graphs.Pushed | hermes_dec/src/graphs.rs:1221 | the DFS stack once the undiscovered neighbours are pushed: every neighbour is discovered or on the stack |
| Graphs.Step | hermes_dec/src/graphs.rs:1221 | `Dfs::next` ends exactly when every stacked node is discovered, and otherwise returns an undiscovered node and marks it |
| Graphs.DfsFromStep | hermes_dec/src/graphs.rs:1221 | the walk is the node one step returns followed by the rest of the walk |
| Graphs.Dfs.constructor | hermes_dec/src/graphs.rs:1219 | `Dfs::new` stacks the start node with nothing discovered |
| Graphs.Dfs.Next | hermes_dec/src/graphs.rs:1221 | the method computes `Step` and updates the stack and the discovered set to match |
| Graphs.Dfs.PushUndiscovered | hermes_dec/src/graphs.rs:1221 | the neighbour loop pushes exactly the undiscovered neighbours, in order |
| Graphs.Enter | hermes_dec/src/graphs.rs:1233-1236 | entering a vertex may close the current block; the closed blocks and the current block still hold the same nodes in the same order, and no closed block is empty |
| Graphs.Leave | hermes_dec/src/graphs.rs:1238-1259 | leaving a vertex appends it to the current block and may close that block; the nodes keep their order and no closed block is empty |
| Graphs.BlocksFold | hermes_dec/src/graphs.rs:1221-1260 | the closed blocks and the current block together hold exactly the visiting order, with no closed block empty |
| Graphs.BlocksFoldAppend | hermes_dec/src/graphs.rs:1221-1260 | visiting one more vertex is one more block step |
| Graphs.BuildBlocks | hermes_dec/src/graphs.rs:1219-1260 | the `while let` loop of `construct_cfg` computes the blocks of the DFS order |
| Graphs.AddVertex | hermes_dec/src/graphs.rs:1222-1259 | the loop body is one block step |
| Graphs.DfsFromFacts | hermes_dec/src/graphs.rs:1221 | the walk returns each node at most once, only nodes of the graph and never an already discovered one |
| Graphs.StepClosed | hermes_dec/src/graphs.rs:1221 | each step keeps every successor of a discovered node either discovered or stacked |
| Graphs.DfsFromClosed | hermes_dec/src/graphs.rs:1221 | when the walk ends, the discovered nodes are closed under successors |
| Graphs.DfsOrderFacts | hermes_dec/src/graphs.rs:1219-1221 | the walk from node 0 visits node 0 first, each node once, and every node reachable from node 0 |
| Graphs.ChainedAppend | hermes_dec/src/graphs.rs:1238-1259 | a block grows only along a single out-edge |
| Graphs.StepTop | hermes_dec/src/graphs.rs:1221 | an undiscovered node on top of the stack is the next one visited |
| Graphs.StepPushesSuccessor | hermes_dec/src/graphs.rs:1221 | a node with one out-edge to an undiscovered node leaves that node on top of the stack |
| Graphs.BlockStepChained | hermes_dec/src/graphs.rs:1233-1259 | a block step keeps every block a chain of single edges, and a block left open ends in a node with one edge to an unvisited node |
| Graphs.BlocksRun | hermes_dec/src/graphs.rs:1221-1260 | by the end of the walk no current block is left over and all blocks are chains |
| Graphs.BlocksPartition | hermes_dec/src/graphs.rs:1221-1260 | the blocks partition the visited nodes in visiting order, none is empty, and each is a chain of single edges |
| Graphs.OldestWeightFirst | hermes_dec/src/graphs.rs:1268-1271 | `OldestWeight` is the label of the first flow edge from `s` to `t`, or none when there is none |
| Graphs.WeightMapAppend | hermes_dec/src/graphs.rs:1268-1271 | the map of a concatenation: later edges overwrite earlier ones |
| Graphs.IncomingWeights | hermes_dec/src/graphs.rs:1263-1271 | the map built over `v`'s in-edges has a key for exactly the sources of edges into `v`, holding the label of the oldest such edge |
| Graphs.InWeights | hermes_dec/src/graphs.rs:1263-1271 | for each block, the map over the in-edges of its first node |
| Graphs.Lasts | hermes_dec/src/graphs.rs:1273 | the last node of each block |
| Graphs.EdgesIntoIff | hermes_dec/src/graphs.rs:1272-1281 | the inner loop adds an edge exactly for each block whose last node is in the map |
| Graphs.CfgEdgesIff | hermes_dec/src/graphs.rs:1262-1286 | the block edges are exactly those the map lookups find |
| Graphs.MapEdgeIff | hermes_dec/src/graphs.rs:1262-1286 | looking a block's last node up in the map finds exactly the oldest flow edge into the other block's first node |
| Graphs.CfgShape | hermes_dec/src/graphs.rs:1214-1290 | the block graph fails exactly on an empty flow graph; otherwise its blocks split the DFS order from node 0 into non-empty chains of single edges, and there is an edge between two blocks exactly when the last node of one has a flow edge into the first node of the other, with the oldest such edge's label |
| Graphs.ConstructCfg | hermes_dec/src/graphs.rs:1214-1290 | `construct_cfg` computes `CfgOf` |
| Graphs.IncomingMap | hermes_dec/src/graphs.rs:1266-1271 | the loop over in-edges builds the source-to-label map |
| Graphs.EdgesIntoBlock | hermes_dec/src/graphs.rs:1263-1282 | one turn of the outer loop adds the edges into block `i` |
| Ast.Decimal | hermes_dec/src/generate_ast.rs:1539 | a register number is written as a non-empty run of decimal digits |
| Ast.DecimalRoundTrip | hermes_dec/src/generate_ast.rs:1539 | reading the digits back gives the number |
| Ast.RegNameInjective | hermes_dec/src/generate_ast.rs:1539 | distinct registers get distinct names `r<n>` |
| JumpTest.Test | hermes_dec/src/generate_ast.rs:484-1486 | `jump_inst_to_test` gives a test exactly for the conditional jumps, and panics on any other instruction |
| JumpTest.LongFormSameTest | hermes_dec/src/generate_ast.rs:484-1486 | a short conditional jump and its `Long` form have the same test |
| JumpTest.NotFormNegates | hermes_dec/src/generate_ast.rs:484-1486 | each `JNot…` tests `!( … )` of its positive counterpart |
| JumpTest.EqualityJumpsNotNegated | hermes_dec/src/generate_ast.rs:484-1486 | the equality jumps test `==`, `!=`, `===` or `!==` directly |
| JumpTest.JmpFalseNegatesJmpTrue | hermes_dec/src/generate_ast.rs:484-1486 | `JmpFalse` tests `!rN` where `JmpTrue` tests `rN` |
| InsideWhile.AddInsideConcat | hermes_dec/src/generate_ast.rs:1489-1517 | the rewrite of a concatenation is the concatenation of the rewrites, the first panic first |
| InsideWhile.AddInsideOk | hermes_dec/src/generate_ast.rs:1489-1517 | the rewrite panics exactly when it reaches a statement that is not `continue`, `if`, expression or `return` |
| InsideWhile.AddInsideStmtOk | hermes_dec/src/generate_ast.rs:1489-1517 | the same for one statement |
| InsideWhile.AddInsideNoContinue | hermes_dec/src/generate_ast.rs:1489-1517 | a supported body without `continue` is left unchanged |
| InsideWhile.AddInsideStmtNoContinue | hermes_dec/src/generate_ast.rs:1489-1517 | the same for one statement |
| InsideWhile.AddInsideNothing | hermes_dec/src/generate_ast.rs:1489-1517 | adding nothing leaves a supported body unchanged |
| InsideWhile.AddInsideStmtNothing | hermes_dec/src/generate_ast.rs:1489-1517 | the same for one statement |
| InsideWhile.ContinueGetsPrefix | hermes_dec/src/generate_ast.rs:1489-1517 | a top-level `continue` is preceded by a copy of the added statements, in order |
| InsideWhile.AddInsideWhile | hermes_dec/src/generate_ast.rs:1489-1517 | the in-place rewrite of the body computes `AddInside` |
| InsideWhile.AddInsideIf | hermes_dec/src/generate_ast.rs:1489-1517 | the `if` arm rewrites the `then` block and then the `else` block |
| InsideWhile.Advance | hermes_dec/src/generate_ast.rs:1489-1517 | one step of the walk extends the rewritten prefix by one statement and leaves the rest as it was |
| InsideWhile.AddInsideErr | hermes_dec/src/generate_ast.rs:1489-1517 | a panic on the statement after a rewritten prefix is the panic of the whole body |
| Traversals.PostNext | hermes_dec/src/generate_ast.rs:135 | `DfsPostOrder::next` returns an unfinished node of the graph and finishes it, and the discovered set only grows |
| Traversals.PostNextStaysIn | hermes_dec/src/generate_ast.rs:135 | the post-order walk returns only nodes of a closed set that holds its stack |
| Traversals.FirstOf | hermes_dec/src/generate_ast.rs:135-141 | the loop stops at a node of the graph that is in `sources` and was not yet finished |
| Traversals.FirstOfStaysIn | hermes_dec/src/generate_ast.rs:135-141 | the node found lies in every closed set holding the walk |
| Traversals.PostOrder.constructor | hermes_dec/src/generate_ast.rs:123 | `DfsPostOrder::new` stacks the start with nothing discovered or finished |
| Traversals.PostOrder.Next | hermes_dec/src/generate_ast.rs:135 | the method computes `PostNext` and updates the walk's state to match |
| Traversals.PostOrder.Step | hermes_dec/src/generate_ast.rs:135 | one turn of the walk either returns the node `PostNext` returns and leaves the state it describes, or keeps `PostNext` unchanged while discovering a node or shortening the stack |
| Traversals.PostOrder.Mark | hermes_dec/src/generate_ast.rs:128-129 | marking a node adds it to the discovered and finished sets |
| Traversals.PostOrder.PushUndiscovered | hermes_dec/src/generate_ast.rs:135 | the neighbour loop pushes exactly the undiscovered neighbours |
| Traversals.Enqueue | hermes_dec/src/generate_ast.rs:289 | `Bfs::next` queues each undiscovered neighbour exactly once, and nothing else |
| Traversals.BfsProgress | hermes_dec/src/generate_ast.rs:289 | each step discovers a node or shortens the queue |
| Traversals.FinalDiscovered | hermes_dec/src/generate_ast.rs:289 | the discovered set only grows |
| Traversals.BfsInvStep | hermes_dec/src/generate_ast.rs:289 | a step keeps the search's invariant |
| Traversals.BfsFromCovers | hermes_dec/src/generate_ast.rs:289 | the search returns the queued nodes and the ones it discovers, and ends with a closed discovered set |
| Traversals.EnqueueStep | hermes_dec/src/generate_ast.rs:289 | one turn of the queuing loop |
| Traversals.BfsFromStaysIn | hermes_dec/src/generate_ast.rs:289 | the search returns only nodes of a closed set that holds its queue |
| Traversals.ReachesMeansReachable | hermes_dec/src/generate_ast.rs:287-305 | the search from `start` meets `target` exactly when `target` lies in every successor-closed set holding `start`, that is, when it is reachable |
| Traversals.Bfs.constructor | hermes_dec/src/generate_ast.rs:288 | `Bfs::new` queues and discovers the start |
| Traversals.Bfs.Next | hermes_dec/src/generate_ast.rs:289 | the method computes `BfsNext` and updates the search's state to match |
| Traversals.Bfs.EnqueueAll | hermes_dec/src/generate_ast.rs:289 | the neighbour loop queues and discovers exactly `Enqueue` |
| SimpleInstructions.StringAt | hermes_dec/src/generate_ast.rs:3474 | `get_string(..).unwrap()` succeeds exactly on a non-empty entry and gives its string |
| SimpleInstructions.StringOrEmpty | hermes_dec/src/generate_ast.rs:1955-1956 | `unwrap_or_default` gives "" exactly for an empty entry and still panics past the table |
| SimpleInstructions.BeforeDot | hermes_dec/src/generate_ast.rs:4485-4487 | the first piece of a builtin name, free of `.` |
| SimpleInstructions.Builtin | hermes_dec/src/generate_ast.rs:4484-4507 | a builtin name without `.` becomes an identifier; one with `.` a member access of two pieces without `.` |
| SimpleInstructions.AssignTargets | hermes_dec/src/generate_ast.rs:4355-4363 | at most one argument per earlier statement, each an identifier; the only failure is the `unwrap` of a missing assignment target |
| SimpleInstructions.CallArgs | hermes_dec/src/generate_ast.rs:4354-4363 | a call with more arguments than statements so far overflows the subtraction; otherwise at most `n` arguments |
| SimpleInstructions.GatherArguments | hermes_dec/src/generate_ast.rs:4354-4363 | the argument loop computes `CallArgs` |
| SimpleInstructions.TargetsErrPersists | hermes_dec/src/generate_ast.rs:4355-4363 | a panic on a prefix of the statements is the panic of the whole list |
| SimpleInstructions.Emit | hermes_dec/src/generate_ast.rs:1527-5395 | an instruction adds at most three statements of the kinds its opcode allows (`return` only for `Ret`, `throw` only for `Throw`, `debugger` only for `Debugger`, expression statements otherwise); nothing exactly for the jumps, `Unreachable`, `AsyncBreakCheck` and `ProfilePoint`; `todo!()` exactly for the unwritten arms |
| SimpleInstructions.OperatorStmt | hermes_dec/src/generate_ast.rs:2287-3435 | object creation, moves and operators give an expression statement |
| SimpleInstructions.NamedStmts | hermes_dec/src/generate_ast.rs:2172-3779 | environment, global and by-name accesses give one expression statement, or fail on the string table, never with `todo!()` |
| SimpleInstructions.PropertyStmts | hermes_dec/src/generate_ast.rs:3780-4348 | accesses by index or key and the property-name iteration give one to three expression statements, and never reach `todo!()` |
| SimpleInstructions.CallStmtsOf | hermes_dec/src/generate_ast.rs:4349-4811 | calls, builtins, closures and parameters give one expression statement, and never reach `todo!()` |
| SimpleInstructions.LoadStmts | hermes_dec/src/generate_ast.rs:1963-5057 | constants, coercions and `arguments` give one expression statement, and never reach `todo!()` |
| SimpleInstructions.LoadConstTrueLoadsFalse | hermes_dec/src/generate_ast.rs:2013-2028 | `LoadConstTrue` assigns the literal `false` |
| SimpleInstructions.BlockStmts | hermes_dec/src/generate_ast.rs:1526-5398 | a block gives at most three statements per instruction |
| SimpleInstructions.BlockErrPersists | hermes_dec/src/generate_ast.rs:1526-5398 | a panic on a prefix of the block is the panic of the block |
| SimpleInstructions.SimpleInstructionsToAst | hermes_dec/src/generate_ast.rs:1519-5399 | the loop over the block's instructions computes `NodeStmts` |
| SimpleInstructions.InstructionStmts | hermes_dec/src/generate_ast.rs:1528-5395 | one turn of the loop computes `Emit` |
| SimpleInstructions.BlockStmtsFromBlock | hermes_dec/src/generate_ast.rs:1526-5398 | every statement of a block is an expression statement, or a `return` or `throw` where the block has `Ret` or `Throw` |
| SimpleInstructions.BlockStmtsPrefix | hermes_dec/src/generate_ast.rs:1526-5398 | later instructions only append statements |
| SimpleInstructions.SilentBlockEmpty | hermes_dec/src/generate_ast.rs:1526-5398 | a block of jumps and other silent instructions gives no statement |
| GenerateAst.Outgoing | hermes_dec/src/generate_ast.rs:265-268 | the out-edges of `v`, all leaving `v` |
| GenerateAst.OutgoingTargets | hermes_dec/src/generate_ast.rs:265-268 | the out-edges lead, in order, to the nodes `neighbors` lists |
| GenerateAst.LastWeighted | hermes_dec/src/generate_ast.rs:272-283 | the edge kept for a label is one of the out-edges with that label, none exactly when there is none |
| GenerateAst.BranchesOf | hermes_dec/src/generate_ast.rs:272-285 | the two branches exist exactly when there is a true and a false out-edge, and carry those labels |
| GenerateAst.LoopCondition | hermes_dec/src/generate_ast.rs:119-141 | the loop search returns a predecessor of the header not reached from node 0 around it |
| GenerateAst.LoopConditionOnCycle | hermes_dec/src/generate_ast.rs:119-141 | the block found is reachable from the header, so it closes a cycle through it |
| GenerateAst.LastIndex | hermes_dec/src/generate_ast.rs:143-149 | a block's last instruction index, or a panic on a missing or empty block |
| GenerateAst.TestAt | hermes_dec/src/generate_ast.rs:160 | a test exists exactly at a conditional jump |
| GenerateAst.Begin | hermes_dec/src/generate_ast.rs:79-107 | the first stage keeps the configuration and the flag, only appends to the queue, and moves to a later stage |
| GenerateAst.LoopCheckStage | hermes_dec/src/generate_ast.rs:109-260 | the loop check keeps the configuration and the flag, only appends to the queue, moves to a later stage and lets the generator go on |
| GenerateAst.LoopHeader | hermes_dec/src/generate_ast.rs:110-142 | a block without instructions is an `unwrap` error; the first block of a `do..while` body or a block with fewer than two incoming edges is no loop header; a loop-condition block found is a block of the graph and the source of an edge into the header |
| GenerateAst.Loop | hermes_dec/src/generate_ast.rs:143-255 | a loop found queues exactly one statement, either a `while` or a `do..while`, chains a generator and ends the stages |
| GenerateAst.LoopTest | hermes_dec/src/generate_ast.rs:143-176 | the loop's test and branches come from the condition block, or from the header when the condition block ends with `Jmp` |
| GenerateAst.DoWhileLoop | hermes_dec/src/generate_ast.rs:178-212 | a `do..while` is appended to the queue and a generator chained |
| GenerateAst.WhileLoop | hermes_dec/src/generate_ast.rs:213-252 | a `while` is appended to the queue and a generator chained |
| GenerateAst.IfCheckStage | hermes_dec/src/generate_ast.rs:262-437 | the `if` check keeps the configuration and the flag, only appends to the queue, moves to a later stage and lets the generator go on |
| GenerateAst.IfStmt | hermes_dec/src/generate_ast.rs:272-421 | a block with two out-edges appends exactly one `if` to the queue, keeping configuration and flag |
| GenerateAst.IfThen | hermes_dec/src/generate_ast.rs:308-361 | an `if` without `else` is appended and the block after it recorded for the `AfterIf` stage |
| GenerateAst.IfElse | hermes_dec/src/generate_ast.rs:362-421 | an `if` with or without `else` is appended and the stages end |
| GenerateAst.AfterIfStage | hermes_dec/src/generate_ast.rs:438-451 | the `AfterIf` stage keeps the configuration and the flag, only appends to the queue, moves to the last stage and lets the generator go on |
| GenerateAst.Populate | hermes_dec/src/generate_ast.rs:77-455 | every stage of `populate_next_stage` keeps the configuration and the flag, only appends to the queue and moves to a later stage, and returns false only on reaching the last stage; once the stages are done it returns false and changes nothing |
| GenerateAst.Next | hermes_dec/src/generate_ast.rs:461-482 | `next` yields nothing only when the stages are done and no generator is chained; the return flag becomes set only by yielding a `return` or `throw` |
| GenerateAst.Collect | hermes_dec/src/generate_ast.rs:461-482 | collecting ends with the stages done and nothing chained; the return flag ends set only if it was set before or a `return` or `throw` was collected |
| GenerateAstFacts.NextPopsFront | hermes_dec/src/generate_ast.rs:462-472 | `next` yields the front of a non-empty queue and sets the flag exactly when it is a `return` or a `throw` |
| GenerateAstFacts.CollectYieldsQueueFirst | hermes_dec/src/generate_ast.rs:461-482 | the queued statements come out first and in order |
| GenerateAstFacts.NextWhenDone | hermes_dec/src/generate_ast.rs:473-480 | once the stages are done, an empty-queued generator is replaced by its chained one, or yields nothing |
| GenerateAstFacts.WhileCondBlockQueuesContinue | hermes_dec/src/generate_ast.rs:80-90 | a jump back to the enclosing `while` header queues a single `continue` and stops the generator |
| GenerateAstFacts.WhileCondBlockYieldsNothing | hermes_dec/src/generate_ast.rs:80-90 | as written, that `continue` is never yielded |
| GenerateAstFacts.WhileCondBlockYieldsContinue | hermes_dec/src/generate_ast.rs:461-482 | with the corrected `next`, the generator yields exactly that `continue` |
| GenerateAstFacts.DoWhileCondBlockYieldsNothing | hermes_dec/src/generate_ast.rs:98-104 | as written, the statements of the `do..while` condition block are queued and never yielded |
| GenerateAstFacts.BeginQueuesBlock | hermes_dec/src/generate_ast.rs:93-107 | any other block queues its statements and goes on to the loop check |
| GenerateAstFacts.LoopCheckSkipped | hermes_dec/src/generate_ast.rs:116 | the loop search runs only for a block with two or more in-edges that is not the first block of a `do..while` body |
| GenerateAstFacts.DoWhileShape | hermes_dec/src/generate_ast.rs:178-212 | a `do..while` tests the parenthesised condition and is followed by the false target, outside any loop |
| GenerateAstFacts.WhileShape | hermes_dec/src/generate_ast.rs:213-252 | a `while` tests `!(cond)` and is followed by the true target |
| GenerateAstFacts.LoopShape | hermes_dec/src/generate_ast.rs:176-252 | a loop is a `do..while` exactly when the true edge of its testing block leads back to the header |
| GenerateAstFacts.IfThenShape | hermes_dec/src/generate_ast.rs:308-361 | an `if` without `else` tests the jump's condition, negated or not |
| GenerateAstFacts.IfWays | hermes_dec/src/generate_ast.rs:287-421 | when the false target reaches the true one, the `if` tests the condition and the false target follows; when only the true target reaches the false one, the test is negated and the true target follows; otherwise an `if`/`else` |
| GenerateAstFacts.IfElseShape | hermes_dec/src/generate_ast.rs:362-421 | in the `if`/`else` case the `then` block is the collected true side and the test is the jump's condition; the false side is chained after the `if` exactly when the true side's generator ended with its return flag set, and is the `else` block otherwise |
| GenerateAstFacts.AfterIfChains | hermes_dec/src/generate_ast.rs:438-451 | after the `if` the generator chains on to the recorded block, keeping the enclosing loop blocks |
| GenerateAstFacts.SingleSuccessorChains | hermes_dec/src/generate_ast.rs:422-435 | one out-edge chains on to its target; none ends the generator |
| Searches.SplitBranches | hermes_dec/src/generate_ast.rs:272-285 | the loop over out-edges computes `BranchesOf` |
| Searches.FindLoopCondition | hermes_dec/src/generate_ast.rs:119-141 | the pre-marking `Dfs` and the post-order walk compute `LoopCondition` |
| Searches.PreMark | hermes_dec/src/generate_ast.rs:124-131 | the pre-marking loop marks every node reached from node 0 around the header |
| Searches.SearchReaches | hermes_dec/src/generate_ast.rs:287-305 | the `Bfs` loop finds `target` exactly when it is reachable from `start` |
| Generator.Context | hermes_dec/src/generate_ast.rs:51-74 | the shared context keeps the block graph and instructions it was built from |
| Generator.ContextTranslated | hermes_dec/src/generate_ast.rs:93-96 | the context holds what `simple_instructions_to_ast` makes of every block |
| Generator.AstGenerator.constructor | hermes_dec/src/generate_ast.rs:51-74 | `new` starts at `BeginProcessBlock` with an empty queue, nothing chained and the flag clear |
| Generator.AstGenerator.Next | hermes_dec/src/generate_ast.rs:461-482 | the method does what `GenerateAst.Next` says, yielded item and new state |
| Generator.AstGenerator.Pop | hermes_dec/src/generate_ast.rs:462-472 | the front of the queue is yielded and removed, the flag set for a `return` or `throw` |
| Generator.AstGenerator.SwitchTo | hermes_dec/src/generate_ast.rs:476 | the generator becomes a fresh generator on the chained configuration |
| Generator.AstGenerator.CollectNested | hermes_dec/src/generate_ast.rs:363-372 | a nested generator collected to the end gives `GenerateAst.Collect`'s statements and its final flag |
| Generator.AstGenerator.Collect | hermes_dec/src/generate_ast.rs:461-482 | the loop of `next` calls does what `GenerateAst.Collect` says |
| Generator.AstGenerator.PopulateNextStage | hermes_dec/src/generate_ast.rs:77-455 | the method does what `GenerateAst.Populate` says |
| Generator.AstGenerator.BeginStage | hermes_dec/src/generate_ast.rs:79-107 | the method does what `GenerateAst.Begin` says |
| Generator.AstGenerator.LoopCheckStep | hermes_dec/src/generate_ast.rs:109-260 | the method does what `GenerateAst.LoopCheckStage` says |
| Generator.AstGenerator.LoopAt | hermes_dec/src/generate_ast.rs:143-255 | the method does what `GenerateAst.Loop` says |
| Generator.AstGenerator.DoWhileAt | hermes_dec/src/generate_ast.rs:178-212 | the method does what `GenerateAst.DoWhileLoop` says |
| Generator.AstGenerator.WhileAt | hermes_dec/src/generate_ast.rs:213-252 | the method does what `GenerateAst.WhileLoop` says |
| Generator.AstGenerator.IfCheckStep | hermes_dec/src/generate_ast.rs:262-437 | the method does what `GenerateAst.IfCheckStage` says |
| Generator.AstGenerator.IfAt | hermes_dec/src/generate_ast.rs:272-421 | the method does what `GenerateAst.IfStmt` says |
| Generator.AstGenerator.IfThenAt | hermes_dec/src/generate_ast.rs:308-361 | the method does what `GenerateAst.IfThen` says |
| Generator.AstGenerator.IfElseAt | hermes_dec/src/generate_ast.rs:362-421 | the method does what `GenerateAst.IfElse` says |
| Generator.AstGenerator.ElseAt | hermes_dec/src/generate_ast.rs:394-420 | the `else` block is the collected false side; the full `if` is queued and the stages end |
| HbcParserTool.Keys | hbc_parser_tool/src/main.rs:61 | the table's names in insertion order |
| HbcParserTool.Get | hbc_parser_tool/src/main.rs:94 | a lookup finds operands exactly for a name in the table |
| HbcParserTool.GetPut | hbc_parser_tool/src/main.rs:77-88 | after `insert` the name holds the new operands and every other name its old ones |
| HbcParserTool.KeysPut | hbc_parser_tool/src/main.rs:77-88 | `insert` keeps an existing name in its place and appends a new one |
| HbcParserTool.PutDistinct | hbc_parser_tool/src/main.rs:77-88 | names stay distinct under `insert` |
| HbcParserTool.PutKeepsKeys | hbc_parser_tool/src/main.rs:77-88 | `insert` keeps the names it found, in their order |
| HbcParserTool.MarkOperandEffect | hbc_parser_tool/src/main.rs:89-106 | marking succeeds exactly when the opcode is defined and has that operand, and then sets that one flag and changes nothing else |
| HbcParserTool.WordLen | hbc_parser_tool/src/main.rs:68 | the run of word characters at the start of a line is within the line |
| HbcParserTool.MoreWords | hbc_parser_tool/src/main.rs:68 | the `(, \w+)*` repetition matches within the line |
| HbcParserTool.FindCall | hbc_parser_tool/src/main.rs:68-69 | a match found has the shape the pattern asks for |
| HbcParserTool.FindJump | hbc_parser_tool/src/main.rs:108-109 | a jump match starts with a digit |
| HbcParserTool.ParseU32 | hbc_parser_tool/src/main.rs:93 | a parsed operand number fits in 32 bits |
| HbcParserTool.Decimal | hbc_parser_tool/src/main.rs:93 | a number written in decimal is a non-empty run of digits |
| HbcParserTool.DecimalIsWord | hbc_parser_tool/src/main.rs:90 | decimal digits are word characters, so `(\w+)` captures them |
| HbcParserTool.ParseDecimal | hbc_parser_tool/src/main.rs:93 | a 32-bit number written in decimal parses back to itself |
| HbcParserTool.ClassifyOpcode | hbc_parser_tool/src/main.rs:67 | a line starting with `DEFINE_OPCODE_` is an opcode definition |
| HbcParserTool.ClassifyOperand | hbc_parser_tool/src/main.rs:89-101 | a line starting with an `OPERAND_…_ID` prefix is that operand marking |
| HbcParserTool.ClassifyJump | hbc_parser_tool/src/main.rs:107 | a line starting with `DEFINE_JUMP_` is a jump definition |
| HbcParserTool.Classify | hbc_parser_tool/src/main.rs:64-158 | only the empty line is blank |
| HbcParserTool.Plain | hbc_parser_tool/src/main.rs:79-87 | new operands keep their names, in order, with no flag set |
| HbcParserTool.StepKeepsKeys | hbc_parser_tool/src/main.rs:62-159 | every line keeps the names it found, in order and distinct |
| HbcParserTool.OpcodeDefKeepsKeys | hbc_parser_tool/src/main.rs:67-88 | an opcode definition keeps the names in order and distinct |
| HbcParserTool.OperandIdKeepsKeys | hbc_parser_tool/src/main.rs:89-106 | an operand marking keeps the names in order and distinct |
| HbcParserTool.StepOperand | hbc_parser_tool/src/main.rs:89-106 | a matching operand line naming a non-zero 32-bit number marks operand `n - 1` |
| HbcParserTool.JumpDefKeepsKeys | hbc_parser_tool/src/main.rs:107-147 | a jump definition keeps the names in order and distinct |
| HbcParserTool.PassiveLinesKeepTable | hbc_parser_tool/src/main.rs:148-158 | blank, ignored and unhandled lines leave the table unchanged |
| HbcParserTool.WordLenOf | hbc_parser_tool/src/main.rs:68 | a word followed by a non-word character is matched whole |
| HbcParserTool.MoreWordsStep | hbc_parser_tool/src/main.rs:68 | one round of `(, \w+)*` |
| HbcParserTool.MoreWordsOf | hbc_parser_tool/src/main.rs:68 | the repetition captures exactly the listed words |
| HbcParserTool.CallAtRender | hbc_parser_tool/src/main.rs:68 | the pattern matches a well-formed `(Name, Op1, …)` list |
| HbcParserTool.FindCallSkips | hbc_parser_tool/src/main.rs:69 | characters other than `(` cannot start a match |
| HbcParserTool.FoundAfter | hbc_parser_tool/src/main.rs:69 | behind a prefix without `(`, a well-formed list is the leftmost match |
| HbcParserTool.JumpSkips | hbc_parser_tool/src/main.rs:109 | characters other than digits cannot start a jump match |
| HbcParserTool.DefineOpcodeLine | hbc_parser_tool/src/main.rs:67-88 | `DEFINE_OPCODE_k(Name, Op1, …)` inserts `Name` with those operands, no flag set |
| HbcParserTool.OperandLine | hbc_parser_tool/src/main.rs:89-106 | `OPERAND_…_ID(Name, n)` marks operand `n - 1` of `Name`, and `n = 0` overflows the subtraction |
| HbcParserTool.OperandLineMatches | hbc_parser_tool/src/main.rs:89-93 | such a line is classified as an operand marking and the pattern captures `Name` and `n` |
| HbcParserTool.JumpLine | hbc_parser_tool/src/main.rs:107-147 | `DEFINE_JUMP_k(Name)` inserts `Name` with `Addr8` and `NameLong` with `Addr32`, each followed by `k - 1` registers, and panics for `k` outside 1..3 |
| HbcParserTool.JumpLineMatches | hbc_parser_tool/src/main.rs:107-111 | such a line is classified as a jump definition and the pattern captures `k` and `Name` |
| HbcParserTool.JumpRegistersCount | hbc_parser_tool/src/main.rs:112-117 | `k` in 1..3 gives `k - 1` `Reg8` operands; any other digit panics |
| HbcParserTool.StepJump | hbc_parser_tool/src/main.rs:107-147 | a jump line defines the two opcodes its match names, or panics on the digit |
| HbcParserTool.ParseAllKeepsKeys | hbc_parser_tool/src/main.rs:62-159 | the finished table has distinct names, and the names it started with come first, in order |
| HbcParserTool.OpcodeTable.constructor | hbc_parser_tool/src/main.rs:61 | the table starts empty |
| HbcParserTool.OpcodeTable.Insert | hbc_parser_tool/src/main.rs:77-88 | `insert` updates the table as `Put` says |
| HbcParserTool.OpcodeTable.Mark | hbc_parser_tool/src/main.rs:94 | `get_mut(..).unwrap()[i]` and the flag update do what `MarkOperand` says |
| HbcParserTool.OpcodeTable.Apply | hbc_parser_tool/src/main.rs:63-158 | one turn of the loop updates the table as `Step` says |
| HbcParserTool.ParseDefinitions | hbc_parser_tool/src/main.rs:61-159 | the loop over all lines computes `ParseAll` from an empty table, with distinct names |
| HbcParserTool.SerializeRoundTrip | hbc_parser_tool/src/main.rs:19-33 | a serialised operand reads back to its name and its highest-priority flag, when the name does not itself end in a tag |
| HbcParserTool.DeserializeRoundTrip | hbc_parser_tool/src/main.rs:19-33 | every string is the serialisation of the operand it reads back to |
| HbcParserTool.WordsHaveNoTag | hbc_parser_tool/src/main.rs:68 | the operand names the parser captures are words, which never end in a tag |

## Left out

- hermes_dec/src/main.rs is not part of this model: command-line parsing, file opening and printing with swc's emitter are I/O.
- hermes_dec/src/bytecode.rs declares the `InstructionSet` trait only; its two operations are the `schema` parameter of module ByteCodeInstructions.
- `Display` for `Instruction` prints the derived `Debug` text; formatting is not modelled.
- petgraph's `Dfs`, `DfsPostOrder` and `Bfs` are modelled from their documented behaviour, not their source: a stack or queue plus discovered and finished sets, with neighbours listed newest edge first.
- swc's syntax tree is replaced by the shapes the generator builds; spans, `optional` flags and printing are left out.
- Floating-point payloads (`LoadConstDouble`, `f64` operands) are kept as opaque values; numeric formatting is not modelled.
- `safe_transmute`, the big-endian host branch of `transmute_field` and `Seek`/`Read` plumbing are left out: the model reads a little-endian host's bytes from a byte sequence.
- `BytecodeFile::from_bytes` is not modelled: it never advances its offset past the header and nothing calls it; `from_reader` is.
- `get_bigint` is commented out in the source and so is not modelled.
- `from_reader` checks neither the magic number nor the version; the model follows the code, which reads them as plain fields.
- `get_string` ignores the `is_utf16` bit and maps each byte to one character; UTF-16 decoding does not happen in the source either.
- Operand accessors (`Val`, `Reg` in SimpleInstructions) read 0 for an operand the `Instruction` type guarantees; a malformed instruction cannot reach them in the source.
- The generator's recursion has no termination measure in the source; the model's `fuel` bound stands in for it, and every statement about the generator holds for the runs that finish within the fuel.
- The chained generator is kept as the configuration `AstGenerator::new` was called with, since it is always fresh when stored.
- The nested `if`/`else` generators run with the enclosing `while` and `do..while` blocks, as the source passes them; the `add_inside_while` call commented out at generate_ast.rs line 191 is not modelled.
- Panic messages are approximations of Rust's; the model only needs them to tell failures apart.
- GenerateAst.Loop: the contract states the shape of the queue and the chaining; the exact `while` and `do..while` statements are in GenerateAstFacts.LoopShape, WhileShape and DoWhileShape.
- GenerateAst.DoWhileLoop: the exact statement and chained block are stated by GenerateAstFacts.DoWhileShape.
- GenerateAst.WhileLoop: the exact statement and chained block are stated by GenerateAstFacts.WhileShape.
- GenerateAst.IfThen: the exact statement is stated by GenerateAstFacts.IfThenShape.
- GenerateAst.IfElse: the exact statement and the chaining are stated by GenerateAstFacts.IfElseShape.
- SimpleInstructions.Emit: the contract states the statement count and shapes per opcode class, not each of the roughly 200 arms' expressions; LoadConstTrueLoadsFalse spells out one arm.
- HbcParserTool.Classify: the contract states only the blank case; the prefixes are stated by ClassifyOpcode, ClassifyOperand and ClassifyJump.
- HbcParserTool.WordLen: the contract states only a bound; WordLenOf states what it matches.
- hbc_parser_tool's `\w` and `\d` are taken as ASCII word characters and digits; Unicode classes are not modelled.
- hbc_parser_tool's command-line arguments, file opening, splitting into lines, the `println!` of unhandled lines and of the names, and the JSON pretty-printing of the table are I/O and left out.
- `parse::<u32>()` accepts a leading `+` in Rust; operand numbers captured by `(\w+)` cannot contain one, so the model parses digits only.
- An operand number of 0 panics on `- 1` in a debug build and wraps to an out-of-range index in a release build; both are a panic, and the model gives the debug message.

## Findings

| source | as written | input that shows it | evidently intended | confidence | as-written member | corrected member |
|---|---|---|---|---|---|---|
| hermes_dec/src/graphs.rs:1291-1311 | the `== 0` check stops the search at index 0 before moving on, whatever the direction | instructions at offsets 0, 2, 4 with a `Jmp` of 4 at index 0: the search returns `None` and `construct_flow_graph` panics on `unwrap` | a forward jump from the first instruction resolves to index 2; the stop only guards moving below 0 | not executed | Graphs.ForwardJumpFlowGraph | Graphs.FindInstructionByOffset |
| hermes_dec/src/generate_ast.rs:80-90 | the `continue` queued for a jump back to the `while` header is followed by `return false`, which `next` takes for the end of the generator before yielding the queue | a `while` body whose block jumps back to its header: the body generator yields nothing | the generator yields the single `continue` | not executed | GenerateAstFacts.WhileCondBlockYieldsNothing | GenerateAstFacts.WhileCondBlockYieldsContinue |
