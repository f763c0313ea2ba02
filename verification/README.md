# Two DEFLATE decoders, PNG, GIF, zip entries, and the structures around them

This project models the decoding core of the DuiLib sources and proves it correct, or says exactly where it is not. DuiLib carries two
independent decoders of RFC 1951. `DuiLib/XUnzip.cpp` has the resumable inflate of zlib 1.1.3: multi-level tables, a bit buffer, a ring
window of 32 KiB, a fast loop, and calls that may be cut off anywhere by input or output running out. `DuiLib/stb_image.c` has a decoder
that works on whole buffers, with a nine-bit fast table and a search over bit-reversed codes. Both are proved against one specification
of the format, and then against each other. Around them are the reading of zip entries, the two checksums, PNG reconstruction with
Adam7 interlacing, the GIF raster decoder, the string map of DuiLib and the list that shows a tree of nodes.

How the proofs are organised:

- **The format.** `Bits`, `BitStream`, `Canonical`, `Deflate` and `DeflateStream` say what a bit stream is (one natural number, least
  significant bit first), what the canonical code of section 3.2.2 of RFC 1951 is, what tokens and blocks expand to, and how they are
  encoded.
- **The decoder of stb_image.c.** `BitReversal`, `StbHuffman` and `StbInflate` are its routines as a class whose fields are those of
  `zbuf` and `zhuffman`; each method is proved to end where the format says. `DeflateLimits` says what a fixed output buffer changes.
- **The tables of huft_build.** `HuftSpec` says what it means that tables decode a code; `HuftTables` is the invariant of the main
  loop; `HuftBuild` is the routine itself; `HuftGap` shows that it fails on all codes outside its exact condition; `HuftSpace` bounds
  the space and says how many bits a lookup asks for; `InflateTrees` and `FixedTables` are its callers and the constant tables.
- **inflate.** `InflateSpec` is a machine without buffers that takes one token apart at a time; `InflateTokens` says what it makes of a
  stream; `Window` and `BitBuffer` are the two buffers; `Inflate` is `inflate_flush`, `inflate_codes` and `inflate_fast`, as a class
  with the fields of the source, each kept on the run of the machine. `InflateBlocksSpec` says for every input, complete or not, valid
  or not, what becomes of it; `InflateBlockSteps` and `InflateBlocks` are `inflate_blocks`; `InflateCalls` is any number of calls;
  `InflateRoundTrip` and `SpareByte` relate it to encoded streams and to the other decoder; `SampleCase` runs both decoders on one
  stream given byte by byte.
- **On top.** `Entry` drives inflate from `unzReadCurrentFile`, with the pieces in which it reads the file; `EntryCases` and
  `PieceCase` are entries that it does not read as one might expect; `CentralDir` finds the end of the central directory; `Crc` and `Adler`
  are the checksums; `PngFilter`, `PngRaw` and `Adam7` reconstruct PNG images; `GifLzw`, `GifBits`, `GifCursor` and `Gif` decode GIF
  rasters; `StringMap`, `PreorderTree` and `ImageList` are the data structures of the user interface. `Lists` has what they share.

Code that works in place is modelled in place: classes with the source's fields, arrays that are written, loops with invariants.
Members that change state are proved against functions on their values, and the properties are lemmas about those functions.
What such a function means is also said without it: by an encoder and its inverse, by an equation on what ends up in the
buffer (`PngRaw.CreateRaw`, `Gif.Decoder.Raster`), by a closed form (`Crc.OwnCrc`, `Adler.TwoSums`, `DeflateStream.ClOrder`,
`StbInflate.HeaderBytes`), or by inputs and outputs in bytes.

## Findings

Properties one would expect of the code that turn out to be false, each with an input and the exact condition.

- **huft_build does not decode every complete code.** Where the codes of one length would fill a table of more than l index bits, l being
  the size of the first table, the table is made that wide: the limit l is applied only to the search for larger sizes. But only 2^l of
  its slots are ever linked; the others are never written, and lookups reach them. `HuftBuild.NotAlwaysCompact` gives such a code: lengths
  1, 3, 3, 3, 3 with one index bit. The tables decode if and only if the code is `Compact` (`HuftBuild.Build`), and every code that
  inflate goes on to use is (`InflateTrees.AcceptedCompact`).
- **Table space can run out, but for incomplete codes only.** The comment at the size of the space says that the real maximum is not
  known. 926 and 298 entries, 1224 together, are enough for every pair of codes that inflate goes on to use, and 1440 are there
  (`InflateTrees.AcceptedSpace`). An incomplete code is rejected only after its tables are made, and those may need more; then the result
  is Z_MEM_ERROR instead of Z_DATA_ERROR, exactly as `InflateTrees.TreesVerdict` says (`InflateTrees.VerdictFull`). It is so for every
  incomplete literal/length code of which all codes have the same length of 11 or more (`InflateTrees.LongCodesFull`), for instance for
  257 lengths that are 0 but for one of 15 (`InflateTrees.FullHappens`).
- **inflate may need a byte past the end of the stream.** A lookup asks for all index bits of a table before it looks. Whether a stream
  that ends with its input is finished depends on the last bit looked at (`InflateRoundTrip.StreamBackHere`, both directions); seven bytes
  that hold a stream of 55 bits are not enough (`SpareByte.NoSpareByte`); eight more bits always are (`SpareByte.StreamClose`).
- **inflate can read the byte before read_buffer.** unzReadCurrentFile reads a file in pieces of 16384 bytes, each over the one before,
  and the end of a block of codes may hand back a byte that was taken from the piece before; then `next_in` points to before the buffer,
  and the next block is decoded from what happens to be there. While a piece is being used this happens exactly if the block at hand is
  not the last one and ends a byte or more before the piece (`Inflate.Inflater.ReturnByte`); it is bound to happen after a refill exactly
  if the pieces before hold the end of that block and one byte more, inflate having stopped for want of room
  (`InflateBlocks.Blocks.Renew`, both directions). `Entry.Reader.Read` says that a call goes astray only from such a state, and that from
  such a state every call goes astray or fills all the room it was given and leaves such a state. It never happens to an entry of at most
  16384 compressed bytes, nor in the first call. `PieceCase.GoesAstray` is an entry of 16400 bytes to which it does.
- **unzReadCurrentFile can go round for ever.** A stored entry whose compressed size is smaller than the rest it declares makes the loop
  neither read nor copy anything; that happens exactly when less is left than is wanted (`Entry.Reader.Read`, outcome `Spins`;
  `EntryCases.NeverReturns` is such an entry).
- **unzReadCurrentFile does not return the errors that its comment promises, and loses bytes.** After an error of inflate it returns the
  number of bytes delivered. Bytes that were decoded before a fault but did not fit the room of the call that met it are never delivered.
  A series of reads delivers as many bytes as were asked for up to the call that meets the fault, that one included, so bytes are lost
  exactly if that is less than what was asked for in all and there is (`Entry.Reader.ReadAny`). `EntryCases.LosesByte` is an entry that
  loses a byte when read by two calls and none when read by one.
- **The code lengths of a dynamic block can run past their array in stb_image.c.** With 319 or 320 lengths to read, a repeat of 138 zeros
  can end past the 455 bytes (`DeflateStream.OverrunHappens`, an input for either number); with at most 318 it cannot
  (`DeflateStream.OverrunNeeds`).
- **parse_huffman_block need not end.** Past the end of the input it goes on with zero bits. It does not end exactly if it gets there and
  the first token of the all-zero stream is one that can be repeated for ever: neither end nor error, with its distance within the output,
  and no fixed buffer that it fills (`DeflateLimits.NeverEnds`).
- **expand need not end.** A growing output buffer of size 0 is doubled for ever (`StbInflate.ExpandEnds`, exactly then).
- **Interlaced PNG images with an alpha sample to be added are not decoded.** The raw data are advanced by the size of a pass in output
  samples. Decoding gives the image back if and only if no alpha is added or the image is a single pixel (`Adam7.InterlacedRoundTrip`; two
  gray pixels fail: `Adam7.TwoPixelsFail`).
- **A GIF raster cannot go on with a full table.** GIF89a lets an encoder put off the clear code; here the next code is an error
  (`GifBits.NoDeferredClear`). Whatever phrases filled the table, the raster is corrupt after them (`GifBits.FullStops`); 4091 black
  pixels coded one by one are such a raster (`GifBits.ManyBlack`).
- **A GIF raster has to start with a clear code**, although a comment says that it need not. The demand makes a difference exactly if the
  first code is that of a symbol, and then nothing at all is decoded (`GifBits.ClearFirst`); the bits of a raster without its first clear
  code never yield its symbols, unless another clear or end code stands first (`GifBits.ClearlessRaster`, both directions). The byte 41
  holds one pixel and the end code and is refused; the bytes 76 and 1, with a clear code before, yield the pixel
  (`GifBits.ClearlessPixel`).
- **Null data break the string map.** Inserting a key whose data are null succeeds and enters the key a second time; no other operation
  breaks the map (`StringMap.CStdStringPtrMap.Insert` and `Perform`, both with the exact condition). Nor does `Resize(0)`, which leaves a
  map without buckets that accepts nothing.
- **An archive whose comment is longer than 65513 bytes is not recognised**, although the format allows 65535 (`CentralDir.RecordFound`);
  nor is one that consists of the end record alone, because place 0 means "none" (`CentralDir.FirstNotFound`, exactly;
  `CentralDir.EmptyNotFound`).

## Model

| member | source | states |
|---|---|---|
| `Canonical.CoverUnique` | DuiLib/stb_image.c:2163-2206 | The canonical code of section 3.2.2 of RFC 1951 is prefix-free: no two symbols own a common position of the code space, whatever the lengths. |
| `Canonical.CoverExists` | DuiLib/stb_image.c:2163-2206 | Every position below the end of the codes of length at most k belongs to a symbol of at most that length, so the code has no holes before its end. |
| `Canonical.ReadsUnique` | DuiLib/stb_image.c:2253-2278 | At most one symbol can be read from the start of a stream. |
| `Canonical.DecodeTotal` | DuiLib/stb_image.c:2253-2278 | A symbol can be read exactly when the 16-bit position that the stream starts with lies below the end of the code space in use. |
| `Canonical.EndIsKraft` | DuiLib/stb_image.c:2176-2187 | The end of the code space in use, which the decoders compute length by length, is the Kraft sum of the lengths. |
| `Deflate.ReadsBack` | DuiLib/stb_image.c:2253-2278 | A stream that begins with the code bits of a symbol decodes to that symbol, for every code that is not over-subscribed. |
| `Deflate.ToksBack` | DuiLib/stb_image.c:2311-2337 | Decoding the encoding of any valid list of tokens under any two codes gives their LZ77 expansion, overlapping copies included, and stops right after the end-of-block code. |
| `DeflateStream.StreamBack` | DuiLib/stb_image.c:2441-2470 | Decoding the encoding of any list of stored, fixed and dynamic blocks gives their expansion and stops at their last bit. |
| `DeflateStream.PartialBack` | DuiLib/stb_image.c:2466-2468 | When only a part is wanted, decoding encoded blocks stops after the first ones that expand to more than 65536 bytes, or after all, with just their expansion. |
| `DeflateStream.FixedKraft` | DuiLib/stb_image.c:2429-2438 | The fixed codes of section 3.2.6 of RFC 1951 use up the code space exactly. |
| `DeflateStream.ClAt` | DuiLib/stb_image.c:2346-2355 | The i-th group of three bits is the length of the i-th symbol of the zigzag order; symbols without a group have length zero. |
| `DeflateStream.ClOrder` | DuiLib/stb_image.c:2341-2355 | The lengths of the code length code come for 16, 17, 18 and 0 first, then for 8 and from there outwards: 8 + j has group 4 + 2j, 8 - j has group 3 + 2j, and symbols without a group have length zero. |
| `DeflateStream.CodesOrdered` | DuiLib/stb_image.c:2339-2383 | The two codes of a dynamic block are read with the code length code that comes in that order. |
| `DeflateStream.OverrunNeeds` | DuiLib/stb_image.c:2343-2379 | Reading the code lengths of a dynamic block can run past the array of 455 bytes only if more than 318 lengths are to be read. |
| `DeflateStream.OverrunHappens` | DuiLib/stb_image.c:2343-2379 | Concrete inputs, one with 319 lengths and one with 320, of which the code lengths do run past that array. |
| `BitReversal.BitReverse16IsRev` | DuiLib/stb_image.c:2146-2153 | Four mask-and-shift exchanges reverse the low sixteen bits. |
| `BitReversal.BitReverseIsRev` | DuiLib/stb_image.c:2155-2161 | bit_reverse reverses a code of the given number of bits. |
| `StbHuffman.Zhuffman.Build` | DuiLib/stb_image.c:2163-2206 | zbuild_huffman succeeds exactly when the lengths are not over-subscribed, and then the fast table, the limits, offsets, sizes and values all describe the canonical code of the lengths. |
| `StbHuffman.LimitStep` | DuiLib/stb_image.c:2176-2187 | The shifted next code of a length is the end of the code space up to that length, so its comparison with a power of two detects over-subscription at exactly the right length. |
| `StbHuffman.FastStep` | DuiLib/stb_image.c:2195-2201 | Filling the fast table for one symbol makes exactly the nine-bit indices that start with its reversed code name it. |
| `StbInflate.FastHit` | DuiLib/stb_image.c:2256-2263 | A hit in the fast table is the symbol whose code the stream starts with, of that length. |
| `StbInflate.SlowMiss` | DuiLib/stb_image.c:2267-2270 | A bit-reversed position at or past the limit of a length belongs to no code of that length or less. |
| `StbInflate.SlowHit` | DuiLib/stb_image.c:2267-2277 | The search over the limits stops at the length of the code that the stream starts with, and the offset arithmetic finds its symbol. |
| `StbInflate.Zbuf.FillBits` | DuiLib/stb_image.c:2234-2241 | fill_bits tops the bit buffer up to more than 24 bits without moving the position; the buffer keeps holding exactly the next bits of the input, zeros past its end. |
| `StbInflate.Zbuf.Zreceive` | DuiLib/stb_image.c:2243-2251 | zreceive returns the next n bits of the input and moves on by n. |
| `StbInflate.Zbuf.ZhuffmanDecode` | DuiLib/stb_image.c:2253-2278 | Both paths of zhuffman_decode return the symbol of the canonical code and move on by its length; if there is none they return -1 and do not move. |
| `StbInflate.Zbuf.ExpandOut` | DuiLib/stb_image.c:2280-2295 | expand makes room for n bytes, or fails exactly if the buffer must not grow; what was written stays. |
| `StbInflate.ExpandEnds` | DuiLib/stb_image.c:2285-2286 | The doubling in expand ends exactly if the buffer is not of size 0 or nothing is needed. |
| `StbInflate.Zbuf.CopyMatch` | DuiLib/stb_image.c:2332-2334 | Copying a match byte by byte gives what the format means by it, also where it overlaps what it writes. |
| `StbInflate.Zbuf.ParseHuffmanBlock` | DuiLib/stb_image.c:2311-2337 | parse_huffman_block ends with the status, position and output of the block decoder of the format, for every pair of codes and every input, within any bound on tokens. |
| `DeflateLimits.NeverEnds` | DuiLib/stb_image.c:2311-2337 | parse_huffman_block does not end exactly if it gets past the end of the input and the first token of the all-zero stream can then be repeated for ever. |
| `StbInflate.Zbuf.ComputeHuffmanCodes` | DuiLib/stb_image.c:2339-2383 | compute_huffman_codes reads the two codes that section 3.2.7 of RFC 1951 means, with the code length code in the order given there, and builds both tables for them, fails where it should, and says where the source leaves the language. |
| `StbInflate.StoredOutcome` | DuiLib/stb_image.c:2385-2412 | Comparing the complemented length, the end of the input and the room is what the format asks of a stored block. |
| `StbInflate.Zbuf.ParseUncompressedBlock` | DuiLib/stb_image.c:2385-2412 | parse_uncompressed_block, header drained from the bit buffer first, does what the format says for a stored block. |
| `StbInflate.Zbuf.ParseZlibHeader` | DuiLib/stb_image.c:2414-2425 | parse_zlib_header accepts exactly the headers that HeaderBytes describes. |
| `StbInflate.HeaderBytes` | DuiLib/stb_image.c:2414-2425 | A header is accepted exactly if the low half of its first byte is 8, bit 5 of its second byte is not set, and both bytes, high one first, are a multiple of 31. |
| `StbInflate.ZlibHeader` | DuiLib/stb_image.c:2414-2425 | The header of section 2.2 of RFC 1950 for a window size and a level, with its check bits. |
| `StbInflate.ZlibBack` | DuiLib/stb_image.c:2441-2480 | Any such header, encoded blocks after it, and whatever comes then, decode to the expansion of the blocks, or to an error exactly if that does not fit an output buffer that cannot grow. |
| `StbInflate.Zbuf.ParseZlib` | DuiLib/stb_image.c:2441-2470 | parse_zlib ends as the format decoder of block lists does, with the partial-output exit of the source. |
| `StbInflate.DoZlib` | DuiLib/stb_image.c:2472-2480 | do_zlib, header or not, buffer fixed (also of size 0) or growing, returns success exactly when the format decoder does, and then its output. |
| `StbInflate.RoundTrip` | DuiLib/stb_image.c:2441-2480 | Data that begin with the encoding of any blocks, with or without a zlib header, decode to the expansion of the blocks; to an error exactly if the expansion does not fit an output buffer that cannot grow. |
| `DeflateLimits.BlocksCapped` | DuiLib/stb_image.c:2280-2295 | A fixed output buffer changes nothing but this: output that does not fit is an error. |
| `DeflateLimits.BlocksMore` | DuiLib/stb_image.c:2441-2470 | A result reached within bounds on blocks and tokens is the result for all larger bounds. |
| `HuftSpec.WalkGood` | DuiLib/XUnzip.cpp:1247-1284 | Following links through tables that are right in every slot, as inflate_codes does, ends at a leaf for the position that the stream starts with, uses its bits, and asks for the bits that ReachOf says. |
| `HuftTables.OpenKeeps` | DuiLib/XUnzip.cpp:1931-1971 | Opening a table, its size computed and its link entered in the table above, keeps the invariant of the main loop. |
| `HuftTables.FillKeeps` | DuiLib/XUnzip.cpp:1973-1991 | Entering a code at every index that starts with it keeps the invariant, and the position moves on. |
| `HuftTables.PopKeeps` | DuiLib/XUnzip.cpp:1998-2005 | Leaving a table whose positions are all given out keeps the invariant. |
| `HuftTables.DoneIsGood` | DuiLib/XUnzip.cpp:1923-2007 | When the code space is used up and no table was too wide, every slot of every table is right. |
| `HuftBuild.FillOut` | DuiLib/XUnzip.cpp:1888-1894 | The check on the code counts fails exactly for over-subscribed lengths, and otherwise leaves the number of dummy codes that fill the code space. |
| `HuftBuild.SortValues` | DuiLib/XUnzip.cpp:1905-1911 | The value list has the symbols with codes, sorted by code length and then by number. |
| `HuftBuild.TableBits` | DuiLib/XUnzip.cpp:1936-1951 | The size computation stops at the first size that the codes up to some length fill, or at the limit; its running counts are the code space arithmetic of the specification. |
| `HuftBuild.Increment` | DuiLib/XUnzip.cpp:1993-1996 | Counting up a bit-reversed code by clearing leading ones and setting the next bit adds one to the reversed number. |
| `HuftBuild.NextPattern` | DuiLib/XUnzip.cpp:1993-1996 | That counting moves on to the code at the position right after. |
| `HuftBuild.PatternTest` | DuiLib/XUnzip.cpp:1999-2005 | The masked code differs from the saved pattern exactly when the innermost table is finished. |
| `HuftBuild.EnterAll` | DuiLib/XUnzip.cpp:1923-2007 | The main loop uses up the code space with its invariant intact, and fails only if the tables need more than all the space. |
| `HuftBuild.Build` | DuiLib/XUnzip.cpp:1814-2012 | huft_build: Z_DATA_ERROR exactly if over-subscribed; Z_MEM_ERROR exactly if the tables need more space than is left; Z_BUF_ERROR exactly if incomplete and not a single one-bit code; index size, start and space used are exact; and the tables decode every stream as the canonical code does, over zeroed space if and only if the code is Compact. |
| `HuftBuild.NotAlwaysCompact` | DuiLib/XUnzip.cpp:1931-1951 | A complete code, lengths 1, 3, 3, 3 and 3 with one index bit, that is not Compact. |
| `HuftGap.LooseFails` | DuiLib/XUnzip.cpp:1931-1971 | Over zeroed table space, a code that is not Compact gets tables that decode some stream wrongly. |
| `HuftSpace.WholeSpace` | DuiLib/XUnzip.cpp:1931-1957 | The tables for a complete Compact code need at most the first table, one entry for every code, and an allowance that depends on the index size alone. |
| `HuftSpace.ReachClose` | DuiLib/XUnzip.cpp:1247-1252 | A lookup in Compact tables looks at fewer than l bits past its code, l being the index size of the first table. |
| `InflateTrees.ShortestBound` | DuiLib/XUnzip.cpp:2042-2101 | A complete code of at most 288 symbols has a code of at most nine bits, so the nine index bits asked for are enough for it. |
| `InflateTrees.AcceptedCompact` | DuiLib/XUnzip.cpp:2015-2101 | Every code that inflate goes on to use, with the index sizes it asks for (nine, six and seven bits), is Compact. |
| `InflateTrees.AcceptedSpace` | DuiLib/XUnzip.cpp:745-750 | 926 entries are enough for every accepted literal/length code and 298 for every accepted distance code, so the 1440 that are allocated are enough for both. |
| `InflateTrees.TreesBits` | DuiLib/XUnzip.cpp:2015-2040 | inflate_trees_bits succeeds exactly for accepted code length codes, with tables that decode them, and otherwise says Z_DATA_ERROR; it never runs out of space. |
| `InflateTrees.TreesDynamic` | DuiLib/XUnzip.cpp:2042-2101 | inflate_trees_dynamic returns exactly the code that TreesVerdict gives for the two lists of lengths, and on success tables that decode both codes. |
| `InflateTrees.VerdictOk` | DuiLib/XUnzip.cpp:2042-2101 | Tables are made exactly for two acceptable codes. |
| `InflateTrees.AcceptedIs` | DuiLib/XUnzip.cpp:2015-2101 | A code is acceptable exactly if it fills the code space or is a single one of one bit. |
| `InflateTrees.VerdictIs` | DuiLib/XUnzip.cpp:2042-2101 | Tables are made exactly if that is so for the literal/length code and for the distance code; the latter may be missing if there are just 257 literal/length lengths. |
| `InflateTrees.VerdictFull` | DuiLib/XUnzip.cpp:2042-2101 | Space runs out only if one of the codes is incomplete. |
| `InflateTrees.LongCodesFull` | DuiLib/XUnzip.cpp:2058-2077 | Every incomplete literal/length code with all codes of one length of 11 or more runs out of space. |
| `InflateTrees.FullHappens` | DuiLib/XUnzip.cpp:2058-2077 | 257 literal/length lengths, one of 15 and the others 0, run out of space, whatever the distance lengths. |
| `FixedTables.FixedAgree` | DuiLib/XUnzip.cpp:922-1063 | The two constant tables, entry by entry as in the source, decode the fixed codes of section 3.2.6 of RFC 1951 for every stream. |
| `InflateSpec.HealthyNext` | DuiLib/XUnzip.cpp:1210-1365 | With tables for whole codes, no step of inflate_codes leaves the tables or reads before the start of the window. |
| `InflateSpec.HealthyRun` | DuiLib/XUnzip.cpp:1210-1365 | Nor does any run from such a state, on any input. |
| `InflateSpec.RunGrows` | DuiLib/XUnzip.cpp:1210-1365 | Along every run output is only appended and input only consumed. |
| `InflateSpec.RunBack` | DuiLib/XUnzip.cpp:1343-1357 | A block that ends eight bits or more before the end of an input ends at the same place on that shorter input. |
| `InflateTokens.AgreeOk` | DuiLib/XUnzip.cpp:1210-1365 | Tables that decode two canonical codes are tables that the machine can follow, with lengths of 3 to 258 and distances within the window. |
| `InflateTokens.RunIsToks` | DuiLib/XUnzip.cpp:1210-1365 | On every input, cut off anywhere, valid or not, the machine comes to rest where the token decoder of the specification does, with the same output. |
| `InflateTokens.DecodersAgree` | DuiLib/stb_image.c:2311-2337 | Where the block decoder of stb_image.c and that of inflate both accept a block, they produce the same bytes and stop at the same bit. |
| `InflateTokens.InfToksBack` | DuiLib/XUnzip.cpp:1210-1365 | Encoded tokens decode to their expansion exactly when the last bit looked at is there, and otherwise to a part of it. |
| `Window.SourceNext` | DuiLib/XUnzip.cpp:1324-1337 | The source of a copy, stepped around the end of the window, stays the given distance behind the write position. |
| `Window.RingDeliver` | DuiLib/XUnzip.cpp:1072-1135 | Delivering a piece of the window, up to its end or beyond it, keeps this: delivered bytes followed by the pending ones are all bytes produced. |
| `Window.RingBounds` | DuiLib/XUnzip.cpp:898-902 | Everything in the window has been produced, at most a windowful is pending, the room computed by WAVAIL never reaches a pending byte, and read equals write exactly when nothing is pending. |
| `BitStream.FillStep` | DuiLib/XUnzip.cpp:893-896 | One more byte above the bits of a bit buffer extends it to the next eight bits of the stream, zeros past the end. |
| `BitStream.OrAgree` | DuiLib/XUnzip.cpp:2129-2129 | OR-ing a byte into a bit buffer that still holds higher bits of the same stream changes nothing but its length. |
| `Inflate.Inflater.NeedBits` | DuiLib/XUnzip.cpp:893-896 | NEEDBITS ends with the bits asked for unless the input ends first; it does not move the position, and Z_OK is set exactly when a byte was taken. |
| `Inflate.Inflater.Flush` | DuiLib/XUnzip.cpp:1072-1135 | inflate_flush delivers as many pending bytes as there is room for, in order, and turns Z_BUF_ERROR into Z_OK exactly when it delivered some. |
| `Inflate.Inflater.DoCopy` | DuiLib/XUnzip.cpp:1324-1337 | COPY, one byte at a time and resumable between any two, does the whole copy of the machine. |
| `Inflate.Inflater.DoWash` | DuiLib/XUnzip.cpp:1343-1357 | WASH hands an unused byte back, delivers what it can, and ends only when all is delivered; base moves only if the byte lies before the present piece of input. |
| `Inflate.Inflater.ReturnByte` | DuiLib/XUnzip.cpp:1344-1350 | Handing a byte back leaves the position where it was, with fewer than eight bits in the buffer; it steps to before the present piece of input exactly if more than seven bits are unused at its first byte, which is exactly if the position lies a byte or more before the piece. |
| `Inflate.Inflater.FastWalk` | DuiLib/XUnzip.cpp:2166-2257 | The unchecked walk of inflate_fast finds the leaf that the machine finds, given the bits it grabs beforehand. |
| `Inflate.Inflater.FastLit` | DuiLib/XUnzip.cpp:2168-2180 | With ten bytes of input left, a literal/length code takes the machine straight to its leaf. |
| `Inflate.Inflater.FastDist` | DuiLib/XUnzip.cpp:2183-2194 | The same for extra length bits and a distance code. |
| `Inflate.Inflater.FastExt` | DuiLib/XUnzip.cpp:2196-2227 | And for extra distance bits and the copy. |
| `Inflate.Inflater.FastCopy` | DuiLib/XUnzip.cpp:2203-2227 | The copy of inflate_fast, in one piece or around the end of the window, is the copy that the format means. |
| `Inflate.Inflater.Ungrab` | DuiLib/XUnzip.cpp:2130-2130 | UNGRAB hands back whole bytes taken in this call, leaves the position where it was and fewer than sixteen bits in the buffer. |
| `Inflate.Inflater.FastRound` | DuiLib/XUnzip.cpp:2166-2273 | One round of the loop of inflate_fast takes at most ten bytes of input and 258 of window, and stays on the run of the machine. |
| `Inflate.Inflater.Fast` | DuiLib/XUnzip.cpp:2137-2279 | inflate_fast, entered with 258 bytes of room and ten of input, stays on the run of the slow machine for this input and every continuation of it, and its result code says how the run stands. |
| `Inflate.Inflater.Codes` | DuiLib/XUnzip.cpp:1210-1365 | inflate_codes, for every input and output limit: it leaves the whole state on the run it found; delivered bytes are a prefix of what the run produces; it stops only at the end or an error of that run, or for want of input or room; with room left, all that the input allows is delivered. Whether it stepped to before the present piece is recorded. |
| `InflateBlocksSpec.StateGrows` | DuiLib/XUnzip.cpp:1477-1718 | Whatever becomes of an input, from any state of the blocks, what has been produced stays. |
| `InflateBlocksSpec.TreesOrdered` | DuiLib/XUnzip.cpp:1594-1612 | The bit length tree is made from the lengths in the order of section 3.2.7 of RFC 1951. |
| `InflateBlocksSpec.TableLimits` | DuiLib/XUnzip.cpp:1571-1612 | A dynamic block with more than 286 literal/length codes or more than 30 distance codes is faulty; with fewer, reading goes on to the code length code. |
| `InflateBlockSteps.CodesSame` | DuiLib/XUnzip.cpp:1687-1702 | A block of codes does in the machine with tables what the code lengths say. |
| `InflateBlockSteps.PastOn` | DuiLib/XUnzip.cpp:1491-1717 | Once no block can end before a given byte of the input, none can in any later state. |
| `InflateBlockSteps.LacksPast` | DuiLib/XUnzip.cpp:1491-1717 | Where the input so far is not enough for the next step, no block ends before its end. |
| `InflateBlockSteps.CodesFate` | DuiLib/XUnzip.cpp:1687-1702 | A call of inflate_codes in a block that is bound to end before the piece of input does step to before it when it ends, and one in a block that is not does not. |
| `InflateBlocks.Blocks.CopyIn` | DuiLib/XUnzip.cpp:1553-1569 | The memcpy of a stored block writes the bytes of the stream into the window. |
| `InflateBlocks.Blocks.Case` | DuiLib/XUnzip.cpp:1491-1717 | Each case of the switch either leaves with everything saved, or goes on strictly further; in both, the rest of the stream ends as it would have, for every continuation of the input, and whether WASH steps to before the present piece turns out as foretold. |
| `InflateBlocks.Blocks.MakeBits` | DuiLib/XUnzip.cpp:1594-1612 | The rest of the lengths is zeroed and the bit length tree made, from the lengths in the order of section 3.2.7 of RFC 1951, exactly if they are acceptable. |
| `InflateBlocks.Blocks.Proceed` | DuiLib/XUnzip.cpp:1477-1718 | inflate_blocks, for every state, input and limits: from where it leaves off the stream ends exactly as from where it started, however the input goes on (same bytes, same bit position, same kind of end); a call on nothing new returns the result code it was given; and it steps to before the present piece in a block that is not the last one only if that was bound to happen, and then before that block is over. |
| `InflateBlocks.Blocks.Renew` | DuiLib/XUnzip.cpp:3691-3703 | When the next piece of input is put in place of one that is used up, WASH will step to before it if the piece before holds the end of the block at hand, not the last one, and one more byte; otherwise no block will make it do so until the next piece. |
| `InflateBlocks.Blocks.Delivered` | DuiLib/XUnzip.cpp:1477-1718 | After a call, the bytes delivered are exactly the first ones that the input there is decodes to, as many as there was room for in all; the result code says how that input ends, and going on is reported exactly when input or room is short. |
| `InflateBlocks.Blocks.Settled` | DuiLib/XUnzip.cpp:1477-1718 | An end or an error once reported holds for every continuation of the input. |
| `InflateBlocks.Blocks.StuckAfter` | DuiLib/XUnzip.cpp:1477-1718 | A call that leaves room has taken all input and lacks the bits it needs next, and Z_BUF_ERROR from it means that it was offered no input. |
| `InflateCalls.AnyCalls` | DuiLib/XUnzip.cpp:1477-1718 | Any number of calls with any limits on any data: the bytes delivered are exactly the first ones that the data supplied so far decode to, as many as the calls had room for, and the result code tells how they end; it stops before the last call only at an end or an error. |
| `InflateCalls.EncodedEnding` | DuiLib/XUnzip.cpp:1477-1718 | For data that begin with encoded blocks, what the data supplied so far decode to is the expansion of the blocks exactly when the last bit looked at is supplied, and a part of it before; eight bits past the end are always enough. |
| `InflateRoundTrip.LensSame` | DuiLib/XUnzip.cpp:1615-1657 | A list of run-length coded lengths that the other decoder reads to its exact end is read alike here, exactly when the last bit looked at is there. |
| `InflateRoundTrip.StreamsAgree` | DuiLib/XUnzip.cpp:1477-1718 | Both decoders on one stream that both accept: the same output and the same final bit, for every input and every start. |
| `InflateRoundTrip.StreamBackHere` | DuiLib/XUnzip.cpp:1477-1718 | Encoded blocks lead to their expansion and the end exactly when the last bit looked at is in the input; otherwise the decoder wants more, having produced a part of the expansion. |
| `SampleCase.StbDecodes` | DuiLib/stb_image.c:2441-2480 | 23 bytes, after the header 0x78 0x9c: a block with codes of its own, with all kinds of code length items, literals and two copies, and one with the fixed codes; do_zlib yields the thirty bytes they stand for, or an error if a fixed buffer is smaller. |
| `SampleCase.InflateDecodes` | DuiLib/XUnzip.cpp:1477-1718 | inflate_blocks decodes the same 23 bytes to the same thirty. |
| `SampleCase.StbSample` | DuiLib/stb_image.c:2472-2480 | A call of do_zlib on them. |
| `SampleCase.EntrySample` | DuiLib/XUnzip.cpp:3671-3746 | A zip entry that holds them, read by one call. |
| `SpareByte.LookClose` | DuiLib/XUnzip.cpp:1247-1252 | A lookup asks for at most eight bits past its code. |
| `SpareByte.StreamClose` | DuiLib/XUnzip.cpp:3639-3644 | Eight bits past the end of the stream are always enough, which is the dummy byte that the comment in unzOpenCurrentFile speaks of. |
| `SpareByte.NoSpareByte` | DuiLib/XUnzip.cpp:3639-3644 | Without them it may fail: all 55 bits of a stream in seven bytes, and inflate_blocks asks for more. |
| `Entry.Reader.constructor` | DuiLib/XUnzip.cpp:3614-3659 | An opened entry has delivered nothing, declares its sizes and CRC, and its inflate state is at the start of a stream of blocks. |
| `Entry.Reader.Inflate` | DuiLib/XUnzip.cpp:2595-2713 | inflate on a stream without header keeps the entry on the decoding of its compressed bytes, or steps to before read_buffer exactly if that was bound to happen and the room was enough; each result code says exactly how the decoding stands. |
| `Entry.Reader.Read` | DuiLib/XUnzip.cpp:3671-3746 | unzReadCurrentFile: delivered bytes and rest always add up to the declared size; a stored read returns what is wanted unless the file ends, and spins exactly when too little is left; a read of a deflated entry delivers exactly as much of what the data decode to as asked for and there, and nothing after a fault, unless it steps to before read_buffer: that only happens from a state bound to it, which every read ends in unless it gets less than it asked for, and never to an entry of at most UNZ_BUFSIZE compressed bytes. |
| `Entry.Reader.ReadAny` | DuiLib/XUnzip.cpp:3671-3746 | Any series of reads of a deflated entry, faulty or not, that does not step to before read_buffer delivers, whatever the buffer sizes, exactly the beginning of what its data decode to, as long as all that was asked for up to the call that meets a fault and the declared size allow; bytes are lost exactly if what was asked for up to that call is less than what was asked for in all and there is. One read alone never steps there, nor does any for an entry of at most UNZ_BUFSIZE compressed bytes. |
| `EntryCases.LosesByte` | DuiLib/XUnzip.cpp:3723-3742 | A corrupt entry of eight bytes that decodes to two bytes before its fault: two reads of one byte get one and none, one read of two gets both. |
| `EntryCases.NeverReturns` | DuiLib/XUnzip.cpp:3671-3722 | A stored entry of three bytes that declares five: a read of five goes round for ever. |
| `PieceCase.GoesAstray` | DuiLib/XUnzip.cpp:3685-3740 | Every file of 16400 bytes that begins with one given dynamic block and an empty last block is read wrongly by two calls, the second one stepping to before read_buffer. |
| `PieceCase.PieceFileIs` | DuiLib/XUnzip.cpp:1343-1350 | There is such a file. |
| `Entry.DecodedEncoding` | DuiLib/XUnzip.cpp:3671-3746 | Compressed data that hold the encoding of blocks decode to a part of the expansion, and to all of it when the last bit looked at is there. |
| `Entry.Reader.StoredWhole` | DuiLib/XUnzip.cpp:3703-3722 | A stored entry whose two sizes are equal has been delivered byte for byte when nothing is left to read. |
| `Entry.Reader.DeflatedWhole` | DuiLib/XUnzip.cpp:3723-3740 | A deflated entry that holds the encoding of blocks and declares the size of their expansion: what has been delivered is a prefix of the expansion, and all of it when nothing is left to read, also if inflate has gone astray since. |
| `Entry.Reader.Close` | DuiLib/XUnzip.cpp:3833-3870 | unzCloseCurrentFile reports a CRC error exactly when all declared bytes were delivered and their CRC differs from the one declared. |
| `CentralDir.ScanBlock` | DuiLib/XUnzip.cpp:3095-3103 | The backward loop over one block finds the last signature in it. |
| `CentralDir.SearchCentralDir` | DuiLib/XUnzip.cpp:3077-3107 | unzlocal_SearchCentralDir returns the last place other than 0 in the last 65535 bytes where the signature starts, or 0; the overlapping blocks miss none. |
| `CentralDir.RecordFound` | DuiLib/XUnzip.cpp:3077-3107 | An archive that ends with its end record and a comment is recognised exactly if both together fit 65535 bytes. |
| `CentralDir.FirstNotFound` | DuiLib/XUnzip.cpp:3095-3107 | The search finds nothing exactly if the signature starts nowhere in the last 65535 bytes but at place 0. |
| `CentralDir.EmptyNotFound` | DuiLib/XUnzip.cpp:3095-3107 | The archive of 22 bytes that is its end record alone is not recognised. |
| `Crc.EntryIs` | DuiLib/XUnzip.cpp:2298-2351 | Every entry of the CRC table is what shifting its index out bit by bit gives. |
| `Crc.Do1Is` | DuiLib/XUnzip.cpp:2357-2357 | One table lookup does the work of eight shifts. |
| `Crc.EightSteps` | DuiLib/XUnzip.cpp:2358-2360 | The unrolled eight lookups are eight lookups. |
| `Crc.Ucrc32` | DuiLib/XUnzip.cpp:2362-2368 | ucrc32 is the bit-at-a-time CRC of section 8 of RFC 1952 for every buffer, and 0 for a null buffer. |
| `Crc.CrcAppend` | DuiLib/XUnzip.cpp:2362-2368 | The CRC of one buffer carried on over another is that of their concatenation. |
| `Crc.OwnCrc` | DuiLib/XUnzip.cpp:2362-2368 | The CRC of any buffer followed by its own CRC, lowest byte first, is 0x2144df1c, from any start. |
| `Crc.NineDigits` | DuiLib/XUnzip.cpp:2362-2368 | The CRC of the nine digits is 0xcbf43926. |
| `Adler.NoOverflow` | DuiLib/XUnzip.cpp:2378-2413 | Within NMAX bytes neither sum overflows 32 bits at any byte, from any 16-bit start. |
| `Adler.NmaxIsLargest` | DuiLib/XUnzip.cpp:2379-2380 | NMAX is the largest n for which the bound in its comment holds. |
| `Adler.AddReduces` | DuiLib/XUnzip.cpp:2396-2411 | Reducing once at the end of a chunk gives what reducing after every byte does. |
| `Adler.Adler32` | DuiLib/XUnzip.cpp:2389-2413 | adler32 is the checksum of section 9 of RFC 1950 for every start and buffer, and 1 for a null buffer. |
| `Adler.AdlerAppend` | DuiLib/XUnzip.cpp:2389-2413 | The checksum of two buffers one after the other is that of their concatenation. |
| `Adler.TwoSums` | DuiLib/XUnzip.cpp:2389-2413 | The low half of the checksum goes on by the sum of all bytes; the high half by the old low half once for every byte and by each byte as often as there are bytes from it on; both modulo 65521. |
| `PngFilter.Paeth` | DuiLib/stb_image.c:2610-2619 | The predictor is whichever of left, above and upper left is nearest to left plus above minus upper left, in that order on ties. |
| `PngFilter.RowInverse` | DuiLib/stb_image.c:2639-2695 | Reconstruction undoes filtering of a row, for each of the five filters. |
| `PngFilter.UnfilterEncode` | DuiLib/stb_image.c:2622-2697 | Unfiltering the filtered rows of any image gives the rows back, whatever filter each row has. |
| `PngRaw.SamplesAgree` | DuiLib/stb_image.c:2605-2608 | The special filters for the first row and the first pixel do what the standard does with zeros outside the image. |
| `PngRaw.OneRow` | DuiLib/stb_image.c:2639-2695 | One row, written in place over the output buffer, is the reconstructed row with its alpha samples; nothing else of the buffer changes. |
| `PngRaw.CreateRaw` | DuiLib/stb_image.c:2622-2697 | create_png_image_raw fails exactly for data of the wrong size or a filter type above 4; otherwise every sample of the output is its raw byte plus what the filter type of its row says of the samples to the left, above and above left in the output, which count as zero outside the image, modulo 256; and alpha is 255 if a sample is added. |
| `PngRaw.StoredRebuilt` | DuiLib/stb_image.c:2622-2697 | The reconstructed rows, laid out in the buffer, meet these five equations at every sample. |
| `PngRaw.RawRoundTrip` | DuiLib/stb_image.c:2622-2697 | For every image, every choice of filters, and with or without an alpha sample: decoding the filtered rows gives the image, and the buffer holds each pixel in its place, with alpha 255 if that is added. |
| `Adam7.EveryPixelOnce` | DuiLib/stb_image.c:2711-2728 | Every pixel of the image is one pixel of one pass, and every pixel of a pass is one of the image. |
| `Adam7.PassesSum` | DuiLib/stb_image.c:2718-2719 | The seven passes have as many pixels together as the image. |
| `Adam7.PlaceIn` | DuiLib/stb_image.c:2718-2719 | The size computed for a pass along an axis is the number of its places on that axis, none missing and none too many. |
| `Adam7.StartsRight` | DuiLib/stb_image.c:2730-2731 | The passes are read from where they start exactly if no sample is added or the image is a single pixel. |
| `Adam7.Deinterlace` | DuiLib/stb_image.c:2699-2738 | create_png_image on interlaced data writes every pixel of every pass to its place in the image, or fails where a pass does. |
| `Adam7.InterlacedRoundTrip` | DuiLib/stb_image.c:2699-2738 | Interlacing, filtering and decoding give back the image, each pixel with alpha 255 if that is added, if and only if no alpha is added or the image is a single pixel. |
| `Adam7.AlphaRunsOut` | DuiLib/stb_image.c:2730-2731 | For every other image with alpha to be added the last pass runs out of data: no image is delivered. |
| `Adam7.TwoPixelsFail` | DuiLib/stb_image.c:2730-2731 | Two gray pixels, with alpha to be added, are such an image. |
| `GifLzw.LzwRoundTrip` | DuiLib/stb_image.c:4349-4426 | The decoder follows the encoder: after the codes of any list of phrases it has put out the phrases and has the table of the encoder, including codes for the entry that is only just being made. |
| `GifBits.WidthNext` | DuiLib/stb_image.c:4415-4418 | The decoder widens its codes exactly when the next table entry needs another bit, up to twelve. |
| `GifBits.RasterBack` | DuiLib/stb_image.c:4349-4426 | Decoding the bits of a raster, clear codes, codes of growing width and end code, gives back the symbols, whatever table and width came before. |
| `GifBits.EncodedRaster` | DuiLib/stb_image.c:4349-4426 | Sub-block data that begin with an encoded raster decode to its symbols. |
| `GifBits.AnySymbols` | DuiLib/stb_image.c:4349-4426 | Every list of symbols has such an encoding. |
| `GifBits.SamplePixels` | DuiLib/stb_image.c:4349-4426 | The bytes 140, 117 and 5, with a code for the string it defines itself and a code one bit wider, decode to the symbols 1, 1, 1, 2, 1, 1, 2. |
| `GifBits.NoDeferredClear` | DuiLib/stb_image.c:4405-4406 | Once the table is full, any code but clear and end makes the raster corrupt, although GIF89a allows an encoder to go on. |
| `GifBits.FullStops` | DuiLib/stb_image.c:4404-4406 | A raster of any phrases that fill the table and any one further code is corrupt after the phrases. |
| `GifBits.ManyBlack` | DuiLib/stb_image.c:4404-4406 | 4091 black pixels, each a code of its own, and one more are such a raster. |
| `GifBits.ClearFirst` | DuiLib/stb_image.c:4402-4403 | Asking for a clear code first changes the result exactly if the first code is that of a symbol, and then nothing is decoded. |
| `GifBits.ClearlessRaster` | DuiLib/stb_image.c:4402-4403 | The bits of a raster without its first clear code decode to its symbols if its first group is empty, and otherwise to nothing. |
| `GifBits.ClearlessPixel` | DuiLib/stb_image.c:4402-4403 | One pixel without a clear code, in the byte 41, is refused; with one, in the bytes 76 and 1, it is decoded. |
| `Gif.Decoder.NewEntry` | DuiLib/stb_image.c:4404-4409 | A new table entry stands for the string before it and one symbol; its prefix is an earlier entry, so following prefixes ends. |
| `Gif.Decoder.OutCode` | DuiLib/stb_image.c:4315-4347 | stbi_out_gif_code puts out the symbols of the string of a code, first to last. |
| `Gif.Decoder.TakeCode` | DuiLib/stb_image.c:4401-4420 | The branch for an ordinary code fails exactly where the LZW table says so, and otherwise makes the entry and puts out the string, also for a code that is only just being defined. |
| `Gif.Decoder.NextPixel` | DuiLib/stb_image.c:4335-4346 | The cursor moves to the next pixel of the order of the rows; skipping empty passes ends. |
| `Gif.Decoder.Raster` | DuiLib/stb_image.c:4349-4426 | stbi_process_gif_raster decodes the bytes of the sub-blocks as the LZW code means them, for every minimum code size whose codes fit the table, and succeeds exactly when that does. On the canvas, the k-th place of the way over the image has the third, second, first and fourth byte of the colour of the k-th symbol if that fourth byte is at least 128; every other pixel is as it was. |
| `Gif.PaintIs` | DuiLib/stb_image.c:4326-4336 | Painting symbols along a path without repetition does just that. |
| `GifCursor.InterlaceOrder` | DuiLib/stb_image.c:4324-4347 | Interlaced rows come in the order of Appendix E of GIF89a: every 8th from row 0, every 8th from 4, every 4th from 2, every 2nd from 1. |
| `GifCursor.PassesOnce` | DuiLib/stb_image.c:4337-4346 | The four passes together have every row once. |
| `GifCursor.VisitsOnce` | DuiLib/stb_image.c:4324-4347 | The cursor visits every pixel of the image once and no other, row after row in the order of the passes, interlaced or not. |
| `GifCursor.PathAt` | DuiLib/stb_image.c:4324-4347 | The way over an image of w columns at column x and row y of a canvas: the j-th pixel of the i-th row that comes is at column x + j of that row, with rows in the order of the passes. |
| `StringMap.FindIsLookup` | DuiLib/UIBase.cpp:859-871 | Looking through the chain of a bucket finds what the map has for the key. |
| `StringMap.InsertIs` | DuiLib/UIBase.cpp:873-886 | Adding a pair in front of a bucket keeps every key once exactly if the key is new, and then the map has one pair more. |
| `StringMap.KeysOnce` | DuiLib/UIBase.cpp:928-952 | The enumeration names every key of the map once and has as many names as the map has keys. |
| `StringMap.CStdStringPtrMap.constructor` | DuiLib/UIBase.cpp:803-811 | A new map is empty and has at least 16 buckets. |
| `StringMap.CStdStringPtrMap.Resize` | DuiLib/UIBase.cpp:830-857 | Resize leaves an empty map with the given number of buckets. |
| `StringMap.CStdStringPtrMap.Find` | DuiLib/UIBase.cpp:859-871 | Find returns the data of the map for the key, or null. |
| `StringMap.CStdStringPtrMap.Insert` | DuiLib/UIBase.cpp:873-886 | Insert succeeds exactly if the key has no data other than null; what it leaves is still a map exactly if it failed or the key was new, and then the map with that pair added. |
| `StringMap.CStdStringPtrMap.Set` | DuiLib/UIBase.cpp:888-907 | Set returns the old data and leaves the map with the new pair; without buckets it returns its argument. |
| `StringMap.CStdStringPtrMap.Remove` | DuiLib/UIBase.cpp:909-926 | Remove says whether the key was there and leaves the map without it. |
| `StringMap.CStdStringPtrMap.GetSize` | DuiLib/UIBase.cpp:928-937 | GetSize is the number of keys. |
| `StringMap.CStdStringPtrMap.GetAt` | DuiLib/UIBase.cpp:939-952 | GetAt finds the key at a place of the enumeration exactly for places below the number of keys. |
| `StringMap.CStdStringPtrMap.Perform` | DuiLib/UIBase.cpp:859-952 | Every operation, Resize and GetAt included and with any number of buckets, none included, answers and acts like the one on a finite map if and only if it is not an Insert for a key whose data are null. |
| `StringMap.CStdStringPtrMap.Run` | DuiLib/UIBase.cpp:859-952 | Any series of operations without such an Insert is one on a finite map: same answers, same map, for every hash function and every number of buckets, none included. |
| `StringMap.NotNullNoLost` | DuiLib/UIBase.cpp:873-907 | A series of operations that never passes null data has no such Insert. |
| `PreorderTree.LastIsLast` | DuiLib/UIImageList.cpp:107-114 | Going down the last children finds the last node in preorder. |
| `PreorderTree.GraftPre` | DuiLib/UIImageList.cpp:489-516 | A new last child comes in preorder right after the subtree of its parent, whose last node is found by going down the last children. |
| `ImageList.PtrArray.Add` | DuiLib/UIBase.cpp:294-314 | Add appends; the allocation doubles when the new count reaches it, from 0 to 11. |
| `ImageList.PtrArray.InsertAt` | DuiLib/UIBase.cpp:316-329 | InsertAt inserts at every place from 0 to the count, with the same rule for the allocation, and changes nothing otherwise. |
| `ImageList.GetLastChild` | DuiLib/UIImageList.cpp:107-114 | get_last_child returns the last node of the subtree in preorder. |
| `ImageList.ImageListUI.AddSubItemAt` | DuiLib/UIList.cpp:377-404 | AddSubItemAt inserts the row, every row then knows its index, and the selection stays on its row. |
| `ImageList.ImageListUI.AddNode` | DuiLib/UIImageList.cpp:294-528 | After AddNode, and so after any sequence of calls, the list is the preorder of the tree without its root, every row knows its index, the new node is the last child of its parent, and the selection is on the same row. |

## Left out

Weaker than the source, or modelled differently:

- StbInflate.Zbuf.ParseHuffmanBlock: at most `fuel` symbols per block, because on zero bits past the end of the input the loop of the source need not end; `DeflateLimits.NeverEnds` says exactly when no bound is enough, and `DeflateLimits.BlocksMore` that the bound makes no other difference.
- StbInflate.Zbuf.ParseZlib: at most `n` blocks, for the same reason.
- StbInflate.DoZlib: a growing output buffer of size 0 is excluded, because expand does not end on it (`StbInflate.ExpandEnds`).
- StbInflate.Zbuf.ComputeHuffmanCodes: where the source leaves the language (decoding -1 as a code length symbol, code 16 first, lengths past their array, a distance symbol without a base) the model says `Undef` and nothing more; assertions are taken as compiled out.
- StbHuffman.Zhuffman.Build: the arrays of zhuffman are fields of type `seq` that are reassigned, not arrays written in place; aliasing between them is not at issue.
- HuftBuild.Build: the counts, offsets and value list are sequences; only the table space is an array written in place.
- Inflate.Inflater.Codes: the input is one contiguous sequence; `base` is where the present piece of it starts, and a byte that WASH hands back from before it is taken to be the byte of the stream. Whether that happened is recorded, and `Entry` makes it an outcome of its own. next_out is the sequence of bytes delivered.
- InflateBlocks.Blocks.Proceed: z_stream and the structs for blocks and codes are two objects; the codes state keeps a snapshot of the tables. The state after Z_MEM_ERROR is not modelled, and the window is taken as zeroed when it is made. What inflate makes of the byte before its input is not modelled.
- Entry.Reader.Inflate: only the modes that a stream without zlib header reaches; the header, dictionary and check-byte modes never run, because inflateInit2 always asks for none. next_in is never null.
- Entry.Reader.Read: the file is one byte sequence. After table space has run out, and after WASH has stepped to before read_buffer in a block that is not the last one, the outcome is `Wild` and nothing is said about what comes next, because inflate then works on freed memory or on a byte that is not in the buffer. In the last block such a step does no harm, as no byte is read any more, and it is not an outcome.
- Gif.Decoder.Raster: offsets count pixels, not bytes; for a minimum code size above 12, whose codes do not fit the table, the model says `Undef` and nothing more. A comparison in the source that cannot succeed (code with the count that has just been incremented) is left out.
- PngRaw.CreateRaw: not the mode in which only a part of the image is decoded; images have at least one column.
- Adam7.Deinterlace: the final image is a two-dimensional array of pixels; raw data that are advanced past their end are reported as undefined.
- ImageList.ImageListUI.AddNode: only node, row, index and selection; item data, icons and layout are not modelled.
- StringMap.CStdStringPtrMap.Resize: allocation is taken to succeed.

Not modelled:

- The widths of sizes and counters, except where wrap-around matters (checksums, bit buffers, code limits); failing allocation, except for table space.
- The zlib header and check modes of inflate, preset dictionaries and inflateSync.
- PNG chunks, palettes, transparency and format conversion; GIF headers, colour tables and extensions; all other image formats in stb_image.c.
- File handles, directories, times and the writing of extracted files; the local and central file headers of an archive.
- Removal, sorting and visibility of nodes; removal of rows; everything that draws or handles messages.
- String formatting and conversion, and the rest of the containers in UIBase.cpp, which would add only easy members.
