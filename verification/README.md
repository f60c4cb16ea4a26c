# ntfs2btrfs: a model of the conversion, its trees, its rollback and its decompressors

ntfs2btrfs turns an NTFS volume into a Btrfs one in place, keeps the old volume as an image file, and can
roll back from that image. Files that NTFS stores compressed are decoded on the way, as LZNT1, XPRESS or LZX.
This project models the parts of the program where those promises are kept, in Dafny, and proves them:

* **The planner** (`SpaceList`, `ChunkAllocator`, `DataChunks`): free lists and chunks as the allocators edit
  them in place. Whatever is handed out was free, is handed out once, lies in one chunk and clear of the
  superblocks, and every byte is accounted for.
* **The bitmap** (`BitmapScan`, `BitmapTail`, `DataBitmap`): the word-at-a-time scan against a scan of one bit
  at a time.
* **The trees** (`LittleEndian`, `Packing`, `TreeItems`, `TreeBlock`, `TreeWalk`, `TreeLevels`, `TreeBooks`,
  `TreeCursor`, `TreeBuilder`, `TreeNodes`, `ChunkItems`, `ExtentTrees`, `ExtentFixpoint`, `ExtentUsed`): a B-tree
  is packed from an item map that may grow while it is being packed, reads back as the items seen, and the extent,
  chunk and device trees are built over and over until they describe their own blocks. What the items say is
  stated by the bytes a reader finds in them.
* **The conversion** (`RunLists`, `Joined`, `ImageRollback`, `Protect`, `RoundTrip`, `ChunkTree`, `ImageTree`,
  `Mappings`, `ValidData`, `ExtentItems`, `ItemCover`, `UsedBytes`, `ChunkUse`, `ChunkSteps`, `Room`, `Conversion`,
  `CsumRuns`): who owns which clusters, which of them are moved away, what the image and the files point at, what
  each chunk counts as used, and that rolling back restores every used cluster.
* **From end to end** (`Start`, `Superblocks`, `Convert`, `Samples`): from a volume's bitmap through carving,
  protecting, counting and giving files their clusters to the items written, and back again; for which volumes
  that works; and volumes that show where it does not.
* **The decompressors** (`Shifts`, `CanonicalCode`, `HuffmanTable`, `HuffmanSubtables`, `Bitstream`, `StreamBits`,
  `HuffmanDecode`, `LzCopy`, `Xpress`, `LzxFormat`, `LzxDecompress`, `LzxBreak`, `E8Filter`, `E8Vector`, `E8Calls`,
  `Lznt1`): table-driven decoders with word-wide copies against readings of the formats that know of no tables and
  no words.
* **Writing what they read** (`BitWriter`, `XpressEncode`, `LzxLens`, `LzxEncode`, `LzxBlocks`, `Lznt1Stream`): each
  of the three formats written out, from the codes down to the bytes, and read back as what was written. XPRESS
  is section 2.2, and LZNT1 section 2.5, of [MS-XCA]; LZX is described in [MS-PATCH], in the form WIM files use.
* **The index** (`IndexSearch`): looking a key up in an NTFS index.

Code that edits things in place is modelled by classes, arrays and loops; what it computes is stated by
functions and predicates on values, about which the lemmas speak. The disk is an array of clusters. Tree
blocks are arrays of cells, each a byte with its meaning. `dafny verify dfyconfig.toml` checks everything.

## Model

| member | source | states |
|---|---|---|
| CanonicalCode.UniqueSymbol | src/ebiggers/decompress_common.c:140-152 | in a complete code every window of m bits is prefixed by the codeword of exactly one symbol |
| HuffmanDecode.MakeDecodeTable | src/ebiggers/decompress_common.c:118-335 | for every array of lengths, building succeeds exactly when the code is complete or empty, and the table then decodes every window of the code, in the root or through a subtable |
| HuffmanTable.SortSymbols | src/ebiggers/decompress_common.c:171-182 | the counting sort leaves each symbol with a codeword at its place by length and then by value |
| HuffmanSubtables.FillSubtables | src/ebiggers/decompress_common.c:268-332 | the subtable phase, which advances a codeword by carries, decodes every window that starts with a codeword longer than the root |
| HuffmanDecode.ReadHuffsym | src/ebiggers/decompress_common.h:244-285 | one or two table lookups give the symbol, and leave the stream, that reading the canonical code bit by bit gives |
| HuffmanDecode.SymReadIsPrefix | src/ebiggers/decompress_common.h:244-285 | the symbol read is one whose canonical codeword begins the remaining bits, padded with zeros past the end |
| HuffmanDecode.SymReadIsUnique | src/ebiggers/decompress_common.h:244-285 | no other symbol's codeword begins the remaining bits |
| HuffmanDecode.SymReadRest | src/ebiggers/decompress_common.h:244-285 | what is left to read is the remaining bits without that codeword, whatever the state of the buffer |
| Bitstream.InputBitstream.EnsureBits | src/ebiggers/decompress_common.h:75-103 | 16-bit units join the buffered bits in order, and zeros do once the input has run out |
| StreamBits.StreamIsBits | src/ebiggers/decompress_common.h:75-103 | from the bytes alone: bit k of the stream is bit 15 - k mod 16 of byte pair k div 16, low byte first, and zero behind the last whole pair; the next n bits are the number these make |
| StreamBits.SymReadIsBits | src/ebiggers/decompress_common.h:244-285 | the next bits of the bytes are the codeword of the symbol that is read, and reading goes on right behind it |
| StreamBits.WordsAreRead | src/ebiggers/decompress_common.h:152-176 | numbers that stand between the bits are their bytes, lowest first |
| BitWriter.FieldIsRead | src/ebiggers/decompress_common.h:75-140 | a field of bits laid out in 16-bit units, each standing where the reader takes it in, is read as the number that was written, and what was written behind it is then ahead |
| LzCopy.Copy | src/ebiggers/decompress_common.h:452-543 | matches are refused exactly when they begin before the output or end after it; otherwise word copies, which may run over, give the bytes that copying one at a time gives, and nothing at or past the limit changes |
| LzCopy.Apply | src/ebiggers/lzx_decompress.c:386-434 | one decoded token extends the output by exactly its LZ77 expansion, or is refused |
| Xpress.Decompress | src/ebiggers/xpress_decompress.c:87-155 | decoding ends; it succeeds exactly when the bits denote a token list of the output's length, and the output is its expansion |
| XpressEncode.LensAreRead | src/ebiggers/xpress_decompress.c:97-103 | the lengths of a code, packed two a byte with the first in the low half, are read back |
| XpressEncode.DecodeInvertsEncode | src/ebiggers/xpress_decompress.c:87-155 | for every complete code and all tokens it has codewords for, what is written is decoded as those tokens |
| XpressEncode.DecompressEncoded | src/ebiggers/xpress_decompress.c:87-155 | given what was written, the decompressor's output is what the tokens expand to |
| LzxDecompress.GetNumMainSyms | src/ebiggers/lzx_common.c:84-99 | the main code has slots for every offset of the window, and no more than it needs beyond 30 |
| LzxDecompress.AllocateDecompressor | src/ebiggers/lzx_decompress.c:505-541 | there is a decompressor exactly for sizes from 1 to the largest window; its window holds the size, and its main code has slots for every offset in it |
| LzxDecompress.ReadCodewordLens | src/ebiggers/lzx_decompress.c:154-232 | the delta-coded lengths are those the precode's symbols denote, and all stay in 0..16 |
| LzxLens.LensAreRead | src/ebiggers/lzx_decompress.c:154-232 | for every complete precode, lengths written one at a time as differences modulo 17, as runs of zeros or as runs of one length are read as those lengths |
| LzxDecompress.Decompressor.ReadBlockHeader | src/ebiggers/lzx_decompress.c:240-329 | the block type, size, lengths and recent offsets are those the header denotes, and the recent offsets are nonzero |
| LzxDecompress.DecodeBlock | src/ebiggers/lzx_decompress.c:332-437 | a block's tokens, recent-offset queue and output are those of the reading without tables |
| LzxEncode.SlotsAre | src/ebiggers/lzx_common.c:41-69 | each offset slot begins where the one before it, with as many offsets as its extra bits can tell apart, ends |
| LzxEncode.CodedIsRead | src/ebiggers/lzx_decompress.c:386-434 | a token written as a literal, as a recent offset by its place, or as an offset by its slot is read as that token: a recent offset changes places with the first, a new one pushes the last out |
| LzxFormat.StreamNoE8 | src/ebiggers/lzx_decompress.c:479-500 | when no block was uncompressed and no main code had a codeword for byte E8, no byte of the output is E8 |
| LzxDecompress.Decompressor.Decompress | src/ebiggers/lzx_decompress.c:439-503 | success and output are those of the format followed by the full E8 undo, although the program skips the undo when no E8 byte can occur; against the tokens' expansion, exactly the targets of calls are changed, back to relative ones |
| LzxBlocks.StreamInvertsEncode | src/ebiggers/lzx_decompress.c:439-503 | what is written for any blocks, verbatim, aligned or stored, is read as their tokens, with the lengths and recent offsets one block leaves to the next |
| LzxBlocks.DecodeInvertsEncode | src/ebiggers/lzx_decompress.c:439-503 | data comes back as it was when the blocks stand for it with its call targets translated |
| LzxBlocks.AnyDataIsWritable | src/ebiggers/lzx_decompress.c:479-493 | any data that fits one block can be so written |
| LzxBreak.BreakIsBoundary | src/ebiggers/lzx_decompress.c:301-313 | what follows the header of a stored block is read from the next 16-bit boundary if and only if at most 16 bits are buffered |
| E8Filter.ScanInverse | src/ebiggers/lzx_common.c:314-324 | undoing after applying, and applying after undoing, gives back every buffer |
| E8Filter.ScalarFilter | src/ebiggers/lzx_common.c:170-207 | the form that overwrites the last six bytes with E8 does what the plain left-to-right scan does |
| E8Vector.VectorFilter | src/ebiggers/lzx_common.c:166-283 | so does the form with the 64-bit mask of valid positions and the trap byte, for every alignment |
| E8Calls.FilterChanges | src/ebiggers/lzx_common.c:104-141 | at each E8 byte before the last ten that is in no earlier call, the four bytes behind it, as a signed number with the lowest first, are changed as the direction says: to undo, a target in 0..12000000 loses the position and one that reaches back no further than the beginning gains 12000000; all other bytes stay |
| Lznt1.SplitIsLeast | src/decomp.cpp:70-78 | for outputs of 1 to 4096 bytes the displacement field is the smallest, of at least four bits, that reaches every earlier byte |
| Lznt1.NoFlagsIsLiterals | src/decomp.cpp:42-50 | a zero flag byte means eight literals |
| Lznt1.DecompressChunk | src/decomp.cpp:34-99 | the loop computes the groups of the chunk, including where it stops short or reads outside what was written |
| Lznt1.DecodeInvertsEncode | src/decomp.cpp:34-99 | decoding the encoding of any valid token list gives its LZ77 expansion |
| Lznt1.Decompress | src/decomp.cpp:101-158 | the loop over chunks gives the chunks' contents, cut or padded to the size asked for |
| Lznt1Stream.ChunksAreRead | src/decomp.cpp:101-158 | any list of chunks, each raw bytes behind a header of 0x3000 or coded tokens behind one of 0xB000, plus the length of the data less 1, and two zero bytes at the end: reading them gives the chunks' contents joined, cut or zero-padded |
| Lznt1Stream.DecompressWritten | src/decomp.cpp:101-158 | so the decompressor gives back the chunks that were written |
| IndexSearch.Search | src/ntfs2.cpp:403-455 | in any finite, well-ordered index a key's value is returned exactly when the key occurs anywhere, interior entries included; the error exactly when the place of the key is below a record with the wrong magic |
| BitmapScan.RunsAreMaximal | src/ntfs2btrfs.cpp:1386-1483 | the scan of one bit at a time gives the maximal runs of set bits, in order |
| BitmapScan.MaximalRunsAreUnique | src/ntfs2btrfs.cpp:1386-1483 | no other list of runs has that property |
| BitmapTail.ParseBitmap | src/ntfs2btrfs.cpp:1386-1483 | the program's scan computes the runs described by its words and tail bytes |
| BitmapTail.WholeWordsAreExact | src/ntfs2btrfs.cpp:1393-1434 | for bitmaps of whole 32-bit words these are the maximal runs of set bits |
| BitmapTail.ParseIsExactWhenInStep | src/ntfs2btrfs.cpp:1386-1483 | for every other bitmap they are so if and only if no byte of the tail merely continues the state before a later change shows it |
| DataBitmap.ParseDataBitmap | src/ntfs2btrfs.cpp:1485-1605 | every chunk's list is the scan's runs clipped to the chunk |
| DataBitmap.TrimRuns | src/ntfs2btrfs.cpp:3767-3785 | cutting from the end leaves each list's clusters that are on the device, the partial last one included, and no others |
| DataBitmap.DataBitmapIsExact | src/ntfs2btrfs.cpp:1485-1605 | each list is in order and inside its chunk, and holds exactly the chunk's set bits where the scan is exact |
| SpaceList.SpaceListRemove | src/ntfs2btrfs.cpp:196-227 | removing in place computes `Removed` for every sorted list |
| SpaceList.RemovedIsDifference | src/ntfs2btrfs.cpp:196-227 | which is exact set difference |
| ChunkAllocator.RemoveSuperblocks | src/ntfs2btrfs.cpp:229-244 | the free list loses exactly the chunk's bytes in the four superblock stripes |
| ChunkAllocator.Planner.AllocateMetadata | src/ntfs2btrfs.cpp:456-540 | a tree block was free, lies in one chunk, meets no earlier range and no superblock; it fails exactly when no chunk has room and no new chunk can be made |
| ChunkAllocator.Planner.AllocateData | src/ntfs2btrfs.cpp:542-611 | the same for data, whole multiples of the unit being handed out at multiples of it |
| ChunkAllocator.TookIsAccounted | src/ntfs2btrfs.cpp:468-488 | one first-fit step: the range was free, what stays free is the rest, and all ranges stay apart |
| ChunkAllocator.TookIsCounted | src/ntfs2btrfs.cpp:481 | and the chunk's count grows by what was taken, staying with its free bytes within its length |
| ChunkAllocator.Planner.Locate | src/ntfs2btrfs.cpp:829-851 | every block handed out is found in a chunk, at the device address it was taken from |
| DataChunks.FreeListIsExact | src/ntfs2btrfs.cpp:365-376 | the free list is the unused bytes of the chunk, and those before a used run that begins beyond it |
| DataChunks.FreeListInside | src/ntfs2btrfs.cpp:365-376 | it lies inside the chunk exactly when no used run begins beyond the chunk's end |
| DataChunks.CreateDataChunks | src/ntfs2btrfs.cpp:246-388 | each stretch with used clusters where that holds becomes a chunk with exactly its free bytes; where it holds of all, the planner starts consistent, and every free entry that can hold a chunk begins at a multiple of a chunk's length once the first stretch is used |
| Packing.FilledGrows | src/ntfs2btrfs.cpp:682-721 | greedy packing never needs fewer blocks for more items |
| Packing.PackedIsFewest | src/ntfs2btrfs.cpp:682-721 | no division in order into blocks that fit uses fewer |
| TreeBlock.Buffer.AddItem | src/ntfs2btrfs.cpp:708-723 | headers growing up and data growing down leave a leaf that holds the items so far |
| TreeBlock.HeldItemIsClear | src/ntfs2btrfs.cpp:708-723 | no item's data reaches into the headers or out of the block |
| TreeBlock.LeafIsUnique | src/ntfs2btrfs.cpp:708-723 | a block holds one list of items only |
| TreeBuilder.Root.BuildLeaves | src/ntfs2btrfs.cpp:678-735 | though the map may grow on the way, the leaves are the greedy packing of what the iteration saw, which includes every item there was at the start |
| TreeBuilder.Root.GetAddress | src/ntfs2btrfs.cpp:652-676 | an old address is used again, its item moved to the new level, or a block is allocated and given its one METADATA_ITEM |
| TreeBooks.BlockIsSaid | src/ntfs2btrfs.cpp:462-467 | the item of a block says one reference, generation 1, tree block, and which root the block belongs to |
| TreeNodes.CreateTrees | src/ntfs2btrfs.cpp:636-827 | ends with one root whose tree is the items seen, in order, each pointer carrying the least key below it; else an item was too large from the start, or no block and no chunk is left |
| TreeWalk.WalkTree | src/rollback.cpp:277-314 | walking a tree visits exactly its items, in order, until the visitor stops it |
| TreeLevels.SameLevels | src/ntfs2btrfs.cpp:746-824 | a tree as large as before has the same number of blocks on every level |
| ExtentTrees.PassSettles | src/ntfs2btrfs.cpp:3840-3855 | rebuilding over more items needs at least the blocks there were, and one that allocates nothing puts every block back at its address and level |
| ExtentTrees.AddChunk | src/ntfs2btrfs.cpp:419-454 | the chunk, device and extent trees each get the item that describes the chunk, and keep all they had; it fails exactly when one of the three keys is taken |
| ChunkItems.ChunkIsSaid | src/ntfs2btrfs.cpp:419-440 | a reader finds in a CHUNK_ITEM, at the chunk's address, its length, its kind and where its one stripe begins |
| ChunkItems.DevIsSaid | src/ntfs2btrfs.cpp:442-448 | in a DEV_EXTENT, at the chunk's place on the device, its address and length |
| ChunkItems.GroupIsSaid | src/ntfs2btrfs.cpp:450-453 | and in a BLOCK_GROUP_ITEM, at its address and length, its kind |
| ExtentFixpoint.Settle | src/ntfs2btrfs.cpp:3828-3859 | the loop ends, since each further round takes free bytes; it stops short only with no block and no chunk left, an item too large from the start, or a chunk's key taken |
| ExtentFixpoint.LedgerIsConsistent | src/ntfs2btrfs.cpp:3822-3859 | when every live block is on one root's list, the extent tree has a METADATA_ITEM exactly for each block's address and level |
| ExtentFixpoint.BuildTrees | src/ntfs2btrfs.cpp:3822-3859 | all the trees: at the end each reads back as its root's item map, by itself and among the blocks of all; the extent tree describes exactly the blocks there are, all at different addresses, each item naming its root, those of the chunk tree and no others in system chunks; every chunk is described in all three trees, and nothing else is; no other item was touched; the three ways to fail, each with its cause |
| ExtentTrees.OnlyTheseNow | src/ntfs2btrfs.cpp:3822-3859 | every item about a chunk describes one there is |
| ExtentFixpoint.InOneStore | src/ntfs2btrfs.cpp:3822-3859 | blocks of different roots being at different addresses, each tree stands among the blocks of all of them |
| RunLists.SplitRuns | src/ntfs2btrfs.cpp:1676-1721 | lists stay sorted and inside their chunks, the covered clusters stay the same, and those in the range change owner |
| RunLists.OthersKeepTheirOwner | src/ntfs2btrfs.cpp:1694-1708 | clusters outside the range keep their owner if and only if the run that was cut had none or was cut at its start |
| RunLists.UntouchedIsUncovered | src/ntfs2btrfs.cpp:1676-1721 | a list is left alone exactly when no cluster of the range is in a run |
| Joined.LooseIsCut | src/ntfs2btrfs.cpp:1684-1709 | a range of used clusters that no file owns and that have not been moved lies in one run, so the error for a corrupted bitmap is not raised |
| Joined.SplitKeepsJoined | src/ntfs2btrfs.cpp:1694-1708 | giving part of a run away leaves no two such runs touching |
| Protect.Converter.ProtectCluster | src/ntfs2btrfs.cpp:3518-3562 | the cluster's content is copied, its run given to the dummy inode, and the copy's run entered; the conversion's invariant is kept |
| Protect.Converter.Write | src/ntfs2btrfs.cpp:3605-3612 | writing to protected clusters, to clusters in no run and to new data keeps it |
| Protect.Converter.Change | src/ntfs2btrfs.cpp:2937-2948 | a write to what is still content of the old volume, in place or in a copy, keeps it for the old volume with that one cluster so changed |
| Protect.Converter.Give | src/ntfs2btrfs.cpp:1723-1916 | giving clusters to a file keeps it |
| Protect.Converter.Enter | src/ntfs2btrfs.cpp:3064-3080 | entering the run of newly written data keeps it |
| ImageRollback.CreateImage | src/ntfs2btrfs.cpp:1355-1382 | the image has one extent for each run that is neither a copy nor new data, pointing at the copy where the run is protected |
| ImageRollback.WrittenIsRolledBack | src/rollback.cpp:452-490 | reading every moved extent before writing any restores each, whatever lay where, and changes nothing else |
| RoundTrip.RollBackConversion | src/rollback.cpp:385-494 | after any sequence of protecting, writing, entering and giving, rolling back makes every used cluster what it was |
| ImageTree.ReadExtents | src/rollback.cpp:424-450 | walking the image's tree, and stopping early, finds the inode's extents, or refuses, as parsing all its items would |
| ImageTree.ParseIs | src/rollback.cpp:424-450 | that is: compressed, inline and unknown extents are refused, and else exactly the regular ones that are on the device are found |
| ImageTree.ImageIsRead | src/rollback.cpp:424-450 | the EXTENT_DATA bytes that were written are decoded to the extents they were made from |
| ChunkTree.ReadChunks | src/rollback.cpp:351-361 | walking the chunk tree collects its CHUNK_ITEMs, by the address each begins at |
| ChunkTree.FindChunk | src/rollback.cpp:171-183 | the chunk found for an address is the first whose described length reaches over it; none is found only when none does |
| ChunkTree.FindAddress | src/rollback.cpp:464-474 | in a chunk tree whose items describe the planner's chunks, an address is found exactly when it is in one of them, and resolved to its place on the device |
| ImageTree.Resolve | src/rollback.cpp:452-470 | each extent is found in the chunks that were read and resolved to the place it was made for; it fails exactly when one is in no chunk |
| ImageTree.AddExtents | src/ntfs2btrfs.cpp:1355-1382 | the image's items join the tree's map in order, one for each extent |
| Mappings.CutKeepsMoves | src/ntfs2btrfs.cpp:1787-1797 | splitting a relocation does not change where any cluster goes |
| Mappings.RewriteMappings | src/ntfs2btrfs.cpp:1758-1911 | over all four ways a mapping and a relocation can overlap, every virtual cluster ends at the relocated place of its old cluster, in order and with none lost; relocations of one cluster, the only ones there are, are never cut, so the run lists are not edited here |
| Mappings.ProcessMappings | src/ntfs2btrfs.cpp:1723-1916 | so does the whole: dropping sparse mappings, cutting at chunk ends and rewriting |
| ExtentItems.CreateItems | src/ntfs2btrfs.cpp:3229-3312 | each run that is not protected gets one item |
| ExtentItems.RefsAgree | src/ntfs2btrfs.cpp:3229-3312 | its references are exactly the image's and the files' extents that point at the run, each with that extent's offset, each once and in falling order of their hashes |
| ItemCover.AllItemsCover | src/ntfs2btrfs.cpp:3229-3312 | the clusters in the items are exactly those in use and not protected |
| ItemCover.RunOfExtent | src/ntfs2btrfs.cpp:3229-3312 | each extent of the image points at a run that is not protected and has the extent's length |
| ExtentItems.GiveKeepsMatch | src/ntfs2btrfs.cpp:2951-2961 | giving a run's clusters to a file together with an extent keeps the runs files own and the extents files have in step |
| UsedBytes.StartsInIsTested | src/ntfs2btrfs.cpp:3624 | the unsigned comparison tests whether a run begins in the chunk, also where the difference wraps |
| UsedBytes.ProtectKeepsCharge | src/ntfs2btrfs.cpp:3536-3544 | each protected cluster is missing from its chunk's count, modulo 2^64 |
| UsedBytes.UsedIsExact | src/ntfs2btrfs.cpp:3614-3632 | adding up the runs cancels that: the count becomes the bytes of the runs that are not protected |
| ChunkUse.CalcUsedSpace | src/ntfs2btrfs.cpp:3614-3632 | each list is counted into the one chunk that begins where it expects |
| ChunkUse.FitTogether | src/ntfs2btrfs.cpp:1124-1128 | runs and free entries that do not touch share out a chunk without passing its length |
| ChunkUse.CountIsExact | src/ntfs2btrfs.cpp:3614-3632 | once all that is used outside the chunks is protected, every count is the bytes of its one list's runs in the chunk, and leaves room for what is free |
| ChunkSteps.StepKeepsApart | src/ntfs2btrfs.cpp:542-611 | an allocation, with or without a further chunk, was of unused bytes; free lists and used clusters stay apart, and every chunk stays where a list expects it |
| Conversion.Conversion.constructor | src/ntfs2btrfs.cpp:3732-3787 | what follows holds from any start where no free byte of a chunk, and none of the device-wide list where a chunk can be carved, is in a used cluster |
| Conversion.Conversion.ProtectCluster | src/ntfs2btrfs.cpp:3518-3562 | the allocator's address is a whole cluster in no run; lists, copies, free lists and the chunks' short counts stay in step; it fails only with no room for a chunk, or past the device's end |
| Conversion.Conversion.CountUsed | src/ntfs2btrfs.cpp:3789 | after the adding up every count is exact, and with the free bytes fits the chunk |
| Conversion.Conversion.NewData | src/ntfs2btrfs.cpp:3054-3080 | new data goes to clusters that were in no run, is charged to its chunk, and its run and its file's extent are entered; it fails only without room in the chunks, or past the device's end |
| Conversion.Conversion.Give | src/ntfs2btrfs.cpp:2951-2961 | a cluster range becomes a file's, with an extent there, without fail when its clusters are loose or it is one cluster |
| Conversion.Conversion.RefsAgreeNow | src/ntfs2btrfs.cpp:3229-3312 | at every point after the adding up, items and references agree |
| Conversion.BuildTrees | src/ntfs2btrfs.cpp:3822-3859 | with the trees built, each chunk's count is the bytes of its runs that were not protected and of all allocations since, and is no more than its length; rolling back is still possible |
| ExtentUsed.UpdateExtentRoot | src/ntfs2btrfs.cpp:1110-1139 | stopping at the first block that is not a leaf, every leaf's block groups get the counts of the chunks that begin there, and nothing else in it changes |
| ExtentUsed.CountedStands | src/ntfs2btrfs.cpp:1110-1139 | the tree, so changed in place, reads back as its items with the counts filled in |
| Conversion.FillCounts | src/ntfs2btrfs.cpp:1110-1139 | in the extent tree as it is read back, each chunk's block group says the count the chunk has, and its kind |
| Conversion.FinishTrees | src/ntfs2btrfs.cpp:3822-3865 | from the counting to the extent tree with all counts in it |
| Start.ParseRuns | src/ntfs2btrfs.cpp:3763-3785 | the runs are exactly the clusters on the device whose bits are set, each list sorted, none owned |
| Start.StartIsApart | src/ntfs2btrfs.cpp:246-388 | on every clean volume, no free byte of a chunk, and none where a further chunk can be carved, is in a used cluster, though other bytes of the device-wide list may be |
| Start.UsedIsReachable | src/ntfs2btrfs.cpp:3564-3603 | every used cluster is in a chunk, in the first megabyte, or behind the last chunk |
| Start.Begin | src/ntfs2btrfs.cpp:3716-3785 | on every clean volume all that the conversion asks for at its start holds |
| Room.NoFitIsNoSlots | src/ntfs2btrfs.cpp:546-566 | no data chunk has room for a cluster exactly when the number of free whole clusters is zero |
| Superblocks.ProtectSuperblocks | src/ntfs2btrfs.cpp:3564-3603 | when it is done, all that is used outside the chunks is protected; it is done when the chunks have a free cluster for each one in use that is asked for and none of these is asked for twice, and not when one is |
| Superblocks.AskedOnce | src/ntfs2btrfs.cpp:3564-3603 | no cluster is asked for twice if and only if no superblock after the first is behind the last chunk |
| Samples.UsedBehindTheChunk | src/ntfs2btrfs.cpp:3591-3602 | a clean volume with a used cluster in what the device-wide free list keeps of the device |
| Convert.Prepare | src/ntfs2btrfs.cpp:3732-3789 | from a clean volume's bitmap to counts that are all exact, with everything used outside the chunks protected |
| Convert.ProcessFile | src/ntfs2btrfs.cpp:1723-1916 | a sound file's mappings are rewritten and its clusters given to it, without fail; the runs files own and the extents files have are in step, and its extents are those of the rewritten mappings |
| ValidData.CutMappings | src/ntfs2btrfs.cpp:2909-2935 | mappings that end with the valid data lose nothing: at most a sparse one joins them |
| ValidData.TailOf | src/ntfs2btrfs.cpp:2905-2949 | when the valid data ends inside a cluster, which cluster is taken for it: the last of the last mapping, or one counted from the device's start |
| ValidData.ZeroedToSectorEnd | src/ntfs2btrfs.cpp:2937-2948 | the bytes made zero are those from the end of the valid data to the end of its 4 KB sector |
| Convert.AddFile | src/ntfs2btrfs.cpp:2903-2961 | the file is added exactly when the cluster in which its valid data ends is mapped, or needs no zeroing; then its extents are those of the rewritten mappings, each mapped cluster is in one of them at its place on the old volume or its copy's, runs and extents are in step, and of the old volume only that cluster has changed, beyond the valid data |
| Convert.WriteImage | src/ntfs2btrfs.cpp:1355-1382 | the image's tree gets one item for each extent, in order |
| Convert.CreateAllItems | src/ntfs2btrfs.cpp:3229-3312 | at any point after the counting each extent of the image and of a file has an item where it points, of its length, that names it; the items come one behind the other and hold exactly the clusters in use and not protected; each names exactly the extents that point at it, once each, in falling order of the hashes |
| Convert.ChecksumRuns | src/ntfs2btrfs.cpp:3355-3405 | the clusters in use and not protected, each once and in rising order, in runs whose items fit and none of which could be longer |
| Convert.RollBack | src/rollback.cpp:385-494 | after any conversion, read back from the chunk tree and the image's tree, every extent of the image is found in a chunk, and rolling back makes every used cluster what it was, but for what `Convert.ZeroTail` has zeroed |
| Convert.BuildThenRollBack | src/rollback.cpp:385-494 | the trees that the conversion builds are ones it can be rolled back from |
| CsumRuns.MergeRuns | src/ntfs2btrfs.cpp:3355-3405 | cutting and merging ends, with the clusters of all lists in order, in runs that are not empty and not too long; one that is shorter than the longest allowed is followed by a gap or by the next chunk |
| CsumRuns.AllClustersAre | src/ntfs2btrfs.cpp:3355-3405 | those clusters are exactly the ones in use and not protected, each once and in rising order |
| CsumRuns.ItemFits | src/ntfs2btrfs.cpp:3355-3405 | for all four checksums, and clusters up to 1 MB, a run's item is not empty, fits a leaf and fits 16 bits |

## Findings

Where the program does not do what it means to, the model keeps the program's behaviour.

| member | source | what happens |
|---|---|---|
| BitmapTail.TwoFullBytes | src/ntfs2btrfs.cpp:1436-1443 | in the bytes after the last whole word a uniform byte moves the position by 1, not 8: two full bytes read as a run of 9. `BitmapTail.ParseIsExactWhenInStep` gives the exact condition. The same loop is at lines 314 and 1562 |
| DataChunks.FreeListPassesTheEnd | src/ntfs2btrfs.cpp:365-376 | a used run that begins beyond the rounded-down end of the last chunk makes the chunk's free list run on past its end. `DataChunks.FreeListInside` gives the exact condition |
| DataChunks.LastClusterIsNotScanned | src/ntfs2btrfs.cpp:257 | only whole bytes of a chunk's bitmap are looked at, so up to seven clusters at its end count as free. `DataChunks.WholeChunkIsScanned` gives the exact condition |
| RunLists.LeftLosesItsOwner | src/ntfs2btrfs.cpp:1695-1696 | what is left of a run before the range that is given away loses its owner. `RunLists.OthersKeepTheirOwner` gives the exact condition. The run then already has an owner, which it has only where two files claim the same clusters; `Convert.ProcessFile` is about files where none do |
| Convert.ZeroTail | src/ntfs2btrfs.cpp:2937-2948 | in a file's last cluster, what is beyond its valid data is made zero in place, and rolling back does not bring it back. `ValidData.ZeroedIsSame` gives the exact condition |
| ValidData.StrayWrite | src/ntfs2btrfs.cpp:2937-2948 | where the cluster in which the valid data ends is sparse, some other cluster of the device is so changed, counted from its start; with no mapping at all there is none to look at. `Convert.AddFile` gives the exact condition |
| Samples.ConvertStripeTwice | src/ntfs2btrfs.cpp:3564-3603 | a used cluster that is in a superblock's stripe and behind the last chunk is protected a second time. `Superblocks.UsedTwice` is the condition; `Superblocks.AskedOnce` says when no cluster can meet it |
| Samples.ConvertFullChunk | src/ntfs2btrfs.cpp:3591-3602 | with no free cluster in the chunks for what is in front of the last one's end, and no room for a further chunk in front of it, the copies are made behind it, where the loop comes to them and protects them again. `Superblocks.OnlyBehind` is the condition; on a volume, `Convert.Full` brings it about |
| LzxBreak.BreakSkipsAUnit | src/ebiggers/lzx_decompress.c:301-313 | the header of a stored block goes on at the next 16-bit boundary, but with more than 16 bits buffered, as after a short codeword, the reader goes on two bytes later. `LzxBreak.BreakIsBoundary` gives the exact condition |
| Samples.SecondChunkIsEmpty | src/ntfs2btrfs.cpp:262-263 | a last stretch of less than 64 KB with a used cluster becomes a chunk of no length. `Samples.ChunkIsEmptyWhen` gives the exact condition |

Two more show in the model as outcomes or requirements. The device-wide free list begins at 1 MB with the
device's whole length (line 3726), so an allocation can lie past the end: `Conversion.PastEnd`. For clusters
longer than a sector the run of new data is rounded down (line 3065): `Conversion.Conversion.NewData` is about
data of whole clusters.

## Left out

- Devices, files, handles, options, progress and all other input and output; `dev.read` and `dev.write` are reads and writes of an array of clusters.
- zlib, LZO and zstd compression, and the insides of all hashes: a hash is a function passed in where its order matters.
- Inodes, directories, extended attributes, security descriptors, reparse points, timestamps and names: many cases with shallow properties.
- The superblocks, and the updates in place of finished trees other than the counts of used bytes: `update_root_root`, `update_chunk_root`, tree checksums and `add_dev_item`.
- The numeric bounds of the decode tables: `HuffmanDecode.MakeDecodeTable` asks for a table with room, and its entries are unbounded numbers. The sharing of memory between lengths and tables in unions is not modelled.
- Machine words: bit masks and bitmaps are sequences of flags, the word size and alignment are parameters, and addresses are unbounded. Wrap-around is modelled where it happens, in the chunks' counts.
- `std::map` is a sequence in key order, and an iterator into one stands on an entry: what re-keying an entry does to an iterator standing on it is not modelled.
- Conversion.Conversion.ProtectCluster: does not cover clusters that do not divide 64 KB, because the allocator may then return an address that is no multiple of the cluster, which line 3534 rounds down; nor the last, partial cluster of a volume, which counts as a whole one.
- Conversion.Conversion.Give: is about mappings already cut at chunk ends, as `process_mappings` cuts them; `RunLists.SplitRuns` covers longer ranges, for which line 1718 gives every piece the same file offset.
- Protect.Converter.ProtectCluster: is about a cluster that is not protected already and holds no copy; a second time would move the copy, and the model ends there, with `Conversion.Again`.
- Superblocks.ProtectSuperblocks: says nothing of whether it is done when the chunks have too few free clusters and further chunks can be made in front of the last one's end, or are needed only for clusters behind it.
- Convert.AddFile: does not make the write that goes astray, nor look at the last mapping when there is none. Compressed and resident files are not mapped this way: `Conversion.Conversion.NewData` is about their data.
- Convert.RollBack: blocks are found by their addresses; the superblock, with the chunks that lead to the chunk tree, and the lookup of the roots and of the image's inode are not modelled.
- ChunkTree.FindChunk: is about descriptions of chunks with one stripe, as they are written; the program would read past the end of a shorter item.
- ImageTree.ReadExtents: an item too short for an extent is refused, where the program would read past its end.
- Start.Begin: is about clean volumes (`Start.Clean`): cluster 0, the boot sector's, is in use, and none of the first three findings occurs. Those give the exact conditions under which lists and chunks are wrong from the start.
- Lznt1.DecompressChunk: a match that reaches outside what has been written, which the program does not check, is an outcome of its own.
- IndexSearch.Search: entries and records are values; their byte layout, the scaling of record numbers and the fixups are not modelled.
- The rest of the NTFS reader: `walk_btree`, attribute lists and reading through mappings.
