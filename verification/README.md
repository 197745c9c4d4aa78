# Verified models of mllm's stateful cores

This project models the parts of mllm whose correctness depends on state, layout or bookkeeping, and
proves what they promise, for all inputs and all runs. Run `dafny verify dfyconfig.toml` to check it.

* **The buddy memory pool** (`Dyadic`, `OrderedMap`, `BuddyTiling`, `BuddySegment`, `BuddyPool`, `BuddyGrab`,
  `BuddyRuns`, `BuddyTheorems`, `BuddyObjects`, `BuddyMemPool`, `BuddyCache`, `BuddyChoice`). The pool is a class over heap blocks and segments:
  free lists, halving, coalescing by a flipped offset bit, the object cache, and self-expansion. Every method
  is tied to a step of a pool value, and the theorems hold of all runs of these steps: exact tiling and
  accounting, a canonical free set, safe and large enough live blocks, bounded merging, complete search,
  and exactly how many expansions a request takes. `BuddyCache` says of the public calls when the object cache serves,
  and `BuddyChoice` which segment and which free block do.
* **Splitting attention by head** (`Tensors`, `TensorHeads`, `ShaAttention`, `ShaTheorem`, `ShaForward`,
  `ShaNames`, `ShaPrepare`, `ShaParameterFile`, `ShaModels`, `ShaSamples`, `ShaCasts`, `ShaLowering`, `ShaMeaning`, `ShaPass`,
  `ShaPulls`). For Llama and Qwen3, preparing a parameter file and then running the per-head attention returns what the
  multi-head attention returns: output, new keys and new values. Scalar arithmetic, softmax and norms are uninterpreted
  functions, so the proof is pure index algebra. `ShaMeaning` and `ShaPass` say what the returned numbers are, one by one,
  and `ShaPulls` under which name of the file each parameter is found.
* **Model files** (`Bytes`, `ModelFileV1`, `ModelFileV2`, `ModelLayout`, `FileLayout`). The writers and the mapped and streamed
  readers of versions 1 and 2 at byte level, the independent check of the layout, and the place of every field in numbers.
* **KV caches** (`KvRows`, `HkvCache`, `HkvReorder`, `KvPair`, `KvLayout`). The repeated, heads-first cache and the plain,
  positions-first cache as flat arrays, their agreement after any run, and compaction; `KvLayout` tells all of it of single
  elements at their tensor indices.
* **Streaming UTF-8** (`Utf8`, `Utf8Stream`). The printed text is the longest well-formed prefix of what was fed,
  by the grammar of section 4 of RFC 3629, however the bytes were cut.
* **Tensor addressing** (`Positions`, `Addressing`). Strides, block lanes, views, contiguity and shape arithmetic.
* **The one-batch benchmark** (`TokenResize`, `Distinct`, `BenchRunner`). Resizing multimodal prompts, and the
  capacity check of the cache pool, with the slot that every position of every request gets.
* **The quantization recipe** (`RecipeNames`, `RecipeShapes`, `Recipe`, `RecipeDescriptors`, `RecipeTables`,
  `RecipeTotals`). An accepted recipe
  divides the linear layers among its patterns, and the table of descriptors derived from it is complete and right:
  `RecipeTables` has it in numbers, for both supported models, and `RecipeTotals` the bytes of the whole file.

## What turned out false of the code

Each of these is stated with the exact condition under which the code does what it should.

* `BuddyTheorems.CapacityMustBeAPower`: the pool's constructor compares rounded-up logarithms only; it needs a
  capacity that is a power of two. The pool model requires that.
* `BuddyGrab.ExpansionExact`: a request above 2^29 bytes that no segment can serve is never served,
  however much memory the backing allocator has: the pool expands until that allocator fails.
* `BuddyCache.ReuseIsExact`: a freed block waits in the object cache under its own size, and a request looks under the size
  asked for. Allocating, freeing and allocating a listed size again therefore reuses the block exactly when that size is a
  power of two no smaller than the minimum block; blocks of other listed sizes stay parked and are never served.
* `ShaLowering.LoweringIsExact`: the compiler for the accelerator lowers `repeat` to a tiling. With more than one group and
  more than one key head the multi-head form then returns another output: `LoweringDiffers` gives the arithmetic, the
  parameters and the input, for every such configuration. In all other configurations nothing changes.
* `ShaCasts.DirectIsExact`: Qwen3's per-head form quantizes keys and values to 8 bits directly, its multi-head form by way
  of a 32-bit float. For given casts and scales the two forms agree on all models and inputs exactly when the two ways
  agree on every scalar; `SixteenBitsDiffer` gives casts for which they do not, and `DifferingPass` the pass. For one pass,
  `ShaForward.Qwen3ShaIsMha` says exactly when the outputs agree, in terms of the keys and values of that pass.
* `ShaTheorem.PartsMakeWhole`: per-head scales make up the whole scale exactly when the head count divides its length.
* `ModelFileV1.RoundTripIsExact`: the version 1 writer sizes its header by the names stored in tensors but writes
  the names of the map. A written file is read back through the stream exactly when the two have the same total length.
* `ModelFileV2.RoundTripV2IsExact`: a version 2 file is read back exactly when every name is shorter than 256 bytes and has
  no zero byte, and every rank is at most 16.
* `HkvReorder.OrderIsExact`: compaction removes repetitions before it sorts, so it is right exactly when no
  position was visited again after another one.
* `Addressing.ViewAddressIsExact`: a view's address is the block of its element exactly when the two remainders
  by the lane count do not carry.
* `BenchRunner.CheckIsStricter`: the capacity check suffices, but it counts the last output token of each request, which
  is never stored; it turns away settings that would fit exactly when only those tokens have no room.

A comment in `mllm/core/schema/ModelFileV2.hpp` (lines 26 to 30 and 54) gives a parameter descriptor 416 bytes and its shape
128; the structure and its static assertion have 352 and 64, and those are modelled.

## Model

| member | source | states |
|---|---|---|
| Dyadic.BuddyIsSibling | mllm/engine/BuddyMemPool.cpp:197-199 | for an aligned offset, flipping the bit of its size gives the other half of its parent block, and doing so twice gives the offset back |
| BuddyTiling.HalveKeeps | mllm/engine/BuddyMemPool.cpp:145-162 | halving keeps the exact tiling and the absence of free buddy pairs, and adds just the upper half to the free blocks |
| BuddyTiling.FuseStaysInRange | mllm/engine/BuddyMemPool.cpp:196-203 | a block whose buddy lies in the segment is below the top order, so the merge loop never forms an order above it although it has no such test |
| BuddyTiling.FuseKeeps | mllm/engine/BuddyMemPool.cpp:208-221 | absorbing a free buddy keeps the exact tiling and takes just the buddy off the free blocks |
| BuddyTiling.PutKeeps | mllm/engine/BuddyMemPool.cpp:203-206 | listing a block whose buddy is not free keeps the tiling exact and canonical |
| BuddySegment.Merges | mllm/engine/BuddyMemPool.cpp:195-223 | a release merges at most as often as there are orders above the block, and at most max order minus min order times |
| BuddySegment.FreeIsMaximal | mllm/engine/BuddyMemPool.cpp:110-224 | the free blocks of a segment are exactly the maximal aligned intervals that meet no outstanding block |
| BuddySegment.SameOutSameFree | mllm/engine/BuddyMemPool.cpp:110-224 | two segments with the same outstanding blocks have the same free blocks, whatever led to them |
| BuddySegment.FitPassesUsedTest | mllm/engine/BuddyMemPool.cpp:123-124 | a segment with a free block that could hold the request is never skipped by the `cap - used` test |
| BuddySegment.AllocReleaseRestores | mllm/engine/BuddyMemPool.cpp:134-224 | releasing a block just allocated restores the free blocks, the outstanding blocks and `used` |
| BuddySegment.IdleIsWhole | mllm/engine/BuddyMemPool.cpp:184-224 | a segment with nothing outstanding is one free block of its top order |
| BuddyPool.Need | mllm/engine/BuddyMemPool.cpp:123-132 | the order of block for a request: large enough, and smaller than twice the larger of the request and the minimum size |
| BuddyGrab.PassedOverMeansNoFit | mllm/engine/BuddyMemPool.cpp:118-174 | a segment is passed over only when every one of its free blocks is smaller than the request |
| BuddyGrab.UsedTestIsSafe | mllm/engine/BuddyMemPool.cpp:123-131 | a request that passes the `cap - used` test has an order the segment knows, so the too-large exit is unreachable |
| BuddyGrab.ServedAtOnce | mllm/engine/BuddyMemPool.cpp:110-182 | a request that some segment fits is served without expansion; otherwise the pool expands and tries again, or fails when nothing is granted |
| BuddyGrab.ExpandServes | mllm/engine/BuddyMemPool.cpp:176-177 | after an expansion the request is still not served exactly when the new segment's order is below the request's |
| BuddyGrab.ExpansionExact | mllm/engine/BuddyMemPool.cpp:176-181 | a request no segment fits is served exactly when its order is at most 29 and enough regions are granted; it then takes one expansion, or as many as the orders between the largest segment and the request |
| BuddyGrab.AllocBuddyOk | mllm/engine/BuddyMemPool.cpp:110-182 | allocation from the segments keeps the segments sound and hands out a block of the request's order that nobody holds |
| BuddyGrab.ReleaseOk | mllm/engine/BuddyMemPool.cpp:184-224 | a release keeps the segments sound, keeps everyone else's blocks, and takes just this block out of use |
| BuddyRuns.Acquire | mllm/engine/BuddyMemPool.cpp:53-62 | the block an allocation hands out is held by nobody else and at least as large as asked, and exactly as large when it comes from the object cache; when it does is said by `BuddyCache.AllocTakesParked` and `BuddyCache.AllocPassesCache` |
| BuddyRuns.AllocKeeps | mllm/engine/BuddyMemPool.cpp:53-66 | a completed allocation keeps the pool's whole invariant |
| BuddyRuns.ParkOk | mllm/engine/BuddyMemPool.cpp:290-295 | parking files a block under its own size and loses no block |
| BuddyRuns.UnparkOk | mllm/engine/BuddyMemPool.cpp:276-288 | the oldest block parked under a size has just this size, and nobody else holds it |
| BuddyRuns.FlushKeeps | mllm/engine/BuddyMemPool.cpp:86-97 | flushing a newly listed size keeps the invariant, returns all blocks parked under it, and touches no other |
| BuddyTheorems.StartValid | mllm/engine/BuddyMemPool.cpp:22-51 | a fresh pool satisfies the invariant |
| BuddyTheorems.RunKeepsValid | mllm/engine/BuddyMemPool.cpp:53-97 | after every run of allocations, frees, cache-list updates and expansions that does not abort, the invariant holds |
| BuddyTheorems.Accounting | mllm/engine/BuddyMemPool.cpp:53-97 | in every segment `used` is the total size of the blocks out, the rest is on the free lists, and the blocks out are exactly the live and the parked ones |
| BuddyTheorems.LiveBlockSafe | mllm/engine/BuddyMemPool.cpp:53-97 | a live block is a tile of its segment, apart in addresses from every other tile, at least as large as asked, and held by one storage |
| BuddyTheorems.EveryRunIsSafe | mllm/engine/BuddyMemPool.cpp:53-97 | after any run that does not abort, no two live blocks share a byte and each is at least as large as asked |
| BuddyTheorems.FreeSetIsMaximal | mllm/engine/BuddyMemPool.cpp:110-224 | a block is free exactly when it meets no block in use and its parent does, or it is the whole segment |
| BuddyTheorems.RunsAgreeOnFree | mllm/engine/BuddyMemPool.cpp:110-224 | two runs in whatever order that end with the same blocks in use end with the same free blocks |
| BuddyTheorems.IdlePoolIsWhole | mllm/engine/BuddyMemPool.cpp:184-224 | with nothing live or parked, each segment holds exactly one free block, of its top order |
| BuddyTheorems.SplitHalves | mllm/engine/BuddyMemPool.cpp:145-147 | the block that splitting a fresh segment yields has the capacity halved once for each order between |
| BuddyTheorems.CapacityMustBeAPower | mllm/engine/BuddyMemPool.cpp:36 | of sizes alone, halved as the split loop halves them, since a segment of the model has a power of two for its capacity: every request that a fresh first segment admits gets a large enough size exactly when the capacity is a power of two; the check of logarithms does not give that |
| BuddyCache.FreeParks | mllm/engine/BuddyMemPool.cpp:70-82 | with the cache on, freeing a listed size puts the block behind the others parked under the block's own size, counts it, changes no segment and ends its being live |
| BuddyCache.FreeReleases | mllm/engine/BuddyMemPool.cpp:75-79 | with the cache off, or for a size not listed, freeing takes just that block out of use and parks nothing |
| BuddyCache.AllocTakesParked | mllm/engine/BuddyMemPool.cpp:53-62 | with the cache on, a request of a listed size with blocks parked under it gets the oldest of them; one hit is counted and no segment changes |
| BuddyCache.AllocPassesCache | mllm/engine/BuddyMemPool.cpp:57-61 | with the cache off, for a size not listed, or with nothing parked under it, parked blocks and counters stay as they are, and the block is a new one of the request's order |
| BuddyCache.AllocServedAtOnce | mllm/engine/BuddyMemPool.cpp:118-174 | such a request succeeds without expansion whenever some segment fits |
| BuddyCache.FreedIsReused | mllm/engine/BuddyMemPool.cpp:70-82 | freeing a live block of a listed size with nothing parked under it and asking for that size again gives that very block, changes no segment and counts one hit, exactly when the size is the block's; otherwise the block stays parked under its own size |
| BuddyCache.ReuseIsExact | mllm/engine/BuddyMemPool.cpp:53-82 | allocating, freeing and allocating a listed size again is a hit on the same block exactly when the size is a power of two no smaller than the minimum block |
| BuddyCache.ParkedSizesAreBlockSizes | mllm/engine/BuddyMemPool.cpp:290-295 | only under powers of two from the minimum block on is anything ever parked |
| BuddyCache.NewSizesAreFlushed | mllm/engine/BuddyMemPool.cpp:86-97 | after an update the listed sizes are the given ones, nothing is parked under a newly listed size, and what is parked under any other size is unchanged |
| BuddyCache.FlushedIsFree | mllm/engine/BuddyMemPool.cpp:88-94 | the blocks that an update takes out of use are exactly those parked under newly listed sizes |
| BuddyCache.AllocFreeRestores | mllm/engine/BuddyMemPool.cpp:53-82 | an allocation outside the cache that some segment serves, followed by its free, restores live storages, counters, parked blocks and every segment's free blocks |
| BuddyChoice.AllocIsBestFit | mllm/engine/BuddyMemPool.cpp:134-172 | the block comes off the front of the nonempty list of least sufficient order, it is the lowest part of what was there, and each split puts its upper half at the end of its list; all other lists stay |
| BuddyChoice.LowestAddressServes | mllm/engine/BuddyMemPool.cpp:118-124 | of the segments that fit, the one of lowest address serves |
| BuddyChoice.ExpansionDoubles | mllm/engine/BuddyMemPool.cpp:231-236 | a new segment has twice the capacity of the largest one, and at most 536870912 bytes |
| BuddyObjects.Segment.FindFit | mllm/engine/BuddyMemPool.cpp:134-140 | the search over the lists finds the smallest order that is large enough and not empty |
| BuddyObjects.Segment.SplitDown | mllm/engine/BuddyMemPool.cpp:145-162 | the split loop on heap blocks does what splitting the segment value does, and moves no other block |
| BuddyObjects.Segment.AllocBlock | mllm/engine/BuddyMemPool.cpp:141-168 | allocation in one segment: the heap lists follow the segment value, and every block already out keeps standing for the same bytes |
| BuddyObjects.Segment.MergeTurn | mllm/engine/BuddyMemPool.cpp:196-222 | one turn of the merge loop: it goes on exactly when the buddy is free, the absorbed buddy is the only object dropped, and blocks that are out are untouched |
| BuddyObjects.Segment.MergeLoop | mllm/engine/BuddyMemPool.cpp:194-223 | the merge loop computes the canonical merge, in at most max order minus min order merges |
| BuddyObjects.Segment.ReleaseBlock | mllm/engine/BuddyMemPool.cpp:184-224 | a release on heap blocks follows the segment value, and no other block that is out is deleted or changed |
| BuddyMemPool.BuddyMemPool.constructor | mllm/engine/BuddyMemPool.cpp:22-51 | the constructed object is the fresh pool value |
| BuddyMemPool.BuddyMemPool.AllocBuddy | mllm/engine/BuddyMemPool.cpp:110-182 | the heap allocator returns the block, and leaves the pool, that the value-level allocation gives, expansions included, and fails exactly when that does |
| BuddyMemPool.BuddyMemPool.NextCapacity | mllm/engine/BuddyMemPool.cpp:231-236 | the next capacity is a power of two of the next order: twice the largest, up to 2^29 |
| BuddyMemPool.BuddyMemPool.ExpandBuddySegment | mllm/engine/BuddyMemPool.cpp:227-263 | expansion adds one wholly free segment in a granted region, or changes nothing when none is granted |
| BuddyMemPool.BuddyMemPool.AllocObjCache | mllm/engine/BuddyMemPool.cpp:276-288 | the oldest block parked under the request's size is taken and a hit is counted; nothing changes when there is none |
| BuddyMemPool.BuddyMemPool.FreeObjCache | mllm/engine/BuddyMemPool.cpp:290-295 | a block is parked under its own size and counted |
| BuddyMemPool.BuddyMemPool.Alloc | mllm/engine/BuddyMemPool.cpp:53-66 | a public allocation is the step of the pool value, and the storage gets its block's address; what that step does to cache and segments is said by `BuddyCache` and `BuddyChoice` |
| BuddyMemPool.BuddyMemPool.FreeBuddy | mllm/engine/BuddyMemPool.cpp:184-224 | a block goes back to its segment as in the pool value, and no other holder's block is affected |
| BuddyMemPool.BuddyMemPool.Free | mllm/engine/BuddyMemPool.cpp:70-82 | a public free is the step of the pool value, for null, unknown, cached and plain storages |
| BuddyMemPool.BuddyMemPool.FlushSize | mllm/engine/BuddyMemPool.cpp:90-92 | every block parked under one size is released, and the size is forgotten |
| BuddyMemPool.BuddyMemPool.UpdateCacheSizeList | mllm/engine/BuddyMemPool.cpp:86-97 | sizes newly listed are flushed, dropped ones are not, and the list is replaced |
| BuddyMemPool.BuddyMemPool.LocateSegment | mllm/engine/BuddyMemPool.cpp:266-274 | the segment found contains the address, and none is found only when none contains it |
| BuddyMemPool.BuddyMemPool.NoneDeleted | mllm/engine/BuddyMemPool.cpp:219-221 | no live and no parked block is one that coalescing, in whichever segment, has deleted |
| TensorHeads.HeadRepeat1 | mllm/backends/cpu/ops/RepeatOp.cpp:22-47 | head `h` of a repeated tensor is head `h / groups` of the original |
| TensorHeads.TileAgrees | mllm/backends/qnn/aot/visitor/Repeat.cpp:43-62 | with one copy, or one entry to copy, tiling a tensor is repeating its entries in a row |
| TensorHeads.TileIsRepeat | mllm/backends/qnn/aot/visitor/Repeat.cpp:43-62 | tiling is repeating in a row for all tensors of a width exactly with one copy or one entry; otherwise a numbered tensor tells them apart |
| ShaLowering.TiledIsMha | examples/llama_qnn_aot/modeling_llama_qnn_aot.hpp:278-302 | with one group or one key head, the multi-head form with its repetitions lowered returns the same, whatever the arithmetic, parameters and input |
| ShaLowering.LoweringDiffers | mllm/backends/qnn/aot/visitor/Repeat.cpp:43-62 | for every configuration with more groups and more key heads, an input on which the lowered form returns another output |
| ShaLowering.LoweringIsExact | mllm/backends/qnn/aot/visitor/Repeat.cpp:43-62 | lowering keeps the meaning of every model of a configuration exactly with one group or one key head |
| TensorHeads.ConcatHeads | examples/llama_qnn_aot/modeling_llama_qnn_aot_sha.hpp:415-423 | concatenating all heads of a tensor gives the tensor back |
| ShaTheorem.HeadChannel | examples/llama_qnn_aot/modeling_llama_qnn_aot_sha.hpp:671-716 | everything output channel `o` of head `h` depends on, weights and both scales, is that of channel `h * head_dim + o` of the whole projection |
| ShaTheorem.PartsMakeWhole | examples/llama_qnn_aot/modeling_llama_qnn_aot_sha.hpp:687-699 | the per-head parts of a scale concatenate to the scale exactly when the head count divides its length |
| ShaTheorem.HeadOfConv | examples/llama_qnn_aot/modeling_llama_qnn_aot_sha.hpp:268-294 | a head of the whole projection is the projection by that head's weights and scales |
| ShaTheorem.HeadRotary | examples/llama_qnn_aot/modeling_llama_qnn_aot_sha.hpp:131-137 | the rotary embedding acts on each head alone |
| ShaTheorem.HeadAttend | examples/llama_qnn_aot/modeling_llama_qnn_aot_sha.hpp:378-413 | scaled, masked attention acts on each head alone; its entries are those of `ShaMeaning.WeightsAt` |
| ShaForward.SplitQdq | examples/llama_qnn_aot/modeling_llama_qnn_aot.hpp:232-246 | quantizing before splitting into heads is quantizing afterwards |
| ShaForward.HeadOfQuery | examples/llama_qnn_aot/modeling_llama_qnn_aot_sha.hpp:272-320 | head `h` of the multi-head queries is the per-head query computed from that head's parameters |
| ShaForward.HeadOfKey | examples/llama_qnn_aot/modeling_llama_qnn_aot_sha.hpp:280-352 | head `h` of the multi-head keys, quantized and transposed, is the per-head key |
| ShaForward.HeadOfValue | examples/llama_qnn_aot/modeling_llama_qnn_aot_sha.hpp:288-359 | head `h` of the multi-head values is the per-head value |
| ShaForward.HeadOfAttention | examples/llama_qnn_aot/modeling_llama_qnn_aot_sha.hpp:376-413 | head `h` of the multi-head attention over the repeated cache is the per-head attention over the cache of its group |
| ShaForward.ShaIsMha | examples/llama_qnn_aot/modeling_llama_qnn_aot_sha.hpp:253-426 | for every input, past cache and parameter set, splitting the parameters by head keeps the output, the new keys and the new values |
| ShaForward.LlamaShaIsMha | examples/llama_qnn_aot/modeling_llama_qnn_aot.hpp:218-302 | Llama: the per-head form over split parameters equals the multi-head form |
| ShaForward.Qwen3ShaIsMha | examples/qwen3_qnn_aot/modeling_qwen_qnn_aot_sha.hpp:267-435 | Qwen3, for one pass: the per-head form equals the multi-head form exactly when direct 8-bit quantization agrees with the one by way of a float on the keys and values of the pass |
| ShaCasts.Qwen3AlwaysMha | examples/qwen3_qnn_aot/modeling_qwen_qnn_aot_sha.hpp:358-366 | where the two quantizations agree on every scalar for both scales, the two forms are equal for every input and cache |
| ShaCasts.DifferingPass | examples/qwen3_qnn_aot/modeling_qwen_qnn_aot_sha.hpp:358-366 | a scalar on which they disagree gives, in every configuration, a model with these casts and scales and an input whose outputs differ |
| ShaCasts.DirectIsExact | examples/qwen3_qnn_aot/modeling_qwen_qnn_aot_sha.hpp:358-366 | for given casts and scales, quantizing directly is right for all models and inputs exactly when the two ways agree on every scalar |
| ShaCasts.SixteenBitsDiffer | examples/qwen3_qnn_aot/modeling_qwen_qnn_aot.hpp:266-277 | casts from 16 to 8 bits, one scaling and one clipping, for which the two forms differ in every configuration |
| ShaForward.Forward | examples/llama_qnn_aot/modeling_llama_qnn_aot_sha.hpp:253-426 | the loops over per-head vectors compute the per-head outputs, which `ShaPass.ShaMeans` gives number by number |
| ShaForward.ForwardOverSplit | examples/llama_qnn_aot/modeling_llama_qnn_aot_sha.hpp:253-426 | the loops, run over split parameters, return what the multi-head form returns over the whole ones |
| ShaMeaning.ConvAt | examples/llama_qnn_aot/modeling_llama_qnn_aot.hpp:231-233 | entry `o` of a projection is the convolution of the token with the column and the two scales of channel `o` |
| ShaMeaning.RotateHalfAt | examples/llama_qnn_aot/modeling_llama_qnn_aot.hpp:126-132 | entry `l` of the turned row is the quantized negated entry `l + D / 2` in the first half, and entry `l - D / 2` in the second |
| ShaMeaning.RotaryAt | examples/llama_qnn_aot/modeling_llama_qnn_aot.hpp:249-258 | an entry after rotary embedding is the quantized sum of the quantized products with cosine and of the turned row with sine, each with its own quantization |
| ShaMeaning.MaskedAt | examples/llama_qnn_aot/modeling_llama_qnn_aot.hpp:287-295 | a score is kept where the mask is zero, and elsewhere replaced by its row's quantized minimum plus the constant |
| ShaMeaning.WeightsAt | examples/llama_qnn_aot/modeling_llama_qnn_aot.hpp:282-296 | a weight is the quantized softmax, at its column, of the row of quantized, masked, scaled scores of its token against all keys |
| ShaPass.MhaMeans | examples/llama_qnn_aot/modeling_llama_qnn_aot.hpp:218-302 | every output, key and value of the multi-head form as a number computed from the entries of inputs and parameters: projection, rotary embedding, casts, cached and new keys of the group, masked softmax, weighted values, output projection |
| ShaPass.ShaMeans | examples/llama_qnn_aot/modeling_llama_qnn_aot_sha.hpp:253-426 | the per-head form over split parameters returns the same numbers |
| ShaNames.NamesApart | examples/llama_qnn_aot/modeling_llama_qnn_aot_sha.hpp:719-784 | two per-head names are equal only for the same layer, node, head and suffix |
| ShaNames.PlainApart | examples/llama_qnn_aot/modeling_llama_qnn_aot_sha.hpp:719-784 | no per-head name is the name of a parameter without heads |
| ShaPrepare.PushAllIff | mllm/core/ParameterFile.cpp:28-34 | a list of distinct parameters is entered without abort exactly when none of its names is taken |
| ShaPrepare.PushAllHolds | mllm/core/ParameterFile.cpp:28-34 | afterwards the file holds what it held and what was entered, and nothing else |
| ShaPrepare.PlanDistinct | examples/llama_qnn_aot/modeling_llama_qnn_aot_sha.hpp:719-785 | all names the preparation generates are different |
| ShaPrepare.PreparationTotal | examples/llama_qnn_aot/modeling_llama_qnn_aot_sha.hpp:657-786 | the preparation completes exactly when no copied scale lacks its zero point and no generated name is already in the file |
| ShaPrepare.PreparedHolds | examples/llama_qnn_aot/modeling_llama_qnn_aot_sha.hpp:657-786 | afterwards every generated parameter is in the file with the value cut or copied from the originals, and the originals are unchanged |
| ShaParameterFile.ParameterFile.Push | mllm/core/ParameterFile.cpp:28-34 | a new name is entered; a name already there changes nothing and aborts |
| ShaParameterFile.CutWeight | examples/llama_qnn_aot/modeling_llama_qnn_aot_sha.hpp:671-683 | the loop enters each head's columns of the weight, or aborts on a taken name |
| ShaParameterFile.CutScale | examples/llama_qnn_aot/modeling_llama_qnn_aot_sha.hpp:687-716 | the loop enters each head's part of a scale |
| ShaParameterFile.CopyQdq | examples/llama_qnn_aot/modeling_llama_qnn_aot_sha.hpp:738-754 | the loop copies a node's scale and zero point to every head, and aborts when the zero point is missing |
| ShaParameterFile.CopyNorm | examples/qwen3_qnn_aot/modeling_qwen_qnn_aot_sha.hpp:744-816 | the loop copies a norm's parameters, as far as they exist, to every head |
| ShaParameterFile.PrepareParametersForSHA | examples/llama_qnn_aot/modeling_llama_qnn_aot_sha.hpp:657-786 | the preparation, step by step over all layers, with its aborts |
| ShaModels.ModelPreparationTotal | examples/qwen3_qnn_aot/modeling_qwen_qnn_aot_sha.hpp:670-875 | for the Llama and the Qwen3 list of steps, the preparation completes exactly when no zero point is missing and no generated name is taken |
| ShaModels.ModelStepsFit | examples/llama_qnn_aot/modeling_llama_qnn_aot_sha.hpp:719-729 | all that the preparation asks of a file is that the weights it cuts have exactly the columns of their heads |
| ShaModels.PreparedSplits | examples/llama_qnn_aot/modeling_llama_qnn_aot_sha.hpp:657-786 | every name the per-head attention pulls was generated, and what it pulls are the original parameters split by head; `ShaPulls` has the names written out |
| ShaPulls.LayerPulls | examples/llama_qnn_aot/modeling_llama_qnn_aot.hpp:227-297 | for both models, every parameter of the multi-head form is the entry under its own name written out, scale and zero point: `q_rope_mul_0_output_qdq` for the cosine product, and so on |
| ShaPulls.QueryHeadPulls | examples/llama_qnn_aot/modeling_llama_qnn_aot_sha.hpp:308-318 | every parameter of a query head is the entry under its own name with the head's number |
| ShaPulls.KvHeadPulls | examples/llama_qnn_aot/modeling_llama_qnn_aot_sha.hpp:322-356 | every parameter of a key and value head is the entry under its own name with the head's number |
| ShaPulls.CommonPulls | examples/llama_qnn_aot/modeling_llama_qnn_aot_sha.hpp:262-419 | the parameters that heads share are the entries under their own names |
| ShaModels.LlamaPreparedIsMha | examples/llama_qnn_aot/modeling_llama_qnn_aot_sha.hpp:253-426 | Llama: the per-head attention on the prepared file returns what the multi-head attention returns on the original file; the numbers are those of `ShaPass.MhaMeans`, from the parameters named in `ShaPulls.LayerPulls` |
| ShaModels.Qwen3PreparedIsMha | examples/qwen3_qnn_aot/modeling_qwen_qnn_aot_sha.hpp:267-435 | Qwen3: the same for one pass, exactly when the two quantizations to 8 bits agree on its keys and values |
| ShaModels.Qwen3PreparedAlwaysMha | examples/qwen3_qnn_aot/modeling_qwen_qnn_aot_sha.hpp:267-435 | Qwen3: the same for every input and cache, where the two quantizations agree on every scalar for the scales in the file |
| Bytes.NumberWritten | mllm/core/ParameterFile.cpp:236-253 | a little-endian number written into a file is read back from its place, when it fits its width |
| ModelFileV1.Write | mllm/core/ParameterFile.cpp:206-264 | the three passes write header, descriptors with running offsets, and data |
| ModelFileV1.OffsetsAreRight | mllm/core/ParameterFile.cpp:215-231 | a descriptor's offset is where its data lies exactly when storage names and map names have the same total length |
| ModelFileV1.ReadFile | mllm/core/ParameterFile.cpp:68-203 | the reader's loops, mapped and streamed, as a function of the file's bytes |
| ModelFileV1.ReadersAgree | mllm/core/ParameterFile.cpp:68-203 | whatever the streamed reader reads from any file, the mapped reader reads too |
| ModelFileV1.RoundTrip | mllm/core/ParameterFile.cpp:68-264 | reading a written file in either mode recovers every name, type, byte string and element count |
| ModelFileV1.RoundTripIsExact | mllm/core/ParameterFile.cpp:134-264 | through the stream a written file is read back exactly when storage names and map names have the same total length |
| ModelFileV2.NameSurvives | mllm/core/ParameterFile.cpp:423-424 | a name is read back exactly when it has at most 255 bytes and no zero byte |
| ModelFileV2.DescriptorWritten | mllm/core/ParameterFile.cpp:402-427 | a descriptor written anywhere in a file is parsed back from there |
| ModelFileV2.DescriptorParsed | mllm/core/ParameterFile.cpp:402-427 | a descriptor written anywhere is refused exactly for a rank above 16, and else parsed with the name its field holds |
| ModelFileV2.WriteV2 | mllm/core/ParameterFile.cpp:377-440 | the two passes write header, descriptors with running offsets, and data; `FileLayout.HeaderLayout` and `FileLayout.DescriptorLayout` have every field's place and value |
| ModelFileV2.ReadFileV2 | mllm/core/ParameterFile.cpp:269-374 | the reader's loop over descriptors, mapped and streamed, as a function of the file's bytes, which `FileLayout.ReadMeans` gives for any file |
| ModelFileV2.ReadersAgreeV2 | mllm/core/ParameterFile.cpp:269-374 | whatever the streamed reader reads from any file, the mapped reader reads too |
| ModelFileV2.RoundTripV2 | mllm/core/ParameterFile.cpp:269-440 | reading a written file in either mode recovers every name, type, shape and byte string |
| ModelFileV2.RoundTripV2IsExact | mllm/core/ParameterFile.cpp:269-440 | a written file is read back, in either mode, exactly when every name has at most 255 bytes and no zero byte and every rank is at most 16 |
| FileLayout.LittleEndian | mllm/core/ParameterFile.cpp:236-253 | byte `i` of a stored number is its `i`-th digit in base 256, lowest first |
| FileLayout.HeaderLayout | mllm/core/schema/ModelFileV2.hpp:39-46 | a written file begins 9A 51 00 00 02 00 00 00, then 512 zero bytes, the count at 520, and 532 at 524 |
| FileLayout.DescriptorLayout | examples/qwen3_5/validate_converted_model.py:28-29 | descriptor `i` begins at 532 + 352 i: id at 0, type at 4, size at 8, offset at 16, rank at 24, sixteen dimensions from 32, name from 96, zeros after it; the data follow each other at the offsets up to the end of the file |
| FileLayout.OtherFilesAreRefused | mllm/core/ParameterFile.cpp:280-284 | a file with other first bytes or another version is refused in either mode |
| FileLayout.ReadMeans | mllm/core/ParameterFile.cpp:269-374 | for any file: it is read exactly when its first eight bytes are right, every descriptor has rank at most 16 and a tensor of whole blocks inside the file, no larger than announced and when streamed exactly as large, and no name occurs twice; what is read are the fields at their places |
| FileLayout.HeaderLayoutV1 | mllm/core/schema/ModelFileV1.hpp:38-42 | a version 1 file begins 2C 4E 00 00, then the announced size of the descriptors |
| FileLayout.EntryLayout | mllm/core/ParameterFile.cpp:234-257 | version 1 descriptor `i` begins after 12 + 24 i bytes and the names before it: name length, name, data length, offset, type |
| FileLayout.OtherFilesAreRefusedV1 | mllm/core/ParameterFile.cpp:75-160 | a version 1 file with other first bytes is refused in either mode |
| ModelLayout.ValidateLayout | examples/qwen3_5/validate_converted_model.py:116-128 | the loop accepts exactly when the ranges, sorted by offset, follow each other from start to end |
| ModelLayout.LayoutIsExact | examples/qwen3_5/validate_converted_model.py:116-128 | the check accepts exactly when the ranges are pairwise disjoint and tile the data section |
| ModelLayout.TilesAnyOrder | examples/qwen3_5/validate_converted_model.py:117-119 | being a tiling does not depend on the order in which the ranges are listed |
| ModelLayout.WriterIsAccepted | mllm/core/ParameterFile.cpp:392-437 | every table of offsets and sizes that the version 2 writer produces is accepted |
| HkvCache.InsertRows | algorithms/lazy_vlm/HKVCache.cpp:114-133 | inserting writes every new row to its position in all copies of its head, the last write winning, and no other row |
| HkvCache.AppendRows | algorithms/lazy_vlm/HKVCache.cpp:85-100 | appending writes the new rows after the counted ones in all copies of each head, and no other row |
| HkvCache.PlaceRows | algorithms/lazy_vlm/HKVCacheFast.cpp:50-78 | the plain cache's loop writes every new position for all heads, the last write winning, and no other row |
| KvRows.RunsAgree | algorithms/lazy_vlm/HKVCache.cpp:82-139 | after any run of updates, head `q` of the repeated cache at every written position is head `q / (q_heads / kv_heads)` of the plain cache there |
| KvPair.Pair.AppendBoth | algorithms/lazy_vlm/HKVCache.cpp:85-113 | an append to the one cache and the matching update of the other keep them in agreement on every visited position |
| KvPair.Pair.InsertBoth | algorithms/lazy_vlm/HKVCache.cpp:114-139 | the same for an insert |
| KvPair.Pair.Drive | algorithms/lazy_vlm/HKVCache.cpp:82-139 | after any run of appends and inserts the two cache objects agree on every position visited |
| KvLayout.WrittenRepeatedMeans | algorithms/lazy_vlm/HKVCache.cpp:85-133 | element [0, q, p, e] of the repeated cache is that of the last new row for `p`, of key head `q / (q_heads / kv_heads)`, at its index in the input tensor, and unchanged where nothing was written |
| KvLayout.WrittenPlainMeans | algorithms/lazy_vlm/HKVCacheFast.cpp:50-78 | the same for element [0, p, h, e] of the plain cache |
| KvLayout.AgreeMeans | algorithms/lazy_vlm/HKVCache.cpp:82-139 | caches that agree on `p` hold the same numbers at [0, q, p, e] of the one and [0, p, q / (q_heads / kv_heads), e] of the other |
| HkvReorder.HKVCache.Append | algorithms/lazy_vlm/HKVCache.cpp:85-113 | append: rows, count and visited positions |
| HkvReorder.HKVCache.Insert | algorithms/lazy_vlm/HKVCache.cpp:114-139 | insert: rows and visited positions, or an abort when the numbers differ, with nothing changed |
| HkvReorder.HKVCache.Query | algorithms/lazy_vlm/HKVCache.cpp:140-147 | query returns the rows of all heads at the given positions |
| HkvReorder.HKVCache.Reorder | algorithms/lazy_vlm/HKVCache.cpp:197-220 | in every head row `s` becomes the old row at the `s`-th position of the sorted visited ones, and the count becomes their number |
| KvLayout.CompactedMeans | algorithms/lazy_vlm/HKVCache.cpp:197-220 | after compaction element [0, q, p, e] is the old one of the `p`-th position of the order, and unchanged behind the order's end |
| HkvReorder.OrderIsExact | algorithms/lazy_vlm/HKVCache.cpp:199-202 | the count is the number of distinct visited positions, and the order strictly increasing, exactly when no position is revisited after another |
| HkvReorder.RevisitIsCountedTwice | algorithms/lazy_vlm/HKVCache.cpp:199-202 | a visit to 0, 1 and 0 again is counted as three rows for two positions |
| HkvReorder.HKVCacheFast.Update | algorithms/lazy_vlm/HKVCacheFast.cpp:50-78 | the plain cache's update, or an abort when the numbers differ, with nothing changed |
| Utf8.NextIsChar | third_party/utfcpp/include/utfcpp/utf8/core.h:255-306 | the decoder finds a character of length `n` at the front exactly when the grammar of section 4 of RFC 3629 has one there |
| Utf8.ValidIsLongest | third_party/utfcpp/include/utfcpp/utf8/core.h:443-453 | no well-formed prefix is longer than the one the scan finds |
| Utf8.FindInvalid | third_party/utfcpp/include/utfcpp/utf8/core.h:443-453 | the scan's loop stops at the end of the longest well-formed prefix |
| Utf8Stream.PendingText.TakeValidUtf8Prefix | examples/qwen_ascend/main.cpp:19-35 | the longest well-formed prefix is taken off the pending text, the rest stays, and nothing more can be printed of it |
| Utf8Stream.Generate | examples/qwen_ascend/main.cpp:234-255 | after every turn what is printed is well-formed, printed and pending together are all that was fed, and the loop stops after the limit |
| Utf8Stream.StreamEnds | examples/qwen_ascend/main.cpp:236-254 | what was printed before the end is the longest well-formed prefix of everything fed, and the last print is exactly the rest |
| Utf8Stream.PrintsOneWay | examples/qwen_ascend/main.cpp:236-254 | what is printed depends only on the bytes fed, not on how they were cut into chunks |
| Addressing.CreateStrides | mllm/core/TensorViewImpl.cpp:94-99 | the accumulating loop computes the row-major strides |
| Addressing.StridesAreOneToOne | mllm/core/TensorViewImpl.cpp:87-103 | created strides send two multi-indices to one offset only when they are equal |
| Addressing.OffsetOfIndex | mllm/core/TensorViewImpl.cpp:87-103 | every offset below the element count is that of a multi-index in bounds |
| Addressing.CreateStorage | mllm/core/TensorStorage.cpp:37-58 | the storage has room for all blocks, and creation aborts exactly when the lanes do not divide the element count |
| Addressing.BlockInStorage | mllm/core/TensorViewImpl.hpp:80-88 | the block of every element lies inside the storage |
| Addressing.BlockAddressIs | mllm/core/TensorViewImpl.hpp:86-88 | the elements from `k * lanes` to `k * lanes + lanes - 1` share the block that starts at byte `k * bytes` |
| Addressing.Accumulate | mllm/core/TensorViewImpl.hpp:84-85 | the accessor's loop computes the sum of index times stride |
| Addressing.IsContiguous | mllm/core/TensorViewImpl.cpp:39-50 | the check accepts exactly the strides of a freshly created tensor |
| Addressing.IsContiguousN | mllm/core/TensorViewImpl.cpp:52-65 | the check accepts exactly when the last `n` strides, clamped to the rank, are row-major |
| Addressing.ContiguousIsMonotone | mllm/core/TensorViewImpl.cpp:52-65 | what is accepted for more dimensions is accepted for fewer |
| Addressing.ViewAddressIsExact | mllm/core/TensorViewImpl.hpp:74-88 | a view's address is the block of its absolute index exactly when the two remainders by the lane count stay below it together |
| Addressing.SqueezeUndoesUnsqueeze | mllm/core/Tensor.cpp:590-630 | squeezing takes out the dimension that unsqueezing put in, for dimensions counted from either end, and the element count is kept |
| Addressing.UnsqueezeUndoesSqueeze | mllm/core/Tensor.cpp:590-630 | unsqueezing restores a squeezed shape exactly when the squeezed dimension had size one |
| Addressing.SqueezeAllKeeps | mllm/core/Tensor.cpp:599-607 | squeezing all dimensions keeps the element count and leaves at least one dimension |
| Addressing.SqueezedAllIs | mllm/core/Tensor.cpp:599-607 | squeezing all dimensions leaves exactly those that are not one, in their order, or a single one where all are one |
| Addressing.UnsqueezeKeepsPlaces | mllm/core/Tensor.cpp:590-595 | every element keeps its offset, under an index with a zero in the new dimension |
| Addressing.Squeeze | mllm/core/Tensor.cpp:597-630 | the loops compute the squeezed shape, of one dimension or of all |
| Addressing.FlattenKeeps | mllm/core/Tensor.cpp:632-657 | flattening keeps the element count, and fails exactly for a dimension out of range |
| Addressing.FlattenKeepsPlaces | mllm/core/Tensor.cpp:632-657 | the dimensions before the first one folded stay, and every element keeps its offset: its last index is its row-major place among the folded dimensions |
| Addressing.Flatten | mllm/core/Tensor.cpp:632-657 | the loops compute the flattened shape, or fail |
| TokenResize.ResizeMultimodalInputIds | pymllm/bench_one_batch.py:395-445 | the loop with its early stop computes the resized sequence, and fails exactly when the target is not positive or below the image tokens |
| TokenResize.ResizedIs | pymllm/bench_one_batch.py:395-445 | the result has the target length, all image tokens, the longest fitting prefix of the text tokens, and then only padding: the given token, or 0 when that is the image token, or 1 when both are 0 |
| TokenResize.KeptInOrder | pymllm/bench_one_batch.py:428-436 | image and text tokens keep their original order |
| TokenResize.ResizeTwice | pymllm/bench_one_batch.py:395-445 | resizing to one length and then to a smaller one is resizing straight to the smaller |
| BenchRunner.KvAllocator.MergeAndSortFree | pymllm/mem_cache/memory_pool.py:326-339 | merging released slots back keeps the set and the number of available slots |
| BenchRunner.KvAllocator.Alloc | pymllm/mem_cache/memory_pool.py:353-384 | `n` slots are handed out, all different and no longer available, exactly when `n` are available; they are the first free ones as long as those suffice without merging |
| BenchRunner.CheckMeans | pymllm/bench_one_batch.py:539-550 | a batch passes exactly when the tokens of all its prompts and outputs together are no more than the pool's |
| BenchRunner.CheckSuffices | pymllm/bench_one_batch.py:539-550 | a batch that passes has slots for every token that is ever mapped |
| BenchRunner.CheckIsStricter | pymllm/bench_one_batch.py:539-550 | a setting that would fit is turned away exactly when the pool lacks room only for the last output tokens, which are never mapped |
| BenchRunner.Runner.Extend | pymllm/bench_one_batch.py:786-819 | prefill maps all positions of all requests to different slots that are not free, request by request in the order of the free ones; it fails exactly for want of rows, slots or positions, in this order, and gives rows back when slots are short |
| BenchRunner.Runner.Decode | pymllm/bench_one_batch.py:871-916 | a decode step maps one more position of each request, to the next free slots in the order of the requests, changes no position mapped before and keeps all mapped slots different; it fails exactly for want of slots or positions |
| BenchRunner.Runner.DecodeNext | pymllm/bench_one_batch.py:885-901 | in a run on fresh pools a decode step gives position `len` of request `a` the slot `1 + len * batch + a` |
| BenchRunner.Runner.Generate | pymllm/bench_one_batch.py:786-916 | with enough rows and positions, prefill and all decodes run out of slots exactly when the pool is smaller than batch times mapped length |
| BenchRunner.Runner.RunSingleSetting | pymllm/bench_one_batch.py:960-1076 | a setting is skipped by the check, or fails for want of rows or positions, or runs to its end; it never runs out of slots. At the end request `a` has row `a`, position `i` of its prompt has slot `1 + a * input_len + i`, and a later position slot `1 + i * batch + a` |
| RecipeNames.TextsApart | examples/qwen3_5/validate_checkpoint.py:197-282 | no two parameters of a model have the same name |
| RecipeNames.HeadIsNew | examples/qwen3_5/validate_checkpoint.py:197-282 | no parameter of a model is called as the packed head |
| RecipeNames.PatternIsLinear | examples/qwen3_5/validate_checkpoint.py:285-294 | the pattern for linear layers matches exactly the embedding and the projection weights, and no norm, convolution or state parameter |
| RecipeShapes.ExpectedTextShapes | examples/qwen3_5/validate_checkpoint.py:178-282 | the table has every parameter of every layer under its own name with its shape and nothing else, and fails exactly for an unknown layer type |
| Recipe.ValidateEntries | examples/qwen3_5/validate_checkpoint.py:341-400 | the loop with its running set accepts exactly the recipes whose entries are each right and whose pairwise disjoint matches make up exactly the linear layers, and counts what each pattern matches |
| Recipe.ValidateRecipe | examples/qwen3_5/validate_checkpoint.py:307-400 | the same together with the agreement of checkpoint and runtime configuration |
| RecipeDescriptors.OneOwner | examples/qwen3_5/validate_converted_model.py:66-69 | in an accepted recipe every linear layer is matched by exactly one pattern, so the check for several never fails |
| RecipeDescriptors.LinearPackable | examples/qwen3_5/validate_converted_model.py:39-50 | in both supported models every linear layer has two positive dimensions with inputs divisible by 32, so packing never fails |
| RecipeDescriptors.AcceptedDescribes | examples/qwen3_5/validate_converted_model.py:66-91 | in an accepted recipe each parameter gets its intended descriptor: packed, plain, or plain with a packed copy under the new name |
| RecipeDescriptors.ExpectedDescriptors | examples/qwen3_5/validate_converted_model.py:57-93 | for an accepted recipe nothing fails and the table has one entry more than the model, each with the type, shape and size that `RecipeTables.TableIsLiteral` lists |
| RecipeDescriptors.ValidateAndDescribe | examples/qwen3_5/validate_converted_model.py:169-170 | validation followed by derivation succeeds exactly for accepted recipes, and then the table is right |
| RecipeTables.PackedIsSum | examples/qwen3_5/validate_converted_model.py:39-50 | what can be packed, and its size as a sum: groups of eight rows, the last filled up, each row of two 4-byte words and, for every 32 inputs, sixteen bytes of weights and two of scale |
| RecipeTables.TableIsLiteral | examples/qwen3_5/validate_converted_model.py:57-93 | the table of an accepted recipe is, for each supported model, the listed one: every name, shape, type (0 or 134), stored shape and size in numbers, and nothing else |
| RecipeTables.Counts | examples/qwen3_5/test_validators.py:74-117 | the small model has 320 parameters, 187 of them packed, and 321 descriptors; the large one 426, 249 and 427 |
| RecipeTotals.FileSizes | examples/qwen3_5/test_validators.py:109-119 | the sizes in the table of an accepted recipe add up, with header and descriptors, to a file of 1447352948 bytes for the small model and of 4923030836 for the large one |
| RecipeTables.HintsNameTheRuntime | examples/qwen3_5/validate_checkpoint.py:79-87 | every entry of an accepted recipe packs for the kernel that the accepted runtime configuration names: its triplet, layout and tile make up the name of the implementation |

## Left out

* Concurrency: each public call of the pool is one step. In the source, expansion and the symbol table run outside the lock.
* `ceil(log2(n))` in floating point is the exact integer logarithm rounded up, and `math.ceil(out / 8)` exact integer division rounded up.
* The pool's backing allocator is the list of base addresses it will still grant; an empty list is a failed
  allocation. Granted regions do not overlap. The order in which a hash set of sizes is iterated is a parameter.
* The pool's minimum order is at most 29, as expansion needs; its capacity is a power of two, as the proof above shows it must be.
* A segment object carries its own free lists; the source keeps them in a second map with the same keys.
* Ghost parameters of the pool's methods name the pool value at the call; they have no part in what is computed.
* In the attention model, attaching quantization parameters to a tensor is an uninterpreted element-wise function. The test that
  a key or value zero point is 128 is not modelled.
* The decoder, text and causal models around attention, and the Qwen2 pair, which repeats the Llama pair.
* Every weight that the preparation cuts has exactly as many columns as its heads need; slicing beyond a tensor is not modelled.
* ShaModels.Qwen3PreparedIsMha: asks that no per-head norm scale or zero point is in the file beforehand; the preparation writes one only where the layer has one.
* Version 1 element counts beyond 32 bits and unknown data types are read failures. In version 2, parameter ids are
  parameters of the writer, since they come from pointer arithmetic, and the header's model name is empty.
* Reads past the end of a file, which the source does not check for when the file is mapped, are failures.
* File handles, memory mapping, big-endian machines, and tensors written through a view with a storage offset.
* Sorting of the layout check is stable; only ranges of size zero can be equal in offset.
* HkvReorder.HKVCache.Append: asks that the new rows fit after the counted ones, which the source does not check; writes past the end of a head are not modelled.
* HkvReorder.HKVCache.Reorder: asks that the rows to be laid out are no more than the cache has positions, which only a run that revisits positions can break.
* KV caches: one layer per object; the heads-first layout only, not the other layout of the constructor;
  positions inside the cache; no manual count updates, hidden-state cache, or second compaction, since the visited list is never reset.
* `BenchRunner` has pages of one slot, a pool of `max_total_num_tokens` slots, sorted merging, and at least one position per row.
  Clocks, profiling, the forward pass and sampling are not part of this model.
* Tensor dimensions are unbounded natural numbers, where the source has 32-bit ones.
* Recipes: regular expressions given by a recipe are an uninterpreted relation between patterns and names; the fixed pattern
  for linear layers is modelled on the names themselves. Fields equal in both supported variants are one flag. Which
  error is raised is not modelled, only whether one is. A packed copy renamed to something that is not text fails at once.
* The comparison of descriptors with a file's own table, beyond its layout.
* Pass manager, backends, dispatchers, C interface, command-line tools and documentation.
