# Verified models of the GrokBot serving core

A Dafny model of the parts of GrokBot that hold state, and proofs of what they promise over whole runs.

- **Paged KV cache** (`BlockPool*.dfy`, `PagedKVCache.dfy`): a reference-counted block allocator with a chained-hash
  prefix index, LRU eviction, forks and copy-on-write. It refines a plain map from sequence id to tokens, admits what the
  blocks named by nobody can hold, and shares what is cached.
- **Scheduler and engine loop** (`Scheduler*.dfy`, `Engine.dfy`): admission, chunked prefill, LIFO preemption, finishing
  and aborting, over that cache: what a pass may not do, and what it must.
- **Speculative decoding** (`Speculative*.dfy`): greedy acceptance against plain greedy decoding, typical acceptance
  against the target's distribution.
- **Streaming text** (`Stop*.dfy`, `Stream*.dfy`, `Utf8.dfy`, `Incremental.dfy`, `Bpe*.dfy`, `Pretokenizer.dfy`): stop
  strings, incremental decoding of UTF-8 (section 3 of RFC 3629), byte-level BPE and its pretokenizer.
- **Sampler** (`Sampler*.dfy`, `Ranking.dfy`), **draft tree** (`DraftTree*.dfy`, `TreeAttention.dfy`), **rate limiter**
  (`RateLimit*.dfy`), **expert router** (`Moe*.dfy`), **paper-trading book and session** (`Trading*.dfy`).

Each core file of the program has two forms here. A `…Model` module (for the cache, `BlockPool`) says on values what every
operation does, branch by branch. A class with the program's fields and loops is proved to do just that. The theorems are
lemmas about the value form; the methods state them where they concern one call. `Prelude.dfy` holds the few facts about
sequences and products they share.

## Model

| member | source | states |
|---|---|---|
| BlockPoolRuns.RunRefines | src/grokbot/model/kv_cache.py:175-302 | Any interleaving of allocate, append, fork (to an unused id) and free, failures, evictions and copies included, keeps the pool invariant, and every live sequence reads through its block table as the entry of a plain map updated by the same operations. |
| BlockPoolAllocate.AllocateKeeps | src/grokbot/model/kv_cache.py:175-224 | Allocation is refused exactly for a live id or a prompt `can_allocate` rejects (over a non-negative reserve); the chunk loop never runs dry even as hits pin evictable blocks and misses evict others; what completes keeps the invariant and adds exactly the prompt. |
| BlockPoolRuns.AdmissionExactly | src/grokbot/model/kv_cache.py:130-224 | For each pool size, block size and caching flag, `can_allocate` guarantees completion in every state and for every prompt if and only if the watermark does not reserve a negative number of blocks. |
| BlockPoolReuse.AdmitsExactly | src/grokbot/model/kv_cache.py:127-136 | `can_allocate` accepts exactly when the blocks named by no live sequence's table, cached or not, less the fewest blocks that hold the tokens, leave the watermark's share of the pool, cut toward zero. |
| BlockPoolReuse.IdlePoolServes | src/grokbot/model/kv_cache.py:130-224 | With no live sequence and nothing kept back a prompt is allocated if and only if it has at most |blocks| · block_size tokens, whatever is cached. |
| BlockPoolReuse.FreedPoolServes | src/grokbot/model/kv_cache.py:130-302 | So it is after every run from an empty pool that freed all its sequences. |
| BlockPoolReuse.AllocateTakes | src/grokbot/model/kv_cache.py:175-224 | An allocation leaves at most as many blocks fewer unnamed as its tokens need. |
| BlockPoolReuse.TakesOldest | src/grokbot/model/kv_cache.py:149-173 | The block freed last is taken first; with the free list empty, the unnamed block unused for longest, the lowest of several, and only its own cache entry is lost. |
| BlockPoolReuse.AllocateStamps | src/grokbot/model/kv_cache.py:175-224 | An allocation stamps exactly the blocks of its table, found or taken, and moves the clock on. |
| BlockPoolReuse.AppendStamps | src/grokbot/model/kv_cache.py:226-260 | An append stamps exactly the block it writes to, a copied or new one included. |
| BlockPoolReuse.ForkAndFreeStampNothing | src/grokbot/model/kv_cache.py:262-296 | Forking and freeing are no use of a block and leave stamps and clock alone. |
| BlockPoolPrefix.PrefixIsShared | src/grokbot/model/kv_cache.py:193-215 | A prompt whose first m full blocks are cached gets exactly those blocks for them, and at least their tokens are reported as cached. |
| BlockPoolPrefix.CachedTokensCount | src/grokbot/model/kv_cache.py:193-215 | No more tokens are reported as cached than stand in blocks of the prompt that were. |
| BlockPoolPrefix.AllocateRegisters | src/grokbot/model/kv_cache.py:193-224 | After an allocation every full block of the prompt is cached, under the chain of all tokens up to its end, and is the one in the table. |
| BlockPoolPrefix.RepeatShares | src/grokbot/model/kv_cache.py:175-224 | Allocating a prompt a second time shares every full block of the first. |
| BlockPoolPrefix.CachingIsOptional | src/grokbot/model/kv_cache.py:187-206 | Without prefix caching nothing is shared, counted or indexed. |
| BlockPoolAppend.AppendKeeps | src/grokbot/model/kv_cache.py:226-248 | An append adds the token to its own sequence and shows in no other, shared block or not; it fails exactly for an unknown id, or when a new or copied block is needed and none is free or evictable. |
| BlockPoolAppend.CopyKeeps | src/grokbot/model/kv_cache.py:250-260 | Copying a shared last block changes no sequence's reading, leaves the writer its sole owner, and succeeds exactly when a block is available. |
| BlockPoolFork.ForkKeeps | src/grokbot/model/kv_cache.py:262-276 | A fork makes the child read what the parent reads and nothing else change; the accounting survives if and only if the child's id names no table that holds blocks. |
| BlockPoolRuns.ForkOntoLive | src/grokbot/model/kv_cache.py:262-276 | The concrete case where it does not: a one-token sequence forked onto its own id. |
| BlockPoolFork.FreeKeeps | src/grokbot/model/kv_cache.py:278-296 | Freeing removes one sequence and no other; the free list grows by exactly the uncached blocks nobody else names; freeing twice is harmless. |
| BlockPoolFork.ReleaseAll | src/grokbot/model/kv_cache.py:285-294 | No reference count underflows while a table is released, each block loses one reference, and just the unreferenced uncached ones are freed, once. |
| BlockPoolRuns.TablesAccount | src/grokbot/model/kv_cache.py:127-128 | In every reachable state a table names ceil(num_tokens / block_size) distinct blocks, and each block's reference count is the number of tables naming it. |
| BlockPoolRuns.SharedPrefix | src/grokbot/model/kv_cache.py:193-215 | Two sequences that share a block have it at the same position and agree on every token up to its end. |
| BlockPoolRuns.SlotsAreTheSequence | src/grokbot/model/kv_cache.py:304-312 | A sequence of n tokens has n distinct physical slots, and reading them in order gives its tokens. |
| BlockPoolRuns.AllFreedAllAvailable | src/grokbot/model/kv_cache.py:108-110 | With no live sequence every block is available again: nothing leaks. |
| PagedKVCache.KVCache.Allocate | src/grokbot/model/kv_cache.py:175-224 | The method on mutable blocks, free list and index does what the model does; success adds the prompt and keeps the invariant, a rejection changes nothing, and over a non-negative reserve it succeeds exactly when the id is new and the blocks named by no live sequence leave the reserve after the prompt. |
| PagedKVCache.KVCache.AppendToken | src/grokbot/model/kv_cache.py:226-248 | The method appends to one sequence only, keeps the invariant always, and gives the exact condition of each error. |
| PagedKVCache.KVCache.ForkSequence | src/grokbot/model/kv_cache.py:262-276 | The method adds the child as a copy of the parent, and leaves a valid cache if and only if it failed or the child's id was unused. |
| PagedKVCache.KVCache.FreeSequence | src/grokbot/model/kv_cache.py:278-296 | The method drops one sequence and returns the number of blocks that went back to the pool. |
| PagedKVCache.KVCache.PhysicalSlots | src/grokbot/model/kv_cache.py:304-312 | The slots returned are distinct and hold the sequence's tokens in order; unknown ids are refused. |
| SchedulerPass.ScheduleKeeps | src/grokbot/inference/scheduler.py:178-247 | A pass terminates within its token budget in a sound state, raises nothing, and schedules every freshly admitted request with the chunk it was admitted with. |
| SchedulerPass.ScheduleWithinBudget | src/grokbot/inference/scheduler.py:178-247 | Decodes plus the sum of chunk sizes stay within max_batched_tokens, even when a victim of the same pass is admitted again and its entry overwritten. |
| SchedulerPass.AdmissionDelivers | src/grokbot/inference/scheduler.py:216-234 | The handler for a failed allocation is unreachable: what `can_allocate` accepted for the head of the queue `allocate` delivers. |
| SchedulerProgress.PassServes | src/grokbot/inference/scheduler.py:178-247 | What every pass does, told by the queues before and after it: those who give way to decodes are the last admitted, for want of a block only; decodes run in order of admission until the budget is spent; every remaining request with prompt left gets the least of remainder, chunk size and budget left, in order; newcomers likewise; running and waiting together keep their order; and the pass ends only with nobody waiting, the budget or the slots used up, or a head that can be given no chunk or is refused its blocks with nobody running. |
| SchedulerProgress.DecodeIsServed | src/grokbot/inference/scheduler.py:183-199 | A running request whose prefill is done decodes, or gave way in this pass, or the decodes alone spent the budget. |
| SchedulerProgress.DecodesAreReady | src/grokbot/inference/scheduler.py:183-199 | Nobody decodes but running requests whose prefill is done. |
| SchedulerProgress.PrefillGoesOn | src/grokbot/inference/scheduler.py:201-211 | A running request that did not give way stands in the batch with the least of what it has to prefill, the chunk size and what decodes and the requests ahead of it left, and is absent exactly when that is nothing; without chunking it gets all or nothing. |
| SchedulerProgress.NewcomerBegins | src/grokbot/inference/scheduler.py:213-243 | When nobody gives way, whoever is admitted is next in line and begins with the least of its prompt, the chunk size and the budget left by all ahead of it. |
| SchedulerRoom.RoomyPassPreemptsNobody | src/grokbot/inference/scheduler.py:178-247 | Nobody gives way in a pass over a pool in which the blocks named by nobody number a whole token budget over the reserve. |
| SchedulerSteps.PreemptKeeps | src/grokbot/inference/scheduler.py:259-290 | Preemption keeps the invariant: the newest request loses its table and goes to the front of the queue with its tokens folded into the prompt. |
| SchedulerEngine.StepKeeps | src/grokbot/inference/engine.py:168-226 | One engine step, returned from or cut short by the cache, leaves a sound scheduler; one that returns leaves every running request's table equal to its prefilled prompt and output. |
| SchedulerOrder.StepTokens | src/grokbot/inference/engine.py:168-226 | In every step that returns, each request's tokens grow by exactly those chosen for it, in order, and only requests of the batch are served. |
| SchedulerOrder.CalmStepServes | src/grokbot/inference/engine.py:168-226 | A step in which nobody gives way serves, each once, the decodes and the requests whose prompt this chunk completes; prompts advance by their chunks; and just those told to stop or at max_tokens leave the line and are finished. |
| SchedulerRuns.RunsAreSafe | src/grokbot/inference/scheduler.py:152-312 | Over every run of submissions, aborts and steps: each request in one place, tables for exactly the running ones, queue limits kept, histories in order; tables in step with progress as long as no step was cut short. |
| SchedulerRuns.FromTheStart | src/grokbot/inference/scheduler.py:107-312 | From a new scheduler over an empty pool, after any run: every accepted request in one place with a table exactly while it runs; as long as no step was cut short, tables read the prefilled prompt and output within the length bound. |
| SchedulerRuns.ExactlyOnePlace | src/grokbot/inference/scheduler.py:152-174 | Every accepted request is in exactly one of waiting, running, finished and aborted, and holds blocks exactly while it runs. |
| SchedulerRuns.RunningProgress | src/grokbot/inference/scheduler.py:259-303 | A running request's table holds the first prefill_offset + num_generated tokens of its original prompt and everything generated; its length is at most the original prompt plus (preemption_count + 1) times max_tokens. |
| SchedulerRuns.RunsRemember | src/grokbot/inference/scheduler.py:273-303 | No run loses a request or a generated token, however often it is preempted. |
| SchedulerRuns.SubmittedStays | src/grokbot/inference/scheduler.py:152-303 | Through every run an accepted request's tokens begin with the prompt it was submitted with, and its max_tokens stays. |
| SchedulerOrder.LineKeepsOrder | src/grokbot/inference/scheduler.py:152-312 | First come, first served: over every run, steps cut short included, running and then waiting are the accepted requests in the order of acceptance, without those who left; a request is accepted exactly within the context length and while the queue has room. |
| SchedulerStates.RunsKeepStates | src/grokbot/inference/scheduler.py:152-312 | Over every run a waiting request is marked preempted exactly if it ever was, a running one as running exactly when its prompt is done, and a finished or aborted one as finished. |
| SchedulerRepeats.RepeatsExactly | src/grokbot/inference/engine.py:177-203 | A step executes no more prompt tokens than were scheduled if and only if every id that stands twice in its batch is done with one chunk, and serves nobody twice if and only if every such id is not ready or decoded anyway; without a repeated id it keeps the token budget and serves each request once. |
| SchedulerWitness.ServedTwiceShows | src/grokbot/inference/engine.py:177-203 | The concrete case: two requests, a pool of two blocks, and a step that gives the first request two tokens. |
| Scheduler.Scheduler.Schedule | src/grokbot/inference/scheduler.py:178-247 | The method on mutable queues and requests does what the model's pass does, which serves everybody it can in order, keeps the invariant and stays within the token budget. |
| Scheduler.Scheduler.PreemptNewest | src/grokbot/inference/scheduler.py:259-290 | The victim is the last of the running queue, and nothing happens exactly when nobody runs. |
| Engine.Engine.Step | src/grokbot/inference/engine.py:168-226 | The loops over the batch do what the model's step does, exceptions of the cache included, and keep both invariants. |
| SpeculativeStream.RoundsExact | src/grokbot/inference/speculative.py:77-161 | When the sampler has a generator of its own and drafts are drawn from the recorded probabilities, a stream of rounds starts with a given run of tokens exactly as often as the target alone produces it, for every draft model and depth. |
| SpeculativeTypical.StepExact | src/grokbot/inference/speculative.py:140-171 | With separate generators P(accept y) + P(reject) · residual(y) = target(y) for every y, the fallback of an empty residual included. |
| SpeculativeTypical.ExactlyRecordedDrafts | src/grokbot/inference/speculative.py:77-100 | The scheme reproduces every target if and only if the draft tokens come from exactly the recorded probabilities and are not tested by the number that drew them, or the vocabulary has one token. |
| SpeculativeTypical.TruncatedDraftShows | src/grokbot/inference/speculative.py:97-100 | The concrete case: recorded 3/4 and 1/4, draft sampler cut to its best token. |
| SpeculativeSeeds.RoundStarts | src/grokbot/inference/speculative.py:89-171 | Those chances are the code's own draws and tests: a round starts with y exactly when the sampler's number draws y and the decoder's accepts it, or the sampler's draws some token the decoder's rejects and the decoder's next one falls in y's interval of the residual. |
| SpeculativeRound.RoundPlays | src/grokbot/inference/speculative.py:89-186 | Every round as a whole, which number decides what: the sampler's numbers draw the draft one after the other, each token after those before it; the decoder's numbers test it likewise against the target; what passes is kept; the first that does not is corrected, by the next number, from the residual of its own position, or the sampler adds a token after the whole draft. |
| SpeculativeRound.ChancesInProportion | src/grokbot/inference/speculative.py:97-141 | The recorded chances are a distribution that goes as exp of the logits over the temperature, clamped at a millionth. |
| SpeculativeSeeds.AlikeStarts | src/grokbot/inference/speculative.py:77-78 | Seeded alike, as when no sampler is passed in, one number does both: a round that starts level starts with y exactly when that number falls in an interval as long as the chance that the one-number scheme gives y, or falls in none and the next one draws y from the residual. |
| SpeculativeSeeds.LastNeverStarts | src/grokbot/inference/speculative.py:77-78 | For every positive draft over two or more tokens there is a target that gives the last token a chance, and seeded alike no such round ever starts with it. |
| SpeculativeSeeds.OneSeedShows | src/grokbot/inference/speculative.py:77-78 | The concrete case: target 3/4 and 1/4, draft 1/2 and 1/2, depth 1: the first token is 0 for every seed. |
| SpeculativeStream.CorrectionIsDrawn | src/grokbot/inference/speculative.py:163-180 | The residual is a distribution and `_draw` returns i exactly for a number in i's cumulative interval. |
| SpeculativeStream.RecordedAreSampled | src/grokbot/inference/speculative.py:97-100 | Without bias, suppression, penalties or truncation the sampler draws drafts from the probabilities that are recorded. |
| SpeculativeStream.ModelsAreProper | src/grokbot/inference/speculative.py:97-141 | Softmax at the clamped temperature over any finite logits gives the distributions the exactness theorem asks for. |
| SpeculativeGreedy.RoundsArePlain | src/grokbot/inference/speculative.py:107-161 | At temperature 0 without adjustments, any number of rounds with any draft model is plain greedy decoding with the same tie-break, 1 to k+1 tokens a round. |
| SpeculativeGreedy.GreedyExactly | src/grokbot/inference/speculative.py:127-138 | With adjustments, verification gives plain greedy decoding for every draft of length k if and only if the best raw logit is the best adjusted one along the next k plain tokens. |
| Speculative.SpeculativeDecoder.Verify | src/grokbot/inference/speculative.py:107-161 | The method does what the model's verification does and counts rounds, proposals and rejections, the bonus token among the accepted ones as the program does. |
| StopProofs.FeedKeeps | src/grokbot/inference/stream.py:89-115 | Until a stop occurs, emitted text plus buffer is the text fed; a checker triggers exactly when a stop occurs in all that was fed, having emitted the text before the first one, and reports the first in its list that occurs there. |
| StopProofs.HoldIsExact | src/grokbot/inference/stream.py:80-115 | The buffer is as short as it may be and as long as it must: no continuation starts a stop in what was emitted, and some continuation turns a non-empty buffer into one. |
| StopProofs.HoldIsLongest | src/grokbot/inference/stream.py:80-87 | In a text without a stop the held suffix starts at the first place from which a stop can still grow, and nothing is held when there is none. |
| StopProofs.OutputIs | src/grokbot/inference/stream.py:89-119 | For every cutting into pieces: all of the text when no stop occurs, else the text before the first stop of the shortest run of pieces containing one. |
| StopProofs.OutputHasNoStop | src/grokbot/inference/stream.py:89-119 | No stop string ever reaches the wire. |
| StopProofs.CutIndependence | src/grokbot/inference/stream.py:89-119 | The output is the same for every cutting if and only if, whenever one stop lies strictly inside another, some stop that begins the outer one ends no later than the inner one. |
| StopProofs.NoNestingIsIndependent | src/grokbot/inference/stream.py:89-119 | In particular when no stop occurs inside another at a positive offset and ends before its end. |
| StopProofs.NestedStopShows | src/grokbot/inference/stream.py:99-108 | The concrete case: stops "abc" and "b". |
| StreamChunks.ChunkIs | src/grokbot/inference/stream.py:138-157 | A pushed ordinary id sends a chunk exactly when it completes characters and some text has become safe or a stop has been found; the chunk names the id and is marked as the last exactly when the text so far contains a stop. |
| StreamChunks.ChunksAreServed | src/grokbot/inference/stream.py:126-162 | The chunks' texts, and then what `finalize` releases, are what is served. |
| StreamChunks.SpecialIsSilent | src/grokbot/inference/stream.py:138-157 | A special id renders nothing and sends nothing. |
| Stream.StopChecker.LongestPartialSuffix | src/grokbot/inference/stream.py:80-87 | The downward search returns what the checker must hold: the length of the longest suffix shorter than the longest stop that begins a stop. |
| StreamModel.ServedText | src/grokbot/inference/stream.py:126-162 | Through incremental decoding and stop checking together, a text without a stop is served whole, whatever its tokens, and a stop never is. |
| StreamModel.ServedIgnoresTokens | src/grokbot/inference/stream.py:126-162 | With nested stops shadowed, exactly the text before the first stop is served, so the tokenization never shows. |
| Incremental.StreamIsDecode | src/grokbot/tokenizer/bpe.py:178-205 | For non-empty tokens that spell a text without U+FFFD, the pieces pushed one token at a time concatenate to the full decode. |
| Incremental.Reassembles | src/grokbot/tokenizer/bpe.py:178-205 | After every token they concatenate to the longest prefix of complete characters. |
| Incremental.LookbackExactlySeven | src/grokbot/tokenizer/bpe.py:197-200 | A lookback always reassembles if and only if it is at least 7 tokens; the code's 8 leaves one spare. |
| Utf8.RoundTrip | src/grokbot/tokenizer/bpe.py:148-175 | Decoding with replacement inverts encoding. |
| Utf8.DecodeThenEncode | src/grokbot/tokenizer/bpe.py:165 | Encoding inverts the decoding of every well-formed character, so no two byte strings share one. |
| Utf8.DecodesLongest | src/grokbot/tokenizer/bpe.py:165 | Any bytes decode one character at a time where one stands, and elsewhere to one U+FFFD for the longest run that begins a character, or for a single byte where none does. |
| BpeProofs.TextRoundTrip | src/grokbot/tokenizer/bpe.py:129-176 | decode(encode(text)) = text, specials included, for every merge table, every pretokenizer that only cuts the text and every vocabulary with all byte symbols and disjoint special ids. |
| BpeProofs.TextSkipsSpecials | src/grokbot/tokenizer/bpe.py:159-176 | Decoding with skip_special drops exactly the special parts. |
| BpeProofs.BpeSpells | src/grokbot/tokenizer/bpe.py:93-127 | The merge loop only regroups symbols and ends with no adjacent pair in the merge table. |
| BpeOrder.MergesInOrder | src/grokbot/tokenizer/bpe.py:93-127 | From the letters to the result leads a chain of words, each made from the one before by joining, left to right and without overlaps, every occurrence of the adjacent pair that stands lowest in the merge table, the last place counting; it ends where no adjacent pair is in the table. |
| BpeOrder.OnlyResult | src/grokbot/tokenizer/bpe.py:93-127 | A word is the result of `_bpe` if and only if such a chain leads to it. |
| BpeText.ChunksEncode | src/grokbot/tokenizer/bpe.py:145-157 | With a vocabulary closed under merges, ordinary text is encoded chunk by chunk, each by the ids of the pieces so reached, one for one. |
| BpeText.SpecialsAreSplit | src/grokbot/tokenizer/bpe.py:77-79 | Splitting around the specials takes them leftmost and longest: none begins inside an ordinary part, each special part is the longest that begins where it does, and nothing is lost. |
| BpeText.NoSpecialsUnlessAllowed | src/grokbot/tokenizer/bpe.py:129-157 | Without allowed_special no text is encoded to a special id, whatever it spells. |
| BpeText.DecodeMeans | src/grokbot/tokenizer/bpe.py:159-176 | The bytes of ordinary ids between specials are decoded together, and the specials stand between those texts unless they are skipped. |
| BpeText.DecodesKnown | src/grokbot/tokenizer/bpe.py:159-176 | Decoding succeeds exactly when every id is a special or an entry of the vocabulary made of byte symbols. |
| BpeText.SymbolsAreInOrder | src/grokbot/tokenizer/bpe.py:44-57 | Printable bytes stand for themselves and the other 68 for the characters from 256 on, in order. |
| BpeProofs.FallbackUnreachable | src/grokbot/tokenizer/bpe.py:149-154 | Every piece is in the vocabulary when it holds the byte symbols and the result of every merge. |
| Bpe.TokenizerRoundTrip | src/grokbot/tokenizer/bpe.py:33-41 | The tokenizer's own split pattern only cuts the text, so its round trip is the identity. |
| Pretokenizer.SplitSpells | src/grokbot/tokenizer/bpe.py:33-41 | The chunks of the split pattern, none empty, concatenate to the text. |
| BpeText.SplitMatches | src/grokbot/tokenizer/bpe.py:33-41 | Each chunk is, where the chunks before it end, the longest match of the first alternative of the pattern that matches there at all. |
| Bpe.Tokenizer.Bpe | src/grokbot/tokenizer/bpe.py:93-127 | The memoised merge loop returns what the model's does, reached from the letters by lowest-ranked merges only, whatever is in the cache, which gains just that entry. |
| Bpe.Tokenizer.Decode | src/grokbot/tokenizer/bpe.py:159-176 | The loop with its byte buffer, which it decodes at once at each special and at the end, computes the decoding the round trips speak of; unknown ids and symbols are errors. |
| SamplerProofs.SampleIsSafe | src/grokbot/inference/sampler.py:184-210 | With some finite unsuppressed logit the sampler returns a token that was finite and not suppressed, and under a positive temperature one that survived every truncation. |
| SamplerShares.SampleIsByShares | src/grokbot/inference/sampler.py:184-210 | At a positive temperature the sampler draws by shares that sum to one and go, among the tokens its filters leave, as exp of (adjusted logit − highest) / temperature: i comes out exactly for a number in i's interval of the cumulative shares. |
| SamplerShares.SurvivorTempered | src/grokbot/inference/sampler.py:119-124 | A survivor's logit times the temperature is its adjusted logit. |
| SamplerShares.TruncatedIs | src/grokbot/inference/sampler.py:203-206 | The stages in order: division by the temperature, top-k by how many beat a token, top-p by the mass ahead of it, min-p by comparison with every other. |
| SamplerShares.AdjustedAre | src/grokbot/inference/sampler.py:83-117 | Each adjusted logit is its own plus its bias, minus infinity if suppressed; a token seen n times in the window is divided by the repetition penalty above zero and multiplied below, less n times the frequency penalty and once the presence penalty. |
| SamplerShares.GreedyTakesFirst | src/grokbot/inference/sampler.py:199-201 | At temperature 0 the sampler returns the first of the highest adjusted logits. |
| SamplerShares.SoftmaxShares | src/grokbot/inference/sampler.py:67-71 | Softmax gives each token its weight below the peak over the weight of all. |
| SamplerProofs.PipelineTruncates | src/grokbot/inference/sampler.py:203-206 | What top-k, top-p and min-p leave is not empty, and whatever ranks ahead of a survivor survives with its logit unchanged. |
| SamplerProofs.DrawIs | src/grokbot/inference/sampler.py:169-182 | The draw returns i exactly when r lies in i's cumulative interval, so a token without mass is never drawn and the fallback is dead. |
| SamplerProofs.TopKKeeps | src/grokbot/inference/sampler.py:126-133 | Top-k keeps exactly the tokens fewer than k others beat, ties included. |
| SamplerProofs.NucleusIsShortest | src/grokbot/inference/sampler.py:143-149 | The nucleus is the shortest run of best tokens, at least one, whose mass reaches p. |
| SamplerShares.TopPKeeps | src/grokbot/inference/sampler.py:135-152 | Top-p keeps exactly the tokens before which less than p of the mass stands. |
| SamplerProofs.MinPKeeps | src/grokbot/inference/sampler.py:154-166 | Min-p keeps exactly the tokens at least min_p times as likely as the likeliest. |
| SamplerProofs.PenaltiesNeverPromote | src/grokbot/inference/sampler.py:94-117 | Penalties at their documented signs never let a token of the window overtake one that is not in it, on either side of zero. |
| Ranking.RankedSorts | src/grokbot/inference/sampler.py:141 | The stable descending sort lists every index once, best first, ties by lower index. |
| Sampler.SampleToken | src/grokbot/inference/sampler.py:184-210 | The in-place steps on a copy of the logits return what the model's pipeline returns, and at a positive temperature that is a draw by the shares described above. |
| DraftTreeProofs.OrphansExactly | src/grokbot/experimental/tree_attention.py:86-104 | Pruning orphans nothing at any limit if and only if no node below the first level scores above its parent. |
| DraftTreeProofs.ProbabilitiesKeepBranches | src/grokbot/experimental/tree_attention.py:86-104 | With weights in [0, 1] the orphan branch is never taken, at any limit. |
| DraftTreeProofs.PrunedSize | src/grokbot/experimental/tree_attention.py:93-104 | The pruned tree has max(1, min(max_nodes, size)) nodes, negative limits cut as a slice does. |
| DraftTreeProofs.KeptAreBest | src/grokbot/experimental/tree_attention.py:93-104 | No dropped node scores above a kept one. |
| DraftTreeProofs.PrunedIsRestriction | src/grokbot/experimental/tree_attention.py:59-104 | Kept nodes keep token, depth and cumulative probability, and the pruned tree's attention mask is the original's, restricted to them along the remap. |
| TreeAttention.DraftTree.AttentionMask | src/grokbot/experimental/tree_attention.py:59-71 | Entry (i, j) of the fresh matrix is 1 exactly when j is i or an ancestor of i. |
| TreeAttention.ExpansionAdds | src/grokbot/experimental/tree_attention.py:107-119 | Breadth-first expansion adds only first-`width` proposals after the path of their parent, at most `depth` levels down, and leaves older nodes' tokens and parents alone. |
| DraftTreeExpansion.ExpansionIsComplete | src/grokbot/experimental/tree_attention.py:107-119 | In a tree expanded from its root every node above the depth has for children exactly its first `width` proposals, in order, and those at the depth have none. |
| DraftTreeExpansion.PathLeads | src/grokbot/experimental/tree_attention.py:45-84 | `path_to` leads from the root to the node, each node under the one before it, and the cumulative probability is the product along it. |
| TreeAttention.ExpandedPrunes | src/grokbot/experimental/tree_attention.py:86-119 | A tree expanded from its root by a model proposing probabilities can be pruned at any limit without orphaning a node. |
| RateLimitProofs.RateBound | src/grokbot/serve/ratelimit.py:82-153 | In any window of any run of checks, collections, acquires and releases, a key is granted at most capacity plus rate times window, in requests and in tokens, when collections spare keys seen within 60 times the burst multiplier (plus the clock's movement inside one check). |
| RateLimitProofs.RefusedTakesNothing | src/grokbot/serve/ratelimit.py:96-117 | A refused check leaves both buckets at their refilled level and within capacity, refund included. |
| RateLimitVerdicts.VerdictIs | src/grokbot/serve/ratelimit.py:82-117 | Every check is decided by what it finds, in this order: concurrency, a request's worth of budget, the estimate's worth; an admitted one is charged one request and its estimate, a refused one told the exact refill time; no other key's budget and no count changes. |
| RateLimitVerdicts.CountIs | src/grokbot/serve/ratelimit.py:119-129 | After any run the concurrency count of a key is the largest net of acquisitions over releases of all ends of the run. |
| RateLimitVerdicts.ConcurrencyBound | src/grokbot/serve/ratelimit.py:96-129 | When every acquisition follows at once on an admitted check, no key ever has more in flight than it may. |
| RateLimitProofs.RetryAfterIsExact | src/grokbot/serve/ratelimit.py:49-53 | The announced wait suffices and nothing shorter does, and none is announced when none would, if and only if the amount fits in the bucket or the bucket never refills. |
| RateLimitProofs.NeverAdmitted | src/grokbot/serve/ratelimit.py:96-117 | An estimate above the capacity of the token bucket is granted in no reachable state, however long the caller waits. |
| RateLimitProofs.OversizedShows | src/grokbot/serve/ratelimit.py:49-53 | The concrete case: 250000 tokens a minute, burst multiplier 1.5, an estimate of 400000 is told to come back in six seconds and never granted. |
| RateLimitGc.GcExactly | src/grokbot/serve/ratelimit.py:143-153 | Over all runs whose checks each take at most `gap` of clock time, collection goes unnoticed by every budget if and only if nothing is ever granted or older_than_s is at least the smaller of fill + gap and max(fill, gap) + slack, where fill is 60 times the burst multiplier and slack is the time the largest single grant takes to come back. |
| RateLimitGc.ThresholdIs | src/grokbot/serve/ratelimit.py:143-153 | For a gap of at most that slack the bound is 60 times the burst multiplier plus the gap; with no gap, 60 times the burst multiplier. |
| RateLimitGc.HalfMinuteShows | src/grokbot/serve/ratelimit.py:143-153 | The concrete case: burst multiplier 1 and 30 seconds. |
| RateLimitGc.SlowClockShows | src/grokbot/serve/ratelimit.py:82-153 | The concrete case with a gap: one request a minute, half a second between sighting and consumption, keys idle for exactly 60 seconds. |
| RateLimit.RateLimiter.Check | src/grokbot/serve/ratelimit.py:96-117 | What a check grants any key is paid out of its budget and refill, the limiter stays in order, and a refused check changes nobody's budget. |
| RateLimit.RateLimiter.Gc | src/grokbot/serve/ratelimit.py:143-153 | Drops exactly the stale keys, returns their number, and creates no budget when it spares recent keys. |
| MoeProofs.TokenGetsBest | src/grokbot/model/moe.py:117-135 | A token gets distinct experts below capacity, as many as asked for unless all others are full, and none while a better one with room is left. |
| MoeProofs.LoadsKeep | src/grokbot/model/moe.py:102-154 | Each expert's load is the number of tokens it was given and within capacity; loads add up to all assignments. |
| MoeWeights.RoutedWell | src/grokbot/model/moe.py:102-154 | Every token of the batch, in batch order, gets distinct experts in order of preference, each given to fewer than the capacity of the tokens before it, never passing over a better one with room, and short only when all others are full. |
| MoeWeights.RoutedWeights | src/grokbot/model/moe.py:132-149 | Every token's weights are those of its own experts: normalised, they sum to 1 and go as exp of the experts' logits; otherwise each is exp of its expert's logit over the sum for the row. |
| MoeWeights.CapacityIsLeast | src/grokbot/model/moe.py:94-100 | The capacity is the least whole number, at least 1, that times the experts reaches tokens · k · factor; under policy "none" the batch size. |
| MoeProofs.WeightsSumToOne | src/grokbot/model/moe.py:144-146 | Normalised weights of a token with any expert are positive and sum to 1. |
| MoeProofs.DroppedAre | src/grokbot/model/moe.py:137-142 | A token is listed as dropped exactly when it got fewer experts than asked for. |
| MoeDrops.RouteDropsExactly | src/grokbot/model/moe.py:94-160 | No batch of n tokens drops any, whatever its logits, if and only if n is 0, capacity exceeds n − 1, or capacity times (experts − k + 1) exceeds k times (n − 1); otherwise a batch that crowds the same experts drops its last token. |
| MoeDrops.RouteDropsNothing | src/grokbot/model/moe.py:94-160 | In particular under policy "none", and when capacity times (experts − k + 1) is at least tokens times k. |
| Moe.Router.Route | src/grokbot/model/moe.py:102-160 | The nested loops compute the model's decision, with every token's weights belonging to its own experts, and add it to the running load; a row of the wrong length raises and leaves the router alone. |
| TradingRuns.BooksBalance | src/grokbot/experimental/investor.py:446-465 | In every run cash plus cost basis equals starting cash plus realised gains minus commissions, holdings are never negative, the journal tells the fills, and no proposal fills twice. |
| TradingBook.AppliedKeeps | src/grokbot/experimental/investor.py:446-465 | One fill moves cash, cost and realised gains by matching amounts, changes one holding by its quantity, and is refused exactly when it sells more than is held. |
| TradingRules.MovedTo | src/grokbot/experimental/investor.py:446-465 | A buy averages its price in and realises nothing; a sale realises price minus average on what is sold and keeps the average; more than is held (to 1e-9) cannot be sold. |
| TradingRules.PlacedFills | src/grokbot/experimental/investor.py:664-686 | A fill is the whole order at ask or bid slipped against the trader, refused exactly when that crosses the limit, with the rate on what changes hands as commission, at least the minimum. |
| TradingRules.RoundsToLots | src/grokbot/experimental/investor.py:157-162 | Quantities round down to the most whole lots, a billionth of a lot forgiven, the sign kept. |
| TradingRules.EquityIs | src/grokbot/experimental/investor.py:467-482 | An account that holds nothing is worth its cash, and changing one position changes equity and exposure by what that position is worth. |
| TradingRules.ReasonsAre | src/grokbot/experimental/investor.py:546-627 | The risk check lists a reason if and only if that reason speaks against the order, each of the fourteen by its own condition. |
| TradingRules.ApproveAnswers | src/grokbot/experimental/investor.py:906-939 | An approval answers with the first obstacle in its way: unknown id, advisory session, status, exactly the reasons that speak against it now, an unmarketable price, too little held; and fills if and only if there is none. |
| TradingRules.ProposeRegisters | src/grokbot/experimental/investor.py:854-904 | Short of autonomy "auto", a proposal with a rationale and a known symbol is registered in whole lots with exactly the reasons that speak against it, refused if there are any, and moves nothing else. |
| TradingRuns.ApproveKeeps | src/grokbot/experimental/investor.py:906-939 | An approval either fills one pending proposal for good, with the switch on and the daily count below the cap, or moves no money and writes nothing down. |
| TradingLimits.CashStaysNonnegative | src/grokbot/experimental/investor.py:600-686 | In every run cash stays at or above zero when max_position_weight times (slippage + commission + their product) is at most min_cash_buffer, with leverage and shorting off and no minimum commission. |
| TradingLimits.HaltHolds | src/grokbot/experimental/investor.py:953-961 | From a halt on nothing fills and no money moves in any run without a resume. |
| TradingRules.ResumeLifts | src/grokbot/experimental/investor.py:953-961 | Halting adds just the halt to the reasons against an order, and resuming takes just that back. |
| TradingRules.RejectedIsRefused | src/grokbot/experimental/investor.py:941-948 | A rejected proposal can never be approved, whatever it was before, and the rejection moves nothing else. |
| TradingRules.TradesOnlyAllowed | src/grokbot/experimental/investor.py:771-939 | Over every run of a session only symbols of its allowlist are traded, or those it was opened with when that is empty. |
| TradingDaily.ApproveCountsExactly | src/grokbot/experimental/investor.py:906-939 | A fill leaves the day's count right if and only if the session had already been marked for that day. |
| TradingDaily.DailyFills | src/grokbot/experimental/investor.py:835-939 | Per day of every run: at most the cap of punctual fills, and one more exactly when the first fill of the day was checked on an earlier day; so a day exceeds the cap if and only if its first fill was late and the punctual ones alone reach the cap. |
| TradingDaily.DailyCapSlips | src/grokbot/experimental/investor.py:906-939 | The concrete case: two fills on one day under a cap of one. |
| Trading.TradingSession.Approve | src/grokbot/experimental/investor.py:906-939 | The method keeps the books balanced and solvent, moves nothing while halted, and fills exactly one proposal or nothing. |
| Trading.TradingSession.Propose | src/grokbot/experimental/investor.py:854-904 | Likewise, with approval at once under autonomy "auto". |

## Findings

Properties the code does not have as its documentation or a caller would expect, each with an input and the exact condition.

- **The daily order cap can slip by one.** `approve` compares the count before it marks the session, so on a new day it
  uses yesterday's count and the mark that follows resets it. Input: cap 1, two buys proposed on day 0 under "confirm", both
  approved on day 1 (`TradingDaily.DailyCapSlips`). Exact condition per day: `TradingDaily.DailyFills`.
- **Forking onto a live id leaks its blocks.** Input: allocate "a" with one token, fork "a" onto "a"
  (`BlockPoolRuns.ForkOntoLive`). Exact condition: the child's id names no table that holds blocks
  (`BlockPoolFork.ForkKeeps`).
- **A negative watermark lets `can_allocate` accept what cannot be allocated**, and the failing loop leaves blocks pinned.
  Input: an empty pool and a prompt one token longer than it holds (`BlockPoolRuns.Overpromised`). Exact condition: the
  reserve, cut toward zero, is not negative (`BlockPoolRuns.AdmissionExactly`).
- **A step can serve a request twice.** A request that a pass admits, preempts and admits again stands twice in the batch;
  the engine prefills and serves it twice, so it may get several tokens in one step. Input: a pool of two blocks of four
  tokens, prompts of one and five tokens, six tokens a step (`SchedulerWitness.ServedTwiceShows`). Exact condition:
  `SchedulerRepeats.RepeatsExactly`.
- **A stop string inside another makes the output depend on chunking.** Input: stops "abc" and "b", text "abc" whole or cut
  after "ab" (`StopProofs.NestedStopShows`). Exact condition: `StopProofs.CutIndependence`.
- **Greedy speculation tests raw logits while the sampler uses adjusted ones.** Input: logits 1 and 0, bias 2 on the second,
  draft 0 (`SpeculativeGreedy.BiasShows`). Exact condition: `SpeculativeGreedy.GreedyExactly`.
- **Typical acceptance is not exact when the draft sampler truncates or penalises**, because the uncut probabilities are
  recorded. Input: recorded (3/4, 1/4), drawn from (1, 0) (`SpeculativeTypical.TruncatedDraftShows`). Exact condition:
  `SpeculativeTypical.ExactlyRecordedDrafts`.
- **Nor is it exact with the default constructor**, which seeds sampler and decoder alike
  (src/grokbot/inference/speculative.py:77-78), so that one number draws the first draft token and tests it. Input: target
  (3/4, 1/4), draft (1/2, 1/2), depth 1: the first token is 0 for every seed (`SpeculativeSeeds.OneSeedShows`); any draft
  over two or more tokens has such a target (`SpeculativeSeeds.LastNeverStarts`). Exact condition: a generator of its own,
  or a vocabulary of one token (`SpeculativeTypical.ExactlyRecordedDrafts`).
- **An early `gc` hands out fresh budgets**, and 60 times the burst multiplier is early when the clock moves between sighting
  a key and consuming. Inputs: 60 requests a minute, burst multiplier 1, keys idle for 30 seconds
  (`RateLimitGc.HalfMinuteShows`); one request a minute, half a second within a check, 60 seconds
  (`RateLimitGc.SlowClockShows`). Exact condition: `RateLimitGc.GcExactly`.
- **`retry_after` promises what never comes** for an amount above the capacity (src/grokbot/serve/ratelimit.py:49-53;
  src/grokbot/serve/api.py:166-167 checks the rate before the size). Input: 250000 tokens a minute, burst multiplier 1.5, an
  estimate of 400000 (`RateLimitProofs.OversizedShows`). Exact condition: `RateLimitProofs.RetryAfterIsExact`.
- **The note that pruning can orphan a subtree is wrong for probabilities** and right otherwise
  (src/grokbot/experimental/tree_attention.py:89-91). Exact condition: `DraftTreeProofs.OrphansExactly`.
- **The incremental decoder's lookback of 8 tokens is enough, and 7 are** (`Incremental.LookbackExactlySeven`).

## Left out

- BlockPoolAllocate.AllocateKeeps: says nothing of the blocks that an allocation accepted over a negative reserve and then failed leaves pinned; such a step is not part of a run.
- BlockPoolRuns.RunRefines: a fork onto an id that holds blocks is not part of a run, see Findings.
- SchedulerPass.AdmissionDelivers: the watermark reserves no negative number of blocks, see Findings.
- SchedulerRuns.RunsAreSafe: the watermark reserves no negative number of blocks, see Findings; submissions have fresh ids, prompts that are not empty and at least one token to generate, as the engine makes them; a request put into the scheduler without a stream assembler, which the engine never finishes, is not part of a run.
- SpeculativeStream.RoundsExact: the sampler was passed in with a generator of its own, whose numbers are independent of the decoder's; for generators seeded alike only the first token of a round that starts level is modelled.
- Incremental.StreamIsDecode: no U+FFFD in the text (the code swallows one at the end of a piece), and no special ids inside the stream.
- BpeProofs.TextRoundTrip: specials are not empty strings, ids are unique, and the merge table has at most 2^30 entries, the rank the code gives an unknown pair.
- SamplerProofs.SampleIsSafe: the configuration passes the code's own checks and the repetition penalty is positive; a zero one divides by zero.
- RateLimitProofs.RateBound: a non-negative burst multiplier and a clock that does not go back; `gap` bounds the clock's movement within one check.
- TradingRuns.BooksBalance: starts from an empty book, whole lots above the book's float tolerance, positive prices and fresh proposal ids.
- Numbers: floats are reals, so rounding is not modelled; the exponential is any positive, strictly increasing function.
- The block hash is idealised as injective in previous hash and chunk; what a block's slots hold is ghost content, since the program stores none.
- Blocks, requests and buckets are values keyed by their id inside mutable fields, so aliasing between two references to one request is not captured. Power-of-two block sizes are not demanded.
- Forward passes are functions of the token list; draws from random generators, clock readings, market data, character classes and the choices of an engine step are parameters.
- Cache `reset`, `snapshot`, `utilization` and its counters; scheduler statistics, timings and the "swap" preemption that the constructor refuses.
- Engine construction, chat templates, `stream` and `generate` as generators, `reset`, assemblers of aborted requests and benchmarks; log-probabilities, `completion` and the stripping of reasoning text.
- Lone surrogates, which a Python string may hold and UTF-8 encoding refuses.
- Rate limiter locks and threads, `validate_size` and `snapshot`; the router's `aux_loss`, `load_report`, jitter and logging.
- Depth tuning and speedup formulas of speculation; `position_ids` of a draft tree; negative parent indices in `DraftTree.add`.
- Trading reports, performance figures, rationale text (only its length), symbol normalisation, live brokers, the synthetic feed and the agent tools.
