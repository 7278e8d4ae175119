# A model of the SUBLEQ translator and what it rests on

The kernel runs SUBLEQ programs by interpreting them or by translating runs
of instructions into blocks of x86-64 code (`kernel/src/jit.c`). This project
models the translator, the code cache around it, the protocol between CPUs,
the bulk copy of words, the interpreter in assembly, the block copies, the
page allocator and the page-table mapper, and proves that the fast forms do
what the plain ones do.

How the files build on each other:

* `Words`, `Bits`, `Memory`, `Splice`: 64-bit words with their wrap-around and
  flags, shifts and masks defined bit by bit, byte memory with big-endian words
  at any address, and the reference machine `Subleq.Step`. `Interp` is the
  interpreter with its registers and byte swaps.
* `X86`, `RegCache`, `Operands`, `Insn`, `Blocks`: the operations the compiler
  emits and what running them does, the register cache with its held-back
  store, and the compiler itself, function by function.
* `CacheProofs`, `OperandProofs`, `InsnProofs`, `ResultProofs`, `InsnCorrect`,
  `OwnC`, `OwnExact`, `BlockProofs`, `RunProofs`: a simulation. The code emitted so far,
  run on machine `m0`, has come to machine `m`; the interpreter's memory is
  `R`; cache entries stand for words of `R`, and memory is `R` but for the store
  held back. Every helper keeps this, one instruction keeps it, and so a block
  run from its entry is some number of the interpreter's steps.
* `CacheClass`, `Compiler`: the same cache and compiler as the code runs them,
  a class whose tables are changed in place and methods that loop over them,
  each proved to come to what the functions say.
* `StoreOrder`, `Quiets`, `LoadOrder`: the order of a block's stores and of its
  loads among them. `OneEntry`: no word ever has two cache entries.
* `Ledger`, `LedgerProofs`, `LedgerOperands`, `LedgerInsn`, `LedgerSpanned`,
  `LedgerFinish`, `Enough`: when a register is found each time one is taken. A
  ledger counts free registers and lists the others in the order they would be
  taken, from the lookups of an instruction's operands and fields, the
  held-back store and MOVBE; the translator is proved to run out exactly when
  the ledger does. `Room`: without operands over two words it never does.
* `CopyLoop`, `Cells`, `CopyProofs`, `MatchCopy`, `BlockCopy`: finding the word
  copy loop, running it all at once, and copying by vector registers.
* `CopyPlaces`, `CopyTurns`, `CopyRounds`, `CopyHalts`, `CopyStage`,
  `CopyExact`: exactly when the block of a copy loop is right. The words the
  loop changes, and one more, are places that hold integers; an instruction
  takes one place from another, so that four rounds with any one field changed
  can be computed. Each field either leads out of the loop in the first round
  or leaves another word behind after the fourth.
* `Dispatcher`: one CPU's dispatcher as a class, whose `Run` is the
  interpreter's steps whatever mix of interpreting, translating, linking,
  dropping and flushing it goes through, unless the translator runs out of
  registers or a block's branch goes astray, which it reports.
* `Links`: the jumps linked between blocks as records on lists.
* `Emitter`: the bytes of each instruction emitted, and decoding them.
* `Smp`, `SmpProgress`, `Hash`: several CPUs as a state machine of small steps.
* `Pmm`, `Paging`: the page allocator and the page tables.
* `Witness`, `ShortBlock`, `NoRegister`, `ShortLoop`, `Collision`: programs and
  runs on which the code goes wrong, where the theorems make a condition.

## Findings

* An instruction that stores to its own C field can branch to the difference
  instead of to C: the result is computed in the register already taken as C
  (`kernel/src/jit.c:1281` and `1342-1343`). Exactly when can be told from the
  cache before the instruction: C is read at run time, B is known to be C's
  address and A is not, one register holds C's word and stands for nothing else,
  the branch is taken, and A is not 0 (`OwnExact.InsnExact`). Such a branch
  leaves by a stub that can be told from all others. There is a program of two
  instructions whose block leaves to -2 where the interpreter goes to 5
  (`Witness.OwnCGoesWrong`). The theorems about blocks and runs hold for all
  other own jumps too; `Dispatcher.JitCpu.Run` follows a run up to the first
  branch that goes astray, and says at which stub.
* The block of a copy loop takes the loop's fields as fixed, but not all of
  them are baked when a pointer the loop patches happens to point at another
  field of the loop at translation (`kernel/src/jit.c:1447-1451`, exactly when:
  `RunProofs.TemplateExactly`). Two things then go wrong. The bulk copy goes on
  as if that field had not changed. And when the field is the C of an
  instruction that always branches, the block ends there: with a body of fewer
  than 19 instructions the bulk copy, which takes its first round as paid for by
  the entry, takes more from the budget than there is. `ShortLoop.Overdraws` is
  a program whose block is one instruction and, entered with a budget of 58,
  makes 76 steps and leaves -18; in the code that is a budget of 2^64 - 18.
  `CopyExact.CopyExactly` is the exact condition: the block does what the
  instructions do, in every memory that holds what was baked and with every
  budget, if and only if its body is the whole loop and all fields not baked are
  C fields that are never used (`RunProofs.Harmless`). These are the C of
  instructions 16 and 17, which move S and D; the C of 4 if nothing can be
  copied from address 0, as then it branches never; and those of 11 to 13 if
  nothing can be copied to 0. Of every other field a change shows after four
  rounds: all A and B fields, and the other C fields. The theorems about runs
  ask that a copy loop that comes to be translated is harmless; it is when it
  does not point into itself (`Dispatcher.ClearHarmless`).
* The comment on `scratch` says an instruction pins at most 8 of the 11
  registers (`kernel/src/jit.c:665-666`). All may be: `Enough.InsnEnough` says
  exactly when one is missing, `ShortBlock.NoBlock` gives a program of five
  instructions whose block cannot be translated, and `NoRegister.OneSpans` shows
  that one operand over two words is enough for it, when B and C are read at
  run time. The code would index its table at -1 there; in the model the
  translation comes to nothing, and `Dispatcher.JitCpu.Run` stops with `lost`.
* A block made while another CPU stores to what it was made from is kept when
  its hash still agrees (`kernel/src/jit.c:415`). One changed field always
  changes the hash (`Hash.OneChangeTells`), any change of a field can be hidden
  by one of the next (`Hash.TwoChangesCollide`), and there is a run of two CPUs
  that ends with such a block for good (`Collision.StaleForGood`). A block is
  stale with nothing on its way exactly if that has happened to it
  (`Smp.StaleExactly`).

## Model

| member | source | states |
|---|---|---|
| Words.SubFlagsTellOrder | kernel/src/jit.c:386 | jle after the subtraction, or after testing B when A is 0, tells B <= A as signed numbers, even when the subtraction overflows |
| Splice.SplicedLoad | kernel/src/jit.c:736-745 | the two shifted halves or-ed together are the unaligned word, for every offset |
| Splice.SplicedStore | kernel/src/jit.c:1135-1161 | the two masked merges are the two words after the unaligned store, for every offset |
| CacheProofs.ScratchOk | kernel/src/jit.c:667-682 | a new register, pinned, standing for nothing; every entry and pinned register as before, and the held-back store done first if it was in that register |
| CacheProofs.FlushOk | kernel/src/jit.c:833-848 | memory becomes the interpreter's, and nothing pinned or cached changes |
| CacheProofs.ToRegOk | kernel/src/jit.c:776-789 | the value ends up in a register, a new pinned one for a negation or a constant, the flags kept while a branch needs them |
| CacheProofs.StoreRegOk | kernel/src/jit.c:792-810 | the store changes memory at the destination only, to the register's value |
| CacheProofs.StoreConstOk | kernel/src/jit.c:813-830 | the same for a constant |
| OperandProofs.SetConstOk | kernel/src/jit.c:608-618 | the word is cached as the constant, all other entries still right, whichever one was replaced |
| OperandProofs.SetAliasOk | kernel/src/jit.c:623-637 | the word stands for the register or its negation, and evicting an alias never loses the held-back word |
| OperandProofs.BindOk | kernel/src/jit.c:685-693 | the register now stands for the word, all other entries still right |
| OperandProofs.GetStaticOk | kernel/src/jit.c:723-763 | the operand at any static address, aligned or not, cached or not, is the interpreter's word |
| OperandProofs.UpdateSpannedOk | kernel/src/jit.c:1135-1161 | after an unaligned store, the cached words it spans are those the store left |
| InsnProofs.CheckStaticOk | kernel/src/jit.c:1211-1220 | either leaves before the instruction, whose store touches a marked word, or goes on with no marked word touched |
| InsnProofs.CheckDynamicOk | kernel/src/jit.c:1221-1245 | the same for a computed address: a clear page byte suffices even for a store crossing a page |
| ResultProofs.ComputeOk | kernel/src/jit.c:1288-1357 | the result is B - A in every case (constants, negations, additions), and the branch is known or in the flags |
| InsnCorrect.StoreResultOk | kernel/src/jit.c:1361-1404 | the result is stored, or held back with a dead store dropped, and the cache is right for the memory after it |
| InsnCorrect.TranslateInsnOk | kernel/src/jit.c:1165-1426 | running an instruction's code leaves before its store if that would hit translated code, leaves after it to C if the branch is taken, or goes on, with the interpreter's memory |
| OwnExact.ClobbersOnly | kernel/src/jit.c:1277-1357 | C's register is overwritten only when the cache before the instruction has C's word in a register of its own, B is known to be its address, and A is not |
| OwnExact.ClobbersThen | kernel/src/jit.c:1277-1357 | and then it is, unless A is known to be 0 |
| OwnExact.InsnExact | kernel/src/jit.c:1165-1426 | an instruction's code branches to the difference instead of to C exactly if the cache is so, the branch is taken and A is not 0; it then leaves by a stub that holds back C's register for C's word |
| Witness.OwnCGoesWrong | kernel/src/jit.c:1277-1357 | a program of two instructions whose block, run from its entry, leaves elsewhere than the interpreter goes in as many steps |
| OneEntry.TranslateInsnSingle | kernel/src/jit.c:540-861 | no step of translating an instruction gives a word two cache entries, of one kind or of two |
| OneEntry.TranslateSingle | kernel/src/jit.c:1562-1564 | so throughout a block's translation |
| OneEntry.BlockSingle | kernel/src/jit.c:1428-1645 | so in any block, after any number of its instructions, as the cache starts empty |
| Room.TranslateInsnRoom | kernel/src/jit.c:665-682 | with no operand spanning two words that may be cached, a register is found each time one is taken, and what is held back stays cached |
| Room.TranslateRoom | kernel/src/jit.c:1562-1564 | so is a whole block of such instructions translated |
| Enough.InsnEnough | kernel/src/jit.c:665-763 | an instruction finds a register each time it takes one exactly if its ledger adds up: counts over the lookups of its operands' words and dynamic fields, the held-back store and MOVBE |
| Enough.RunEnough | kernel/src/jit.c:1562-1564 | a run of instructions is not translated exactly if the ledger of one that is reached does not add up |
| Enough.BlockEnough | kernel/src/jit.c:1428-1645 | so for whole blocks, from the empty cache |
| LedgerProofs.TakeSim | kernel/src/jit.c:653-682 | the register taken next is the ledger's: an empty one, or the first in the order of last use, after the held-back store if that is in it |
| LedgerSpanned.SpannedEnough | kernel/src/jit.c:1135-1161 | renewing the two words under an unaligned store never runs out |
| ShortBlock.NoBlock | kernel/src/jit.c:667-763 | a program of five instructions without dynamic fields whose block has no translation: at the fifth all registers are pinned |
| NoRegister.OneSpans | kernel/src/jit.c:667-763 | an operand over two negated words, with B and C read at run time and negated too, is one register too much without MOVBE |
| BlockProofs.StubStoreOk | kernel/src/jit.c:865-896 | a side exit stores what was held back, and keeps the register with C |
| BlockProofs.BodyOk | kernel/src/jit.c:1562-1575 | a block's body, from any point on, leaves with the interpreter's memory after as many steps, at whichever exit; to its next instruction, but for own jumps by the stubs of InsnExact, which go to what C is then |
| RunProofs.RunBlockOk | kernel/src/jit.c:1428-1645 | a block run with any budget leaves the memory and next instruction of as many steps as it took from the budget, but for such own jumps, no marked word changed, for each cause of leaving what the dispatcher relies on; copy loops whose unbaked fields are not used included |
| StoreOrder.StoresInOrder | kernel/src/jit.c:1288-1404 | the stores a block performs are the interpreter's in order, but for those that change nothing and those another one performed to the same word follows at once |
| StoreOrder.ThinIsSubsequence | kernel/src/jit.c:1288-1404 | what is performed is a subsequence of the interpreter's stores |
| StoreOrder.ThinReplays | kernel/src/jit.c:1288-1404 | and comes to the same memory |
| LoadOrder.LoadsInOrder | kernel/src/jit.c:696-719 | at each load of an instruction, all stores before it are in memory but for dropped ones and one word at most, still to be stored, which the load does not touch |
| LoadOrder.SeenReads | kernel/src/jit.c:696-719 | so the load reads the interpreter's word |
| RunProofs.TemplateExactly | kernel/src/jit.c:1436-1459 | all fields of a copy loop that it does not patch are baked exactly if the pointers it stores through do not point at them |
| CopyExact.CopyExactly | kernel/src/jit.c:1436-1550 | a copy loop's block is right in every memory that holds what was baked, with every budget, if and only if its body is all 19 instructions and the fields not baked are C fields never used |
| CopyRounds.FourTurns | kernel/src/jit.c:940-951 | four rounds with the A field changed of instruction 0 to 4, 8, 12 or 15 to 18, or the B field of 3 to 6, 10 to 13 or 16 to 18, leave S, D, C, a word copied or the word pointed at other than a bulk copy does |
| CopyHalts.EndsTurning | kernel/src/jit.c:940-951 | with the A field changed of instruction 6, 7, 9, 10, 11 or 13, the first round stores to where the loop goes back to, and ends where the program halts |
| CopyHalts.EndsMiddle | kernel/src/jit.c:940-951 | so does one with the C field changed of instruction 6 to 10, or of 11 to 13 where D is 0, or with the B field of 7, 8 or 9 leading to the next C field |
| ShortLoop.Overdraws | kernel/src/jit.c:1436-1550 | a program whose copy loop becomes a block of one instruction, which makes 76 steps with a budget of 58 and leaves -18 |
| CacheClass.Translator.Drop | kernel/src/jit.c:552-562 | forgets the word in all three tables, nothing else |
| CacheClass.Translator.Find | kernel/src/jit.c:573-599 | the entry found is the one the lookup order says, and its register is the one used last |
| CacheClass.Translator.PutConst | kernel/src/jit.c:608-618 | the word's only entry is the constant, in the first free place or the next in turn |
| CacheClass.Translator.PutAlias | kernel/src/jit.c:623-637 | the same for a name of a register, storing what is held back of the one forgotten |
| CacheClass.Translator.ReleaseReg | kernel/src/jit.c:653-663 | what is held back in the register is stored, then nothing stands for it |
| CacheClass.Translator.TakeReg | kernel/src/jit.c:667-682 | the first free unpinned register, or the one used longest ago, pinned and released |
| CacheClass.Translator.BindReg | kernel/src/jit.c:685-693 | the register becomes the word's only entry |
| CacheClass.Translator.InRegister | kernel/src/jit.c:776-789 | the register and the operations of ToReg, by in-place changes |
| CacheClass.Translator.PutReg | kernel/src/jit.c:792-810 | stores the register as StoreReg says, for near, far and computed addresses |
| CacheClass.Translator.PutImm | kernel/src/jit.c:813-830 | stores the constant as StoreConst says |
| CacheClass.Translator.Flush | kernel/src/jit.c:833-848 | stores what is held back and holds nothing, every pin as before |
| Compiler.GetStatic | kernel/src/jit.c:723-763 | the recursion over the two words spanned comes to the function that GetStaticOk is about |
| Compiler.UpdateSpanned | kernel/src/jit.c:1135-1161 | both words after an unaligned store, as UpdateSpannedOk says |
| Compiler.CheckStore | kernel/src/jit.c:1207-1245 | the checks of either kind of store, and the exits added for them |
| Compiler.Compute | kernel/src/jit.c:1298-1357 | each case of the result, as ComputeOk says |
| Compiler.StoreResult | kernel/src/jit.c:1361-1404 | the store, held back or not, as StoreResultOk says |
| Compiler.TranslateInsn | kernel/src/jit.c:1165-1426 | one instruction's code, exits and cache, those TranslateInsnOk is about |
| Compiler.FindExtent | kernel/src/jit.c:1439-1456 | the loop over the instructions finds the extent and the words written |
| Compiler.FindHoisted | kernel/src/jit.c:1461-1476 | each word stored to through a static address, once |
| Compiler.Translate | kernel/src/jit.c:1428-1645 | the block made is the one RunBlockOk is about |
| Compiler.StubStore | kernel/src/jit.c:865-896 | the registers clobbered are the first not in use; the operations of StubStoreOk |
| Links.LinkTable.LinkTo | kernel/src/jit.c:1830-1843 | one more jump is linked, to that block, unless all records are taken; every record stays on exactly one list |
| Links.LinkTable.Invalidate | kernel/src/jit.c:288-310 | exactly the jumps linked to the block go back to their slow paths, and their records are free |
| Links.LinkTable.Flush | kernel/src/jit.c:323-333 | nothing is linked and no block is left |
| Links.LinkTable.JumpsValid | kernel/src/jit.c:288-332 | after any of these, a linked jump goes to a block still there |
| Emitter.EmitDecodes | kernel/src/jit.c:433-530 | the bytes of any call decode to the instruction meant, with its registers, displacement and immediate, and end where it ends |
| Emitter.EmitAllDecodes | kernel/src/jit.c:433-530 | calls one after another decode to their instructions in order |
| Emitter.MovImmLoads | kernel/src/jit.c:497-505 | whichever form is chosen, the register gets the constant |
| MatchCopy.Match | kernel/src/jit.c:963-1017 | the search finds the loop exactly where it is, S and D in either order, its variables distinct aligned words outside it |
| MatchCopy.FitsIsLoop | kernel/src/jit.c:940-960 | field by field matching is being the loop with all its fields static |
| CopyProofs.Iteration | kernel/src/jit.c:940-951 | 19 instructions copy one word and move S, D, and C by 8 |
| CopyProofs.CopyWordsIs | kernel/src/jit.c:1038-1042 | copying word by word, not up over the source, is copying all at once |
| CopyProofs.JitCopyOk | kernel/src/jit.c:1043-1089 | n iterations at once leave the memory of 19n instructions, unaligned or overlapping downwards too, and done tells whether C ended the loop; even with any of the C fields changed that are used only when S or D is 0, or never |
| RunProofs.CopyKeepsMarks | kernel/src/jit.c:1069-1071 | a bulk copy changes no marked word: its variables are checked on entry, its destination by pages |
| BlockCopy.Copy | kernel/src/copy.asm:19-62 | blocks of 64, 128 or 256 bytes, words, then bytes: the same as moving all n bytes at once, when not going up over the source |
| Interp.Cpu64.InterpCycle | kernel/src/subleq.asm:27-45 | one instruction of the interpreter in assembly is the reference step |
| Interp.Cpu64.SubleqInterp | kernel/src/subleq.asm:47-67 | its loop makes count steps |
| Dispatcher.JitCpu.InvalidateWord | kernel/src/jit.c:313-321 | looking up the starts in the window drops all blocks covering the word, and no others |
| Dispatcher.JitCpu.SmcHit | kernel/src/jit.c:335-354 | the word is dynamic, not static, and no block depends on it |
| Dispatcher.JitCpu.StoreCheck | kernel/src/jit.c:371-377 | neither word the store touches is static after it |
| Dispatcher.JitCpu.InterpStep | kernel/src/jit.c:380-387 | one reference step, every block still in the cache still right |
| Dispatcher.JitCpu.TranslateAt | kernel/src/jit.c:1428-1672 | the new block is right and its static fields are marked, flushing or not; there is none only outside memory, or if the ledger of one of its instructions does not add up |
| Dispatcher.JitCpu.Enter | kernel/src/jit.c:1873-1880 | through any chain of linked blocks: as many steps as were taken from the budget, or all but the last, a branch that went astray at the stub returned |
| Dispatcher.JitCpu.DropHoisted | kernel/src/jit.c:1892-1899 | after a hit on entry, more words are dynamic than before |
| Dispatcher.JitCpu.LinkTo | kernel/src/jit.c:1830-1843 | unless records have run out, the jump, which was not linked, is linked to the block its stub names, and no other changes |
| Dispatcher.JitCpu.Run | kernel/src/jit.c:1845-1915 | whole runs end with the interpreter's memory and next instruction after budget minus remaining steps, own jumps included; or with its memory at the first own jump that went astray by the stub returned. An exact run with nothing watched uses all of its budget unless that happens or the translator has run out of registers; it terminates |
| Dispatcher.ClearHarmless | kernel/src/jit.c:1436-1459 | a copy loop that does not point into itself is harmless, whatever words are dynamic when it is translated |
| Dispatcher.DropAll | kernel/src/jit.c:313-321 | no block starting before the window reaches the word |
| Smp.StepKeeps | kernel/src/jit.c:335-421 | every step of every CPU keeps the staleness invariant |
| Smp.Staleness | kernel/src/jit.c:335-421 | in every reachable state a word a valid block was translated from still has its value, or the block's CPU has yet to hear of a hit on it, or the block has yet to be checked, or two of its fields have changed and the hash has not |
| Smp.StaleExactly | kernel/src/jit.c:398-421 | of a checked block with nothing on its way, a word has its value exactly if there was no such collision |
| Collision.StaleForGood | kernel/src/jit.c:398-421 | a run of two CPUs to a valid, checked block whose words have changed, with nothing on its way |
| Smp.GracePeriod | kernel/src/jit.c:398-409 | once a CPU has come by its dispatcher after a block was stamped, it has no store checked before the block's marks that the block's CPU will not hear of |
| SmpProgress.NoDeadlock | kernel/src/jit.c:1657-1667 | the CPU inside that came by its dispatcher first can always go on, even with the ring of new blocks full |
| SmpProgress.OldestPassed | kernel/src/jit.c:1657-1667 | when that CPU waits, every CPU has come by since its oldest new block was made |
| SmpProgress.GetsRoom | kernel/src/jit.c:1657-1667 | by at most as many steps of its own as it has words and CPUs to look at, the ring has room |
| SmpProgress.OthersDoNot | kernel/src/jit.c:1657-1667 | and no step of another CPU adds to them |
| Hash.StaticHash | kernel/src/jit.c:390-396 | the loop folds the static fields in order |
| Hash.OneChangeTells | kernel/src/jit.c:390-396 | when exactly one static field has changed, so has the hash |
| Hash.TwoChangesCollide | kernel/src/jit.c:390-396 | for any change of a field there is one of the next that hides it |
| Pmm.Allocator.Scan | kernel/src/pmm.c:84-101 | the first run of free pages, or that there is none |
| Pmm.Allocator.Kmalloc | kernel/src/pmm.c:75-121 | a free run of pages, zeroed, the first from the hint on or else before it; null exactly if there is none on either side; live ranges stay apart, free and live pages add up to the same |
| Pmm.Allocator.Kmfree | kernel/src/pmm.c:131-138 | gives the pages of a live range back, everything else as before; free and live pages add up to the same |
| Pmm.Allocator.PmmFreePages | kernel/src/pmm.c:123-129 | counts the free pages |
| Pmm.MissedStraddles | kernel/src/pmm.c:84-103 | an allocation fails exactly when every free run long enough lies on both sides of the hint |
| Pmm.SetBitIs | kernel/src/pmm.c:61-73 | writing a bit of an entry changes that bit only |
| Paging.Pager.GetTable | kernel/src/paging.c:19-39 | getting or adding a table changes no translation |
| Paging.Pager.MapPage | kernel/src/paging.c:10-63 | on 0 the page translates to the frame and every other page as before; on -1 no translation has changed, and the page is in a larger one or no page is free |
| Paging.Pager.MapPage2M | kernel/src/paging.c:66-100 | on 0 all 512 pages of the region translate to the frame's, and no other translation changes; on -1 none does |
| Paging.OthersKeep | kernel/src/paging.c:10-63 | writing an entry changes only translations that go through it |

## Left out

- Emitter.EmitDecodes: says what an instruction is, not what it does; the operations that run in the proofs about blocks are an abstract sequence, and their machine code, the patching of jumps, the size of the code cache and its slack are not tied to them. A full cache is a choice made freely at each translation.
- The dispatcher keeps blocks as a map by start address and links as a map from the jump that was linked to the block it goes to; hash chains are not modelled, and the lists of links are a model of their own (`Links`).
- The bitmaps as bytes: the marked and the dynamic words are sets, the page bytes a set of pages.
- Accesses past the end of memory: memory is total, and the theorems about runs ask that operands lie inside it. With that, addresses that wrap around in the checks of `translate` and `match_copy` (an instruction or a copied variable in the last words of the address space) do not come up; the model refuses them where the code would let them through.
- Compiler.TranslateInsn: marking and hashing the fields read is not part of it; the dispatcher marks a block's words when it is translated. Its methods, and Compiler.Translate, are for translations that find their registers (`Enough.InsnEnough`); what the code does with an index of -1 is not modelled.
- Room.TranslateInsnRoom: one way only; `Enough.InsnEnough` is the exact condition.
- Compiler.Translate: as Compiler.TranslateInsn, for blocks that find their registers.
- Room.TranslateRoom: one way only; `Enough.RunEnough` is the exact condition.
- CopyExact.CopyExactly: for memories of at least 0x25000 bytes, which have room for the words copied in the runs that go wrong, wherever the loop and its variables are. That the block is right when it is harmless holds in all.
- Dispatcher.JitCpu.Run: what comes after a branch that went astray, or after a register was missing, is not followed.
- Links.LinkTable.LinkTo: asks that the jump is not linked yet, as it comes by its slow path; `Dispatcher.JitCpu.LinkTo` is called only so. The jump put over a dropped block's entry, which keeps a CPU that is on its way there out of it, is not modelled.
- StoreOrder.StoresInOrder: the stores missing because they change nothing, those with A 0, are not told apart by whether A was known to be 0 at translation.
- LoadOrder.LoadsInOrder: the body of a block; the loads of the bulk copy and of the checks of marks are not logged.
- The clock of last use, which goes on from block to block from wherever it is, does not wrap around after 2^32 uses, and budgets are below 2^63.
- Interpreting or translating next is a free choice, where the code follows the way it came (`strong`, `weak_steps`).
- Waiting for the ring of new blocks, the queue and the hash on one CPU: they belong to the model of several.
- Weak ordering of stores, interrupts, devices that write memory, profiling and statistics.
- Setting up: memory maps, feature detection, sizes.
- Interp.Cpu64.SubleqInterp: count is positive; with 0 the loop in assembly would wrap around.
- Paging.Pager.MapPage2M: asks that the page is not in a 1 GiB page, which the code does not check and would take for a table.
