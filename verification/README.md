# Verified models of the AHIR example designs

The repository holds a C-to-hardware flow and the designs it is exercised with: small systems of threads joined by
pipes, and numeric kernels. This project models those designs in Dafny and proves what they are meant to do. A thread
is a state machine, or an imperative method on the shared arrays, that takes one pipe access, memory access or loop pass
at a time; a schedule is any sequence of thread names, and a blocked thread does nothing. Statements about schedules
hold for every schedule, so for every interleaving.

Every concurrent design comes in layers: the state machine (`Pipeline`, `Farm`, `Correlator`, `Handshake`), the
invariant that each step keeps (`PipelineProof`, `FarmProof`, `CorrelatorProof`, in `Handshake` itself), the theorems
(`...Theorems`, `FarmProgress`, `CorrelatorTermination`, and with `Fairness` the liveness under fair schedules), and a
class whose methods do on real fields and arrays what the state machine says (`PipelinedCpu`, `FarmProgram`,
`CorrelatorProgram`, `HandshakeProgram`). The numeric designs have specification functions, lemmas about those, and
methods on arrays proved equal to them.

- **Pipelined processor.** fetch, decode and execute over pipes of any depths of at least 1, against the processor that
  executes one instruction at a time. The side conditions are the predicate `Isa.Tame`: register 0 is 0 and never a
  destination, register 15 is never an operand, and no store changes a word that is executed later in the same
  straight-line stretch (it may have been fetched already). The theorems ask for the last only as far ahead as fetch can
  get with the given pipe depths (`Isa.TameWithin`, `Pipeline.Window`). Memory has all 2^16 words and addresses wrap, also for the
  jump's `mem[pc + 1]`; the reference starts at the same address with the same registers. `InstructionSet` states what each
  instruction of the reference does in plain arithmetic.
- **Matrix-multiply farm.** Manager, input, four workers and output share ten job slots through a linked free list.
  Entries are naturals, as `ret_val` is an unsigned integer; a float's fraction, rounding and overflow at 2^32 are not
  modelled. The code multiplies rows of a with rows of b, which its own testbench expects only for symmetric data; the
  model follows the code.
- **LINPACK.** dgefa and dgesl (job 0) at unit stride on a column-major array with any leading dimension. Reals and
  division are exact. The shipped 10 by 10 data are modelled too, so the program's result is known. The documentation's
  promise that info is 0 only for a matrix that can be solved fails for a zero first column; the exact condition is
  proved.
- **Random numbers.** The software divider for any width, and the generator of 256 streams on it. Signed negation is
  that of two's complement, also for the least value.
- **Correlator.** Master, four workers, the lock token and the completion counter, for the first problem.
- **Fourier transform.** The bit-reversal loop, the butterfly loops and the whole transform; sines are parameters, and
  the result is the exact transform when they are those of roots of unity.
- **Division by Newton's iteration.** The two `divide` functions and `fpdiv64`, in exact arithmetic.
- **Flags.** The ring of three handshakes from arbitrary signal levels, start-up included.
- **CFD kernels.** The forwarding kernel with uninterpreted operations, and over reals; the chunked kernel over reals.
  Both are compared with the product by the dense matrix in `SparseMatrix`.
- **Euclid's algorithm** on its divider, and the **pipe buffer** itself in its three modes.

Pipes of the farm and of the correlator are unbounded: a run with bounded pipes is one in which a blocked thread is not
scheduled, so what holds for all schedules holds there too. That a run can go on is proved with steps that write only to
empty pipes, so it holds for pipes of depth 1 as well.

## Model

| member | source | states |
|---|---|---|
| PipelineTheorems.OutputIsSequential | examples/optimized_processor/testbench/processor.c:63-250 | in every interleaving of the threads and for all pipe depths, what has been written to out_port is what the sequential processor writes in some number of instructions before its halt, and memory is then the same too |
| PipelineTheorems.OutputIsPrefix | examples/optimized_processor/testbench/processor.c:63-250 | on a program that halts, the output is always a prefix of the whole sequential output |
| PipelineTheorems.OutputCanBeCompleted | examples/optimized_processor/testbench/processor.c:63-250 | from every reachable state some continuation writes all that the sequential processor writes in k instructions, for every k, if all depths are at least 1 |
| PipelineTheorems.EveryRunWrites | examples/optimized_processor/testbench/processor.c:63-250 | every schedule with more than Limit(k, depths) steps that are not blocked has written all that the sequential processor writes in k instructions |
| PipelineTheorems.EveryRunEnds | examples/optimized_processor/testbench/processor.c:63-250 | on a program that halts within k instructions no schedule has more than Limit(k, depths) such steps |
| PipelineTheorems.StuckHasHalted | examples/optimized_processor/testbench/processor.c:63-250 | a state in which nothing can move any more, but for the reader of the halt pipe, has the whole output of a program that has halted, and a single 1 announces it |
| PipelineTheorems.HaltIsAnnounced | examples/optimized_processor/testbench/processor.c:131-139 | in every interleaving what was written to processor_to_env_halt is nothing, and then the halt has not been executed, or a single 1, and then it has and the output is complete |
| PipelineTheorems.EveryRunAnnounces | examples/optimized_processor/testbench/processor.c:131-139 | on a program that halts within k + 1 instructions, every schedule with more than Limit(k, depths) steps that are not blocked has written the 1 and the whole output |
| PipelineTheorems.SomeoneMoves | examples/optimized_processor/testbench/processor.c:63-250 | until the halt some thread, or the reader of out_port, is not blocked |
| PipelineTheorems.ControlTokenIsUnique | examples/optimized_processor/testbench/processor.c:79-103 | for the number of instructions executed so far: one control token (in next_pc, in fetch, in ir_pipe or undecided in decode, or a control instruction not yet executed) until the halt and none after it, which is also exactly when all threads are at rest with empty pipes |
| PipelineTheorems.InvOfRun | examples/optimized_processor/testbench/processor.c:63-250 | the seven operand pipes, ir_pipe, pc_to_decode and next_pc always hold stretches of the streams of the sequential run that fit together |
| PrefetchTheorems.FetchIsSequentialIffStoresSafe | examples/optimized_processor/testbench/processor.c:63-103 | for any program that keeps the register conventions: fetch reads exactly the words of the sequential run, in every interleaving and for all pipe depths, if and only if no store changes a word executed later in its straight-line stretch |
| PrefetchTheorems.FetchIsSequentialIffStoresSafeWithin | examples/optimized_processor/testbench/processor.c:63-131 | the same for given depths: exactly the stores at most the least operand depth and two instructions earlier matter |
| PrefetchTheorems.WordIsThere | examples/optimized_processor/testbench/processor.c:63-103 | if fetching is always sequential, then the word of an instruction is in memory as soon as fetch can get to it, since some interleaving reads it that early |
| OverwritingProgram.OldWordIsExecuted | examples/optimized_processor/testbench/processor.c:63-235 | a program of three words at address 0, within all side conditions but that on stores, on which the sequential processor writes nothing and some interleaving writes a 0, whatever the pipe depths |
| PipelinedCpu.Processor.FetchStep | examples/optimized_processor/testbench/processor.c:63-71 | one pipe or memory access of fetch, on the shared arrays |
| PipelinedCpu.Processor.DecodeStep | examples/optimized_processor/testbench/processor.c:79-103 | one pipe access of decode, including the early next_pc |
| PipelinedCpu.Processor.ExecStep | examples/optimized_processor/testbench/processor.c:109-131 | one operand read of execute, then the switch; the halt falls through into add |
| PipelinedCpu.Processor.Perform | examples/optimized_processor/testbench/processor.c:129-233 | the switch of execute, blocked when a pipe it writes is full; the halt writes its 1 (`HaltIsAnnounced`) and what the instructions do is stated in numbers in `InstructionSet` |
| PipelinedCpu.Processor.RunStep | examples/optimized_processor/testbench/processor.c:241-250 | one step of run, which clears the program counter register and passes on the start address |
| PipelinedCpu.Processor.Simulate | examples/optimized_processor/testbench/processor.c:63-250 | the imperative threads under any schedule do what the state machine does |
| PipelinedCpu.RunProgram | examples/optimized_processor/testbench/processor.c:63-250 | running any program within the side conditions gives an output of the sequential processor; the halt is announced at most once, with a 1, and the output is then that of the halted processor |
| SequentialCpu.Processor.FetchInstruction | examples/simple_processor/processor.c:71-75 | ir is the word at the program counter, which moves on |
| SequentialCpu.Processor.DecodeInstruction | examples/simple_processor/processor.c:83-92 | the fields of ir, and the offset less 1 as a sign-magnitude byte |
| SequentialCpu.Processor.ExecuteInstruction | examples/simple_processor/processor.c:98-146 | the switch of _execute_ on registers, memory and out_port; each case is stated in numbers in `InstructionSet` |
| InstructionSet.LoadsWord | examples/simple_processor/processor.c:118-125 | lli and then lhi load any 16-bit word, 256 times the one byte plus the other, whatever the register held |
| InstructionSet.LliSetsLow | examples/simple_processor/processor.c:118-121 | for every register, byte, memory and address: lli sets the register modulo 256, keeps it divided by 256, and changes nothing else |
| InstructionSet.LhiSetsHigh | examples/simple_processor/processor.c:122-125 | lhi sets the register divided by 256, keeps it modulo 256, and changes nothing else |
| InstructionSet.AddAdds | examples/simple_processor/processor.c:104-106 | the word 0x1abc leaves in register a the sum of registers b and c modulo 65536 and changes nothing else |
| InstructionSet.SubSubtracts | examples/simple_processor/processor.c:107-109 | the word 0x2abc leaves the difference modulo 65536 |
| InstructionSet.LwLoads | examples/simple_processor/processor.c:110-113 | the word 0x3abc leaves in register a the memory word at the sum of registers b and c modulo 65536 |
| InstructionSet.SwStores | examples/simple_processor/processor.c:114-117 | the word 0x4abc puts register a at that address and changes no other word |
| InstructionSet.MvCopies | examples/simple_processor/processor.c:126-128 | the word 0x7ab- copies register b into register a |
| InstructionSet.JmpJumps | examples/simple_processor/processor.c:129-132 | the word 0x8--- continues at the address in the next word of memory |
| InstructionSet.BrBranches | examples/simple_processor/processor.c:133-135 | the word 0x9a-- continues 0 to 127 words before or after its own address plus register a, modulo 65536 |
| InstructionSet.BrzBranches | examples/simple_processor/processor.c:136-139 | the word 0xAa-- does so without the register if register a is 0, and goes on to the next word if not |
| InstructionSet.OutWrites | examples/simple_processor/processor.c:140-142 | the word 0xEa-- appends register a to the output |
| InstructionSet.HaltStops | examples/simple_processor/processor.c:101-103 | the words below 0x1000 halt and leave registers, memory and output |
| InstructionSet.OthersDoNothing | examples/simple_processor/processor.c:143-144 | the codes 11, 12, 13 and 15 only go on to the next word |
| SequentialCpu.Processor.Run | examples/simple_processor/processor.c:153-177 | a bounded number of passes of the loop of run is that many steps of the specification |
| CountdownProgram.ProgramIsTame | examples/optimized_processor/testbench/processor.c:35 | the shipped program meets the side conditions |
| CountdownProgram.ProgramCounts | examples/simple_processor/processor.c:35 | the sequential processor writes 5, 4, 3, 2, 1, 0 and halts |
| CountdownProgram.PipelinedProgramCounts | examples/optimized_processor/testbench/processor.c:35 | the pipelined processor writes a prefix of 5, 4, 3, 2, 1, 0 in every interleaving and can always finish it |
| FarmTheorems.FarmMultiplies | examples/matrixMultiplyTooConvoluted/prog.c:38-213 | for every finished problem, whatever the order of the workers, each cell (i, j) is emitted exactly once, with the dot product of row i of a and row j of b |
| FarmTheorems.NoWrongResult | examples/matrixMultiplyTooConvoluted/prog.c:38-213 | also while a problem is being worked on, each emitted triple is right and no other is for the same cell |
| FarmTheorems.OneColumn | examples/matrixMultiplyTooConvoluted/prog.c:48-60 | what the emitted dot product is for a row of b with one nonzero entry: that entry times the one of a in the same column, so each column counts, once |
| FarmTheorems.EachSlotInOnePlace | examples/matrixMultiplyTooConvoluted/prog.c:64-104 | each of the ten slots is in exactly one place: the free chain, a pipe or one thread's hand; the chain from head ends in -1 and has no cycle |
| FarmProgress.ProblemCanBeFinished | examples/matrixMultiplyTooConvoluted/prog.c:38-213 | no deadlock: from every reachable state the threads can go on to emit all d*d results of the current problem, writing only to empty pipes |
| FarmProgress.ProblemIsComputed | examples/matrixMultiplyTooConvoluted/prog.c:38-213 | so whatever has happened, some continuation completes the current problem and takes the next |
| FarmFairness.FairProblemFinishes | examples/matrixMultiplyTooConvoluted/prog.c:38-213 | liveness: whatever has happened, if all threads have a turn in each of more rounds than the work left, all d*d results of the current problem come out; polls of the empty free list end |
| FarmFairness.PipesStayShort | examples/matrixMultiplyTooConvoluted/prog.c:64-213 | no pipe between the threads ever holds more than eleven entries |
| FarmProgress.Drain | examples/matrixMultiplyTooConvoluted/prog.c:38-104 | with the input module standing still, workers, output module and manager can finish all jobs in progress and give back all slots |
| FarmTheorems.NoSlotShared | examples/matrixMultiplyTooConvoluted/prog.c:38-213 | no two threads, whichever two, hold the same slot |
| FarmTheorems.WorkersStayInBounds | examples/matrixMultiplyTooConvoluted/prog.c:38-62 | the workers' array indices stay below 1024 |
| FreeList.Manager.Get | examples/matrixMultiplyTooConvoluted/prog.c:81-89 | takes the head of the free chain, or answers -1 when it is empty |
| FreeList.Manager.Put | examples/matrixMultiplyTooConvoluted/prog.c:90-95 | puts a slot that is not in the chain in front of it |
| FreeList.SameHeadSameChain | examples/matrixMultiplyTooConvoluted/prog.c:64-104 | head and the links determine the chain |
| FarmProgram.Program.ManagerThread | examples/matrixMultiplyTooConvoluted/prog.c:64-104 | one step of the free-queue manager on the arrays |
| FarmProgram.Program.InputThread | examples/matrixMultiplyTooConvoluted/prog.c:127-188 | one step of the input module on the arrays |
| FarmProgram.Program.WorkerThread | examples/matrixMultiplyTooConvoluted/prog.c:38-62 | one step of a worker: the unrolled loop, the loop for the rest, the store of the result |
| FarmProgram.Program.OutputThread | examples/matrixMultiplyTooConvoluted/prog.c:190-213 | one step of the output module |
| FarmProgram.Program.Run | examples/matrixMultiplyTooConvoluted/prog.c:64-213 | the imperative threads under any schedule keep the invariant, so that no index leaves an array |
| FarmProgram.RunFarm | examples/matrixMultiplyTooConvoluted/prog.c:38-213 | the program under any schedule: the results of every problem gone past hold each cell once with its product |
| EliminationTheorems.SolvesTheSystem | v1/examples/linpack/linpack.c:149-351 | if no diagonal entry left by dgefa is zero, dgesl with job 0 computes the solution of A x = b, and it is the only one, for every n |
| EliminationTheorems.RegularIffNotSingular | v1/examples/linpack/linpack.c:149-255 | a zero is left on the diagonal exactly when the matrix is singular |
| EliminationTheorems.MultipliersAreSmall | v1/examples/linpack/linpack.c:215-234 | every stored multiplier is at most 1 in absolute value |
| EliminationTheorems.SingularIffReported | v1/examples/linpack/linpack.c:182-188 | the matrix is singular exactly when info is not 0 or its first column is zero |
| EliminationTheorems.ZeroMatrixIsNotReported | v1/examples/linpack/linpack.c:207-254 | a singular matrix for which info is 0 |
| EliminationTheorems.RowSumsGiveOnes | v1/examples/linpack/linpack.c:546-574 | with row sums as right-hand side the solution of a regular matrix is all ones |
| Elimination.StepKeepsSolutions | v1/examples/linpack/linpack.c:210-251 | one step of dgefa with the same step of dgesl on the right-hand side neither loses nor gains a solution |
| Elimination.PivotIsLargest | v1/examples/linpack/linpack.c:520-531 | idamax finds the first entry of largest absolute value |
| Elimination.PivotBounds | v1/examples/linpack/linpack.c:520-531 | the same in plain inequalities: all entries lie between the pivot and its negative, and those before it strictly |
| Linpack.Idamax | v1/examples/linpack/linpack.c:490-532 | the imperative search, with its answers for n below 1 and n equal to 1 |
| Linpack.Dscal | v1/examples/linpack/linpack.c:103-127 | scales n entries and leaves the others |
| Linpack.Daxpy | v1/examples/linpack/linpack.c:381-415 | adds a multiple of one vector to another, also within one array |
| Linpack.DaxpyUnrolled | v1/examples/linpack/linpack.c:416-430 | the unrolled form has the same result for every n |
| Linpack.Dgefa | v1/examples/linpack/linpack.c:149-255 | the factorisation in place, the pivots and info; rows beyond n and entries beyond the matrix are untouched |
| Linpack.Dgesl | v1/examples/linpack/linpack.c:326-351 | forward elimination and back substitution in place |
| Linpack.Solve | v1/examples/linpack/linpack.c:571-572 | for a matrix that is not singular, A x is the old b afterwards |
| Matgen.Matgen | v1/examples/linpack/linpack.c:546-566 | the loops fill the matrix column by column from the register, and b with the row sums |
| Matgen.GeneratedIsRegular | v1/examples/linpack/linpack.c:546-566 | the 10 by 10 matrix of the register is not singular, whatever nonzero constant scales it |
| Matgen.Start | v1/examples/linpack/linpack.c:568-574 | the whole program leaves ones in b, reports 0 and returns 1 |
| Divider.DivLoop | examples/rng/divider.c:2-19 | quotient and remainder for every width and nonzero divisor, nothing lost in a shift, at most w + 1 passes of the outer loop |
| Divider.Udiv | examples/rng/divider.c:62-72 | unsigned quotient, 0 for divisor 0 |
| Divider.Urem | examples/rng/divider.c:224-233 | unsigned remainder, the dividend for divisor 0 |
| Divider.Sdiv | examples/rng/divider.c:73-102 | signed quotient, -1 for divisor 0 |
| Divider.Srem | examples/rng/divider.c:234-262 | signed remainder with the sign of the quotient, the dividend for divisor 0 |
| Divider.SignedQuotientIs | examples/rng/divider.c:73-102 | the signed quotient in plain arithmetic for each pair of signs and for divisor 0 |
| Divider.SignedRemainderIs | examples/rng/divider.c:234-262 | the signed remainder in plain arithmetic for each pair of signs and for divisor 0 |
| Divider.TruncatingDivision | examples/rng/divider.c:73-102 | for a positive divisor the signed pair is division truncating toward zero |
| Divider.SignedPairIdentity | examples/rng/divider.c:234-262 | for which divisors and dividends the signed pair satisfies the division identity: exactly when the divisor is positive, or divides the dividend and the quotient fits |
| Divider.NegativeDivisorFails | examples/rng/divider.c:254-261 | a dividend and a negative divisor for which it does not |
| Lehmer.SchrageIsExact | examples/rng/rngs.c:63-70 | for every int32 seed the result is the product modulo 2^31 - 1, positive, and no intermediate value leaves int32 |
| Lehmer.NextOf | examples/rng/rngs.c:66-69 | the state 2^31 - 1 comes only from multiples of it; otherwise the product is exact |
| Lehmer.MultiplierOrder | examples/rng/rngs.h:12-13 | 48271 is a primitive root modulo 2^31 - 1 |
| Lehmer.FullPeriod | examples/rng/rngs.c:18-22 | from any seed two states are equal exactly when 2^31 - 2 divides the calls between them |
| Lehmer.VisitsEveryValue | examples/rng/rngs.c:18-22 | in one period every value from 1 to 2^31 - 2 is returned exactly once |
| Lehmer.JumpMultiplier | examples/rng/rngs.h:16 | 22925 is 48271 to the power 8367782 |
| Lehmer.PlantedIsAhead | examples/rng/rngs.c:79-81 | the seed planted for stream j is the state after j * 8367782 calls |
| Lehmer.StreamsDoNotOverlap | examples/rng/rngs.c:79-100 | the first 8367782 states of the 256 streams are all different |
| Lehmer.CheckValue | examples/rng/rngs.h:14 | the constant CHECK is the state 10000 calls after seed 1 |
| Rngs.Generator.Initialize | examples/rng/rngs.c:48-54 | stream 0 with the seed 123456789, not yet initialised |
| Rngs.FirstNumber | examples/rng/rngs.c:48-71 | the first number after Initialize is 48271 * 123456789 modulo 2147483647 |
| Rngs.Generator.Random | examples/rng/rngs.c:56-71 | the selected seed is replaced by the next state, for every int32 seed |
| Rngs.Generator.PlantSeeds | examples/rng/rngs.c:74-101 | all 256 seeds from x, with the selected stream kept |
| Rngs.Generator.PutSeed | examples/rng/rngs.c:104-118 | the selected seed becomes x reduced by srem32 |
| Rngs.Generator.SelectStream | examples/rng/rngs.c:132-142 | selects stream i for 0 <= i < 256, and the remainder of any index by 256, planting all streams first if that has not been done; a negative index gives a negative stream |
| Rngs.StreamStart | examples/rng/rngs.c:74-101 | after PlantSeeds stream j runs j * 8367782 calls ahead of stream 0, for ever |
| Rngs.MultipleOfModulusIsNoSeed | examples/rng/rngs.c:113-118 | planting a multiple of 2^31 - 1 leaves every other stream at 2^31 - 1 for ever |
| Rngs.PlantedIffNoMultiple | examples/rng/rngs.c:74-101 | for any argument, also a negative one: the other streams get proper seeds exactly when it is no multiple of 2^31 - 1, and 2^31 - 1 otherwise |
| CorrelatorTheorems.BestIsMaximum | examples/correlator/prog.c:45-190 | whatever the interleaving, the value written to best_correlation is the maximum of -1000000 and the correlations at the offsets 0 to 7, each a sum of eight products (`EightProducts`), and best_offset attains it |
| CorrelatorTheorems.GlobalsAreFinal | examples/correlator/prog.c:113-116 | when all_done has been read the shared variables hold the result and no step changes them |
| CorrelatorTheorems.OneLock | examples/correlator/prog.c:175-186 | after initialisation one lock token exists: in the pipe or with the only worker in its critical section |
| CorrelatorTermination.EveryRunFinishes | examples/correlator/prog.c:45-190 | total correctness: a run in which each step changes something has at most 516 steps, and one that cannot be continued has written the maximum and an offset that attains it |
| CorrelatorTermination.ChangesBounded | examples/correlator/prog.c:45-190 | in every interleaving the state changes at most 516 times |
| CorrelatorTermination.SomeoneGoesOn | examples/correlator/prog.c:45-190 | until the result has been written some thread can take a step, also with pipes of depth 1 |
| CorrelatorTermination.RunCanFinish | examples/correlator/prog.c:45-190 | from every reachable state the result can be reached, with pipes of depth 1 |
| CorrelatorTheorems.SomeoneMoves | examples/correlator/prog.c:45-190 | until the result has been written some thread can take a step |
| CorrelatorTheorems.Correlate | examples/correlator/prog.c:15-34 | the unrolled loop computes the correlation, the sum over all eight terms |
| CorrelatorTheorems.EightProducts | examples/correlator/prog.c:15-34 | the correlation at offset o is a[0] b[o mod 8] + ... + a[7] b[(7 + o) mod 8], written out |
| CorrelatorProgram.Program.MasterThread | examples/correlator/prog.c:45-119 | one step of the master on the shared variables and pipes |
| CorrelatorProgram.Program.WorkerThread | examples/correlator/prog.c:137-190 | one step of a worker |
| CorrelatorProgram.Program.CriticalSection | examples/correlator/prog.c:178-186 | one step of the update of the shared variables, or of the reports after it |
| CorrelatorProgram.Program.ResultCounter | examples/correlator/prog.c:122-135 | one step of the counter |
| CorrelatorProgram.Program.Run | examples/correlator/prog.c:45-190 | the imperative threads under any schedule keep the invariant |
| CorrelatorProgram.RunCorrelator | examples/correlator/prog.c:45-190 | the program under any schedule: what it has written is the maximum and its offset, and after 516 changes of state it has written it |
| BitReversal.NextReversed | v1/examples/fft/fft.c:242-247 | the inner loop counts up in the bit-reversed number |
| BitReversal.RevTwice | v1/examples/fft/fft.c:233-248 | bit reversal is its own inverse |
| BitReversal.BitsReversed | v1/examples/fft/fft.c:233-248 | bit i of the reversed number is bit k - 1 - i of the number |
| BitReversal.ReversedTwice | v1/examples/fft/fft.c:233-248 | permuting twice restores the points |
| Fft.BitReverse | v1/examples/fft/fft.c:236-248 | the swap loop puts point p at place bitreverse(p), in place, for every number of points that is a power of two |
| Fft.ButterflyAt | v1/examples/fft/fft.c:269-275 | the assignments of the innermost loop are one butterfly |
| Fft.StageLoops | v1/examples/fft/fft.c:265-284 | the two inner loops do all butterflies of one stage, with the twiddle factors by recurrence |
| Fft.DanielsonLanczos | v1/examples/fft/fft.c:250-286 | the loop over mmax transforms the whole array |
| Fft.Transform | v1/examples/fft/fft.c:226-286 | with exact roots of unity the array ends up as the discrete Fourier transform of its old contents, also with real and imaginary parts written as sums of real numbers |
| FourierTransform.FftIsDft | v1/examples/fft/fft.c:250-286 | butterflies on the bit-reversed points evaluate their polynomial at the powers of the root |
| InverseTransform.InverseUndoes | v1/examples/fft/fft.c:226-286 | the transform with the inverse roots gives back every point times their number |
| NewtonDivision.DivideFft | v1/examples/fft/fft.c:114-150 | within relative error 10^-17 of the quotient and never above it in absolute value, with loops that end; a zero divisor gives 46.6272 times the dividend |
| NewtonDivision.DivideLinpack | v1/examples/linpack/linpack.c:60-100 | the same for linpack.c with a divisor that is not zero |
| NewtonDivision.LoopEndsIff | v1/examples/linpack/linpack.c:79-82 | the loop that doubles the divisor ends if and only if the divisor is not zero |
| NewtonDivision.FourStepsResidual | v1/examples/fft/fft.c:142-147 | four steps raise the residual to the sixteenth power |
| FloatDivision.Fpdiv64 | prebuilt_ubuntu_16.04_release/functionLibrary/src/fpu.c:98-155 | sign, zero operands, and for normal operands with a result exponent in range a relative error of at most 10^-19 |
| FloatDivision.SlicesAreFields | prebuilt_ubuntu_16.04_release/functionLibrary/src/fpu.c:33-41 | the slice macros give the fields of a binary64 word (section 3.4 of IEEE 754-2008) |
| FloatDivision.ValueOfParts | prebuilt_ubuntu_16.04_release/functionLibrary/src/fpu.c:33-41 | the value of a normal word is (-1)^s 2^(e - 1023) (1 + f / 2^52) (section 3.4 of IEEE 754-2008) |
| FloatDivision.ScaledOperands | prebuilt_ubuntu_16.04_release/functionLibrary/src/fpu.c:109-123 | moving both exponents leaves the quotient and brings the divisor into [1/2, 1) |
| HandshakeTheorems.TransfersInOrder | examples/Flags/src/prog.c:13-105 | with the completed transfers e, r and t of the three links, e >= r >= t >= e - 1 in every orderly run |
| HandshakeTheorems.InStepIffOrderly | examples/Flags/src/prog.c:15-24 | from any levels at the start, a run keeps the four-phase order exactly when no request is raised before its responder is ready |
| HandshakeTheorems.RequestsComeBack | examples/Flags/src/prog.c:26-104 | an orderly run can always go on so that any number of requests come back to the environment |
| HandshakeFairness.FairRequestsComeBack | examples/Flags/src/prog.c:13-105 | liveness: every orderly run, from any levels, in which each agent has a turn in each of more than 180 + 24 n rounds has brought n requests back to Env |
| HandshakeTheorems.SomeoneAdvances | examples/Flags/src/prog.c:26-104 | after start-up some agent's next event is always possible |
| HandshakeTheorems.MissedForEver | examples/Flags/src/prog.c:18-24 | once a request has come too early one of the links never completes a transfer |
| HandshakeTheorems.EnvCanBeTooEarly | examples/Flags/src/testbench.c:40-54 | a run in which the environment starts before Rx is ready |
| HandshakeProgram.Ring.RxThread | examples/Flags/src/prog.c:13-60 | one step of Rx on the signals |
| HandshakeProgram.Ring.TxThread | examples/Flags/src/prog.c:62-105 | one step of Tx on the signals |
| HandshakeProgram.Ring.EnvThread | examples/Flags/src/testbench.c:40-91 | one step of the environment on the signals |
| HandshakeProgram.RunRing | examples/Flags/src/prog.c:13-105 | the agents from any levels under any schedule: the completed transfers follow each other round the ring, or one link never completes any |
| ForwardingKernel.PairOfFaces | examples/CFD_Lite_Pipelined/src/MatMulVec.c:198-236 | two faces with forwarding are the two faces in turn, for every aliasing of the four indices and any two operations; `FaceAt` and `KernelIsProduct` say what faces contribute |
| ForwardingKernel.FaceAt | examples/CFD_Lite_Pipelined/src/MatMulVec.c:198-236 | one face adds lower psi[l] to cell u and upper psi[u] to cell l, both if they are the same cell, and nothing elsewhere |
| ForwardingKernel.ScaleEntries | examples/CFD_Lite_Pipelined/src/MatMulVec.c:158-180 | scales the cells up to the next multiple of four |
| ForwardingKernel.ProductStage | examples/CFD_Lite_Pipelined/src/MatMulVec.c:190-238 | applies the faces up to the next even number |
| ForwardingKernel.AMulMatVec | examples/CFD_Lite_Pipelined/src/MatMulVec.c:241-247 | both stages |
| ForwardingKernel.Reference | examples/CFD_Lite_Pipelined/src/MatMulDriver.c:65-92 | the face-by-face reference, whose cells `ReferenceIsProduct` gives |
| ForwardingKernel.ReferenceIsProduct | examples/CFD_Lite_Pipelined/src/MatMulDriver.c:65-92 | over the reals the reference leaves in each cell r the sum over c of E(r, c) psi[c], where E has diag on its diagonal, lower[f] at (u[f], l[f]) and upper[f] at (l[f], u[f]), added up over the faces |
| ForwardingKernel.KernelIsProduct | examples/CFD_Lite_Pipelined/src/MatMulVec.c:158-238 | over the reals the kernel leaves that product for the faces up to the next even number |
| ForwardingKernel.EvenFacesMatch | examples/CFD_Lite_Pipelined/src/MatMulVec.c:158-238 | for an even number of faces and any number of cells the kernel leaves the reference's values, bit for bit |
| ForwardingKernel.OddFacesTakeOneMore | examples/CFD_Lite_Pipelined/src/MatMulVec.c:193-236 | for an odd number it computes the reference with one face more |
| ForwardingKernel.OddFacesDiffer | examples/CFD_Lite_Pipelined/src/MatMulVec.c:193-236 | for every odd number of faces and any number of cells there are data, such as an earlier problem leaves in the arrays, on which cell 0 is 2 more than in the reference |
| ForwardingKernel.MatchesIffEven | examples/CFD_Lite_Pipelined/src/MatMulVec.c:158-238 | the exact condition: the kernel leaves the reference's values on all data exactly when the number of faces is even, or there are no cells |
| ForwardingKernel.ZeroFaceMatches | examples/CFD_Lite_Pipelined/src/MatMulVec.c:193-236 | an odd number matches as well when the face taken in too many changes nothing, as on a first problem, whose arrays are zero beyond the faces |
| ChunkedKernel.ChunksAddUp | examples/CFD/src/MatMulVec.c:284-426 | for two or four workers in any interleaving, the diagonal product and the temporaries add up to the sequential product |
| SparseMatrix.ProductOfOneMore | examples/CFD/src/MatMulVec.c:327-346 | the dense product grows by lower psi[l] in cell u and by upper psi[u] in cell l with each face |
| ChunkedKernel.SequentialProduct | examples/CFD/src/MatMulVec.c:463-472 | the sequential kernel leaves the dense product, the sum over c of E(r, c) psi[c], in every cell r |
| ChunkedKernel.ChunkSizes | examples/CFD/src/MatMulVec.c:284-322 | the bounds of the chunks: multiples of n / 2 or n / 4, the last chunk ending at n |
| ChunkedKernel.ParallelIsSequential | examples/CFD/src/MatMulVec.c:171-426 | the whole parallel kernel: in any interleaving of the scaling and product workers the sum of diagonal product and temporaries is in every cell r the dense product, the sum over c of E(r, c) psi[c], as in the sequential kernel |
| ChunkedKernel.ChunksPartition | examples/CFD/src/MatMulVec.c:284-322 | every index is in exactly one chunk |
| ChunkedKernel.AllScaled | examples/CFD/src/MatMulVec.c:171-211 | in every interleaving of the scaling workers all cells are scaled |
| ChunkedKernel.ScaleLoop | examples/CFD/src/MatMulVec.c:215-233 | the unrolled loop leaves diag[c] psi[c] in the cells of exactly its range |
| ChunkedKernel.ProductLoop | examples/CFD/src/MatMulVec.c:327-346 | the unrolled loop adds exactly the faces of its range, in order: each cell grows by the dense product of the faces before its end less that of those before its start |
| ChunkedKernel.SumTemporaries4 | examples/CFD/src/MatMulVec.c:395-426 | the unrolled sum of diagonal product and four temporaries |
| ChunkedKernel.SumTemporaries2 | examples/CFD/src/MatMulVec.c:395-426 | the same with two temporaries |
| ChunkedKernel.AMulMatVec | examples/CFD/src/MatMulVec.c:463-472 | the kernel without workers leaves the dense product in every cell |
| Euclid.Gcd2 | examples/gcd/src/gcd.c:7-23 | the greatest common divisor of two nonzero values, in at most 22 divisions, with both at least the Fibonacci number after their count; for a zero input whatever the result variable held |
| Euclid.GcdOfArray | examples/gcd/src/gcd.c:25-36 | the greatest common divisor of the whole array if no entry is zero; if the last is, whatever the variable held |
| Euclid.Udiv16 | examples/gcd/src/divider.c:4-50 | quotient and remainder with the special cases for 0, 1 and a small dividend |
| Euclid.Lame | examples/gcd/src/gcd.c:14-21 | n divisions need values of at least the Fibonacci numbers n + 1 and n + 2 |
| Euclid.FibonacciIsWorst | examples/gcd/src/gcd.c:14-21 | neighbouring Fibonacci numbers need that many, so the bound of 22 is reached |
| PipeBuffer.Pipe.Push | prebuilt_ubuntu_16.04_release/include/pipeHandler.h:182-194 | appends to a queue or stack that is not full, leaves a full one, overwrites a signal |
| PipeBuffer.Pipe.Pop | prebuilt_ubuntu_16.04_release/include/pipeHandler.h:130-145 | takes the oldest entry of a queue or the newest of a stack, nothing from an empty one, and reads a signal |
| PipeBuffer.Pipe.PopAndRestore | prebuilt_ubuntu_16.04_release/include/pipeHandler.h:147-168 | reads an entry but sets the write pointer to the read pointer: the pointers are those of a queue or a stack again, with the same entries, exactly when it was empty or full; a signal always |
| PipeBuffer.OnlyLooksIff | prebuilt_ubuntu_16.04_release/include/pipeHandler.h:147-168 | the exact condition, for every mode but a signal, depth and number of entries: no later pushes and pops can tell that it came before, for all pipes, if and only if the pipe is empty or full; else a push takes the place of an entry |
| PipeBuffer.SignalOnlyLooks | prebuilt_ubuntu_16.04_release/include/pipeHandler.h:147-168 | a signal is only looked at |
| PipeBuffer.SignalGivesLast | prebuilt_ubuntu_16.04_release/include/pipeHandler.h:125-194 | after any operations and a push of x, each of any number of pops from a signal gives x |
| PipeBuffer.QueueKeepsOrder | prebuilt_ubuntu_16.04_release/include/pipeHandler.h:125-194 | pushing up to its depth of values into an empty queue and popping as often gives them back in order |
| PipeBuffer.StackReversesOrder | prebuilt_ubuntu_16.04_release/include/pipeHandler.h:125-194 | an empty stack gives them back in reverse |
| PipeBuffer.RunRefines | prebuilt_ubuntu_16.04_release/include/pipeHandler.h:125-145 | any pushes and pops on a record whose pointers are in order give the values of the bounded queue or stack, wherever its bottom is |
| PipeBuffer.Pipe.constructor | v2/pipeHandler/src/pipeHandler.c:193-237 | an empty pipe, with a depth of at least 1 |
| PipeBuffer.Pipe.Run | prebuilt_ubuntu_16.04_release/include/pipeHandler.h:125-194 | any sequence of operations refines the bounded queue or the bounded stack |
| PipeBuffer.FifoConserves | prebuilt_ubuntu_16.04_release/include/pipeHandler.h:130-194 | a queue loses, duplicates and reorders nothing and is never overfull |
| PipeBuffer.LifoKeepsBelow | prebuilt_ubuntu_16.04_release/include/pipeHandler.h:130-194 | what lies below in a stack is untouched while others come and go above it |

## Left out

- The compiler, the named-FIFO, socket, simulator and thread plumbing, and the build scripts: input and output only.
- The debug, timing and printing pipes of all designs.
- PipelineTheorems.OutputIsSequential: stores into words of the same straight-line stretch are excluded, because the pipelined processor may then execute the old word (`OverwritingProgram`; `PrefetchTheorems` proves the condition exact for the words fetched); registers are not compared, because the halt case goes on into add.
- FarmFairness.FairProblemFinishes: pipes are unbounded, or hold eleven entries, which is as many as they ever get (`PipesStayShort`); with shallower ones a round in which each thread has a turn is not enough, as the output module may find the request pipe full of the input module's polls at each of its turns.
- NewtonDivision.DivideLinpack: no result for a zero divisor, for which the loop does not end (`LoopEndsIff`).
- FarmTheorems.FarmMultiplies: does not model float entries or the wrap of 32-bit sums; the environment sends the next problem after it has read all results of the last.
- CorrelatorTheorems.BestIsMaximum: second problems, for which the workers never return to their start; the sum is over exact reals.
- Fft.Transform: the sine table and its interpolation, which only approximate roots of unity.
- FloatDivision.Fpdiv64: denormal operands and exponents out of range give no promise; rounding is not modelled.
- Fft.DanielsonLanczos: the same, its sines being parameters.
- HandshakeProgram.Ring.EnvThread: the testbench stops after 100 passes; the model's environment goes on, and a run that stops is one in which it is not scheduled any more.
- Rngs.Generator.SelectStream: the functions that use the seed of a negative stream, which lies outside the array.
- Matgen.Matgen: the quotient by 4294967295 is exact, not that of `divide`; GeneratedIsRegular holds for any scale.
- dgesl with job different from 0, whose last loop never reaches row 0, and ddot.
- fpsqrt64, the start-up order of examples/CFD across problems, and the remaining examples.
