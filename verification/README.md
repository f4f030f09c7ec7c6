# A Dafny model of the cpp-template-bf Brainfuck evaluator

`bf.cpp` runs a Brainfuck program at compile time. The program is a
`list<char...>` type. The machine is a struct type holding:

- the output and the input, as byte lists;
- a zipper tape: `tape_left`, `tape_val` and `tape_right`;
- a `type_list` stack of saved continuations.

`eval_instr` takes the head command off the program and builds the next
machine from the previous one. It then recurses on the remaining program.

Loops are not matched bracket to bracket. `[` pushes the rest of the program
(everything after it) onto the stack and carries on into it. `]` looks at the
current cell:

- on 0, it pops that continuation and falls through;
- on any other value, it jumps back to the continuation and keeps it saved.

`eval_machine` runs a program from a fresh machine and yields its output.

The model has these modules:

- `Bytes`: the byte cells and the wrapping `+` / `-`.
- `Lists`: the list helpers `head`, `tail`, `prepend`, `append`, `top`,
  `pop_type` and `push_type`.
- `Machines`: the machine and the effect of each command on it. The type of
  the saved continuation is a parameter.
- `Evaluator`: the instruction step and a fuel-bounded run. The compile-time
  recursion becomes a step budget. `EvalMachine` is the model of
  `eval_machine`. Once an evaluation has finished, a larger budget does not
  change its result.
- `Continuations`: the structural invariant of a run of a program `p`. The
  cursor is a suffix of `p`. Every saved continuation is the part of `p` after
  one of its `[`.
- `Indexed`: a reference machine for the control flow. Its cursor is a
  position in the program, and each saved continuation is the position after
  a `[`. It shares the tape operations of `Machines` with the evaluator, so
  only the representation of the cursor and of the saved continuations is
  independent. The suffix-based evaluator is proved to be this machine, seen
  through the map from positions to suffixes.
- `Loops`: how runs compose. A bracket-free stretch runs straight through. A
  loop over a bracket-free body runs its body until the cell reaches 0. The
  counting loops `[<+…+>-]` and `[>+…+<-]` add the counter times the step to a
  neighbour cell. A counter of 0 is no exception: the body runs, the counter
  wraps round to 255, and the loop makes 256 passes.
- `Examples`: small programs, worked end to end.
- `HelloWorld`: the program of `bf.cpp:232`. It is proved to evaluate to
  "Hello World!" for every input, given at least 1694 steps.

### Where the code departs from the conventional description

The model follows the code in each of these places. Here "prints" means the
output list the evaluation yields, not what `main` writes to the terminal (see
"Left out").

- `[` never tests the cell. `[.]` therefore prints one 0 byte
  (`Examples.BodyRunsOnce`); conventional Brainfuck prints nothing.
- A program that ends inside an open loop simply halts (`Examples.LoneOpen`).
  There is no check for unbalanced brackets.
- `]` on an empty stack has no step (`Examples.LoneClose`). This holds in
  both value branches. `std::conditional_t` takes `top<stack>::type` and
  `pop_type<stack>::type` as template arguments, so both are instantiated
  whatever the cell holds. Neither has a specialization for an empty
  `type_list`.
- `,` reads the first input byte, or 0 on empty input, and never consumes it
  (`Examples.ReadTwice`).
- A character outside the eight commands has no matching specialization, so
  there is no step (`Examples.NotACommand`).

## Model

| member | source | states |
|---|---|---|
| Bytes.Inc | bf.cpp:139-146 | `+` gives the successor of a byte, and 255 wraps round to 0 |
| Bytes.Dec | bf.cpp:148-155 | `-` (add 255, reduce modulo 256) gives the predecessor, and 0 wraps round to 255 |
| Bytes.IncDecInverse | bf.cpp:139-155 | `+` and `-` undo each other on every byte, in both orders |
| Lists.Head | bf.cpp:53-61 | `head` of a list; the head of the empty list is 0 (bf.cpp:58-61), which is what `Machines.MoveRight` finds in a fresh cell past the stored tape and `Machines.ReadInput` reads at the end of the input; `Lists.Prepend` states that it reads back a prepended byte, and `Lists.Tail` that a non-empty list is its head followed by its tail |
| Lists.Tail | bf.cpp:63-71 | a non-empty list is its head followed by its tail; the tail of the empty list is empty |
| Lists.Prepend | bf.cpp:38-41 | prepending adds one byte, which `head` reads back and `tail` removes again |
| Lists.Append | bf.cpp:43-46 | appending keeps the old list as a prefix and puts the new byte last |
| Lists.Pop | bf.cpp:87-90 | popping removes exactly the first entry and shifts the rest down by one |
| Lists.Top | bf.cpp:92-95 | `top` of a non-empty stack; it carries no contract of its own: `Lists.Push` states that a pushed entry is the new top, and `Lists.PushTopPop` that a stack is its top pushed onto its pop |
| Lists.Push | bf.cpp:82-85 | a pushed entry becomes the top, and popping gives back the old stack |
| Lists.PushTopPop | bf.cpp:82-95 | a non-empty stack is its top pushed onto its pop |
| Machines.Initial | bf.cpp:216-226 | the fresh machine has the given input, no output, an empty stack and a tape that is 0 everywhere |
| Machines.MoveRight | bf.cpp:117-126 | `>` shifts the whole infinite tape by one cell, so the cell at offset i+1 is now at offset i; the old cell is the nearest left cell; output, input and stack are kept |
| Machines.MoveLeft | bf.cpp:128-137 | `<` is the mirror image: the cell at offset i-1 is now at offset i; the old cell is the nearest right cell; output, input and stack are kept |
| Machines.Increment | bf.cpp:139-146 | `+` changes only the current cell, to its wrapped successor |
| Machines.Decrement | bf.cpp:148-155 | `-` changes only the current cell, to its wrapped predecessor |
| Machines.Emit | bf.cpp:157-164 | `.` puts the current cell at the end of the output and changes nothing else |
| Machines.ReadInput | bf.cpp:166-173 | `,` sets the current cell to the first input byte, or to 0 on empty input; the input and the rest of the tape are kept |
| Machines.Enter | bf.cpp:175-182 | `[` puts the continuation on top of the stack, and popping gives back the old stack |
| Machines.Leave | bf.cpp:184-193 | `]` on a zero cell drops exactly the top continuation: putting it back restores the machine |
| Machines.MoveRightLeft | bf.cpp:117-137 | `>` then `<` restores every cell of the tape; the stored right side only gains a 0 when it was empty |
| Machines.MoveLeftRight | bf.cpp:117-137 | `<` then `>` restores every cell of the tape; the stored left side only gains a 0 when it was empty |
| Machines.IncrementDecrement | bf.cpp:139-155 | `+` and `-` undo each other on the whole machine |
| Evaluator.Step | bf.cpp:109-193 | exactly the empty program halts; a step is missing exactly for a non-command or for `]` on an empty stack |
| Evaluator.StepFault | bf.cpp:109-193 | a missing step names its cause: the unknown character, or the empty stack under `]` |
| Evaluator.StepCursor | bf.cpp:117-182 | every command but `]` continues with the rest of the program, and no step consumes input |
| Evaluator.StepOutput | bf.cpp:157-164 | only `.` changes the output, and it appends the current cell |
| Evaluator.StepStack | bf.cpp:175-193 | only `[` and `]` change the stack: `[` deepens it by one, and `]` shortens it by one exactly when the cell is 0 |
| Evaluator.StepOpen | bf.cpp:175-182 | `[` saves the rest of the program and continues into it, whatever the current cell holds |
| Evaluator.StepClose | bf.cpp:184-193 | `]` on 0 pops and falls through; on non-zero it jumps to the top continuation and keeps it saved |
| Evaluator.Run | bf.cpp:109-193 | the recursion `eval_instr<next code, next machine>::type` of every command (lines 125, 136, 145, 154, 163, 172, 181, 192), cut off by a step budget; its contract is stated by `Evaluator.RunHere` (the base case: a run in front of the empty program halts with the machine it was given, bf.cpp:112-115), `Evaluator.RunStops`, `Evaluator.RunNext` and `Evaluator.RunMoreFuel` |
| Evaluator.RunStops | bf.cpp:109-193 | a run halts only at the empty program (bf.cpp:112-115), fails only at an instruction with no step; it runs out of fuel only in front of an instruction that has one |
| Evaluator.RunHere | bf.cpp:112-115 | a run with no step to take, or no budget left, stops at the code and machine it was given; in front of the empty program it halts |
| Evaluator.RunNext | bf.cpp:117-193 | with budget left, a run takes the step in front of it and continues from there |
| Evaluator.RunMoreFuel | bf.cpp:109-193 | a run that halted or failed ends the same way with any larger budget |
| Evaluator.EvalMachine | bf.cpp:228-229 | `eval_machine` from the fresh machine: an output only when the run reached the end of the program, and then its output list; a fault only where the next instruction has no step, and the fault named is that step's; unfinished only in front of an instruction that has a step |
| Evaluator.EvalMoreFuel | bf.cpp:228-229 | an evaluation that finished, with an output or with a missing step, gives the same result under any larger budget, so the result does not depend on the budget chosen |
| Continuations.RunResumable | bf.cpp:175-193 | during a run of `p`, the cursor stays a suffix of `p` and every saved continuation follows a `[` of `p` |
| Continuations.EvalResumable | bf.cpp:228-229 | evaluating `p` from the fresh machine reaches only such states |
| Indexed.SavedPush | bf.cpp:175-182 | opening a loop pushes a saved position whose picture is the suffix the suffix-based machine pushes |
| Indexed.SavedPop | bf.cpp:184-193 | closing a loop pops the newest saved position, and so the newest saved suffix |
| Indexed.StepSimulates | bf.cpp:109-193 | one step on a suffix of the program is one step of the position-based reference machine |
| Indexed.RunSimulates | bf.cpp:109-193 | whole runs of the two machines agree, for every budget |
| Indexed.EvalSimulates | bf.cpp:228-229 | evaluating a program gives the same outcome in both representations |
| Indexed.ResumableHasPositions | bf.cpp:175-193 | every state satisfying the suffix invariant is the picture of a position-based state |
| Loops.RunStraight | bf.cpp:117-173 | a bracket-free stretch runs through in one instruction per command, leaving its combined effect on the machine |
| Loops.ApplyIncrements | bf.cpp:139-146 | n times `+` adds n to the cell, modulo 256 |
| Loops.ApplyDecrements | bf.cpp:148-155 | n times `-` subtracts n from the cell, modulo 256 |
| Loops.LoopPasses | bf.cpp:184-193 | inside a loop, `]` jumps back after every pass until a pass leaves 0, then drops the saved continuation and falls through |
| Loops.Loop | bf.cpp:175-193 | a loop over a straight body enters without a test and runs the body n times, in 1 + n(len+1) instructions, leaving the stack as it was |
| Loops.Count | bf.cpp:148-155 | the passes of a counting loop lie between 1 and 256 and agree with the counter modulo 256: a counter of 0 wraps round on the first `-` |
| Loops.CountdownLeft | bf.cpp:128-155 | the body `<+…+>-` stops after exactly `Count(counter)` passes, adding that many times the step to the left cell; a counter of 0 gives 256 passes |
| Loops.CountdownRight | bf.cpp:117-155 | the body `>+…+<-` does the same towards the right cell |
| Loops.TransferLeft | bf.cpp:128-193 | `[<+…+>-]` on any counter adds `Count(counter)` times the step to the left cell modulo 256 and zeroes the counter, in 1 + Count(counter)(k+4) instructions |
| Loops.TransferRight | bf.cpp:117-193 | `[>+…+<-]` is the mirror image, adding to the right cell |
| Loops.TransferLeftZero | bf.cpp:175-193 | on a zero counter, `[<+…+>-]` still runs: it makes 256 passes, takes 1 + 256(k+4) instructions, and leaves the left cell as it was |
| Examples.EmptyProgram | bf.cpp:112-115 | the empty program halts at once with no output and leaves the fresh machine unchanged |
| Examples.ReadTwice | bf.cpp:166-173 | `,.,.` on input 65, 66 prints 65 twice, because `,` never consumes |
| Examples.BodyRunsOnce | bf.cpp:175-193 | `[.]` on a fresh machine prints one 0 byte, because `[` does not test the cell |
| Examples.LoneClose | bf.cpp:184-193 | `]` with nothing saved has no step |
| Examples.NotACommand | bf.cpp:109-110 | a character outside the eight commands has no step |
| Examples.LoneOpen | bf.cpp:175-182 | a program ending inside an open loop halts with the output so far |
| Examples.EightTimesEight | bf.cpp:175-193 | `++++++++[>++++++++<-]>.` prints the single byte 64 within 107 steps |
| HelloWorld.LetterRuns | bf.cpp:232 | one letter of the program prints its byte and leaves the tape ready for the next letter |
| HelloWorld.LettersRun | bf.cpp:232 | a row of letters runs to the end and halts, printing each letter's byte in turn |
| HelloWorld.HelloWorldOutput | bf.cpp:232-233 | the program evaluates to "Hello World!" for every input, given 1694 steps |

## Left out

- `main`, `print` and `make_str` (`bf.cpp:196-208`, `235-240`): they turn the
  output list into text and write it with `printf`, which is I/O. This stage
  is not faithful to the output list. `make_str` adds a NUL terminator
  (line 201), and `printf("%s\n")` (line 207) stops at the first 0 byte. An
  output that contains a 0 is therefore written cut short. For example, the
  output `[0]` of `[.]` is written as an empty line. The model's results are
  the output lists.
- The `_list` literal operator (`bf.cpp:210-214`): it turns text into a
  `list<char...>`. Programs are written as Dafny strings instead.
- `cmp` and `concat` (`bf.cpp:29-30`, `48-51`, `97-107`): the evaluator never
  uses them.
- Cells are unsigned bytes 0..255. The source stores them as `char`, which is
  signed on common targets. `+` narrows its result back into `char` on the
  byte 127. `-` computes `(v + 255) % 256` as an `int`, and narrows it on the
  byte 0 and on every byte above 128, that is on the negative cells other than
  -128. The bit pattern, and so the printed byte, is the same as modulo 256.
  The signed view of a cell is not modelled.
- The compiler's template instantiation depth limit is replaced by the `fuel`
  step budget of `Evaluator.Run`. A run that would exceed the compiler's limit
  is not distinguished from one that finishes. A program that never halts
  gives `Unfinished` for every budget, where the compiler would reject it.
  Each instruction nests one more instantiation of `eval_instr`. The
  hello-world run takes 1694 instructions, which is above the default depth
  limits of common compilers (900 for GCC, 1024 for Clang). So
  `HelloWorld.HelloWorldOutput` describes the evaluator's semantics. It is
  not evidence that `bf.cpp` compiles with default flags.
- A missing step stands for a compile error. The source has no run-time
  fault values: a `]` on an empty stack or a character outside the eight
  commands leaves the template without a definition.
