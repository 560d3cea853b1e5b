# The Unbeatable Dr. Nimm and the Magnanimous Dr. Nymm — decision engine

A Dafny model of the decision core of a console Nim game. Three heaps of
stones; the players alternately remove one or more stones from one heap; who
takes the last stone wins. The human plays one of two computer opponents:

- Dr. Nimm plays perfectly. He balances the "nimm sum" (the bitwise XOR of
  all heap sizes) to zero after every move, and he starts the game unless the
  initial nimm sum is already zero.
- Dr. Nymm plays the same way, except for one deliberate mistake. It comes
  on the first computer ply on which the total left drops below a randomly
  drawn threshold.

Modules:

- `NimArith` (`nim_arith.dfy`): XOR on naturals, defined digit by digit, and
  `NimSum` over a heap list. It proves the algebra the engine needs. Its main
  lemma: a nonzero nimm sum S always leaves a heap h with `h XOR S < h`,
  namely the heap holding S's highest 1 digit.
- `HeapState` (`heap_state.dfy`): the `Move` record, legality
  (1 ≤ stones ≤ heap size), applying a move, the total `Sum`, and the first
  heap of maximum size.
- `Engine` (`engine.dfy`): `play_correctly`, `make_mistake`,
  `choose_random` and `cpu_losing`. `play_correctly`, `make_mistake` and
  `cpu_losing` are methods with the source's loops, each proved equal to a
  specification function (`CorrectMove`, `MistakeMove`, `NimSum`); the
  game-theoretic facts are lemmas about those functions. `choose_random` has
  no loop and is the function `ChooseRandom`.
- `Session` (`session.dfy`): the game itself. A class `Game` holds the heap
  array (updated in place), the player number (1 = computer, 2 = human), the
  mistake trigger (`Armed(threshold)` or `Fired`) and the opponent. Its
  methods are `cpu_turn`, `human_turn` and `player_turn`. `PlayGame` models
  `main`: it sets up the game, loops while stones are left, and names the
  winner. It proves that the loop terminates, that the winner is the side
  that took the last stone, and that Dr. Nymm errs at most once. It also proves that Dr. Nimm always wins, and that the human can
  beat Dr. Nymm only after his mistake.
- `WorkedExamples` (`examples_play.dfy`): three concrete positions worked
  through the model, and a game set up on one of them.

Randomness and human input are parameters:

- `draw` is the value `random.randint(1, max(heaps))` returns in
  `choose_random`.
- In `PlayGame`, `rand(k, hi)` is ply k's draw from `[1, hi]`.
- `human(k, heaps)` is the move the human enters on ply k. It is already
  validated by `heap_invalid` / `stones_invalid`.

## Model

| member | source | states |
|---|---|---|
| NimArith.BalancingHeapExists | unbeatable.py:105-106 | if the nimm sum S is nonzero, some heap h has h XOR S < h, so a balancing move always exists |
| NimArith.TopBitClears | unbeatable.py:128-129 | XOR with S makes smaller any number that has S's highest 1 digit set |
| NimArith.NimSumTopBit | unbeatable.py:124-126 | if the nimm sum has a digit set as its highest, some heap has that digit set |
| NimArith.NimSumUpdate | unbeatable.py:98 | replacing one heap's size changes the nimm sum by XOR with the old and the new size |
| NimArith.XorZeroIff | unbeatable.py:128 | two sizes XOR to 0 exactly when they are equal |
| HeapState.Apply | unbeatable.py:98 | a legal ply keeps the heap count, lowers the total by exactly the stones taken, and updates the nimm sum by the changed heap alone |
| HeapState.SumZero | unbeatable.py:57 | the total is 0 exactly when every heap is empty |
| HeapState.EmptyHeapsBalanced | unbeatable.py:57-59 | once no stone is left the nimm sum is 0 |
| HeapState.FirstMaxIndex | unbeatable.py:160 | the index is that of a largest heap, and no earlier heap is as large |
| HeapState.MaxHeapPositive | unbeatable.py:161 | some stone is left exactly when the largest heap is nonempty, so randint(1, size) has a value |
| Engine.CorrectAmount | unbeatable.py:128-130 | a qualifying heap's correct removal lies in 1..size and leaves the heap at size XOR S |
| Engine.FirstQualifying | unbeatable.py:127-131 | the result is the lowest qualifying index at or after i, or None when no heap from i on qualifies |
| Engine.ChooseRandom | unbeatable.py:159-162 | the move is legal, takes `draw` stones, from a heap of maximum size with every earlier heap strictly smaller |
| Engine.MistakeScan | unbeatable.py:148-155 | a found move takes correct-1 (correct > 1) or correct+1 (correct == 1 < size) from a qualifying heap; every qualifying heap skipped or left unfound has size 1 with correct removal equal to its size |
| Engine.CorrectMoveBalances | unbeatable.py:123-131 | with nonzero nimm sum the move comes from the scan, at the lowest qualifying heap, takes size - (size XOR S), is legal and leaves nimm sum 0 |
| Engine.CorrectAmountBalances | unbeatable.py:128-131 | taking the correct amount from any qualifying heap is legal and leaves nimm sum 0 |
| Engine.AnyMoveUnbalances | unbeatable.py:106-108 | every legal move from nimm sum 0 leaves it nonzero |
| Engine.CorrectMoveFromBalanced | unbeatable.py:116-119 | with nimm sum 0 no heap qualifies, play_correctly returns choose_random's move, and that move leaves the nimm sum nonzero |
| Engine.MistakeUnbalances | unbeatable.py:135-139 | a move found by make_mistake's scan is legal and leaves the nimm sum nonzero |
| Engine.MistakeIsGenuine | unbeatable.py:141-142 | from a nonzero nimm sum with some heap of 2 or more stones, make_mistake's move (scan or random fallback) leaves the nimm sum nonzero |
| Engine.ComputeNimSum | unbeatable.py:124-126 | the accumulation loop returns the XOR of all heaps |
| Engine.PlayCorrectly | unbeatable.py:123-132 | returns CorrectMove: legal, and balancing whenever the nimm sum is nonzero |
| Engine.MakeMistake | unbeatable.py:144-156 | returns MistakeMove: legal, and unbalancing whenever the scan finds a move |
| Engine.CpuLosing | unbeatable.py:239-243 | true exactly when the nimm sum is 0; otherwise a qualifying heap exists |
| Session.SwitchPlayer | unbeatable.py:77-78 | maps each of the player numbers 1, 2 to the other one |
| Session.SwitchPlayerInvolution | unbeatable.py:76-78 | switching twice gives back the player; switching changes the side |
| Session.Winner | unbeatable.py:284-290 | the winner is the side of the player not to move; the human wins exactly when it is player 1's (the computer's) turn |
| Session.ValidatorsAcceptLegalMoves | unbeatable.py:188-199 | heap_invalid and stones_invalid let through exactly the legal moves |
| Session.Game.Setup | unbeatable.py:219-227 | the heaps are the initial ones, the trigger is armed, the human starts exactly when the initial nimm sum is 0, and the position is then balanced for the computer |
| Session.Game.CpuTurn | unbeatable.py:90-99 | the mistake is made exactly when the opponent is Dr. Nymm and the armed threshold exceeds the total, and then the trigger fires; otherwise play_correctly's move is made and the trigger is kept; only the chosen heap drops, by a legal amount |
| Session.Game.HumanTurn | unbeatable.py:165-169 | the validated move is legal and only its heap drops, by the stones taken |
| Session.Game.PlayerTurn | unbeatable.py:67-74 | one ply by the player to move (computer as in CpuTurn, human as entered), then the player number switches |
| Session.PlayGame | unbeatable.py:55-59 | the loop ends; when there were stones to play, the winner is the side that made the last ply (took the last stone); at most one mistake is made; against Dr. Nimm no mistake is made and the computer wins; the human wins only against Dr. Nymm after his mistake |
| WorkedExamples.BalancedStart | unbeatable.py:239-243 | heaps 1, 2, 3 have nimm sum 0 |
| WorkedExamples.BalancedStartHumanFirst | unbeatable.py:224-226 | a game set up on heaps 1, 2, 3 has the human to move first |
| WorkedExamples.PerfectReply | unbeatable.py:127-131 | from 1, 2, 0 the correct move takes 1 stone from the second heap |
| WorkedExamples.PerturbedReply | unbeatable.py:150-153 | from 5, 3, 0 Dr. Nymm takes 1 instead of 2 from the first heap, leaving nimm sum 7 |

## Left out

- Console input and output are not modelled: prompts, the heap display, the
  introductions and the win/lose messages (`input_heap`, `input_stones`,
  `choose_opponent`, `opponent_invalid`, `display_heaps`, `display_intro`,
  the strings of `announce_winner` and the move report in `cpu_turn`). The
  human's move arrives as numbers that already passed the validators. Only
  the winner decision of `announce_winner` is modelled (`Winner`).
- `heap_invalid` and `stones_invalid`: the `isdigit` test on the typed
  string is not modelled. The inputs are natural numbers, which is what a
  digit string parses to.
- `random.randint` is a foreign library call and is not modelled; its
  results are parameters. `set_heaps` is left out; the initial heaps are a
  parameter of `PlayGame`. `PlayGame` reads a draw on every ply, while the
  program calls `randint` only when the fallback is taken; the extra draws
  are unused.
- The trigger threshold `int(ERROR_MIN*sum(heaps))..int(ERROR_MAX*sum(heaps))`
  is floating point and is not modelled. The threshold is any natural number
  given to `PlayGame`. The `float("-inf")` sentinel is the `Fired` state of
  `Trigger`.
- The opponent name strings "Nimm"/"Nymm" are the two-valued datatype
  `Opponent`.
- Engine.PlayCorrectly: like the other engine methods, it requires
  `|heaps| == NHeaps`, because the accumulation loop reads `range(N_HEAPS)`.
  A list of another length is never passed by the game.
- Engine.PlayCorrectly: returns the fallback move when the nimm sum is 0, as
  the code does. It does not signal an explicit "no winning move" result.
  `CorrectMoveFromBalanced` states when this happens.
- Session.Game.CpuTurn: requires a draw in `[1, max(heaps)]`. With every
  heap empty, the program's `randint(1, 0)` would raise; the game loop never
  calls `cpu_turn` then.
- Session.PlayGame: the human's behaviour is a function of the ply number
  and the heaps. It does not model a human who remembers earlier plies in
  other ways.
