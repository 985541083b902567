# Advent of Code 2022, days 1 to 25, in Dafny

This project models the library crates of a set of Rust solutions to the 25
puzzles of Advent of Code 2022, and proves what those solutions promise.
Each day has one Dafny module, named after the day. Days whose crate has
several source files get one module per file, for example `Day12Grid` and
`Day12Solver`. Four modules are shared by all days:

- `Wrappers` holds the `Option` and `Result` types that stand for the Rust
  `Option`, `Result` and `?`.
- `Ints` holds the integer widths (`u32`, `i32`, `i64` and friends) and
  decimal parsing with overflow.
- `Seqs` holds sums, maxima and other facts about sequences.
- `Text` holds lines, words, splitting and trimming, and lexicographic order
  on strings.

The model keeps each source file's own form:

- Parsers, scoring rules and puzzle arithmetic are functions over
  datatypes.
- Code that mutates a struct in place is a `class` whose methods carry
  `modifies` clauses and state the new state. Examples:
  - the crate stacks of day 5;
  - the file system of day 7;
  - the rope of day 9;
  - the CPU and screen of day 10;
  - the monkeys of day 11;
  - the solver of day 12;
  - the sand cave of day 14 (a two-dimensional `array`);
  - the rock chamber of day 17;
  - the ring buffer of day 20;
  - the board of day 22;
  - the elf grid of day 23.
- Loops are `while` loops with invariants. Each such method is proved
  against a function that says what it computes.

The searches are modelled as the worklist loops they are: day 12's
shortest-climb search, day 16's valve paths and all-pairs distances, day 19's
robot-building search, and day 24's blizzard walk. Their contracts relate
the loop's result to an independent definition:

- the reachable states, for day 16's pressure search;
- the best over all goal walks, for day 19;
- a legal journey through the moving blizzards, for day 24.

Most tests that give their input as a literal have a lemma that proves the
same value about the model. Tests that read `sample.txt` or another input
file are listed under "Left out".

## Model

| member | source | states |
|---|---|---|
| Day01.GroupByNonEmpty | 01/src/lib.rs:5-6 | `group_by` on "non-empty": every run's lines share one key, neighbouring runs have different keys, and the first run has the first line's key |
| Day01.GroupByNonEmptyConcat | 01/src/lib.rs:5-6 | gluing the runs back together gives the lines again |
| Day01.Calories | 01/src/lib.rs:9-12 | the numbers parsed from a run: at most one per line, each within `u32` |
| Day01.FindElfCarryingMostCalories | 01/src/lib.rs:3-18 | None exactly when no elf has a number; otherwise (i, t) with t the i-th total, no total above t and every later total below t (`max_by_key` keeps the last maximum) |
| Day01.TotalsComeFromNumbers | 01/src/lib.rs:8-15 | every total is the sum of the numbers of one run of non-empty lines that holds at least one number |
| Day01.EmptyLinesHaveNoCalories | 01/src/lib.rs:10-14 | a run that yields numbers is a run of non-empty lines |
| Day01.NoCaloriesInEmptyLines | 01/src/lib.rs:10-11 | empty lines parse to no numbers |
| Day02.Duell | 02/src/lib.rs:20-34 | a draw iff the shapes are equal, a win iff `self` beats the other, a loss iff the other beats `self` |
| Day02.DuellAntisymmetric | 02/src/lib.rs:20-34 | swapping the players swaps win and loss and keeps a draw |
| Day02.OpponentPlaysToAchieve | 02/src/lib.rs:36-42 | the answer played against `self` gets exactly the asked outcome |
| Day02.AchieveUnique | 02/src/lib.rs:36-42 | no other answer gets that outcome |
| Day02.ParseShape | 02/src/lib.rs:45-55 | "A"/"X" Rock, "B"/"Y" Paper, "C"/"Z" Scissors, each iff; anything else fails |
| Day02.ParseOutcome | 02/src/lib.rs:57-67 | "X" Loss, "Y" Draw, "Z" Win, each iff; anything else fails |
| Day02.RoundScore | 02/src/lib.rs:79 | a round scores 1 to 9, above 6 exactly when yours beats the opponent's |
| Day02.Shapes | 02/src/lib.rs:73-75 | the words that parse as shapes, never more than the words |
| Day02.ScoresA | 02/src/lib.rs:69-80 | at most one round per line, each scoring 1 to 9; a line with exactly two shape words scores the round between them |
| Day02.GetScore | 02/src/lib.rs:69-81 | the total is at most 9 per line |
| Day02.RoundScoreB | 02/src/lib.rs:94-100 | in the second reading a round scores the asked outcome plus the shape that achieves it |
| Day02.ScoresBLine | 02/src/lib.rs:83-101 | a line "<A-C> <X-Z>" adds the asked outcome's score plus the achieving shape's score |
| Day02.ScoresB | 02/src/lib.rs:83-101 | the second reading fails exactly when some line of two words has a word that is not a shape or not an outcome (where `unwrap` panics); otherwise at most one round per line, each scoring 1 to 9 |
| Day02.GetScoreB | 02/src/lib.rs:83-101 | `get_score_b` fails exactly where an `unwrap` would panic, and its total is at most 9 per line |
| Day03.Prio | 03/src/lib.rs:5-11 | 1..26 exactly for 'a'..'z', 27..52 exactly for 'A'..'Z', 0 exactly for every other character |
| Day03.PrioInjective | 03/src/lib.rs:5-11 | two letters with the same priority are the same letter |
| Day03.Prios | 03/src/lib.rs:17 | one priority per character, in order |
| Day03.Chunks | 03/src/lib.rs:20 | `chunks(size)`: the first chunk is the first `size` elements, or all of them when fewer |
| Day03.HalvesAreTwoChunks | 03/src/lib.rs:19-22 | chunks of half the length come out as exactly two (so `collect_tuple` succeeds) iff the length is even, and then they are the two halves |
| Day03.FirstShared | 03/src/lib.rs:24 | the smallest priority in both compartments from `p` on, or None when they share none |
| Day03.DuplicatePriority | 03/src/lib.rs:17-24 | a rucksack contributes only when its length is even, and then a priority that occurs in both halves, at most 52 |
| Day03.SingleSharedItem | 03/src/lib.rs:21-24 | when the halves share exactly one priority, that priority is contributed, whatever order the set yields its elements in |
| Day03.Priorities | 03/src/lib.rs:14-24 | at most one contribution per line, each at most 52 |
| Day03.SumOfPrioritiesOfDuplicateItems | 03/src/lib.rs:13-26 | the total is at most 52 per line |
| Day04.Sections | 04/src/lib.rs:20 | `HashSet::from_iter(start..=end)`: x is a section iff start <= x <= end |
| Day04.ParseRange | 04/src/lib.rs:9-14 | a parsed range has both bounds within `u32` and consumes input |
| Day04.ParseRangeOfShown | 04/src/lib.rs:9-14 | "a-b" parses back to the range a..=b, leaving any text that does not start with a digit |
| Day04.ParsePairOfShown | 04/src/lib.rs:16-21 | "a-b,c-d" parses back to the two ranges, leaving any text that does not start with a digit |
| Day04.SubsetIffNested | 04/src/lib.rs:28 | one section set is a subset of the other iff the first range is empty or its bounds nest inside the other's |
| Day04.Pairs | 04/src/lib.rs:25-27 | at most one pair per line (lines that do not parse are skipped) |
| Day04.CountOverlapping | 04/src/lib.rs:28-29 | no more pairs counted than there are pairs |
| Day04.AmountOfFullyOverlappingSearchAssignments | 04/src/lib.rs:23-30 | at most one counted pair per line |
| Day04.CountByBounds | 04/src/lib.rs:28-29 | the count equals the count read on the bounds alone: pairs where one range is empty or nests in the other |
| Day05.KeywordNumber | 05/src/lib.rs:29-31 | a keyword, `space1` and a `u32`: the number fits in 32 bits and input is consumed |
| Day05.KeywordNumberOfShown | 05/src/lib.rs:29-31 | "keyword n" parses back to n, leaving any text that does not start with a digit |
| Day05.InstructionNom | 05/src/lib.rs:28-48 | a parsed instruction has all three numbers within `u32` |
| Day05.ParseInstruction | 05/src/lib.rs:27-52 | an error exactly when the nom grammar fails, and then `InvalidInstruction`; otherwise the grammar's instruction |
| Day05.ParseInstructionOfShown | 05/src/lib.rs:27-52 | "move a from s to d" parses back to the instruction |
| Day05.MoveOne | 05/src/lib.rs:71-74 | one pop and push: fails iff the source stack is empty; keeps the number of stacks, the number of crates and every other stack |
| Day05.Mover9000 | 05/src/lib.rs:69-77 | `n` single moves: the number of stacks and of crates is kept, and only the source and destination stacks change; an empty source fails at once with the stacks unchanged, whatever the destination |
| Day05.Mover9000Reverses | 05/src/lib.rs:69-77 | with at least `n` crates on a different source, the top `n` crates land on the destination in reverse order and the move succeeds |
| Day05.Mover9000EmptiesShortStack | 05/src/lib.rs:71-73 | with fewer than `n` crates the source is emptied onto the destination in reverse order and the move fails, the moved crates staying moved |
| Day05.Mover9000StaysFailed | 05/src/lib.rs:71-73 | after the first failing pop no further step changes anything (`?` returns) |
| Day05.Mover9000SameStack | 05/src/lib.rs:69-77 | moving a stack onto itself changes nothing and fails only on an empty stack |
| Day05.Mover9001 | 05/src/lib.rs:78-87 | the top `n` crates move as one block, keeping their order: fails iff `n` is 0 (changing nothing), keeps every other stack and the number of crates |
| Day05.CranesDifferOnlyInOrder | 05/src/lib.rs:69-87 | both cranes take the same crates off the source; the 9000 lands them reversed, the 9001 in order |
| Day05.Tops | 05/src/lib.rs:188-192 | one crate per non-empty stack; with no empty stack, the top of each stack in order |
| Day05.FirstAlpha | 05/src/lib.rs:108 | the first ASCII letter of a 4-character column, None iff it has none |
| Day05.CrateRow | 05/src/lib.rs:104-109 | `chunks(4)`: one cell per started group of four characters |
| Day05.AddCell | 05/src/lib.rs:111-116 | a new empty stack when the column is new, then the column's crate, if any, pushed on its stack; nothing else changes |
| Day05.AddRow | 05/src/lib.rs:104-117 | a drawing line's crates each pushed on the stack of their column |
| Day05.Build | 05/src/lib.rs:101-120 | as many stacks as the widest drawing line has columns; stack j holds column j's crates bottom line first |
| Day05.ColumnBeyondWidth | 05/src/lib.rs:104-117 | columns beyond the widest line hold no crate |
| Day05.Ship.constructor | 05/src/lib.rs:90-96 | `Ship::default()` has no stacks |
| Day05.DrawingLines | 05/src/lib.rs:103 | `lines().rev().skip(1)`: one line fewer than the drawing, its bottom line first and the last line (the stack numbers) dropped |
| Day05.Ship.FromStr | 05/src/lib.rs:98-121 | the ship built from the drawing lines, bottom first, the numbering line skipped |
| Day05.Ship.PutRow | 05/src/lib.rs:104-117 | one drawing line put on the ship |
| Day05.Ship.CrateMover9000 | 05/src/lib.rs:69-77 | the new stacks and the success flag are those of `Mover9000`; the error is `CannotExecuteInstructionBecauseStackAlreadyEmpty` |
| Day05.Ship.CrateMover9001 | 05/src/lib.rs:78-87 | the new stacks and the success flag are those of `Mover9001`; the error is `CannotExecuteInstructionBecauseStackAlreadyEmpty` |
| Day05.Ship.Crane | 05/src/lib.rs:170-172 | the crane passed as `f` executes an instruction as `Moved` says |
| Day05.Apply | 05/src/lib.rs:178-181 | an instruction fails iff it would index a stack that does not exist or the 9001 would split off more than the stack holds (exactly these give `Panic`, where the source panics; `CanApply` is their negation: the 9000 needs the destination only after a successful pop), or the 9000 runs out of crates, or the 9001 moves none (both `CannotExecuteInstructionBecauseStackAlreadyEmpty`); on success the stacks and the number of crates are kept |
| Day05.EmptySourceIsElfError | 05/src/lib.rs:71-73 | the 9000 on an empty source stack fails with `CannotExecuteInstructionBecauseStackAlreadyEmpty`, not a panic, whether or not the destination exists |
| Day05.Apply9000 | 05/src/lib.rs:69-77 | with enough crates on a different source the 9000 moves the top `amount` crates reversed |
| Day05.Apply9001 | 05/src/lib.rs:78-87 | with enough crates on a different source the 9001 moves the top `amount` crates in order |
| Day05.Moved | 05/src/lib.rs:170-172 | either crane keeps the number of stacks and of crates |
| Day05.RunLine | 05/src/lib.rs:179-180 | one instruction line parsed and executed keeps the number of stacks and of crates |
| Day05.Run | 05/src/lib.rs:178-181 | the lines in order keep the number of stacks and of crates |
| Day05.RunNext | 05/src/lib.rs:178-181 | a run that has not failed after `k` lines goes on with line `k` applied to the stacks it has reached |
| Day05.RunStopsAtFailure | 05/src/lib.rs:181 | `collect::<Result<..>>` stops at the first failure: later lines do not matter |
| Day05.SplitInput | 05/src/lib.rs:163-168 | an error iff there is no empty line; otherwise the drawing and the instructions around the first one |
| Day05.Execute | 05/src/lib.rs:179-180 | one line on the ship: no failure iff `RunLine` succeeds, and then the ship holds its stacks; otherwise its error |
| Day05.Rearrange | 05/src/lib.rs:178-181 | the loop over the lines ends with the stacks of `Run`, or with its error |
| Day05.FindRearrangedTopOfStacks | 05/src/lib.rs:170-193 | split, build, run, and the tops of the stacks, or the first error |
| Day05.RearrangedTops | 05/src/lib.rs:170-193 | no empty line gives `InputDoesNotContainTwoSections`; a success needs one and gives at most one top per stack of the drawing |
| Day05.TopsAfter | 05/src/lib.rs:181-192 | the tops are read exactly when the run succeeded, at most one per stack; a failed run passes its error on |
| Day05.Example9000Step1 | 05/src/lib.rs:224-227 | the puzzle's first step with the 9000 |
| Day05.Example9000Step2 | 05/src/lib.rs:229-232 | the second step with the 9000 |
| Day05.Example9000Step3 | 05/src/lib.rs:234-237 | the third step with the 9000 |
| Day05.Example9000Step4 | 05/src/lib.rs:239-242 | the fourth step with the 9000 |
| Day05.Example9001Step1 | 05/src/lib.rs:253-256 | the puzzle's first step with the 9001 |
| Day05.Example9001Step2 | 05/src/lib.rs:258-261 | the second step with the 9001 |
| Day05.Example9001Step3 | 05/src/lib.rs:263-266 | the third step with the 9001 |
| Day05.Example9001Step4 | 05/src/lib.rs:268-271 | the fourth step with the 9001 |
| Day05.ExampleTops | 05/src/lib.rs:244-281 | the final stacks give "CMZ" and "MCD" |
| Day06.WindowsBeforeMarker | 06/src/lib.rs:6-9 | `take_while`: the windows counted from `i` are all full windows without a marker, and the one after them, when full, is a marker |
| Day06.CountStopsAtFirstMarker | 06/src/lib.rs:6-9 | the count stops exactly at the first marker window |
| Day06.StartMarker | 06/src/lib.rs:3-16 | None iff the text is shorter than 4 or the very first window is a marker; otherwise a position after 4 and at most one past the end, no marker before it, and a marker ending there when it is within the text |
| Day06.StartMarkerAtFirstMarker | 06/src/lib.rs:3-16 | with the first marker at k > 0, the result is k + 4 |
| Day06.FirstMarkerEnd | 06/src/lib.rs:3-16 | the evidently intended result: None iff no window is a marker, otherwise the end of the first marker window |
| Day06.StartMarkerAgreesAfterFirstWindow | 06/src/lib.rs:3-16 | as written and as intended agree whenever there is a marker and the first window is not one |
| Day06.MarkerInFirstWindowIsMissed | 06/src/lib.rs:11-13 | on "abcd" the function as written gives None while the marker ends at 4 |
| Day06.NoMarkerIsReportedPastTheEnd | 06/src/lib.rs:6-15 | on "aaaa", which has no marker, the function as written gives 5 |
| Day06.Sample1 | 06/src/lib.rs:23-27 | "mjqjpqmgbljsphdztnvjfqwrcgsmlb" gives 7 |
| Day06.Sample2 | 06/src/lib.rs:29-33 | "bvwbjplbgvbhsrlpgdmjqwftvncz" gives 5 |
| Day06.Sample3 | 06/src/lib.rs:35-39 | "nppdvjthqldpwncqszvftbrmjlhg" gives 6 |
| Day06.Sample4 | 06/src/lib.rs:41-45 | "nznrnfrfntjfmvfwmzdfjlvtqnbhcprsg" gives 10 |
| Day06.Sample5 | 06/src/lib.rs:47-51 | "zcfzfwzzqfrljwzlrfnpqdbhtmscgvjw" gives 11 |
| Day07.Empty | 07/src/lib.rs:43-51 | the default file system is a single empty root directory, a well-formed tree of size 0 |
| Day07.Add | 07/src/lib.rs:121-126 | `add` appends the new entry after all others and pushes its position onto the working directory's items; every other entry is unchanged and the result is still a tree |
| Day07.AddKeepsTree | 07/src/lib.rs:114-132 | adding an item-less entry whose parent is the working directory keeps the parent/child links a tree |
| Day07.FirstNamed | 07/src/lib.rs:147-156 | the first item with the name when there is one (no earlier item has it), none exactly when no item has it |
| Day07.CdTarget | 07/src/lib.rs:134-165 | `..` moves to the parent and fails with `RootDirectoryHasNoParent` exactly at the root; `/` moves to the root; a name moves to the first item so named and fails with `DirectoryDoesNotExist(name)` exactly when none has it |
| Day07.CdBackUp | 07/src/lib.rs:134-165 | `cd ..` after a successful `cd name` returns to the directory it started from |
| Day07.AddAll | 07/src/lib.rs:170-177 | executing a listing adds one entry per listed item and keeps the tree |
| Day07.AddAllNext | 07/src/lib.rs:170-177 | listed items are added in order, each as a `touch` (its size) or `mkdir` (size 0) |
| Day07.ExecuteOn | 07/src/lib.rs:167-182 | `Cd` succeeds exactly when the target exists and then only moves the working directory; `Ls` always succeeds, keeps the working directory and adds one entry per item |
| Day07.SizeAfterAdd | 07/src/lib.rs:76-83 | after adding an item of `s` bytes every directory's size grows by `s` exactly when it contains the working directory, every other size is unchanged |
| Day07.TouchAtRootAddsSize | 07/src/lib.rs:114-119 | `touch` of `size` bytes in the root raises the disk usage by exactly `size` |
| Day07.MkdirKeepsSizes | 07/src/lib.rs:127-132 | `mkdir` changes the size of no entry |
| Day07.Size | 07/src/lib.rs:76-81 | a file is its own size; a directory is at least as large as each of its items |
| Day07.ItemsSize | 07/src/lib.rs:79 | the sum over the first `k` items is at least the size of each of them |
| Day07.Exists | 07/src/lib.rs:106-112 | true exactly when some item of the working directory has the name (`any`) |
| Day07.Walk | 07/src/lib.rs:192-205 | `walker`: every reported size satisfies the predicate, and a matching directory comes first in its own walk |
| Day07.WalkItems | 07/src/lib.rs:201-203 | the walks of the items appended: every reported size satisfies the predicate |
| Day07.WalkReportsFolders | 07/src/lib.rs:188-209 | soundness of `walker`: every pair it reports is the name and size of a directory in the walked subtree whose size satisfies the predicate |
| Day07.WalkFindsFolders | 07/src/lib.rs:188-209 | completeness of `walker`: every matching directory in the walked subtree is reported, and before every matching directory below it |
| Day07.Reports | 07/src/lib.rs:196-203 | a matching directory under the walked one appears in its walk |
| Day07.ReportsBefore | 07/src/lib.rs:197-203 | a matching directory is reported before every matching directory below it |
| Day07.WalkKeepsItemOrder | 07/src/lib.rs:201-203 | a matching directory under an earlier item is reported before one under a later item of the same directory |
| Day07.WalkInPreOrder | 07/src/lib.rs:192-205 | across the whole walk, for any directory, matches under an earlier item come before matches under a later item |
| Day07.FileSystem.constructor | 07/src/lib.rs:43-51 | the default file system: the empty root is the working directory |
| Day07.FileSystem.Touch | 07/src/lib.rs:114-119 | the entries become `Add` of a file under the working directory, which does not move |
| Day07.FileSystem.Mkdir | 07/src/lib.rs:127-132 | the entries become `Add` of an empty directory under the working directory, which does not move |
| Day07.FileSystem.Cd | 07/src/lib.rs:134-165 | the loop over the items finds `CdTarget`: on success the working directory becomes it, on failure the working directory stays and the error is `CdTarget`'s; entries never change |
| Day07.FileSystem.Execute | 07/src/lib.rs:167-182 | the new entries and working directory are `ExecuteOn`'s; on an error nothing changes |
| Day07.FileSystem.List | 07/src/lib.rs:170-177 | the loop over the listing leaves the entries equal to `AddAll` of the items and the working directory unchanged |
| Day07.FileSystem.DiskUsage | 07/src/lib.rs:184-186 | the root's size, at least that of each item of the root |
| Day07.FileSystem.FoldersWith | 07/src/lib.rs:188-209 | the reported pairs are exactly the directories of the file system whose size satisfies the predicate, each with its name and size, in pre-order: a directory before those below it, and those under an earlier item before those under a later one |
| Day07.ParseListing | 07/src/lib.rs:256-268 | at most one item per line; an error only for an unparsable size, as `InvalidFileSize` |
| Day07.ParseCommand | 07/src/lib.rs:248-274 | a command starting with "cd" is `Cd` of the text after its first space and fails with `MissingArgumentForChangeDirectory` exactly when it has no space; "ls" parses its output; anything else is `UnknownCommand` |
| Day07.ParseCommands | 07/src/lib.rs:243-276 | one command per part when all parse |
| Day07.NonEmpty | 07/src/lib.rs:245 | the empty parts between '$' are dropped and no empty part is kept |
| Day07.InterpreteHistory | 07/src/lib.rs:243-276 | one command per non-empty text between '$' signs |
| Day07.Replay | 07/src/lib.rs:85-92 | replaying commands from a tree keeps a tree with a valid working directory |
| Day07.ReplayStopsAtFailure | 07/src/lib.rs:88-90 | the first failing command's error is the error of the whole history (the `?` stops the loop) |
| Day07.ReplayNext | 07/src/lib.rs:88-90 | each command runs on the state the earlier commands left |
| Day07.Run | 07/src/lib.rs:88-90 | the loop executes the commands in order and ends in `Replay`'s state, or fails with its error |
| Day07.FromHistory | 07/src/lib.rs:85-92 | a history that does not parse fails with the parse error; otherwise the new file system is the replay of its commands on the default one |
| Day07.CdIntoMissingDirectory | 07/src/lib.rs:358-367 | the empty file system has no "foo", and `cd foo` fails with `DirectoryDoesNotExist("foo")` |
| Day07.SampleSizes | 07/src/lib.rs:369-401 | in the sample tree e is 584, a 94853, d 24933642 bytes and the disk usage is 48381165 |
| Day07.SampleSmallDirectories | 07/src/lib.rs:432-439 | the directories of at most 100000 bytes are a (94853) and e (584), in that order, summing to 95437 |
| Day07.SampleCandidates | 07/src/lib.rs:403-423 | with 8381165 bytes to free the candidates are the root (48381165) and d (24933642) |
| Day07.HistoryWithCd | 07/src/lib.rs:300-306 | "$ cd dir" interprets as `[Cd(dir)]` |
| Day07.HistoryWithLs | 07/src/lib.rs:308-320 | the `ls` history with "dir a" and "1234 foo.txt" gives the folder a and the file foo.txt of 1234 bytes |
| Day07.HistoryWithBareCd | 07/src/lib.rs:322-328 | "$ cd" fails with `MissingArgumentForChangeDirectory` |
| Day07.HistoryWithTouch | 07/src/lib.rs:330-335 | "$ touch" fails with `UnknownCommand("touch")` |
| Day07.HistoryWithUnknownCommand | 07/src/lib.rs:270-272 | any other one-line command fails with `UnknownCommand` of its text |
| Day07.ListingOfFile | 07/src/lib.rs:263-266 | "size name" with a `usize` size lists a file of that size |
| Day08.ParseHeight | 08/src/lib.rs:31-35 | a character parses as an `i8` height exactly when it is a digit, to its value 0..9; otherwise `CannotParseTreeHeight` |
| Day08.ParseRow | 08/src/lib.rs:29-37 | a line parses exactly when all its characters are digits, to their values in order; otherwise the error of a non-digit |
| Day08.ParseRows | 08/src/lib.rs:27-38 | the grid parses exactly when every line does, one row per line |
| Day08.ParseForest | 08/src/lib.rs:26-52 | no lines give `EmptyGrid`; a result is square, with one row per line (or empty when the first line is) |
| Day08.ParseForestOfSquare | 08/src/lib.rs:39-51 | digit lines parse exactly when the first line's width equals the number of lines and no line is shorter (otherwise the copy loop indexes out of bounds) |
| Day08.ParseForestRejectsNonDigit | 08/src/lib.rs:31-38 | any non-digit character makes the parse fail with `CannotParseTreeHeight` |
| Day08.Highest | 08/src/lib.rs:95-98 | `.max().unwrap_or(0)`: an upper bound of all trees that is one of them, 0 for none |
| Day08.HighestDecides | 08/src/lib.rs:95-102 | a tree is taller than the highest tree behind it on a ray exactly when it is taller than every one of them |
| Day08.MarkedIffHidden | 08/src/lib.rs:85-106 | a cell is marked (not `NOT_VISIBLE`) exactly when the tree is visible: on the border or taller than all trees towards some edge; a marked cell holds the tree's height |
| Day08.RayCell | 08/src/lib.rs:66-83 | the `s`-th interior cell of ray `i` in direction `d` lies inside the border and on that ray |
| Day08.RayCellOfStep | 08/src/lib.rs:66-99 | every interior cell of a ray is reached at exactly its step |
| Day08.RayCellsDistinct | 08/src/lib.rs:94-103 | a ray visits each of its cells once |
| Day08.CastRay | 08/src/lib.rs:92-104 | one ray marks with its height every interior cell on it that is taller than all trees behind it, and changes nothing else |
| Day08.CastRaySteps | 08/src/lib.rs:94-103 | the inner loop of one ray: cells off the ray are unchanged, each step's cell is marked exactly when taller |
| Day08.MarkIfTaller | 08/src/lib.rs:99-102 | one step writes the height into its cell when it is taller, and touches no other cell |
| Day08.VisibleTrees | 08/src/lib.rs:62-107 | the grid after all rays holds, in every cell, the tree's height when it is visible and `NOT_VISIBLE` otherwise |
| Day08.VisibilityGrid | 08/src/lib.rs:62-107 | a square grid of the same size holding each cell's visibility |
| Day08.CountInRow | 08/src/lib.rs:118-126 | the count is at most the row length, equals it exactly when no cell is `NOT_VISIBLE`, and is 0 exactly when all are |
| Day08.CountVisible | 08/src/lib.rs:118-126 | the count is 0 exactly when every cell is `NOT_VISIBLE` |
| Day08.ViewingDistanceStops | 08/src/lib.rs:138-145 | the distance counts trees on the grid, all lower than the tree except the last, which is at least as tall unless the edge was reached |
| Day08.InteriorSeesAll | 08/src/lib.rs:138-145 | an interior tree sees at least one tree in every direction |
| Day08.ScenicScore | 08/src/lib.rs:128-149 | the map holds a direction exactly when at least one tree is seen that way, and then its viewing distance |
| Day08.InteriorScore | 08/src/lib.rs:157 | an interior tree's score is the product of its four viewing distances |
| Day08.InteriorCells | 08/src/lib.rs:155-156 | the cartesian product of `1..dim-1` with itself: exactly the interior cells, in row-major order, none when `dim <= 2` |
| Day08.MostScenicPlace | 08/src/lib.rs:151-159 | None exactly when there is no interior; otherwise an interior cell with its own score |
| Day08.MostScenicPlaceIsBest | 08/src/lib.rs:158 | no interior cell scores more than the place found |
| Day08.MostScenicPlaceIsLast | 08/src/lib.rs:158 | every cell after the place found in row-major order scores strictly less (`max_by_key` keeps the last maximum) |
| Day08.SampleVisibility | 08/src/lib.rs:171-181 | the sample's visibility grid is the expected one |
| Day08.SampleCount | 08/src/lib.rs:171-181 | the sample has 21 visible trees |
| Day08.SampleViews | 08/src/lib.rs:183-201 | at (1, 2) the distances are N 1, W 1, E 2, S 2; at (3, 2) N 2, W 2 |
| Day08.SampleMostScenicPlace | 08/src/lib.rs:203-208 | the most scenic place of the sample is (3, 2) with score 8 |
| Day08.SampleOnlyBest | 08/src/lib.rs:203-208 | no other interior cell of the sample reaches score 8 |
| Text.IntErrorKinds | 09/src/cmd.rs:20-22 | the `ParseIntError` of `str::parse`: an empty text is `EmptyString`, a first character that is no digit or sign is `InvalidDigit`, digits above the maximum `PosOverflow`, a minus and digits below the minimum `NegOverflow` |
| Text.IntErrorOfUnsigned | 09/src/cmd.rs:20-22 | `parse::<u32>` and the like report no error exactly when the text parses as an unsigned number in range |
| Text.IntErrorOfSigned | 15/src/sensor.rs:35-38 | `parse::<i32>` and the like report no error exactly when the text parses as a signed number in range |
| Text.ScanDigitsExact | 09/src/cmd.rs:20-22 | scanning digits onto a bounded value succeeds exactly when all are digits and the value stays within the bound; going past the bound reports the overflow kind |
| Day09.ParseCommand | 09/src/cmd.rs:13-34 | no space gives `InputParseError` of the line; a count that is not a `u32` gives its parse error (before the letter is looked at); success exactly when the letter is U, D, L or R and the count parses, with that letter and count |
| Day09.ParseShownCommand | 09/src/cmd.rs:13-34 | every command with a `u32` count parses back from "letter count" |
| Day09.UnknownDirection | 09/src/cmd.rs:28-31 | any other letter with a valid count fails with "Unknown direction" and the letter |
| Day09.NoSpace | 09/src/cmd.rs:16-18 | a line without a space fails with the line itself |
| Day09.ParseCommands | 09/src/lib.rs:29-31 | all lines parse exactly when each does, one command per line in order |
| Day09.DirectionOf | 09/src/cmd.rs:36-45 | each command's direction is one unit step on one axis |
| Day09.StepCount | 09/src/cmd.rs:47-56 | `n as i32`: the count itself up to `i32::MAX`, above that the negative wrapped value |
| Day09.Follow | 09/src/rope.rs:101-120 | `pull` moves a knot by at most one cell on each axis |
| Day09.FollowStaysIffTouching | 09/src/rope.rs:101-120 | a knot stays exactly when it already touches the one it follows |
| Day09.FollowCatchesUp | 09/src/rope.rs:101-120 | when the leader moved by one cell from a touching position, the pulled knot touches it again |
| Day09.Drag | 09/src/rope.rs:125-133 | dragging keeps the number of knots |
| Day09.DragExtend | 09/src/rope.rs:125-133 | each knot is pulled by the already-moved knot before it, the first by the head |
| Day09.DragKeepsChain | 09/src/rope.rs:122-135 | after the head moves one cell from a connected rope, the dragged rope is connected again and every knot moved by at most one cell |
| Day09.Rope.constructor | 09/src/rope.rs:93-99 | `new(knots)`: head and `knots - 1` tails at the origin, the origin visited; a valid rope from 2 knots on |
| Day09.Rope.Pull | 09/src/rope.rs:101-120 | only tail `i` changes, to `Follow` of the given leader |
| Day09.Rope.FollowAll | 09/src/rope.rs:125-133 | the pull loop leaves the tails equal to `Drag` of the head over the old tails |
| Day09.Rope.Step | 09/src/rope.rs:122-135 | the head moves by the direction, the tails are dragged, the last tail's cell is added to the visited set; a unit step keeps the rope connected |
| Day09.DefaultRope | 09/src/rope.rs:16-20 | the default rope has two knots at the origin and is valid |
| Day09.Stepped | 09/src/rope.rs:122-135 | `k` steps keep the number of knots, only add visited cells, and after at least one step the last knot's cell is visited |
| Day09.SteppedHead | 09/src/rope.rs:123 | after `k` steps the head has moved by `k` times the direction |
| Day09.SteppedKeepsConnected | 09/src/rope.rs:122-135 | any number of unit steps keeps a connected rope connected |
| Day09.SteppedRecords | 09/src/rope.rs:134 | the last knot's cell after every step taken is in the visited set |
| Day09.SteppedRecordsOnly | 09/src/rope.rs:134 | every newly visited cell is the last knot's cell after one of the steps |
| Day09.Apply | 09/src/lib.rs:48-51 | one command leaves the rope (head, tails and visited set) as `Stepped` by `n as i32` unit steps (none when that is not positive), and keeps it valid |
| Day10.ParseAddX | 10/src/instruction.rs:22-27 | fails with a `Tag` error unless the text starts with "addx"; succeeds exactly when "addx" is followed by blanks and an `i32`, giving that number |
| Day10.ParseInstruction | 10/src/instruction.rs:29-34 | a text starting with "noop" is `Noop` whatever follows; otherwise `add_x`'s result, its error wrapped as `InputInvalid` |
| Day10.ParseShownInstruction | 10/src/instruction.rs:17-34 | every instruction with an `i32` operand parses back from its text |
| Day10.NoopExamples | 10/src/instruction.rs:40-45 | "noop" and "noop foo" are `Noop`; "nopo" is an error |
| Day10.AddXExamples | 10/src/instruction.rs:47-53 | "addx 42" and "addx -69" parse to `AddX(42)` and `AddX(-69)` |
| Day10.AddXErrors | 10/src/instruction.rs:54-56 | "addx", "adxd" and "addx foo" are errors, each with the nom error of the failing step |
| Day10.TickOf | 10/src/cpu.rs:22-31 | a tick adds one cycle, keeps X, and adds cycle times X to the signal strength exactly on cycles 20, 60, 100, ... |
| Day10.SignalsAppend | 10/src/cpu.rs:22-31 | the signal of two pieces of a trace is the sum of their signals, the second counted from where the first ended |
| Day10.RunFollowsTrace | 10/src/cpu.rs:33-42 | running a program takes one cycle per trace entry (1 for `noop`, 2 for `addx`), ends with X plus all operands, and adds the signal of the trace |
| Day10.Cpu.constructor | 10/src/cpu.rs:11-19 | the default CPU: cycle 0, X = 1, strength 0 |
| Day10.Cpu.Tick | 10/src/cpu.rs:22-31 | the registers become `TickOf` the old ones |
| Day10.Cpu.Execute | 10/src/cpu.rs:33-42 | `noop` ticks once; `addx n` ticks twice and then adds n to X |
| Day10.Cpu.RunProgram | 10/src/cpu.rs:74-82 | executing a program in order ends in `RunOf` the old registers and returns the strength plus the signal of the program's trace |
| Day10.LittleSample | 10/src/cpu.rs:57-71 | after `noop`, `addx 3`, `addx -5` the X values are 1, 4, -1 at cycles 1, 3, 5 |
| Day10.NextPen | 10/src/crt.rs:108-112 | the pen stays on the 40 by 6 screen |
| Day10.PenAfterIndex | 10/src/crt.rs:108-112 | after k ticks the pen is at position k modulo 240 in row-major order |
| Day10.OverflowEveryFrame | 10/src/crt.rs:114-119 | the pen is back at (0, 0) exactly after a multiple of 240 ticks |
| Day10.PenIsRowMajor | 10/src/crt.rs:108-112 | after k ticks the pen's column and row are the remainder and quotient of k modulo 240 by 40 |
| Day10.PenExamples | 10/src/crt.rs:127-151 | after 1 tick the pen is at (1, 0), after 39 at (39, 0), after 40 at (0, 1), after 240 at (0, 0) |
| Day10.FrameExample | 10/src/crt.rs:153-161 | ticks 1 to 239 do not overflow, tick 240 does |
| Day10.Screen.constructor | 10/src/crt.rs:24-34 | every pixel is `X`, the pen at (0, 0), the sprite at 1 |
| Day10.Screen.ContainsSprite | 10/src/crt.rs:95-98 | a column is covered exactly when it is within one of the sprite's position |
| Day10.Screen.Tick | 10/src/crt.rs:99-120 | only the pixel under the old pen changes, to white when the sprite covers its column and black otherwise; the pen moves on; the result is true exactly when the pen wrapped to (0, 0) |
| Day10.DrawSpriteAtPen | 10/src/crt.rs:163-179 | with the sprite at 3, six ticks leave the first row black, black, white, white, white, black and column 6 untouched |
| Day11Monkey.Apply | 11/src/monkey.rs:76-93 | the parsed operation: `old + n`, `old * n`, `old + old` or `old * old` |
| Day11Monkey.TestOf | 11/src/monkey.rs:45-51 | the target is one of the two monkeys named, the "true" one exactly when the worry is divisible by the modulo |
| Day11Monkey.InspectionsCountDepartures | 11/src/monkey.rs:57-67 | `inspect` yields an item exactly when the queue is non-empty, and the inspection counter grows by exactly the items that left; `catch` adds one item |
| Day11Monkey.FirstInFirstOut | 11/src/monkey.rs:57-67 | an item caught by a monkey with an empty queue is the next one it inspects |
| Day11Monkey.Monkey.constructor | 11/src/monkey.rs:131-142 | a new monkey has the parsed description and no inspections yet |
| Day11Monkey.Monkey.Test | 11/src/monkey.rs:45-51 | the object's test is `TestOf` its state |
| Day11Monkey.Monkey.Inspect | 11/src/monkey.rs:57-63 | pops the front of the queue and counts the inspection when there was one |
| Day11Monkey.Monkey.Catch | 11/src/monkey.rs:65-67 | pushes the item to the back of the queue |
| Day11Monkey.ParseMonkey | 11/src/monkey.rs:101-151 | a parsed monkey starts with no inspections |
| Day11Monkey.ParseShownFunction | 11/src/monkey.rs:95-99 | "new = old" with `+`/`*` and a number or `old` parses back to that operation |
| Day11Monkey.ItemsLineOf | 11/src/monkey.rs:107-110 | the "Starting items:" line parses back to its `u128` items, in order, also when there are none |
| Day11Monkey.HeaderLineOf | 11/src/monkey.rs:102-105 | "Monkey id:" parses back to a `u32` id |
| Day11Monkey.ParseShownMonkey | 11/src/monkey.rs:101-143 | every monkey description whose numbers fit their widths parses back to that monkey |
| Day11Monkey.SampleMonkeyZero | 11/src/monkey.rs:158-172 | monkey 0 of the sample: items 79, 98, `old * 19`, divisible by 23, throws to 2 or 3 |
| Day11Monkey.SampleMonkeyOne | 11/src/monkey.rs:174-188 | monkey 1 of the sample: `old + 6`, divisible by 19, throws to 2 or 0 |
| Day11Monkey.SampleMonkeyTwo | 11/src/monkey.rs:190-205 | monkey 2 of the sample: `old * old`, divisible by 13, throws to 1 or 3 |
| Day11.Worry | 11/src/lib.rs:44 | the worry level is the operation's result divided by 3, rounded down |
| Day11.Target | 11/src/lib.rs:45 | a well-formed monkey never throws to itself |
| Day11.ThrownParts | 11/src/lib.rs:41-49 | one throw removes the front item from the thrower and counts it, appends its worry level to the target's queue, and changes no other monkey |
| Day11.ThrowKeepsRules | 11/src/lib.rs:41-49 | a throw changes no monkey's rules |
| Day11.TurnOf | 11/src/lib.rs:37-52 | a turn keeps every monkey's rules |
| Day11.ThrowStep | 11/src/lib.rs:37-52 | a turn with items is one throw followed by the rest of the turn |
| Day11.TurnEmptiesQueue | 11/src/lib.rs:37-52 | a turn that finds all its targets leaves the monkey's queue empty and counts every item it held |
| Day11.TurnMissingIsAbsent | 11/src/lib.rs:46-48 | a turn stops early only on a target id that is not in the troop |
| Day11.RoundOf | 11/src/lib.rs:34-55 | a round keeps every monkey's rules |
| Day11.RoundCompletesWhenAnswered | 11/src/lib.rs:34-55 | when the ids are 0..n and every target is below n the round never fails; a failure names an absent id |
| Day11.RoundKeepsItems | 11/src/lib.rs:34-55 | a completed round neither creates nor loses items |
| Day11.SampleRoundOne | 11/src/lib.rs:89-100 | one round of the sample leaves the queues [20, 23, 27, 26], [2080, 25, 167, 207, 401, 1046], [], [] |
| Day11.Snapshot | 11/src/lib.rs:13 | the troop has the same ids as the map of monkey objects |
| Day11.InspectAt | 11/src/lib.rs:38-41 | inspecting through the map changes only monkey `i`, as `inspect` does |
| Day11.CatchAt | 11/src/lib.rs:46-49 | catching through the map changes only the target, as `catch` does |
| Day11.Turn | 11/src/lib.rs:37-52 | the turn loop leaves the objects in the state `TurnAt` gives and reports the same missing id |
| Day11.PlayRound | 11/src/lib.rs:34-55 | the round loop leaves the objects in `RoundOf`'s state and fails with `NoSuchMonkeyWithId` of the missing id exactly when `RoundOf` stops early |
| Day11.MostActive | 11/src/lib.rs:57-63 | the result is a permutation of the monkeys ordered by decreasing inspections |
| Day11.Insert | 11/src/lib.rs:59-61 | inserting into a ranked list keeps it ranked and adds exactly that monkey |
| Day12Grid.Heightmap.Elevation | 12/src/grid.rs:68-70 | a cell on the grid gives itself and its letter, any other cell nothing |
| Day12Grid.Heightmap.Dimension | 12/src/grid.rs:72-74 | the width and height recorded at parse time |
| Day12Grid.Level | 12/src/grid.rs:36-40 | 'S' is stored as 'a', 'E' as 'z', every other letter as itself |
| Day12Grid.LastIn | 12/src/grid.rs:24-33 | the last column of a row holding the letter, none when no column does |
| Day12Grid.LastOfIsLast | 12/src/grid.rs:23-33 | the start or finish kept is a cell holding that letter with none after it in reading order; none exactly when the letter never occurs |
| Day12Grid.GridOfCells | 12/src/grid.rs:23-42 | the grid holds exactly the cells of the text, each with its level |
| Day12Grid.DimensionsBound | 12/src/grid.rs:25-26 | `max_x`/`max_y` bound every row's length and every non-empty row's index, and are reached by some row |
| Day12Grid.HeightmapOfMeaning | 12/src/grid.rs:17-58 | `InputDoesNotContainAnyStart` exactly when no 'S' occurs; `InputDoesNotContainAnyFinish` exactly when an 'S' but no 'E' occurs; otherwise start and finish are cells holding 'S' and 'E', on the grid as 'a' and 'z', and every cell lies within width and height |
| Day12Grid.OneLineExample | 12/src/grid.rs:81-99 | "SabcdeE" has start (0, 0), finish (6, 0) and the grid a, a, b, c, d, e, z |
| Day12Grid.ScanLine | 12/src/grid.rs:24-42 | the loop over one line's characters extends start, finish, grid and maxima to those of the lines so far plus this one |
| Day12Grid.ParseHeightmap | 12/src/grid.rs:17-58 | the loops over lines and characters compute `HeightmapOf` the lines |
| Day12Solver.AroundIsAdjacent | 12/src/solver.rs:103-105 | the four offsets reach exactly the cells adjacent to the current one |
| Day12Solver.Joining | 12/src/solver.rs:103-113 | a neighbour is queued exactly when it is around the cell, on the grid, at most one letter higher (`as u8`) and not seen before |
| Day12Solver.ExpandJoins | 12/src/solver.rs:103-113 | the neighbour loop appends exactly the joining neighbours, in order, each with the current cell as parent, and changes nothing else |
| Day12Solver.PathTo | 12/src/solver.rs:91-97 | the path read back runs from the start to the cell, one more cell than its depth, every step to an adjacent cell at most one letter higher |
| Day12Solver.TracePath | 12/src/solver.rs:91-97 | the loop that follows the parents and reverses yields `PathTo` the cell |
| Day12Solver.QueuedOnce | 12/src/solver.rs:108-111 | no cell is ever queued twice |
| Day12Solver.QueuedBound | 12/src/solver.rs:108-111 | no more cells are queued than the grid holds |
| Day12Solver.Dijkstra.constructor | 12/src/solver.rs:76-83 | the queue holds the start, the only cell seen, without a parent; no path yet |
| Day12Solver.Dijkstra.SolveOnce | 12/src/solver.rs:84-116 | an error exactly on an empty queue, then nothing changes; `true` exactly when the front is the finish, and then the path is `PathTo` the finish; otherwise the queue and parents are those of expanding the front |
| Day12Solver.Dijkstra.Arrive | 12/src/solver.rs:90-98 | the finish leaves the queue and the path to it is recorded |
| Day12Solver.Dijkstra.Advance | 12/src/solver.rs:101-115 | the front leaves the queue and its joining neighbours are queued; the remaining work shrinks |
| Day12Solver.Dijkstra.Solve | 12/src/solver.rs:210 | the `while !solve_once()? {}` loop always ends: with the path from the start to the finish, or with `SolverCouldNotFindASolutionToTarget` |
| Day13.ParsePacket | 13/src/lib.rs:48-50 | a parsed packet consumes at least one character and respects the `u32` bound on every number |
| Day13.ParseList | 13/src/lib.rs:43-46 | a list starts with '[' and consumes input |
| Day13.FromStr | 13/src/lib.rs:52-58 | succeeds exactly when a packet parses at the front of the text, giving that packet |
| Day13.ParseEncode | 13/src/lib.rs:39-50 | the printed form of any packet with `u32` numbers parses back to it, leaving what follows |
| Day13.FromStrEncode | 13/src/lib.rs:52-58 | `from_str` of a packet's printed form gives the packet back |
| Day13.CmpNat | 13/src/lib.rs:89 | `u32::cmp`: Less exactly when smaller, Equal exactly when equal |
| Day13.CmpRefl | 13/src/lib.rs:86-94 | every packet compares Equal to itself |
| Day13.CmpFlip | 13/src/lib.rs:86-94 | swapping the operands flips the ordering |
| Day13.NumberAsList | 13/src/lib.rs:91-92 | a number compares, on either side, as the list holding only it |
| Day13.EqualIsNotEquality | 13/src/lib.rs:69-94 | `cmp` says Equal for a number and its one-element list, although `eq` says they differ |
| Day13.PrefixIsLess | 13/src/lib.rs:90 | a list is Less than any strictly longer list it is a prefix of |
| Day13.CmpListDecidedAt | 13/src/lib.rs:90 | lists compare by their first unequal element, and by length when one runs out |
| Day13.TextPairs | 13/src/lib.rs:98-104 | at most one pair per block: blocks without a newline are dropped |
| Day13.ParsePairs | 13/src/lib.rs:100-106 | all pairs parse exactly when every packet does, one pair per block in order |
| Day13.IndexSumBound | 13/src/lib.rs:105-110 | the index sum is at most 1 + ... + n, with equality exactly when every pair is in order |
| Day13.SumOfRightOrderedPacketIndices | 13/src/lib.rs:97-111 | succeeds exactly when every pair parses, and is then the sum of the 1-based indices of pairs whose left packet is Less than the right |
| Day13.Insert | 13/src/lib.rs:124 | inserting into a sorted list keeps it sorted and adds exactly that packet |
| Day13.Sort | 13/src/lib.rs:124 | the result is sorted (no packet Greater than the next) and a permutation of the input |
| Day13.DividerPositions | 13/src/lib.rs:126-131 | every reported position is 1-based, increasing, and holds a divider |
| Day13.DividerPositionsComplete | 13/src/lib.rs:126-131 | every divider in the sorted list has its position reported |
| Day13.ParseLines | 13/src/lib.rs:117-121 | succeeds exactly when every non-empty line parses |
| Day13.DividerPacketIndices | 13/src/lib.rs:113-132 | succeeds exactly when every non-empty line parses |
| Day13.DividersFound | 13/src/lib.rs:113-132 | every divider passed in shows up at one of the reported positions of the sorted packets |
| Day13.ParseNumberExample | 13/src/lib.rs:141-145 | "42" is the number 42 |
| Day13.ParseListExamples | 13/src/lib.rs:146-157 | "[]" is the empty list, "[42]" the list of 42 |
| Day13.ParseTwoExample | 13/src/lib.rs:158-166 | "[42,43]" is the list of 42 and 43 |
| Day13.ParseNestedExample | 13/src/lib.rs:167-178 | "[42,[1,10,100]]" parses to the nested list |
| Day13.ParseTripleExample | 13/src/lib.rs:179-187 | "[[[]]]" parses to three nested lists |
| Day13.MissingBracket | 13/src/lib.rs:188-192 | "[[]" is an error |
| Day13.ExtraBracket | 13/src/lib.rs:193-197 | "[1[]" is an error |
| Day13.ExtraComma | 13/src/lib.rs:198-202 | "[1,2,,3]" is an error |
| Day13.CompareExamples | 13/src/lib.rs:203-233 | 42 < 43; [] = []; a list is Less than its extension; a number compares as its one-element list |
| Day13.SamplePair1 | 13/src/lib.rs:234-243 | the first sample pair is in order, and equal lists compare Equal |
| Day13.SamplePair2 | 13/src/lib.rs:244-253 | [[1],[2,3,4]] is Less than [[1],4] |
| Day13.SamplePair3 | 13/src/lib.rs:254-260 | [9] is Greater than [[8,7,6]] |
| Day13.SamplePair4 | 13/src/lib.rs:261-272 | [[4,4],4,4] is Less than [[4,4],4,4,4] |
| Day13.SamplePair5 | 13/src/lib.rs:273-279 | [7,7,7,7] is Greater than [7,7,7] |
| Day13.SamplePair6And7 | 13/src/lib.rs:280-293 | [] is Less than [3]; [[[]]] is Greater than [[]] |
| Day13.SamplePair8 | 13/src/lib.rs:294-300 | [1,[2,[3,[4,[5,6,7]]]],8,9] is Greater than the same with 0 for 7 |
| Day13.SampleIndexSum | 13/src/lib.rs:302-307 | the pairs in order among the eight sample pairs have indices summing to 13 |
| Day14.ParseCoord | 14/src/cave.rs:38-41 | a point is a `u32`, ',' and a `u32`; both coordinates fit in 32 bits; a missing number fails with `Digit` and a missing ',' with `Char`, at the input where that parser started |
| Day14.MoreCoords | 14/src/cave.rs:43-46 | the rest of `separated_list1`: each " -> " followed by a point is taken; anything else ends the list before the separator, never failing |
| Day14.ParseStructure | 14/src/cave.rs:43-46 | a path has at least one point, and it fails exactly when its first point fails, with that point's error |
| Day14.CoordOfText | 14/src/cave.rs:38-41 | a point written as "x,y" parses back to the same point, leaving what follows |
| Day14.MoreCoordsStep | 14/src/cave.rs:43-46 | one " -> " and a written point are taken by the separated list |
| Day14.TailTextFacts | 14/src/cave.rs:43-46 | a written path is its first point followed by text that does not start with a digit |
| Day14.MoreCoordsOfText | 14/src/cave.rs:43-46 | " -> " and a written path are read back as all of that path's points |
| Day14.MoreOfTail | 14/src/cave.rs:43-46 | what follows the first written point reads back as the remaining points |
| Day14.ParseStructureOfText | 14/src/cave.rs:43-46 | a path written out parses back to the same points with nothing left over |
| Day14.Structures | 14/src/cave.rs:125-133 | collecting the lines succeeds exactly when every line parses, and then holds each line's points in order |
| Day14.StructuresFirstError | 14/src/cave.rs:125-133 | when collecting fails, its error is that of the first line that does not parse |
| Day14.Windows | 14/src/cave.rs:130 | `tuple_windows`: one segment fewer than points, the i-th joining points i and i+1 |
| Day14.RegionAfter | 14/src/cave.rs:135-144 | the region spans the entry (500,0) and both ends of every segment, and its lower edge is the entry's row or some segment end's row |
| Day14.CoveredSnoc | 14/src/cave.rs:140-150 | one more segment covers exactly the cells of its box in addition to those covered before |
| Day14.FillRect | 14/src/cave.rs:145-149 | every cell of the box from `a` to `b`, both ends included, becomes rock and no other cell changes |
| Day14.DrawSegments | 14/src/cave.rs:135-151 | after the loop over all segments a cell is rock exactly when some segment's box covers it, else air, and the region is `RegionAfter` |
| Day14.CaveFromStr | 14/src/cave.rs:121-158 | a parse error is the error of the first bad line; otherwise a fresh 1000 by 200 cave whose rock is exactly the union of the segments' boxes, in either direction, with the region spanning entry and segments and no floor |
| Day14.Cave.Landing | 14/src/cave.rs:59-88 | where a grain from a cell comes to rest, trying down, then down-left, then down-right: a resting cell has all three cells below it taken; none only without a floor; with a floor the grain rests above it |
| Day14.Cave.Simulate | 14/src/cave.rs:59-88 | with a floor and sand at the entry nothing changes and the result is false; a grain that falls out leaves the cave as it was (false); otherwise exactly its landing cell becomes sand (true) |
| Day14.Cave.CreateFloor | 14/src/cave.rs:90-97 | the row two below the region becomes rock and the region's lower edge, no other cell changes, and the cave has ground |
| Day14.OnePath | 14/src/cave.rs:125-133 | a one-line input holding a two-point path collects to that path and one segment |
| Day14.OneSegment | 14/src/cave.rs:140-150 | a single segment covers exactly its box |
| Day14.TwoSegments | 14/src/cave.rs:140-150 | two segments cover exactly the union of their boxes |
| Day14.TwoPaths | 14/src/cave.rs:125-133 | two lines each holding a two-point path collect to both paths in order |
| Day14.TwoSegmentPaths | 14/src/cave.rs:130 | two two-point paths give their two segments in order |
| Day14.FromStrSingleLine | 14/src/cave.rs:242-250 | "10,2 -> 10,5": column 10, rows 0 to 7, is air, air, four rock, air, air |
| Day14.FromStrReversedLine | 14/src/cave.rs:252-260 | "42,20 -> 42,18": column 42, rows 15 to 21, is three air, three rock, air |
| Day14.CrossingCells | 14/src/cave.rs:262-275 | near the crossing of the two paths, a cell is covered exactly on column 10 or row 6 |
| Day14.TwoLinesInput | 14/src/cave.rs:262-275 | the test's input is two lines, each a written two-point path |
| Day14.CrossingCave | 14/src/cave.rs:262-275 | the cave read from those two lines has rock near the crossing exactly on column 10 and row 6 |
| Day14.FromStrTwoLines | 14/src/cave.rs:262-275 | "10,5 -> 10,7" and "10,6 -> 14,6": rows 5 to 7 of columns 10 to 14 are the vertical path plus the full row 6 |
| Day15.ManhattanMetric | 15/src/lib.rs:6-8 | the distance is zero exactly between equal points, symmetric, and obeys the triangle inequality |
| Day15.CoversNearerThanBeacon | 15/src/sensor.rs:17-21 | a sensor covers a cell iff it is neither the sensor nor its beacon and no farther from the sensor than the beacon; covered cells lie in the sensor's min/max box |
| Day15.SignedRun | 15/src/sensor.rs:28-30 | `-?\d+` takes an optional '-' and a maximal run of digits, and is followed by a non-digit |
| Day15.Field | 15/src/sensor.rs:28-30 | a literal part of the pattern and its group: the text starts with the literal and the group is non-empty |
| Day15.Groups | 15/src/sensor.rs:28-30 | the pattern's literal parts and groups in sequence yield one group per literal part |
| Day15.MatchAt | 15/src/sensor.rs:28-30 | a match of the sensor pattern captures four groups |
| Day15.LeftmostMatch | 15/src/sensor.rs:31-33 | the position found is at or after the start and the pattern matches there |
| Day15.LeftmostMatchIsLeftmost | 15/src/sensor.rs:31-33 | no earlier position matches, and when none is found no position matches at all |
| Day15.Group | 15/src/sensor.rs:35-38 | a group parses exactly when `str::parse::<i32>` accepts it, giving that value; otherwise the error is the kind of its `ParseIntError` |
| Day15.GroupOverflows | 15/src/sensor.rs:28-38 | a group the pattern captures (`-?\d+`) can fail to parse only by overflowing `i32`, one way or the other |
| Day15.ParseSensor | 15/src/sensor.rs:27-49 | "not in correct format" exactly when the pattern matches nowhere; a parsed sensor has `i32` positions and range equal to the Manhattan distance from sensor to beacon |
| Day15.Numerals | 15/src/sensor.rs:28-30 | one numeral per value, in order |
| Day15.GroupsOfText | 15/src/sensor.rs:28-30 | literal parts each followed by a numeral match back to exactly those numerals |
| Day15.MatchOfText | 15/src/sensor.rs:28-33 | a written sensor line matches at its start, capturing its four numerals |
| Day15.SensorTextIs | 15/src/sensor.rs:28-30 | a written sensor line is the pattern's literal parts with the four numerals in between |
| Day15.ParseSensorOfText | 15/src/sensor.rs:27-49 | a written sensor line with `i32` positions parses back to the sensor of those positions |
| Day15.ExampleText | 15/src/sensor.rs:56-59 | the test's line is the written form of sensor (2, 18) with beacon (-2, 15) |
| Day15.SensorFromStrExample | 15/src/sensor.rs:56-59 | that line parses, to a sensor whose range is 7 |
| Day15.TruncatedLineRejected | 15/src/sensor.rs:31-33 | "Sensor at x=2" matches nowhere and is not in the correct format |
| Day15.ScanBox | 15/src/lib.rs:26-35 | starting from (i32::MAX, i32::MAX) and (i32::MIN, i32::MIN), the box ends up around every sensor's box, each x bound being the start value or some sensor's |
| Day15.CountCovered | 15/src/lib.rs:37-40 | the count over columns lo..=hi never exceeds the number of columns |
| Day15.CountIsCoveredColumns | 15/src/lib.rs:37-40 | the count is exactly the number of columns of the row between the bounds that some sensor covers |
| Day15.ScanMissesNothing | 15/src/lib.rs:26-40 | for sensors built by `from_str`, every covered cell of a row lies between the scan's bounds |
| Day15.RowCoverage | 15/src/lib.rs:19-44 | the scan's count is the number of cells of the row that some sensor covers |
| Day15.ShortLineRejected | 15/src/sensor.rs:27-33 | a line shorter than the shortest text the pattern can match is not in the correct format |
| Day16Valve.FlowAsI32 | 16/src/valve.rs:27 | the `flow as i32` cast: the result is the flow reduced modulo 2^32 into the i32 range, and equals the flow exactly when it fits |
| Day16Valve.NewValve | 16/src/valve.rs:24-30 | a new valve keeps the name, casts the flow, and connects to exactly the listed names |
| Day16Valve.AlphaRun | 16/src/valve.rs:60 | the length of the longest prefix of ASCII letters: every character before it is a letter and the next one is not |
| Day16Valve.AlphaRunOfName | 16/src/valve.rs:60 | a name followed by a non-letter has an alphabetic run of exactly the name's length |
| Day16Valve.Alpha1 | 16/src/valve.rs:60 | nom's `alpha1` succeeds iff the input starts with a letter, splits it into a name and a rest that does not start with a letter, and otherwise fails with an Alpha error on the input |
| Day16Valve.Tagged | 16/src/valve.rs:60-61 | `tag` succeeds iff the input starts with the tag, and returns the remainder after it |
| Day16Valve.FlowRate | 16/src/valve.rs:61 | the flow rate parses iff nom's `u32` accepts the digits, and then fits in 32 bits |
| Day16Valve.Lead | 16/src/valve.rs:63-66 | the `alt` of the singular and plural lead-ins: the first one that matches is consumed, and neither matching is a Tag error |
| Day16Valve.MoreNames | 16/src/valve.rs:67 | the `", "`-separated tail of the name list extends what was already read with names only |
| Day16Valve.NameList | 16/src/valve.rs:67 | `separated_list1` succeeds iff the input starts with a letter and then yields at least one name, all of them names |
| Day16Valve.ParseValve | 16/src/valve.rs:57-72 | a parsed valve has a name and at least one connection, all names; input not starting with "Valve " is a Tag error |
| Day16Valve.Tunnels | 16/src/valve.rs:62-68 | the lead-in followed by the name list yields at least one name |
| Day16Valve.ValveFromStr | 16/src/valve.rs:56-77 | `from_str` succeeds exactly when the nom parser does, returns its valve and otherwise its error |
| Day16Valve.Alpha1OfName | 16/src/valve.rs:60 | `alpha1` reads back a name that is followed by a non-letter |
| Day16Valve.MoreNamesOfText | 16/src/valve.rs:67 | the separator loop reads back every name of a printed name list |
| Day16Valve.NameListOfText | 16/src/valve.rs:67 | `separated_list1` reads back a printed, non-empty name list and stops at the rest |
| Day16Valve.LeadOfText | 16/src/valve.rs:63-66 | both lead-ins are accepted and consumed |
| Day16Valve.TunnelsOfText | 16/src/valve.rs:62-68 | the tunnel clause reads back every connection, in either grammatical number |
| Day16Valve.ParseValveText | 16/src/valve.rs:57-72 | printing a valve line and parsing it gives back the name, the flow and the connections |
| Day16Valve.ValveFromText | 16/src/valve.rs:56-77 | `from_str` of a printed valve line returns that valve |
| Day16Valve.ThreeConnections | 16/src/valve.rs:42-44 | a printed line with three tunnels gives a valve that connects to each of the three names and to no other |
| Day16Valve.ValveFromStrExample | 16/src/valve.rs:84-93 | the test `valve_from_str`: "Valve A has flow rate=42; tunnels lead to valves B, C, D" is valve A with flow 42 connected to B, C and D |
| Day16Network.NewPath | 16/src/network.rs:17-22 | a new path holds only its start and has distance 0 |
| Day16Network.Append | 16/src/network.rs:23-28 | appending keeps the old valves, adds the new one at the end and keeps the distance equal to the number of steps |
| Day16Network.Cmp | 16/src/network.rs:33-42 | paths are ordered by distance alone: Less iff shorter, Greater iff longer |
| Day16Network.CmpPreorder | 16/src/network.rs:33-42 | the path order is antisymmetric and transitive |
| Day16Network.CmpIgnoresValves | 16/src/network.rs:33-42 | two different paths of the same length compare Equal |
| Day16Network.SimpleChild | 16/src/network.rs:88-95 | extending a simple path by an unvisited neighbour of its tip gives a simple path |
| Day16Network.DistinctFits | 16/src/network.rs:89-91 | a path without repeated valves is no longer than the number of valves, so the search is finite |
| Day16Network.Extend | 16/src/network.rs:88-95 | pushing the children of a path adds exactly the extensions by connections not yet on the path |
| Day16Network.Record | 16/src/network.rs:78-85 | `entry().and_modify().or_insert()`: the key gets the new path if it was absent or the new one is strictly shorter, otherwise the old one; other keys are unchanged |
| Day16Network.FrontierStep | 16/src/network.rs:70-95 | one pop-and-push keeps the search invariant: every queued path is simple and every simple path is popped or reachable from the queue |
| Day16Network.RecordedStep | 16/src/network.rs:73-86 | after a pop the entry for the pair is the shortest of the popped paths ending at the target |
| Day16Network.Exhausted | 16/src/network.rs:70 | once the queue is empty, every simple path from the start has been popped |
| Day16Network.SearchDone | 16/src/network.rs:69-96 | at the end, the pair has an entry iff the target is connected to the start, and the entry is a shortest path |
| Day16Network.LongestExists | 16/src/network.rs:70 | a non-empty max-heap has an element no other one exceeds, which `pop` returns |
| Day16Network.Explore | 16/src/network.rs:69-96 | the search from one start adds an entry for the pair iff the target is reachable, holding a shortest path, and leaves every other entry alone |
| Day16Network.ParseLines | 16/src/network.rs:54-56 | every line is parsed as a valve |
| Day16Network.Collect | 16/src/network.rs:57-58 | collecting into a map succeeds iff every line parsed, and keys each valve by its name |
| Day16Network.CollectError | 16/src/network.rs:58 | the collection fails with the error of the first line that does not parse |
| Day16Network.CollectStored | 16/src/network.rs:57-58 | every parsed valve is in the map under its name, and the last one wins |
| Day16Network.Pairs | 16/src/network.rs:61-65 | the pairs are exactly the ordered pairs of distinct valves with the first before the second |
| Day16Network.ShortestPaths | 16/src/network.rs:60-97 | after the loop over all pairs, every pair of valves has an entry iff they are connected, and it is a shortest path |
| Day16Network.NetworkFromStr | 16/src/network.rs:53-103 | parsing fails iff a line fails, with its error; otherwise the network is the valves by name and the paths are all shortest |
| Day16Network.PathBetween | 16/src/network.rs:116-121 | a path is found iff the pair is stored in either order, and it is the stored one |
| Day16Network.PathBetweenShortest | 16/src/network.rs:116-121 | looking up two valves in either order succeeds iff they are distinct, known and connected, and returns a shortest path between them |
| Day16Network.SampleValves | 16/src/valve.rs:103-114 | the sample's ten valves, keyed by name and closed under their tunnels |
| Day16Network.OneStep | 16/src/network.rs:140-143 | neighbouring valves are at distance 1 |
| Day16Network.TwoSteps | 16/src/network.rs:144-147 | valves two tunnels apart, and not neighbours, are at distance 2 |
| Day16Network.SampleFromAA | 16/src/network.rs:140-171 | the sample tests from "AA": "BB", "DD" and "II" are at distance 1 |
| Day16Network.SampleAAToCC | 16/src/network.rs:144-147 | the sample test: "AA" to "CC" is 2 |
| Day16Network.SampleAAToJJ | 16/src/network.rs:172-175 | the sample test: "AA" to "JJ" is 2 |
| Day16.FlowSumRemove | 16/src/lib.rs:26-28 | the sum over the open valves splits off any one of them |
| Day16.FlowSumAdd | 16/src/lib.rs:26-28 | opening one more valve adds its flow to the sum |
| Day16.Initial | 16/src/lib.rs:61-69 | the initial state is at time 0, pressure 0, at the given valve, with only that valve open |
| Day16.MoveEffects | 16/src/lib.rs:29-60 | staying advances one minute in place, travelling one minute to the valve, travelling and opening two minutes and adds the valve to the open set; each records the current flow as pressure |
| Day16.MoveOf | 16/src/lib.rs:73-83 | each move for a connection goes to it, later, and is one of the two guarded kinds |
| Day16.OptionsMembers | 16/src/lib.rs:73-83 | the options gathered over a list of connections are exactly the moves of those connections |
| Day16.Possibilities | 16/src/lib.rs:71-88 | the loop builds the options described by the specification of the successors |
| Day16.PossibilitiesComplete | 16/src/lib.rs:73-83 | before minute 30 travelling to each connection is an option; before minute 29 travelling to and opening a closed connection with positive flow is one too |
| Day16.PossibilitiesStay | 16/src/lib.rs:84-86 | a state with no connection or at minute 30 or later has staying as its only option; otherwise every option goes along a connection |
| Day16.PossibilitiesSound | 16/src/lib.rs:71-88 | every option is staying or one of the guarded moves along a connection |
| Day16.PossibilitiesLater | 16/src/lib.rs:71-88 | every option lies strictly later in time and stays within the network |
| Day16.LeavesFinal | 16/src/lib.rs:94-110 | every state the depth-first search ends at is at minute 30 or later |
| Day16.PopExpand | 16/src/lib.rs:109 | expanding the top of the stack keeps the set of final states still to be reached |
| Day16.ExpandWork | 16/src/lib.rs:109 | expanding the top of the stack decreases the remaining work, so the search ends |
| Day16.Best | 16/src/lib.rs:90-112 | the result is at least the start's pressure and every reachable final state's pressure, and it is the pressure of the start or of one such state, at the valve returned |
| Day16.FindMaxReleasablePressure | 16/src/lib.rs:129-138 | the answer bounds the pressure of every final state reachable from "AA" and is 0 or attained by one of them |
| Day16.SampleTunnels | 16/src/valve.rs:103-114 | the sample's "AA" leads to "BB", "DD" and "II", "BB" to "AA" and "CC", with flows 0, 13 and 2 |
| Day16.SampleFromAA | 16/src/lib.rs:148-163 | the test `sample_state_possibilities_from_a`: the options from "AA" go to "BB", "DD" and "II", and to each of them |
| Day16.SampleFlowAtBB | 16/src/lib.rs:165-184 | with "AA" and "BB" open the sample releases 13 |
| Day16.SampleFromBB | 16/src/lib.rs:165-184 | from "BB" after opening it, going to "CC" and going back to "AA" are both options with pressure 13 |
| Day17.ShapeOrderRepeats | 17/src/lib.rs:223-237 | five `next_cycle` steps return to the same shape; the cycle is Horizontal, Plus, Bend, Vertical, Block |
| Day17.OffsetsInBox | 17/src/lib.rs:31-48 | every shape's offsets lie in a 4×4 box, and the first one is on the origin's row |
| Day17.MovedCoords | 17/src/lib.rs:50-59 | moving a rock (push or fall_down) moves each of its cells by the same vector |
| Day17.Highest | 17/src/lib.rs:93-100 | the highest row of the settled cells: every cell is at or below it, one cell is on it, 0 for no cells (`unwrap_or_default`) |
| Day17.TopOf | 17/src/lib.rs:93-100 | visiting every settled cell yields exactly `Highest` |
| Day17.SettleKeepsLayout | 17/src/lib.rs:88-101 | a landed rock joins the settled rocks, everything stays inside columns 0..6 above the floor, and `max` follows the new highest row |
| Day17.FallKeepsFlight | 17/src/lib.rs:88-105 | a rock that does not land falls one row and still overlaps nothing and stays inside the chamber |
| Day17.PushKeepsFlight | 17/src/lib.rs:107-116 | a push that hits nothing keeps the rock inside the columns and off the settled rocks |
| Day17.SpawnIsInFlight | 17/src/lib.rs:77-82 | a new rock at (2, max) lies inside the chamber and above every settled rock |
| Day17.EmptyChamber | 17/src/lib.rs:25-29 | the default rock in the empty chamber is in flight |
| Day17.Chamber.constructor | 17/src/lib.rs:67-75 | an empty chamber, the first shape at (2, 3), max 3 |
| Day17.Chamber.Spawn | 17/src/lib.rs:77-82 | the next shape of the cycle at (2, max) |
| Day17.Chamber.Gravity | 17/src/lib.rs:88-105 | lands (true) iff a cell is on row 0 or above a settled cell; then the cells join the settled rocks and max = highest + 4; otherwise the rock moves down one row and nothing else changes |
| Day17.Chamber.Push | 17/src/lib.rs:107-116 | the rock moves by the jet unless some cell would leave columns 0..6 or hit a settled cell, in which case nothing changes |
| Day17.Chamber.MaxHeight | 17/src/lib.rs:117-125 | 1 + the highest settled row read as u32; for rows in the i32 range it is above every settled cell |
| Day17.Vector | 17/src/lib.rs:171-178 | jets are horizontal unit vectors |
| Day17.JetOf | 17/src/lib.rs:179-191 | '>' is Right, '<' is Left, any other character is the error naming it |
| Day17.Stream | 17/src/lib.rs:164-169 | Ok iff every character is '<', '>' or a newline; otherwise the error names the first other character |
| Day17.StreamOfJetText | 17/src/lib.rs:164-169 | reading the text of a list of jets gives the jets back |
| Day17.StreamRejectsLetter | 17/src/lib.rs:213-216 | ">>><<<x>>" is an error about 'x' |
| Day17.GravityExample | 17/src/lib.rs:218-247 | the default chamber is empty; gravity answers false, false, false, true and then the rocks are not empty |
| Day17.FlatRockLands | 17/src/lib.rs:239-247 | the first rock in an empty chamber lands exactly on row 0 |
| Day17.PushSideways | 17/src/lib.rs:249-256 | pushes left then right give origins (1, 3) and (2, 3) |
| Day17.PushAgainstWall | 17/src/lib.rs:258-264 | a rock at column 0 is not pushed left |
| Day17.PushIntoRocks | 17/src/lib.rs:266-278 | settled cells beside the rock stop pushes both ways |
| Day17.RocksBeside | 17/src/lib.rs:266-278 | cells at (1, 3) and (6, 3) block the first rock's pushes |
| Day17.PushAndFall | 17/src/lib.rs:286-288 | a push then gravity keeps the rock in flight, or lands it with the chamber laid out |
| Day17.DropRocks | 17/src/lib.rs:280-298 | the cycling loop ends after max(count, 1) rocks have landed (none for no jets) with the chamber laid out |
| Day18.Neighbour | 18/src/lib.rs:14-21 | the cell one step along a direction shares a face with the cell |
| Day18.DirectionTo | 18/src/lib.rs:14-21 | every face-sharing cell lies in one of the six directions |
| Day18.Opposite | 18/src/lib.rs:14-21 | each direction has a different one that leads back |
| Day18.NeighboursDistinct | 18/src/lib.rs:14-21 | the six directions lead to six different cells |
| Day18.Boundaries | 18/src/lib.rs:71-81 | no face for a cell outside the droplet; otherwise the uncovered faces, which with the covered ones make six |
| Day18.SidesComplement | 18/src/lib.rs:75-80 | each direction counts as covered or uncovered, never both |
| Day18.SetSumRemove | 18/src/lib.rs:24-26 | the sum over the set does not depend on the order the set yields its elements |
| Day18.SurfaceAreaCountsContacts | 18/src/lib.rs:24-26 | the surface area plus the covered faces is six per cube, so at most six per cube |
| Day18.SingleCubeArea | 18/src/lib.rs:24-26 | a lone cube shows six faces |
| Day18.TwoAdjacentCubes | 18/src/lib.rs:24-26 | two cubes side by side show ten faces |
| Day18.Bounds | 18/src/lib.rs:32-45 | (1,1,1)/(1,1,1) for no cubes; otherwise every cube lies in [min, max) and a cube touches each of the six faces |
| Day18.Pushed | 18/src/lib.rs:57-65 | exactly the eligible neighbours not yet in the region are pushed |
| Day18.RegionAround | 18/src/lib.rs:47-69 | the region holds the start, only cells in the box on the start's side of the lava, is closed under steps, and lies inside every closed set holding the start |
| Day18.ParseCube | 18/src/lib.rs:88-93 | a line gives a cube only of i32 coordinates |
| Day18.FromStr | 18/src/lib.rs:86-98 | never fails; every cube comes from some line |
| Day18.InFromStr | 18/src/lib.rs:86-98 | a cube is in the droplet exactly when some line reads as it |
| Day18.ParseCubeText | 18/src/lib.rs:88-93 | a written cube reads back as itself |
| Day18.ScanRoundTrip | 18/src/lib.rs:86-98 | a scan written one cube per line reads back as the set of its cubes |
| Day18.JunkFieldSkipped | 18/src/lib.rs:88-93 | a field that is no number is dropped ("1,a,2,3" gives (1,2,3)); a line of two numbers gives no cube |
| Day18.SingleCubeExample | 18/src/lib.rs:117-124 | "1,2,3" spans the box (1,2,3) to (2,3,4) |
| Day18.TwoCubesExample | 18/src/lib.rs:134-140 | "1,1,1\n2,1,1" has surface area 10 |
| Day18.Unvisited | 18/src/lib.rs:57-65 | the neighbours pushed from a cell are exactly its face-sharing cells that are in the box, on the start's side of the lava and not yet in the region |
| Day18.Numbers | 18/src/lib.rs:88-93 | the fields that read as i32 numbers, in order; fields that do not are dropped |
| Day18.VolumeOfScan | 18/src/lib.rs:86-98 | a text of written i32 cubes, one per line, reads as exactly the set of those cubes |
| Day19Blueprint.AffordableRobots | 19/src/blueprint.rs:38-50 | a robot kind is affordable iff the stock covers every one of its costs |
| Day19Blueprint.MaxCost | 19/src/blueprint.rs:59-63 | the largest cost of a material over a list of robots: an upper bound attained by one of them, 0 for no robots |
| Day19Blueprint.MaxRobotsNeededFor | 19/src/blueprint.rs:58-64 | the number of robots of a material needed is the largest cost of that material over the four robot kinds, attained by one of them |
| Day19Blueprint.AlphaLength | 19/src/blueprint.rs:78 | `take_while1(char::is_alphabetic)` stops at the first non-letter |
| Day19Blueprint.TakeAlphabetic1 | 19/src/blueprint.rs:78 | a successful take splits the input into a non-empty word and the rest |
| Day19Blueprint.ParseMaterial | 19/src/blueprint.rs:77-92 | a material parses iff the leading word is one of "ore", "clay", "obsidian" and "geode", and it is the material of that name |
| Day19Blueprint.ParseCost | 19/src/blueprint.rs:93-98 | a parsed cost is a `u32` amount and consumes input |
| Day19Blueprint.CostTable | 19/src/blueprint.rs:101-104 | the cost table is 0 for a material not listed and holds the last amount listed for every other |
| Day19Blueprint.ParseCosts | 19/src/blueprint.rs:99-106 | the loop over the parsed list builds the table `Costs` describes |
| Day19Blueprint.ParseRobot | 19/src/blueprint.rs:108-115 | a parsed robot consumes input |
| Day19Blueprint.Whitespace | 19/src/blueprint.rs:71-75 | the separator consumes at least one character |
| Day19Blueprint.RobotTable | 19/src/blueprint.rs:122-131 | the robot table has one robot per material, mining it; a kind not parsed is the free default and a parsed kind holds its last description |
| Day19Blueprint.ParseBlueprint | 19/src/blueprint.rs:117-134 | the parser's loop over the robots builds the blueprint `BlueprintOf` describes |
| Day19Blueprint.FillRobots | 19/src/blueprint.rs:122-131 | the loop filling the default robots yields the robot table |
| Day19Blueprint.FromStr | 19/src/blueprint.rs:136-145 | `from_str` succeeds iff the parser does and returns its blueprint |
| Day19Blueprint.MaterialOfName | 19/src/blueprint.rs:77-92 | every material's name followed by a non-letter parses back to that material |
| Day19Blueprint.CostOfText | 19/src/blueprint.rs:93-98 | a printed cost parses back |
| Day19Blueprint.MoreCostsOfText | 19/src/blueprint.rs:100 | the " and "-separated costs of a printed list parse back, stopping at the full stop |
| Day19Blueprint.CostListOfText | 19/src/blueprint.rs:100 | a printed cost list parses back |
| Day19Blueprint.RobotOfText | 19/src/blueprint.rs:108-115 | a printed robot recipe parses back to its robot |
| Day19Blueprint.MoreRobotsOfText | 19/src/blueprint.rs:128 | the whitespace-separated recipes parse back in order |
| Day19Blueprint.RobotListOfText | 19/src/blueprint.rs:128 | a printed list of recipes parses back to its robots |
| Day19Blueprint.BlueprintOfText | 19/src/blueprint.rs:117-134 | a printed blueprint parses back to its id and the robot table of its recipes |
| Day19Blueprint.Recipes | 19/src/blueprint.rs:29-32 | a blueprint describes four recipes, one per material, with its costs |
| Day19Blueprint.ParseDescribe | 19/src/blueprint.rs:117-134 | parsing the description of any blueprint with `u32` costs and id gives back that blueprint and consumes everything |
| Day19Blueprint.FullCostTable | 19/src/blueprint.rs:101-104 | listing every material's cost rebuilds the same table |
| Day19Blueprint.FullRobotTable | 19/src/blueprint.rs:122-131 | a full table of robots is kept as it is |
| Day19Blueprint.OneOreRobotFromStr | 19/src/blueprint.rs:151-171 | the test `blueprint_from_str`: "Blueprint 0: Each ore robot costs 1 ore." (for any `u32` cost) has id 0, the ore robot at that cost and the other robots free |
| Day19Blueprint.SampleAffordsClay | 19/src/blueprint.rs:221-224 | the first sample blueprint affords only a clay robot with 3 ore |
| Day19Blueprint.SampleAffordsOre | 19/src/blueprint.rs:225-228 | with 4 ore it affords clay and ore robots |
| Day19Blueprint.SampleAffordsObsidian | 19/src/blueprint.rs:229-232 | with 4 ore and 20 clay it affords clay, ore and obsidian robots |
| Day19Blueprint.SampleAffordsGeode | 19/src/blueprint.rs:233-236 | with 2 ore and 10 obsidian it affords clay and geode robots |
| Day19.MaxGeodePotential | 19/src/lib.rs:61-64 | the potential `t * (t - 1) / 2` is never negative and its division by 2 is exact |
| Day19.PotentialFits | 19/src/lib.rs:61-64 | with at most 46341 minutes left the `i32` product `t * (t - 1)` and the potential fit in an `i32` |
| Day19.BuySpec | 19/src/lib.rs:78-96 | buying takes a minute, pays the robot's costs out of the stock plus this minute's production, and adds one robot of that kind only |
| Day19.WaitSpec | 19/src/lib.rs:98-110 | waiting takes a minute and adds each robot's production to the stock |
| Day19.Worthwhile | 19/src/lib.rs:113-120 | a robot is considered iff it is affordable and, unless it mines geodes, fewer robots of its kind exist than any recipe needs |
| Day19.WorthwhileMembers | 19/src/lib.rs:113-120 | removing the saturated kinds from the affordable set yields exactly the worthwhile robots |
| Day19.WorthwhileCanPay | 19/src/lib.rs:78-96 | a worthwhile robot can be paid for without the `usize` subtraction underflowing |
| Day19.PossibleOptions | 19/src/lib.rs:112-127 | the options are never empty and end with waiting |
| Day19.OptionsAre | 19/src/lib.rs:112-127 | a state is an option iff it is waiting or buying a worthwhile robot |
| Day19.WaitCost | 19/src/lib.rs:45-64 | waiting lowers the bound on the geodes by the potential of one minute |
| Day19.BuyCost | 19/src/lib.rs:45-64 | buying lowers the bound by the robot's geode cost plus, for any robot but a geode robot, one minute's potential |
| Day19.StepCost | 19/src/lib.rs:112-127 | every option is one minute later and never raises the bound on the geodes |
| Day19.GoalCost | 19/src/lib.rs:45-58 | at the time limit the bound is exactly the geodes opened |
| Day19.RunsDescend | 19/src/lib.rs:45-64 | along every schedule the bound never rises, so the best-first search finds the best schedule first |
| Day19.Solve | 19/src/lib.rs:129-142 | when the search answers, the answer is the geodes of a best schedule from the start at minute 2 to the limit, as a `u32`; the frontier runs dry only for a limit outside 2 to 46343 |
| Day19.WaitingWalk | 19/src/lib.rs:98-110 | waiting from any state without geodes, with at most 46341 minutes left, is a schedule to the limit |
| Day19.WaitingRun | 19/src/lib.rs:129-140 | for every limit from 2 to 46343 some schedule reaches the goal, with every bound and the `i32` product inside it in range |
| Day19.RunGeodesBounded | 19/src/lib.rs:45-58 | a schedule whose bound is no greater than the found one opens no more geodes |
| Day19.RunClock | 19/src/lib.rs:98-110 | every step of a schedule is one minute |
| Day19.QualityLevel | 19/src/blueprint.rs:66-68 | the quality level is the id times the geodes of a best schedule |
| Day19.BuyOreRobot | 19/src/lib.rs:174-194 | the test `buy_ore_robot`: buying an ore robot costing 1 from 17 ore advances a minute and leaves 16 |
| Day19.WaitIsOption | 19/src/lib.rs:125 | waiting is always an option |
| Day19.OptionsIncludeWaiting | 19/src/lib.rs:196-217 | the test `possible_options_include_doing_nothing` |
| Day19.WaitExample | 19/src/lib.rs:98-110 | waiting with one ore robot and no ore gives one ore a minute later |
| Day19.OptionsIncludeBuying | 19/src/lib.rs:219-243 | the test `possible_options_include_to_buy_robot_if_affordable` |
| Day19.BuyExample | 19/src/lib.rs:219-243 | buying an ore robot at 3 ore from 3 ore and one robot leaves 1 ore and two robots |
| Day19Solver.MaxIndex | 19/src/solver.rs:37 | the heap's pop returns an element of greatest cost; the model takes the first such |
| Day19Solver.Remove | 19/src/solver.rs:37 | popping removes one element and keeps every other |
| Day19Solver.RelaxAllSpec | 19/src/solver.rs:48-59 | relaxing the candidates records for each a distance no greater than before and no greater than its cost, pushes exactly those whose cost improved, and records their parent |
| Day19Solver.PopKeeps | 19/src/solver.rs:37-47 | popping a non-goal state keeps the search invariant |
| Day19Solver.RelaxKeeps | 19/src/solver.rs:50-58 | relaxing one candidate keeps the search invariant |
| Day19Solver.OnFrontier | 19/src/solver.rs:37-59 | every schedule from the start to a goal has a state on the frontier |
| Day19Solver.GoalIsBest | 19/src/solver.rs:37-46 | a popped state of greatest cost bounds the final cost of every schedule to a goal whose costs never rise |
| Day19Solver.NoGoalLeft | 19/src/solver.rs:62 | when the frontier is empty no schedule from the start reaches a goal |
| Day19Solver.A.constructor | 19/src/solver.rs:20-25 | a new solver has no parents and an empty frontier |
| Day19Solver.A.Solve | 19/src/solver.rs:27-63 | a path found leads from the start to a goal along candidates, linked by the recorded parents, with a final cost no lower than any schedule whose costs never rise; an exhausted frontier means no goal is reachable |
| Day19Solver.A.Expand | 19/src/solver.rs:48-59 | the loop over the candidates performs the relaxation `RelaxAll` describes and keeps the search invariant |
| Day19Solver.A.TracePath | 19/src/solver.rs:39-45 | following the parents back from a reached state gives a schedule from the start to it |
| Day20.Idx | 20/src/rb.rs:41-47 | `idx` with Rust's truncating `%`: a non-negative index is reduced modulo the size, a negative one counts back from the size |
| Day20.IdxMod | 20/src/rb.rs:49-56 | `idxmod` does the same modulo one less than the size, and never exceeds the shortened buffer's length |
| Day20.ShiftedPermutes | 20/src/rb.rs:61-74 | a shift only reorders the buffer |
| Day20.ShiftedMoves | 20/src/rb.rs:66-73 | after a non-zero shift the moved element sits at `idxmod(index + amount)` and the others keep their relative order |
| Day20.ShiftedPeriodic | 20/src/rb.rs:49-56 | positive amounts that agree modulo the size minus one shift alike |
| Day20.SameTarget | 20/src/rb.rs:66-73 | amounts with the same target place give the same shift |
| Day20.RingBuffer.FromIter | 20/src/rb.rs:9-17 | a new ring buffer holds the items and its modulus is their count |
| Day20.RingBuffer.Get | 20/src/rb.rs:24-26 | indexing wraps around: index `i` reads the element at `i` modulo the size |
| Day20.RingBuffer.Shift | 20/src/rb.rs:61-74 | the buffer after `shift` is the shifted contents, and a zero amount changes nothing |
| Day20.Enumerate | 20/src/lib.rs:19 | each value is paired with its place in the file |
| Day20.TagPosition | 20/src/lib.rs:42-46 | `position` returns the first place carrying the tag |
| Day20.MixingPermutes | 20/src/lib.rs:38-51 | after any number of steps the buffer is a permutation of the enumerated file |
| Day20.MixingHasTags | 20/src/lib.rs:42-46 | every tag stays in the buffer, so the `unwrap` never panics |
| Day20.Values | 20/src/lib.rs:53-55 | the values are the buffer's values in order |
| Day20.ZeroPosition | 20/src/lib.rs:62-66 | the first place holding 0 |
| Day20.Coords | 20/src/lib.rs:61-73 | the coordinates are the values 1000, 2000 and 3000 places after the zero, wrapping around |
| Day20.CoordsOfRotation | 20/src/lib.rs:61-73 | the coordinates do not depend on where the ring starts, when 0 occurs once |
| Day20.Sequence.FromIter | 20/src/lib.rs:14-23 | a new sequence keeps the numbers, starts at step 0 with the enumerated buffer |
| Day20.Sequence.MixStep | 20/src/lib.rs:38-51 | `mix_step` reports done iff every element has moved and then changes nothing; otherwise it advances by one step, keeping the buffer equal to the mixing of that many steps |
| Day20.Sequence.Mix | 20/src/lib.rs:57-59 | `mix` ends with every element moved once, in file order |
| Day20.ParseNumbers | 20/src/lib.rs:29-32 | the file parses iff every line is an `i32`, giving one number per line; otherwise the error is the `ParseIntError` message of the first line that does not parse |
| Day20.FromStr | 20/src/lib.rs:25-35 | `from_str` succeeds iff every line parses, and returns a fresh sequence at step 0 over those numbers; otherwise it returns the parse error |
| Day20Examples.IndexingOverFreqWrapsAround | 20/src/rb.rs:81-86 | the test: indices 4 and 21 of [1, 2, 3, 4] read 1 and 2 |
| Day20Examples.ShiftingOnePlaceRight | 20/src/rb.rs:88-93 | the test: shifting the first of [1, 2, 3] by 1 gives [2, 1, 3] |
| Day20Examples.ShiftingOnePlaceLeft | 20/src/rb.rs:95-100 | the test: shifting the last of [1, 2, 3] by -1 gives [1, 3, 2] |
| Day20Examples.ShiftingMultiplePlacesRight | 20/src/rb.rs:102-107 | the test: [1..5] shifting index 1 by 3 gives [2, 1, 3, 4, 5] |
| Day20Examples.ShiftingMultiplePlacesLeft | 20/src/rb.rs:109-114 | the test: [1..5] shifting index 3 by -2 gives [1, 4, 2, 3, 5] |
| Day20Examples.ShiftingRightWithOverflow | 20/src/rb.rs:116-121 | the test: [1..5] shifting index 2 by 3 gives [1, 3, 2, 4, 5] |
| Day20Examples.ShiftingRightWithUnderflow | 20/src/rb.rs:123-128 | the test: [1..5] shifting index 2 by -3 gives [1, 2, 4, 3, 5] |
| Day20Examples.ShiftingAtBoundary | 20/src/rb.rs:130-135 | the test: [1..5] shifting index 2 by -6 gives [1, 2, 4, 5, 3] |
| Day20Examples.SampleMix1 | 20/src/lib.rs:95-98 | the test `sample_mix_step1`: [2, 1, -3, 3, -2, 0, 4] |
| Day20Examples.SampleMix2 | 20/src/lib.rs:100-103 | the test `sample_mix_step2`: [1, -3, 2, 3, -2, 0, 4] |
| Day20Examples.SampleMix3 | 20/src/lib.rs:105-108 | the test `sample_mix_step3`: [1, 2, 3, -2, -3, 0, 4] |
| Day20Examples.SampleMix4 | 20/src/lib.rs:110-113 | the test `sample_mix_step4`: [1, 2, -2, -3, 0, 3, 4] |
| Day20Examples.SampleMix5 | 20/src/lib.rs:115-118 | the test `sample_mix_step5`: [-2, 1, 2, -3, 0, 3, 4] |
| Day20Examples.SampleMix6 | 20/src/lib.rs:120-123 | the test `sample_mix_step6`: [-2, 1, 2, -3, 0, 3, 4] |
| Day20Examples.SampleMix7 | 20/src/lib.rs:125-128 | the test `sample_mix_step7`: [-2, 1, 2, -3, 4, 0, 3] |
| Day20Examples.SampleCoordinates | 20/src/lib.rs:130-138 | the test `sample_coordinates`: the mixed sample's coordinates are (4, -3, 2) |
| Day20Examples.LargeValues | 20/src/lib.rs:140-145 | the test `large_values`: mixing [1, 5, -2, 0] leaves [1, 5, -2, 0] |
| Day20Examples.LargerValues | 20/src/lib.rs:147-152 | the test `larger_values`: one step on [12, 1, 2, 3] leaves it unchanged |
| Day20Examples.DuplicateMix1 | 20/src/lib.rs:154-158 | the test `duplicate_values`, step 1: [2, 1, 0, 3, 1, 2, 3] |
| Day20Examples.DuplicateMix2 | 20/src/lib.rs:159-160 | step 2: [1, 0, 2, 3, 1, 2, 3] |
| Day20Examples.DuplicateMix3 | 20/src/lib.rs:161-162 | step 3: [0, 1, 2, 3, 1, 2, 3] |
| Day20Examples.DuplicateMix4 | 20/src/lib.rs:163-164 | step 4: [0, 1, 2, 3, 1, 2, 3] |
| Day20Examples.DuplicateMix5 | 20/src/lib.rs:165-166 | step 5: [0, 1, 2, 3, 2, 1, 3] |
| Day20Examples.DuplicateMix6 | 20/src/lib.rs:167-168 | step 6: [2, 0, 1, 2, 3, 1, 3] |
| Day20Examples.DuplicateMix7 | 20/src/lib.rs:169-170 | step 7: [2, 0, 1, 3, 2, 3, 1] |
| Day21.Inverses | 21/src/monkey.rs:21-28 | `call` with Minus undoes Plus, and with Divide undoes Times for a non-zero divisor (division truncating toward zero) |
| Day21.Call | 21/src/monkey.rs:21-28 | `call`; a division truncates toward zero: quotient times divisor plus a remainder smaller than the divisor, carrying the dividend's sign, gives back the dividend |
| Day21.Name | 21/src/monkey.rs:45-56 | `name()` of a monkey with a lowercase name is what `parse_id` reads at the start of its written line |
| Day21.ParseId | 21/src/monkey.rs:66-68 | succeeds iff the text starts with a letter a–z; takes the longest such run, and otherwise fails with TakeWhile1 at the input |
| Day21.Expect | 21/src/monkey.rs:69-71 | `char(c)` consumes exactly one `c` and fails with Char otherwise |
| Day21.ParseOperation | 21/src/monkey.rs:72-83 | succeeds iff the text starts with one of `+ - * /`, the operator written back is that character; failure is the last alternative's Char error |
| Day21.ParseNumber | 21/src/monkey.rs:89 | nom's `i64`: succeeds exactly when a signed decimal in the i64 range starts the text, else a Digit error |
| Day21.ParseLone | 21/src/monkey.rs:85-91 | a parsed lone monkey has a lowercase name (the leading letter run) and a number in the i64 range |
| Day21.ParseMath | 21/src/monkey.rs:93-103 | a parsed math monkey's name is the leading letter run, and its name and both operands are lowercase names |
| Day21.ParseOperands | 21/src/monkey.rs:97-102 | both operand names read are lowercase names |
| Day21.ParseMonkey | 21/src/monkey.rs:105-107 | the lone parser's success wins; otherwise the math parser's result, its error included |
| Day21.MonkeyFromStr | 21/src/monkey.rs:44-63 | fails iff both parsers fail; a parsed monkey's `name()` is the line's leading letter run, and its operands are lowercase names |
| Day21.IdOfName | 21/src/monkey.rs:66-68 | a name followed by a non-letter is read back whole, leaving the rest |
| Day21.LoneOfText | 21/src/monkey.rs:85-91 | `name: n` written out parses back to that lone monkey for every lowercase name and i64 number |
| Day21.LoneRejectsName | 21/src/monkey.rs:85-107 | the lone parser fails when a letter follows `name: `, so math lines fall through to the math parser |
| Day21.OperandsOfText | 21/src/monkey.rs:97-102 | `a op b` written out is read back as those operands and that operator |
| Day21.MathParsesText | 21/src/monkey.rs:93-103 | `name: a op b` written out is parsed whole by the math parser |
| Day21.MathOfText | 21/src/monkey.rs:93-107 | `name: a op b` written out parses back to that math monkey |
| Day21.MonkeyOfText | 21/src/monkey.rs:58-107 | every monkey with lowercase names and an i64 number parses back from its written form |
| Day21.LoneFromStrExample | 21/src/monkey.rs:113-123 | "abcd: 42" is the lone monkey abcd with 42 |
| Day21.MathFromStrExample | 21/src/monkey.rs:125-137 | "abcd: efgh + ijkl" is the math monkey abcd = efgh + ijkl |
| Day21.CapitalNameRejected | 21/src/monkey.rs:66-107 | a name with a capital letter is rejected with the math parser's TakeWhile1 error at the start |
| Day22.Facing | 22/src/lib.rs:16-22 | the facing of a direction is its discriminant, Right 0, Down 1, Left 2, Up 3 |
| Day22.Unit | 22/src/lib.rs:32-41 | each direction is a unit step along exactly one axis, with y pointing down |
| Day22.NextCycle | 22/src/lib.rs:16-22 | `next_cycle` adds one to the facing, modulo 4 |
| Day22.PreviousCycle | 22/src/lib.rs:16-22 | `previous_cycle` subtracts one from the facing, modulo 4 |
| Day22.FacingInjective | 22/src/lib.rs:16-22 | distinct directions have distinct facings |
| Day22.TurnsCycle | 22/src/lib.rs:16-22 | the two turns undo each other and four right turns come back |
| Day22.TurnsRotateUnits | 22/src/lib.rs:32-41 | a right turn rotates the unit step clockwise on screen, a left turn counter-clockwise |
| Day22.OppositeUnits | 22/src/lib.rs:32-41 | two turns reverse the unit step |
| Day22.Rotate | 22/src/lib.rs:54-64 | multiplying by Clockwise turns right, by CounterClockwise turns left, by None keeps the direction |
| Day22.Divide | 22/src/lib.rs:66-76 | dividing two directions never gives OneEighty, and gives None exactly for equal or opposite directions |
| Day22.DivideThenRotate | 22/src/lib.rs:54-76 | rotating the divisor by the quotient gives the dividend, unless the two are opposite |
| Day22.NewState | 22/src/lib.rs:86-93 | a new state has the coordinate and direction given, `last` Right and is not the tip |
| Day22.SameIsPoseEquality | 22/src/lib.rs:96-101 | state equality compares coordinate and direction only, ignoring `last` and `is_tip`, and is an equivalence |
| Day22.PathsCompareByPoses | 22/src/lib.rs:96-101 | two paths are equal under the source's equality iff their poses are |
| Day22.CellOf | 22/src/lib.rs:173-182 | a character is a cell iff it is one of the five glyphs, and only a space is Void; any other character is the panic case |
| Day22.CellOfGlyph | 22/src/lib.rs:173-192 | the plain glyph of every cell reads back as that cell |
| Day22.ParseMove | 22/src/lib.rs:154-164 | "L" and only "L" is TurnL, "R" and only "R" is TurnR, anything else must be an `i32` distance; it fails exactly when none of these holds, and the error is the message of the `ParseIntError` of that word |
| Day22.ParseToken | 22/src/lib.rs:154-164 | every move with an `i32` distance parses back from its token |
| Day22.SpacedConcat | 22/src/lib.rs:220-221 | padding the turn letters with spaces distributes over concatenation |
| Day22.ParseAll | 22/src/lib.rs:224-225 | collecting succeeds with one move per word, or fails with the error of the first word that does not parse, every word before it parsing |
| Day22.WordsOfRender | 22/src/lib.rs:220-223 | splitting the padded rendering of a list of moves gives back their tokens |
| Day22.ParseRender | 22/src/lib.rs:219-226 | `parse_instructions` of the puzzle's rendering of any list of moves returns that list |
| Day22.ParseInstructions | 22/src/lib.rs:219-226 | the whole text parses exactly when every word of the spaced text is a turn or an `i32`, one move per word; a word that is neither makes it fail |
| Day22Grid.AxisStep | 22/src/grid.rs:66-78 | a step along one axis, wrapped into the grid's bounds, stays inside them |
| Day22Grid.AxisStepIsModular | 22/src/grid.rs:66-78 | the corrected wrap is a step modulo the width of the bounds |
| Day22Grid.AxisStepAsWritten | 22/src/grid.rs:66-78 | the wrap as written: a unit step from inside the box stays inside it, and a step that lands before the last column (row) is taken as is |
| Day22Grid.AsWrittenNeverEntersLast | 22/src/grid.rs:67-69 | as written, a step right or down never lands on the last column or row: from the one before it goes back to the first |
| Day22Grid.AxisAheadIsModular | 22/src/grid.rs:65-78 | k wrapped steps are k steps modulo the width |
| Day22Grid.AheadPeriodic | 22/src/grid.rs:65-78 | walking a full width or height comes back to the start, so the search for a solid cell ends |
| Day22Grid.Landing | 22/src/grid.rs:65-89 | the number of wrapped steps to the first non-Void cell, with only Void cells before it |
| Day22Grid.TargetIsSolid | 22/src/grid.rs:65-89 | from a cell on the board the next step along a direction lands on a Free or Wall cell, skipping only Void |
| Day22Grid.LandingIsFirst | 22/src/grid.rs:65-89 | the landing is the first solid cell along the direction |
| Day22Grid.Walk | 22/src/grid.rs:61-90 | walking n steps yields at most n poses, all on Free cells in the direction walked |
| Day22Grid.WalkBlocked | 22/src/grid.rs:85-88 | a walk whose next cell is a wall does not move |
| Day22Grid.WalkStopsAtWall | 22/src/lib.rs:208-213 | a walk either takes all its steps or ends facing a wall |
| Day22Grid.Seek | 22/src/grid.rs:65-89 | the loop of `advance` finds the target cell, which is Free or Wall |
| Day22Grid.Redecorated | 22/src/grid.rs:32-38 | `after_move` keeps every pose, sets the tip's `last` to the previous direction and clears the previous state's tip flag |
| Day22Grid.PasswordDecodes | 22/src/grid.rs:27-30 | the password encodes the row in its thousands and the column in its remainder divided by four |
| Day22Grid.PasswordFacing | 22/src/grid.rs:27-30 | the password modulo 4 is the facing |
| Day22Grid.Scan | 22/src/grid.rs:97-123 | the scan records every non-Void cell drawn, the bounds of the drawing and the leftmost Free cell of the first row |
| Day22Grid.Grid.FromStr | 22/src/grid.rs:93-133 | the grid holds exactly the drawn cells, the bounds of the drawing, the leftmost Free cell of row 1 as the start, and a path holding only the start facing right |
| Day22Grid.Grid.Password | 22/src/grid.rs:27-30 | the password of the path's tip: 1000 times its row plus 4 times its column plus its facing |
| Day22Grid.Grid.TurnLeft | 22/src/grid.rs:50-54 | a left turn changes only the tip's direction, to the previous one, and keeps the path's length |
| Day22Grid.Grid.TurnRight | 22/src/grid.rs:55-59 | a right turn changes only the tip's direction, to the next one, and keeps the path's length |
| Day22Grid.Grid.Advance | 22/src/grid.rs:61-90 | `advance` moves iff the target cell is Free, appending it to the path; at a wall the path keeps its poses |
| Day22Grid.Grid.Execute | 22/src/lib.rs:204-216 | each move turns the tip or walks forward as `Walk` describes |
| Day22Grid.Grid.Forward | 22/src/lib.rs:208-213 | walking forward n times appends exactly the walk's poses, stopping at the first wall |
| Day22Grid.ThreeInARow | 22/src/grid.rs:61-90 | on a row of three free cells the corrected step from the second reaches the third, where the code as written goes back to the first |
| Day22Grid.SquareDrawing | 22/src/grid.rs:201-209 | the test `from_str_square`: three Free cells and a Wall |
| Day22Grid.VoidDrawing | 22/src/grid.rs:211-216 | the test `from_str_with_voids`: a leading space is Void |
| Day23.OffsetsSurround | 23/src/lib.rs:66-79 | the eight direction offsets reach exactly the eight cells around an elf, never the elf's own cell |
| Day23.Rotate | 23/src/lib.rs:98-101 | rotating the preferences moves the first entry to the back and shifts every other one forward, keeping the length |
| Day23.Rotated | 23/src/lib.rs:36-43 | after any number of rotations there are still four preferences |
| Day23.RotateSound | 23/src/lib.rs:98-101 | rotation keeps every preference sound: its chosen direction is among the three directions it probes |
| Day23.InitialSound | 23/src/lib.rs:36-41 | the initial N, S, W, E preferences each probe their chosen direction |
| Day23.RotateFour | 23/src/lib.rs:98-101 | four rotations of a four-entry preference list restore it |
| Day23.RotatedCycles | 23/src/lib.rs:36-43 | the preference order has period four and stays sound in every round |
| Day23.ElvesOf | 23/src/lib.rs:22-35 | an elf stands at (x, y) exactly when line y of the input has a '#' at column x |
| Day23.FirstFree | 23/src/lib.rs:91-95 | the chosen preference is the first whose three probed cells are all empty; none means no preference is free |
| Day23.Propose | 23/src/lib.rs:86-97 | an elf with no neighbour stays; an elf that moves steps in the chosen direction of a preference whose three probed cells are all empty |
| Day23.ProposeSpec | 23/src/lib.rs:86-97 | an elf with no neighbour stays; an elf whose preferences are all blocked stays; otherwise it proposes the step of the first free preference |
| Day23.ProposalEmpty | 23/src/lib.rs:86-97 | an elf never proposes a cell another elf occupies, unless it proposes to stay |
| Day23.ProposalsKeepOff | 23/src/lib.rs:86-97 | every proposal of a round keeps off the other elves' current cells |
| Day23.FinalInjective | 23/src/lib.rs:103-133 | after a round no two elves share a cell |
| Day23.MotionKeepsCount | 23/src/lib.rs:103-133 | a round keeps the number of elves |
| Day23.ImageCount | 23/src/lib.rs:103-133 | any group of elves lands on as many distinct cells as it has members |
| Day23.WhereElvesEnd | 23/src/lib.rs:118-131 | an elf in a clash stays, an elf with a unique proposal moves there, a lone elf stays, and each final cell is in the new grid |
| Day23.Grid.FromStr | 23/src/lib.rs:19-46 | parsing collects the '#' cells and the initial preference order |
| Day23.Grid.RotatePreferences | 23/src/lib.rs:98-101 | the first preference moves to the back; the elves are unchanged |
| Day23.Grid.Motion | 23/src/lib.rs:103-133 | the new elves are the moved image of the old ones under this round's proposals, and their number is kept |
| Day23.Grid.BoundingBox | 23/src/lib.rs:135-141 | the four bounds enclose every elf and each is attained by some elf |
| Day23.Enumerate | 23/src/lib.rs:104-109 | numbering the elves lists each elf exactly once |
| Day23.GroupByProposal | 23/src/lib.rs:111-121 | each proposed cell maps to the ascending ids of the elves proposing it, and every proposing elf is listed |
| Day23.GroupedStep | 23/src/lib.rs:118-121 | adding one elf's proposal to the group map keeps the grouping invariant |
| Day23.GroupSizeIsClash | 23/src/lib.rs:123 | a group has more than one member exactly when two elves propose its cell |
| Day23.Settle | 23/src/lib.rs:116-132 | the loop over groups yields clashing elves at their old cells and unique proposals at the proposed cells |
| Day23.AddCells | 23/src/lib.rs:125-127 | inserting a clash group adds exactly its members' original cells |
| Day23.AllKeys | 23/src/lib.rs:118-131 | the contributions of all group keys make up the settled set |
| Day23.ContributionAdd | 23/src/lib.rs:118-131 | contributions of groups combine by union |
| Day23.ClashGroup | 23/src/lib.rs:123-128 | a clashing group contributes exactly its members' original cells |
| Day23.SingleGroup | 23/src/lib.rs:130 | a non-clashing group contributes only its proposed cell |
| Day23.Round | 23/src/lib.rs:174-177 | a round moves the elves then rotates the preferences, keeping the grid valid and the number of elves |
| Day24Valley.ParseDirectionGlyph | 24/src/lib.rs:27-39 | exactly '>', '<', 'v' and '^' parse, each to the direction it draws; any other character is an error |
| Day24Valley.EveryDirection | 24/src/valley.rs:59-74 | the four directions probed by `blizzards` are all the directions there are |
| Day24Valley.Unit | 24/src/lib.rs:41-50 | each direction moves one cell along one axis |
| Day24Valley.BlowWraps | 24/src/valley.rs:16-34 | a blizzard keeps its direction, stays in the interior, and moves one cell modulo the interior width and height |
| Day24Valley.WrapStep | 24/src/valley.rs:18-29 | each single add-or-subtract correction of the source equals a remainder, for a step of at most one cell past a wall |
| Day24Valley.BlowInjective | 24/src/valley.rs:16-34 | two interior blizzards never blow into the same blizzard |
| Day24Valley.BlowSamples | 24/src/valley.rs:154-165 | in a 6 by 6 valley the right, left, down and up blizzards at the walls wrap to the opposite side |
| Day24Valley.BlizzardsAt | 24/src/valley.rs:59-74 | the directions at a cell are exactly those of the blizzards standing on it |
| Day24Valley.InsideWithinWalls | 24/src/valley.rs:76-80 | every cell inside is within the walls, the only inside cells off the interior are the entry and the exit, and both are inside |
| Day24Valley.Simulate | 24/src/valley.rs:82-89 | simulating keeps the entry, the exit and the dimensions |
| Day24Valley.SimulateKeeps | 24/src/valley.rs:82-89 | one minute blows every blizzard, adds no other, keeps their number and keeps the valley well formed |
| Day24Valley.BlownCount | 24/src/valley.rs:87 | blowing any set of interior blizzards keeps its size |
| Day24Valley.After | 24/src/lib.rs:193-200 | the valley after t minutes has the same entry, exit and dimensions |
| Day24Valley.AfterWellFormed | 24/src/lib.rs:193-200 | at every minute the valley is well formed and no blizzard stands on the entry or the exit |
| Day24Valley.Opening | 24/src/valley.rs:45-47 | the opening is the first '.' of the line, none when the line has no '.' |
| Day24Valley.ScanBlizzards | 24/src/valley.rs:124-138 | the scan succeeds exactly when every interior line is long enough, then yields exactly the drawn blizzards; otherwise it names the first short line it reaches, column by column and row by row within a column |
| Day24Valley.ColumnDone | 24/src/valley.rs:125-137 | finishing one column adds that column's blizzards to those scanned before it |
| Day24Valley.DrawnAll | 24/src/valley.rs:125-137 | after the last column the scanned blizzards are all the drawn ones |
| Day24Valley.ValleyOf | 24/src/valley.rs:95-146 | a parsed valley is well formed |
| Day24Valley.Parse | 24/src/valley.rs:95-146 | no lines is "grid empty", one line is "only walls", a first line without '.' has no entry, a last line without '.' has no exit; otherwise the dimensions, openings and drawn blizzards |
| Day24.Manhattan | 24/src/lib.rs:73-76 | the distance left is zero exactly on the target |
| Day24.Heuristic | 24/src/lib.rs:70-72 | never below the minutes spent, and equal to them exactly on the target |
| Day24.Cmp | 24/src/lib.rs:64-68 | `cmp` orders by distance alone; for possibilities of the same minute it agrees with the heuristic order the heap pops by (`partial_cmp`) |
| Day24.CmpIsDistanceOrder | 24/src/lib.rs:64-76 | `cmp` is antisymmetric, transitive, equal exactly on equal distance, and ignores time and parent |
| Day24.CmpSamples | 24/src/lib.rs:294-325 | towards (10, 10), (5, 5) is less than (4, 5), greater than (6, 5), and equal to (4, 6); (4, 5) is greater than (6, 5) |
| Day24.Options | 24/src/lib.rs:77-98 | five options one minute later, with the same target, the parent as parent, the last one waiting in place |
| Day24.OptionsAreNear | 24/src/lib.rs:77-98 | the options reach exactly the cell itself and its four neighbours |
| Day24.ChainLinks | 24/src/lib.rs:225-237 | following parents back ends on the possibility, starts at one without a parent, and links each step to its predecessor |
| Day24.ChainTimes | 24/src/lib.rs:225-237 | along a walk the path has one state per minute, minute i at index i |
| Day24.ChainOfWalk | 24/src/lib.rs:191-220 | a walk starts at the entry and each step goes to a near cell that is inside and free of blizzards at that minute |
| Day24.ReconstructPath | 24/src/lib.rs:225-237 | the path is the chain of possibilities from the entry to the exit, each with the valley of its minute |
| Day24.JourneyOfWalk | 24/src/lib.rs:203-205 | a walk reaching the exit, reconstructed, is a valid journey |
| Day24.Cheapest | 24/src/lib.rs:59-72 | the popped possibility has the least heuristic in the queue, as the heap of `Reverse` orders by `partial_cmp` |
| Day24.Consider | 24/src/lib.rs:192-219 | an option on the exit ends the search with a walk; an open, unseen option is queued and recorded; any other option is dropped |
| Day24.Expand | 24/src/lib.rs:192-220 | expanding either reaches the exit by a walk or records every open option, keeping the queued walks |
| Day24.FindShortestPath | 24/src/lib.rs:179-223 | a malformed valley is an error; a returned path is a journey from the entry to the exit and no journey is shorter; "no solution" means no journey exists |
| Day24.Search | 24/src/lib.rs:188-222 | a returned path is a journey and no journey is shorter; an empty queue means no journey exists |
| Day24.ShortestFound | 24/src/lib.rs:191-206 | when the popped item has the least heuristic and its option reaches the exit one minute later, no journey arrives earlier |
| Day24.QueuedBeforeArrival | 24/src/lib.rs:191-220 | while the search runs, every journey has a queued possibility whose heuristic is at most the journey's arrival minute |
| Day24.Frontier | 24/src/lib.rs:191-220 | every step of a journey is either explored or has an earlier step still queued |
| Day24.DistanceAlong | 24/src/lib.rs:70-76 | the heuristic is admissible: the minute of a journey's step plus its distance to the exit is at most the arrival minute |
| Day24.Requeued | 24/src/lib.rs:191-219 | after a pop and an expansion every queued possibility is still a walk |
| Day24.Explore | 24/src/lib.rs:191-219 | popping and expanding a possibility keeps every explored key closed under the walk's steps |
| Day24.KeysAppend | 24/src/lib.rs:216-218 | pushing an option adds its key to those of the queue |
| Day24.PopKeys | 24/src/lib.rs:191 | popping loses no key other than the popped one |
| Day24.NoJourney | 24/src/lib.rs:222 | when the queue empties with everything seen explored, no journey exists |
| Day24.ExploredAlong | 24/src/lib.rs:191-222 | every state of a journey is among the explored keys |
| Day25.DigitOf | 25/src/lib.rs:18-25 | a character is a SNAFU digit exactly when it is one of '=', '-', '0', '1', '2' |
| Day25.CharOf | 25/src/lib.rs:97-104 | the character shown for a digit parses back to that digit |
| Day25.CharOfDigitOf | 25/src/lib.rs:18-25 | a parsed digit is shown as the character it was read from |
| Day25.FromStr | 25/src/lib.rs:12-28 | parsing succeeds exactly when every character is a digit, keeping one digit per character; an error names an invalid character with only digits after it |
| Day25.Show | 25/src/lib.rs:89-108 | showing writes one character per digit, most significant first |
| Day25.ParseShow | 25/src/lib.rs:9-108 | parsing a shown number gives the number back |
| Day25.ShowParse | 25/src/lib.rs:9-108 | showing a parsed text gives the text back |
| Day25.ShowParseStep | 25/src/lib.rs:9-108 | one more character keeps show-after-parse the identity |
| Day25.ToI64 | 25/src/lib.rs:79-87 | the fold over digits times powers of five is the positional value of the digits |
| Day25.SumFrom | 25/src/lib.rs:81-85 | `From<Snafu> for i64` as a fold: the fold from any digit on adds that suffix's positional value, scaled by its power of five |
| Day25.ValueAppend | 25/src/lib.rs:81-85 | the value of concatenated digits is the low part plus the high part scaled by five to the low length |
| Day25.ValueUpdate | 25/src/lib.rs:49-56 | changing one digit changes the value by the difference times that digit's power of five |
| Day25.Balanced | 25/src/lib.rs:31-77 | the balanced base-five expansion of a non-negative number has that value and no leading zero |
| Day25.Low | 25/src/lib.rs:46-57 | the lowest balanced digit is congruent to the number modulo five |
| Day25.High | 25/src/lib.rs:46-59 | the number is its lowest digit plus five times the rest, and the rest is smaller |
| Day25.CanonicalNonzero | 25/src/lib.rs:66-75 | balanced digits without a leading zero are worth zero only when there are none |
| Day25.CanonicalUnique | 25/src/lib.rs:66-75 | two balanced digit strings without leading zeros and of equal value are equal |
| Day25.BalancedOfValue | 25/src/lib.rs:31-77 | a canonical digit string of non-negative value is the balanced expansion of its value |
| Day25.TrimHigh | 25/src/lib.rs:66-75 | trimming the high zeros leaves a prefix without leading zero, removes only zeros and keeps the value |
| Day25.PlaceDigit | 25/src/lib.rs:39-57 | placing one base-five digit with its carry keeps the digits balanced and adds the digit times its power of five |
| Day25.Carry | 25/src/lib.rs:50-56 | subtracting five from a digit and carrying one to the next keeps the value |
| Day25.ValueAdd | 25/src/lib.rs:49-56 | adding to one digit adds that amount times its power of five |
| Day25.FromI64 | 25/src/lib.rs:31-77 | converting a non-negative number yields balanced digits worth it with no leading zero, the unique such expansion, which is `Encode` |
| Day25.ConvertsOfValue | 25/src/lib.rs:114-119 | a digit text with no leading zero that decodes to a number converts both ways |
| Day25.ReadsStep | 25/src/lib.rs:12-28 | a text is worth its last digit plus five times the text before it |
| Day25.ReadsNext | 25/src/lib.rs:12-28 | reading one more character of a text multiplies the value so far by five and adds the digit |
| Day25.ReadsEmpty | 25/src/lib.rs:12-28 | the empty text reads as zero |
| Day25.Converts1 | 25/src/lib.rs:121-124 | 1 is "1", both ways |
| Day25.Converts2 | 25/src/lib.rs:126-129 | 2 is "2", both ways |
| Day25.Converts3 | 25/src/lib.rs:131-134 | 3 is "1=", both ways |
| Day25.Converts4 | 25/src/lib.rs:136-139 | 4 is "1-", both ways |
| Day25.Converts5 | 25/src/lib.rs:141-144 | 5 is "10", both ways |
| Day25.Converts6 | 25/src/lib.rs:146-149 | 6 is "11", both ways |
| Day25.Converts7 | 25/src/lib.rs:151-154 | 7 is "12", both ways |
| Day25.Converts8 | 25/src/lib.rs:156-159 | 8 is "2=", both ways |
| Day25.Converts9 | 25/src/lib.rs:161-164 | 9 is "2-", both ways |
| Day25.Converts10 | 25/src/lib.rs:166-169 | 10 is "20", both ways |
| Day25.Converts15 | 25/src/lib.rs:171-174 | 15 is "1=0", both ways |
| Day25.Converts20 | 25/src/lib.rs:176-179 | 20 is "1-0", both ways |
| Day25.Converts2022 | 25/src/lib.rs:181-184 | 2022 is "1=11-2", both ways |
| Day25.Converts12345 | 25/src/lib.rs:186-189 | 12345 is "1-0---0", both ways |
| Day25.ReadsTopOf314159265 | 25/src/lib.rs:191-194 | the first seven characters of "1121-1110-1=0" read as 20106 |
| Day25.ReadsMidOf314159265 | 25/src/lib.rs:191-194 | the first ten characters of "1121-1110-1=0" read as 2513274 |
| Day25.ReadsOf314159265 | 25/src/lib.rs:191-194 | "1121-1110-1=0" reads as 314159265 |
| Day25.Converts314159265 | 25/src/lib.rs:191-194 | 314159265 is "1121-1110-1=0", both ways |
| Day25.Converts1747 | 25/src/lib.rs:196-199 | 1747 is "1=-0-2", both ways |
| Day25.Converts906 | 25/src/lib.rs:201-204 | 906 is "12111", both ways |
| Day25.Converts198 | 25/src/lib.rs:206-209 | 198 is "2=0=", both ways |
| Day25.Converts11 | 25/src/lib.rs:211-214 | 11 is "21", both ways |
| Day25.Converts201 | 25/src/lib.rs:216-219 | 201 is "2=01", both ways |
| Day25.Converts31 | 25/src/lib.rs:221-224 | 31 is "111", both ways |
| Day25.Converts1257 | 25/src/lib.rs:226-229 | 1257 is "20012", both ways |
| Day25.Converts32 | 25/src/lib.rs:231-234 | 32 is "112", both ways |
| Day25.Converts353 | 25/src/lib.rs:236-239 | 353 is "1=-1=", both ways |
| Day25.Converts107 | 25/src/lib.rs:241-244 | 107 is "1-12", both ways |
| Day25.Converts37 | 25/src/lib.rs:246-249 | 37 is "122", both ways |
| Day25.NegativeNeverReachesZero | 25/src/lib.rs:38-64 | from a negative start, `x` is still negative after any number of `div_euclid(5)` rounds, so the loop's `x == 0` exit is never taken |
| Day25.Negated | 25/src/lib.rs:31-77 | negating digits keeps their number and negates each one |
| Day25.NegatedValue | 25/src/lib.rs:31-77 | negated digits are worth the negated value |
| Day25.Encode | 25/src/lib.rs:31-77 | every integer, negative ones included, has a balanced expansion of that value without leading zero, the loop's own result for non-negative numbers |
| Day25.EncodeOfValue | 25/src/lib.rs:31-87 | encoding the value of canonical digits gives those digits back, for negative values too |

## Left out

Across all days:

- The `main.rs` binaries are not part of this model. That covers reading the puzzle input, command-line handling, printing the answers, and the day 25 sum over the input lines.
- `Display` implementations, terminal colours and `println!` tracing are not modelled. Exceptions are the renderings that a test compares, such as day 22's drawing.
- Tests that read `sample.txt`, `simple.txt`, `sample/<n>.txt` or `example/<n>.txt` are not modelled, because those files are not part of this model. The expected values of those tests are listed per day below.
- 15/src/map.rs, 22/src/cube.rs, and the web-service half of day 21 (savage_core, HTTP) are not part of this model.
- HashMap and HashSet iteration order is not modelled. Where the source's result depends on that order, the model fixes one order (input order or material order) and says so on the member's line.
- Rust panics (`unwrap`, `expect`, `unreachable!`, out-of-range indexing) are modelled as an error value, or excluded by a `requires` named below.

Integer widths:

- Day01.FindElfCarryingMostCalories: each number is a parsed `u32`, but the per-elf `u32` sum is unbounded here; a total above `u32::MAX` (a panic in debug builds) is not modelled.
- Day02.GetScore: the `u32` running total is unbounded; only the per-line bound of 9 is proved.
- Day03.SumOfPrioritiesOfDuplicateItems: the `u32` running total is unbounded.
- Day07.FileSystem.Touch: file and folder sizes are unbounded naturals, not `usize`.
- Day08.ParseForest: heights are digits 0 to 9 held as integers; the `i8`/`u32` widths of the grid are not modelled.
- Day09.Rope.Step: coordinates are unbounded; `i32` overflow of the knots is not modelled. Only the `n as i32` cast is modelled, in Day09.StepCount.
- Day10.Cpu.Tick: the register `x` and the signal strength `cycle * x` are unbounded; `i32` overflow is not modelled.
- Day11.Worry: the `u128` product `old * old` is unbounded; overflow is not modelled.
- Day11Monkey.Apply: same as Day11.Worry, the `u128` operation is unbounded.
- Day15.RowCoverage: sensor coordinates are parsed as `i32`; the `i32` arithmetic of the distance, `min` and `max` is unbounded here.
- Day16Valve.FlowAsI32: the flow rate is parsed as `u32` and cast to `i32`; the cast is modelled, but the pressure sums are unbounded.
- Day17.Chamber.MaxHeight: the `u32` cast of the highest row is modelled. The result is only stated when the highest row is not congruent to `u32::MAX`, because the source's `+ 1` would overflow there. Day17.Chamber.Valid keeps every rock at a row of at least 0, so such a row is beyond `i32` and never arises.
- Day12Solver.Climbable: the height step is compared on unbounded integers. The source's `current_cost as u8 + 1` (12/src/solver.rs:108) overflows at byte 255, which the puzzle's letters never reach.
- Day18.Bounds: the `+ 1` and `- 1` of the bounding box are unbounded; the `i32` overflow of `coord + 1` at `i32::MAX` (18/src/lib.rs:39-41) is not modelled.
- Day19.MaxGeodePotential: the `i32` product `t * (t - 1)` is unbounded. Day19.PotentialFits proves it fits in `i32` only when at most 46341 minutes are left, and the model relies on it only there.
- Day19.QualityLevel: the `u32` product of the blueprint id and the geode count is unbounded.
- Day21.Call: the `i64` operations `+ - *` are unbounded; overflow panics are not modelled. Day21.Inverses holds only because of this.
- Day22Grid.Grid.Forward: coordinates are unbounded; `i32` overflow is not modelled.
- Day23.Grid.Motion: coordinates are unbounded; `i32` overflow is not modelled.
- Day24Valley.Simulate: coordinates and times are unbounded; `i32`/`usize` overflow is not modelled.
- Day25.ToI64: the powers `5^i` and the sum are unbounded; `i64` overflow on long numbers is not modelled.

Preconditions that exclude inputs the source accepts:

- Day25.FromI64: requires `0 <= x`. The source's loop never ends on a negative input; see Findings. The total conversion is Day25.Encode.
- Day11.WellFormed: every round requires every monkey to have a positive test divisor and to throw to other monkeys only. This is demanded even of monkeys that never inspect an item. The source panics on `% 0` and loops forever on a self-throw only when an item actually takes that path.
- Day20.Shifted: requires at least two elements unless the amount is 0. With one element the source's `% (len - 1)` panics.
- Day20.Mixable: mixing requires that the sequence is not a single non-zero number, for the same reason.
- Day22.Rotate: requires a rotation other than `OneEighty`. The source's `mul` has no arm for it, so its match is not exhaustive.
- Day14.CaveFromStr: requires every drawn segment to lie inside the 1000 by 200 array; the source panics on an index outside it.
- Day14.Cave.CreateFloor: requires the floor row to fit in the 200 rows of the array, for the same reason.
- Day03.DuplicatePriority: requires a line of at least two items. On a one-item or empty line the source's `chunks(len / 2)` is `chunks(0)`, which panics.
- Day03.Priorities: requires every line to hold at least two items, for the same reason.
- Day03.SumOfPrioritiesOfDuplicateItems: requires every line to hold at least two items, for the same reason.
- Day09.Rope.constructor: requires at least one knot. With none the source's `knots - 1` underflows.
- Day09.Rope.Step: requires at least one tail knot, which every rope built with two or more knots has; the source indexes the last tail.
- Day16Network.Explore: requires a closed network, in which every tunnel leads to a listed valve. The source's `network[tip]` panics on a tunnel to a missing valve.
- Day16Network.ShortestPaths: requires a closed network, for the same reason.
- Day16Network.NetworkFromStr: requires that the parsed valves form a closed network, for the same reason.
- Day16.Best: requires a closed network, for the same reason.
- Day16.FindMaxReleasablePressure: requires a closed network that holds "AA". The source's `State::initial` starts at "AA", and its `network.get(..)` unwrap panics without it.
- Day20.Coords: requires a 0 in the mixed numbers. The source's `position(..).unwrap()` (20/src/lib.rs:65-66) panics without one.
- Day21.Call: requires a divisor other than 0 for `Divide`. The source's `i64` division panics on 0.
- Day23.Grid.BoundingBox: requires at least one elf. The source's `expect("empty grid")` (23/src/lib.rs:136-139) panics on an empty grid.

Abstractions:

- Day19Solver.A.Solve: takes a `fuel` bound on the number of loop turns, which the source does not have. `OutOfFuel` is the only way the model can fail to answer, and Day19.Solve maps it to `GaveUp`.
- Day19.Solve: returns `GaveUp` only when the fuel runs out. Day19.WaitingRun shows that a schedule exists for every limit from 2 to 46343. For those limits the bounds along the waiting schedule, the `t * (t - 1)` product included, stay within `i32`. So the frontier runs dry (the source's `unreachable!`) only outside that range, and the model then returns `NoPath`.
- Day19Solver.MaxIndex: the `BinaryHeap` pop is modelled as taking the first entry of highest priority. The source's heap breaks ties in an unspecified order.
- Day19Blueprint.AffordableRobots: the `HashSet` of robots is iterated in material order.
- Day24.Search: takes a `fuel` bound on the number of loop turns and returns `GaveUp` when it runs out. The heap pop takes the first entry with the smallest key.
- Day16Network.Explore: the `BinaryHeap` of paths pops some entry of highest priority. The result is stated for any such choice.
- Day13.Sort: the sort is an insertion sort by `Cmp`, and `Sorted` states order only between neighbours. That `Cmp` is transitive is not proved (Day13.CmpRefl and Day13.CmpFlip are), so global order of the sorted packets is not claimed.
- Day07.WalkReportsFolders: states the soundness half of `walker` only. Completeness and pre-order are stated by Day07.WalkFindsFolders and Day07.WalkInPreOrder, and Day07.FileSystem.FoldersWith states all three.
- Day11.MostActive: the `HashMap` of monkeys is kept in input order.
- Day12Solver.Dijkstra.Solve: proves that a found path is a valid climb from the start to the finish. It does not prove that the path is a shortest one, or that the error arises only when no climb exists.
- Day23.Round: the `HashMap` of proposals and the `HashSet` of elves are sets and maps without order. The result does not depend on order.
- Day11Monkey.ParseMonkey: returns None where `Monkey::from_str` returns `InputInvalid` carrying `format!("{}", e)` of the nom parse error (11/src/lib.rs:15-19, 11/src/monkey.rs:145-151), whose wording is nom's.
- Day13.FromStr: the error `InputInvalid` carries no text. The source's error carries `format!("{}", e)` of the nom parse error (13/src/lib.rs:11-17), whose wording is nom's.
- Text.Words: whitespace is the ASCII set of Text.IsSpace (space, tab, line feed, carriage return, form feed). The source's `split_whitespace` also splits at Unicode spaces.

Day 22 walks with the corrected wrap (see Findings, 22/src/grid.rs:66-78):

- Day22Grid.AxisAheadIsModular: walks with the corrected wrap of the Findings row 22/src/grid.rs:66-78; as written the source never enters the last column or row by a step right or down. Day22Grid.AxisStepAsWritten and Day22Grid.ThreeInARow model the wrap as written.
- Day22Grid.AheadPeriodic: walks with the corrected wrap of the Findings row 22/src/grid.rs:66-78; as written the source never enters the last column or row by a step right or down. Day22Grid.AxisStepAsWritten and Day22Grid.ThreeInARow model the wrap as written.
- Day22Grid.Landing: walks with the corrected wrap of the Findings row 22/src/grid.rs:66-78; as written the source never enters the last column or row by a step right or down. Day22Grid.AxisStepAsWritten and Day22Grid.ThreeInARow model the wrap as written.
- Day22Grid.TargetIsSolid: walks with the corrected wrap of the Findings row 22/src/grid.rs:66-78; as written the source never enters the last column or row by a step right or down. Day22Grid.AxisStepAsWritten and Day22Grid.ThreeInARow model the wrap as written.
- Day22Grid.LandingIsFirst: walks with the corrected wrap of the Findings row 22/src/grid.rs:66-78; as written the source never enters the last column or row by a step right or down. Day22Grid.AxisStepAsWritten and Day22Grid.ThreeInARow model the wrap as written.
- Day22Grid.Walk: walks with the corrected wrap of the Findings row 22/src/grid.rs:66-78; as written the source never enters the last column or row by a step right or down. Day22Grid.AxisStepAsWritten and Day22Grid.ThreeInARow model the wrap as written.
- Day22Grid.WalkBlocked: walks with the corrected wrap of the Findings row 22/src/grid.rs:66-78; as written the source never enters the last column or row by a step right or down. Day22Grid.AxisStepAsWritten and Day22Grid.ThreeInARow model the wrap as written.
- Day22Grid.WalkStopsAtWall: walks with the corrected wrap of the Findings row 22/src/grid.rs:66-78; as written the source never enters the last column or row by a step right or down. Day22Grid.AxisStepAsWritten and Day22Grid.ThreeInARow model the wrap as written.
- Day22Grid.Seek: walks with the corrected wrap of the Findings row 22/src/grid.rs:66-78; as written the source never enters the last column or row by a step right or down. Day22Grid.AxisStepAsWritten and Day22Grid.ThreeInARow model the wrap as written.
- Day22Grid.Grid.Advance: walks with the corrected wrap of the Findings row 22/src/grid.rs:66-78; as written the source never enters the last column or row by a step right or down. Day22Grid.AxisStepAsWritten and Day22Grid.ThreeInARow model the wrap as written.
- Day22Grid.Grid.Execute: walks with the corrected wrap of the Findings row 22/src/grid.rs:66-78; as written the source never enters the last column or row by a step right or down. Day22Grid.AxisStepAsWritten and Day22Grid.ThreeInARow model the wrap as written.
- Day22Grid.Grid.Forward: walks with the corrected wrap of the Findings row 22/src/grid.rs:66-78; as written the source never enters the last column or row by a step right or down. Day22Grid.AxisStepAsWritten and Day22Grid.ThreeInARow model the wrap as written.
- Day22Grid.Grid.AdvanceOnWalk: walks with the corrected wrap of the Findings row 22/src/grid.rs:66-78; as written the source never enters the last column or row by a step right or down. Day22Grid.AxisStepAsWritten and Day22Grid.ThreeInARow model the wrap as written.

Sample values of file-reading tests, not proved:

- Day01.FindElfCarryingMostCalories: the sample's answer (3, 24000).
- Day02.GetScore: the sample's scores 15 and 12.
- Day03.SumOfPrioritiesOfDuplicateItems: the sample's total 157.
- Day04.AmountOfFullyOverlappingSearchAssignments: the sample's count 2.
- Day09.Apply: the sample's 13 visited positions. The test `sample_a` also reads `rope.tail`, which the source's `Rope` does not have.
- Day10.Cpu.RunProgram: the sample's signal sum 13140. The test `sample_b` does not compile, and the source's CPU never drives the screen.
- Day11.PlayRound: the sample's monkey business after 20 rounds (105 · 101).
- Day12Solver.Dijkstra.Solve: the sample's path length 32 and the step-by-step solver tests.
- Day13.DividerPacketIndices: the sample's divider positions [10, 14]. The test needs the sorted sample, and transitivity of `Cmp` is not proved.
- Day13.FromStr: text after the first packet is ignored, as in the source.
- Day14.Cave.Simulate: the sample's sand counts 24 and 93 and the sample drawing tests.
- Day15.RowCoverage: the sample's count 26 for row 10. Digits are ASCII `0`–`9`; the source's `\d` also matches other Unicode digits.
- Day16.FindMaxReleasablePressure: the sample's 1651, which is an ignored test in the source.
- Day16.SampleFromBB: the test `sample_state_possibilities_from_b` expects a single option, but the code also yields going back to "AA". The model states both options. The test `foo` does not compile. The `steps` argument is unused, as in the source.
- Day16Network.SampleFromAA: the network tests are proved for the paths from "AA" to "BB", "CC", "DD", "II" and "JJ". The parse of the whole sample file is not.
- Day17.DropRocks: the sample's tower height 3068 after 2022 rocks.
- Day18.SurfaceAreaCountsContacts: the sample's areas 64 and 58.
- Day19.QualityLevel: the sample's quality levels 9 and 12 and geode counts 56 and 62. Running the search on the sample is beyond what the verifier can unfold.
- Day22Grid.Grid.Password: the sample's password 6032 and the grid tests over the sample.
- Day23.Round: the round-by-round scenario tests and the 110 empty squares of the example.
- Day24.FindShortestPath: the sample's 18 minutes and the valley tests over the sample files.

## Findings

| source | as written | input that shows it | evidently intended | confidence | as-written member | corrected member |
|---|---|---|---|---|---|---|
| 06/src/lib.rs:6-16 | `start_marker` counts the windows before the first marker and returns None when that count is zero, so a marker in the very first window is reported as no marker | "abcd": the first four characters differ, yet the result is None | Some(4), the position right after the first marker | not executed; proved of the model of the code as written | Day06.MarkerInFirstWindowIsMissed | Day06.FirstMarkerEnd |
| 06/src/lib.rs:6-16 | when no window is a marker, `take_while` keeps every window and the result is their count plus 4, one past the end of the stream | "aaaa": no marker, yet the result is Some(5) | None, since the stream holds no marker | not executed; proved of the model of the code as written | Day06.NoMarkerIsReportedPastTheEnd | Day06.FirstMarkerEnd |
| 22/src/grid.rs:66-78 | `advance` wraps a step at or past `right` back by `right - left`, and one at or past `btm` back by `btm - top`, but wraps a step below `left` or `top` by the full width plus 1; with the inclusive bounds, the last column and the last row are never entered by a step right or down | a row of three free cells at columns 1 to 3 (left 1, right 3): a step right from column 2 lands on column 1 | column 3, the next cell of the row | not executed; proved of the model of the code as written | Day22Grid.ThreeInARow | Day22Grid.AxisStepIsModular |
| 25/src/lib.rs:38-64 | `From<i64>` leaves its loop only when `x` reaches 0, and `x.div_euclid(5)` of a negative `x` stays negative (-1 is a fixed point) | x = -1: the loop never ends | the balanced base-5 digits of -1, that is "-" | not executed; proved of the model of the code as written | Day25.NegativeNeverReachesZero | Day25.EncodeOfValue |

Each corrected member is stated next to the code as written:

- Day06.FirstMarkerEnd is the intended marker search. Day06.StartMarkerAgreesAfterFirstWindow shows that the code as written agrees with it whenever the stream has a marker and the first window is not one. The sample tests hold for both.
- Day22Grid.AxisStep is the step that the model uses, in Day22Grid.Seek and so in the grid walk.
- Day25.Encode is the conversion for every integer, and it agrees with Day25.FromI64 on the numbers that function accepts.
