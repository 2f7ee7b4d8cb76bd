# advent-of-code-2025 solvers in Dafny

This project models five small puzzle solvers. Each one parses lines of text into an in-memory structure and computes one number from it:

- **1/rotator** turns a 100-position dial by `R<n>`/`L<n>` steps, starting at 50. It counts how many times the dial passes or lands on 0.
- **3/joltage** reads banks of digit batteries, one bank per line. A bank's joltage is the largest two-digit number formed by two of its digits in order. The answer is the sum over all banks.
- **4/forklift** reads a floor map of paper rolls (`@`) and empty cells (`.`). A roll with fewer than a threshold of occupied neighbours can be taken away. The solver counts such rolls, removes them in one pass, or repeats passes until nothing more can be removed.
- **5/foodb** holds a closed interval of `u32` and a membership test.
- **6/postfix** reads a worksheet: rows of numbers, then a row of operators (`+` or `*`). It folds each column with its operator.

The model follows the code's own form:

- Structures the program updates in place are Dafny classes:
  - the dial (`Rotator.Dial`);
  - the floor map, whose cells are an `array<bool>` (`Forklift.FloorMap`).
- Immutable records are datatypes: `BatteryBank`, `MathProblems`, `ClosedInt`.
- The parsing closures and loops become methods with loop invariants. Each method is proved against a specification function:
  - `WellFormed`/`Parsed` for the forklift and joltage readers;
  - `LinesOk`/`Readings` for the worksheet reader;
  - `Pass`/`Exhaust` for the removal passes;
  - `Fold` over `MathProblems.Column` for `solve`.

Some methods stand for one round of a loop or closure in the source, so that each proof stays small:

- `Postfix.ReadNumber` and `Postfix.ReadOp` are one round of `process_num_line` and `process_op_line`.
- `Postfix.ProcessLaterLine` and `Postfix.ReadLaterLines` are one line of, and then the whole of, the `while let` loop in `new_from_lines`.
- `Postfix.FoldRow` is one row of `solve`.
- `Forklift.FloorMap.MarkCell` is one cell of `count_and_mark_free`.

A panic on bad input (a bad byte, a line that is too wide or too narrow, no lines) becomes an `Err` of a `Result`. A panic that the caller avoids by calling correctly becomes a `requires`. Examples: an empty slice passed to `argmax`, or an off-map cell passed to `free_val` or `count_neighbors`. One input panic is a `requires` instead: the bank-width panic of `sum_max_joltages`, listed under "## Left out".

Integers are unbounded `int`/`nat`.

`5/foodb/src/main.rs` holds only the `ClosedInt` tuple struct and `contains`. It has no parsing, ordering, merging or query code, so only `contains` and its unit test are modelled.

## Model

| member | source | states |
|---|---|---|
| FoodB.ClosedInt.Contains | 5/foodb/src/main.rs:4-6 | (no contract; body) the inclusive test of both bounds, `num >= lo && num <= hi`; what it means is stated by the lemmas below |
| FoodB.ContainedCount | 5/foodb/src/main.rs:4-6 | among 0..n-1 the interval contains exactly the values from lo up to min(n-1, hi): none while n <= lo, and none at all when lo > hi |
| FoodB.ContainsExactlyWidth | 5/foodb/src/main.rs:4-6 | a non-empty interval contains exactly hi - lo + 1 values, and none above hi |
| FoodB.EndpointsContained | 5/foodb/src/main.rs:4-6 | both bounds of a non-empty interval are inside it (the interval is closed) |
| FoodB.InvertedIsEmpty | 5/foodb/src/main.rs:4-6 | an interval with lo > hi contains no number |
| FoodB.ContainsTestCases | 5/foodb/src/main.rs:17-25 | the unit test: `ClosedInt(10, 15)` contains 10..14 and contains neither 9 nor 16 |
| Rotator.ParseLine | 1/rotator/src/main.rs:17-29 | no step exactly for an empty line or one not starting with R/L; a fatal error exactly for a direction letter followed by a non-number; a step only after R or L |
| Rotator.ParseFormatRoundTrip | 1/rotator/src/main.rs:17-29 | parsing the line `R<n>` or `L<n>` written for any step gives that step back (R positive, L negative) |
| Rotator.SpinState | 1/rotator/src/main.rs:42-50 | the new dial position is in 0..99 and equals (state + n) mod 100, for negative n too |
| Rotator.Crossings | 1/rotator/src/main.rs:43-59 | the crossings counted for one spin are the whole turns abs(n/100) (truncated), plus at most one |
| Rotator.CrossingsCountClicks | 1/rotator/src/main.rs:43-59 | as written, the count equals the number of single clicks that land on 0, plus one when a spin of a whole number of turns starts at 0 |
| Rotator.FixedCrossings | 1/rotator/src/main.rs:52-59 | the corrected count is also abs(n/100) plus at most one |
| Rotator.FixedCrossingsCountClicks | 1/rotator/src/main.rs:52-59 | the corrected count equals the number of single clicks that land on 0, for every start position and step |
| Rotator.CrossingsOvercountAtZero | 1/rotator/src/main.rs:53-54 | from 0, `R100` and `L100` each land on 0 once, but the code counts 2 |
| Rotator.SpinZeroUnchanged | 1/rotator/src/main.rs:43-59 | a zero step leaves the position alone and counts nothing |
| Rotator.Dial.constructor | 1/rotator/src/main.rs:81-84 | a new dial points at 50 with count 0 |
| Rotator.Dial.Spin | 1/rotator/src/main.rs:41-66 | the position becomes (state + n) mod 100; the count grows by the code's crossings, which lie between abs(n/100) and abs(n/100) + 1; from a valid state, this is the number of clicks landing on 0, plus the whole-turn overcount |
| Rotator.Dial.SpinFixed | 1/rotator/src/main.rs:41-66 | the corrected spin: same new position, and the count grows by exactly the number of clicks that land on 0 |
| Joltage.FirstMax | 3/joltage/src/main.rs:25-37 | the index is in range, holds a maximum, and every earlier element is strictly smaller (the first maximum) |
| Joltage.ArgMax | 3/joltage/src/main.rs:25-37 | the loop returns the first position of a largest element of a non-empty slice |
| Joltage.FirstMaxUnique | 3/joltage/src/main.rs:31-35 | any index that is a maximum with only smaller elements before it is the one `argmax` returns |
| Joltage.ArgMaxTestValues | 3/joltage/src/main.rs:165-171 | the unit test: argmax of 13392416 is 3; of 133 it is 1; of 2416 it is 3 (offset 4 gives 7) |
| Joltage.BatteryBank.BankOffsetVal | 3/joltage/src/main.rs:90-104 | (no contract; body, as written) store element bankno·bank_width + offset; the requires is the source's guards (bankno <= nbanks, offset <= bank_width) plus the Vec index being in range |
| Joltage.BatteryBank.CheckedOffsetVal | 3/joltage/src/main.rs:90-104 | corrected bounds check: a battery is returned exactly for bankno < nbanks and offset < bank_width, and it is battery `offset` of that bank |
| Joltage.OffsetPastBankReadsNextBank | 3/joltage/src/main.rs:90-104 | as written, offset == bank_width passes the guard and reads the first battery of the next bank |
| Joltage.BatteryBank.Bank | 3/joltage/src/main.rs:106-115 | the slice of a bank has bank_width batteries, and battery `o` is the one `bank_offset_val(bankno, o)` reads |
| Joltage.BatteryBank.BankInRange | 3/joltage/src/main.rs:113-114 | for every bank below nbanks, the slice `base..base+bank_width` lies within a valid store |
| Joltage.MaxJoltage | 3/joltage/src/main.rs:117-124 | (no contract; body) the first largest digit among all but the last position, then the first largest digit after it, combined as tens and units; its meaning is `MaxJoltageIsBestPair` |
| Joltage.BatteryBank.BankMaxJoltage | 3/joltage/src/main.rs:117-124 | (no contract; body) `MaxJoltage` of the slice `Bank(bankno)`; its meaning is `BankMaxJoltageIsBestPair`; the requires bank_width >= 2 is recorded under "Left out" |
| Joltage.MaxJoltageIsBestPair | 3/joltage/src/main.rs:117-124 | the two-argmax rule gives the largest value 10·d[i] + d[j] over all i < j, this value is achieved by such a pair, and it is at most 99 for digits |
| Joltage.BankMaxJoltageIsBestPair | 3/joltage/src/main.rs:117-124 | a bank's joltage is the best ordered pair of its batteries and at most 99, so it fits the `u8` result |
| Joltage.BankTestValues | 3/joltage/src/main.rs:154-163 | the unit test: banks 1339 and 2416 have joltages 39 and 46 |
| Joltage.BatteryBank.SumMaxJoltages | 3/joltage/src/main.rs:126-132 | the loop returns the sum of every bank's joltage, which is at most 99·nbanks when every battery is a digit |
| Joltage.TotalOfBoundedBanks | 3/joltage/src/main.rs:126-132 | if every bank's joltage is at most 99, the total over k banks is at most 99·k |
| Joltage.TotalJoltageBound | 3/joltage/src/main.rs:126-132 | for a store of digits, the total over k banks is at most 99·k |
| Joltage.ProcessLine | 3/joltage/src/main.rs:47-62 | a line is accepted exactly when every byte is '1'..'9' and it is no wider than expected; it yields the digit values in order |
| Joltage.StoredRow | 3/joltage/src/main.rs:64-88 | after n lines of width w, bank y of the store is the digit values of line y |
| Joltage.ParsedBanks | 3/joltage/src/main.rs:64-88 | the parsed store is valid, bank b holds the digits of line b, and every battery is 1..9 |
| Joltage.NewFromLines | 3/joltage/src/main.rs:44-88 | reading succeeds exactly for well-formed lines: at least one line, digits 1-9 only, all lines as wide as the first except an empty last line; the result is the valid store of those lines |
| Postfix.LeadingRunSpans | 6/postfix/src/main.rs:13-42 | the leading run of a byte class covers exactly the bytes before the first byte outside the class |
| Postfix.LeadingRunUnique | 6/postfix/src/main.rs:13-42 | any count that covers only class bytes and stops at a non-class byte or the end is the leading run |
| Postfix.AsciiToU64 | 6/postfix/src/main.rs:13-34 | fails exactly for an empty slice or one not starting with a digit; otherwise returns the decimal value of the maximal digit prefix and its length (at least 1) |
| Postfix.DecimalRoundTrip | 6/postfix/src/main.rs:13-34 | the decimal spelling of any n, followed by a non-digit or nothing, is read back as n, with its full length consumed |
| Postfix.ConsumeSpace | 6/postfix/src/main.rs:36-42 | the count is the number of leading spaces: all bytes before it are spaces and the byte at it is not |
| Postfix.GetOp | 6/postfix/src/main.rs:74-80 | an operator is returned exactly for `+` and `*`; any other byte is an error carrying that byte |
| Postfix.GetOpRoundTrip | 6/postfix/src/main.rs:74-80 | each operator's byte maps back to the operator, and every accepted byte is its operator's byte |
| Postfix.ClassifyLineType | 6/postfix/src/main.rs:55-66 | the `Empty` line type is never returned |
| Postfix.ClassifyOutOfBounds | 6/postfix/src/main.rs:55-66 | indexing runs past the end exactly when the line is all spaces, including the empty line |
| Postfix.ClassifyByFirstNonSpace | 6/postfix/src/main.rs:55-66 | the first non-space byte decides: a digit makes a numbers line, `+`/`*` an operators line, anything else an unknown line |
| Postfix.ReadNumber | 6/postfix/src/main.rs:118-127 | one round of `process_num_line`: either no number follows (the rest of the row is empty) or it reads the next number and moves past it |
| Postfix.ReadOp | 6/postfix/src/main.rs:144-155 | one round of `process_op_line`: either no operator follows or it reads the next operator and moves past it |
| Postfix.ProcessNumLine | 6/postfix/src/main.rs:115-137 | succeeds exactly when there is no expected width or the row has at most that many numbers; it yields the row; otherwise it fails with the width error |
| Postfix.ProcessOpLine | 6/postfix/src/main.rs:141-165 | succeeds exactly when there is no expected width or the row has at most that many operators; it yields the row; otherwise it fails with the width error |
| Postfix.NumbersLineNonEmpty | 6/postfix/src/main.rs:173-174 | a line classified as numbers holds at least one number, so the width is at least 1 |
| Postfix.ProcessLaterLine | 6/postfix/src/main.rs:188-211 | a later line is accepted exactly when it is a numbers or operators line of exactly the width; it yields what the line holds |
| Postfix.ReadLaterLines | 6/postfix/src/main.rs:187-212 | the loop succeeds exactly when every later line fits the width; it gathers all numbers row after row and all operators in order |
| Postfix.AcceptedShape | 6/postfix/src/main.rs:187-219 | accepted lines have exactly one operator line; the other lines are number rows of the width, so the store holds height·width numbers |
| Postfix.NewFromLines | 6/postfix/src/main.rs:106-221 | reading succeeds exactly when the first line is numbers, every later line fits its width, and there are width operators; the worksheet is then valid, with height = lines − 1, the numbers row by row and the operators in order |
| Postfix.FoldRow | 6/postfix/src/main.rs:237-247 | after row h each accumulator holds its column's fold over rows 0..h |
| Postfix.Solve | 6/postfix/src/main.rs:223-250 | one result per column, each the sum or the product (per that column's operator) of the column's numbers |
| Postfix.SampleWorksheet | 6/postfix/src/main.rs:223-250 | on a 3-row, 4-column worksheet, `solve` gives 33210, 490, 4243455 and 401 |
| Forklift.AtRowMajor | 4/forklift/src/main.rs:90-96 | cell (x, y) of the map is element y·width + x of the row-major store, and that index is in range |
| Forklift.FreeClearsOneCell | 4/forklift/src/main.rs:98-104 | freeing (x, y) empties that cell and leaves every other cell as it was |
| Forklift.NeighborCountIsEightCells | 4/forklift/src/main.rs:125-144 | the 3×3 loop counts the rolls in the eight surrounding cells, off-map cells as empty, so at most 8 |
| Forklift.FreeCountZeroIffSettled | 4/forklift/src/main.rs:147-157 | the free count is 0 exactly when no roll has fewer than `threshold` occupied neighbours |
| Forklift.VisitOccupied | 4/forklift/src/main.rs:163-167 | visiting one cell removes one roll exactly when that roll is freeable, and never adds a roll |
| Forklift.PassShrinks | 4/forklift/src/main.rs:159-172 | one removal pass never adds a roll, so the roll count can only fall |
| Forklift.PassIdleIffNoneFree | 4/forklift/src/main.rs:159-184 | a pass removes nothing exactly when no roll is freeable, and then it leaves the map unchanged, which is the exit test of the repeat loop |
| Forklift.ExhaustSettles | 4/forklift/src/main.rs:174-184 | repeating passes until one removes nothing ends on a map where no roll is freeable, having only removed rolls |
| Forklift.FloorMap.constructor | 4/forklift/src/main.rs:83-87 | the map object holds exactly the given width, height and cells |
| Forklift.FloorMap.MapVal | 4/forklift/src/main.rs:90-96 | any off-map coordinate reads as empty; an on-map one reads its cell |
| Forklift.FloorMap.FreeVal | 4/forklift/src/main.rs:98-104 | only the store element y·width + x changes, and it becomes empty |
| Forklift.FloorMap.CountNeighbors | 4/forklift/src/main.rs:106-145 | returns the number of occupied cells among the eight neighbours, at most 8 |
| Forklift.FloorMap.CountFree | 4/forklift/src/main.rs:147-157 | returns the number of rolls with fewer than `threshold` occupied neighbours, without changing the map |
| Forklift.FloorMap.MarkCell | 4/forklift/src/main.rs:163-168 | one cell of a pass: reports whether the cell was a freeable roll and frees exactly that |
| Forklift.FloorMap.CountAndMarkFree | 4/forklift/src/main.rs:159-172 | the map becomes the result of one column-by-column pass; the returned count is the number of rolls removed |
| Forklift.FloorMap.CountAndMarkExhaust | 4/forklift/src/main.rs:174-184 | the map becomes the settled map; the return is the total number of rolls removed; no roll remains freeable and no roll is added |
| Forklift.ProcessLine | 4/forklift/src/main.rs:44-62 | a line is accepted exactly when every byte is `@` or `.` and it is no wider than expected; it yields one cell per byte, occupied for `@` |
| Forklift.ParsedMap | 4/forklift/src/main.rs:35-88 | the parsed map is valid, and its cell (x, y) is occupied exactly when byte x of line y is `@` |
| Forklift.NewFromLines | 4/forklift/src/main.rs:35-88 | reading succeeds exactly for well-formed lines: at least one line, only `@`/`.`, all lines as wide as the first except an empty last line; the result is the parsed map |
| Forklift.SampleCorner | 4/forklift/src/main.rs:225-238 | on the ten-line sample map, the top-left cell has 2 occupied neighbours |
| Forklift.SampleCornerNeighbors | 4/forklift/src/main.rs:225-238 | building the sample map and calling `count_neighbors(0, 0)` returns 2, as the unit test asserts |

## Left out

- File reading (`read_lines`, `new_from_file`, the file opening in `BatteryBank::new`), `main`, command-line arguments, logging and printing are not modelled. The readers take the lines as a sequence of byte strings; the rotator takes each line as a string.
- Fixed-width integers are not modelled; all integers are unbounded. This covers:
  - `u64` overflow in `ascii_to_u64` and in `solve`'s sums and products;
  - `u32` overflow in `sum_max_joltages` and `count_free`;
  - `i32` overflow in `Dial`;
  - the `u8` of a bank's joltage and neighbour count, which are proved to be at most 99 and 8.
- Joltage.BatteryBank.SumMaxJoltages: requires bank_width >= 2 whenever there is a bank, and so does Joltage.BatteryBank.BankMaxJoltage. `BatteryBank::new` accepts lines one battery wide (or a single empty line), and `main` then calls `sum_max_joltages`. In the source, a width of 1 makes `bank_max_joltage` pass an empty slice to `argmax`, which panics; a width of 0 underflows `len() - 1`. The model excludes these stores by the requires instead of modelling the panic.
- Joltage.BatteryBank.BankMaxJoltage: the same requires bank_width >= 2, for the same reason.
- Rotator.ParseLine: `str::parse::<i32>` also rejects numbers outside the `i32` range. The model accepts digits of any length.
- Postfix.ClassifyLineType: the source indexes past the end of an all-space or empty line, which panics. This is modelled as the error `IndexOutOfBounds`. As a result the `Empty` line type is never produced, and the `Empty` branches of `new_from_lines` are unreachable and not modelled.
- Postfix.NewFromLines: the final `assert!` on the operator count becomes the error `OpsCount`. Any other failure becomes a `ParseError` rather than a specific panic message.
- Forklift.FloorMap.CountFree: the unit test's expected answers on the sample map are not proved. These are `count_free(4) == 13` and `count_and_mark_exhaust(4) == 43`; evaluating the whole 10×10 map in the verifier is too costly. Only `count_neighbors(0, 0) == 2` from that test is proved.
- The forklift tests `test_new_map` and `test_new_map_file` are not modelled. `test_new_map` builds a literal 16-cell map labelled width 4, height 3 and asserts nothing. `test_new_map_file` reads `test.txt` through `new_from_file`.
- The `main` functions are not modelled.
- The spec-level map (`Forklift.Grid`) addresses cells by a row-by-row offset, proved equal to y·width + x. The class stores the cells row-major in an `array<bool>`, as the `Vec<bool>` does.

## Findings

| source | as written | input that shows it | evidently intended | confidence | as-written member | corrected member |
|---|---|---|---|---|---|---|
| 1/rotator/src/main.rs:53 | a spin that ends on 0 adds one crossing whenever n != 0, on top of the abs(n/100) whole turns | from position 0, `R100` (n = 100): one whole turn is counted, then one more for ending on 0, giving 2; only one click lands on 0 | count one click per landing on 0; the end-on-0 bonus applies only when the partial turn `n - div*100` is non-zero | high, not executed | Rotator.CrossingsOvercountAtZero | Rotator.FixedCrossingsCountClicks |
| 3/joltage/src/main.rs:91,97 | the guards reject only bankno > nbanks and offset > bank_width | a store of 2 banks of width 4: `bank_offset_val(0, 4)` passes the guard and returns battery 0 of bank 1 | reject bankno >= nbanks and offset >= bank_width | high, not executed | Joltage.OffsetPastBankReadsNextBank | Joltage.BatteryBank.CheckedOffsetVal |
