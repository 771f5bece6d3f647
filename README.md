# pick_9: aggregation store and trial classifier, modelled in Dafny

The system runs a distributed Monte-Carlo experiment. Worker threads run batches of a fixed
random trial. Each trial rolls twelve dice and tosses one coin. The results are counted in five
frequency tables: `three_digit_number` (670 cells), `mod_by_9` (9), `divided_by_9_count` (5),
`coin_head_calc` (17) and `coin_tail_calc` (6). Workers upload each batch to a server. The
server's `DataBase` adds every batch into its stored tables cell by cell. It keeps a running
grand total, the sum of `divided_by_9_count`, and rewrites a JSON snapshot after every add. In
the snapshot every counter is a decimal string, because the counters are `u128`.

The model has six modules:

- `Wrappers` holds the `Option` datatype. `None` stands for a panic of the source's `unwrap`.
- `Decimal` models decimal numerals. `NatToDecimal` is `format!("{}", n)`. `ParseU128` is
  `str::parse::<u128>`, including its left-to-right digit loop with checked overflow.
- `Counters` holds the five-table value `Collector`, the fixed lengths, `Sum`, and the all-zero
  tables. Both programs use this shape; it is what travels as JSON between them.
- `Database` models src/database.rs. It has the snapshot record `CollectorStore`, the codec
  `FromCollector` / `IntoCollector`, the merge `Merge`, and the class `DataBase`. The class keeps
  the five tables as arrays and has the fields `total` and `file`. Its methods are `Open` (`new`),
  `Add` and `Save`.
- `Compute` models src/compute.rs. The class `Collector` keeps the worker's fixed-size arrays.
  Its methods are `ThreeDigitNumber`, `DividedBy9Count`, `Round` and `IntoVec`. `RunBatch` is one
  batch loop. The dice and the coin are inputs (`Trial`). The pure functions `RoundResult` and
  `Rounds` specify the methods.
- `Experiment` links the two programs. When the store merges the batches the workers upload, its
  grand total grows by exactly the number of trials run.

How the source behaves, which the model follows:

- `into_collector` does not check table lengths. A snapshot with wrong-length tables still
  decodes. Only a string that is not a `u128` numeral makes it fail.
- `u128::from_str` also accepts a leading `+` and leading zeros, so decoding accepts more than
  the canonical numerals that encoding writes.
- `add` does not reject a batch of the wrong shape. A table shorter than its fixed length makes
  it panic on an index. Cells beyond the fixed length are ignored in the batch and left unchanged
  in the store.
- `add` writes the snapshot after releasing its locks. The model treats `add` as one atomic step
  that ends with the save.

## Model

| member | source | states |
|---|---|---|
| `Decimal.NatToDecimal` | src/database.rs:27-31 | `format!("{}", n)` gives a canonical numeral: digits only, no leading zero except "0". Its decimal value is `n`. |
| `Decimal.CanonicalIsFormatted` | src/database.rs:27-31 | Every canonical numeral is the one written for its own value, so each counter has a single text form. |
| `Decimal.ParseDigits` | src/database.rs:37-41 | The digit loop of `u128::from_str` (`acc * 10 + digit`, checked) succeeds iff every character is a digit and `acc * 10^len + value < 2^128`. It then returns that number. |
| `Decimal.ParseU128` | src/database.rs:37-41 | `parse::<u128>` succeeds iff the text is an optional '+' and at least one digit, with value below 2^128. It returns that value. Empty text, a lone '+', a '-', any other character and overflow all fail. |
| `Decimal.ParseFormatted` | src/database.rs:25-43 | Parsing what `format!` wrote gives back `n`, for every `n < 2^128`. |
| `Counters.ZeroCollector` | src/database.rs:59-65 | The fresh tables have lengths 670, 9, 5, 17 and 6, and every cell is zero. |
| `Database.FormatTable` | src/database.rs:27 | Encoding a table keeps its length. Each cell becomes the canonical numeral of its counter. |
| `Database.FromCollector` | src/database.rs:25-33 | `from_collector` encodes each of the five tables cell by cell as canonical numerals and keeps every length. |
| `Database.ParseTable` | src/database.rs:37 | Decoding a table succeeds iff every string parses as a `u128`. The result then has the same length and holds each parsed value. |
| `Database.IntoCollector` | src/database.rs:35-43 | `into_collector` succeeds iff every string of all five tables parses. It does not check table lengths. Each table keeps its length and holds the parsed values. |
| `Database.TableRoundTrip` | src/database.rs:27-41 | Decoding an encoded table gives the table back when every cell is below 2^128. |
| `Database.IntoFromCollector` | src/database.rs:25-43 | `into_collector(from_collector(c)) == c` for every collector of `u128` counters, including counters above 2^64. |
| `Database.IntoCollectorRejects` | src/database.rs:35-43 | One string that is not a numeral, or that is 2^128 or more, in any table makes decoding fail (the `unwrap` panic). |
| `Database.MergeTable` | src/database.rs:99-115 | The pure form of one `+=` loop of `add`: the first `n` cells are stored plus batch, the cells from `n` on are the stored ones, and the length is kept. Its sum is in `MergeTableSum`. |
| `Database.Merge` | src/database.rs:99-115 | The tables `add` leaves behind: each table merged over its fixed length 670/9/5/17/6, and the result still covers those lengths. It commutes (`MergeCommutes`) and adds the batch's trials to the total (`MergeTotal`). |
| `Database.MergeCommutes` | src/database.rs:99-115 | Two batches added in either order leave the same tables. |
| `Database.MergeTableSum` | src/database.rs:105-108 | Merging a table adds the sum of the batch's first `n` cells to the table's sum. |
| `Database.MergeTotal` | src/database.rs:105-108 | After a merge, the trial-count table sums to the old sum plus the sum of the batch's first five cells. |
| `Database.Startup` | src/database.rs:55-73 | With no file, `new` starts from the all-zero tables of the fixed shape. With a file, it starts from the decoded snapshot. It fails (panics) iff decoding fails or the `u128` total overflows. Its tables fit `u128`. |
| `Database.RestartRecovers` | src/database.rs:55-93 | Starting from a snapshot that `save` wrote gives back exactly the saved tables. |
| `Database.RestartThenAdd` | src/database.rs:53-120 | Opening the store on a snapshot that `save` wrote and then adding a batch returns the saved trial count plus the batch's, and the file written decodes to the merged tables. |
| `Database.DataBase.TableSum` | src/database.rs:70-73 | The `for` loop over `divided_by_9_count` computes the sum of the table. |
| `Database.DataBase.constructor` | src/database.rs:76-80 | The new object holds the given tables, file path, file content and total, and satisfies the store invariant. Its five tables are newly allocated arrays, because `new` moves the collector into the store and nothing else shares it. |
| `Database.DataBase.Open` | src/database.rs:53-81 | `new` fails where `Startup` fails. Otherwise it returns a fresh store that owns five newly allocated tables holding `Startup`'s values, with `total == sum(divided_by_9_count)`, and the file is unchanged. |
| `Database.DataBase.Save` | src/database.rs:83-93 | The snapshot file is overwritten with the encoding of the current tables. The store invariant is kept. |
| `Database.DataBase.Add` | src/database.rs:95-120 | Each table's first 670/9/5/17/6 cells become old plus batch, and later cells are unchanged. `total` becomes the old total plus the sum of the batch's first five `divided_by_9_count` cells, and `Add` returns it. The invariant `total == sum(divided_by_9_count)` is kept. The file then holds the encoding of the new tables. |
| `Database.AddInto` | src/database.rs:99-115 | One `stored[i] += batch[i]` loop: the first `n` cells are old plus batch, the rest are unchanged. |
| `Database.AddIntoCounting` | src/database.rs:105-109 | The `divided_by_9_count` loop also adds each cell into the running total. The total rises by the sum of the batch's first `n` cells and stays equal to the table's sum. |
| `Compute.Number` | src/compute.rs:150-157 | With dice in 1..=6, `3 + d1 + 10*d2 + 100*d3` lies in 114..669, inside the 670-cell table. |
| `Compute.Drawn` | src/compute.rs:132-135 | Each of a round's four numbers is a valid index of `three_digit_number`. |
| `Compute.Residues` | src/compute.rs:132-139 | The four residues `n % 9` are valid indices of `mod_by_9`. |
| `Compute.ZeroCount` | src/compute.rs:141-145 | `count` lies in 0..4, so it is a valid index of `divided_by_9_count`. |
| `Compute.ZeroCountIsMultiplicity` | src/compute.rs:141-147 | `count` is the number of the four residues that are 0. |
| `Compute.CoinIndex` | src/compute.rs:115-125 | On heads the index `x*x` is in {0, 1, 4, 9, 16}, below 17. On tails the index `x+1` is in 1..5, below 6. |
| `Compute.Bump` | src/compute.rs:155 | One `table[i] += 1`. The length is kept, and `BumpSum` gives its sum. |
| `Compute.CountNumbers` | src/compute.rs:132-135 | The `three_digit_number` table after the four numbers of a round are counted, one `+= 1` each in drawing order. The length is kept; `RoundSums` proves the sum rises by 4. |
| `Compute.CountResidues` | src/compute.rs:136-139 | The `mod_by_9` table after the four residues `n % 9` are counted, one `+= 1` each. The length is kept; `RoundSums` proves the sum rises by 4. |
| `Compute.BumpSum` | src/compute.rs:155 | A `table[i] += 1` raises the table's sum by exactly 1. |
| `Compute.RoundResult` | src/compute.rs:115-157 | A round keeps every table at its fixed length. |
| `Compute.RoundSums` | src/compute.rs:115-157 | A round raises the sums of `three_digit_number` and `mod_by_9` by 4 and of `divided_by_9_count` by 1. It raises exactly one coin table by 1, the one the coin picks, and leaves the other unchanged. |
| `Compute.Rounds` | src/compute.rs:81-83 | Any number of rounds keeps the fixed shape. |
| `Compute.RoundsSums` | src/compute.rs:81-83 | After N rounds the sums have risen by 4N, 4N and N, and the two coin tables together by N. |
| `Compute.BatchCountsTrials` | src/compute.rs:73-83 | After N rounds from zero, `sum(divided_by_9_count) == N`, and the other sums are 4N, 4N and N. |
| `Compute.FullBatchCountsRound` | src/compute.rs:15-83 | A batch of `ROUND` (100000000) trials, as the source runs it, adds exactly `ROUND` to the trial count. |
| `Compute.Collector.constructor` | src/compute.rs:73-79 | A new worker collector has fresh arrays of the fixed lengths, all zero. |
| `Compute.Collector.IntoVec` | src/compute.rs:26-34 | `into_vec` keeps each table's length and contents. |
| `Compute.Collector.ThreeDigitNumber` | src/compute.rs:150-157 | The method returns `3 + d1 + 10*d2 + 100*d3`, which is below 670. Exactly that cell rises by 1. |
| `Compute.Collector.CountModBy9` | src/compute.rs:136-139 | The four residue cells are each counted once. |
| `Compute.Collector.DividedBy9Count` | src/compute.rs:129-148 | The method counts the four numbers and the four residues. It returns the number of zero residues and raises that `divided_by_9_count` cell by 1. |
| `Compute.Collector.Round` | src/compute.rs:115-126 | The new tables are `RoundResult` of the old ones. The returned index is in bounds of the coin table the coin picks. |
| `Compute.RunBatch` | src/compute.rs:73-87 | A batch of N rounds from zero, then `into_vec`, gives `Rounds(zero, trials)`: the fixed shape, with `sum(divided_by_9_count) == N`. |
| `Experiment.MergeAll` | src/server.rs:39-43 | The store's tables after the uploaded batches are added one after the other. Every table still covers its fixed length. |
| `Experiment.Batches` | src/compute.rs:73-87 | Every uploaded batch covers the shape the store's `add` indexes. |
| `Experiment.GrandTotalCountsTrials` | src/server.rs:39-43 | When the store merges the uploaded batches, the trial-count sum rises by exactly the number of trials run. |
| `Experiment.FreshStoreCountsTrials` | src/database.rs:95-120 | A fresh store that receives the workers' batches has a grand total equal to the number of trials run. |

## Left out

- Randomness: `dice` and `coin` (src/compute.rs:162-169) are not modelled. Their results are the input `Trial`: twelve dice in 1..=6 and a boolean, in drawing order.
- `main` in src/compute.rs: the threads, HTTP client, environment and argument parsing, retry loop and logging are left out, and so is the floating-point speed figure. Only the batch loop is modelled. `RunBatch` runs any number of rounds, where the source always runs `ROUND` (100000000); `FullBatchCountsRound` states the count for that case.
- src/server.rs: only its handler, which forwards each uploaded batch to `DataBase::add`, is modelled (as `Experiment.MergeAll`). The actix-web bootstrap, JSON extraction and logging are left out.
- File I/O: `path.exists`, `create_dir_all`, `read_to_string` and `fs::write` are not modelled. The file is the field `DataBase.file` of type `Option<CollectorStore>`, and `Open` takes its startup content as input.
- JSON syntax (serde_json) is not modelled. The snapshot is the record `CollectorStore` of five string sequences, and a batch arrives already decoded as a `Counters.Collector`.
- Concurrency: the two `Mutex` fields, and the save that `add` does after releasing them, are not modelled. `Add` is one atomic single-threaded step whose last action is `Save`.
- Integer widths: counters are `nat`. Stored counters and `total` are kept below 2^128 (an invariant and a precondition of `Add`). A worker's `usize` counters cannot overflow within one batch, so they are left unbounded.
- Database.DataBase.Add: the source panics on an index when a stored or batch table is shorter than its fixed length, or when a `u128` addition overflows. The model requires neither to happen instead of modelling the panic.
- Database.Startup: overflow of the `u128` total while summing the snapshot is treated as a startup failure, as in a debug build. A release build would wrap instead; that is not modelled.
