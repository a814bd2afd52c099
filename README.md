# cpp_otus core, modelled in Dafny

This project models the core of a set of small C++ course examples.

The main piece is the "nuclear reaction" reduction in
`ch_24_concurrency_templates/nuclear_reaction.cpp`. It sums `value + 42` over a
vector in three ways:

- `motivation::example` is a sequential `for_each`.
- `basics::nuclearReaction` recursively bisects the iterator range.
- `middle::nuclearReaction` first keeps a self portion of `size / maxThreadCount`
  elements, then bisects the rest.

Both recursive versions add into one shared `sum`. They add 2 to a shared
`threadCount` at each split. A branch becomes a leaf when
`threadCount > maxThreadCount` or the range has fewer than 10 elements.

The model is the class `NuclearReaction.Reaction`. It holds `sum`,
`threadCount` and two ghost fields: a split counter and the trace of ranges
that worker calls reduced. The recursive methods run the two children of a
split one after the other; the joins permit that schedule.

The proofs cover:

- the leaves tile the range in order, so every element is reduced exactly once;
- the final `sum` equals the sequential fold;
- both recursions terminate, because each child range is strictly smaller;
- `threadCount == 1 + 2 * splits` stays at most 9, so there are at most 4 splits;
- the 1000-zero demos all give 42000.

The smaller pattern examples are modelled beside it, one module per file:

- the file-system composite (`Composite`);
- the flyweight image cache (`Flyweight`);
- `MyString::assign` (`RaceConditions`);
- the factory-method forms and `CreateFoo` (`FactoryMethod`);
- the severity-filtered loggers and the `Logger` singleton (`Singleton`);
- the level-gated logging proxy (`Proxy`).

Console output is modelled as the sequence of lines a call emits; the singleton `Logger` writes to `std::cerr`, modelled as a `Stream` object holding the lines written so far.

`nuclearWorker` tests `threadCount > maxThreadCount` and only then adds 2, so
even with one branch at a time the counter can pass the cap of 8 and reach 9.
On the 1000-element demo, with the children run one after the other, the splits
at sizes 1000, 500, 250 and 125 take it from 1 to 9. On an input of fewer than
10 elements there is no split, and it stays at 1. The model follows the code
and proves only the bound `threadCount <= 9`.

## Model

| member | source | states |
|---|---|---|
| NuclearReaction.Worker | ch_24_concurrency_templates/nuclear_reaction.cpp:49-57 | returns the sum of `value + 42` over `[from, to)`, which is 0 for an empty range; the values are a read-only sequence |
| NuclearReaction.SequentialSum | ch_24_concurrency_templates/nuclear_reaction.cpp:26-32 | the `for_each` accumulates exactly the sequential fold `Total(values)` |
| NuclearReaction.MotivationExample | ch_24_concurrency_templates/nuclear_reaction.cpp:20-36 | 1000 zeros sum to 42000 |
| NuclearReaction.TotalOfZeros | ch_24_concurrency_templates/nuclear_reaction.cpp:23-32 | a vector of n zeros totals 42 * n |
| NuclearReaction.TotalAppend | ch_24_concurrency_templates/nuclear_reaction.cpp:51-55 | the fold over a concatenation is the sum of the folds over its parts |
| NuclearReaction.RangeSumSplit | ch_24_concurrency_templates/nuclear_reaction.cpp:78-83 | cutting a range at any point splits its total into the totals of the two parts |
| NuclearReaction.BisectAt | ch_24_concurrency_templates/nuclear_reaction.cpp:69-78 | the split point lies inside the range; the two halves differ by at most one element, the right half being the larger; both are non-empty, and so strictly smaller, once the range has 2 elements |
| NuclearReaction.SelfSplitAt | ch_24_concurrency_templates/nuclear_reaction.cpp:128-149 | the self portion holds floor(size / 8) elements; the rest is bisected as in the basics split; from 10 elements on, the self portion and both child ranges are non-empty, so both children are strictly smaller |
| NuclearReaction.TilesAppend | ch_24_concurrency_templates/nuclear_reaction.cpp:77-84 | a tiling of `[lo, mid)` followed by one of `[mid, hi)` tiles `[lo, hi)` |
| NuclearReaction.TilesDisjoint | ch_24_concurrency_templates/nuclear_reaction.cpp:137-157 | pieces of a tiling lie inside the range and earlier pieces end before later ones start, so no index is reduced twice |
| NuclearReaction.TilesCover | ch_24_concurrency_templates/nuclear_reaction.cpp:137-157 | every index of a tiled range lies in some piece, so no index is skipped |
| NuclearReaction.TilesSum | ch_24_concurrency_templates/nuclear_reaction.cpp:131-157 | whatever the tiling, the totals of its pieces add up to the total of the range |
| NuclearReaction.Reaction.constructor | ch_24_concurrency_templates/nuclear_reaction.cpp:47-60 | `sum` starts at 0, `threadCount` at 1, no splits and no leaves yet |
| NuclearReaction.Reaction.BasicsWorker | ch_24_concurrency_templates/nuclear_reaction.cpp:64-85 | adds the total of `[lo, hi)` to `sum`; is a leaf exactly when `threadCount > 8` or size < 10; a leaf leaves `threadCount` alone and records its whole range as the one leaf; otherwise `threadCount` only grows; the recorded leaves tile `[lo, hi)` in order; `threadCount == 1 + 2 * splits <= 9` is kept |
| NuclearReaction.Reaction.MiddleWorker | ch_24_concurrency_templates/nuclear_reaction.cpp:123-158 | the same guarantees for the self-retaining variant, where a split also reduces its self portion in place |
| NuclearReaction.BasicsReduce | ch_24_concurrency_templates/nuclear_reaction.cpp:88-93 | on any vector, the final `sum` equals the sequential fold; `threadCount` ends odd and at most 9 |
| NuclearReaction.MiddleReduce | ch_24_concurrency_templates/nuclear_reaction.cpp:160-162 | the same for the middle variant |
| NuclearReaction.BasicsNuclearReaction | ch_24_concurrency_templates/nuclear_reaction.cpp:41-95 | the basics demo on 1000 zeros gives 42000 |
| NuclearReaction.MiddleNuclearReaction | ch_24_concurrency_templates/nuclear_reaction.cpp:100-164 | the middle demo on 1000 zeros gives 42000 |
| Composite.SizeOf | ch_14_GoF_2/composite.cpp:15-33 | a size is never negative |
| Composite.SizeCountsFiles | ch_14_GoF_2/composite.cpp:15-33 | every size is 1024 times the number of files reachable through nested directories |
| Composite.EntriesSizeCountsFiles | ch_14_GoF_2/composite.cpp:27-33 | the loop over a directory's entries totals 1024 times the files they hold |
| Composite.WithObject | ch_14_GoF_2/composite.cpp:35-37 | `add_object` on a file does nothing; on a directory it appends exactly one entry at the end and keeps the earlier ones in order |
| Composite.WithObjectSize | ch_14_GoF_2/composite.cpp:27-37 | adding an entry to a directory adds the entry's size; adding to a file changes nothing |
| Composite.Directory.constructor | ch_14_GoF_2/composite.cpp:44-47 | a new directory has no entries |
| Composite.Directory.AddObject | ch_14_GoF_2/composite.cpp:35-37 | `push_back`: the entry list gains the new object at its end |
| Composite.Directory.Size | ch_14_GoF_2/composite.cpp:27-33 | the loop's total is the directory's size; an empty directory has size 0 |
| Composite.Subdir | ch_14_GoF_2/composite.cpp:43-48 | a fresh directory holding two files, of size 2048 |
| Composite.CompositeMain | ch_14_GoF_2/composite.cpp:50-54 | the root holding `subdir()` has size 2048 |
| Flyweight.BoxImage | ch_14_GoF_2/flyweight.cpp:22-23 | a miss creates an image resized to `w` by `w` |
| Flyweight.CacheAfter | ch_14_GoF_2/flyweight.cpp:19-28 | after `get_box(w)` the keys are the old keys plus `w`; old entries keep their values; on a miss `w` maps to a new `w` by `w` image; the map grows by at most one |
| Flyweight.CacheAfterGrowth | ch_14_GoF_2/flyweight.cpp:20-27 | a hit leaves the cache unchanged, and a miss adds exactly one entry |
| Flyweight.CacheAfterIdempotent | ch_14_GoF_2/flyweight.cpp:20-27 | calling `get_box(w)` twice leaves the same cache as calling it once |
| Flyweight.ImageResizer.constructor | ch_14_GoF_2/flyweight.cpp:15-16 | a new resizer has an empty cache |
| Flyweight.ImageResizer.GetBox | ch_14_GoF_2/flyweight.cpp:19-29 | updates `images` as `CacheAfter` says and returns the image stored under `w`; on a hit the cache is untouched |
| Flyweight.TestImageResizer | ch_14_GoF_2/flyweight.cpp:32-43 | boxes 100, 640 and 1000 leave exactly three entries |
| Flyweight.ImageView.constructor | ch_14_GoF_2/flyweight.cpp:47-49 | the view keeps the width, height and image it is given |
| RaceConditions.StrLen | ch_23_multithreding/raceconditions.cpp:13 | `strlen` is the index of the first NUL |
| RaceConditions.MyString.constructor | ch_23_multithreding/raceconditions.cpp:27-28 | a new string has a null buffer and size 0 |
| RaceConditions.MyString.Assign | ch_23_multithreding/raceconditions.cpp:12-19 | as written: `m_size` is `strlen(str)`; the buffer is fresh, so nothing earlier survives; it has exactly `m_size` cells holding `str`'s first `m_size` characters; it holds no NUL, so `operator<<` cannot be called on it |
| RaceConditions.MyString.AssignTerminated | ch_23_multithreding/raceconditions.cpp:12-19 | corrected: the buffer also gets the terminator, so `operator<<` can be called on it |
| RaceConditions.MyString.Print | ch_23_multithreding/raceconditions.cpp:21-24 | needs a NUL inside the buffer and writes exactly the characters before the first one |
| RaceConditions.RaceConditionsMain | ch_23_multithreding/raceconditions.cpp:31-36 | with the corrected `assign`, "Hello, World!" is written back unchanged |
| FactoryMethod.UIForm.constructor | ch_13_gof_1/factory_method.cpp:35-36 | a form starts with no buttons and no edits |
| FactoryMethod.UIForm.AddButton | ch_13_gof_1/factory_method.cpp:18-20 | leaves the form unchanged |
| FactoryMethod.UIForm.AddEdit | ch_13_gof_1/factory_method.cpp:22-24 | leaves the form unchanged |
| FactoryMethod.UIForm.Show | ch_13_gof_1/factory_method.cpp:26-28 | leaves the form unchanged |
| FactoryMethod.UIForm.Close | ch_13_gof_1/factory_method.cpp:30-32 | leaves the form unchanged |
| FactoryMethod.MakeButton | ch_13_gof_1/factory_method.cpp:89-118 | a `BaseUIForm` makes a base button and a `ModernUIForm` a modern one, and only then |
| FactoryMethod.MakeEdit | ch_13_gof_1/factory_method.cpp:94-123 | a `BaseUIForm` makes a base edit and a `ModernUIForm` a modern one, and only then |
| FactoryMethod.BaseUIForm.constructor | ch_13_gof_1/factory_method.cpp:99-127 | a form starts with all four lists empty |
| FactoryMethod.BaseUIForm.AddButton | ch_13_gof_1/factory_method.cpp:70-73 | appends exactly one button of the form's own kind; the edits and the shadowing lists are unchanged |
| FactoryMethod.BaseUIForm.AddEdit | ch_13_gof_1/factory_method.cpp:75-78 | appends exactly one edit of the form's own kind; the buttons and the shadowing lists are unchanged |
| FactoryMethod.BaseUIForm.Show | ch_13_gof_1/factory_method.cpp:80-83 | leaves the form unchanged |
| FactoryMethod.BaseUIForm.Close | ch_13_gof_1/factory_method.cpp:85-87 | leaves the form unchanged |
| FactoryMethod.ModernFormWidgets | ch_13_gof_1/factory_method.cpp:112-128 | a `ModernUIForm` puts modern widgets into the base-class lists, and its own lists stay empty |
| FactoryMethod.CreateFoo | ch_13_gof_1/factory_method.cpp:133-145 | returns null exactly when `val < 0`, and otherwise a `Foo` whose `m_val` is `val` |
| Singleton.SeverityOrder | ch_13_gof_1/singleton.cpp:41-46 | `error < warn < info`, and the order is total and antisymmetric |
| Singleton.Filtered | ch_13_gof_1/singleton.cpp:50-66 | a filtered print emits its line exactly when `severity >= level`, and nothing else |
| Singleton.ErrorAt | ch_13_gof_1/singleton.cpp:50-54 | `error` is emitted for every severity setting |
| Singleton.WarnAt | ch_13_gof_1/singleton.cpp:56-60 | `warn` is emitted exactly when the setting is `warn` or `info` |
| Singleton.InfoAt | ch_13_gof_1/singleton.cpp:62-66 | `info` is emitted exactly when the setting is `info` |
| Singleton.RaisingNeverSuppresses | ch_13_gof_1/singleton.cpp:50-66 | raising the setting never silences a message that a lower setting let through |
| Singleton.SimpleLogger.LogError | ch_13_gof_1/singleton.cpp:81-85 | `SimpleLogger::error` filters exactly as the free `error` does |
| Singleton.SimpleLogger.LogWarn | ch_13_gof_1/singleton.cpp:87-91 | `SimpleLogger::warn` filters exactly as the free `warn` does |
| Singleton.SimpleLogger.LogInfo | ch_13_gof_1/singleton.cpp:93-97 | `SimpleLogger::info` filters exactly as the free `info` does |
| Singleton.DefaultFilters | ch_13_gof_1/singleton.cpp:48-100 | with the default setting `warn`, errors and warnings are emitted and information is not, for both the free functions and the global `SimpleLogger` |
| Singleton.Logger.LogInfo | ch_13_gof_1/singleton.cpp:119-121 | on every call, with no check, appends exactly one `\tinfo: ` line carrying the message to the error stream and keeps the earlier lines |
| Singleton.Logger.LogWarn | ch_13_gof_1/singleton.cpp:123-125 | on every call, with no check, appends exactly one `warning: ` line carrying the message to the error stream and keeps the earlier lines |
| Singleton.LoggerInstance.constructor | ch_13_gof_1/singleton.cpp:106 | before the first `getInstance` call no logger exists |
| Singleton.LoggerInstance.GetInstance | ch_13_gof_1/singleton.cpp:105-108 | the first call creates the logger; every later call returns that same object |
| Singleton.SingletonMain | ch_13_gof_1/singleton.cpp:139-156 | all `getInstance` calls yield one object, and starting from an empty error stream, the four calls leave exactly their four lines on it, in order |
| Proxy.Info | ch_14_GoF_2/proxy.cpp:37-42 | emits nothing or one "info"; a `LevelLogger` forwards to the wrapped logger when its level is positive and emits nothing when it is zero or negative |
| Proxy.Error | ch_14_GoF_2/proxy.cpp:43-46 | forwards through every proxy whatever its level: always exactly one "error" |
| Proxy.InfoGetsThrough | ch_14_GoF_2/proxy.cpp:37-42 | "info" reaches the console exactly when every proxy on the chain has a positive level |
| Proxy.ProxyMain | ch_14_GoF_2/proxy.cpp:49-54 | through a proxy with level 0, `info` prints nothing and `error` prints exactly one "error" |

## Left out

- Threads, atomics and joins in nuclear_reaction.cpp: a split runs its two children one after the other, which is one schedule the joins allow. Concurrent interleavings are not modelled. In particular, the gap between the check of `threadCount` and its increment lets concurrent branches push the counter past 9. The bound 9 is proved only for one branch at a time.
- NuclearReaction.Reaction.MiddleWorker: reduces its self portion before running the children. The source starts both threads first and then reduces the self portion while they run. The sum and the counter are the same in either order, and this order keeps the leaf trace in index order.
- NuclearReaction.Worker, NuclearReaction.SequentialSum, NuclearReaction.Reaction.BasicsWorker, NuclearReaction.Reaction.MiddleWorker, NuclearReaction.BasicsReduce, NuclearReaction.MiddleReduce: the source's sums are computed modulo 2^64, since each `value + 42` is converted to `size_t`, and `value + 42` itself is a 32-bit `int`. The model uses mathematical integers, so its equalities hold for inputs whose contributions and total fit those types, which the source's all-zero vectors do. A value below -42 already wraps in the source: for `[-50]` the C++ worker returns 2^64 - 8 where `Worker` returns -8. The `std::cout` traces are not modelled.
- Composite: entries are values. A directory added to another is stored as its contents at that moment, so later changes to the added directory object are not seen through its parent; `main` makes none. The destructors' `delete` and the `int` range of sizes are not modelled.
- Flyweight: the source's `Image` has no state, and `resize`, `crop` and `show` have empty bodies. The model's image only remembers its box so that cache entries can be compared. `testImageView` only builds two views, which `ImageView.constructor` covers.
- RaceConditions: the destructor's `delete[]` is not modelled. `operator<<` on a fresh string, whose buffer is null, is excluded by the same requirement as the missing terminator.
- FactoryMethod: `unique_ptr` ownership, the abstract `IUIForm` interface and `NewSuperButton` are not modelled. `Foo`'s constructor is private in the source, but a Dafny datatype constructor is public. `main` is empty.
- Singleton: `func`, `log_error`, `log_warn` and `log_info` print without any condition and are not modelled. The filtered loggers return the lines they would print to standard output rather than appending to a stream object; only `Logger`'s standard error is a `Stream`. `Logger`'s private constructor and its deleted copy and move operations have no Dafny counterpart.
- Singleton.Logger.SetSeverity, Singleton.Logger.SetFile: the bodies are empty and `Logger` has no fields. These methods take the error stream but have no `modifies` clause, which is their whole contract: they write neither the logger nor the stream. They have no result to state an `ensures` about, so they get no row in the table.
- Proxy: the destructor's `delete` and the unused `std::vector<bool>` in `main` are not modelled. A logger is an immutable value, so a proxy's level and wrapped logger are fixed by construction.

## Findings

| source | as written | input that shows it | evidently intended | confidence | as-written member | corrected member |
|---|---|---|---|---|---|---|
| ch_23_multithreding/raceconditions.cpp:16-18 | `assign` allocates `strlen(str)` characters and copies that many, so the terminating NUL is never copied; `operator<<` (line 22) then reads the buffer as a C string past its end | `assign("Hello, World!")` as in `main`: a 13-character buffer with no NUL | allocate `m_size + 1` characters and copy the terminator too, so the buffer is a valid C string | high, not executed | RaceConditions.MyString.Assign | RaceConditions.MyString.AssignTerminated |
