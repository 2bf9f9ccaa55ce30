# Atomic typed-value cells, modelled in Dafny

The repository holds three snapshots of one idea: an atomic cell for a Go
`any`, built on the runtime's two-word interface layout (a type word and a
data word). Each snapshot offers Load, Store, Swap and CompareAndSwap:

- `Value` (value.go) locks the type on the first non-nil store. It panics on
  a later store of another type. It keeps an explicitly stored nil as the
  `empty` sentinel data word under the locked type.
- `Entry` (store.go) has no type lock. `Store(nil)` stores the `nilAny`
  pointer instead, which loads back as nil. Swap on a non-empty cell replaces
  only the data word. CompareAndSwap replaces the data word, then the type
  word.
- `Any` (any.go) is a plain cell. Store, Swap and a successful
  CompareAndSwap replace both words, whatever the types.

The model covers each cell's sequential state machine: what one operation,
run alone, does to the two words and what it returns.

- `go_interface.dfy` (module `GoInterface`) models interface values:
  - Go types: a name, whether `==` is defined on them, and whether they are
    pointer-shaped (the data word is then the value itself);
  - `Nil | Iface(type, payload)`;
  - Go's `==` on interfaces. Values of different dynamic types are unequal.
    Two values of one non-comparable type make the runtime panic. Two
    pointer-shaped values are equal exactly when their data words are, so
    `==` is pointer identity for them. Two boxed values are compared by
    contents, never by the address of the box.
  - It also defines the shared operation, outcome and trace types. A panic is
    an `Outcome.Panic` that leaves the cell unchanged.
- `value.dfy`, `store.dfy` and `any.dfy` (modules `ValueCell`, `EntryCell`,
  `AnyCell`) model the three cells. Each file has:
  - its own type-word and data-word datatypes, including the claim markers
    and sentinels of its source file;
  - pure step functions (`StoreStep`, `SwapStep`, `CasStep`, `Loaded`) that
    state what each operation does;
  - `Run`, which performs a sequence of operations;
  - lemmas about runs;
  - a class with fields `typ` and `data`. Its methods write the words in the
    source's order: claim marker first, then data word, then type word. Each
    method's postcondition ties the new words and the result to the step
    function.
- `interchange.dfy` proves that the three cells give the same results for a
  caller that uses only non-nil values of one type, none of them equal to the
  package's `nilAny` pointer.
- `source_tests.dfy` replays the repository's sequential test tables.
  - The lemmas run on the step functions.
  - The methods drive the classes one call at a time.

Run one at a time, every compare-and-swap that claims the type word
succeeds, and no spin branch is taken. Each claim marker is written and then
overwritten before the operation returns. That is the `Valid` invariant that
every method and `Run` keep.

Go parameters named `old` and `new` are Dafny keywords, so they are called
`expected` and `desired`. Swap's argument is `v`.

A stored nil loads as nil, yet a later `CompareAndSwap(nil, x)` returns
false. In value.go, once a non-nil value has been stored, the rebuilt current
value keeps the stored type, so it is not nil (value.go:191-197). In store.go
the cell holds `nilAny`, which is not nil (store.go:57-59, 183-189). Two
lemmas prove this: `ValueCell.ExplicitNilIsNotNilToCas` and
`EntryCell.StoredNilIsNotNilToCas`.

## Model

| member | source | states |
|---|---|---|
| GoInterface.CompareSymmetric | value.go:196-196 | Interface `==` is symmetric, panic included |
| GoInterface.CompareIgnoresAddress | value_test.go:239-239 | Two comparable boxed values of one type with equal contents are equal, whatever their addresses (heapA == heapB) |
| GoInterface.ComparePointerIdentity | store.go:47-47 | Two values of one pointer-shaped type are equal exactly when their data words are, and are otherwise unequal (no panic) |
| GoInterface.EqualMeansSameType | store.go:187-187 | Equal interfaces are both nil, or have the same dynamic type and the same data word (pointer-shaped) or the same value (boxed) |
| ValueCell.Loaded | value.go:25-43 | Load is nil exactly when the type word is unset or the data word is the `empty` sentinel; otherwise its words are the cell's words |
| ValueCell.StoreStep | value.go:48-87 | Panics, with the quoted message and no change, exactly when the type is set and a non-nil value of another type is stored. Otherwise Load returns the stored value. Once set, the type word never changes. A nil store into a never-stored Value changes nothing |
| ValueCell.SwapStep | value.go:94-139 | Same panic rule and message as Store. Otherwise Swap returns what Load returned before (nil when never stored, and nil when the sentinel was held), and Load then returns the new value. Once set, the type is kept. `Swap(nil)` on a never-stored Value is a no-op |
| ValueCell.CompareStored | value.go:191-197 | With a real data word, the rebuilt current value compares like the loaded value. Equality is possible only with a real data word. With the sentinel, the result is a panic for a non-comparable type of the stored type and unequal otherwise, pointer-shaped types included |
| ValueCell.CasStep | value.go:146-201 | Panics with "…inconsistently typed values" exactly when a non-nil `expected` has a type other than the wrapped `desired`. Otherwise panics with "…inconsistently typed value into Value" exactly when the type is set and the wrapped `desired` has another type. Otherwise panics with the runtime's uncomparable-type panic exactly when `expected` has the stored type and that type has no `==`. True only when the current value equals `expected`, and then Load returns `desired`. Anything but true leaves the cell unchanged. Once set, the type is kept. CAS(nil, nil) on a never-stored Value is true with no change |
| ValueCell.Run | value.go:61-70 | After any sequence of operations no claim marker remains (Valid), and there is one outcome per operation |
| ValueCell.TypeLockedForever | value.go:80-84 | Once the type word is set, no sequence of operations changes it or returns it to unset |
| ValueCell.SwapAccounting | value.go:121-137 | With values of one type (nil allowed), the Swap results followed by the final Load equal the initial Load followed by the swapped-in values |
| ValueCell.CasCounter | value.go:191-199 | Starting from an int, CompareAndSwap(j, j+1) attempts never panic, and the final int is the start plus the number of successes |
| ValueCell.PointerCasAfterExplicitNil | value.go:191-197 | For a pointer-shaped type, after `Store(p)` and `Store(nil)`, CompareAndSwap(p, q) returns false and changes nothing: the `empty` address equals no caller's pointer |
| ValueCell.ExplicitNilIsNotNilToCas | value.go:186-197 | After a non-nil store, `Store(nil)` loads as nil, yet CompareAndSwap(nil, x) then returns false and changes nothing |
| ValueCell.Value.constructor | value.go:10-12 | The zero Value has both words nil |
| ValueCell.Value.Load | value.go:25-43 | Returns `Loaded` of the two words |
| ValueCell.Value.Store | value.go:48-87 | The words written in source order end as `StoreStep` says, and Valid is kept |
| ValueCell.Value.Swap | value.go:94-139 | The words and result are those of `SwapStep`, and Valid is kept |
| ValueCell.Value.CompareAndSwap | value.go:146-201 | The words and result are those of `CasStep`, and Valid is kept |
| EntryCell.Current | store.go:43-46 | The interface value the two words form; its words are the cell |
| EntryCell.Loaded | store.go:36-51 | Load is nil exactly when the cell is empty or holds a value equal to `nilAny`; otherwise it is the current value |
| EntryCell.StoreStep | store.go:56-90 | Never panics, with no type check. The cell becomes non-empty and holds the value, or `nilAny` for nil. Any value not equal to `nilAny` loads back as itself |
| EntryCell.SwapStep | store.go:97-132 | Returns the previous current value (nil when empty), which is the new type paired with the old data word. The new value becomes current. The type word is kept on a non-empty cell |
| EntryCell.CasStep | store.go:139-195 | True exactly when the current value equals `expected` (nil matches only the empty cell), and then the current value becomes `desired`, so the type may change and nil empties the cell. False exactly when they differ. A panic means a non-comparable type. Anything but true leaves the cell unchanged |
| EntryCell.Run | store.go:69-77 | After any sequence of operations no claim marker remains (Valid), and there is one outcome per operation |
| EntryCell.SwapAccounting | store.go:128-130 | With non-nil values of one type, the Swap results followed by the final value equal the initial value followed by the swapped-in values |
| EntryCell.CasCounter | store.go:183-193 | Starting from an int, CompareAndSwap(j, j+1) attempts never panic, and the final int is the start plus the number of successes |
| EntryCell.OtherPointerLoadsAsItself | store.go:47-50 | A `*any` other than `nilAny` itself, stored, loads back as itself and not as nil |
| EntryCell.StoredNilIsNotNilToCas | store.go:57-59 | `Store(nil)` loads as nil, yet CompareAndSwap(nil, x) then returns false and changes nothing |
| EntryCell.Entry.constructor | store.go:17-19 | The zero Entry has both words nil |
| EntryCell.Entry.Load | store.go:36-51 | Returns `Loaded` of the two words |
| EntryCell.Entry.Store | store.go:56-90 | The words written in source order end as `StoreStep` says, and Valid is kept |
| EntryCell.Entry.Swap | store.go:97-132 | The words and result are those of `SwapStep`, and Valid is kept |
| EntryCell.Entry.CompareAndSwap | store.go:139-195 | The words and result are those of `CasStep`, and Valid is kept |
| AnyCell.WordsOf | any.go:58-59 | The two words of any interface value form a valid cell |
| AnyCell.Loaded | any.go:22-40 | Load is nil on an empty cell, otherwise the value whose words are in the cell |
| AnyCell.StoreStep | any.go:45-63 | Never panics, whatever the type; Load then returns the stored value, and nil empties the cell |
| AnyCell.SwapStep | any.go:70-94 | Returns the previous value (nil when empty), and Load then returns the new value |
| AnyCell.CasStep | any.go:101-124 | True exactly when the current value (nil when empty) equals `expected`, and then Load returns `desired`. False exactly when they differ. A panic means a non-comparable type. Anything but true leaves the cell unchanged |
| AnyCell.Run | any.go:54-60 | After any sequence of operations the type word is never a `changeInProgress` marker, and there is one outcome per operation |
| AnyCell.SwapAccounting | any.go:88-90 | With values of any types, nil included, the Swap results followed by the final Load equal the initial Load followed by the swapped-in values |
| AnyCell.CasCounter | any.go:109-121 | Starting from an int, CompareAndSwap(j, j+1) attempts never panic, and the final int is the start plus the number of successes |
| AnyCell.Any.constructor | any.go:8-10 | The zero Any has both words nil |
| AnyCell.Any.Load | any.go:22-40 | Returns `Loaded` of the two words |
| AnyCell.Any.Store | any.go:45-63 | The words written in source order end as `StoreStep` says, and Valid is kept |
| AnyCell.Any.Swap | any.go:70-94 | The words and result are those of `SwapStep`, and Valid is kept |
| AnyCell.Any.CompareAndSwap | any.go:101-124 | The words and result are those of `CasStep`, and Valid is kept |
| Interchange.ExecAgrees | store_reference_test.go:16-18 | One operation carrying non-nil values of one type, none equal to `nilAny`, gives the same outcome on agreeing cells and keeps them agreeing |
| Interchange.SameOutcomes | store_reference_test.go:16-18 | Any sequence of such operations (non-nil values of one type, none equal to `nilAny`) gives the same outcomes on a Value, an Entry and an Any that hold the same value, and keeps them agreeing |
| Interchange.FreshInterchangeable | store_reference_test.go:24-33 | From the zero cells, a sequence of operations with non-nil values of one type, none equal to `nilAny`, gives the same outcomes on all three |
| SourceTests.ValueLoadStore | value_test.go:17-37 | A fresh Value loads nil; 42 and 84 load back; a stored nil loads nil |
| SourceTests.ValueSwaps | value_test.go:39-51 | Swaps of nil, 1, 2 and nil on a fresh Value return nil, nil, 1 and 2 |
| SourceTests.ValueCompareAndSwaps | value_test.go:53-65 | CompareAndSwap nil→1, 1→2 and 2→nil on a fresh Value all succeed |
| SourceTests.ValuePanic | value_test.go:82-95 | Storing a string into a Value holding an int panics with the quoted message |
| SourceTests.ValueSwapTable | value_test.go:155-166 | Every row of the Swap table: the result, the panic, and the value loaded afterwards |
| SourceTests.ValueCompareAndSwapTable | value_test.go:223-240 | Every row of the CompareAndSwap table, with each panic's exact message |
| SourceTests.EntryInit | entry_test.go:27-53 | A fresh Entry loads nil; a stored nil loads nil; a pointer, 42 and int64(84) load back as themselves |
| SourceTests.EntryCompareAndSwapFromNil | entry_test.go:177-181 | The table rows with nil init, run in order on one Entry, give true, false, false, true, false |
| SourceTests.EntryCompareAndSwapAfterStore | entry_test.go:182-185 | The rows that store an int and then true before each call give true, false, false, true |
| SourceTests.EntryCompareAndSwapTypeChanges | entry_test.go:186-189 | A nil `desired` empties the cell, int 2 may be replaced by int64 2, int64 2 does not match int 2, and heapB matches heapA |
| SourceTests.EntrySwapTable | entry_test.go:111-113 | For the Swap rows whose new value has the stored type, Swap returns init and Load returns the new value |

## Left out

- Concurrency is not modelled: atomic ordering, torn reads, the retry loops
  and the spin-wait branches. Operations run one at a time, so every claiming
  compare-and-swap succeeds. The concurrent tests and their goroutine,
  WaitGroup and random-number harnesses are left out with it.
  `SwapAccounting` and `CasCounter` are the sequential counterparts of the
  concurrent swap-sum and counter tests.
- `runtime_procPin` and `runtime_procUnpin` are runtime calls that have no
  sequential meaning.
- ValueCell.CasStep: requires `!SentinelReinterpreted`. This excludes only a
  comparable boxed (not pointer-shaped) stored type. After an explicit nil
  store, comparing with a non-nil value of such a type reads the `empty`
  sentinel's memory as a boxed value of that type. `empty` is a zeroed
  two-word allocation (value.go:21) that nothing writes. For a boxed type of
  at most two words the comparison therefore reads that type's zero value, so
  an explicit nil compares equal to the zero value: after `Store(1);
  Store(nil)`, `CompareAndSwap(0, 5)` returns true and installs 5. Only larger
  types read past the allocation and depend on memory layout. The model gives
  the sentinel's words no value semantics and leaves this case out.
  Pointer-shaped types compare the words and are modelled.
- ValueCell.Value.CompareAndSwap: has the same precondition, for the same
  reason.
- EntryCell.SwapStep: on a non-empty cell, requires a non-nil value of the
  stored type, as store.go:95-96 demands of callers. Any other argument makes
  Swap pair a type word with a data word of another type, or leave a nil data
  word under a live type. The model gives such words no meaning.
- EntryCell.Entry.Swap: has the same precondition, for the same reason.
  Because of it, the rows of the Entry Swap table (entry_test.go:107-113) that
  swap in nil, or that swap after `Store(nil)`, are not replayed.
- ValueCell.CompareStored: requires that the cell does not hold the `empty`
  sentinel while `expected` is a comparable, boxed value of the stored type.
  That is the same comparison of the sentinel's words that `ValueCell.CasStep`
  excludes by `!SentinelReinterpreted`.
- GoInterface.Compare: a Go type is reduced to a name, a comparability flag
  and a pointer-shaped flag. A value is reduced to its data word (`addr`) and
  one integer (`val`). For pointer-shaped types `addr` is the pointer and `val`
  is unused; for boxed types `val` stands for the contents. A runtime panic
  from a non-comparable field inside a comparable-looking type is not
  modelled. Because `val` is an integer, `==` is reflexive on boxed values, so
  floating point `NaN != NaN` is lost: `CompareAndSwap(NaN, x)` on a cell
  holding NaN succeeds in the model but returns false in Go.
- Concrete addresses are left out. The addresses of `empty`, `nilAny`,
  `firstStoreInProgress` and `changeInProgress` are distinct constructors or
  constants, not pointers.
- `Entry.Ptr` is not part of this model. It is used by entry_test.go:17-25,
  but its source is not among the files modelled.
- The benchmarks (store_bench_test.go and the Benchmark functions) are
  performance scaffolding with no state-machine content.
- The CompareAndSwap table in value_test.go:231 expects the message "…values
  into Value", but value.go:156 panics with "…values". The test only checks
  that a panic happens. The model uses the code's message.
