# Shadow integration-test utilities, modelled in Dafny

This project models the core of the Shadow simulator's Rust integration-test
harness (`src/test/test_utils.rs`). That core has three parts:

- **The test-case record `ShadowTest`.** It holds a name, a thunk returning
  `Result<T, E>` and a `ShadowPassing` flag (`Yes` / `No`). The flag records
  whether the test is known to pass under the simulator.
- **The runner `run_tests`.** It runs the tests in order and pushes each
  successful output onto a vector. When `summarize` is false it returns the
  first failure as `Err`. When `summarize` is true it runs every test, drops
  the failures and returns `Ok` of the outputs it collected.
- **The helpers `result_assert` and `result_assert_eq`.** They turn a boolean
  check or an equality check into a `Result<(), String>`.

Files:

- `results.dfy` (module `Results`): Rust's `Result`.
- `test_utils.dfy` (module `TestUtils`): everything else.

Modelling choices:

- `ShadowTest` is a datatype. It has no state that changes after it is built.
  Its thunk is a total function `() -> Result<T, E>`, and `Run` applies it.
- `run_tests` is the method `RunTests`. Like the Rust code, it has a loop
  over the tests, a growing `results` sequence and an early `return`.
- `RunTests` has an extra output, `ran`. It lists the indices of the tests
  that were run, in order. This makes "which tests ran" observable. In the
  Rust program only the console shows this.
- The method's contract ties its result to three specification functions:
  - `Outcomes`: each test's outcome.
  - `FirstFailure`: the index of the first `Err`.
  - `Successes`: the outputs of the successful outcomes, in order.
- The lemmas prove what `Successes` means: it distributes over
  concatenation, it contains exactly the `Ok` values, and its length and
  contents match when every test passes.
- `result_assert_eq` takes two parameters in place of its trait bounds.
  `eq: (T, T) -> bool` stands for the `PartialEq` comparison, which need not
  be reflexive. `show: T -> string` stands for the `{:?}` (`Debug`) rendering.

In summarize mode `run_tests` never returns `Err`. After the loop it always
returns `Ok(results)` (`src/test/test_utils.rs:71-82`), and a failing test shows
only on the console. `RunTests` ensures `summarize ==> r.Ok?`. The doc comment
"Runs provided tests until failure" (`src/test/test_utils.rs:57`) describes
only the mode without `summarize`.

## Model

| member | source | states |
|---|---|---|
| `TestUtils.ShadowTestStoresVerbatim` | src/test/test_utils.rs:32-54 | a test built from a name, a thunk and a flag keeps the name and the flag unchanged, and `Run` returns exactly what the thunk returns |
| `TestUtils.Outcomes` | src/test/test_utils.rs:65-68 | there is one outcome per test, in input order; outcome `i` is what running test `i` returns |
| `TestUtils.FirstFailure` | src/test/test_utils.rs:68-73 | gives the index of the first failing outcome: every earlier outcome succeeded, and the outcome there is an `Err` unless the index is the length, meaning no test failed |
| `TestUtils.RunTests` | src/test/test_utils.rs:58-83 | without `summarize` and with a first failure at `k`: returns `Err` of test `k`'s error, and exactly tests `0..k` ran, in order. Otherwise: returns `Ok` of the successful outputs in input order, and every test ran once, in order. Summarize mode never returns `Err`. An empty input gives `Ok([])` and runs nothing. When every test passes, the output has one entry per test, equal to that test's output. The output is never longer than the number of tests run |
| `TestUtils.Successes` | src/test/test_utils.rs:63-82 | the outputs of the `Ok` outcomes, in input order, with failures dropped; never more outputs than outcomes. `SuccessesAppend`, `SuccessesSingleton` and `SuccessesMember` pin down its meaning |
| `TestUtils.SuccessesAppend` | src/test/test_utils.rs:75-77 | collecting successes over `a + b` gives the successes of `a` followed by those of `b`, so outputs keep their input order |
| `TestUtils.SuccessesSingleton` | src/test/test_utils.rs:68-78 | one successful test adds its output; one failing test adds nothing |
| `TestUtils.SuccessesMember` | src/test/test_utils.rs:65-82 | a value is among the collected outputs if and only if some test returned `Ok` of it |
| `TestUtils.SuccessesLength` | src/test/test_utils.rs:63-82 | there are never more outputs than tests, and there are exactly as many if and only if every test succeeded |
| `TestUtils.SuccessesAllOk` | src/test/test_utils.rs:63-82 | when every test succeeds, output `i` is the output of test `i`, for every `i` |
| `TestUtils.SuccessesPrefix` | src/test/test_utils.rs:63-77 | the outputs collected after `i` tests are a prefix of those collected after `j >= i` tests, and the `j - i` tests in between add at most `j - i` outputs |
| `TestUtils.OutcomesIgnoreShadowPassing` | src/test/test_utils.rs:65-68 | two test lists whose thunks agree position by position have the same outcomes, whatever their names and `ShadowPassing` flags, so the runner's result and trace do not depend on the flag |
| `TestUtils.ResultAssert` | src/test/test_utils.rs:116-122 | returns `Ok(())` if and only if the condition holds; otherwise returns `Err` of the message, unchanged |
| `TestUtils.ResultAssertEq` | src/test/test_utils.rs:125-134 | returns `Ok(())` if and only if `eq(a, b)`, where `eq` is the `PartialEq` comparison; otherwise returns `Err(show(a) + " != " + show(b) + " -- " + message)` |
| `TestUtils.ResultAssertEqRefinesResultAssert` | src/test/test_utils.rs:116-134 | the equality helper succeeds exactly when the condition helper succeeds on `eq(a, b)`; its error starts with `show(a) + " != "` and ends with the caller's message |
| `TestUtils.ResultAssertExamples` | src/test/test_utils.rs:116-134 | with integers compared as numbers and shown in decimal: comparing 5 with 6 gives `Err("5 != 6 -- msg")`, and comparing 5 with 5 gives `Ok(())`; `result_assert` gives `Err("oops")` for false and `Ok(())` for true |
| `TestUtils.ResultAssertEqIrreflexive` | src/test/test_utils.rs:125-134 | when the comparison is not reflexive (as `PartialEq` is on a NaN float), comparing a value with itself fails with `Err(show(a) + " != " + show(a) + " -- " + message)` |

## Left out

- Console output: the `Testing <name>...` line and the pass/fail markers are not modelled, because they are I/O. The `ran` trace records which tests ran instead.
- The `Debug` implementation of `ShadowTest`: it only formats output for display.
- `AsPtr` / `AsMutPtr` (taking the address of an optional value, or a null pointer): raw pointers have no counterpart in Dafny.
- `run_and_close_fds`: it calls `libc::close` and panics through `assert_eq!` when a close fails. Both are foreign calls.
- `get_errno` / `get_errno_message`: they read the thread-local OS error state and call `strerror`. Both are foreign calls.
- Thunks with side effects and thunks that panic: each thunk is a total, deterministic function, so `Run` gives the same result every time and never aborts. A panicking thunk would abort the Rust runner mid-run.
- Boxing closures as `Box<dyn Fn>`: a Dafny function value plays that role.
- The `IntoIterator` input of `run_tests`: it is modelled as a finite sequence.
