# go-spy engine in Dafny

A model of the call-matching, recording and verification engine of the Go
test-double library `go-spy`, and of its argument matchers.

A test double embeds a `Spy`. The test registers expectations with
`When(name, matchers...)` and may then configure canned returns (`Return`)
and output values for pointer arguments (`Set`). Each faked method forwards
its arguments to `Called`. `Called` picks the first registered expectation
whose name matches and whose matchers all accept the arguments. It records
the call on that expectation and in the spy's chronological ledger, then
writes the configured output values through pointer arguments. A call that
nothing matches is an `UnexpectedCall` failure, the Go panic. `Verify`
reports every expectation that was never called to a `Logger`, then calls
`Fail()` once if it reported anything. `GetCallsOf`, `GetCall` and
`CallCount` query the ledger by name.

Files:

- `results.dfy`: `Option` and `Result`, used where Go returns nil or panics.
- `values.dfy`: Go's `interface{}` values as a closed union. Every kind the
  matchers and accessors tell apart is its own variant (`Int`, `Int32`,
  `Int64`, `Uint`, `Uint64`, ...). A pointer is `Ptr(cell)`, where `cell`
  is a nullable reference to a mutable `Cell`. `KindOf` gives a value's
  dynamic type, the thing a Go type assertion inspects.
- `matchers.dfy`: the `Matcher` datatype and its total `Match`, the Go
  constructor functions, and one lemma per matcher giving exactly which
  values it accepts.
- `spy.dfy`: list matching, the `Expectation`, `Call`, `Logger` and `Spy`
  classes, the specification functions (`FirstMatch`, `CallsNamed`,
  `Unmet`, `Written`), and lemmas about them.
- `scenarios.dfy`: usage examples of the engine's documented behaviour,
  written as verified method bodies. `ArityScenario` follows
  spy_test.go:86-90 and `AccessorScenario` follows spy_test.go:24-57; the
  other four use made-up doubles (`Greet`, `Lookup`, `Ping`).

The `Spy` invariant `Valid()` says three things. Every recorded call
belongs to a registered expectation. It carries that expectation's name and
was accepted by its matchers. Each expectation's own call list is exactly
the part of the ledger that matched it.

## Model

| member | source | states |
|---|---|---|
| Matchers.Matcher.Match | matchers.go:3-91 | a total predicate, defined for every value and never failing; a primitive matcher (string, bool, int, int64, uint64) accepts only values of exactly its kind |
| Matchers.String | matchers.go:18-21 | builds the string matcher: it accepts its own string and compares only strings |
| Matchers.Bool | matchers.go:32-35 | builds the bool matcher: it accepts its own bool and compares only bools |
| Matchers.Anything | matchers.go:41-44 | builds the wildcard matcher: it accepts nil and is not restricted to one kind |
| Matchers.Nil | matchers.go:50-51 | builds the nil matcher: it accepts nil and rejects a typed nil pointer |
| Matchers.NotNil | matchers.go:57-58 | builds the not-nil matcher: it rejects nil and accepts a typed nil pointer |
| Matchers.Int | matchers.go:69-70 | builds the `int` matcher: it accepts its own number and compares only `int`s |
| Matchers.Int64 | matchers.go:81-82 | builds the `int64` matcher: it accepts its own number and compares only `int64`s |
| Matchers.Uint64 | matchers.go:93-94 | builds the `uint64` matcher: it accepts its own number and compares only `uint64`s |
| Matchers.StringAccepts | matchers.go:13-16 | the String matcher accepts a value iff it is a string equal to its own; any other kind is rejected, never a failure |
| Matchers.BoolAccepts | matchers.go:27-30 | the Bool matcher accepts a value iff it is a bool equal to its own |
| Matchers.AnythingAccepts | matchers.go:39 | Anything accepts every value, nil included |
| Matchers.NilAccepts | matchers.go:48 | Nil accepts exactly the nil interface value; a typed nil pointer is not nil |
| Matchers.NotNilAccepts | matchers.go:55 | NotNil accepts exactly the values Nil rejects |
| Matchers.IntAccepts | matchers.go:64-67 | the Int matcher accepts exactly the Go `int` holding its number |
| Matchers.Int64Accepts | matchers.go:76-79 | the Int64 matcher accepts exactly the `int64` holding its number |
| Matchers.Uint64Accepts | matchers.go:88-91 | the Uint64 matcher accepts exactly the `uint64` holding its number |
| Matchers.KindExact | matchers.go:60-94 | for every `int64` number, no integer matcher accepts it when it is held in a different integer kind (`int`, `int32` where it fits, `int64`, `uint` and `uint64` where it is non-negative) |
| Spy.Match | spy.go:18-32 | true iff the argument and matcher lists have the same length and every matcher accepts the argument in its position; in particular two empty lists match and different lengths never do |
| Spy.LastSegment | spy.go:156-158 | the result is the suffix of the qualified path after its last '.', contains no '.', and is the whole path when the path has none |
| Spy.LastSegmentOfBareName | spy.go:156-158 | a name with no '.' is its own last segment |
| Spy.Expectation.constructor | spy.go:42-48 | a new expectation has the given name and matchers, no returns, no calls and no output values |
| Spy.Expectation.Return | spy.go:50-54 | the return list is replaced by the given values; afterwards `CountReturns` is their number and `HasReturns` holds iff there is at least one; the same expectation is returned for chaining |
| Spy.Expectation.Set | spy.go:56-59 | the output value for position `index` is set to `v`, other positions keep theirs; the same expectation is returned |
| Spy.Call.constructor | spy.go:77-83 | a new call carries the expectation's name, the actual arguments and a reference to the expectation |
| Spy.Call.String | spy.go:90-93 | succeeds iff the index is in range and the stored return is a string, and then yields that string; otherwise fails with IndexOutOfRange or TypeMismatch |
| Spy.Call.Int | spy.go:95-97 | succeeds iff the index is in range and the stored return is a Go `int` (not `int64` or `uint64`), and then yields it; otherwise fails |
| Spy.Call.Bool | spy.go:99-102 | succeeds iff the index is in range and the stored return is a bool, and then yields it; otherwise fails |
| Spy.Call.Error | spy.go:104-110 | a stored nil yields "no error", a stored error yields that error, any other kind is TypeMismatch and an index out of range is IndexOutOfRange |
| Spy.Call.Get | spy.go:112-115 | yields the stored return at an in-range index, and fails with IndexOutOfRange otherwise |
| Spy.Call.GetArg | spy.go:117-119 | yields the actual argument at an in-range index, and fails with IndexOutOfRange otherwise |
| Spy.FirstMatch | spy.go:132-139 | yields the position of the earliest-registered expectation whose name equals the called name and whose matchers accept the arguments; none iff no expectation does |
| Spy.Spy.FindMatchingExpectation | spy.go:132-139 | the scan returns the expectation at the position `FirstMatch` names, or null exactly when there is none |
| Spy.Spy.constructor | spy.go:125-130 | a new spy has no expectations and no calls and satisfies the ledger invariant |
| Spy.Spy.When | spy.go:141-147 | appends exactly one fresh expectation at the end, with the given name and matchers, no returns, no calls and no output values; earlier expectations and the ledger are unchanged and the invariant is kept |
| Spy.Spy.Called | spy.go:149-185 | for a bare name (one without a '.', as spy.go:156-158 always derives): with no selecting expectation the result is UnexpectedCall(name, args) and no list and no cell changes; otherwise exactly one fresh call of the first match with the actual arguments is appended to that expectation's list and to the ledger, other expectations are unchanged, every pointed-at cell holds what injection of that expectation's output values leaves in it, and the invariant is kept |
| Spy.Spy.Record | spy.go:164-166 | the new call is appended to the matched expectation's list and to the ledger, and nothing else changes |
| Spy.Inject | spy.go:168-182 | each cell an argument points at ends up with the output value of the highest in-range configured position that points at it, and keeps its content when there is none |
| Spy.WrittenUntargeted | spy.go:170-176 | a cell that no configured in-range position points at is not written |
| Spy.WrittenUnaliased | spy.go:173-180 | a cell that exactly one argument points at receives that position's configured value |
| Spy.WrittenSource | spy.go:169-180 | every value injection writes into a cell comes from a configured in-range position whose argument points at that cell |
| Spy.Spy.Verify | spy.go:187-201 | appends one report per expectation without calls, in registration order, and calls `Fail()` once iff at least one was reported; expectations and the ledger are not modified |
| Spy.UnmetExactly | spy.go:191-196 | an expectation without calls is reported and every report names one; the number of reports equals the number of expectations without calls; there is nothing to report iff every expectation was called |
| Spy.VerifyQuietIffAllCalled | spy.go:189-201 | in a consistent ledger, `Verify` reports nothing iff every expectation has a call recorded for it in the ledger |
| Spy.Spy.GetCallsOf | spy.go:203-211 | returns the ledger's calls with the given name, in their original order |
| Spy.CallsNamedMembers | spy.go:203-211 | a call is in the filtered list iff it is in the ledger and has the name; the filter is no longer than the ledger |
| Spy.CallsNamedAppend | spy.go:203-211 | filtering a ledger extended by new calls yields the old filter followed by the new calls' filter, so new calls of a name appear at the end in invocation order |
| Spy.CallsNamedAll | spy.go:203-211 | calls that all have the name are returned unchanged and in order |
| Spy.CallsOfMembers | spy.go:164-165 | a call is on an expectation's list iff it is in the ledger and matched that expectation |
| Spy.CallsOfNone | spy.go:143-146 | a freshly registered expectation has no call of the existing ledger attributed to it |
| Spy.Spy.GetCall | spy.go:213-215 | yields the `index`-th call with the name when the index is in range, and IndexOutOfRange otherwise, negative indices included |
| Spy.Spy.CallCount | spy.go:217-219 | equals the number of the ledger's calls with the name |
| Spy.Logger.Errorf | spy.go:11-14 | the sink appends the report and leaves its failure count alone |
| Spy.Logger.Fail | spy.go:11-14 | the sink counts one more failure and keeps its reports |

## Left out

- Spy.Spy.Called: takes the faked method's bare name as a parameter, and requires it to contain no '.', as every derived name does. The Go code finds the calling frame with `runtime.Caller`/`FuncForPC` (spy.go:152-156), a runtime call outside the model, so its panic when caller information is missing (spy.go:153-154) is not modelled. Taking the last '.'-separated segment (spy.go:157-158) is modelled separately as `LastSegment`.
- Spy.Inject: applies output values in increasing position order. The Go code follows map iteration order (spy.go:169), which is unspecified. The order only matters when two arguments point at the same cell.
- Spy.Inject: a `Cell` holds a value of any kind. Go panics when the configured value does not fit the pointee's type, or is nil (spy.go:179); that reflection behaviour is not modelled.
- The `reflect.Interface` branch of the kind test (spy.go:174) cannot be reached for an `interface{}` argument, because `reflect.ValueOf` never reports that kind. Only non-nil pointers are written.
- Spy.Spy.Verify: a report is a `Report(name, matchers)` value. The formatted `Errorf` text (spy.go:193) and the `UnexpectedCall` message (spy.go:162) are not modelled.
- `Call.GetReturnValue` (spy.go:121-123) has the same body as `Get`, so it is not modelled separately.
- `Call.CountReturns`, `Expectation.CountReturns` and `Expectation.HasReturns` (spy.go:61-69, spy.go:85-88) are plain reads of the return list. Their meaning is stated by the constructor (no returns) and by `Return` (count and presence of the new returns).
- The `Type` and `Custom` matchers are used in matchers_test.go:20-24 but are not defined in matchers.go, so they have no source to model.
- Go `int` and `uint` are taken to be 64 bits wide. An `error` value is represented by its message only.
- A Go string is a byte sequence, but `Str` holds a sequence of characters, so a string that is not valid UTF-8 cannot be expressed.
- A nil entry in a matcher list makes `m[i].Match` panic (spy.go:27). `Matcher` has no nil variant, so that panic is not modelled.
- `Logger` is an interface in Go (spy.go:11-14). Here it is a concrete class that records reports and counts `Fail()` calls.
- Concurrency is not modelled: the library assumes one goroutine drives a spy.
