/**
 * The call-matching, recording and verification engine: expectations are
 * registered with `When`, live calls are matched against them in
 * registration order by `Called`, recorded, and may have output values
 * injected into pointer arguments; `Verify` reports every expectation that
 * was never called.
 */
module Spy {
  import opened Results
  import opened Values
  import Matchers

  /** The conditions under which the Go code panics. */
  datatype Panic =
    | UnexpectedCall(name: string, args: seq<Value>)
    | TypeMismatch(index: int)
    | IndexOutOfRange(index: int)

  /** What `Verify` reports about one expectation that was never called. */
  datatype Report = Report(funcName: string, matchers: seq<Matchers.Matcher>)

  /** Every matcher accepts the argument in its position, and there are as many of each. */
  predicate Accepts(m: seq<Matchers.Matcher>, v: seq<Value>) {
    |v| == |m| && forall i :: 0 <= i < |m| ==> m[i].Match(v[i])
  }

  /** Positional matching of an argument list against a matcher list. */
  method Match(v: seq<Value>, m: seq<Matchers.Matcher>) returns (ok: bool)
    ensures ok <==> |v| == |m| && forall i :: 0 <= i < |m| ==> m[i].Match(v[i])
  {
    if |v| != |m| {
      return false;
    }
    if |v| == 0 {
      return true;
    }
    var i := 0;
    while i < |m|
      invariant 0 <= i <= |m|
      invariant forall j :: 0 <= j < i ==> m[j].Match(v[j])
    {
      if !m[i].Match(v[i]) {
        return false;
      }
      i := i + 1;
    }
    return true;
  }

  /**
   * The bare function name of a qualified Go function path: the text after
   * its last '.', or the whole path when it has none.
   */
  function LastSegment(path: string): (r: string)
    ensures |r| <= |path| && r == path[|path| - |r|..]
    ensures '.' !in r
    ensures |r| < |path| ==> path[|path| - |r| - 1] == '.'
  {
    if path == [] then []
    else if path[|path| - 1] == '.' then []
    else LastSegment(path[..|path| - 1]) + [path[|path| - 1]]
  }

  /** A name without a '.' is already bare, so explicitly passed names are left as they are. */
  lemma LastSegmentOfBareName(name: string)
    requires '.' !in name
    ensures LastSegment(name) == name
  {
  }

  /** A pointer argument's target: the cells that output injection may write. */
  function Cells(args: seq<Value>): set<Cell> {
    set i | 0 <= i < |args| && args[i].Ptr? && args[i].cell != null :: args[i].cell
  }

  /**
   * The value that output injection over positions `0..n` leaves in `c`:
   * the configured value of the highest position below `n` that has one and
   * whose argument points at `c`, or `None` when no such position exists.
   */
  function Written(args: seq<Value>, outputs: map<int, Value>, c: Cell, n: nat): Option<Value>
    requires n <= |args|
  {
    if n == 0 then None
    else if n - 1 in outputs && args[n - 1] == Ptr(c) then Some(outputs[n - 1])
    else Written(args, outputs, c, n - 1)
  }

  /** The content of `c` after injection, given its content `before`. */
  function AfterInjection(args: seq<Value>, outputs: map<int, Value>, c: Cell, before: Value): Value {
    match Written(args, outputs, c, |args|)
    case Some(v) => v
    case None => before
  }

  /**
   * Writes each configured output value into the cell its position's
   * argument points at, in increasing position order; positions outside the
   * argument list and arguments that are not non-nil pointers are skipped.
   */
  method Inject(args: seq<Value>, outputs: map<int, Value>)
    modifies Cells(args)
    ensures forall c :: c in Cells(args) ==> c.value == AfterInjection(args, outputs, c, old(c.value))
  {
    for k := 0 to |args|
      invariant forall c :: c in Cells(args) ==>
        c.value == match Written(args, outputs, c, k) case Some(v) => v case None => old(c.value)
    {
      if k in outputs && args[k].Ptr? && args[k].cell != null {
        var target := args[k].cell;
        assert target in Cells(args);
        target.value := outputs[k];
      }
    }
  }

  /** A cell that no configured in-range position points at keeps its content. */
  lemma {:induction false} WrittenUntargeted(args: seq<Value>, outputs: map<int, Value>, c: Cell, n: nat)
    requires n <= |args|
    requires forall k :: 0 <= k < n && k in outputs ==> args[k] != Ptr(c)
    ensures Written(args, outputs, c, n) == None
  {
    if n > 0 {
      WrittenUntargeted(args, outputs, c, n - 1);
    }
  }

  /** A cell that exactly one argument points at receives that position's configured value. */
  lemma {:induction false} WrittenUnaliased(args: seq<Value>, outputs: map<int, Value>, c: Cell, k: nat, n: nat)
    requires k < n <= |args|
    requires k in outputs && args[k] == Ptr(c)
    requires forall j :: 0 <= j < |args| && j != k ==> args[j] != Ptr(c)
    ensures Written(args, outputs, c, n) == Some(outputs[k])
  {
    if n - 1 != k {
      WrittenUnaliased(args, outputs, c, k, n - 1);
    }
  }

  /** Whatever injection writes comes from a configured in-range position whose argument points at the cell. */
  lemma {:induction false} WrittenSource(args: seq<Value>, outputs: map<int, Value>, c: Cell, n: nat)
    requires n <= |args|
    requires Written(args, outputs, c, n).Some?
    ensures exists k :: 0 <= k < n && k in outputs && args[k] == Ptr(c)
              && outputs[k] == Written(args, outputs, c, n).value
  {
    if !(n - 1 in outputs && args[n - 1] == Ptr(c)) {
      WrittenSource(args, outputs, c, n - 1);
    }
  }

  /** A registered expectation: a function name, argument matchers, canned returns and output values. */
  class Expectation {
    const funcName: string
    const arguments: seq<Matchers.Matcher>
    var ret: seq<Value>
    var calls: seq<Call>
    var outputs: map<int, Value>

    constructor (funcName: string, m: seq<Matchers.Matcher>)
      ensures this.funcName == funcName && arguments == m
      ensures ret == [] && calls == [] && outputs == map[]
    {
      this.funcName := funcName;
      arguments := m;
      ret := [];
      calls := [];
      outputs := map[];
    }

    /** Replaces the canned return values. */
    method Return(values: seq<Value>) returns (self: Expectation)
      modifies this`ret
      ensures self == this && ret == values
      ensures CountReturns() == |values| && (HasReturns() <==> values != [])
    {
      ret := values;
      return this;
    }

    /** Configures the value to write through the pointer argument at `index` on a matching call. */
    method Set(index: int, v: Value) returns (self: Expectation)
      modifies this`outputs
      ensures self == this && outputs == old(outputs)[index := v]
    {
      outputs := outputs[index := v];
      return this;
    }

    function CountReturns(): nat
      reads this
    {
      |ret|
    }

    function HasReturns(): bool
      reads this
    {
      |ret| > 0
    }
  }

  /** One matched invocation: the expectation it matched and the actual arguments. */
  class Call {
    const name: string
    const arguments: seq<Value>
    const expectation: Expectation

    constructor (e: Expectation, args: seq<Value>)
      ensures name == e.funcName && arguments == args && expectation == e
    {
      name := e.funcName;
      arguments := args;
      expectation := e;
    }

    function CountReturns(): nat
      reads expectation
    {
      expectation.CountReturns()
    }

    /** The failure of a typed accessor at `i`: out of range, or the wrong kind. */
    function Mismatch(i: int): Panic
      reads expectation
    {
      if 0 <= i < |expectation.ret| then TypeMismatch(i) else IndexOutOfRange(i)
    }

    /** The canned return at `i` as a string. */
    function String(i: int): (r: Result<string, Panic>)
      reads expectation
      ensures r.Success? <==> 0 <= i < |expectation.ret| && expectation.ret[i].Str?
      ensures r.Success? ==> expectation.ret[i] == Value.Str(r.value)
      ensures r.Failure? ==> r.error == Mismatch(i)
    {
      if 0 <= i < |expectation.ret| && expectation.ret[i].Str? then Success(expectation.ret[i].s)
      else Failure(Mismatch(i))
    }

    /** The canned return at `i` as a Go `int`; an `int64` or `uint64` is a mismatch. */
    function Int(i: int): (r: Result<Int64, Panic>)
      reads expectation
      ensures r.Success? <==> 0 <= i < |expectation.ret| && expectation.ret[i].Int?
      ensures r.Success? ==> expectation.ret[i] == Value.Int(r.value)
      ensures r.Failure? ==> r.error == Mismatch(i)
    {
      if 0 <= i < |expectation.ret| && expectation.ret[i].Int? then Success(expectation.ret[i].i)
      else Failure(Mismatch(i))
    }

    /** The canned return at `i` as a bool. */
    function Bool(i: int): (r: Result<bool, Panic>)
      reads expectation
      ensures r.Success? <==> 0 <= i < |expectation.ret| && expectation.ret[i].Bool?
      ensures r.Success? ==> expectation.ret[i] == Value.Bool(r.value)
      ensures r.Failure? ==> r.error == Mismatch(i)
    {
      if 0 <= i < |expectation.ret| && expectation.ret[i].Bool? then Success(expectation.ret[i].b)
      else Failure(Mismatch(i))
    }

    /**
     * The canned return at `i` as an error: `None` for a stored nil,
     * `Some(msg)` for a stored error.
     */
    function Error(i: int): (r: Result<Option<string>, Panic>)
      reads expectation
      ensures r.Success? <==> 0 <= i < |expectation.ret| && (expectation.ret[i].Nil? || expectation.ret[i].Error?)
      ensures r.Success? && r.value.None? ==> expectation.ret[i] == Value.Nil
      ensures r.Success? && r.value.Some? ==> expectation.ret[i] == Value.Error(r.value.value)
      ensures r.Failure? ==> r.error == Mismatch(i)
    {
      if 0 <= i < |expectation.ret| && expectation.ret[i].Nil? then Success(None)
      else if 0 <= i < |expectation.ret| && expectation.ret[i].Error? then Success(Some(expectation.ret[i].msg))
      else Failure(Mismatch(i))
    }

    /** The canned return at `i`, of any kind. */
    function Get(i: int): (r: Result<Value, Panic>)
      reads expectation
      ensures r.Success? <==> 0 <= i < |expectation.ret|
      ensures r.Success? ==> expectation.ret[i] == r.value
      ensures r.Failure? ==> r.error == IndexOutOfRange(i)
    {
      if 0 <= i < |expectation.ret| then Success(expectation.ret[i]) else Failure(IndexOutOfRange(i))
    }

    /** The actual argument at `i`. */
    function GetArg(i: int): (r: Result<Value, Panic>)
      ensures r.Success? <==> 0 <= i < |arguments|
      ensures r.Success? ==> arguments[i] == r.value
      ensures r.Failure? ==> r.error == IndexOutOfRange(i)
    {
      if 0 <= i < |arguments| then Success(arguments[i]) else Failure(IndexOutOfRange(i))
    }
  }

  /** The failure sink that `Verify` reports to: reported messages and a count of `Fail()` calls. */
  class Logger {
    var reports: seq<Report>
    var failures: nat

    constructor ()
      ensures reports == [] && failures == 0
    {
      reports := [];
      failures := 0;
    }

    method Errorf(r: Report)
      modifies this
      ensures reports == old(reports) + [r] && failures == old(failures)
    {
      reports := reports + [r];
    }

    method Fail()
      modifies this
      ensures reports == old(reports) && failures == old(failures) + 1
    {
      failures := failures + 1;
    }
  }

  /** `e` is the expectation a call to `name` with `args` may select. */
  predicate Selects(e: Expectation, name: string, args: seq<Value>) {
    e.funcName == name && Accepts(e.arguments, args)
  }

  /** The position of the earliest-registered expectation that selects the call, if any. */
  function FirstMatch(es: seq<Expectation>, name: string, args: seq<Value>): (r: Option<nat>)
    ensures r.Some? ==> r.value < |es| && Selects(es[r.value], name, args)
    ensures r.Some? ==> forall j :: 0 <= j < r.value ==> !Selects(es[j], name, args)
    ensures r.None? <==> forall j :: 0 <= j < |es| ==> !Selects(es[j], name, args)
  {
    if es == [] then None
    else if Selects(es[0], name, args) then Some(0)
    else match FirstMatch(es[1..], name, args)
      case None => None
      case Some(k) => Some(k + 1)
  }

  /** The calls of `cs` whose name is `name`, in their original order. */
  function CallsNamed(cs: seq<Call>, name: string): seq<Call> {
    if cs == [] then []
    else CallsNamed(cs[..|cs| - 1], name) + (if cs[|cs| - 1].name == name then [cs[|cs| - 1]] else [])
  }

  /** The calls of `cs` that matched `e`, in their original order. */
  function CallsOf(cs: seq<Call>, e: Expectation): seq<Call> {
    if cs == [] then []
    else CallsOf(cs[..|cs| - 1], e) + (if cs[|cs| - 1].expectation == e then [cs[|cs| - 1]] else [])
  }

  /** A call is in the filtered list exactly when it is in the ledger and has the name. */
  lemma {:induction false} CallsNamedMembers(cs: seq<Call>, name: string)
    ensures forall c :: c in CallsNamed(cs, name) <==> c in cs && c.name == name
    ensures |CallsNamed(cs, name)| <= |cs|
  {
    if cs != [] {
      CallsNamedMembers(cs[..|cs| - 1], name);
      assert cs == cs[..|cs| - 1] + [cs[|cs| - 1]];
    }
  }

  /** Filtering by name distributes over concatenation of ledgers. */
  lemma {:induction false} CallsNamedAppend(cs: seq<Call>, more: seq<Call>, name: string)
    ensures CallsNamed(cs + more, name) == CallsNamed(cs, name) + CallsNamed(more, name)
  {
    if more != [] {
      var m' := more[..|more| - 1];
      assert (cs + more)[..|cs + more| - 1] == cs + m';
      CallsNamedAppend(cs, m', name);
    } else {
      assert cs + more == cs;
    }
  }

  /** A ledger whose calls all have the name is its own filter. */
  lemma {:induction false} CallsNamedAll(cs: seq<Call>, name: string)
    requires forall i :: 0 <= i < |cs| ==> cs[i].name == name
    ensures CallsNamed(cs, name) == cs
  {
    if cs != [] {
      CallsNamedAll(cs[..|cs| - 1], name);
    }
  }

  /** A call is attributed to `e` exactly when it is in the ledger and matched `e`. */
  lemma {:induction false} CallsOfMembers(cs: seq<Call>, e: Expectation)
    ensures forall c :: c in CallsOf(cs, e) <==> c in cs && c.expectation == e
  {
    if cs != [] {
      CallsOfMembers(cs[..|cs| - 1], e);
      assert cs == cs[..|cs| - 1] + [cs[|cs| - 1]];
    }
  }

  /** No call of a ledger that never matched `e` is attributed to it. */
  lemma {:induction false} CallsOfNone(cs: seq<Call>, e: Expectation)
    requires forall c :: c in cs ==> c.expectation != e
    ensures CallsOf(cs, e) == []
  {
    if cs != [] {
      CallsOfNone(cs[..|cs| - 1], e);
    }
  }

  /**
   * The reports `Verify` issues for `es`, in registration order: one for
   * each expectation with no recorded call.
   */
  function Unmet(es: seq<Expectation>): seq<Report>
    reads es
  {
    if es == [] then []
    else
      var last := es[|es| - 1];
      Unmet(es[..|es| - 1]) + (if |last.calls| == 0 then [Report(last.funcName, last.arguments)] else [])
  }

  /** The number of expectations in `es` that have no recorded call. */
  function NumUncalled(es: seq<Expectation>): nat
    reads es
  {
    if es == [] then 0
    else (if |es[0].calls| == 0 then 1 else 0) + NumUncalled(es[1..])
  }

  /** Counting from the front agrees with extending a list at the back. */
  lemma {:induction false} NumUncalledSnoc(es: seq<Expectation>, e: Expectation)
    ensures NumUncalled(es + [e]) == NumUncalled(es) + (if |e.calls| == 0 then 1 else 0)
  {
    if es != [] {
      assert (es + [e])[1..] == es[1..] + [e];
      NumUncalledSnoc(es[1..], e);
    } else {
      assert (es + [e])[1..] == [];
    }
  }

  /**
   * A report is issued for exactly the expectations without calls, so there
   * are none precisely when every expectation was called.
   */
  lemma {:induction false} UnmetExactly(es: seq<Expectation>)
    ensures forall e :: e in es && |e.calls| == 0 ==> Report(e.funcName, e.arguments) in Unmet(es)
    ensures forall r :: r in Unmet(es) ==> exists e :: e in es && |e.calls| == 0 && r == Report(e.funcName, e.arguments)
    ensures Unmet(es) == [] <==> forall e :: e in es ==> |e.calls| > 0
    ensures |Unmet(es)| == NumUncalled(es) <= |es|
  {
    if es != [] {
      var front, last := es[..|es| - 1], es[|es| - 1];
      UnmetExactly(front);
      assert es == front + [last];
      NumUncalledSnoc(front, last);
      assert forall e :: e in es ==> e in front || e == last;
    }
  }

  /**
   * In a consistent ledger, `Verify` has nothing to report exactly when
   * every registered expectation has a recorded call in the ledger.
   */
  lemma VerifyQuietIffAllCalled(s: Spy)
    requires s.Valid()
    ensures Unmet(s.expectations) == [] <==>
      forall e :: e in s.expectations ==> exists c :: c in s.calls && c.expectation == e
  {
    UnmetExactly(s.expectations);
    forall e | e in s.expectations
      ensures |e.calls| > 0 <==> exists c :: c in s.calls && c.expectation == e
    {
      CallsOfMembers(s.calls, e);
      assert |e.calls| > 0 ==> e.calls[0] in e.calls;
    }
  }

  /** The ledger of one mocked object. */
  class Spy {
    var expectations: seq<Expectation>
    var calls: seq<Call>

    /**
     * Every recorded call belongs to a registered expectation, carries its
     * name and was accepted by its matchers; every expectation's own call
     * list is the part of the ledger that matched it.
     */
    ghost predicate Valid()
      reads this, expectations
    {
      && (forall c :: c in calls ==>
            c.expectation in expectations && c.name == c.expectation.funcName
            && Accepts(c.expectation.arguments, c.arguments))
      && (forall e :: e in expectations ==> e.calls == CallsOf(calls, e))
    }

    constructor ()
      ensures Valid() && expectations == [] && calls == []
    {
      expectations := [];
      calls := [];
    }

    /** The earliest-registered expectation that selects the call, or null. */
    method FindMatchingExpectation(funcName: string, args: seq<Value>) returns (e: Expectation?)
      ensures e == null <==> FirstMatch(expectations, funcName, args).None?
      ensures e != null ==> e == expectations[FirstMatch(expectations, funcName, args).value]
    {
      for i := 0 to |expectations|
        invariant forall j :: 0 <= j < i ==> !Selects(expectations[j], funcName, args)
      {
        var candidate := expectations[i];
        if candidate.funcName == funcName {
          var ok := Match(args, candidate.arguments);
          if ok {
            return candidate;
          }
        }
      }
      return null;
    }

    /** Registers a new expectation at the end of the list, without deduplicating. */
    method When(funcName: string, matchers: seq<Matchers.Matcher>) returns (e: Expectation)
      requires Valid()
      modifies this
      ensures Valid() && fresh(e)
      ensures expectations == old(expectations) + [e] && calls == old(calls)
      ensures e.funcName == funcName && e.arguments == matchers
      ensures e.ret == [] && e.calls == [] && e.outputs == map[]
    {
      e := new Expectation(funcName, matchers);
      CallsOfNone(calls, e);
      expectations := expectations + [e];
    }

    /**
     * Records a call to the faked function `name`, which the faked method
     * passes itself. Like every name `LastSegment` derives, it has no '.'
     * (`LastSegmentOfBareName`: such a name is its own last segment). Selects
     * the first matching expectation, appends one new call to its list and
     * to the ledger, then injects its output values. Without a match nothing
     * changes and the result is `UnexpectedCall`.
     */
    method Called(name: string, args: seq<Value>) returns (r: Result<Call, Panic>)
      requires Valid()
      requires '.' !in name
      modifies this, expectations, Cells(args)
      ensures Valid() && expectations == old(expectations)
      ensures forall e :: e in expectations ==> e.ret == old(e.ret) && e.outputs == old(e.outputs)
      ensures FirstMatch(expectations, name, args).None? ==>
        && r == Failure(UnexpectedCall(name, args))
        && calls == old(calls)
        && (forall e :: e in expectations ==> e.calls == old(e.calls))
        && (forall c :: c in Cells(args) ==> c.value == old(c.value))
      ensures FirstMatch(expectations, name, args).Some? ==>
        var m := expectations[FirstMatch(expectations, name, args).value];
        && r.Success? && fresh(r.value)
        && r.value.expectation == m && r.value.name == m.funcName && r.value.arguments == args
        && calls == old(calls) + [r.value]
        && m.calls == old(m.calls) + [r.value]
        && (forall e :: e in expectations && e != m ==> e.calls == old(e.calls))
        && (forall c :: c in Cells(args) ==> c.value == AfterInjection(args, m.outputs, c, old(c.value)))
    {
      var e := FindMatchingExpectation(name, args);
      if e == null {
        return Failure(UnexpectedCall(name, args));
      }
      var c := Record(e, args);
      if |e.outputs| > 0 {
        Inject(args, e.outputs);
      } else {
        forall cell | cell in Cells(args)
          ensures AfterInjection(args, e.outputs, cell, cell.value) == cell.value
        {
          WrittenUntargeted(args, e.outputs, cell, |args|);
        }
      }
      return Success(c);
    }

    /** Appends one new call of `e` to `e`'s own list and to the ledger. */
    method Record(e: Expectation, args: seq<Value>) returns (c: Call)
      requires Valid() && e in expectations && Accepts(e.arguments, args)
      modifies this, e
      ensures Valid() && fresh(c)
      ensures c.expectation == e && c.name == e.funcName && c.arguments == args
      ensures expectations == old(expectations) && calls == old(calls) + [c]
      ensures e.calls == old(e.calls) + [c] && e.ret == old(e.ret) && e.outputs == old(e.outputs)
    {
      c := new Call(e, args);
      e.calls := e.calls + [c];
      calls := calls + [c];
      assert calls[..|calls| - 1] == old(calls);
    }

    /**
     * Reports each expectation that was never called, in registration order,
     * then marks the sink failed once if anything was reported.
     */
    method Verify(t: Logger)
      modifies t
      ensures t.reports == old(t.reports) + Unmet(expectations)
      ensures t.failures == old(t.failures) + (if Unmet(expectations) == [] then 0 else 1)
    {
      var fail := 0;
      for i := 0 to |expectations|
        invariant t.reports == old(t.reports) + Unmet(expectations[..i])
        invariant t.failures == old(t.failures)
        invariant fail == |Unmet(expectations[..i])|
      {
        var e := expectations[i];
        assert expectations[..i + 1][..i] == expectations[..i];
        if |e.calls| == 0 {
          t.Errorf(Report(e.funcName, e.arguments));
          fail := fail + 1;
        }
      }
      assert expectations[..|expectations|] == expectations;
      if fail > 0 {
        t.Fail();
      }
    }

    /** The recorded calls named `funcName`, in the order they were made. */
    method GetCallsOf(funcName: string) returns (matching: seq<Call>)
      ensures matching == CallsNamed(calls, funcName)
    {
      matching := [];
      for i := 0 to |calls|
        invariant matching == CallsNamed(calls[..i], funcName)
      {
        assert calls[..i + 1][..i] == calls[..i];
        if calls[i].name == funcName {
          matching := matching + [calls[i]];
        }
      }
      assert calls[..|calls|] == calls;
    }

    /** The `index`-th recorded call named `funcName`. */
    method GetCall(funcName: string, index: int) returns (r: Result<Call, Panic>)
      ensures 0 <= index < |CallsNamed(calls, funcName)| ==> r == Success(CallsNamed(calls, funcName)[index])
      ensures !(0 <= index < |CallsNamed(calls, funcName)|) ==> r == Failure(IndexOutOfRange(index))
    {
      var matching := GetCallsOf(funcName);
      if 0 <= index < |matching| {
        return Success(matching[index]);
      }
      return Failure(IndexOutOfRange(index));
    }

    /** The number of recorded calls named `funcName`. */
    method CallCount(funcName: string) returns (n: nat)
      ensures n == |CallsNamed(calls, funcName)|
    {
      var matching := GetCallsOf(funcName);
      return |matching|;
    }
  }
}
