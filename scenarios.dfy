/**
 * Usage examples of the engine's documented behaviour, replayed against the
 * model: canned returns reach the typed accessors, unregistered calls fail,
 * output values reach pointer arguments, and unmet expectations are reported.
 * Two of them follow cases of spy_test.go; the others are made-up doubles.
 */
module Scenarios {
  import opened Results
  import opened Values
  import Matchers
  import opened Spy

  /** A registered call returns its canned value and is counted. */
  method GreetScenario() {
    var spy := new Spy();
    var e := spy.When("Greet", [Matchers.String("world")]);
    e := e.Return([Value.Str("hello world")]);
    var r := spy.Called("Greet", [Value.Str("world")]);
    assert Accepts(e.arguments, [Value.Str("world")]);
    assert r.Success?;
    var greeting := r.value.String(0);
    assert greeting == Success("hello world");
    var n := spy.CallCount("Greet");
    assert n == 1;
  }

  /** An argument no registered matcher accepts is an unexpected call and records nothing. */
  method UnregisteredScenario() {
    var spy := new Spy();
    var e := spy.When("Greet", [Matchers.String("world")]);
    assert e.arguments[0] == Matchers.StringMatcher("world");
    assert |"mars"| != |"world"|;
    assert !Accepts(e.arguments, [Value.Str("mars")]);
    var miss := spy.Called("Greet", [Value.Str("mars")]);
    assert miss == Failure(UnexpectedCall("Greet", [Value.Str("mars")]));
    assert spy.calls == [];
  }

  /** A call with more arguments than matchers is unexpected (spy_test.go:86-90). */
  method ArityScenario() {
    var spy := new Spy();
    var e := spy.When("DoSomething", [Matchers.String("Hi")]);
    e := e.Return([Value.Str("Bye")]);
    var miss := spy.Called("DoSomething", [Value.Str("Hi"), Value.Str("Hello")]);
    assert miss.Failure?;
    var hit := spy.Called("DoSomething", [Value.Str("Hi")]);
    assert Accepts(e.arguments, [Value.Str("Hi")]);
    assert hit.Success? && hit.value.String(0) == Success("Bye");
  }

  /** A configured output value is written through the pointer argument. */
  method LookupScenario() {
    var spy := new Spy();
    var e := spy.When("Lookup", [Matchers.Anything(), Matchers.Anything()]);
    e := e.Set(1, Value.Int(42));
    var slot := new Cell(Value.Int(0));
    var args := [Value.Str("key"), Value.Ptr(slot)];
    assert Accepts(e.arguments, args);
    assert args[1].Ptr? && args[1].cell == slot;
    assert slot in Cells(args);
    var r := spy.Called("Lookup", args);
    assert r.Success?;
    WrittenUnaliased(args, e.outputs, slot, 1, 2);
    assert slot.value == Value.Int(42);
  }

  /** An expectation that is never called is reported once and fails the sink once. */
  method PingScenario() {
    var spy := new Spy();
    var e := spy.When("Ping", []);
    var t := new Logger();
    spy.Verify(t);
    assert t.reports == [Report("Ping", [])];
    assert t.failures == 1;
  }

  /** The typed accessors over the returns "ok", 1, true, an error and nil (spy_test.go:24-57). */
  method AccessorScenario() {
    var e := new Expectation("Something", []);
    e := e.Return([Value.Str("ok"), Value.Int(1), Value.Bool(true), Value.Error("dummy"), Value.Nil]);
    var c := new Call(e, []);
    assert c.CountReturns() == 5;
    assert c.String(0) == Success("ok");
    assert c.Int(1) == Success(1);
    assert c.Bool(2) == Success(true);
    assert c.Error(3) == Success(Some("dummy"));
    assert c.Error(4) == Success(None);
    assert c.Int(0) == Failure(TypeMismatch(0));
    assert c.Get(5) == Failure(IndexOutOfRange(5));
  }
}
