/**
 * Argument matchers: total predicates over one dynamically typed value.
 * A primitive matcher compares only when the value has exactly its kind;
 * any other kind is a mismatch, never a failure.
 */
module Matchers {
  import V = Values
  import opened Results

  datatype Matcher =
    | StringMatcher(s: string)
    | BoolMatcher(b: bool)
    | AnythingMatcher
    | NilMatcher
    | NotNilMatcher
    | IntMatcher(i: V.Int64)
    | Int64Matcher(i64: V.Int64)
    | Uint64Matcher(u64: V.Uint64)
  {
    /**
     * The kind a primitive matcher compares against; `None` for the
     * matchers that look at every kind (Anything, Nil, NotNil).
     */
    function ExpectedKind(): Option<V.Kind> {
      match this
      case StringMatcher(_) => Some(V.StringKind)
      case BoolMatcher(_) => Some(V.BoolKind)
      case IntMatcher(_) => Some(V.IntKind)
      case Int64Matcher(_) => Some(V.Int64Kind)
      case Uint64Matcher(_) => Some(V.Uint64Kind)
      case _ => None
    }

    /**
     * The matcher's verdict on `a`; defined for every value. A primitive
     * matcher accepts only values of exactly its kind.
     */
    predicate Match(a: V.Value): (r: bool)
      ensures r && ExpectedKind().Some? ==> V.KindOf(a) == ExpectedKind().value
    {
      match this
      case StringMatcher(s) => a.Str? && a.s == s
      case BoolMatcher(b) => a.Bool? && a.b == b
      case AnythingMatcher => true
      case NilMatcher => a == V.Nil
      case NotNilMatcher => a != V.Nil
      case IntMatcher(i) => a.Int? && a.i == i
      case Int64Matcher(i) => a.Int64? && a.i64 == i
      case Uint64Matcher(u) => a.Uint64? && a.u64 == u
    }
  }

  /** Matches the string `s`: it accepts `s` and compares only strings. */
  function String(s: string): (m: Matcher)
    ensures m.Match(V.Str(s)) && m.ExpectedKind() == Some(V.StringKind)
  {
    StringMatcher(s)
  }

  /** Matches the bool `b`: it accepts `b` and compares only bools. */
  function Bool(b: bool): (m: Matcher)
    ensures m.Match(V.Bool(b)) && m.ExpectedKind() == Some(V.BoolKind)
  {
    BoolMatcher(b)
  }

  /** Matches anything: it accepts nil and looks at every kind. */
  function Anything(): (m: Matcher)
    ensures m.Match(V.Nil) && m.ExpectedKind() == None
  {
    AnythingMatcher
  }

  /** Matches nil: it accepts nil and rejects a typed nil pointer. */
  function Nil(): (m: Matcher)
    ensures m.Match(V.Nil) && !m.Match(V.Ptr(null))
  {
    NilMatcher
  }

  /** Matches anything not nil: it rejects nil and accepts a typed nil pointer. */
  function NotNil(): (m: Matcher)
    ensures !m.Match(V.Nil) && m.Match(V.Ptr(null))
  {
    NotNilMatcher
  }

  /** Matches the Go `int` `i`: it accepts `i` and compares only `int`s. */
  function Int(i: V.Int64): (m: Matcher)
    ensures m.Match(V.Int(i)) && m.ExpectedKind() == Some(V.IntKind)
  {
    IntMatcher(i)
  }

  /** Matches the `int64` `i`: it accepts `i` and compares only `int64`s. */
  function Int64(i: V.Int64): (m: Matcher)
    ensures m.Match(V.Int64(i)) && m.ExpectedKind() == Some(V.Int64Kind)
  {
    Int64Matcher(i)
  }

  /** Matches the `uint64` `u`: it accepts `u` and compares only `uint64`s. */
  function Uint64(u: V.Uint64): (m: Matcher)
    ensures m.Match(V.Uint64(u)) && m.ExpectedKind() == Some(V.Uint64Kind)
  {
    Uint64Matcher(u)
  }

  /** The String matcher accepts exactly the string it holds; other kinds are rejected. */
  lemma StringAccepts(s: string)
    ensures forall a :: String(s).Match(a) <==> a == V.Str(s)
  {
  }

  /** The Bool matcher accepts exactly the bool it holds. */
  lemma BoolAccepts(b: bool)
    ensures forall a :: Bool(b).Match(a) <==> a == V.Bool(b)
  {
  }

  /** Anything accepts every value, nil included. */
  lemma AnythingAccepts()
    ensures forall a :: Anything().Match(a)
  {
  }

  /** Nil accepts exactly the nil interface value (a typed nil pointer is not nil). */
  lemma NilAccepts()
    ensures forall a :: Nil().Match(a) <==> a == V.Nil
    ensures !Nil().Match(V.Ptr(null))
  {
  }

  /** NotNil is the exact complement of Nil. */
  lemma NotNilAccepts()
    ensures forall a :: NotNil().Match(a) <==> !Nil().Match(a)
  {
  }

  /** The Int matcher accepts exactly the Go `int` it holds. */
  lemma IntAccepts(i: V.Int64)
    ensures forall a :: Int(i).Match(a) <==> a == V.Int(i)
  {
  }

  /** The Int64 matcher accepts exactly the `int64` it holds. */
  lemma Int64Accepts(i: V.Int64)
    ensures forall a :: Int64(i).Match(a) <==> a == V.Int64(i)
  {
  }

  /** The Uint64 matcher accepts exactly the `uint64` it holds. */
  lemma Uint64Accepts(u: V.Uint64)
    ensures forall a :: Uint64(u).Match(a) <==> a == V.Uint64(u)
  {
  }

  /** An integer matcher never accepts the same number held in another integer kind. */
  lemma KindExact(n: V.Int64)
    ensures !Int(n).Match(V.Int64(n)) && !Int64(n).Match(V.Int(n))
    ensures -0x8000_0000 <= n < 0x8000_0000 ==> !Int(n).Match(V.Int32(n)) && !Int64(n).Match(V.Int32(n))
    ensures n >= 0 ==> !Int(n).Match(V.Uint(n)) && !Int(n).Match(V.Uint64(n))
    ensures n >= 0 ==> !Int64(n).Match(V.Uint(n)) && !Int64(n).Match(V.Uint64(n))
    ensures n >= 0 ==> !Uint64(n).Match(V.Int(n)) && !Uint64(n).Match(V.Int64(n)) && !Uint64(n).Match(V.Uint(n))
    ensures 0 <= n < 0x8000_0000 ==> !Uint64(n).Match(V.Int32(n))
  {
  }
}
