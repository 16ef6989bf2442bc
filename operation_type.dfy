/** The closed set of binding operations, their wire keywords, the case-insensitive keyword
    lookup, and how each operation turns a path and a collection of values into a predicate,
    into no predicate, or into an exception. */
module OperationType {
  import opened Wrappers
  import opened Querydsl

  /** The enum constants, in declaration order. */
  datatype Op =
    | NO_OOP | NE | EQ | CONTAINS | LIKE | GT | GOE | LT | LOE
    | NOT_IN | NOT_IN2 | IN | IS_NULL | NOT_NULL

  /** `values()`: every constant, in declaration order. */
  const AllOps: seq<Op> :=
    [NO_OOP, NE, EQ, CONTAINS, LIKE, GT, GOE, LT, LOE, NOT_IN, NOT_IN2, IN, IS_NULL, NOT_NULL]

  /** `getValue()`: the wire keyword given to each constant. */
  function Keyword(op: Op): (k: string)
    ensures k == "" <==> op == NO_OOP
  {
    match op
    case NO_OOP => ""
    case NE => "ne"
    case EQ => "eq"
    case CONTAINS => "contains"
    case LIKE => "like"
    case GT => "gt"
    case GOE => "goe"
    case LT => "lt"
    case LOE => "loe"
    case NOT_IN => "notIn"
    case NOT_IN2 => "notIn2"
    case IN => "in"
    case IS_NULL => "isNull"
    case NOT_NULL => "notNull"
  }

  // ---------------------------------------------------------------------------------------
  // Keyword lookup
  // ---------------------------------------------------------------------------------------

  /** `Character.toLowerCase` as far as it can produce an ASCII letter: `A`-`Z` and the
      Kelvin sign map to lower-case ASCII; every other character is left as it is. */
  function LowerChar(c: char): char {
    if 'A' <= c <= 'Z' then (c as int + 32) as char
    else if c == '\U{212A}' then 'k'
    else c
  }

  /** `String.toLowerCase()`, character by character (see LowerChar). */
  function ToLowerCase(s: string): string {
    seq(|s|, i requires 0 <= i < |s| => LowerChar(s[i]))
  }

  /** The map the static initializer builds by putting each constant of `ops`, in order,
      under its lower-cased keyword (a later put overwrites an earlier one). */
  function TableOf(ops: seq<Op>): map<string, Op> {
    if ops == [] then map[]
    else
      var last := ops[|ops| - 1];
      TableOf(ops[..|ops| - 1])[ToLowerCase(Keyword(last)) := last]
  }

  /** The static `VALUES` map. */
  function Values(): map<string, Op> {
    TableOf(AllOps)
  }

  /** The static initializer: a loop over `values()` filling a fresh map. */
  method InitValues() returns (m: map<string, Op>)
    ensures m == Values()
    ensures forall op :: ToLowerCase(Keyword(op)) in m && m[ToLowerCase(Keyword(op))] == op
  {
    m := map[];
    for i := 0 to |AllOps|
      invariant m == TableOf(AllOps[..i])
    {
      assert AllOps[..i + 1][..i] == AllOps[..i];
      m := m[ToLowerCase(Keyword(AllOps[i])) := AllOps[i]];
    }
    assert AllOps[..|AllOps|] == AllOps;
    ValuesMapsEachKeyword();
  }

  /** `value(s)`: an empty `s` or one whose lower-case form is no key of `VALUES` throws
      IllegalStateException; otherwise the constant stored under that key. */
  function FromKeyword(s: string): (r: Result<Op>)
    ensures r.Err? ==> r.error == IllegalStateException
    ensures r.Ok? ==> r.value != NO_OOP && ToLowerCase(Keyword(r.value)) == ToLowerCase(s)
  {
    ValuesMapsEachKeyword();
    if s == "" || ToLowerCase(s) !in Values() then Err(IllegalStateException)
    else
      assert |ToLowerCase(s)| == |s| && ToLowerCase(Keyword(NO_OOP)) == "";
      Ok(Values()[ToLowerCase(s)])
  }

  /** The lower-cased keyword of each constant, written out. */
  function LowerKeyword(op: Op): string {
    match op
    case NO_OOP => ""
    case NE => "ne"
    case EQ => "eq"
    case CONTAINS => "contains"
    case LIKE => "like"
    case GT => "gt"
    case GOE => "goe"
    case LT => "lt"
    case LOE => "loe"
    case NOT_IN => "notin"
    case NOT_IN2 => "notin2"
    case IN => "in"
    case IS_NULL => "isnull"
    case NOT_NULL => "notnull"
  }

  lemma LowerKeywordIsLowerCase(op: Op)
    ensures ToLowerCase(Keyword(op)) == LowerKeyword(op)
  {
    var k := Keyword(op);
    var l := LowerKeyword(op);
    assert |ToLowerCase(k)| == |l|;
    forall i | 0 <= i < |l|
      ensures ToLowerCase(k)[i] == l[i]
    {
    }
  }

  /** No two constants share a keyword once lower-cased, so no put of the static
      initializer overwrites another constant. */
  lemma LowerCaseKeywordsDistinct(a: Op, b: Op)
    ensures ToLowerCase(Keyword(a)) == ToLowerCase(Keyword(b)) ==> a == b
  {
    LowerKeywordIsLowerCase(a);
    LowerKeywordIsLowerCase(b);
  }

  /** A table built from constants whose lower-cased keywords are distinct stores each
      constant under its own lower-cased keyword, and holds no other key. */
  lemma {:induction false} TableOfStoresEach(ops: seq<Op>)
    requires forall a, b :: a in ops && b in ops && ToLowerCase(Keyword(a)) == ToLowerCase(Keyword(b)) ==> a == b
    ensures forall op :: op in ops ==> ToLowerCase(Keyword(op)) in TableOf(ops) && TableOf(ops)[ToLowerCase(Keyword(op))] == op
    ensures forall k :: k in TableOf(ops) ==> exists op :: op in ops && k == ToLowerCase(Keyword(op))
  {
    if ops != [] {
      var init := ops[..|ops| - 1];
      var last := ops[|ops| - 1];
      assert ops == init + [last];
      TableOfStoresEach(init);
      forall op | op in ops
        ensures ToLowerCase(Keyword(op)) in TableOf(ops) && TableOf(ops)[ToLowerCase(Keyword(op))] == op
      {
        if op != last {
          assert op in init;
        }
      }
      forall k | k in TableOf(ops)
        ensures exists op :: op in ops && k == ToLowerCase(Keyword(op))
      {
        if k != ToLowerCase(Keyword(last)) {
          var op :| op in init && k == ToLowerCase(Keyword(op));
          assert op in ops;
        }
      }
    }
  }

  /** `VALUES` maps the lower-cased keyword of every constant to that constant, and has
      no other key. */
  lemma ValuesMapsEachKeyword()
    ensures forall op :: ToLowerCase(Keyword(op)) in Values() && Values()[ToLowerCase(Keyword(op))] == op
    ensures forall k :: k in Values() ==> exists op :: k == ToLowerCase(Keyword(op))
  {
    forall a, b | a in AllOps && b in AllOps && ToLowerCase(Keyword(a)) == ToLowerCase(Keyword(b))
      ensures a == b
    {
      LowerCaseKeywordsDistinct(a, b);
    }
    TableOfStoresEach(AllOps);
    forall op ensures op in AllOps {
      AllOpsComplete(op);
    }
  }

  /** `values()` lists every constant. */
  lemma AllOpsComplete(op: Op)
    ensures op in AllOps
  {
    var i := match op
      case NO_OOP => 0 case NE => 1 case EQ => 2 case CONTAINS => 3 case LIKE => 4
      case GT => 5 case GOE => 6 case LT => 7 case LOE => 8 case NOT_IN => 9
      case NOT_IN2 => 10 case IN => 11 case IS_NULL => 12 case NOT_NULL => 13;
    assert AllOps[i] == op;
  }

  /** Lower-casing is idempotent. */
  lemma ToLowerCaseIdempotent(s: string)
    ensures ToLowerCase(ToLowerCase(s)) == ToLowerCase(s)
  {
  }

  /** The lookup succeeds with `op` exactly when `s` is non-empty and matches the keyword of
      `op` ignoring case; every other string throws IllegalStateException. */
  lemma FromKeywordIff(s: string, op: Op)
    ensures FromKeyword(s) == Ok(op) <==> s != "" && ToLowerCase(s) == ToLowerCase(Keyword(op))
    ensures FromKeyword(s).Err? <==> s == "" || forall o :: ToLowerCase(s) != ToLowerCase(Keyword(o))
    ensures FromKeyword(s).Err? ==> FromKeyword(s).error == IllegalStateException
  {
    ValuesMapsEachKeyword();
    if s != "" && ToLowerCase(s) == ToLowerCase(Keyword(op)) {
      assert FromKeyword(s) == Ok(op);
    }
    if FromKeyword(s) == Ok(op) {
      var o := Values()[ToLowerCase(s)];
      var w :| ToLowerCase(s) == ToLowerCase(Keyword(w));
      assert o == w;
    }
  }

  /** The lookup ignores case. */
  lemma FromKeywordIgnoresCase(s: string)
    ensures FromKeyword(s) == FromKeyword(ToLowerCase(s))
  {
    ToLowerCaseIdempotent(s);
    assert |ToLowerCase(s)| == |s|;
  }

  /** Because the emptiness test comes first, NO_OOP (keyword "") is never looked up. */
  lemma FromKeywordNeverNoOp(s: string)
    ensures FromKeyword(s) != Ok(NO_OOP)
  {
    FromKeywordIff(s, NO_OOP);
    assert Keyword(NO_OOP) == "";
    assert |ToLowerCase(s)| == |s|;
  }

  /** Every constant but NO_OOP is found again from its own keyword. */
  lemma FromKeywordRoundTrip(op: Op)
    requires op != NO_OOP
    ensures FromKeyword(Keyword(op)) == Ok(op)
  {
    FromKeywordIff(Keyword(op), op);
  }

  // ---------------------------------------------------------------------------------------
  // Predicate construction
  // ---------------------------------------------------------------------------------------

  /** One `contains(v)` term per value, in iteration order: what the NO_OOP and CONTAINS
      loops `and` into their BooleanBuilder. */
  function ContainsEach(path: Path, vs: seq<Value>): seq<Pred> {
    seq(|vs|, i requires 0 <= i < |vs| => Contains(path, vs[i]))
  }

  /** The `getPredicateImpl` override of each constant, called with a non-empty collection;
      IS_NULL and NOT_NULL do not override it, so they inherit the base one, which throws. */
  function PredicateImpl(op: Op, path: Path, vs: seq<Value>): (r: Result<Option<Pred>>)
    requires |vs| > 0
    ensures r.Ok? ==> r.value.Some? && Accepts(op, path.cap)
    ensures r.Err? ==> r.error == IllegalArgumentException || (r.error == ClassCastException && Numeric(op))
    ensures op == IS_NULL || op == NOT_NULL ==> r == Err(IllegalArgumentException)
  {
    match op
    case NO_OOP =>
      if path.cap == Collection then Ok(Some(BuilderValue(ContainsEach(path, vs))))
      else if IsSimple(path.cap) then
        if |vs| > 1 then Ok(Some(In(path, vs))) else Ok(Some(Eq(path, vs[0])))
      else Err(IllegalArgumentException)
    case NE =>
      if IsSimple(path.cap) && |vs| == 1 then Ok(Some(Ne(path, vs[0]))) else Err(IllegalArgumentException)
    case EQ =>
      if IsSimple(path.cap) && |vs| == 1 then Ok(Some(Eq(path, vs[0]))) else Err(IllegalArgumentException)
    case CONTAINS =>
      if path.cap == Collection then Ok(Some(BuilderValue(ContainsEach(path, vs)))) else Err(IllegalArgumentException)
    case LIKE =>
      if path.cap == Str && |vs| == 1 then Ok(Some(LikeIgnoreCase(path, StringValueOf(vs[0]))))
      else Err(IllegalArgumentException)
    case GT =>
      if path.cap == Num && |vs| == 1 then CastToNumber(vs[0], Gt(path, vs[0])) else Err(IllegalArgumentException)
    case GOE =>
      if path.cap == Num && |vs| == 1 then CastToNumber(vs[0], Goe(path, vs[0])) else Err(IllegalArgumentException)
    case LT =>
      if path.cap == Num && |vs| == 1 then CastToNumber(vs[0], Lt(path, vs[0])) else Err(IllegalArgumentException)
    case LOE =>
      if path.cap == Num && |vs| == 1 then CastToNumber(vs[0], Loe(path, vs[0])) else Err(IllegalArgumentException)
    case NOT_IN =>
      if IsSimple(path.cap) then Ok(Some(NotIn(path, vs))) else Err(IllegalArgumentException)
    case NOT_IN2 =>
      if IsSimple(path.cap) then Ok(Some(Not(In(path, vs)))) else Err(IllegalArgumentException)
    case IN =>
      if IsSimple(path.cap) then Ok(Some(In(path, vs))) else Err(IllegalArgumentException)
    case IS_NULL => Err(IllegalArgumentException)
    case NOT_NULL => Err(IllegalArgumentException)
  }

  /** The `(Number)` cast in front of a numeric comparison: `p` if `v` is a Number or null. */
  function CastToNumber(v: Value, p: Pred): Result<Option<Pred>> {
    if IsNumberOrNull(v) then Ok(Some(p)) else Err(ClassCastException)
  }

  /** `getPredicate(path, values)`, with `None` standing for a null collection: IS_NULL and
      NOT_NULL override it and ignore the values; every other constant returns no predicate
      for an empty collection and defers to its getPredicateImpl otherwise. */
  function PredicateFor(op: Op, path: Path, values: Option<seq<Value>>): (r: Result<Option<Pred>>)
    requires values.Some? || op == IS_NULL || op == NOT_NULL
    ensures r.Ok? && r.value.Some? ==> Accepts(op, path.cap)
    ensures r.Ok? && r.value.None? <==> op != IS_NULL && op != NOT_NULL && |values.value| == 0
  {
    match op
    case IS_NULL => if IsSimple(path.cap) then Ok(Some(IsNull(path))) else Err(IllegalArgumentException)
    case NOT_NULL => if IsSimple(path.cap) then Ok(Some(IsNotNull(path))) else Err(IllegalArgumentException)
    case _ => if |values.value| == 0 then Ok(None) else PredicateImpl(op, path, values.value)
  }

  // ---------------------------------------------------------------------------------------
  // What each operation demands and what its predicate means
  // ---------------------------------------------------------------------------------------

  /** The expression class each operation's `instanceof` test admits. */
  predicate Accepts(op: Op, c: Cap) {
    match op
    case NO_OOP => c == Collection || IsSimple(c)
    case CONTAINS => c == Collection
    case LIKE => c == Str
    case GT | GOE | LT | LOE => c == Num
    case NE | EQ | NOT_IN | NOT_IN2 | IN | IS_NULL | NOT_NULL => IsSimple(c)
  }

  /** The operations that take exactly one value. */
  predicate SingleValued(op: Op) {
    op in {NE, EQ, LIKE, GT, GOE, LT, LOE}
  }

  /** The operations whose value is cast to Number. */
  predicate Numeric(op: Op) {
    op in {GT, GOE, LT, LOE}
  }

  /** For every constant but IS_NULL and NOT_NULL, an empty collection gives no predicate,
      whatever the path. */
  lemma EmptyValuesGiveNoPredicate(op: Op, path: Path)
    requires op != IS_NULL && op != NOT_NULL
    ensures PredicateFor(op, path, Some([])) == Ok(None)
  {
  }

  /** IS_NULL and NOT_NULL do not look at the values, not even at whether there are any:
      on a simple path they give `isNull()`/`isNotNull()`, otherwise they throw. */
  lemma NullChecksIgnoreValues(op: Op, path: Path, values: Option<seq<Value>>, others: Option<seq<Value>>)
    requires op == IS_NULL || op == NOT_NULL
    ensures PredicateFor(op, path, values) == PredicateFor(op, path, others)
    ensures PredicateFor(op, path, values).Ok? <==> IsSimple(path.cap)
    ensures PredicateFor(op, path, values).Err? ==> PredicateFor(op, path, values).error == IllegalArgumentException
    ensures PredicateFor(op, path, values).Ok? ==>
      PredicateFor(op, path, values).value == Some(if op == IS_NULL then IsNull(path) else IsNotNull(path))
  {
  }

  /** With at least one value, an operation other than the null checks succeeds exactly when
      the path has the capability it requires, the number of values fits, and a numeric
      comparison gets a Number (or null); it then always yields a predicate. It throws
      IllegalArgumentException on a capability or multiplicity mismatch and
      ClassCastException when only the cast fails. */
  lemma PredicateForSucceedsIff(op: Op, path: Path, vs: seq<Value>)
    requires op != IS_NULL && op != NOT_NULL
    requires |vs| > 0
    ensures PredicateFor(op, path, Some(vs)).Ok? <==>
      Accepts(op, path.cap) && (SingleValued(op) ==> |vs| == 1) && (Numeric(op) ==> IsNumberOrNull(vs[0]))
    ensures PredicateFor(op, path, Some(vs)).Ok? ==> PredicateFor(op, path, Some(vs)).value.Some?
    ensures PredicateFor(op, path, Some(vs)).Err? ==>
      PredicateFor(op, path, Some(vs)).error ==
        if Accepts(op, path.cap) && (SingleValued(op) ==> |vs| == 1) then ClassCastException
        else IllegalArgumentException
  {
  }

  /** The single-value operations hand their one value on untouched; LIKE passes
      `String.valueOf(v)` to `likeIgnoreCase` with no wildcards added. */
  lemma SingleValueOperations(op: Op, path: Path, v: Value)
    requires SingleValued(op) && Accepts(op, path.cap) && (Numeric(op) ==> IsNumberOrNull(v))
    ensures PredicateFor(op, path, Some([v])) == Ok(Some(
      match op
      case NE => Ne(path, v)
      case EQ => Eq(path, v)
      case LIKE => LikeIgnoreCase(path, StringValueOf(v))
      case GT => Gt(path, v)
      case GOE => Goe(path, v)
      case LT => Lt(path, v)
      case _ => Loe(path, v)))
  {
  }

  /** NO_OOP and CONTAINS on a collection path give the conjunction of exactly one
      `contains(v)` per value, in order; the predicate holds when the collection holds every
      value. */
  lemma ContainsOnCollection(op: Op, path: Path, vs: seq<Value>, I: Interpretation)
    requires op == NO_OOP || op == CONTAINS
    requires path.cap == Collection && |vs| > 0
    ensures PredicateFor(op, path, Some(vs)) == Ok(Some(BuilderValue(ContainsEach(path, vs))))
    ensures |ContainsEach(path, vs)| == |vs|
    ensures forall i :: 0 <= i < |vs| ==> ContainsEach(path, vs)[i] == Contains(path, vs[i])
    ensures Holds(BuilderValue(ContainsEach(path, vs)), I) <==>
      I.field(path).Elements? && forall i :: 0 <= i < |vs| ==> vs[i] in I.field(path).vs
  {
    var ps := ContainsEach(path, vs);
    BuilderValueHolds(ps, I);
    if Holds(BuilderValue(ps), I) {
      assert Holds(ps[0], I);
    }
  }

  /** NO_OOP on a simple path gives `eq(v)` for one value and `in(values)` for several; either
      way the predicate holds exactly when the field's value is one of the values. */
  lemma NoOpOnSimplePath(path: Path, vs: seq<Value>, I: Interpretation)
    requires IsSimple(path.cap) && |vs| > 0
    ensures PredicateFor(NO_OOP, path, Some(vs)) == Ok(Some(if |vs| == 1 then Eq(path, vs[0]) else In(path, vs)))
    ensures Holds(PredicateFor(NO_OOP, path, Some(vs)).value.value, I) <==>
      I.field(path).Scalar? && I.field(path).v in vs
  {
    if |vs| == 1 {
      assert vs == [vs[0]];
    }
  }

  /** NO_OOP on a path that is neither a collection nor simple throws. */
  lemma NoOpOnOtherPath(path: Path, vs: seq<Value>)
    requires path.cap == Other && |vs| > 0
    ensures PredicateFor(NO_OOP, path, Some(vs)) == Err(IllegalArgumentException)
  {
  }

  /** IN, NOT_IN and NOT_IN2 take any number of values on a simple path. NOT_IN and NOT_IN2
      build differently shaped predicates with the same truth value, the negation of IN's. */
  lemma SetOperations(path: Path, vs: seq<Value>, I: Interpretation)
    requires IsSimple(path.cap) && |vs| > 0
    ensures PredicateFor(IN, path, Some(vs)) == Ok(Some(In(path, vs)))
    ensures PredicateFor(NOT_IN, path, Some(vs)) == Ok(Some(NotIn(path, vs)))
    ensures PredicateFor(NOT_IN2, path, Some(vs)) == Ok(Some(Not(In(path, vs))))
    ensures PredicateFor(NOT_IN, path, Some(vs)) != PredicateFor(NOT_IN2, path, Some(vs))
    ensures Holds(NotIn(path, vs), I) == Holds(Not(In(path, vs)), I) == !Holds(In(path, vs), I)
  {
  }
}
