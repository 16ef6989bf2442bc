/** The slice of the Querydsl expression library the binding code relies on, kept symbolic:
    path capabilities, runtime values, predicate shapes, the value a BooleanBuilder yields,
    and a truth semantics for predicates over one entity instance. */
module Querydsl {

  /** The expression class of a path, as far as the `instanceof` tests can tell:
      a CollectionPathBase, a plain SimpleExpression, a StringExpression, a NumberExpression,
      or none of these. */
  datatype Cap = Collection | Simple | Str | Num | Other

  /** String and number expressions are simple expressions too; collection paths are not. */
  predicate IsSimple(c: Cap) {
    c.Simple? || c.Str? || c.Num?
  }

  /** A typed expression path of the entity: its dotted name and its expression class. */
  datatype Path = Path(name: string, cap: Cap)

  /** A runtime value handed to an operation: null, a String, or another object known by its
      class (a Number or anything else) and its `String.valueOf` rendering. */
  datatype Value = Null | Text(s: string) | Number(rendering: string) | Object(rendering: string)

  /** `String.valueOf(v)`. */
  function StringValueOf(v: Value): string {
    match v
    case Null => "null"
    case Text(s) => s
    case Number(r) => r
    case Object(r) => r
  }

  /** Whether the cast `(Number) v` succeeds (null passes any reference cast). */
  predicate IsNumberOrNull(v: Value) {
    v.Null? || v.Number?
  }

  /** Predicate shapes, one per Querydsl factory method used; `And(ps)` is the conjunction
      a BooleanBuilder accumulates, left to right. */
  datatype Pred =
    | Eq(path: Path, v: Value)
    | Ne(path: Path, v: Value)
    | In(path: Path, vs: seq<Value>)
    | NotIn(path: Path, vs: seq<Value>)
    | Not(p: Pred)
    | Contains(path: Path, v: Value)
    | LikeIgnoreCase(path: Path, pattern: string)
    | Gt(path: Path, v: Value)
    | Goe(path: Path, v: Value)
    | Lt(path: Path, v: Value)
    | Loe(path: Path, v: Value)
    | IsNull(path: Path)
    | IsNotNull(path: Path)
    | And(ps: seq<Pred>)

  /** What `getValue()` yields after `and`-ing the given non-null predicates into a fresh
      BooleanBuilder in order: a single predicate comes back as itself, several as their
      conjunction. `And([])` stands for the value of an untouched builder, which is the
      library's business and kept symbolic here. */
  function BuilderValue(ps: seq<Pred>): Pred {
    if |ps| == 1 then ps[0] else And(ps)
  }

  /** The state of one entity instance at a path: a single value, or the elements of a
      collection property. */
  datatype Field = Scalar(v: Value) | Elements(vs: seq<Value>)

  /** What the predicates are evaluated against: the entity's fields, the order used by the
      comparisons, and the case-insensitive pattern match used by `likeIgnoreCase`. */
  datatype Interpretation = Interpretation(
    field: Path -> Field,
    less: (Value, Value) -> bool,
    like: (Field, string) -> bool)

  /** Whether predicate `p` holds of the instance described by `I`. */
  predicate Holds(p: Pred, I: Interpretation) {
    match p
    case Eq(path, v) => I.field(path) == Scalar(v)
    case Ne(path, v) => I.field(path) != Scalar(v)
    case In(path, vs) => I.field(path).Scalar? && I.field(path).v in vs
    case NotIn(path, vs) => !(I.field(path).Scalar? && I.field(path).v in vs)
    case Not(q) => !Holds(q, I)
    case Contains(path, v) => I.field(path).Elements? && v in I.field(path).vs
    case LikeIgnoreCase(path, pattern) => I.like(I.field(path), pattern)
    case Gt(path, v) => I.field(path).Scalar? && I.less(v, I.field(path).v)
    case Goe(path, v) => I.field(path).Scalar? && (I.less(v, I.field(path).v) || I.field(path).v == v)
    case Lt(path, v) => I.field(path).Scalar? && I.less(I.field(path).v, v)
    case Loe(path, v) => I.field(path).Scalar? && (I.less(I.field(path).v, v) || I.field(path).v == v)
    case IsNull(path) => I.field(path) == Scalar(Null)
    case IsNotNull(path) => I.field(path) != Scalar(Null)
    case And(ps) => forall i :: 0 <= i < |ps| ==> Holds(ps[i], I)
  }

  /** A builder's value holds exactly when every predicate and-ed into it holds; in particular
      the untouched builder's value constrains nothing. */
  lemma BuilderValueHolds(ps: seq<Pred>, I: Interpretation)
    ensures Holds(BuilderValue(ps), I) <==> forall i :: 0 <= i < |ps| ==> Holds(ps[i], I)
  {
  }
}
