/** Whole builds against a small User entity: `firstname` and `lastname` (strings),
    `nickNames` (a collection) and `inceptionYear` (a number), with every path available, no
    configured bindings, and a conversion service that turns strings into Numbers for the
    numeric leaf type and keeps them as Strings otherwise. */
module Scenarios {
  import opened Wrappers
  import opened Querydsl
  import opened OperationType
  import opened PredicateBuilder

  const Firstname := Path("firstname", Str)
  const Lastname := Path("lastname", Str)
  const NickNames := Path("nickNames", Collection)
  const InceptionYear := Path("inceptionYear", Num)

  const UserType := TypeInformation("User")

  /** The User's property paths; any other name is not a property. */
  function UserProperty(name: string): Option<PathInfo> {
    if name == "firstname" || name == "lastname" then Some(PathInfo([name], "String"))
    else if name == "nickNames" then Some(PathInfo([name], "String"))
    else if name == "inceptionYear" then Some(PathInfo([name], "Long"))
    else None
  }

  function ReifyUserPath(info: PathInfo): Path {
    if info.segments == ["firstname"] then Firstname
    else if info.segments == ["lastname"] then Lastname
    else if info.segments == ["nickNames"] then NickNames
    else if info.segments == ["inceptionYear"] then InceptionYear
    else Path("", Other)
  }

  function ConvertUserValue(s: Option<string>, info: PathInfo): Result<Value> {
    match s
    case None => Ok(Null)
    case Some(t) => if info.leafType == "Long" then Ok(Number(t)) else Ok(Text(t))
  }

  const UserBindings := QuerydslBindings(
    (path: string, t: TypeInformation) => true,
    (path: string, t: TypeInformation) => UserProperty(path),
    (info: PathInfo) => None,
    (info: PathInfo) => None)

  const UserContext := Context(
    ConversionService((leafType: string) => true, ConvertUserValue),
    ReifyUserPath,
    UserBindings,
    UserType)

  /** A lone parameter that contributes `p` builds exactly `p`. */
  lemma AssembleOne(ctx: Context, x: Param, p: Pred)
    requires Contribute(ctx, x) == Ok(Some(p))
    ensures Assemble(ctx, [x]) == Ok([p])
  {
    assert [x][..0] == [];
    assert [] + [p] == [p];
  }

  /** A bare User property with text in its single value binds by NO_OOP. */
  lemma BareProperty(name: string, v: string, info: PathInfo, value: Value)
    requires OperationDelimiter !in name
    requires exists i :: 0 <= i < |v| && !IsWhitespace(v[i])
    requires UserProperty(name) == Some(info)
    requires ConvertUserValue(Some(v), info) == Ok(value)
    ensures Contribute(UserContext, Param(name, [Some(v)])) ==
      PredicateFor(NO_OOP, ReifyUserPath(info), Some([value]))
  {
    var x := Param(name, [Some(v)]);
    assert !IsSingleElementCollectionWithoutText(x.raw);
    KeyRoundTrip(name, EQ);
    assert UserContext.bindings.isPathAvailable(name, UserType);
    assert UserContext.bindings.getPropertyPath(name, UserType) == Some(info);
    assert [Some(v)][..0] == [];
    assert ConvertEach(UserContext.conversion, info, []) == Ok([]);
    assert [] + [value] == [value];
    assert ConvertValue(UserContext.conversion, info, Some(v)) == Ok(value);
    assert ConvertEach(UserContext.conversion, info, [Some(v)]) == Ok([value]);
    assert ConvertedValues(UserContext.conversion, [Some(v)], info) == Ok([value]);
    assert Prepare(UserContext, x) == Ok(Some(Prepared(info, [value], None)));
    assert UserContext.bindings.getBindingForPath(info) == None;
    assert ResolvedPath(UserContext.bindings, UserContext.reify, info) == ReifyUserPath(info);
  }

  /** `firstname=tam` gives `firstname = "tam"`. */
  lemma SingleValueIsEquality()
    ensures Assemble(UserContext, [Param("firstname", [Some("tam")])]) == Ok([Eq(Firstname, Text("tam"))])
  {
    var x := Param("firstname", [Some("tam")]);
    var info := PathInfo(["firstname"], "String");
    assert !IsWhitespace("tam"[0]);
    assert UserProperty("firstname") == Some(info);
    BareProperty("firstname", "tam", info, Text("tam"));
    assert ReifyUserPath(info) == Firstname;
    NoOpOnSimplePath(Firstname, [Text("tam")], Interpretation(p => Scalar(Null), (a, b) => false, (f, t) => false));
    assert Contribute(UserContext, x) == Ok(Some(Eq(Firstname, Text("tam"))));
    AssembleOne(UserContext, x, Eq(Firstname, Text("tam")));
  }

  /** `nickNames=dragon reborn` gives `nickNames contains "dragon reborn"`. */
  lemma CollectionValueIsContains()
    ensures Assemble(UserContext, [Param("nickNames", [Some("dragon reborn")])]) ==
      Ok([Contains(NickNames, Text("dragon reborn"))])
  {
    assert !IsWhitespace("dragon reborn"[0]);
    NickNamesContains("dragon reborn");
    AssembleOne(UserContext, Param("nickNames", [Some("dragon reborn")]), Contains(NickNames, Text("dragon reborn")));
  }

  /** `nickNames` is the User's collection property. */
  lemma NickNamesPath()
    ensures UserProperty("nickNames") == Some(PathInfo(["nickNames"], "String"))
    ensures ReifyUserPath(PathInfo(["nickNames"], "String")) == NickNames
  {
  }

  /** A `nickNames` entry with one value that has text contributes one `contains` term. */
  lemma NickNamesContains(v: string)
    requires exists i :: 0 <= i < |v| && !IsWhitespace(v[i])
    ensures Contribute(UserContext, Param("nickNames", [Some(v)])) == Ok(Some(Contains(NickNames, Text(v))))
  {
    var info := PathInfo(["nickNames"], "String");
    NickNamesPath();
    BareProperty("nickNames", v, info, Text(v));
    assert ContainsEach(NickNames, [Text(v)]) == [Contains(NickNames, Text(v))];
  }

  /** A User property with an explicit operation and one value with text binds by that
      operation. */
  lemma OperatedProperty(name: string, op: Op, v: string, info: PathInfo, value: Value)
    requires OperationDelimiter !in name && op != NO_OOP
    requires exists i :: 0 <= i < |v| && !IsWhitespace(v[i])
    requires UserProperty(name) == Some(info)
    requires ConvertUserValue(Some(v), info) == Ok(value)
    ensures Contribute(UserContext, Param(name + [OperationDelimiter] + Keyword(op), [Some(v)])) ==
      PredicateFor(op, ReifyUserPath(info), Some([value]))
  {
    var x := Param(name + [OperationDelimiter] + Keyword(op), [Some(v)]);
    assert !IsSingleElementCollectionWithoutText(x.raw);
    KeyRoundTrip(name, op);
    assert UserContext.bindings.getPropertyPath(name, UserType) == Some(info);
    assert [Some(v)][..0] == [];
    assert ConvertEach(UserContext.conversion, info, []) == Ok([]);
    assert [] + [value] == [value];
    assert ConvertEach(UserContext.conversion, info, [Some(v)]) == Ok([value]);
    assert Prepare(UserContext, x) == Ok(Some(Prepared(info, [value], Some(op))));
    assert ResolvedPath(UserContext.bindings, UserContext.reify, info) == ReifyUserPath(info);
  }

  /** Converting two String values of a String property keeps them as they are. */
  lemma TwoStringsConverted(info: PathInfo, a: string, b: string)
    requires info.leafType == "String"
    ensures ConvertedValues(UserContext.conversion, [Some(a), Some(b)], info) == Ok([Text(a), Text(b)])
  {
    var raw := [Some(a), Some(b)];
    assert !IsSingleElementCollectionWithoutText(raw);
    assert raw[..1] == [Some(a)];
    assert [Some(a)][..0] == [];
    assert ConvertEach(UserContext.conversion, info, []) == Ok([]);
    assert [] + [Text(a)] == [Text(a)];
    assert ConvertEach(UserContext.conversion, info, [Some(a)]) == Ok([Text(a)]);
    assert [Text(a)] + [Text(b)] == [Text(a), Text(b)];
  }

  /** A bare User property with two values binds them by NO_OOP, text or not: only a single
      value can be the absence marker. */
  lemma BarePropertyTwoValues(name: string, info: PathInfo, a: string, b: string)
    requires OperationDelimiter !in name
    requires UserProperty(name) == Some(info) && info.leafType == "String"
    ensures Contribute(UserContext, Param(name, [Some(a), Some(b)])) ==
      PredicateFor(NO_OOP, ReifyUserPath(info), Some([Text(a), Text(b)]))
  {
    var x := Param(name, [Some(a), Some(b)]);
    KeyRoundTrip(name, EQ);
    assert UserContext.bindings.getPropertyPath(name, UserType) == Some(info);
    TwoStringsConverted(info, a, b);
    assert Prepare(UserContext, x) == Ok(Some(Prepared(info, [Text(a), Text(b)], None)));
    assert ResolvedPath(UserContext.bindings, UserContext.reify, info) == ReifyUserPath(info);
  }

  /** The one `firstname` entry with two values contributes their membership test. */
  lemma FirstnameTwoValues(a: string, b: string)
    ensures Contribute(UserContext, Param("firstname", [Some(a), Some(b)])) ==
      Ok(Some(In(Firstname, [Text(a), Text(b)])))
  {
    var info := PathInfo(["firstname"], "String");
    assert UserProperty("firstname") == Some(info);
    BarePropertyTwoValues("firstname", info, a, b);
    assert ReifyUserPath(info) == Firstname;
    NoOpOnSimplePath(Firstname, [Text(a), Text(b)], Interpretation(p => Scalar(Null), (x, y) => false, (f, t) => false));
  }

  /** `firstname=dragon reborn&firstname=shadowkiller` (one key, two values) gives
      `firstname in ("dragon reborn", "shadowkiller")`. */
  lemma SeveralValuesAreMembership()
    ensures Assemble(UserContext, [Param("firstname", [Some("dragon reborn"), Some("shadowkiller")])]) ==
      Ok([In(Firstname, [Text("dragon reborn"), Text("shadowkiller")])])
  {
    FirstnameTwoValues("dragon reborn", "shadowkiller");
    AssembleOne(UserContext, Param("firstname", [Some("dragon reborn"), Some("shadowkiller")]),
      In(Firstname, [Text("dragon reborn"), Text("shadowkiller")]));
  }

  /** `inceptionYear:gt=20` alone gives `inceptionYear > 20`. */
  lemma GreaterThan()
    ensures Contribute(UserContext, Param("inceptionYear:gt", [Some("20")])) ==
      Ok(Some(Gt(InceptionYear, Number("20"))))
  {
    var info := PathInfo(["inceptionYear"], "Long");
    assert !IsWhitespace("20"[0]);
    assert UserProperty("inceptionYear") == Some(info);
    assert ReifyUserPath(info) == InceptionYear;
    OperatedProperty("inceptionYear", GT, "20", info, Number("20"));
    SingleValueOperations(GT, InceptionYear, Number("20"));
    GreaterThanKey();
  }

  /** The key `inceptionYear:gt` is the property, the delimiter and the GT keyword. */
  lemma GreaterThanKey()
    ensures "inceptionYear:gt" == "inceptionYear" + [OperationDelimiter] + Keyword(GT)
  {
  }

  /** `lastname= ` is the absence marker and `middleName=x` names no User property: both are
      skipped. */
  lemma SkippedParameters()
    ensures Contribute(UserContext, Param("lastname", [Some(" ")])) == Ok(None)
    ensures Contribute(UserContext, Param("middleName", [Some("x")])) == Ok(None)
  {
    BlankValueSkipped();
    UnknownPropertySkipped();
  }

  /** `lastname= ` is the absence marker. */
  lemma BlankValueSkipped()
    ensures Contribute(UserContext, Param("lastname", [Some(" ")])) == Ok(None)
  {
    assert !HasText(Some(" ")) by {
      assert forall i :: 0 <= i < |" "| ==> IsWhitespace(" "[i]);
    }
    AbsenceMarkerSkipped(UserContext, "lastname", [Some(" ")]);
  }

  /** `middleName=x` names no User property. */
  lemma UnknownPropertySkipped()
    ensures Contribute(UserContext, Param("middleName", [Some("x")])) == Ok(None)
  {
    assert !IsWhitespace("x"[0]);
    KeyRoundTrip("middleName", EQ);
    MiddleNameIsNoProperty();
    UnavailablePathSkipped(UserContext, "middleName", [Some("x")]);
  }

  /** The User has no `middleName` property. */
  lemma MiddleNameIsNoProperty()
    ensures UserProperty("middleName") == None
  {
  }

  /** Two parameters that contribute nothing followed by one that contributes `p` build
      exactly `p`. */
  lemma SilentSilentThenOne(ctx: Context, m: Param, u: Param, g: Param, p: Pred)
    requires Contribute(ctx, m) == Ok(None) && Contribute(ctx, u) == Ok(None)
    requires Contribute(ctx, g) == Ok(Some(p))
    ensures Assemble(ctx, [m, u, g]) == Ok([p])
  {
    AssembleOne(ctx, g, p);
    var e: seq<Param> := [];
    SilentParamIsNeutral(ctx, e, u, [g]);
    assert e + [u] + [g] == [u, g];
    assert e + [g] == [g];
    SilentParamIsNeutral(ctx, e, m, [u, g]);
    assert e + [m] + [u, g] == [m, u, g];
    assert e + [u, g] == [u, g];
  }

  /** `lastname= `, `middleName=x` and `inceptionYear:gt=20` together give
      `inceptionYear > 20`. */
  lemma ExplicitOperationWithSkippedParameters()
    ensures Assemble(UserContext, [Param("lastname", [Some(" ")]), Param("middleName", [Some("x")]),
                                   Param("inceptionYear:gt", [Some("20")])]) ==
      Ok([Gt(InceptionYear, Number("20"))])
  {
    SkippedParameters();
    GreaterThan();
    SilentSilentThenOne(UserContext, Param("lastname", [Some(" ")]), Param("middleName", [Some("x")]),
      Param("inceptionYear:gt", [Some("20")]), Gt(InceptionYear, Number("20")));
  }
}
