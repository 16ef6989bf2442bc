/** Assembly of one predicate out of multi-valued request parameters keyed `path` or
    `path:operation`: key splitting, the "submitted without a value" marker, value conversion,
    the choice between a configured binding and an explicit operation, the per-builder path
    cache, and the conjunction of what every parameter contributes. */
module PredicateBuilder {
  import opened Wrappers
  import opened Querydsl
  import opened OperationType

  // ---------------------------------------------------------------------------------------
  // Keys: `path` or `path:operation`
  // ---------------------------------------------------------------------------------------

  const OperationDelimiter: char := ':'

  /** A parsed key: the dotted path and the explicit operation, if any. */
  datatype PathAndOperation = PathAndOperation(path: string, operation: Option<Op>)

  /** `s.split(":", 2)`: the text before the first delimiter and, when there is a delimiter,
      everything after it (possibly empty, possibly holding further delimiters). */
  function SplitOnce(s: string): (parts: (string, Option<string>))
    ensures OperationDelimiter !in parts.0
    ensures parts.1.None? <==> OperationDelimiter !in s
    ensures parts.1.None? ==> parts.0 == s
    ensures parts.1.Some? ==> s == parts.0 + [OperationDelimiter] + parts.1.value
  {
    if s == [] then ([], None)
    else if s[0] == OperationDelimiter then ([], Some(s[1..]))
    else
      var rest := SplitOnce(s[1..]);
      ([s[0]] + rest.0, rest.1)
  }

  /** `getPath(String)`: the path is the text before the first delimiter; the remainder, when
      there is one, must be an operation keyword. */
  function GetPathAndOperation(requestPath: string): (r: Result<PathAndOperation>)
    ensures r.Err? ==> r.error == IllegalStateException && OperationDelimiter in requestPath
    ensures r.Ok? ==> OperationDelimiter !in r.value.path && r.value.operation != Some(NO_OOP)
    ensures r.Ok? && r.value.operation.None? <==> OperationDelimiter !in requestPath
  {
    var parts := SplitOnce(requestPath);
    match parts.1
    case None => Ok(PathAndOperation(parts.0, None))
    case Some(keyword) =>
      match FromKeyword(keyword)
      case Ok(op) => Ok(PathAndOperation(parts.0, Some(op)))
      case Err(e) => Err(e)
  }

  /** Splitting a key made of a delimiter-free path, a delimiter and a remainder recovers
      exactly that path and remainder. */
  lemma {:induction false} SplitOnceOfJoin(p: string, rest: string)
    requires OperationDelimiter !in p
    ensures SplitOnce(p + [OperationDelimiter] + rest) == (p, Some(rest))
  {
    if p != [] {
      var s := p + [OperationDelimiter] + rest;
      assert s[0] == p[0] != OperationDelimiter;
      assert s[1..] == p[1..] + [OperationDelimiter] + rest;
      SplitOnceOfJoin(p[1..], rest);
      assert [p[0]] + p[1..] == p;
    } else {
      assert p + [OperationDelimiter] + rest == [OperationDelimiter] + rest;
    }
  }

  /** The key splits at its first delimiter only: the path never holds a delimiter, equals the
      key when there is none, and the operation is absent exactly then; any remainder that is
      not a keyword throws IllegalStateException. */
  lemma KeySplitting(key: string)
    ensures GetPathAndOperation(key).Ok? ==>
      var po := GetPathAndOperation(key).value;
      OperationDelimiter !in po.path &&
      (po.operation.None? <==> OperationDelimiter !in key) &&
      (po.operation.None? ==> po.path == key) &&
      (po.operation.Some? ==>
        (|po.path| < |key| && key[..|po.path|] == po.path &&
         key[|po.path|] == OperationDelimiter && FromKeyword(key[|po.path| + 1..]) == Ok(po.operation.value)))
    ensures GetPathAndOperation(key).Err? <==>
      OperationDelimiter in key && FromKeyword(SplitOnce(key).1.value).Err?
    ensures GetPathAndOperation(key).Err? ==> GetPathAndOperation(key).error == IllegalStateException
  {
    var parts := SplitOnce(key);
    if parts.1.Some? {
      FromKeywordIff(parts.1.value, NO_OOP);
      assert key[|parts.0| + 1..] == parts.1.value;
    }
  }

  /** A delimiter-free key is a bare path; appending the delimiter and the keyword of any
      operation but NO_OOP yields that path and that operation back. */
  lemma KeyRoundTrip(p: string, op: Op)
    requires OperationDelimiter !in p
    requires op != NO_OOP
    ensures GetPathAndOperation(p) == Ok(PathAndOperation(p, None))
    ensures GetPathAndOperation(p + [OperationDelimiter] + Keyword(op)) == Ok(PathAndOperation(p, Some(op)))
  {
    SplitOnceOfJoin(p, Keyword(op));
    FromKeywordRoundTrip(op);
  }

  /** The keyword part is matched ignoring case, so `p:GT` parses like `p:gt`. */
  lemma KeyIgnoresCase(p: string, keyword: string, op: Op)
    requires OperationDelimiter !in p
    requires op != NO_OOP
    requires ToLowerCase(keyword) == ToLowerCase(Keyword(op))
    ensures GetPathAndOperation(p + [OperationDelimiter] + keyword) == Ok(PathAndOperation(p, Some(op)))
  {
    SplitOnceOfJoin(p, keyword);
    FromKeywordIff(keyword, op);
    assert |ToLowerCase(keyword)| == |keyword|;
    assert Keyword(op) != "";
  }

  /** A key ending in the delimiter (such as `age:`) names no operation. */
  lemma TrailingDelimiterRejected(p: string)
    requires OperationDelimiter !in p
    ensures GetPathAndOperation(p + [OperationDelimiter]) == Err(IllegalStateException)
  {
    SplitOnceOfJoin(p, "");
    assert p + [OperationDelimiter] + "" == p + [OperationDelimiter];
  }

  /** A key with a second delimiter (such as `a:gt:x`) names no operation: the split stops at
      the first one and no keyword holds a delimiter. */
  lemma SecondDelimiterRejected(p: string, rest: string)
    requires OperationDelimiter !in p
    requires OperationDelimiter in rest
    ensures GetPathAndOperation(p + [OperationDelimiter] + rest) == Err(IllegalStateException)
  {
    SplitOnceOfJoin(p, rest);
    var i :| 0 <= i < |rest| && rest[i] == OperationDelimiter;
    assert ToLowerCase(rest)[i] == OperationDelimiter;
    forall o ensures ToLowerCase(rest) != ToLowerCase(Keyword(o)) {
      LowerKeywordIsLowerCase(o);
      KeywordHasNoDelimiter(o);
    }
    FromKeywordIff(rest, NO_OOP);
  }

  lemma KeywordHasNoDelimiter(o: Op)
    ensures OperationDelimiter !in LowerKeyword(o)
  {
  }

  // ---------------------------------------------------------------------------------------
  // The absence marker
  // ---------------------------------------------------------------------------------------

  /** `Character.isWhitespace`: the Unicode space, line and paragraph separators other than
      the non-breaking ones, and the ASCII controls TAB, LF, VT, FF, CR and FS..US. */
  predicate IsWhitespace(c: char) {
    c == ' ' || c == '\t' || c == '\n' || c == '\U{B}' || c == '\U{C}' || c == '\r'
    || ('\U{1C}' <= c <= '\U{1F}')
    || c == '\U{1680}' || ('\U{2000}' <= c <= '\U{2006}') || ('\U{2008}' <= c <= '\U{200A}')
    || c == '\U{2028}' || c == '\U{2029}' || c == '\U{205F}' || c == '\U{3000}'
  }

  /** `StringUtils.hasText`: not null, not empty, and some character is not whitespace. */
  predicate HasText(s: Option<string>)
    ensures !HasText(s) <==> s.None? || forall i :: 0 <= i < |s.value| ==> IsWhitespace(s.value[i])
  {
    s.Some? && |s.value| > 0 && exists i :: 0 <= i < |s.value| && !IsWhitespace(s.value[i])
  }

  /** A single value without text: the parameter was submitted with no value. */
  predicate IsSingleElementCollectionWithoutText(source: seq<Option<string>>)
    ensures IsSingleElementCollectionWithoutText(source) <==>
      |source| == 1 && (source[0].None? || forall i :: 0 <= i < |source[0].value| ==> IsWhitespace(source[0].value[i]))
  {
    |source| == 1 && !HasText(source[0])
  }

  // ---------------------------------------------------------------------------------------
  // Collaborators
  // ---------------------------------------------------------------------------------------

  /** A PathInformation: the property path (used as a cache key, compared structurally) and
      the name of its leaf type. */
  datatype PathInfo = PathInfo(segments: seq<string>, leafType: string)

  /** The domain type predicates are built for. */
  datatype TypeInformation = TypeInformation(name: string)

  /** The two ConversionService calls: `canConvert(String.class, leafType)` and the
      conversion of a raw value to the path's target type descriptor, which may throw. */
  datatype ConversionService = ConversionService(
    canConvert: string -> bool,
    convert: (Option<string>, PathInfo) -> Result<Value>)

  /** A configured MultiValueBinding: path and values to a predicate or null, or an
      exception it throws. */
  type CustomBinding = (Path, seq<Value>) -> Result<Option<Pred>>

  /** The QuerydslBindings queries the builder makes. */
  datatype QuerydslBindings = QuerydslBindings(
    isPathAvailable: (string, TypeInformation) -> bool,
    getPropertyPath: (string, TypeInformation) -> Option<PathInfo>,
    getExistingPath: PathInfo -> Option<Path>,
    getBindingForPath: PathInfo -> Option<CustomBinding>)

  /** Everything one build depends on besides its parameters: the builder's conversion
      service and path reification (`reifyPath` with its resolver), the bindings and the
      domain type. */
  datatype Context = Context(
    conversion: ConversionService,
    reify: PathInfo -> Path,
    bindings: QuerydslBindings,
    domainType: TypeInformation)

  /** One entry of the parameter map: its key and its raw values (a raw value may be null). */
  datatype Param = Param(key: string, raw: seq<Option<string>>)

  // ---------------------------------------------------------------------------------------
  // Value conversion
  // ---------------------------------------------------------------------------------------

  /** An unconverted raw value as an object: null or a String. */
  function Raw(s: Option<string>): Value {
    match s
    case None => Null
    case Some(t) => Text(t)
  }

  /** One element of the conversion loop: converted when the service can convert strings to
      the leaf type, kept as the raw string otherwise. */
  function ConvertValue(conversion: ConversionService, path: PathInfo, s: Option<string>): Result<Value> {
    if conversion.canConvert(path.leafType) then conversion.convert(s, path) else Ok(Raw(s))
  }

  /** The conversion loop over `source`, left to right; the first failing element aborts it. */
  function ConvertEach(conversion: ConversionService, path: PathInfo, source: seq<Option<string>>): Result<seq<Value>> {
    if source == [] then Ok([])
    else
      match ConvertEach(conversion, path, source[..|source| - 1])
      case Err(e) => Err(e)
      case Ok(init) =>
        match ConvertValue(conversion, path, source[|source| - 1])
        case Err(e) => Err(e)
        case Ok(v) => Ok(init + [v])
  }

  /** `convertToPropertyPathSpecificType`: nothing for an empty source or the absence marker,
      otherwise every element converted in order. */
  function ConvertedValues(conversion: ConversionService, source: seq<Option<string>>, path: PathInfo): Result<seq<Value>> {
    if |source| == 0 || IsSingleElementCollectionWithoutText(source) then Ok([])
    else ConvertEach(conversion, path, source)
  }

  /** The conversion loop keeps length and order, converting element by element, and fails
      with the exception of its first failing element. */
  lemma {:induction false} ConvertEachShape(conversion: ConversionService, path: PathInfo, source: seq<Option<string>>)
    ensures ConvertEach(conversion, path, source).Ok? <==>
      forall i :: 0 <= i < |source| ==> ConvertValue(conversion, path, source[i]).Ok?
    ensures ConvertEach(conversion, path, source).Ok? ==>
      var vs := ConvertEach(conversion, path, source).value;
      |vs| == |source| && forall i :: 0 <= i < |source| ==> Ok(vs[i]) == ConvertValue(conversion, path, source[i])
    ensures ConvertEach(conversion, path, source).Err? ==>
      exists i :: 0 <= i < |source| && ConvertValue(conversion, path, source[i]) == Err(ConvertEach(conversion, path, source).error) &&
        forall j :: 0 <= j < i ==> ConvertValue(conversion, path, source[j]).Ok?
  {
    if source != [] {
      var init := source[..|source| - 1];
      ConvertEachShape(conversion, path, init);
      assert forall i :: 0 <= i < |init| ==> init[i] == source[i];
      if ConvertEach(conversion, path, init).Err? {
        var i :| 0 <= i < |init| && ConvertValue(conversion, path, init[i]) == Err(ConvertEach(conversion, path, init).error) &&
          forall j :: 0 <= j < i ==> ConvertValue(conversion, path, init[j]).Ok?;
        assert ConvertValue(conversion, path, source[i]) == Err(ConvertEach(conversion, path, source).error);
      }
    }
  }

  /** Conversion of an empty source or of the absence marker gives no values; otherwise the
      values have the source's length and order, or the first failure is reported. */
  lemma ConversionShape(conversion: ConversionService, source: seq<Option<string>>, path: PathInfo)
    ensures |source| == 0 || IsSingleElementCollectionWithoutText(source) ==>
      ConvertedValues(conversion, source, path) == Ok([])
    ensures !IsSingleElementCollectionWithoutText(source) ==>
      (ConvertedValues(conversion, source, path).Ok? <==>
        forall i :: 0 <= i < |source| ==> ConvertValue(conversion, path, source[i]).Ok?)
    ensures ConvertedValues(conversion, source, path).Ok? && !IsSingleElementCollectionWithoutText(source) ==>
      var vs := ConvertedValues(conversion, source, path).value;
      |vs| == |source| && forall i :: 0 <= i < |source| ==> Ok(vs[i]) == ConvertValue(conversion, path, source[i])
  {
    ConvertEachShape(conversion, path, source);
  }

  /** Once a prefix of the source fails to convert, the whole conversion fails the same way. */
  lemma {:induction false} ConvertEachErrorPrefix(conversion: ConversionService, path: PathInfo, source: seq<Option<string>>, k: nat)
    requires k <= |source|
    requires ConvertEach(conversion, path, source[..k]).Err?
    ensures ConvertEach(conversion, path, source) == ConvertEach(conversion, path, source[..k])
    decreases |source| - k
  {
    if k < |source| {
      assert source[..k + 1][..k] == source[..k];
      ConvertEachErrorPrefix(conversion, path, source, k + 1);
    } else {
      assert source[..k] == source;
    }
  }

  // ---------------------------------------------------------------------------------------
  // Binding
  // ---------------------------------------------------------------------------------------

  /** The default binding: the operation's own `getPredicate`. */
  function DefaultBinding(path: Path, values: seq<Value>, op: Op): Result<Option<Pred>> {
    PredicateFor(op, path, Some(values))
  }

  /** The choice `invokeBinding` makes: without an explicit operation the configured binding
      if there is one, else the default binding with NO_OOP; with an explicit operation
      always the default binding with that operation. */
  function Bind(binding: Option<CustomBinding>, path: Path, values: seq<Value>, operation: Option<Op>): (r: Result<Option<Pred>>)
    ensures (operation.Some? || binding.None?) && r.Ok? && r.value.Some? ==>
      Accepts(if operation.Some? then operation.value else NO_OOP, path.cap)
  {
    match operation
    case None =>
      if binding.Some? then binding.value(path, values) else DefaultBinding(path, values, NO_OOP)
    case Some(op) => DefaultBinding(path, values, op)
  }

  /** An explicit operation ignores the configured binding; without one the configured
      binding decides alone, and with none configured it behaves as an explicit NO_OOP. */
  lemma BindingPrecedence(binding: Option<CustomBinding>, path: Path, values: seq<Value>, operation: Option<Op>)
    ensures operation.Some? ==>
      Bind(binding, path, values, operation) == Bind(None, path, values, operation) ==
        PredicateFor(operation.value, path, Some(values))
    ensures operation.None? && binding.Some? ==> Bind(binding, path, values, operation) == binding.value(path, values)
    ensures operation.None? && binding.None? ==> Bind(binding, path, values, operation) == Bind(None, path, values, Some(NO_OOP))
  {
  }

  /** `getPath(PathInformation, QuerydslBindings)`: the path the bindings supply, else the
      reified one. The cache is never consulted (see QuerydslPredicateBuilder.GetPath). */
  function ResolvedPath(bindings: QuerydslBindings, reify: PathInfo -> Path, info: PathInfo): Path {
    match bindings.getExistingPath(info)
    case Some(p) => p
    case None => reify(info)
  }

  // ---------------------------------------------------------------------------------------
  // One parameter, then all of them
  // ---------------------------------------------------------------------------------------

  /** A parameter that reached `invokeBinding`: its property path, converted values and
      explicit operation. */
  datatype Prepared = Prepared(info: PathInfo, values: seq<Value>, operation: Option<Op>)

  /** The loop body up to `invokeBinding`: the absence marker is skipped before the key is
      parsed; the key is parsed (and may throw) before unavailable or unknown paths are
      skipped; then the values are converted (and may throw). */
  function Prepare(ctx: Context, param: Param): Result<Option<Prepared>> {
    if IsSingleElementCollectionWithoutText(param.raw) then Ok(None)
    else
      match GetPathAndOperation(param.key)
      case Err(e) => Err(e)
      case Ok(po) =>
        if !ctx.bindings.isPathAvailable(po.path, ctx.domainType) then Ok(None)
        else
          match ctx.bindings.getPropertyPath(po.path, ctx.domainType)
          case None => Ok(None)
          case Some(info) =>
            match ConvertedValues(ctx.conversion, param.raw, info)
            case Err(e) => Err(e)
            case Ok(values) => Ok(Some(Prepared(info, values, po.operation)))
  }

  /** What one parameter contributes: a predicate, nothing, or an exception. */
  function Contribute(ctx: Context, param: Param): Result<Option<Pred>> {
    match Prepare(ctx, param)
    case Err(e) => Err(e)
    case Ok(None) => Ok(None)
    case Ok(Some(pr)) =>
      Bind(ctx.bindings.getBindingForPath(pr.info), ResolvedPath(ctx.bindings, ctx.reify, pr.info), pr.values, pr.operation)
  }

  /** The cache key written while handling one parameter: its property path, when it reached
      `invokeBinding` and the bindings supply no path for it. */
  function CacheWrite(ctx: Context, param: Param): Option<PathInfo> {
    match Prepare(ctx, param)
    case Ok(Some(pr)) => if ctx.bindings.getExistingPath(pr.info).None? then Some(pr.info) else None
    case _ => None
  }

  /** One more turn of the loop: and the contribution into the builder, or stop at the
      first exception. */
  function Extend(sofar: Result<seq<Pred>>, c: Result<Option<Pred>>): Result<seq<Pred>> {
    match sofar
    case Err(e) => Err(e)
    case Ok(ps) =>
      match c
      case Err(e) => Err(e)
      case Ok(None) => Ok(ps)
      case Ok(Some(p)) => Ok(ps + [p])
  }

  /** The predicates and-ed into the builder, in parameter order, or the first exception. */
  function Assemble(ctx: Context, params: seq<Param>): Result<seq<Pred>> {
    if params == [] then Ok([])
    else Extend(Assemble(ctx, params[..|params| - 1]), Contribute(ctx, params[|params| - 1]))
  }

  /** The cache entries written while handling `params`, up to and including the first
      parameter that throws. */
  function Writes(ctx: Context, params: seq<Param>): map<PathInfo, Path> {
    if params == [] then map[]
    else
      var init := params[..|params| - 1];
      if Assemble(ctx, init).Err? then Writes(ctx, init)
      else
        match CacheWrite(ctx, params[|params| - 1])
        case None => Writes(ctx, init)
        case Some(info) => Writes(ctx, init)[info := ctx.reify(info)]
  }

  /** The builder's value: the conjunction of the contributed predicates. */
  function BuildResult(r: Result<seq<Pred>>): Result<Pred> {
    match r
    case Ok(ps) => Ok(BuilderValue(ps))
    case Err(e) => Err(e)
  }

  // ---------------------------------------------------------------------------------------
  // The builder object
  // ---------------------------------------------------------------------------------------

  class QuerydslPredicateBuilder {
    const conversionService: ConversionService
    /** `PathInformation.reifyPath(resolver)` with this builder's resolver. */
    const reify: PathInfo -> Path
    /** The path cache. */
    var paths: map<PathInfo, Path>

    /** Every cached path is the reification of its key. */
    ghost predicate Valid()
      reads this
    {
      forall k :: k in paths ==> paths[k] == reify(k)
    }

    function Ctx(bindings: QuerydslBindings, domainType: TypeInformation): Context {
      Context(conversionService, reify, bindings, domainType)
    }

    constructor(conversionService: ConversionService, reify: PathInfo -> Path)
      ensures Valid()
      ensures this.conversionService == conversionService && this.reify == reify
      ensures paths == map[]
    {
      this.conversionService := conversionService;
      this.reify := reify;
      this.paths := map[];
    }

    /** The path the bindings supply wins and leaves the cache alone; otherwise the path is
        reified and stored under its key. The lookup of the cache looks up the local
        `resolvedPath`, null at that point, instead of `path`: no key is null, so it never
        hits and the result never depends on the cache. */
    method GetPath(path: PathInfo, bindings: QuerydslBindings) returns (resolvedPath: Path)
      requires Valid()
      modifies this
      ensures Valid()
      ensures resolvedPath == ResolvedPath(bindings, reify, path)
      ensures bindings.getExistingPath(path).None? && path in old(paths) ==> old(paths)[path] == resolvedPath
      ensures paths == if bindings.getExistingPath(path).Some? then old(paths) else old(paths)[path := resolvedPath]
    {
      var existing := bindings.getExistingPath(path);
      if existing.Some? {
        return existing.value;
      }
      resolvedPath := reify(path);
      paths := paths[path := resolvedPath];
    }

    /** Converts the raw values of one parameter to the leaf type of its path. */
    method ConvertToPropertyPathSpecificType(source: seq<Option<string>>, path: PathInfo) returns (r: Result<seq<Value>>)
      ensures r == ConvertedValues(conversionService, source, path)
    {
      if |source| == 0 || IsSingleElementCollectionWithoutText(source) {
        return Ok([]);
      }
      var target: seq<Value> := [];
      for i := 0 to |source|
        invariant ConvertEach(conversionService, path, source[..i]) == Ok(target)
      {
        assert source[..i + 1][..i] == source[..i];
        var v := ConvertValue(conversionService, path, source[i]);
        if v.Err? {
          ConvertEachErrorPrefix(conversionService, path, source, i + 1);
          return Err(v.error);
        }
        target := target + [v.value];
      }
      assert source[..|source|] == source;
      r := Ok(target);
    }

    /** Resolves the path, then binds the values as Bind chooses. */
    method InvokeBinding(dotPath: PathInfo, bindings: QuerydslBindings, values: seq<Value>, operation: Option<Op>)
      returns (r: Result<Option<Pred>>)
      requires Valid()
      modifies this
      ensures Valid()
      ensures r == Bind(bindings.getBindingForPath(dotPath), ResolvedPath(bindings, reify, dotPath), values, operation)
      ensures paths == if bindings.getExistingPath(dotPath).Some? then old(paths) else old(paths)[dotPath := reify(dotPath)]
    {
      var path := GetPath(dotPath, bindings);
      var binding := bindings.getBindingForPath(dotPath);
      r := Bind(binding, path, values, operation);
    }

    /** Builds the predicate for the parameter entries `values`, in their iteration order. */
    method GetPredicate(domainType: TypeInformation, values: seq<Param>, bindings: QuerydslBindings) returns (r: Result<Pred>)
      requires Valid()
      modifies this
      ensures Valid()
      ensures r == BuildResult(Assemble(Ctx(bindings, domainType), values))
      ensures paths == old(paths) + Writes(Ctx(bindings, domainType), values)
    {
      var ctx := Ctx(bindings, domainType);
      var builder: seq<Pred> := [];
      if |values| == 0 {
        return Ok(BuilderValue(builder));
      }
      var i := 0;
      while i < |values|
        invariant 0 <= i <= |values|
        invariant Valid()
        invariant Assemble(ctx, values[..i]) == Ok(builder)
        invariant paths == old(paths) + Writes(ctx, values[..i])
      {
        var entry := values[i];
        AssembleStep(ctx, values, i);
        if IsSingleElementCollectionWithoutText(entry.raw) {
          assert Contribute(ctx, entry) == Ok(None) && CacheWrite(ctx, entry).None?;
          i := i + 1;
          continue;
        }
        var pathAndOperation := GetPathAndOperation(entry.key);
        if pathAndOperation.Err? {
          assert Contribute(ctx, entry) == Err(pathAndOperation.error);
          AssembleErrorPrefix(ctx, values, i + 1);
          return Err(pathAndOperation.error);
        }
        var po := pathAndOperation.value;
        if !bindings.isPathAvailable(po.path, domainType) {
          assert Contribute(ctx, entry) == Ok(None) && CacheWrite(ctx, entry).None?;
          i := i + 1;
          continue;
        }
        var propertyPath := bindings.getPropertyPath(po.path, domainType);
        if propertyPath.None? {
          assert Contribute(ctx, entry) == Ok(None) && CacheWrite(ctx, entry).None?;
          i := i + 1;
          continue;
        }
        var value := ConvertToPropertyPathSpecificType(entry.raw, propertyPath.value);
        if value.Err? {
          assert Contribute(ctx, entry) == Err(value.error);
          AssembleErrorPrefix(ctx, values, i + 1);
          return Err(value.error);
        }
        assert Prepare(ctx, entry) == Ok(Some(Prepared(propertyPath.value, value.value, po.operation)));
        var info := propertyPath.value;
        assert CacheWrite(ctx, entry) == if bindings.getExistingPath(info).None? then Some(info) else None;
        if bindings.getExistingPath(info).None? {
          UpdateOfUnion(old(paths), Writes(ctx, values[..i]), info, reify(info));
        }
        var contribution := InvokeBinding(info, bindings, value.value, po.operation);
        assert contribution == Contribute(ctx, entry);
        if contribution.Err? {
          AssembleErrorPrefix(ctx, values, i + 1);
          return Err(contribution.error);
        }
        if contribution.value.Some? {
          builder := builder + [contribution.value.value];
        }
        i := i + 1;
      }
      assert values[..|values|] == values;
      r := Ok(BuilderValue(builder));
    }
  }

  // ---------------------------------------------------------------------------------------
  // Properties of the assembly
  // ---------------------------------------------------------------------------------------

  /** Once a prefix of the parameters throws, the rest is never looked at: the build fails
      with that exception and the cache holds what was written up to it. */
  lemma {:induction false} AssembleErrorPrefix(ctx: Context, params: seq<Param>, k: nat)
    requires k <= |params|
    requires Assemble(ctx, params[..k]).Err?
    ensures Assemble(ctx, params) == Assemble(ctx, params[..k])
    ensures Writes(ctx, params) == Writes(ctx, params[..k])
    decreases |params| - k
  {
    if k < |params| {
      assert params[..k + 1][..k] == params[..k];
      AssembleErrorPrefix(ctx, params, k + 1);
    } else {
      assert params[..k] == params;
    }
  }

  lemma UpdateOfUnion<K, V>(m: map<K, V>, w: map<K, V>, k: K, v: V)
    ensures (m + w)[k := v] == m + w[k := v]
  {
  }

  /** One turn of the loop, as the specification functions see it. */
  lemma AssembleStep(ctx: Context, params: seq<Param>, i: nat)
    requires i < |params|
    ensures Assemble(ctx, params[..i + 1]) == Extend(Assemble(ctx, params[..i]), Contribute(ctx, params[i]))
    ensures Writes(ctx, params[..i + 1]) ==
      if Assemble(ctx, params[..i]).Err? then Writes(ctx, params[..i])
      else match CacheWrite(ctx, params[i])
        case None => Writes(ctx, params[..i])
        case Some(info) => Writes(ctx, params[..i])[info := ctx.reify(info)]
  {
    assert params[..i + 1][..i] == params[..i];
  }

  /** Assembly composes along the parameter order: the predicates of `a ++ b` are those of
      `a` followed by those of `b`, and the first exception wins. */
  lemma {:induction false} AssembleConcat(ctx: Context, a: seq<Param>, b: seq<Param>)
    ensures Assemble(ctx, a).Err? ==> Assemble(ctx, a + b) == Assemble(ctx, a)
    ensures Assemble(ctx, a).Ok? && Assemble(ctx, b).Err? ==> Assemble(ctx, a + b) == Assemble(ctx, b)
    ensures Assemble(ctx, a).Ok? && Assemble(ctx, b).Ok? ==>
      Assemble(ctx, a + b) == Ok(Assemble(ctx, a).value + Assemble(ctx, b).value)
  {
    if b == [] {
      assert a + b == a;
      if Assemble(ctx, a).Ok? {
        assert Assemble(ctx, a).value + [] == Assemble(ctx, a).value;
      }
    } else {
      var init := b[..|b| - 1];
      var x := b[|b| - 1];
      assert (a + b)[..|a + b| - 1] == a + init;
      assert (a + b)[|a + b| - 1] == x;
      AssembleConcat(ctx, a, init);
      assert Assemble(ctx, a + b) == Extend(Assemble(ctx, a + init), Contribute(ctx, x));
      assert Assemble(ctx, b) == Extend(Assemble(ctx, init), Contribute(ctx, x));
      if Assemble(ctx, a).Ok? && Assemble(ctx, init).Ok? && Contribute(ctx, x).Ok? && Contribute(ctx, x).value.Some? {
        var pa := Assemble(ctx, a).value;
        var pi := Assemble(ctx, init).value;
        assert pa + pi + [Contribute(ctx, x).value.value] == pa + (pi + [Contribute(ctx, x).value.value]);
      }
    }
  }

  /** A parameter that contributes nothing (absence marker, unavailable or unknown path,
      null predicate) leaves the result as if it were not there. */
  lemma SilentParamIsNeutral(ctx: Context, a: seq<Param>, x: Param, b: seq<Param>)
    requires Contribute(ctx, x) == Ok(None)
    ensures Assemble(ctx, a + [x] + b) == Assemble(ctx, a + b)
  {
    assert Assemble(ctx, [x]) == Ok([]) by {
      assert [x][..0] == [];
    }
    AssembleConcat(ctx, a, [x]);
    AssembleConcat(ctx, a + [x], b);
    AssembleConcat(ctx, a, b);
  }

  /** A parameter that throws aborts the whole build with its exception, whatever follows. */
  lemma FailingParamAborts(ctx: Context, a: seq<Param>, x: Param, b: seq<Param>)
    requires Assemble(ctx, a).Ok?
    requires Contribute(ctx, x).Err?
    ensures Assemble(ctx, a + [x] + b) == Err(Contribute(ctx, x).error)
  {
    assert Assemble(ctx, [x]) == Err(Contribute(ctx, x).error) by {
      assert [x][..0] == [];
    }
    AssembleConcat(ctx, a, [x]);
    AssembleConcat(ctx, a + [x], b);
  }

  /** Every predicate some parameter contributes holds. */
  ghost predicate ContributionsHold(ctx: Context, params: seq<Param>, I: Interpretation) {
    forall x :: x in params && Contribute(ctx, x).Ok? && Contribute(ctx, x).value.Some? ==>
      Holds(Contribute(ctx, x).value.value, I)
  }

  /** The build succeeds exactly when no parameter throws. */
  lemma {:induction false} AssembleOkIff(ctx: Context, params: seq<Param>)
    ensures Assemble(ctx, params).Ok? <==> forall x :: x in params ==> Contribute(ctx, x).Ok?
  {
    if params != [] {
      var init := params[..|params| - 1];
      var last := params[|params| - 1];
      assert params == init + [last];
      AssembleOkIff(ctx, init);
    }
  }

  /** The predicates and-ed into the builder all hold exactly when every predicate some
      parameter contributes holds. */
  lemma {:induction false} AssembledAllHold(ctx: Context, params: seq<Param>, I: Interpretation)
    requires Assemble(ctx, params).Ok?
    ensures (forall p :: p in Assemble(ctx, params).value ==> Holds(p, I)) <==> ContributionsHold(ctx, params, I)
  {
    if params != [] {
      var init := params[..|params| - 1];
      var last := params[|params| - 1];
      assert params == init + [last];
      var c := Contribute(ctx, last);
      assert Assemble(ctx, params) == Extend(Assemble(ctx, init), c);
      AssembledAllHold(ctx, init, I);
      var ps := Assemble(ctx, init).value;
      assert forall x :: x in params <==> x in init || x == last;
      if c.value.Some? {
        var q := c.value.value;
        assert Assemble(ctx, params).value == ps + [q];
        assert forall p :: p in ps + [q] <==> p in ps || p == q;
        assert (forall p :: p in ps + [q] ==> Holds(p, I)) <==> (forall p :: p in ps ==> Holds(p, I)) && Holds(q, I);
        assert ContributionsHold(ctx, params, I) <==> ContributionsHold(ctx, init, I) && Holds(q, I);
      } else {
        assert Assemble(ctx, params).value == ps;
      }
    }
  }

  /** When the build succeeds its predicate holds exactly when every predicate some parameter
      contributes holds; parameters that contribute nothing do not constrain it, and the
      untouched builder constrains nothing. */
  lemma AssembleMeaning(ctx: Context, params: seq<Param>, I: Interpretation)
    requires Assemble(ctx, params).Ok?
    ensures Holds(BuilderValue(Assemble(ctx, params).value), I) <==> ContributionsHold(ctx, params, I)
  {
    var ps := Assemble(ctx, params).value;
    BuilderValueHolds(ps, I);
    AssembledAllHold(ctx, params, I);
    assert (forall p :: p in ps ==> Holds(p, I)) <==> (forall j :: 0 <= j < |ps| ==> Holds(ps[j], I));
  }

  /** The absence marker is skipped before its key is parsed, whatever the key. */
  lemma AbsenceMarkerSkipped(ctx: Context, key: string, raw: seq<Option<string>>)
    requires IsSingleElementCollectionWithoutText(raw)
    ensures Contribute(ctx, Param(key, raw)) == Ok(None)
    ensures CacheWrite(ctx, Param(key, raw)).None?
  {
  }

  /** The key is parsed before the path is checked: a bad keyword aborts the build even for a
      path the bindings would skip. */
  lemma ParseBeforeFilter(ctx: Context, key: string, raw: seq<Option<string>>)
    requires !IsSingleElementCollectionWithoutText(raw)
    requires GetPathAndOperation(key).Err?
    ensures Contribute(ctx, Param(key, raw)) == Err(IllegalStateException)
  {
    KeySplitting(key);
  }

  /** Unavailable paths and paths without a property path are skipped silently and touch
      nothing. */
  lemma UnavailablePathSkipped(ctx: Context, key: string, raw: seq<Option<string>>)
    requires !IsSingleElementCollectionWithoutText(raw)
    requires GetPathAndOperation(key).Ok?
    requires !ctx.bindings.isPathAvailable(GetPathAndOperation(key).value.path, ctx.domainType) ||
             ctx.bindings.getPropertyPath(GetPathAndOperation(key).value.path, ctx.domainType).None?
    ensures Contribute(ctx, Param(key, raw)) == Ok(None)
    ensures CacheWrite(ctx, Param(key, raw)).None?
  {
  }

  /** Every entry a build writes to the cache is the reification of its key. */
  lemma {:induction false} WritesAreReifications(ctx: Context, params: seq<Param>)
    ensures forall k :: k in Writes(ctx, params) ==> Writes(ctx, params)[k] == ctx.reify(k)
  {
    if params != [] {
      WritesAreReifications(ctx, params[..|params| - 1]);
    }
  }
}
