# Querydsl predicate building from request parameters

This project models how Spring Data's Querydsl web support builds one Querydsl `Predicate`
from the parameters of an HTTP request. It covers two classes.

`OperationType` is the enum of binding operations:
- NO_OOP, NE, EQ, CONTAINS, LIKE, GT, GOE, LT, LOE, NOT_IN, NOT_IN2, IN, IS_NULL and NOT_NULL;
- each operation's wire keyword;
- the `VALUES` table and the case-insensitive lookup `value(s)`;
- how each operation turns a path and a collection of values into a predicate, into no
  predicate, or into an exception.

`QuerydslPredicateBuilder` works as follows:
- It parses each parameter key `path[:operation]`.
- It skips a parameter whose only value has no text (the "absence marker").
- It skips paths the bindings do not make available or cannot resolve.
- It converts the raw strings to the property's leaf type.
- It resolves the Querydsl path, caching reified paths in its `paths` map.
- It binds the values. A configured binding is used unless the key names an explicit
  operation; otherwise the default binding is used, with NO_OOP when no operation is given.
- It and-s every resulting predicate into a BooleanBuilder.

Files:
- `wrappers.dfy`: `Option` (Java null) and `Result` (a return or one of the thrown exceptions).
- `querydsl.dfy`: the slice of Querydsl the code relies on. Paths carry their expression
  class (collection, simple, string, number, other). Predicate shapes are symbolic, with
  a truth semantics `Holds` over one entity instance, so that statements such as
  "NOT_IN and NOT_IN2 mean the same" can be proved.
- `operation_type.dfy`: the enum, the keyword table and the predicate construction
  (`PredicateFor` is `getPredicate`, `PredicateImpl` the `getPredicateImpl` overrides).
- `predicate_builder.dfy`: key parsing, the absence marker, conversion, binding choice, and
  the builder class. The class has the `paths` cache as a mutable field, and its methods
  `GetPredicate`, `InvokeBinding`, `GetPath` and `ConvertToPropertyPathSpecificType` are
  loops and updates proved against specification functions (`Assemble`, `Writes`,
  `ConvertedValues`, `Bind`, `ResolvedPath`).
- `scenarios.dfy`: whole builds for a small User entity, mirroring the unit tests of the
  default binding.

Behaviour of the code worth knowing:
- LIKE hands the value to `likeIgnoreCase` as it is. No `%` wildcards are added
  (OperationType.java:84-93). The LIKE unit test expects `%nick%`. That test runs
  `QuerydslDefaultWithOperationBinding`, which is not part of this model.
- CONTAINS is its own operation with keyword `contains` (OperationType.java:67-83). On a
  collection path it builds the same conjunction of `contains` terms as NO_OOP.
- GT, GOE, LT and LOE cast their value to `Number`. A non-number value throws
  ClassCastException; it does not fall through to IllegalArgumentException.
- The path cache lookup at QuerydslPredicateBuilder.java:160 looks up the local
  `resolvedPath`, which is null at that point, instead of `path`. So it never hits. The model
  keeps this: `GetPath` always reifies when the bindings supply no path, and stores the result.
  The returned path is the same as with a working cache: a cached entry is always the
  reification of its key (`Valid`), and `GetPath` states that any entry already cached for
  the key equals the path it returns.

## Model

| member | source | states |
|---|---|---|
| OperationType.Keyword | src/main/java/org/springframework/data/querydsl/binding/OperationType.java:199-205 | only NO_OOP has the empty keyword; FromKeywordRoundTrip and LowerCaseKeywordsDistinct state that the other keywords identify their constants |
| OperationType.FromKeyword | src/main/java/org/springframework/data/querydsl/binding/OperationType.java:224-229 | `value(s)`: a thrown exception is always IllegalStateException, and a found constant is never NO_OOP and has `s` as its keyword ignoring case (the converse is FromKeywordIff) |
| OperationType.PredicateImpl | src/main/java/org/springframework/data/querydsl/binding/OperationType.java:19-163 | the `getPredicateImpl` overrides: a success always yields a predicate and needs the path class the operation accepts. A failure is IllegalArgumentException, or ClassCastException for a numeric comparison. IS_NULL and NOT_NULL inherit the base implementation at :218-222, which throws |
| OperationType.PredicateFor | src/main/java/org/springframework/data/querydsl/binding/OperationType.java:207-216 | `getPredicate`: a predicate is only built on a path the operation accepts. The result is null exactly for an operation other than IS_NULL/NOT_NULL given an empty collection (the full case split is PredicateForSucceedsIff and NullChecksIgnoreValues) |
| OperationType.InitValues | src/main/java/org/springframework/data/querydsl/binding/OperationType.java:191-197 | the static initializer builds exactly `VALUES`, and every constant is stored under its own lower-cased keyword |
| OperationType.LowerKeywordIsLowerCase | src/main/java/org/springframework/data/querydsl/binding/OperationType.java:194 | each constant's lower-cased keyword is the written-out lower-case form (`notIn` becomes `notin`) |
| OperationType.LowerCaseKeywordsDistinct | src/main/java/org/springframework/data/querydsl/binding/OperationType.java:191-197 | no two constants share a lower-cased keyword, so no put in the initializer overwrites another constant |
| OperationType.TableOfStoresEach | src/main/java/org/springframework/data/querydsl/binding/OperationType.java:192-195 | a put-loop over constants with distinct keys stores each constant under its key and adds no other key |
| OperationType.ValuesMapsEachKeyword | src/main/java/org/springframework/data/querydsl/binding/OperationType.java:191-197 | `VALUES` maps every constant's lower-cased keyword to that constant and has no other key |
| OperationType.AllOpsComplete | src/main/java/org/springframework/data/querydsl/binding/OperationType.java:18-185 | `values()` lists every constant |
| OperationType.ToLowerCaseIdempotent | src/main/java/org/springframework/data/querydsl/binding/OperationType.java:225-228 | lower-casing twice is the same as lower-casing once |
| OperationType.FromKeywordIff | src/main/java/org/springframework/data/querydsl/binding/OperationType.java:224-229 | `value(s)` returns `op` if and only if `s` is non-empty and equals `op`'s keyword ignoring case; otherwise it throws, and the exception is always IllegalStateException |
| OperationType.FromKeywordIgnoresCase | src/main/java/org/springframework/data/querydsl/binding/OperationType.java:224-229 | `value(s)` and `value(s.toLowerCase())` give the same result |
| OperationType.FromKeywordNeverNoOp | src/main/java/org/springframework/data/querydsl/binding/OperationType.java:225 | NO_OOP (keyword "") is never returned, because an empty string is rejected first |
| OperationType.FromKeywordRoundTrip | src/main/java/org/springframework/data/querydsl/binding/OperationType.java:224-229 | every constant except NO_OOP is found again from its own keyword |
| OperationType.EmptyValuesGiveNoPredicate | src/main/java/org/springframework/data/querydsl/binding/OperationType.java:207-216 | every constant except IS_NULL and NOT_NULL returns null for an empty collection, on any path |
| OperationType.NullChecksIgnoreValues | src/main/java/org/springframework/data/querydsl/binding/OperationType.java:164-185 | IS_NULL and NOT_NULL ignore the values, even a null collection; they give `isNull()`/`isNotNull()` exactly on simple paths and throw IllegalArgumentException otherwise |
| OperationType.PredicateForSucceedsIff | src/main/java/org/springframework/data/querydsl/binding/OperationType.java:19-163 | with at least one value, a non-null-check operation succeeds exactly when the path has the required expression class, the value count fits and a numeric comparison gets a Number or null. Success always gives a predicate. A class or count mismatch throws IllegalArgumentException; a failed `(Number)` cast throws ClassCastException |
| OperationType.SingleValueOperations | src/main/java/org/springframework/data/querydsl/binding/OperationType.java:47-133 | NE, EQ, LIKE and the four comparisons pass their one value on unchanged; LIKE passes `String.valueOf(v)` with no wildcards added |
| OperationType.ContainsOnCollection | src/main/java/org/springframework/data/querydsl/binding/OperationType.java:23-32 | NO_OOP and CONTAINS on a collection path and-together exactly one `contains(v)` per value, in order; the result holds exactly when the collection holds every value |
| OperationType.NoOpOnSimplePath | src/main/java/org/springframework/data/querydsl/binding/OperationType.java:34-41 | NO_OOP on a simple path gives `eq` for one value and `in` for several; either way it holds exactly when the field's value is one of the values |
| OperationType.NoOpOnOtherPath | src/main/java/org/springframework/data/querydsl/binding/OperationType.java:43-44 | NO_OOP on a path that is neither a collection nor simple throws IllegalArgumentException |
| OperationType.SetOperations | src/main/java/org/springframework/data/querydsl/binding/OperationType.java:134-163 | IN, NOT_IN and NOT_IN2 build `in`, `notIn` and `in(..).not()`. NOT_IN and NOT_IN2 build different shapes but always have the same truth value: the negation of IN |
| Querydsl.BuilderValueHolds | src/main/java/org/springframework/data/querydsl/binding/OperationType.java:25-31 | the value of a BooleanBuilder holds exactly when every predicate and-ed into it holds |
| PredicateBuilder.GetPathAndOperation | src/main/java/org/springframework/data/querydsl/binding/QuerydslPredicateBuilder.java:233-236 | `getPath(String)`: an exception is IllegalStateException and needs a delimiter in the key. The path never holds a delimiter, and an operation is absent exactly when the key has no delimiter, and is never NO_OOP (KeySplitting and KeyRoundTrip give the rest) |
| PredicateBuilder.HasText | src/main/java/org/springframework/data/querydsl/binding/QuerydslPredicateBuilder.java:230 | `StringUtils.hasText`: a value has no text exactly when it is null or all of its characters are whitespace |
| PredicateBuilder.IsSingleElementCollectionWithoutText | src/main/java/org/springframework/data/querydsl/binding/QuerydslPredicateBuilder.java:229-231 | the absence marker is exactly one value that is null, empty or all whitespace (AbsenceMarkerSkipped and ConversionShape state its effect) |
| PredicateBuilder.Bind | src/main/java/org/springframework/data/querydsl/binding/QuerydslPredicateBuilder.java:131-141 | the binding choice: when the default binding is used (an explicit operation, or no configured binding), a predicate only comes back for a path the chosen operation accepts (NO_OOP without an operation); BindingPrecedence states the choice itself |
| PredicateBuilder.SplitOnce | src/main/java/org/springframework/data/querydsl/binding/QuerydslPredicateBuilder.java:234 | `split(":", 2)`: the first part holds no delimiter; the second part is absent exactly when the key has no delimiter; the parts joined with the delimiter give back the key |
| PredicateBuilder.SplitOnceOfJoin | src/main/java/org/springframework/data/querydsl/binding/QuerydslPredicateBuilder.java:234 | splitting `p + ":" + rest`, where `p` has no delimiter, gives back `p` and `rest` |
| PredicateBuilder.KeySplitting | src/main/java/org/springframework/data/querydsl/binding/QuerydslPredicateBuilder.java:233-236 | the parsed path never holds the delimiter. The operation is absent exactly when the key has no delimiter, and the path is then the whole key. Otherwise the operation is the keyword after the first delimiter, and a remainder that is no keyword throws IllegalStateException |
| PredicateBuilder.KeyRoundTrip | src/main/java/org/springframework/data/querydsl/binding/QuerydslPredicateBuilder.java:233-236 | a delimiter-free key parses to itself with no operation; `p:<keyword>` parses to `p` and that operation |
| PredicateBuilder.KeyIgnoresCase | src/main/java/org/springframework/data/querydsl/binding/QuerydslPredicateBuilder.java:233-236 | the keyword after the delimiter is matched ignoring case (`age:GT` parses like `age:gt`) |
| PredicateBuilder.TrailingDelimiterRejected | src/main/java/org/springframework/data/querydsl/binding/QuerydslPredicateBuilder.java:233-236 | a key ending in the delimiter (`age:`) throws IllegalStateException |
| PredicateBuilder.SecondDelimiterRejected | src/main/java/org/springframework/data/querydsl/binding/QuerydslPredicateBuilder.java:233-236 | a key with a second delimiter after the first (`age:gt:x`) throws IllegalStateException |
| PredicateBuilder.KeywordHasNoDelimiter | src/main/java/org/springframework/data/querydsl/binding/OperationType.java:19-185 | no operation keyword contains the delimiter |
| PredicateBuilder.ConvertEachShape | src/main/java/org/springframework/data/querydsl/binding/QuerydslPredicateBuilder.java:189-197 | the conversion loop keeps length and order and converts each element on its own. It succeeds exactly when every element converts, and otherwise fails with the error of the first element that fails |
| PredicateBuilder.ConversionShape | src/main/java/org/springframework/data/querydsl/binding/QuerydslPredicateBuilder.java:181-198 | an empty source or the absence marker converts to no values; any other source converts element by element or fails |
| PredicateBuilder.ConvertEachErrorPrefix | src/main/java/org/springframework/data/querydsl/binding/QuerydslPredicateBuilder.java:191-195 | once a prefix of the source fails to convert, the whole conversion fails with the same error |
| PredicateBuilder.BindingPrecedence | src/main/java/org/springframework/data/querydsl/binding/QuerydslPredicateBuilder.java:131-141 | an explicit operation ignores any configured binding. With no operation, the configured binding decides alone, including any exception it throws; with neither, the default binding uses NO_OOP |
| PredicateBuilder.QuerydslPredicateBuilder.constructor | src/main/java/org/springframework/data/querydsl/binding/QuerydslPredicateBuilder.java:62-70 | the builder starts with an empty path cache |
| PredicateBuilder.QuerydslPredicateBuilder.GetPath | src/main/java/org/springframework/data/querydsl/binding/QuerydslPredicateBuilder.java:152-170 | a path the bindings supply is returned and the cache is left alone; otherwise the reified path is returned and cached under its key. The result never depends on the cache, an entry already cached for the key equals the returned path, and every cached path stays the reification of its key |
| PredicateBuilder.QuerydslPredicateBuilder.ConvertToPropertyPathSpecificType | src/main/java/org/springframework/data/querydsl/binding/QuerydslPredicateBuilder.java:181-198 | the loop returns exactly the specified conversion of the source (no values for an empty source or the absence marker), or the first conversion error |
| PredicateBuilder.QuerydslPredicateBuilder.InvokeBinding | src/main/java/org/springframework/data/querydsl/binding/QuerydslPredicateBuilder.java:131-141 | the result is the choice between configured and default binding on the resolved path, and the cache changes as GetPath says |
| PredicateBuilder.QuerydslPredicateBuilder.GetPredicate | src/main/java/org/springframework/data/querydsl/binding/QuerydslPredicateBuilder.java:81-119 | the loop returns the builder value of the contributions of all entries, in order, or the first exception. The cache afterwards is the old cache plus the entries written up to that exception, and every cached path stays the reification of its key |
| PredicateBuilder.AssembleErrorPrefix | src/main/java/org/springframework/data/querydsl/binding/QuerydslPredicateBuilder.java:92-116 | an exception in one entry ends the build: later entries neither contribute nor write to the cache |
| PredicateBuilder.AssembleStep | src/main/java/org/springframework/data/querydsl/binding/QuerydslPredicateBuilder.java:92-116 | one loop turn extends the build by that entry's contribution and the cache by that entry's write |
| PredicateBuilder.AssembleConcat | src/main/java/org/springframework/data/querydsl/binding/QuerydslPredicateBuilder.java:92-116 | building `a ++ b` gives the predicates of `a` followed by those of `b`, and the first exception wins |
| PredicateBuilder.SilentParamIsNeutral | src/main/java/org/springframework/data/querydsl/binding/QuerydslPredicateBuilder.java:94-113 | an entry that contributes nothing (absence marker, unavailable or unknown path, null predicate) builds the same as if it were absent |
| PredicateBuilder.FailingParamAborts | src/main/java/org/springframework/data/querydsl/binding/QuerydslPredicateBuilder.java:98-111 | an entry that throws fails the whole build with its exception, whatever follows it |
| PredicateBuilder.AssembleOkIff | src/main/java/org/springframework/data/querydsl/binding/QuerydslPredicateBuilder.java:92-116 | the build succeeds exactly when no entry throws |
| PredicateBuilder.AssembledAllHold | src/main/java/org/springframework/data/querydsl/binding/QuerydslPredicateBuilder.java:113-115 | all predicates and-ed into the builder hold exactly when every predicate some entry contributes holds |
| PredicateBuilder.AssembleMeaning | src/main/java/org/springframework/data/querydsl/binding/QuerydslPredicateBuilder.java:86-118 | a successful build's predicate holds exactly when every entry's contribution holds |
| PredicateBuilder.AbsenceMarkerSkipped | src/main/java/org/springframework/data/querydsl/binding/QuerydslPredicateBuilder.java:94-96 | an entry with a single value without text is skipped before its key is parsed, whatever the key, and writes nothing to the cache |
| PredicateBuilder.ParseBeforeFilter | src/main/java/org/springframework/data/querydsl/binding/QuerydslPredicateBuilder.java:98-102 | a bad keyword throws IllegalStateException even for a path the bindings would skip |
| PredicateBuilder.UnavailablePathSkipped | src/main/java/org/springframework/data/querydsl/binding/QuerydslPredicateBuilder.java:100-108 | an unavailable path, or one without a property path, contributes nothing and writes nothing to the cache |
| PredicateBuilder.WritesAreReifications | src/main/java/org/springframework/data/querydsl/binding/QuerydslPredicateBuilder.java:166-167 | every cache entry a build writes is the reification of its key |
| Scenarios.BareProperty | src/main/java/org/springframework/data/querydsl/binding/QuerydslPredicateBuilder.java:92-116 | for the User entity, a bare property with one value that has text binds by NO_OOP on the reified path |
| Scenarios.NickNamesContains | src/test/java/org/springframework/data/querydsl/binding/QuerydslDefaultWithOperationBindingUnitTests.java:59-63 | a `nickNames` entry with one value that has text contributes exactly one `contains` term for that value |
| Scenarios.OperatedProperty | src/main/java/org/springframework/data/querydsl/binding/QuerydslPredicateBuilder.java:92-116 | for the User entity, `property:<keyword>` with one value that has text binds by that operation on the reified path |
| Scenarios.BarePropertyTwoValues | src/main/java/org/springframework/data/querydsl/binding/QuerydslPredicateBuilder.java:92-116 | for the User entity, a bare String property with any two values, with or without text, binds both values by NO_OOP (only a single value can be the absence marker) |
| Scenarios.SingleValueIsEquality | src/test/java/org/springframework/data/querydsl/binding/QuerydslDefaultWithOperationBindingUnitTests.java:47-51 | `firstname=tam` builds `firstname = "tam"` |
| Scenarios.CollectionValueIsContains | src/test/java/org/springframework/data/querydsl/binding/QuerydslDefaultWithOperationBindingUnitTests.java:59-63 | `nickNames=dragon reborn` builds `nickNames contains "dragon reborn"` |
| Scenarios.FirstnameTwoValues | src/test/java/org/springframework/data/querydsl/binding/QuerydslDefaultWithOperationBindingUnitTests.java:65-69 | a `firstname` entry with any two values, with or without text, contributes `firstname in (a, b)` |
| Scenarios.SeveralValuesAreMembership | src/test/java/org/springframework/data/querydsl/binding/QuerydslDefaultWithOperationBindingUnitTests.java:65-69 | two values for `firstname` build `firstname in ("dragon reborn", "shadowkiller")` |
| Scenarios.GreaterThan | src/test/java/org/springframework/data/querydsl/binding/QuerydslDefaultWithOperationBindingUnitTests.java:100-104 | `inceptionYear:gt=20` contributes `inceptionYear > 20` |
| Scenarios.SkippedParameters | src/main/java/org/springframework/data/querydsl/binding/QuerydslPredicateBuilder.java:94-108 | a blank value and an unknown property name both contribute nothing |
| Scenarios.BlankValueSkipped | src/main/java/org/springframework/data/querydsl/binding/QuerydslPredicateBuilder.java:94-96 | `lastname= ` (a single blank value) contributes nothing |
| Scenarios.UnknownPropertySkipped | src/main/java/org/springframework/data/querydsl/binding/QuerydslPredicateBuilder.java:104-108 | `middleName=x` names no User property and contributes nothing |
| Scenarios.ExplicitOperationWithSkippedParameters | src/main/java/org/springframework/data/querydsl/binding/QuerydslPredicateBuilder.java:81-119 | a blank entry, an unknown property and `inceptionYear:gt=20` together build exactly `inceptionYear > 20` |

## Left out

- Querydsl expressions are symbolic (`Pred`). The library's own construction, the `toString`
  and equality of expressions, and its internal exceptions (such as null constants) are not
  modelled. `And(ps)` stands for the left-nested binary `and` a BooleanBuilder builds.
- `And([])` stands for the value of an untouched BooleanBuilder (the library returns null).
  `Holds` treats it as constraining nothing.
- The conversion service, `PathInformation.reifyPath` with its resolver, and the
  `QuerydslBindings` queries are parameters (functions in `Context`/`ConversionService`).
  `getTargetTypeDescriptor` (QuerydslPredicateBuilder.java:207-220) is reflection, and is
  folded into the conversion function.
- The `QuerydslBindings` queries (`isPathAvailable`, `getPropertyPath`, `getExistingPath`,
  `getBindingForPath`) and `PathInformation.reifyPath` are total functions here: they never
  throw, and `reifyPath` never returns null. A configured binding may throw (its result is a
  `Result`); the conversion service may throw too.
- QuerydslDefaultWithOperationBinding is not part of this model. The default binding is
  taken to be `OperationType.getPredicate` for the given operation (`DefaultBinding`).
- Exception messages (`String.format` texts) are not modelled; only the exception class is.
- `Assert.notNull` on the bindings, the path and the values is a precondition only where the
  type could express null: a null value collection exists only for IS_NULL and NOT_NULL.
- The `paths` HashMap is not thread-safe. Concurrent builds are not modelled.
- ToLowerCase: maps `A`-`Z` and the Kelvin sign (U+212A) to lower-case ASCII and leaves
  every other character unchanged. Locale-dependent lower-casing (such as Turkish dotted i)
  and other non-ASCII letters are not modelled. This is exact for the keyword lookup,
  because every keyword is ASCII.
- IsWhitespace: follows `Character.isWhitespace` of current Unicode (U+180E is not
  whitespace).
- GetPredicate: the parameter map is a sequence of entries in its iteration order. The order
  a particular MultiValueMap implementation iterates in is not modelled.
- The `values.isEmpty()` early return (QuerydslPredicateBuilder.java:88-90) is modelled
  (`GetPredicate` returns the untouched builder's value). Its result equals the loop's result
  for no entries.
