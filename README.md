# go-js core: classes, query strings, paths and the Carcas host

This project models the core of the go-js browser library, written in Dafny, and proves properties of the model. Three parts of the library are covered.

- `go.Class` (src/Class.js) builds classes from a main parent, mixins and a dictionary of props. It keeps a prototype chain, reads the `__abstract`, `__final` and `__classname` settings, and answers `isSubclassOf`.
- The `go.Lang` extensions (src/LangExt.js):
  - `parseQuery` and `buildQuery` for URL query strings;
  - `getByPath` and `setByPath` for dotted paths into objects;
  - `curry` and `tryDo`.
- `go.Carcas` (src/Carcas.js) is the application host:
  - `init`;
  - declaring modules and controllers, with the dependency normaliser `Carcas.Helpers.normalizeDeps`;
  - the two callbacks it gives its script loader (`includerForLoader`, `creatorForLoader`);
  - creating controllers and modules into its registries;
  - the page load events;
  - the main-instance statics `getInstance` and `setInstance`.

Modules, one per file:

- `Wrappers`: `Option` and `Result`.
- `Strings`: the JavaScript string operations the core uses. These are `split` (with and without a limit), `join`, `indexOf`, the whitespace trims, `replace` of one character and decimal rendering.
- `Js`: JavaScript values.
  - Plain objects are ordered dictionaries of own properties, which is the order `for..in` visits them in.
  - Arrays, strings, numbers, booleans, `null` and `undefined` are values.
  - Functions and classes are identities.
  - Stored objects are references.
- `Heap`: the objects that `setByPath` and the host update in place. It is a `Store` class whose `objs` field holds one dictionary per object. Object 0 is the global object.
- `Query`: `parseQuery` and `buildQuery`.
- `Paths`: `getByPath` and `setByPath`, working on a `Store`. A property of a stored object holds a primitive or a reference to another stored object. So a function, class, array or object that `setByPath` writes, or walks through as its context, is represented as a stored object. A later `getByPath` returns that reference, not the function's identity or the literal value.
- `Functional`: `curry` and `tryDo`.
- `Classes`: one created class as a `ClassInfo` value, and `go.Class` as pure functions over the table of classes created so far. It also holds `isSubclassOf` and the properties of the prototype chain.
- `ClassBuilder`: the imperative half of src/Class.js.
  - `ClassCreator` is the creator object whose steps update its own fields.
  - `ClassTable` holds the classes `go.Class` has made, Root first.
- `Deps`: `normalizeDeps`, and the `prefix:name` split that the loader callbacks share.
- `Host`: a `go.Carcas` instance as the class `Carcas`, and the statics of `go.Carcas` as the class `CarcasStatics`.
  - The registries `controllersList` and `modulesList` are objects in a `Store`.
  - `loadedObjects.c` and `loadedObjects.mo` are maps from names to stored objects.
  - The calls the host makes to `go.__Loader` are recorded in `loader`, in order.
  - The script, go-module and library requests are recorded in `requests`.
  - The lifecycle hooks called on controllers are recorded in `hooks`.

Some parts of the program are parameters of the model:

- `encodeURIComponent` and `decodeURIComponent`. A decoder returns `None` where the real one throws a URIError.
- The page location that `parseQuery` reads when it is given no query.
- The functions handed to `curry` and `tryDo`. Each function passed to `tryDo` is given as the outcome it would have, returning a value or throwing one.

One point where the repository's tests disagree is `parseQuery("12345&x=5")`.

- tests/LangExt.js:16 expects `{'12345': undefined, 'x': "5"}`.
- The code at src/LangExt.js:47-48 stores a piece without `=` under the key `""`, and tests/Lang.js:409 expects `{'': "12345", 'x': "5"}`.

The model follows the code; `Query.ValueWithoutKey` states that behaviour.

## Model

| member | source | states |
|---|---|---|
| Js.Put | src/LangExt.js:46 | `obj[k] = v`: afterwards `k` reads as `v` and every other key reads as before. An existing key keeps its place, with every key at the same position as before; a new key is appended, which sets the order `for..in` visits the keys in. |
| Js.Delete | src/Class.js:265 | `delete obj[k]`: afterwards `k` is absent and every other key reads as before. |
| Js.IndexEntries | src/LangExt.js:97 | The indexed properties of an array: one per item, no index name twice, and each decimal index reads back its item. The same view serves a string's characters as mixin entries and an array as a `getByPath` context. |
| Strings.IndexFrom | src/Carcas.js:829 | The index found is an occurrence, and no earlier index from the start point is one. `None` means there is no occurrence at all. |
| Strings.Split | src/LangExt.js:42 | `split` always yields at least one piece. |
| Strings.JoinSplit | src/LangExt.js:42 | Joining the pieces of a split with the same separator gives back the string. |
| Strings.SplitAbsent | src/LangExt.js:42 | A string without the separator character splits into itself alone: a query without the separator is one piece, a name without `:` or `.` one key. |
| Strings.SplitJoin | src/LangExt.js:98 | Splitting a join on a one-character separator that no piece contains gives back the pieces. |
| Strings.Take | src/LangExt.js:44 | The limit of `split(sep, limit)`: the first `n` items, in order, or all of them when there are fewer. |
| Strings.TrimStart | src/Carcas.js:828 | `replace(/^\s+/, "")` leaves no whitespace at the front and never lengthens the string. |
| Strings.TrimStartStrips | src/Carcas.js:828 | What the leading trim removes is a run of whitespace at the front, and the rest is kept unchanged. |
| Strings.TrimEnd | src/Carcas.js:828 | `replace(/\s+$/, "")` leaves no whitespace at the back and never lengthens the string. |
| Strings.TrimEndStrips | src/Carcas.js:828 | What the trailing trim removes is a run of whitespace at the back, and the rest is kept unchanged. |
| Strings.TrimEdges | src/Carcas.js:828 | A trimmed dependency starts and ends with a non-space character. |
| Strings.TrimmedAlready | src/Carcas.js:828 | Trimming is idempotent: a string without whitespace at its edges is its own trim. |
| Strings.ReplaceChar | src/Carcas.js:337 | `name.replace(/\./g, "/")` keeps the length and leaves no dot. Every other character stays in place, and when the name has no `/`, the slashes of the result mark exactly where the dots were. |
| Strings.ReplaceCharBack | src/Carcas.js:337 | Replacing the slashes back by dots restores a name that had no slash. |
| Strings.ReplaceCharTwice | src/Carcas.js:337 | Replacing a second time changes nothing. |
| Strings.NatToStr | src/LangExt.js:84 | An array index renders as a non-empty run of decimal digits. |
| Strings.NatToStrInjective | src/LangExt.js:84 | Different indices render as different strings. |
| Query.Separator | src/LangExt.js:42 | The separator used is never empty, and it is `sep` whenever `sep` is given. |
| Query.LocationQuery | src/LangExt.js:33-34 | The query taken from the location is either `undefined` (no `?`) or a string. |
| Query.Parse | src/LangExt.js:31-40 | A value that is neither a string nor `undefined` is returned unchanged, and the empty query gives `{}`. |
| Query.ParseQuery | src/LangExt.js:31-52 | The loop of `parseQuery` computes `Parse`, including the URIError exit. |
| Query.NoEqualsUnderEmptyKey | src/LangExt.js:47-48 | A piece without `=` is stored decoded under the key `""`, or raises a URIError when it does not decode. |
| Query.KeyValuePiece | src/LangExt.js:44-46 | `k=v` maps decoded `k` to decoded `v`, and anything from a second `=` on is dropped. |
| Query.FillFailsIff | src/LangExt.js:43-50 | The parse fails exactly when some piece fails to decode (both directions). |
| Query.LastForCons | src/LangExt.js:43-50 | Searching for the last entry of a key over `[e] + rest` is searching `rest` with `e`'s answer as the fallback. |
| Query.LastPieceWins | src/LangExt.js:43-50 | Repeated keys overwrite: every key ends with the value of its last piece, and a key no piece names keeps its previous value. |
| Query.PutNext | src/LangExt.js:46 | Assigning the next key of a dictionary without repeated keys onto its prefix appends that property. |
| Query.FillFresh | src/LangExt.js:43-50 | Entries that are the properties of a dictionary without repeated keys rebuild exactly that dictionary. |
| Query.ParseString | src/LangExt.js:38-51 | For a non-empty query, a URIError happens exactly when some piece fails to decode. Otherwise the result is an object in which every key holds the value of its last piece. |
| Query.FillTwo | src/LangExt.js:43-50 | Two entries with different keys give the dictionary of the two, in order. |
| Query.ValueWithoutKey | src/LangExt.js:42-51 | `parseQuery("12345&x=5")` gives `{'': "12345", 'x': "5"}`, with the keyless value under `""`. |
| Query.ParseOfPieces | src/LangExt.js:38-51 | A non-empty query parses to the dictionary its pieces fill. |
| Query.BuildValue | src/LangExt.js:72-80 | `buildValue` pushes the pairs of its value: a dictionary or array recursively, a scalar as one `name=encode(value)`. |
| Query.BuildDict | src/LangExt.js:88-96 | `buildDict` pushes, in property order, the pairs of every property, named `prefix[key]`, or `key` when the prefix is falsy. |
| Query.BuildArray | src/LangExt.js:81-87 | `buildArray` pushes, in index order, the pairs of every item, named `prefix[i]`, or the number `i` when the prefix is falsy. |
| Query.BuildQuery | src/LangExt.js:66-99 | A string is returned as is; anything else becomes its pairs joined by the separator `sep`, defaulting to `&`. |
| Query.RenderedAppend | src/LangExt.js:72-96 | Rendering distributes over concatenation of leaves. |
| Query.TopRenderedAppend | src/LangExt.js:72-96 | Top-level rendering distributes over concatenation of leaves. |
| Query.RenderedUnder | src/LangExt.js:92 | Rendering leaves moved under `k` below `s` is rendering them below `s[k]`. |
| Query.TopRenderedUnder | src/LangExt.js:92 | At the top level, leaves moved under `k` render below the bare name `k`. |
| Query.PairsAreLeaves | src/LangExt.js:72-80 | Below a non-empty name, `buildValue` pushes exactly one pair per scalar leaf, depth first. |
| Query.DictPairsAreLeaves | src/LangExt.js:88-96 | `buildDict` below a non-empty name pushes one pair per leaf of its properties, in property order. |
| Query.ArrayPairsAreLeaves | src/LangExt.js:81-87 | `buildArray` below a non-empty name pushes one pair per leaf of its items, in index order. |
| Query.TopPairsAreLeaves | src/LangExt.js:97 | At the top level, with no empty key, each entry's leaves are named starting from the bare key. |
| Query.BuildIsLeaves | src/LangExt.js:66-99 | `buildQuery` emits one `key[k2][k3]...=encode(value)` per scalar leaf, depth first, joined by the separator, whenever no top-level key is empty. |
| Query.ArrayKeysNonEmpty | src/LangExt.js:84 | Array indices are never empty keys, so an array always builds as its leaves. |
| Query.FlatDictPairs | src/LangExt.js:88-97 | A dictionary of scalars builds exactly its flat pairs. |
| Query.BuildThenParse | src/LangExt.js:31-99 | Round trip: parsing what `buildQuery` made of a flat dictionary of strings gives the dictionary back. This needs a one-character separator other than `=` that no key or encoded value contains, keys that decode to themselves, and decoding that undoes encoding. |
| Query.FlatPiecesDecode | src/LangExt.js:44-46 | Under those conditions every built pair is one piece that decodes to its property. |
| Query.JoinNonEmpty | src/LangExt.js:38 | A join that starts with a non-empty piece is not the empty query. |
| Heap.SlotGet | src/LangExt.js:125 | A property read from a well-formed object is a value the store can hold. |
| Heap.SlotPut | src/LangExt.js:155 | Storing a value the store can hold keeps an object well formed. |
| Heap.AllocPreserves | src/LangExt.js:151 | A new empty object keeps the store well formed. |
| Heap.PutPreserves | src/LangExt.js:155 | An assignment into an existing object keeps the store well formed. |
| Heap.Store.constructor | src/LangExt.js:116 | A fresh store holds only the empty global object. |
| Heap.Store.Alloc | src/LangExt.js:151 | `{}` appends one new empty object and returns its reference; nothing else changes. |
| Heap.Store.Store | src/LangExt.js:155 | `obj[k] = v` changes only that object, by `Put`. |
| Paths.Step | src/LangExt.js:149-153 | One pass of the `setByPath` loop never removes objects from the store. |
| Paths.Walk | src/LangExt.js:148-154 | The `setByPath` loop never removes objects from the store. |
| Paths.GetByPath | src/LangExt.js:114-128 | `getByPath` returns the value at the end of the path from the context (the global object when the context is falsy), or the default at the first falsy context or missing own key. Own keys are read from stored objects, from objects given by value, and from arrays. |
| Paths.Lookup | src/LangExt.js:114-128 | The specification of `getByPath`. It has no contract of its own; `LookupAppend`, `LookupThrough`, `ObjectLookup`, `ArrayLookup` and `SetThenGet` state what it reads. |
| Paths.ObjectLookup | src/LangExt.js:120-124 | On an object given by value, such as a parsed query, a key it holds gives its value and any other key gives the default. |
| Paths.ArrayLookup | src/LangExt.js:120-124 | On an array, the decimal index of an item gives that item and "length" gives the number of items. |
| Paths.StepInPlace | src/LangExt.js:149-153 | One pass of the loop, in place, does to the store what `Step` says. |
| Paths.WalkInPlace | src/LangExt.js:148-154 | The loop over all keys but the last, in place, does what `Walk` says and stops at the first TypeError. |
| Paths.SetByPath | src/LangExt.js:142-156 | `setByPath` does to the store what `SetPath` says; `ok` is false exactly when it throws. |
| Paths.SetPath | src/LangExt.js:142-156 | The specification of `setByPath`. It has no contract of its own; `FailedSetChangesNothing`, `OffTrailUnchanged`, `OffPathKeysUnchanged`, `SetBelowFreshSucceeds` and `SetThenGet` state what it changes. |
| Paths.LookupAppend | src/LangExt.js:120-127 | Reading `a + b` is reading `b` from where `a` leads when `a` resolves, and the default otherwise. |
| Paths.SetBelowFreshSucceeds | src/LangExt.js:148-155 | Setting a path below a new, empty object never throws. |
| Paths.FailedSetChangesNothing | src/LangExt.js:142-156 | A `setByPath` that throws has changed nothing. |
| Paths.OffTrailUnchanged | src/LangExt.js:142-156 | Only the stored objects along the path can change, and new objects are only appended. |
| Paths.OffPathKeysUnchanged | src/LangExt.js:142-156 | Only properties named on the path can change, in any stored object. |
| Paths.WalkSetUnfold | src/LangExt.js:148-154 | A step that does not throw hands the rest of the walk to the next context. |
| Paths.LookupThrough | src/LangExt.js:120-126 | Reading through a stored object that holds the first key continues from that key's value. |
| Paths.DistinctTail | src/LangExt.js:148-154 | A path that visits no object twice still visits none twice after its first step. |
| Paths.WalkSetThenLookup | src/LangExt.js:114-156 | When the path passes through distinct existing objects, the set succeeds and a later read of the same path returns the value set. |
| Paths.ThroughExisting | src/LangExt.js:114-156 | The same round trip when the first key already holds the next object. |
| Paths.FreshAlong | src/LangExt.js:151-153 | A walk from a new empty object stays on that object. |
| Paths.ThroughMissing | src/LangExt.js:114-156 | The round trip when the first key is missing and a new object is made for it. |
| Paths.SetThenGet | src/LangExt.js:114-156 | `getByPath(ctx, path)` after `setByPath(ctx, path, v)` returns `v`, whenever the existing part of the path passes through distinct objects. |
| Functional.CurryCurry | src/LangExt.js:170-177 | Currying twice calls the original with both stored prefixes in order, then the call's own arguments. |
| Functional.FirstSuccess | src/LangExt.js:192-197 | The first function that does not throw, with every earlier one throwing. `None` means all of them throw. |
| Functional.SuccessIgnoresTail | src/LangExt.js:192-197 | Functions after the first success make no difference to the result. |
| Functional.TryDo | src/LangExt.js:190-199 | `tryDo` returns the result of the first function that does not throw and calls no later one. When every function throws, all are called and the result is `undefined`. |
| Classes.HideGet | src/Class.js:242 | A hidden key reads as absent, and every other key reads as before. |
| Classes.GetAppend | src/Class.js:242 | On an own part followed by an inherited part, a key comes from the own part when it has one. |
| Classes.VisibleResolves | src/Class.js:242-245 | A `for..in` over a class prototype sees, for every key, exactly the value a property read gives. |
| Classes.Separate | src/Class.js:169-185 | It throws exactly when the parents are truthy but neither a function, an array nor a string. A non-empty string is split like an array: its first character becomes the main parent and its other characters the mixins. After Root exists the main parent is always truthy, since Root stands in for a missing one. |
| Classes.ParentId | src/Class.js:212-216 | `new C.parent.Fake()` accepts exactly a class as a truthy main parent, and there is no parent exactly when it is falsy. |
| Classes.LastGet | src/Class.js:217 | A key is found exactly when it occurs. |
| Classes.ExtendGet | src/Class.js:217 | After `go.Lang.extend`, a key reads as the last value the source gives it, or as before when the source lacks it. |
| Classes.Extend | src/Class.js:217 | The specification of `go.Lang.extend`, each source property assigned in turn. It has no contract of its own; `ExtendGet` states what a key reads afterwards. |
| Classes.LastGetCons | src/Class.js:217 | The last value seen from the front: the rest's, else the head's. |
| Classes.Prepare | src/Class.js:110-133 | When the checks pass, the plan refers only to existing classes and carries the props as `__construct` stored them. It has a main parent exactly when Root already exists. |
| Classes.Check | src/Class.js:129-134 | The same, on the arguments as stored. A plan without a parent exists only before Root does. |
| Classes.Build | src/Class.js:134-137 | The built class records the plan's parent and mixins. |
| Classes.Instantiate | src/Class.js:151-154 | `new C()` throws Abstract exactly when the class is abstract, and otherwise makes an instance of `C`. |
| Classes.ApplyEntriesVal | src/Class.js:242-246 | One mixin leaves a defined `proto[k]` alone, and otherwise gives `k` the first defined value the mixin offers. |
| Classes.FirstDefinedAppend | src/Class.js:235-249 | The first defined value of two mixins' entries comes from the earlier one when it has one. |
| Classes.ApplyMixinsVal | src/Class.js:227-250 | All mixins together: a defined key keeps its value, and an undefined one takes the first defined value any mixin offers, earlier mixins first. |
| Classes.ApplyMixins | src/Class.js:227-250 | The specification of `applyOtherParents`. It has no contract of its own; `ApplyMixinsVal` states its result key by key, and `ClassCreator.ApplyOtherParents` is proved to compute it. |
| Classes.BlankProto | src/Class.js:210-222 | The specification of `createBlankPrototype`. It has no contract of its own; `BuildLookup` and `LookupOrder` state the lookup order it gives, and `ClassCreator.CreateBlankPrototype` is proved to compute it. |
| Classes.ResolveAppend | src/Class.js:394-401 | Creating a class does not change how earlier classes resolve keys. |
| Classes.CreateOrdered | src/Class.js:169-185 | A created class's parent and mixins existed before it, and only Root lacks a parent. |
| Classes.BuildLookup | src/Class.js:210-250 | Lookup order on a built prototype: the props, else the main parent chain, else the first defined value among the mixins. |
| Classes.LookupOrder | src/Class.js:128-138 | The same lookup order for a class made by `go.Class`, for every key creation does not set or delete. |
| Classes.FlagsFromOwnProps | src/Class.js:255-286 | `abstract`, `final` and `classname` are read from the class's own props only, never inherited. Each flag key the props define is deleted from the prototype. |
| Classes.SettleFlags | src/Class.js:262-285 | The flags `loadSettings` records and the keys it deletes. |
| Classes.Settle | src/Class.js:255-286 | The specification of `loadSettings`. It has no contract of its own; `SettleFlags` and `FlagsFromOwnProps` state the flags it records and the keys it deletes, and `ClassCreator.TakeFlags` is proved to compute it. |
| Classes.AbstractNotInherited | src/Class.js:152-154 | A subclass of an abstract class is concrete, and can be instantiated, unless its own props declare `__abstract`. |
| Classes.FinalIff | src/Class.js:190-205 | Creation fails with Final exactly when the main parent is final or a function-valued mixin is final (both directions). |
| Classes.ParentShapes | src/Class.js:169-185 | No parents gives Root; a class gives itself and no mixins; an array gives its head (Root when falsy) and its tail as mixins. Any other truthy value throws a TypeError. |
| Classes.IsSubBasics | src/Class.js:317-327 | A class is a subclass of itself and of whatever its parent is a subclass of. A class without a parent is a subclass of nothing else. |
| Classes.SubclassOfRoot | src/Class.js:317-327 | In a table where only Root lacks a parent, every class is a subclass of Root. |
| Classes.IsSubReaches | src/Class.js:317-346 | On a table without null mixins, `isSubclassOf` answers exactly whether the target is reached through parents and mixins. |
| Classes.MixinsReach | src/Class.js:328-345 | The mixin loop answers exactly whether some remaining mixin reaches the target. |
| Classes.ReachesTransitive | src/Class.js:317-346 | Reaching through parents and mixins is transitive. |
| Classes.IsSubTransitive | src/Class.js:317-346 | `isSubclassOf` is transitive. |
| Classes.MixinIsSuper | src/Class.js:328-338 | A class is a subclass of each of its mixins, and of whatever a class-valued mixin is a subclass of. |
| Classes.IsSub | src/Class.js:317-346 | The specification of `isSubclassOf`. It has no contract of its own; `IsSubBasics`, `IsSubReaches` (exactly reachability through parents and mixins) and `IsSubTransitive` state what it answers. |
| Classes.MixinsSub | src/Class.js:328-345 | The mixin loop of `isSubclassOf`. It has no contract of its own; `MixinsReach` states that it answers whether some remaining mixin reaches the target. |
| ClassBuilder.RootFlags | src/Class.js:48-56 | Root's props declare it abstract, not final, and named `go.Class.Root`. |
| ClassBuilder.RootCreated | src/Class.js:402 | Creating Root on an empty table succeeds: no parent, no mixins, abstract, not final, named. |
| ClassBuilder.RootChecked | src/Class.js:402 | The checks pass for Root. |
| ClassBuilder.RootNamesGiven | src/Class.js:402 | Root's props supply `__settings.names`, so Root can be created without a parent. |
| ClassBuilder.RootBuilt | src/Class.js:255-286 | `Class(null, props)` on an empty table throws a TypeError exactly when the props lack `__settings.names`. Otherwise the class has no parent and no mixins and records the flags of its props. |
| ClassBuilder.RootInfo | src/Class.js:402 | The class built from Root's props is abstract, not final, parentless and named `go.Class.Root`. |
| ClassBuilder.ClassCreator.constructor | src/Class.js:110-117 | With truthy props the creator stores the parents and props as given. With falsy props it takes the first argument as the props and has no parents. |
| ClassBuilder.ClassCreator.SeparateParents | src/Class.js:169-185 | The step succeeds exactly when `Separate` does and stores its main parent and mixins. The arguments are untouched. |
| ClassBuilder.ClassCreator.CheckParentsNoFinal | src/Class.js:190-205 | The loop with an early return answers `NoFinal`: the main parent and every function-valued mixin are not final. |
| ClassBuilder.ClassCreator.CreateBlankPrototype | src/Class.js:210-222 | Fails exactly as `ParentId`. On success the prototype is the props copied onto a blank object that is linked to the parent and names the class. |
| ClassBuilder.ClassCreator.ApplyOtherParents | src/Class.js:227-250 | The prototype becomes `ApplyMixins` of the old one. The arguments are untouched. |
| ClassBuilder.ClassCreator.LoadSettings | src/Class.js:255-286 | It throws when the props are null or undefined, or when there is no parent and the props lack `__settings.names`. Otherwise the flags and classname are taken from the props and the keys they define are deleted from the prototype. |
| ClassBuilder.ClassCreator.SettingsNamed | src/Class.js:257-269 | A class without a parent starts from `{}` extended with a truthy `__settings`. Reading `names.abstract` from it succeeds exactly when the props supply `__settings.names`. |
| ClassBuilder.ClassCreator.TakeFlags | src/Class.js:262-285 | The prototype and the flags end as `Settle` gives them. Each flag key the props define is deleted, `__settings` only when truthy, and the flags and the class name come from the props. |
| ClassBuilder.ClassCreator.Create | src/Class.js:128-138 | The steps in order compute `Made`: the first failing check's error, or the built class. |
| ClassBuilder.CreateRoot | src/Class.js:402 | `Class(null, props)` on an empty table succeeds exactly when the props supply `__settings.names`, and otherwise throws a TypeError. The class it makes has no parent and no mixins and takes its flags from its props. |
| ClassBuilder.ClassTable.constructor | src/Class.js:402 | The table starts with Root alone and satisfies its invariant. |
| ClassBuilder.ClassTable.Class | src/Class.js:394-401 | On success the new class is appended and returned as a value; on failure the table is unchanged. The invariant holds either way. |
| Deps.Tokens | src/Carcas.js:827-833 | The array form keeps the length, and its only error is a TypeError. |
| Deps.TokensMeaning | src/Carcas.js:827-833 | It succeeds exactly when every item is a string. Each item is then trimmed and given the context prefix unless it already has a `:`. |
| Deps.ListEntries | src/Carcas.js:842-846 | One entry per item of a truthy list, each beginning with `prefix:`, and none for a falsy one. |
| Deps.NormalizeDeps | src/Carcas.js:806-849 | The loops compute `Normalize`. |
| Deps.Normalize | src/Carcas.js:806-849 | The specification of `normalizeDeps`. It has no contract of its own; `FalsyIsEmpty`, `StringLikeArray`, `ArrayForm`, `DictForm` and `NormalizeIdempotent` state each input form and that normalising again changes nothing. |
| Deps.ArrayDeps | src/Carcas.js:826-834 | The array loop computes the array form, stopping at the first non-string. |
| Deps.DictDeps | src/Carcas.js:836-848 | The kind loop computes the dictionary form. |
| Deps.GroupedStep | src/Carcas.js:838-847 | One pass of the kind loop appends that kind's entries. |
| Deps.ListDeps | src/Carcas.js:843-845 | The inner loop computes `prefix:item` for each item. |
| Deps.FalsyIsEmpty | src/Carcas.js:818-820 | An absent or falsy declaration has no dependencies. |
| Deps.StringLikeArray | src/Carcas.js:821-824 | A non-empty comma string normalizes exactly like the array of its pieces, one dependency per piece. |
| Deps.ArrayForm | src/Carcas.js:825-834 | The array form keeps length and order, trims, and qualifies names without `:`. It succeeds exactly when every item is a string, and its only error is a TypeError. |
| Deps.DictForm | src/Carcas.js:836-851 | The dictionary form lists controllers, modules, go modules and libraries, in that order, each list in its own order. |
| Deps.OtherKeysIgnored | src/Carcas.js:851 | Keys other than the four kinds do not affect the dictionary form. |
| Deps.SplitAtColon | src/Carcas.js:317 | A string cut at its first `:`: the part before, then the pieces of the rest. |
| Deps.ArraySpelling | src/Carcas.js:825-834 | `["c:A", "mo:B"]` in context `c` gives `c:A`, `mo:B`. |
| Deps.StringSpelling | src/Carcas.js:821-824 | A string of two comma-free names normalizes like the array of the two. |
| Deps.DictSpelling | src/Carcas.js:836-848 | `{controllers: ["A"], modules: ["B"]}` gives the same list as the array spelling. |
| Deps.TwoQualifiedNames | src/Carcas.js:821-834 | `"a,b"` with qualified, trimmed names gives `[a, b]` in any context. |
| Deps.QualifiedStable | src/Carcas.js:828-831 | A qualified token is already trimmed and already qualified. |
| Deps.NormalizeIdempotent | src/Carcas.js:825-834 | Normalizing a normalized list gives it back. |
| Deps.NoColonRefused | src/Carcas.js:317-319 | A name without `:` throws ErrorDependence in both callbacks. |
| Deps.HalvesOf | src/Carcas.js:317 | `split(":", 2)` of `prefix:rest` is the prefix and `rest` up to its own `:`. |
| Deps.IncludeScript | src/Carcas.js:324-337 | `c:` and `mo:` request the script under the controllers or modules folder, with the dots of the name turned into slashes. |
| Deps.IncludeByPrefix | src/Carcas.js:330-335 | `go:` requests a go module, `l:` a library, and any other prefix throws ErrorDependence. |
| Deps.CreatorByPrefix | src/Carcas.js:357-369 | `c:` creates a controller, `mo:` a module, `go:` and `l:` nothing, and any other prefix throws ErrorDependence. |
| Deps.HalvesDropRest | src/Carcas.js:317 | The split of `p:n:rest` is the split of `p:n`. |
| Deps.SecondColonDropped | src/Carcas.js:315-371 | Both callbacks ignore the text from a second `:` on. |
| Deps.CallbacksAgree | src/Carcas.js:315-371 | The includer and the creator accept exactly the same names. |
| Deps.Include | src/Carcas.js:315-338 | The specification of `includerForLoader`. It has no contract of its own; `NoColonRefused`, `IncludeByPrefix`, `SecondColonDropped` and `CallbacksAgree` state its behaviour. |
| Deps.Creator | src/Carcas.js:349-371 | The specification of `creatorForLoader`. It has no contract of its own; `CreatorByPrefix` and `CallbacksAgree` state its behaviour. |
| Deps.EntriesIncludable | src/Carcas.js:842-846 | Every entry of one kind of a dictionary declaration is a name the includer accepts. |
| Deps.DictEntriesIncludable | src/Carcas.js:836-851 | Every entry of a dictionary declaration is a name the includer accepts. |
| Deps.QualifiedIncludable | src/Carcas.js:829-831 | A name qualified with the context `c` or `mo` is one the includer accepts. |
| Host.RefDictGet | src/Carcas.js:481 | A property read from a registry object is a stored object. |
| Host.RefDictPut | src/Carcas.js:487 | Storing a stored object keeps a registry object of references. |
| Host.RefDictExtend | src/Carcas.js:485 | Copying one registry object onto another keeps it one of references. |
| Host.AllRefsAlloc | src/Carcas.js:479 | A new empty object keeps the registries holding only objects. |
| Host.AllRefsUpdate | src/Carcas.js:479-487 | Replacing one object by a dictionary of references keeps the registries holding only objects. |
| Host.HostStep | src/Carcas.js:477-481 | One pass of the host's walk never removes objects. |
| Host.HostWalk | src/Carcas.js:476-482 | The host's walk never removes objects. |
| Host.HostWalkKeepsRefs | src/Carcas.js:476-482 | In registries that hold only objects, the walk never throws, ends on a stored object and keeps them holding only objects. |
| Host.SetHostKeepsRefs | src/Carcas.js:471-488 | The host's `setByPath` into a registry never throws and keeps the registries holding only objects. |
| Host.SetHostPlain | src/Carcas.js:483-487 | A name without dots sets that key of the registry to the new object, never throws, and leaves the registry's other keys as they were. |
| Host.SetHost | src/Carcas.js:471-488 | The specification of the host's own `setByPath`. It has no contract of its own. `SetHostKeepsRefs`, `SetHostPlain` and `SetHostThenGet` state what it writes, and `SetInStore` is proved to compute it in place. |
| Host.HostSet | src/Carcas.js:476-487 | The walk over all keys but the last, then the placement under the last key. It has no contract of its own; `HostSetFrame` and `HostSetThenLookup` state what it writes. |
| Host.GrowRefs | src/Carcas.js:478-480 | A new empty object made for a missing key keeps the registries holding only objects. |
| Host.HostSetFrame | src/Carcas.js:476-487 | From a registry, the set never throws and changes no object off the path except the new one. The new object ends with the own properties of the value the path held before merged onto it by `go.Lang.extend`, or unchanged when the path held nothing. |
| Host.HostSetUnfold | src/Carcas.js:476-482 | A step of the walk from a stored object never throws and hands the rest of the set to the next context. |
| Host.FrameThroughExisting | src/Carcas.js:476-487 | The frame and the merge of `HostSetFrame` when the first key already holds the next object. |
| Host.FrameThroughMissing | src/Carcas.js:476-487 | The same when the first key is missing: the new object for it is empty, so the path held nothing before. |
| Host.HostSetThenLookup | src/Carcas.js:476-487 | When the existing part of the path meets no object twice and not the new object, reading the path afterwards gives the new object. |
| Host.HostThroughExisting | src/Carcas.js:476-482 | The same when the first key already holds the next object. |
| Host.HostThroughMissing | src/Carcas.js:478-480 | The same when the first key is missing and a new object is made for it. |
| Host.SetHostThenGet | src/Carcas.js:471-488 | For any dotted name, on a registry: the host's `setByPath` never throws. `getByPath` of the same name then gives the new object, when the existing part of the path meets no object twice and not the new object. The new object holds the earlier value's properties merged by `extend`, and nothing else off the path changes. |
| Host.HostStepInPlace | src/Carcas.js:477-481 | One pass in place does what `HostStep` says. |
| Host.ExtendInPlace | src/Carcas.js:485 | `go.Lang.extend` onto a stored object changes only that object, by `Extend`. |
| Host.SetInStore | src/Carcas.js:471-488 | The host's `setByPath` in place does what `SetHost` says. |
| Host.OwnSlots | src/Carcas.js:485 | The properties copied by `extend` are values the store can hold. |
| Host.TwoArgumentForm | src/Carcas.js:261-305 | Declaring with two arguments takes the second as the data with no dependencies. After `init` it fails exactly on a redeclaration. |
| Host.PreloadUnchecked | src/Carcas.js:261-305 | Before `init` a declaration is always preloaded under `prefix:name`, without a redeclaration check. It can only fail with normalizeDeps' TypeError. |
| Host.RedeclareIff | src/Carcas.js:261-305 | After `init` a declaration is refused exactly when its name was already created, with the error of its kind. Otherwise it is forwarded as loaded. |
| Host.DeclaredNameCreates | src/Carcas.js:349-371 | The name a declaration gives the loader comes back through the creator callback as the creation of that controller or module. |
| Host.Declare | src/Carcas.js:261-305 | The specification of `module` and `controller`. It has no contract of its own; `TwoArgumentForm`, `PreloadUnchecked`, `RedeclareIff` and `DeclaredNameCreates` state its behaviour. |
| Host.ControllerNamesMeaning | src/Carcas.js:236-240 | Each controller name gets the prefix `c:`, in order, and a single string is treated as a one-item array. |
| Host.ControllerNames | src/Carcas.js:236-240 | The controller names `init` passes to the loader. It has no contract of its own; `ControllerNamesMeaning` states them. |
| Host.InitNamesIncludable | src/Carcas.js:235-242 | Every controller `init` asks for is requested as the script under the controllers folder. |
| Host.InitCalls | src/Carcas.js:235-243 | `init` includes the controllers exactly when they are given, then always calls `createPreloaded` last. |
| Host.RegistryOf | src/Carcas.js:233 | An object, an array or `null` registry is kept (`typeof === "object"`), and anything else is replaced by `{}`. |
| Host.IncludeOutcome | src/Carcas.js:315-338 | The request the includer makes, or ErrorDependence for a bad name. A TypeError is thrown exactly when a library is requested and `libsLoader` is not a function. |
| Host.HookFor | src/Carcas.js:511-536 | The load handler called on a controller is `onload` exactly on full load, and otherwise `ondomload`. |
| Host.LateHooks | src/Carcas.js:431-436 | A controller created after DOM load gets `init`, and after full load also `onload`, in that order. |
| Host.ControllerClassMade | src/Carcas.js:612-614 | `go.Carcas.Controller` is created with Root as main parent and no mixins. It is abstract, not final, and named. |
| Host.NullHeadExtendsRoot | src/Class.js:169-185 | A class list headed by null makes Root the main parent, and the one-item list leaves no other parents. The flags and the class name come from the class's own props. |
| Host.Carcas.constructor | src/Carcas.js:205-214 | Two empty registries, nothing created, not initialised, status 0, no loader calls. |
| Host.Carcas.Init | src/Carcas.js:226-245 | A second call throws AlreadyInited and changes nothing. The flag is set before `params` is read, so missing params throw a TypeError yet still count as the one initialisation. Otherwise it keeps the root, registry and libsLoader and makes the loader calls of `InitCalls`. |
| Host.Carcas.Configure | src/Carcas.js:232-234 | It sets the root, the registry (as `RegistryOf`) and the libsLoader, and nothing else. |
| Host.Carcas.InitLoaderCalls | src/Carcas.js:235-243 | The calls are `InitCalls`. |
| Host.Carcas.DeclareCall | src/Carcas.js:261-305 | The checks of `module` and `controller`, without touching the host, give exactly the loader call or the error `Declare` specifies. |
| Host.Carcas.Module | src/Carcas.js:261-275 | It makes the loader call of `Declare` with prefix `mo`, or throws its error and changes nothing. |
| Host.Carcas.Controller | src/Carcas.js:291-305 | It makes the loader call of `Declare` with prefix `c`, or throws its error and changes nothing. |
| Host.Carcas.IncluderForLoader | src/Carcas.js:315-338 | It records the request of `IncludeOutcome`, or throws its error and changes nothing. |
| Host.Carcas.CreateController | src/Carcas.js:422-437 | A created name throws ControllerRedeclare and changes nothing. A failing `go.Class` throws and changes nothing. An abstract class throws Abstract once the class has been made. Otherwise a new object is placed at the dotted name in `controllersList` as `SetHost` says (`SetHostThenGet` states where it lands), recorded under the name, and given the late hooks. |
| Host.Carcas.Instantiate | src/Carcas.js:428-430 | A new stored object is placed at the dotted name in a registry, as `SetHost` says. Because instances are modelled as empty objects, the placement never throws. |
| Host.Carcas.PlaceController | src/Carcas.js:428-436 | The new controller is placed, recorded under its name, and given the hooks of the load status. |
| Host.Carcas.CreateModule | src/Carcas.js:449-457 | A created name throws ModuleRedeclare. A non-function throws a TypeError and an abstract class throws Abstract, both changing nothing. Otherwise a new object is placed at the dotted name in `modulesList` as `SetHost` says, and recorded. |
| Host.Carcas.CreatorForLoader | src/Carcas.js:349-371 | A bad name throws ErrorDependence, and `go:`/`l:` change nothing. `c:` and `mo:` do what `createController` and `createModule` do. |
| Host.Carcas.NotifyControllers | src/Carcas.js:511-536 | Exactly one handler per created controller is appended, and the earlier hooks are kept. |
| Host.Carcas.OnDomLoad | src/Carcas.js:511-519 | The status becomes 1, and every created controller, and only those, gets `ondomload` once. |
| Host.Carcas.OnLoad | src/Carcas.js:528-536 | The status becomes 2, and every created controller, and only those, gets `onload` once. |
| Host.CarcasStatics.constructor | src/Carcas.js:612-614 | `go.Carcas.Controller` is appended to the class table, with Root as parent, and is abstract. There is no main instance yet. |
| Host.CarcasStatics.GetInstance | src/Carcas.js:32-37 | The main instance, created fresh and uninitialised on the first call and the same object afterwards. |
| Host.CarcasStatics.SetInstance | src/Carcas.js:46-51 | Once a main instance exists, it throws MainInstanceCreated and keeps it. Otherwise the given instance becomes the main one. |

## Left out

- Built-in properties of `Object.prototype`. A lookup such as `loadedObjects.c["toString"]` is truthy in JavaScript, but the model only sees own properties.
- The key `__proto__`. In JavaScript, `parseQuery("__proto__=x")` stores nothing, because the `__proto__` setter ignores a string. A `setByPath` through `"__proto__.x"` writes into the prototype. The model treats `__proto__` as an ordinary own key in both cases.
- The `instanceof` branch of `isSubclassOf` (src/Class.js:339-343). Mixins are not instances of constructors in the model.
- The `Fake` constructor and its use by `new C()` without `new`. Also left out: the `__construct`, `__destruct`, `__parentConstruct` and `__parentMethod` dispatch and the class statics added by `fillClassProperties`. These are calls into user code.
- Class settings sharing. `loadSettings` extends the parent's `settings` object in place (src/Class.js:258-264), so a class's `__settings` renames keys for its parent too. The model uses Root's fixed key names and only deletes the `__settings` key. This also holds for a class without a parent whose own `__settings.names` name other keys. The model only checks that `names` is present.
- Mixins given as references to stored objects. Mixins are classes, functions or plain objects.
- Structural identity. `==` on objects is identity in JavaScript; the model compares function and class identities.
- The enumeration order `for..in` gives integer-like keys. The model visits keys in insertion order.
- The internals of `go.__Loader`: the order in which it resolves dependencies and calls back. The model records the calls the host makes to it.
- The DOM layer: `setEventsListeners`, `onunload`, `destroy` and `__destruct` (src/Carcas.js:497-565). They register browser handlers or call user code.
- `this` inside `curry`. The curried function is called with the global object as `this`, which the model does not represent.
- Numbers other than integers, model-wide. Numbers are integers in the model, so there is no NaN and no fraction. `Truthy` therefore never meets a falsy NaN, for example in dependency lists, class arguments and `getByPath` contexts. `buildQuery` never meets the fractional or exponent renderings of `String(value)`.
- Array-like objects as dependency lists, and the `length` of a function.
- `go.Lang.each` on values other than arrays and strings.
- The bodies of the controller hooks. They are recorded in `hooks`; what user code does in them is not modelled.
- The instance fields `name` and `carcas` of a controller, and its `oncreate` call (src/Carcas.js:643-647). They are user-visible state set by the constructor.
- Host.Carcas.Instantiate: an instance is an empty object in the model. In the source, a later dotted name that passes through an instance's string `name` writes into a primitive, which throws in strict mode (src/Carcas.js:477-487). The model creates an object there instead.
- The `mo` alias of `modulesList` (src/Carcas.js:208).
- The props of `go.Carcas.Controller` other than its flags, and its `go.Ext.Nodes` mixin. That mixin belongs to another part of the library.
- Host.Carcas.Init: `params` is read as a plain object literal only; getters and inherited properties are not modelled.
- Own properties of primitives, functions and classes, such as the `length` of a string or the `prototype` of a function read through `getByPath`. They have no own properties in the model.
- The exception NotInited (src/Carcas.js:757). It is declared but never thrown.
- The static `init`, `module` and `controller` of `go.Carcas` (src/Carcas.js:61-95). They only delegate to the main instance.
- Constructors of user classes that throw. `new CModule(this)` and `new CController(name, this)` are assumed to return normally.
- The asynchronous callbacks of `requestGoModule` and `requestOtherLib` (src/Carcas.js:391-410). They are recorded as requests; their later `loaded` calls are not.
- Host.Carcas.NotifyControllers: the order in which the hooks are appended is left unspecified, because `for..in` over `loadedObjects.c` is not modelled by insertion order here.
- `go.Lang.extend` is used but defined elsewhere. It is modelled as each property of the source assigned in turn.
- The source text of functions. `String(fn)` gives it in JavaScript, for example in `buildQuery` and in the controller-name concatenation. The model renders every function and class as the text "function".
- UTF-16. Strings are sequences of code points in the model, while JavaScript strings are UTF-16 code units. `length`, indexing and `split` differ on characters outside the Basic Multilingual Plane, for example in the dependency lists.
