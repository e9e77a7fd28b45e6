# rsgen token trees and their Java and Swift builders, in Dafny

rsgen builds source code as a tree of tokens and then writes it out. A
`Tokens` container holds `Element`s. These are literal text, a custom item of
the target language (a type that may need an import), spacing requests and
sub-trees that are pushed onto their own line, nested one indentation level
deeper, or appended inline. Builders for the declarations of a language
(classes, methods, fields, …) turn their fields into such a tree. Each
language plug-in says three things: how its custom items are written, which
imports a file needs, and how a string literal is quoted.

This project models the following parts of rsgen, each in its own module:

- the token tree (`TokenTree`): the `Element` datatype; the `Tokens` container as a class whose methods append, push, nest, insert, extend and register; `join` and its two spacing forms; and the breadth-first `WalkCustom` iterator;
- the `toks!`, `push!`, `nested!`, `push_f!` and `nested_f!` macros (`Macros`);
- the Java plug-in (`JavaPlugin`):
  - its type datatype, the transformations on it and its structural equality;
  - the import collection, with its ordered set (`OrderedSets`) and its import filter;
  - the formatting of a type, string quoting and the file layout;
- the Java interface builder (`JavaInterface`);
- the Swift plug-in (`SwiftPlugin`): types, module imports, formatting, quoting and the file layout;
- the Swift modifiers (`SwiftModifiers`), block comments (`SwiftComment`), arguments (`SwiftArgument`), fields (`SwiftField`), methods (`SwiftMethod`) and initialisers (`SwiftConstructor`);
- the Swift classes, structs, enums, extensions and protocols. Their shared layout is in `SwiftDeclaration`.

Builders whose setters update their fields are classes. Each one has a
`Rendered()` function, which is the specification of its tokens, and an
`IntoTokens()` method. That method builds the tree step by step, as the
source does, and is proved equal to `Rendered()`. Lemmas then state what the
tree looks like:
- which parts are present exactly when;
- in what order they appear;
- what separates them.

Writing text is modelled only where a plug-in writes it itself: the type
formatting and string quoting. The generic renderer that turns a tree into
text is not part of this model.

## Model

| member | source | states |
|---|---|---|
| TokenTree.Tokens.constructor | src/tokens.rs:34-38 | a new container holds no elements |
| TokenTree.Tokens.Append | src/tokens.rs:137-146 | an element is added at the end, except that `None` is dropped |
| TokenTree.Tokens.Push | src/tokens.rs:77-82 | exactly one `Push` of the given sub-tree is added at the end |
| TokenTree.Tokens.Nested | src/tokens.rs:41-46 | exactly one `Nested` of the given sub-tree is added at the end |
| TokenTree.Tokens.PushUnlessEmpty | src/tokens.rs:110-121 | an empty sub-tree leaves the container unchanged; a non-empty one adds one `Push` |
| TokenTree.Tokens.AppendUnlessEmpty | src/tokens.rs:156-167 | an empty sub-tree leaves the container unchanged; a non-empty one adds one `Append` |
| TokenTree.Tokens.TryPushInto | src/tokens.rs:97-105 | a builder that succeeds on the fresh container has its result pushed and `Ok` is returned; a failing builder's error is returned and nothing is added |
| TokenTree.Tokens.TryNestedInto | src/tokens.rs:61-69 | the same for a nested block |
| TokenTree.Tokens.Insert | src/tokens.rs:129-134 | the element lands at the position, with the elements before and after it unchanged |
| TokenTree.Tokens.Extend | src/tokens.rs:170-175 | the given elements follow the old ones, in order |
| TokenTree.Tokens.Register | src/tokens.rs:185-188 | a registered item is added, and the walk then yields it once more than before |
| TokenTree.Tokens.IsEmpty | src/tokens.rs:191-193 | true exactly when there are no elements |
| TokenTree.Tokens.WalkCustom | src/tokens.rs:178-182 | the walk starts with the container's elements as its queue |
| TokenTree.WalkCustom.constructor | src/tokens.rs:384-386 | the queue is the given elements |
| TokenTree.WalkCustom.Next | src/tokens.rs:391-413 | the item returned, followed by the walk of the new queue, is the walk of the old queue; `None` only once the queue is exhausted |
| TokenTree.WalkYieldsCustoms | src/tokens.rs:391-413 | the walk yields every custom and registered item of the tree exactly as often as it occurs, and nothing else |
| TokenTree.RegisteredIsWalked | src/tokens.rs:185-188 | registering adds exactly one occurrence of the item to what the walk yields |
| TokenTree.WalkStep | src/tokens.rs:395-410 | one step of the walk: the front element is visited and its sub-trees go to the back of the queue, which shrinks the tree measure |
| TokenTree.WalkExample | src/tokens.rs:446-464 | in the walk test's tree, the customs nested one and two levels deep are yielded as `1` then `2` |
| TokenTree.WalkExampleTop | src/tokens.rs:446-464 | the first level of the walk test: the pushed and nested sub-trees move to the back of the queue |
| TokenTree.WalkExampleFront | src/tokens.rs:446-464 | literals at the front of the queue are skipped, and the custom is yielded |
| TokenTree.WalkExampleNested | src/tokens.rs:446-464 | the nested level yields its one custom, and its appended literals yield nothing |
| TokenTree.WithoutNone | src/tokens.rs:262 | the filtered sequence is never longer than the input |
| TokenTree.WithoutNoneLength | src/tokens.rs:262 | one element is dropped per occurrence of `None` |
| TokenTree.WithoutNoneKeepsAll | src/tokens.rs:262 | without any `None`, nothing is dropped |
| TokenTree.WithoutNoneMembers | src/tokens.rs:262 | exactly the elements other than `None` survive |
| TokenTree.Interleave | src/tokens.rs:269-278 | n elements with separators between them give 2n-1 elements, or none for n = 0 |
| TokenTree.InterleavePositions | src/tokens.rs:269-278 | the members stay in order at the even positions, and the separator fills every odd one |
| TokenTree.InterleaveConcat | src/tokens.rs:269-278 | joining two non-empty runs puts exactly one separator between them |
| TokenTree.Join | src/tokens.rs:255-281 | the loop that skips `None`, keeps the first element and puts the separator before each later one equals `Joined` |
| TokenTree.JoinedShape | src/tokens.rs:255-281 | joining elements that hold no `None` gives 0 or 2n-1 elements, the originals in order at even positions and the separator at odd ones |
| TokenTree.JoinedSingle | src/tokens.rs:269-273 | a single element is joined to itself alone |
| TokenTree.JoinedPair | src/tokens.rs:255-281 | two elements are joined with one separator between them |
| TokenTree.JoinedThree | src/tokens.rs:429-443 | three parts are joined as the join test lists them |
| TokenTree.JoinedFour | src/tokens.rs:255-281 | four parts are joined with a separator between each pair |
| TokenTree.JoinedFive | src/tokens.rs:255-281 | five parts are joined with a separator between each pair |
| TokenTree.JoinedSeven | src/tokens.rs:255-281 | seven parts are joined with a separator between each pair |
| TokenTree.JoinSpacing | src/tokens.rs:284-286 | `join_spacing` is `join` with the spacing element |
| TokenTree.JoinLineSpacing | src/tokens.rs:289-291 | `join_line_spacing` is `join` with the line-spacing element |
| TokenTree.SkipNone | src/tokens.rs:262-273 | the first element kept is the first that is not `None`, and everything before it is `None` |
| TokenTree.JoinRest | src/tokens.rs:275-278 | once one element is kept, adding a separator and each later non-`None` element completes the join |
| TokenTree.JoinStep | src/tokens.rs:275-278 | each later element adds the separator and itself, or nothing when it is `None` |
| TokenTree.AppendEachJoined | src/tokens.rs:301-306 | sub-trees converted with `IntoTokens for Vec<Tokens>` and joined: each sub-tree appended in order, with the separator between them |
| TokenTree.PushedUnlessEmpty | src/tokens.rs:110-121 | an empty tree adds nothing, and any other tree adds exactly one element |
| Macros.Toks | src/macros.rs:11-21 | `toks!` is the arguments in order with `None` dropped, so without `None` it is exactly the arguments |
| Macros.ToksEnclosed | src/macros.rs:11-21 | `toks![open, items.join(sep), close]` gives the two delimiters around the joined items |
| Macros.PushToks | src/macros.rs:82-88 | the list form of `push!` adds exactly one `Push` of its arguments, with `None` dropped |
| Macros.PushBlock | src/macros.rs:74-80 | the block form of `push!` pushes whatever the block built in its fresh container |
| Macros.NestedToks | src/macros.rs:246-252 | the list form of `nested!` adds exactly one `Nested` of its arguments, with `None` dropped |
| Macros.NestedBlock | src/macros.rs:238-244 | the block form of `nested!` nests whatever the block built |
| Macros.PushF | src/macros.rs:120-135 | `push_f!` pushes a fresh container holding the one element, or an empty one for `None` |
| Macros.NestedF | src/macros.rs:165-180 | `nested_f!` nests a fresh container holding the one element, or an empty one for `None` |
| Macros.BarBody | src/macros.rs:296-299 | the inner block of the macro test is two pushed lines |
| Macros.BarFunction | src/macros.rs:294-301 | the outer block is a line, the nested inner block and a closing line |
| Macros.MacrosExample | src/macros.rs:290-310 | the macro test's tree: one pushed block holding the function, then one more pushed line |
| OrderedSets.InsertMembers | src/java/mod.rs:197 | after an insertion, the members are the old members plus the new one |
| OrderedSets.InsertIncreasing | src/java/mod.rs:197 | insertion keeps a strictly ascending sequence ascending, so no member occurs twice |
| OrderedSets.IncreasingUnique | src/java/mod.rs:218 | two ascending sequences with the same members are equal, so a set has one iteration order |
| OrderedSets.DistinctCardinality | src/swift/modifier.rs:52-53 | a sequence without repetition has as many members as elements |
| OrderedSets.OrderedSet.constructor | src/java/mod.rs:204 | a new set is empty and ordered by the given strict total order |
| OrderedSets.OrderedSet.Insert | src/java/mod.rs:197 | the set stays ascending and gains exactly the inserted member |
| OrderedSets.StrLessOrder | src/swift/mod.rs:121 | the lexicographic order on strings is a strict total order |
| OrderedSets.PairLessOrder | src/java/mod.rs:204 | the order on (package, name) pairs, first component first, is a strict total order |
| JavaPlugin.Imported | src/java/mod.rs:513-520 | an imported class has the given package and name, and is neither generic nor primitive |
| JavaPlugin.LocalType | src/java/mod.rs:523-525 | a local type has the given name, no package and no arguments |
| JavaPlugin.OptionalType | src/java/mod.rs:528-533 | an optional type is optional, its value and field types are the ones given, and it takes its name and package from its value type |
| JavaPlugin.PrimitiveConstants | src/java/mod.rs:35-86 | the eight primitive constants count as primitive, and `void` does not |
| JavaPlugin.QueriesByKind | src/java/mod.rs:314-398 | `name`, `package` and `arguments` by kind of type: a primitive is in `java.lang` with no arguments, a local type has no package, an optional answers for its value; a type is generic exactly when it has non-empty arguments; only a primitive other than `void` is primitive; `as_field` and `as_value` change only optionals |
| JavaPlugin.TransformationsKeepIdentity | src/java/mod.rs:169-186 | `path`, `with_arguments` and `as_raw` leave non-classes unchanged and never change a package or a name |
| JavaPlugin.GenericAfterTransformations | src/java/mod.rs:241-270 | a nested path and a raw type are never generic; `with_arguments` makes a class generic exactly when the arguments are non-empty; `as_raw` is idempotent |
| JavaPlugin.BoxedPrimitive | src/java/mod.rs:273-285 | boxing a primitive gives the non-primitive, non-generic `java.lang` class with the boxed name |
| JavaPlugin.EqualsIgnoresPath | src/java/mod.rs:288-313 | `equals` does not compare the nested path |
| JavaPlugin.EqualsReflexive | src/java/mod.rs:288-313 | a type equals itself exactly when it contains no local or optional type, because those never compare equal |
| JavaPlugin.AllEqualReflexive | src/java/mod.rs:300-306 | the same for an argument list |
| JavaPlugin.EqualsSymmetric | src/java/mod.rs:288-313 | `equals` is symmetric |
| JavaPlugin.AllEqualSymmetric | src/java/mod.rs:300-306 | pairwise argument equality is symmetric |
| JavaPlugin.EqualsTransitive | src/java/mod.rs:288-313 | `equals` is transitive |
| JavaPlugin.AllEqualTransitive | src/java/mod.rs:300-306 | pairwise argument equality is transitive |
| JavaPlugin.EqualsSameIdentity | src/java/mod.rs:288-313 | equal types have the same name and package |
| JavaPlugin.InsertImportsSpec | src/java/mod.rs:188-201 | `type_imports` keeps the set ascending and adds exactly the (package, name) of the class and of every class in its arguments |
| JavaPlugin.InsertArgumentImportsSpec | src/java/mod.rs:193-195 | the same for the argument loop |
| JavaPlugin.TypeImports | src/java/mod.rs:188-201 | the imperative `type_imports` on the ordered set yields the specified insertion |
| JavaPlugin.CollectImportsSpec | src/java/mod.rs:208-210 | the set collected from a tree's customs is ascending and holds the import pairs of every custom and nothing else |
| JavaPlugin.CollectModules | src/java/mod.rs:204-210 | the walk-and-collect loop yields the collected set of the walked customs |
| JavaPlugin.ImportLines | src/java/mod.rs:231 | one `import package.name;` line per emitted pair, in order |
| JavaPlugin.BuildImportLine | src/java/mod.rs:231 | the line is `import `, the package, `.`, the name and `;` |
| JavaPlugin.EmitKeepsPlanned | src/java/mod.rs:218-233 | emitting an importable pair whose name is free keeps the import-loop invariant |
| JavaPlugin.SkipKeepsPlanned | src/java/mod.rs:218-233 | skipping a pair keeps the import-loop invariant |
| JavaPlugin.PlanImportsEmits | src/java/mod.rs:218-233 | each emitted pair is from the set, passes the `java.lang` and own-package filters and had a free name; emitted names are distinct; each emitted name is recorded with its package; old records are kept; nothing else is recorded |
| JavaPlugin.PlanImportsFromSet | src/java/mod.rs:218-233 | every emitted pair is a pair of the collected set |
| JavaPlugin.PlanImportsAscending | src/java/mod.rs:218-233 | the emitted imports keep the ascending order of the set |
| JavaPlugin.PlanImportsFirstWins | src/java/mod.rs:218-221 | for each name, the first importable pair in ascending order with a free name is emitted; a class whose name an earlier import already took gets no second import and stays qualified |
| JavaPlugin.PlanImportsSnoc | src/java/mod.rs:218-233 | one more pair is skipped when its name is taken, when its package is `java.lang` or when it is the file's package; otherwise it is emitted and recorded |
| JavaPlugin.EmitImports | src/java/mod.rs:216-235 | the filter loop gives the import lines of the planned pairs and records their names in `extra` |
| JavaPlugin.Imports | src/java/mod.rs:203-236 | `None` exactly when the tree needs no import; otherwise the planned import lines, even when every pair is filtered out, with their names recorded |
| JavaPlugin.ImportedExamplePlan | src/java/mod.rs:563-576 | in the import test, `java.io.A` and `java.io.B` are imported, `java.lang.Integer` is skipped, and `java.util.B` is skipped because `B` is taken |
| JavaPlugin.ImportedExampleRenders | src/java/mod.rs:563-576 | the import test's types are then written `Integer`, `A`, `java.util.B` and `java.util.B<A>` |
| JavaPlugin.Extra.New | src/java/mod.rs:146-154 | a new `Extra` has the package and no imported names |
| JavaPlugin.Extra.Default | src/java/mod.rs:135-142 | the default `Extra` has no package and no imported names |
| JavaPlugin.Extra.SetPackage | src/java/mod.rs:157-162 | the package is replaced, and the imported names are kept |
| JavaPlugin.Format | src/java/mod.rs:404-467 | the imperative `format` writes exactly the specified text of a type |
| JavaPlugin.FormatClass | src/java/mod.rs:419-456 | the class arm writes the qualifier, the name, the nested path and the generic arguments |
| JavaPlugin.FormatArguments | src/java/mod.rs:442-456 | the argument loop writes each argument with `, ` between two of them |
| JavaPlugin.RenderPrimitive | src/java/mod.rs:408-418 | a primitive whose boxed name differs from its own is written boxed exactly inside a generic argument list, and its boxed class is written as the primitive would be one level deeper |
| JavaPlugin.RenderClassQualification | src/java/mod.rs:419-456 | any class is written as its qualifier, its name, `.segment` per path segment and, when it has arguments, those arguments one level deeper inside `<` and `>`; the qualifier is empty exactly when the package is `java.lang`, the file's package or the package its name was imported from, and `package.` otherwise; the text is the bare name exactly when, in addition, there is no path and there are no arguments |
| JavaPlugin.PathTextConcat | src/java/mod.rs:434-439 | the path text of two runs of segments is the text of the first followed by that of the second, and one segment is written `.segment` |
| JavaPlugin.PathTextLength | src/java/mod.rs:434-439 | each segment adds at least its dot, so the path text is empty exactly when the path is |
| JavaPlugin.RenderArgumentsConcat | src/java/mod.rs:442-452 | two non-empty runs of arguments are written with exactly one `, ` between them |
| JavaPlugin.RenderArgumentsUpTo | src/java/mod.rs:442-452 | the arguments up to an index are those before it, a `, `, then that argument |
| JavaPlugin.RenderArgumentsAt | src/java/mod.rs:442-452 | the argument list is the arguments before an index, that argument and the arguments after it, with `, ` only between two arguments |
| JavaPlugin.ClassArgumentBoxed | src/java/mod.rs:408-456 | a primitive among a class's generic arguments is written as its boxed name, whatever level the class itself is written at |
| JavaPlugin.ImportedThenRendered | src/java/mod.rs:218-233 | every class whose import was emitted is then written by its bare name |
| JavaPlugin.QuoteString | src/java/mod.rs:469-489 | the literal is the escape of every character, in order, between double quotes |
| JavaPlugin.QuotedReadsBack | src/java/mod.rs:469-489 | a Java compiler reads the quoted text back as the input, except that U+0007 comes back as a backspace and U+0014 as a form feed |
| JavaPlugin.EscapeCharReadsBack | src/java/mod.rs:473-482 | one escaped character reads back as itself, except for the two misread ones |
| JavaPlugin.ReadBackAll | src/java/mod.rs:469-489 | reading back keeps the length and maps each character on its own |
| JavaPlugin.QuotedBellMisread | src/java/mod.rs:475 | a quoted bell character is read back as a backspace |
| JavaPlugin.QuoteStringCorrected | src/java/mod.rs:469-489 | with `\b` for backspace and `\f` for form feed, the quoted body reads back as exactly the input |
| JavaPlugin.QuotedCorrectedRoundTrip | src/java/mod.rs:469-489 | the corrected escaping is undone exactly by a Java compiler's reading |
| JavaPlugin.EscapeCharCorrectedReadsBack | src/java/mod.rs:473-482 | each correctly escaped character reads back as itself |
| JavaPlugin.WriteFile | src/java/mod.rs:491-509 | the file is the package line, the import lines when the tree needs any, and the body, separated by blank lines; the imported names are recorded |
| JavaInterface.InterfaceBuilder.constructor | src/java/interface.rs:29-41 | a new interface is public, with no methods, no body, nothing extended and no annotations |
| JavaInterface.InterfaceBuilder.Annotation | src/java/interface.rs:44-49 | an annotation is pushed after the earlier ones |
| JavaInterface.InterfaceBuilder.IntoTokens | src/java/interface.rs:60-98 | the step-by-step construction equals the interface's specified tokens |
| JavaInterface.BuildSignature | src/java/interface.rs:61-74 | the signature is appended part by part as specified |
| JavaInterface.BuildBody | src/java/interface.rs:83-94 | the body is every method pushed, then the extra body, joined with line spacing |
| JavaInterface.SignatureLayout | src/java/interface.rs:61-74 | the modifiers and a space come first exactly when there are modifiers; then `interface ` and the name; then `extends ` and the extended types exactly when some are given |
| JavaInterface.BodyLayout | src/java/interface.rs:83-94 | each method is pushed in order, then the extra elements follow, with a line spacing between each pair |
| JavaInterface.BodyParts | src/java/interface.rs:86-92 | the body holds the pushed methods first, then the extra elements, and no `None` |
| JavaInterface.InterfaceLayout | src/java/interface.rs:76-97 | the annotations come first when present, then the signature line with ` {`, the nested body and `}` |
| JavaInterface.InterfaceFoo | src/java/interface.rs:108-115 | a new interface `Foo` is `public interface Foo {` and `}` around an empty block |
| JavaInterface.ExtendsFollowsName | src/java/interface.rs:71-74 | as written, `extends ` follows the name with no space in between |
| JavaInterface.ExtendsUnspaced | src/java/interface.rs:68-74 | the interface `Foo` extending `Bar` reads `interface Fooextends Bar` |
| JavaInterface.ExtendsSpaced | src/java/interface.rs:68-74 | the corrected signature puts ` extends ` between the name and the extended types, and is unchanged without them |
| SwiftPlugin.Imported | src/swift/mod.rs:218-229 | an imported type needs exactly its module and is written as its name at any level |
| SwiftPlugin.LocalType | src/swift/mod.rs:232-242 | a local type needs no import and is written as its name |
| SwiftPlugin.MapOf | src/swift/mod.rs:245-254 | a map needs the modules of its key and its value and is written `[K: V]` |
| SwiftPlugin.ArrayOf | src/swift/mod.rs:257-264 | an array needs the modules of its element type and is written `[T]` |
| SwiftPlugin.InsertModulesSpec | src/swift/mod.rs:96-118 | `type_imports` keeps the set ascending and adds exactly the modules of the type |
| SwiftPlugin.TypeImports | src/swift/mod.rs:96-118 | the imperative `type_imports` on the ordered set yields the specified insertion |
| SwiftPlugin.CollectModulesSpec | src/swift/mod.rs:121-125 | the collected set is ascending and holds the modules of every custom of the tree, and nothing else |
| SwiftPlugin.GatherModules | src/swift/mod.rs:121-125 | the walk-and-collect loop yields the collected set of the walked customs |
| SwiftPlugin.ImportLines | src/swift/mod.rs:133-140 | there is one `import` line per module, in order |
| SwiftPlugin.ImportLinesDistinctAscending | src/swift/mod.rs:120-143 | the import block has one line per distinct module of the tree's customs, in ascending order, with none missing, none repeated and none invented |
| SwiftPlugin.ImportLinesDistinct | src/swift/mod.rs:133-140 | ascending modules give pairwise different lines |
| SwiftPlugin.ImportLinesMembers | src/swift/mod.rs:133-140 | a module's line is in the block exactly when the module is |
| SwiftPlugin.BuildImportLine | src/swift/mod.rs:134-139 | the line is `import ` followed by the module |
| SwiftPlugin.Imports | src/swift/mod.rs:120-143 | `None` exactly when no module is needed, and otherwise the import lines of the collected modules |
| SwiftPlugin.Format | src/swift/mod.rs:149-179 | the imperative `format` writes exactly the specified text of a type |
| SwiftPlugin.RenderIgnoresModuleAndLevel | src/swift/mod.rs:149-179 | neither the nesting level nor the module of a named type changes its text |
| SwiftPlugin.RenderExamples | src/swift/mod.rs:293-314 | the test types are written `[Debug]` and `[String: Debug]`, and the map needs the module `Foo` |
| SwiftPlugin.QuoteString | src/swift/mod.rs:181-198 | the literal is the escape of every character, in order, between double quotes |
| SwiftPlugin.QuotedRoundTrip | src/swift/mod.rs:181-198 | a Swift compiler reads the quoted text back as exactly the input |
| SwiftPlugin.EscapeCharReadsBack | src/swift/mod.rs:185-193 | each escaped character reads back as itself |
| SwiftPlugin.EscapedPlain | src/swift/mod.rs:192 | text without tab, line breaks, quotes or backslashes is copied unchanged |
| SwiftPlugin.EscapedLineBreak | src/swift/mod.rs:272-278 | a line break between two plain texts, as in the quoting test, is the only character escaped, and becomes `\n` |
| SwiftPlugin.WriteFile | src/swift/mod.rs:200-214 | the file is the body alone when no module is needed, and otherwise the import block, a blank line and the body |
| SwiftPlugin.WalkOneLine | src/swift/mod.rs:281-290 | a one-line body holding one type yields that type to the walk |
| SwiftPlugin.WriteFileMapExample | src/swift/mod.rs:305-314 | the map test's file imports `Foo` once, ahead of the body |
| SwiftModifiers.ModifierLessOrder | src/swift/modifier.rs:6-21 | the derived order of the modifiers is a strict total order |
| SwiftModifiers.Name | src/swift/modifier.rs:24-41 | every keyword is non-empty lower-case text |
| SwiftModifiers.NamesDistinct | src/swift/modifier.rs:24-41 | distinct modifiers have distinct keywords |
| SwiftModifiers.Elements | src/swift/modifier.rs:44-48 | each modifier becomes one element |
| SwiftModifiers.ElementsPositions | src/swift/modifier.rs:44-48 | each position holds the literal of the modifier's keyword |
| SwiftModifiers.CollectedSpec | src/swift/modifier.rs:50-58 | collecting into a `BTreeSet` gives an ascending sequence with exactly the modifiers of the list |
| SwiftModifiers.ModifierTokensSpec | src/swift/modifier.rs:50-58 | the tokens of a modifier list have one keyword per distinct modifier, in declaration order, with nothing else |
| SwiftModifiers.CollectedIsDeclarationOrder | src/swift/modifier.rs:50-58 | the collected modifiers are the full declaration-ordered list with the absent modifiers removed |
| SwiftModifiers.AllModifiers | src/swift/modifier.rs:7-21 | every modifier is in the declaration-ordered list |
| SwiftModifiers.AllIncreasing | src/swift/modifier.rs:7-21 | the declaration-ordered list is ascending |
| SwiftModifiers.Keep | src/swift/modifier.rs:50-58 | the kept modifiers are those of the reference list that occur in the given list |
| SwiftModifiers.KeepIncreasing | src/swift/modifier.rs:50-58 | keeping some modifiers of an ascending list leaves it ascending |
| SwiftModifiers.ModifiersExample | src/swift/modifier.rs:67-73 | `Public, Static, Final` joined with spacing read `public static final` |
| SwiftModifiers.CollectedExample | src/swift/modifier.rs:50-58 | a list out of order and with repeats comes out once each, in declaration order |
| SwiftModifiers.SingleModifierTokens | src/swift/modifier.rs:50-58 | a single modifier renders as its one keyword |
| SwiftModifiers.InsertSorted | src/swift/constructor.rs:50 | inserting into a sorted list adds exactly the one modifier |
| SwiftModifiers.InsertSortedSorted | src/swift/constructor.rs:50 | insertion keeps a list sorted |
| SwiftModifiers.SortModifiersSpec | src/swift/constructor.rs:50 | sorting gives a sorted permutation, with repeats kept |
| SwiftModifiers.SortedUnique | src/swift/constructor.rs:50 | two sorted arrangements of the same modifiers are equal, so the sort result is unique |
| SwiftModifiers.SortedHeadLeast | src/swift/constructor.rs:50 | the head of a sorted list ranks lowest |
| SwiftModifiers.SwapDown | src/swift/constructor.rs:50 | exchanging two adjacent cells keeps the contents as a multiset |
| SwiftModifiers.SinkInto | src/swift/constructor.rs:50 | moving a cell down into the sorted prefix extends the sorted prefix by one and keeps the contents |
| SwiftModifiers.Sort | src/swift/constructor.rs:50 | sorting the vector in place leaves it sorted, a permutation of what it held, and equal to the specified sort |
| SwiftModifiers.SortedCopy | src/swift/constructor.rs:50-51 | sorting a copy gives the specified sort |
| SwiftComment.BlockComment | src/swift/comment.rs:7-27 | the early return and the loop of pushes and appends build the specified comment tokens |
| SwiftComment.CommentLinesShape | src/swift/comment.rs:17-20 | each line is a pushed ` * ` followed by the line itself, in order |
| SwiftComment.BlockCommentShape | src/swift/comment.rs:7-27 | an empty comment produces nothing; n lines produce `/**`, each line after its ` * ` in order, ` */` and a spacing push |
| SwiftComment.BlockCommentSingle | src/swift/comment.rs:7-27 | a one-line comment is exactly those five elements |
| SwiftArgument.Argument.constructor | src/swift/argument.rs:21-31 | a new argument has the given type and name, and no initializer |
| SwiftArgument.Argument.Initializer | src/swift/argument.rs:34-36 | the initializer is added to, not replaced |
| SwiftArgument.Argument.IntoTokens | src/swift/argument.rs:51-63 | the step-by-step construction equals the argument's specified tokens |
| SwiftArgument.ArgumentShape | src/swift/argument.rs:51-63 | the argument reads `name : ty`, followed by `= initializer` exactly when an initializer was given, with one spacing between every two parts |
| SwiftArgument.ArgumentTestTokens | src/swift/argument.rs:74-89 | the test argument is `arg : Int = 100` |
| SwiftArgument.ArgumentExample | src/swift/argument.rs:74-89 | building the test argument with `new` and one `initializer` call gives those tokens |
| SwiftArgument.ArgumentsTokens | src/swift/method.rs:89-95 | there is one token list per argument |
| SwiftArgument.RenderArguments | src/swift/method.rs:89-95 | rendering each argument in turn gives the specified token lists |
| SwiftField.Field.constructor | src/swift/field.rs:34-51 | a new field is private and immutable, with no comments, initializer or accessors |
| SwiftField.Field.Initializer | src/swift/field.rs:54-59 | the initializer is replaced |
| SwiftField.Field.Mutable | src/swift/field.rs:62-64 | mutability is set |
| SwiftField.Field.IntoTokens | src/swift/field.rs:80-135 | the step-by-step construction equals the field's specified tokens |
| SwiftField.BuildDeclarator | src/swift/field.rs:88-100 | the part after the modifiers is appended part by part as specified |
| SwiftField.AppendAccessors | src/swift/field.rs:105-132 | the accessor block is added exactly as specified |
| SwiftField.PushAccessor | src/swift/field.rs:110-128 | one accessor is written as specified |
| SwiftField.AccessorShape | src/swift/field.rs:110-128 | an accessor is present exactly when given; it opens with its keyword and has braces around its body exactly when the body is non-empty |
| SwiftField.GetBeforeSet | src/swift/field.rs:110-128 | `get` comes before `set` |
| SwiftField.SignatureShape | src/swift/field.rs:85-103 | the signature holds the distinct modifiers, then `var` exactly when the field is mutable and `let` otherwise, the name, `:` and the type, and `= initializer` exactly when one is set |
| SwiftField.FieldShape | src/swift/field.rs:80-135 | a field is the comment block only when there is a comment, the signature joined with spacing, and only when a getter or setter is present, a spacing, `{`, the nested accessors and `}` |
| SwiftField.FooSignature | src/swift/field.rs:168-171 | the test field's signature reads `private let foo : Int` |
| SwiftField.FooSignatureInitialized | src/swift/field.rs:174-188 | the mutable test field with initializer reads `private var foo : Int = 300` |
| SwiftField.FieldNoComments | src/swift/field.rs:168-171 | the test field without comments is exactly its signature |
| SwiftField.FieldWithComments | src/swift/field.rs:155-165 | the comment `Hello World` is pushed before the signature |
| SwiftField.FieldWithAccessors | src/swift/field.rs:174-188 | the test field with empty accessors has `get` and `set` nested in braces |
| SwiftMethod.Method.constructor | src/swift/method.rs:34-51 | a new method is public, with nothing declared |
| SwiftMethod.Method.Attribute | src/swift/method.rs:54-59 | an attribute is pushed after the earlier ones |
| SwiftMethod.Method.Returns | src/swift/method.rs:61-63 | the return type is set |
| SwiftMethod.Method.IntoTokens | src/swift/method.rs:74-129 | the step-by-step construction equals the method's specified tokens |
| SwiftMethod.BuildHead | src/swift/method.rs:79-100 | the head is built part by part as specified |
| SwiftMethod.BuildSignatureTail | src/swift/method.rs:102-111 | the return type and `throws` are appended as specified |
| SwiftMethod.BuildMethod | src/swift/method.rs:113-128 | the comment, attributes, signature line and body are laid out as specified |
| SwiftMethod.BuildMethodWithHead | src/swift/method.rs:77-128 | the signature and then the whole method are built as specified |
| SwiftMethod.BuildTerminated | src/swift/method.rs:120-126 | the signature line ends in `;` or opens the body as specified |
| SwiftMethod.MethodHeadShape | src/swift/method.rs:79-100 | the head is `func` and the name, then `<parameters>` exactly when there are parameters, then the arguments in parentheses, always |
| SwiftMethod.ArgumentListShape | src/swift/method.rs:89-97 | inside the parentheses, each argument's tokens appear in order with `, ` between them |
| SwiftMethod.MethodSignatureShape | src/swift/method.rs:77-111 | after the distinct modifiers and the head, `-> T` appears exactly when a return type other than `Void` is set, and `throws` exactly when the method throws, last |
| SwiftMethod.TailShape | src/swift/method.rs:102-111 | the part after the modifiers is the head, then `-> T` exactly when shown, then `throws` exactly when set |
| SwiftMethod.MethodTokensShape | src/swift/method.rs:113-128 | the comment and attributes are pushed only when non-empty; without a body the signature ends in `;` and nothing is nested; with a body it opens `{`, nests the body and closes `}` |
| SwiftMethod.BuildFoo | src/swift/method.rs:138-142 | the test method is `foo` with the one generic parameter `T`, otherwise as new |
| SwiftMethod.FooHead | src/swift/method.rs:138-142 | the test method's head is `func foo<T>()` |
| SwiftMethod.MethodNoComments | src/swift/method.rs:165-168 | the test method reads `public func foo<T>();` |
| SwiftMethod.CommentedTokens | src/swift/method.rs:152-162 | a one-line comment is pushed before the signature line |
| SwiftMethod.MethodWithComments | src/swift/method.rs:152-162 | the comment `Hello World` is pushed before `public func foo<T>();` |
| SwiftMethod.ThrowingSignature | src/swift/method.rs:171-180 | the throwing test method's signature ends in `throws` |
| SwiftMethod.ReturningSignature | src/swift/method.rs:183-186 | the test method returning `Int` has `-> Int` after its head |
| SwiftMethod.MethodThrows | src/swift/method.rs:171-180 | the throwing test method reads `public func foo<T>() throws;` |
| SwiftMethod.MethodReturns | src/swift/method.rs:183-186 | the returning test method reads `public func foo<T>() -> Int;` |
| SwiftConstructor.Constructor.constructor | src/swift/constructor.rs:27-34 | a new initialiser is public, with no arguments, an empty body and no `throws` |
| SwiftConstructor.Constructor.IntoTokens | src/swift/constructor.rs:40-74 | the step-by-step construction equals the initialiser's specified tokens |
| SwiftConstructor.BuildConstructor | src/swift/constructor.rs:66-70 | the opening line, the nested body and `}` are laid out as specified |
| SwiftConstructor.BuildInitHead | src/swift/constructor.rs:53-60 | the `init` head is built as specified |
| SwiftConstructor.BuildSignature | src/swift/constructor.rs:50-64 | the signature is appended part by part as specified |
| SwiftConstructor.InitHeadShape | src/swift/constructor.rs:53-60 | without arguments the head is `init()`; with arguments it is `init`, `(`, one nested block with each argument in order and the comma separator between them, and `)` |
| SwiftConstructor.ConstructorSignatureShape | src/swift/constructor.rs:50-64 | the signature holds every modifier, repeats kept, sorted into declaration order, then the `init` head, then `throws` exactly when the initialiser throws |
| SwiftConstructor.RepeatedModifierKept | src/swift/constructor.rs:50-51 | unlike other declarations' modifier tokens, an initialiser keeps a repeated modifier |
| SwiftConstructor.ConstructorShape | src/swift/constructor.rs:66-70 | the braces are always there: the opening line, the nested body even when empty, and `}` |
| SwiftConstructor.DefaultSignature | src/swift/constructor.rs:84-91 | the test initialiser's signature is `public init()` |
| SwiftConstructor.ThrowingSignature | src/swift/constructor.rs:94-102 | the throwing test initialiser's signature is `public init() throws` |
| SwiftConstructor.ConstructorDefault | src/swift/constructor.rs:84-91 | the test initialiser is `public init() {` and `}` |
| SwiftConstructor.ConstructorThrows | src/swift/constructor.rs:94-102 | the throwing test initialiser is `public init() throws {` and `}` |
| SwiftDeclaration.FieldsTokens | src/swift/class.rs:109-113 | there is one token list per field |
| SwiftDeclaration.ConstructorsTokens | src/swift/class.rs:115-119 | there is one token list per initialiser |
| SwiftDeclaration.MethodsTokens | src/swift/class.rs:121-125 | there is one token list per method |
| SwiftDeclaration.PushedRuns | src/swift/class.rs:107-125 | the body holds every field, then every initialiser, then every method, each pushed at its offset, and no `None` |
| SwiftDeclaration.SignatureShape | src/swift/class.rs:68-96 | the signature is the distinct modifiers in declaration order, then the keyword, the head and the supertypes |
| SwiftDeclaration.SupertypesShape | src/swift/protocol.rs:83-86 | a supertype clause is present exactly when there are supertypes, and then lists each of them in order after `:` |
| SwiftDeclaration.ImplementsShape | src/swift/class.rs:87-96 | the implemented types become a clause exactly when there are some, each as a custom element |
| SwiftDeclaration.DeclarationShape | src/swift/class.rs:98-132 | the attributes come first when present, then the opening line, the body blocks unchanged and `}` |
| SwiftDeclaration.GenericHead | src/swift/class.rs:73-85 | a name with one parameter is `Name<T>` |
| SwiftDeclaration.SupertypeOne | src/swift/class.rs:87-96 | a clause naming one type is `:` and that type |
| SwiftDeclaration.EmptyBody | src/swift/class.rs:104-130 | a declaration without attributes or members is its opening line, an empty nested block and `}` |
| SwiftDeclaration.PushAll | src/swift/class.rs:109-125 | pushing each tree in turn adds one `Push` per tree, in order |
| SwiftDeclaration.PushRuns | src/swift/class.rs:107-125 | the member loops push the fields, the initialisers and the methods, in that order |
| SwiftDeclaration.BuildTypeHead | src/swift/class.rs:73-85 | the head is built as specified |
| SwiftDeclaration.BuildSignatureTail | src/swift/class.rs:71-96 | the keyword, the head and the supertypes follow in that order |
| SwiftDeclaration.BuildBodyDeclaration | src/swift/class.rs:98-132 | a declaration whose one body block is the members joined with line spacing is built as specified |
| SwiftDeclaration.BuildBlocksDeclaration | src/swift/protocol.rs:89-119 | a declaration with the given body blocks is built as specified |
| SwiftDeclaration.BuildSupertypes | src/swift/class.rs:87-96 | the clause is built as specified |
| SwiftDeclaration.BuildDeclaration | src/swift/class.rs:98-132 | the attributes, the opening line, the blocks and `}` are built as specified |
| SwiftClass.Class.constructor | src/swift/class.rs:34-48 | a new class is public, with no members, no supertypes, no parameters and no attributes |
| SwiftClass.Class.Attributes | src/swift/class.rs:51-56 | an attribute is pushed after the earlier ones |
| SwiftClass.Class.IntoTokens | src/swift/class.rs:66-134 | the step-by-step construction equals the class's specified tokens |
| SwiftClass.SignatureLayout | src/swift/class.rs:68-96 | after the modifiers come `class` and the name with its parameters, then `:` and the implemented types, each a custom element in order, exactly when there are some |
| SwiftClass.FooSignature | src/swift/class.rs:143-153 | the test class's signature reads `public class Foo<T> : Super` |
| SwiftClass.ClassFoo | src/swift/class.rs:143-153 | the test class is that signature line, an empty nested block and `}` |
| SwiftStruct.Struct.constructor | src/swift/struct_.rs:32-45 | a new struct is public, with no members, parameters or attributes |
| SwiftStruct.Struct.Attributes | src/swift/struct_.rs:48-53 | an attribute is pushed after the earlier ones |
| SwiftStruct.Struct.IntoTokens | src/swift/struct_.rs:63-119 | the step-by-step construction equals the struct's specified tokens |
| SwiftStruct.SignatureLayout | src/swift/struct_.rs:65-84 | the signature is the distinct modifiers, `struct` and the name with its parameters, and nothing after them |
| SwiftStruct.FooSignature | src/swift/struct_.rs:129-137 | the test struct's signature reads `public struct Foo<T>` |
| SwiftStruct.StructFoo | src/swift/struct_.rs:129-137 | the test struct is that signature line, an empty nested block and `}` |
| SwiftEnum.Enum.constructor | src/swift/enum_.rs:34-48 | a new enum is public, with no variants, members, parameters or attributes |
| SwiftEnum.Enum.Attributes | src/swift/enum_.rs:51-56 | an attribute is pushed after the earlier ones |
| SwiftEnum.Enum.IntoTokens | src/swift/enum_.rs:66-132 | the step-by-step construction equals the enum's specified tokens |
| SwiftEnum.BuildVariants | src/swift/enum_.rs:101-105 | the variants are joined and appended, unless there are none |
| SwiftEnum.VariantsLayout | src/swift/enum_.rs:101-105 | the variants block is there exactly when there are variants, and then holds each of them in order with one separator between each pair |
| SwiftEnum.BodyLayout | src/swift/enum_.rs:97-126 | the body is the variants block first, exactly when there are variants, then the pushed fields, initialisers and methods |
| SwiftEnum.TwoVariants | src/swift/enum_.rs:142-155 | two variants are one appended block with the line-break separator between them |
| SwiftEnum.FooSignature | src/swift/enum_.rs:142-155 | the test enum's signature reads `public enum Foo` |
| SwiftEnum.FooRendered | src/swift/enum_.rs:142-155 | the test enum's body nests its two variants, one per line |
| SwiftEnum.EnumFoo | src/swift/enum_.rs:142-155 | the test enum is its signature line, the nested variants and `}` |
| SwiftExtension.Extension.constructor | src/swift/extension.rs:34-48 | a new extension of a type is public, with no members, supertypes, parameters or attributes |
| SwiftExtension.Extension.Attributes | src/swift/extension.rs:51-56 | an attribute is pushed after the earlier ones |
| SwiftExtension.Extension.IntoTokens | src/swift/extension.rs:66-133 | the step-by-step construction equals the extension's specified tokens |
| SwiftExtension.SignatureLayout | src/swift/extension.rs:68-96 | after the modifiers come `extension` and the extended type as a custom element with its parameters, then `:` and the implemented types, in order, exactly when there are some |
| SwiftExtension.CustomHead | src/swift/extension.rs:73-85 | the extended type with one parameter is `Type<T>` |
| SwiftExtension.FooSignature | src/swift/extension.rs:143-153 | the test extension's signature reads `public extension Foo<T> : Super` |
| SwiftExtension.ExtensionFoo | src/swift/extension.rs:143-153 | the test extension is that signature line, an empty nested block and `}` |
| SwiftProtocol.Protocol.constructor | src/swift/protocol.rs:31-44 | a new protocol is public, with no members, refinements, parameters or attributes |
| SwiftProtocol.Protocol.Annotation | src/swift/protocol.rs:47-52 | an annotation is pushed after the earlier ones |
| SwiftProtocol.Protocol.IntoTokens | src/swift/protocol.rs:62-121 | the step-by-step construction equals the protocol's specified tokens |
| SwiftProtocol.BuildBlock | src/swift/protocol.rs:95-106 | the members of one kind are pushed and joined with line spacing |
| SwiftProtocol.BlockLayout | src/swift/protocol.rs:95-117 | a block holds every member pushed, in order, with a line spacing between each pair |
| SwiftProtocol.SignatureLayout | src/swift/protocol.rs:64-86 | after the modifiers come `protocol` and the name with its parameters, then `:` and the refined protocols, in order, exactly when there are some |
| SwiftProtocol.NoMembers | src/swift/protocol.rs:89-121 | a protocol without attributes or members is its opening line, two empty nested blocks and `}` |
| SwiftProtocol.FooSignature | src/swift/protocol.rs:131-141 | the test protocol's signature reads `public protocol Foo<T> : Super` |
| SwiftProtocol.ProtocolFoo | src/swift/protocol.rs:131-141 | the test protocol is that signature line, two empty nested blocks and `}` |

## Left out

- Writing a tree as text is not part of this model. The `Formatter`, `format` on `Tokens`, `to_string`, `to_file` and their `_with` forms depend on `formatter.rs` and `element.rs`, which are not part of this model. So the tests' expected strings are stated on the trees the builders produce and on the text of the plug-ins' own `format` and `quote_string`.
- Lifetimes, `Cons` and `Con`: ownership and sharing are not modelled. `Rc` and `Borrowed` are kept as element variants that the walk looks through.
- `push_ref`, `nested_ref` and `append_ref` are left out. They attach the same sub-tree by reference, which on values is the same as `Push`, `Nested` and `Append`.
- `push_into` and `nested_into` are not modelled separately. They are `TokenTree.Tokens.TryPushInto` and `TokenTree.Tokens.TryNestedInto` with a builder that always succeeds.
- TokenTree.Tokens.Insert: a position past the end makes `Vec::insert` panic in the source; the model requires the position to be at most the number of elements, so that panic is not modelled.
- Macros.PushF and Macros.NestedF: the `format!` substitution of the formatting forms happens before the element is appended, so the caller supplies the formatted element. The block forms of `push_f!` and `nested_f!` expand exactly like those of `push!` and `nested!`, which are `Macros.PushBlock` and `Macros.NestedBlock`.
- The conversions into elements live in `element.rs` and `into_tokens.rs`, which are not part of this model. They are taken as follows: text and modifiers become a `Literal`, a custom type a `Custom`, a `Tokens` an `Append`, and an element is its own one-element tree.
- `JavaInterface.InterfaceBuilder`: the Java `Method` and `Modifier` types come from files that are not part of this model. So methods are given as their token trees, the modifier list as its elements (appended as one block), and `public` as its literal.
- `as_optional` is folded into `as_field` and `as_value`, the only callers of it here. The builders' getters `var`, `ty` and `name` return a field unchanged and are not modelled separately.
- Swift `Field`'s public `getter` and `setter` and the builders' other public vectors are set by assigning the field. The builders' contracts are stated for any field values.
- `SwiftModifiers.Sort`: the standard library's stable sort is modelled as an insertion sort by adjacent swaps. Only its result, sorted and a permutation, is specified, and that result is unique.

## Findings

| source | as written | input that shows it | evidently intended | confidence | as-written member | corrected member |
|---|---|---|---|---|---|---|
| src/java/mod.rs:475-478 | `quote_string` writes `\b` for U+0007 (bell) and `\f` for U+0014 | the one-character string U+0007 is quoted as `"\b"`, which Java reads as U+0008 | `\b` for U+0008 (backspace) and `\f` for U+000C (form feed), so that the literal reads back as the input | not executed | JavaPlugin.QuotedBellMisread | JavaPlugin.QuoteStringCorrected |
| src/java/interface.rs:71-73 | `extends ` is appended right after the name, with no space before it | an interface `Foo` extending `Bar`, without modifiers, reads `interface Fooextends Bar` | a space between the name and `extends` | not executed | JavaInterface.ExtendsUnspaced | JavaInterface.ExtendsSpaced |
