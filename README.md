# pyXMI core, modelled in Dafny

pyXMI reads a UML model exported as XMI, checks it, and generates source
files from it with Jinja templates chosen by a recipe. This project models
four parts of that pipeline and proves properties of each:

- **Validation** (`validator.dfy`, module `Validator`).
  `validate_package` walks a package tree and collects class errors and
  attribute errors. It checks:
  - the domain rule;
  - the two primary-key rules, which look at the supertype's key;
  - the auto-increment rule, the unknown-type rule, the multiple-ID rule
    and the reserved-name rule.

  Errors come out in the source's order: class by class, the class rules
  before the attribute rules, and the children's errors after the
  package's own. The two `__repr__` formats are modelled as `Render`.
  An error's message is a `Message` value, one constructor per rule
  (the unknown-type one carries the type name); `Text` gives the exact
  text the validator writes for each.
- **Instance serialization** (`serializer.dfy`, module `Serializer`).
  `serialize_instance` turns a test-case instance into a JSON-like
  document:
  - The dictionary is an insertion-ordered association list. Assigning to
    an existing key keeps its position, as a Python dict does.
  - Attributes are copied in order.
  - Each outgoing link then adds the serialized destination under the
    destination's name. A to-many link appends to a list. A to-one link
    overwrites.
  - Appending to a value that is not a list is an error, as `.append` on a
    dict raises in Python.
- **Generation** (`generator.dfy`, module `Generator`, and
  `test_cases.dfy`, module `TestCases`).
  - `output_model` is modelled as the ordered stream of emissions it
    performs. An emission is one rendering of one template rule for one
    package, class, enumeration or association. The stream is in recipe
    order within a package, and packages are visited in pre-order.
  - The file written for an emission is given by an `Engine` value that
    stands for Jinja rendering and path resolution.
  - `output_test_cases` serializes each case once and writes the document
    once per test template. A serialization error stops the run.
- **Header checks** (`xmi_header.dfy`, module `XmiHeader`). `parse`
  checks, in this order:
  1. that a root element exists;
  2. that the root has an XMI version;
  3. that the version is "2.1";
  4. that the root has a `uml:Model` child.

  It then takes the first `packagedElement` in document order that has the
  configured name. The query starts at the document root, not at the model
  element.

`wrappers.dfy` holds `Option` and `Result`. `uml_model.dfy` holds the
UML entities the code reads.

The imperative loops of the source are modelled as Dafny methods with loop
invariants: `ValidatePackage`, `SerializeInstance`, `OutputModel`,
`OutputTestCases` and their helpers. Each is proved equal to a
specification function. The properties are proved as lemmas about those
functions.

## Model

| member | source | states |
|---|---|---|
| Validator.Render | xmi/validator.py:21-22 | a class error renders with the "Class error: " prefix, an attribute error with "Attribute error: ", and both end with " \| " and the message |
| Validator.RenderKeepsKindsApart | xmi/validator.py:21-33 | a class error and an attribute error never render to the same text |
| Validator.ValidatePackage | xmi/validator.py:36-69 | the loop over classes and then children returns exactly the package tree's errors in source order |
| Validator.ValidateClasses | xmi/validator.py:39-64 | the loop over a package's classes returns each class's errors, concatenated in class order |
| Validator.ValidateClass | xmi/validator.py:40-64 | a class's errors are its class-rule errors followed by each attribute's errors in attribute order |
| Validator.ValidateClassRules | xmi/validator.py:40-48 | the domain error comes first, then at most one of the two primary-key errors |
| Validator.ValidateAttribute | xmi/validator.py:52-64 | the attribute rules fire in order (auto, type, multiple ID, reserved name), and the has-ID flag becomes set once an ID attribute is seen |
| Validator.SeenIdIff | xmi/validator.py:50-61 | the has-ID flag before attribute n is set iff an earlier attribute is an ID |
| Validator.ClassMessageCount | xmi/validator.py:40-48 | a message occurs among a class's class errors once for each class rule that fires with it, and never otherwise; attribute errors add nothing to this count |
| Validator.ClassRuleCounts | xmi/validator.py:40-48 | a class has one domain error iff it lacks a domain, one "no primary key" error iff it is concrete and keyless with no keyed supertype, and one polymorphism error iff it has a key that differs from a keyed supertype's |
| Validator.KeyErrorsExclusive | xmi/validator.py:43-48 | a class never gets both primary-key errors |
| Validator.KeylessSubclassOfKeyedSupertype | xmi/validator.py:43-48 | a keyless concrete class whose supertype has a key gets no key error. A keyless abstract class with a keyed supertype gets the polymorphism error, because the `elif` branch compares its missing key with the supertype's key |
| Validator.OnlyImmediateSupertypeKeyConsulted | xmi/validator.py:44-47 | replacing the supertype by another with the same key leaves the errors unchanged, so grandparents are never consulted |
| Validator.AttributeRuleCount | xmi/validator.py:52-64 | one attribute yields each message at most once, exactly when its rule's condition holds |
| Validator.AttributeRuleCounts | xmi/validator.py:52-64 | the same counts stated for all four rules at once |
| Validator.AutoIncrementErrorCount | xmi/validator.py:51-53 | a class has as many auto-increment errors as attributes with the "auto" stereotype and a type other than "int" |
| Validator.ReservedNameErrorCount | xmi/validator.py:63-64 | a class has as many reserved-name errors as attributes named "is_deleted" |
| Validator.SeenIdIffCounted | xmi/validator.py:58-61 | the has-ID flag is set iff at least one earlier attribute is an ID |
| Validator.MultipleIdErrorCount | xmi/validator.py:58-61 | k ID attributes yield max(k-1, 0) "multiple ID" errors |
| Validator.AttributesErrorsAreAttributeErrors | xmi/validator.py:51-64 | the attribute loop produces only attribute errors for that class |
| Validator.NoClassErrorsCounted | xmi/validator.py:51-64 | a list of attribute errors holds no class error |
| Validator.ClassesNoDomainCount | xmi/validator.py:39-41 | the domain errors of a class list are one per class without a domain |
| Validator.TreeNoDomainCount | xmi/validator.py:36-69 | the domain errors of a package tree are one per class without a domain anywhere in the tree |
| Validator.ChildrenNoDomainCount | xmi/validator.py:66-67 | the same count over the first n child packages |
| Serializer.Keys | xmi/generator.py:93-116 | a document's keys are its entries' keys, in order |
| Serializer.KeysPut | xmi/generator.py:95-114 | assigning a key keeps the key order, and a new key goes last |
| Serializer.LookupKeys | xmi/generator.py:109 | a key has a value iff it is among the document's keys |
| Serializer.LookupPut | xmi/generator.py:95-114 | after assigning a key, that key holds the new value and every other key keeps its value |
| Serializer.SerializeInstance | xmi/generator.py:92-116 | the two loops and the recursion compute the specification `Serialize` |
| Serializer.StepLookup | xmi/generator.py:107-114 | one link changes only its destination's key: a to-many link creates or extends a list, and a to-one link overwrites |
| Serializer.ErrorSticks | xmi/generator.py:107-114 | once a link fails, the whole serialization fails with that error |
| Serializer.OkPrefix | xmi/generator.py:107-114 | a successful result means every earlier step and every destination serialized successfully |
| Serializer.AttributesDictAbsent | xmi/generator.py:95-96 | a name no attribute has is absent after the attribute loop |
| Serializer.AttributesDictLast | xmi/generator.py:95-96 | an attribute name holds the value of the last attribute with that name |
| Serializer.LinksKeepOtherKeys | xmi/generator.py:107-114 | links leave every key that no destination has with its attribute value |
| Serializer.AttributesRecorded | xmi/generator.py:95-96 | a successfully serialized instance holds each attribute name that no link destination shares, with that name's last value |
| Serializer.ToManyAccumulates | xmi/generator.py:108-112 | with only to-many links to a name, the name holds a list of every destination's document in link order, one per link |
| Serializer.ToOneLastWins | xmi/generator.py:113-114 | a to-one link followed by no other link to the same name leaves that destination's document under the name |
| Serializer.AppendToNonListFails | xmi/generator.py:108-112 | a to-many link after a to-one link to the same name fails, naming that key |
| Serializer.KeysOfResult | xmi/generator.py:92-116 | the keys of the result are exactly the attribute names and the destination names |
| Serializer.LastNamed | xmi/generator.py:95-96 | the last attribute with a given name exists and no later attribute has that name |
| Generator.OutputModel | xmi/generator.py:17-73 | the writes are one per emission of the tree, in emission order |
| Generator.OutputChildren | xmi/generator.py:72-73 | the children are visited in order after the package's own rules |
| Generator.OutputRules | xmi/generator.py:19-70 | the rules are applied in recipe order |
| Generator.LevelOf | xmi/generator.py:26-60 | a level string falls through all four branches iff it is none of "package", "class", "enumeration" and the misspelt "assocication" |
| Generator.OutputRule | xmi/generator.py:26-70 | the level string decides which elements a rule looks at; any other level writes nothing |
| Generator.OutputMatching | xmi/generator.py:36-70 | the loop over a level's elements writes once for each element the filter accepts, in order |
| Generator.WritesOfAppend | xmi/generator.py:17-73 | the writes of two emission streams are those of the first followed by those of the second |
| Generator.WritesOfLength | xmi/generator.py:27-34 | there is one write per emission: its path is the rendered file name made absolute, and its content is the rendered template |
| Generator.MatchingSound | xmi/generator.py:27-39 | every accepted element is a candidate that the filter accepts |
| Generator.TagSound | xmi/generator.py:26-70 | every emission of a rule names that rule and one of its accepted elements |
| Generator.RuleSound | xmi/generator.py:26-70 | every emission of a rule is sound: it names a recipe rule, the filter accepts its element, and the element has the rule's level |
| Generator.LocalSound | xmi/generator.py:19-70 | every emission for one package is sound |
| Generator.TreeSound | xmi/generator.py:17-73 | every emission of the whole tree is sound |
| Generator.ChildrenSound | xmi/generator.py:72-73 | every emission of the child trees is sound |
| Generator.CandidatesOfAppend | xmi/generator.py:17-73 | projecting onto a rule distributes over concatenation of emission streams |
| Generator.CandidatesOfTag | xmi/generator.py:26-70 | the emissions of rule i project back onto their elements for i, and onto nothing for any other rule |
| Generator.RuleProjection | xmi/generator.py:26-70 | in one package, rule i renders exactly the accepted elements of its level, and no other rule's emissions come from it |
| Generator.LocalIsStacked | xmi/generator.py:19-70 | the emissions of the first n rules in one package are the rules' emissions stacked in recipe order, each with exactly what that rule accepts |
| Generator.StackStep | xmi/generator.py:19-70 | appending one rule's emissions adds that rule's accepted elements to its own projection and nothing to any other rule's |
| Generator.StackedProjectionOther | xmi/generator.py:19-70 | the first n rules produce no emission attributed to a rule numbered n or later |
| Generator.StackedProjection | xmi/generator.py:19-70 | among the first n rules, rule r < n is rendered for exactly what it accepts |
| Generator.LocalProjection | xmi/generator.py:19-70 | in one package, rule r renders exactly the elements of its level that its filter accepts, in list order |
| Generator.TreeProjection | xmi/generator.py:17-73 | rule r renders exactly the accepted elements of its level in the whole tree, in pre-order |
| Generator.ChildrenProjection | xmi/generator.py:72-73 | the same projection over the first n child trees |
| Generator.MatchingBounded | xmi/generator.py:22-27 | a filter keeps at most all elements; no filter keeps every element; a filter that never renders "True" keeps none |
| Generator.LocalCountBound | xmi/generator.py:26-70 | in one package a rule writes at most once for a package rule, or once per class, enumeration or association for those levels, and never for another level |
| Generator.TreeCandidatesUnknownLevel | xmi/generator.py:26-70 | an unrecognised level has no candidates anywhere in the tree |
| Generator.ChildrenCandidatesUnknownLevel | xmi/generator.py:26-70 | the same over the first n child trees |
| Generator.UnknownLevelWritesNothing | xmi/generator.py:26-70 | a rule whose level is none of the four dispatched strings never writes |
| Generator.AssociationSpeltRightWritesNothing | xmi/generator.py:60 | a rule with level "association" never writes, because the dispatch compares against "assocication" |
| Generator.FilterExtremes | xmi/generator.py:22-27 | an unfiltered rule renders every element of its level in the tree; a filter that never renders "True" renders nothing |
| Generator.TreeClassCandidates | xmi/generator.py:36-73 | the class candidates of a tree are one per class in the tree |
| Generator.ChildrenClassCandidates | xmi/generator.py:72-73 | the same over the first n child trees |
| Generator.UnfilteredClassRuleCount | xmi/generator.py:36-46 | an unfiltered class rule writes once per class in the whole tree |
| TestCases.OutputTestCases | xmi/generator.py:76-89 | the nested loops compute the specification `TestCasesOutput`, including the stop at the first serialization error |
| TestCases.OutputCase | xmi/generator.py:81-89 | one serialized case is written once per test template, in template order |
| TestCases.FailureSticks | xmi/generator.py:78-79 | once a case fails, later cases change nothing |
| TestCases.NoFailureAllSerialized | xmi/generator.py:78-79 | a run without failure has serialized every case |
| TestCases.CaseWritesLayout | xmi/generator.py:81-89 | one case's block holds one file per template, in order, at the template's rendered path, each holding the case's document |
| TestCases.TestCasesCount | xmi/generator.py:76-89 | a run without failure writes cases × templates files |
| TestCases.TestCasesLayout | xmi/generator.py:76-89 | in a run without failure, the file for case c and template t sits at c × templates + t and holds case c's document |
| TestCases.FirstFailure | xmi/generator.py:76-89 | a failing run stops at the first case that cannot be serialized, with that case's error and exactly the earlier cases' files written |
| XmiHeader.FindModelSpec | xmi/generator.py:131-133 | the model lookup returns a `uml:Model` child, and finds one whenever one exists |
| XmiHeader.SelectedSpec | xmi/generator.py:135-139 | the root-package query selects only matching `packagedElement`s, and selects one iff the tree contains a match |
| XmiHeader.SelectedChildrenSpec | xmi/generator.py:135-139 | the same over the first n children |
| XmiHeader.MessagesDistinct | xmi/generator.py:124-133 | the four header errors have distinct messages |
| XmiHeader.CheckOrder | xmi/generator.py:123-139 | each error arises exactly when the earlier checks pass and its own fails; a document that passes has a root with version "2.1" and a `uml:Model` child |
| XmiHeader.RootPackageFound | xmi/generator.py:135-139 | after the checks pass, a root package is returned iff the document has a matching `packagedElement`, and the one returned matches |
| XmiHeader.RootElementFirst | xmi/generator.py:135-139 | when the root element itself matches, it is the one returned, since document order puts it first |

## Left out

- Reading the XMI file and the recipe, and YAML loading: these are file
  I/O. `XmiHeader` starts from an already-parsed element tree.
- `parse_uml` is not part of this model. `UmlModel` describes the
  entities it produces only as far as the core reads them.
- `validate_test_cases`, `validate`, `run` and the command-line entry
  points are not part of the core modelled here.
- Jinja: rendering inline templates, rendering template files, and
  `os.path.abspath` are uninterpreted functions in `Engine`.
  - `env.get_template` runs for every rule before the level is looked at.
    In the source it can raise for a missing template even when the
    rule's level matches nothing. That failure is not modelled.
- `os.makedirs`, the existence check and the file writes are not
  modelled. The effect of `output_model` and `output_test_cases` is the
  ordered list of (path, content) writes.
  - A later write to the same path overwrites an earlier one on disk.
    The model keeps both writes in the list.
- `json.dumps` formatting is not modelled. A test file holds the
  document value, not its text.
- Printing ("Generating test case output", the root-package-not-found
  message, the base package name) is not modelled.
- `run` calls `parse` and unpacks its result into the model package and
  the test cases (xmi/generator.py:176). When the root package is not
  found, `parse` returns `None` (xmi/generator.py:138), and that unpacking
  raises `TypeError`. The model follows `parse`: `ParseHeader` returns
  `Ok(None)` in that case, and `run` is not part of this model.
- The root-package query is built by pasting the configured name into an
  XPath string (xmi/generator.py:135). A name containing `'` gives a
  malformed expression, and lxml raises. `ParseHeader` compares names by
  plain equality and returns normally for every name; XPath parsing is not
  part of this model.
- XML namespaces: the URIs bound to `xmi` and `uml` are parameters
  (`Namespaces`), because the prefix table is not part of this model.
- Serializer: instance graphs are trees.
  - A cyclic instance graph makes `serialize_instance` recurse until
    CPython's recursion limit raises `RecursionError`.
    Such a graph cannot be built from the inductive `Instance` datatype.
  - Attribute values are strings.
- Validator: `hasattr(cls, 'domain')` (xmi/validator.py:40) is modelled
  as the class's domain being absent (`None`). `hasattr` is true for an
  attribute that exists but holds `None`, so the model gives the source's
  error only if the XMI parser leaves the attribute unset for a class
  without a domain; the parser is not part of this model. `settings['types']` is modelled as a set of
  type names.
