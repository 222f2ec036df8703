/**
 * The structural validator: a read-only walk over the package tree that collects
 * class errors and attribute errors, exhaustively and in document order.
 *
 * The specification functions below take a count `n` and describe the errors
 * produced by the first `n` classes (attributes, children), so that they say
 * exactly what the validator's loops have accumulated after each step;
 * `ValidatePackage` is the loop-and-append implementation proved against them.
 */
module Validator {
  import opened Wrappers
  import opened UmlModel

  const UnknownTypePrefix: string := "unknown type: "

  /** What a validation error says. Each kind renders to its own fixed text;
      the unknown-type message names the offending type. */
  datatype Message =
    | NoDomain
    | NoPrimaryKey
    | Polymorphism
    | AutoNotInt
    | UnknownType(typ: string)
    | MultipleIds
    | ReservedName

  /** The text of a message, as the validator writes it into its report. */
  function Text(m: Message): string
  {
    match m
    case NoDomain => "Class does not belong to a domain"
    case NoPrimaryKey => "no primary key"
    case Polymorphism => "To allow polymorphism the primary key must be defined in only the supertype"
    case AutoNotInt => "auto increment field must be int"
    case UnknownType(typ) => UnknownTypePrefix + typ
    case MultipleIds => "multiple ID attributes detected"
    case ReservedName => "is_deleted is a reserved attribute name"
  }

  /** A validation finding: the package path and class (and attribute) it is about,
      and its message. */
  datatype ValidationError =
    | ClassError(path: string, className: string, message: Message)
    | AttributeError(path: string, className: string, attrName: string, message: Message)

  const ClassPrefix: string := "Class error: "
  const AttributePrefix: string := "Attribute error: "
  const Separator: string := " | "

  /** The one-line report of an error: kind, package path immediately followed by
      the class name (and ".attribute"), then " | " and the message. */
  function Render(e: ValidationError): (r: string)
    ensures e.ClassError? ==> |r| >= |ClassPrefix| && r[..|ClassPrefix|] == ClassPrefix
    ensures e.AttributeError? ==> |r| >= |AttributePrefix| && r[..|AttributePrefix|] == AttributePrefix
    ensures |r| >= |Separator| + |Text(e.message)|
            && r[|r| - |Text(e.message)| - |Separator|..] == Separator + Text(e.message)
  {
    match e
    case ClassError(path, cls, msg) =>
      ClassPrefix + path + cls + Separator + Text(msg)
    case AttributeError(path, cls, attr, msg) =>
      AttributePrefix + path + cls + "." + attr + Separator + Text(msg)
  }

  /** A class error and an attribute error never render to the same line. */
  lemma RenderKeepsKindsApart(c: ValidationError, a: ValidationError)
    requires c.ClassError? && a.AttributeError?
    ensures Render(c) != Render(a)
  {
    assert Render(c)[0] == ClassPrefix[0] == 'C';
    assert Render(a)[0] == AttributePrefix[0] == 'A';
  }

  // ---------------------------------------------------------------------------
  // The rules, as specification functions
  // ---------------------------------------------------------------------------

  /** The domain rule: a class without a domain tag. */
  function DomainRuleErrors(path: string, cls: UmlClass): seq<ValidationError>
  {
    if cls.domain.None? then [ClassError(path, cls.name, NoDomain)] else []
  }

  /** The primary-key rule and, in its `elif`, the polymorphism rule. Only the
      class's own key and its IMMEDIATE supertype's key are read. */
  function KeyRuleErrors(path: string, cls: UmlClass): seq<ValidationError>
  {
    if cls.idAttribute.None? && !cls.isAbstract then
      if cls.supertype.None? || cls.supertype.value.idAttribute.None? then
        [ClassError(path, cls.name, NoPrimaryKey)]
      else []
    else if cls.supertype.Some? then
      if cls.supertype.value.idAttribute.Some? && cls.idAttribute != cls.supertype.value.idAttribute then
        [ClassError(path, cls.name, Polymorphism)]
      else []
    else []
  }

  /** The class-level rules in the order they are checked: domain, then keys. */
  function ClassRuleErrors(path: string, cls: UmlClass): seq<ValidationError>
  {
    DomainRuleErrors(path, cls) + KeyRuleErrors(path, cls)
  }

  /** The auto-increment rule: an "auto" attribute must have type "int". */
  function AutoRuleErrors(path: string, className: string, attr: Attribute): seq<ValidationError>
  {
    if attr.stereotype == Some("auto") && attr.typ != "int"
    then [AttributeError(path, className, attr.name, AutoNotInt)] else []
  }

  /** The type rule: an attribute not typed by an enumeration must have a type
      listed in the configured type table. */
  function TypeRuleErrors(path: string, className: string, attr: Attribute, types: set<string>): seq<ValidationError>
  {
    if attr.classification.None? && attr.typ !in types
    then [AttributeError(path, className, attr.name, UnknownType(attr.typ))] else []
  }

  /** The single-ID rule: an ID attribute after an earlier one. */
  function IdRuleErrors(path: string, className: string, attr: Attribute, seenId: bool): seq<ValidationError>
  {
    if attr.isId && seenId
    then [AttributeError(path, className, attr.name, MultipleIds)] else []
  }

  /** The reserved-name rule. */
  function ReservedRuleErrors(path: string, className: string, attr: Attribute): seq<ValidationError>
  {
    if attr.name == "is_deleted"
    then [AttributeError(path, className, attr.name, ReservedName)] else []
  }

  /** The four attribute rules for one attribute, in the order they are checked;
      `seenId` tells whether an earlier attribute of the class was an ID. */
  function AttributeRuleErrors(path: string, className: string, attr: Attribute, seenId: bool, types: set<string>)
    : seq<ValidationError>
  {
    AutoRuleErrors(path, className, attr)
    + TypeRuleErrors(path, className, attr, types)
    + IdRuleErrors(path, className, attr, seenId)
    + ReservedRuleErrors(path, className, attr)
  }

  /** Whether one of the first `n` attributes is flagged as an ID: the value of
      the validator's `has_id` flag after `n` attributes. */
  predicate SeenId(attrs: seq<Attribute>, n: nat)
    requires n <= |attrs|
  {
    n > 0 && (SeenId(attrs, n - 1) || attrs[n - 1].isId)
  }

  /** The attribute errors produced by the first `n` attributes of a class. */
  function AttributesErrors(path: string, className: string, attrs: seq<Attribute>, n: nat, types: set<string>)
    : seq<ValidationError>
    requires n <= |attrs|
  {
    if n == 0 then []
    else
      AttributesErrors(path, className, attrs, n - 1, types)
      + AttributeRuleErrors(path, className, attrs[n - 1], SeenId(attrs, n - 1), types)
  }

  /** All errors about one class: its class rules, then its attributes' rules. */
  function ClassErrors(path: string, cls: UmlClass, types: set<string>): seq<ValidationError>
  {
    ClassRuleErrors(path, cls) + AttributesErrors(path, cls.name, cls.attributes, |cls.attributes|, types)
  }

  /** The errors about the first `n` classes of a package, in class order. */
  function ClassesErrors(path: string, classes: seq<UmlClass>, n: nat, types: set<string>): seq<ValidationError>
    requires n <= |classes|
  {
    if n == 0 then []
    else ClassesErrors(path, classes, n - 1, types) + ClassErrors(path, classes[n - 1], types)
  }

  /** The errors of a package tree: this package's class errors, then each child's
      results in child order. */
  function PackageErrors(p: Package, types: set<string>): seq<ValidationError>
    decreases p, |p.children| + 1
  {
    ClassesErrors(p.path, p.classes, |p.classes|, types) + ChildrenErrors(p, |p.children|, types)
  }

  /** The concatenated results of the first `n` children of `p`. */
  function ChildrenErrors(p: Package, n: nat, types: set<string>): seq<ValidationError>
    requires n <= |p.children|
    decreases p, n
  {
    if n == 0 then []
    else ChildrenErrors(p, n - 1, types) + PackageErrors(p.children[n - 1], types)
  }

  // ---------------------------------------------------------------------------
  // The validator itself
  // ---------------------------------------------------------------------------

  /** Walks the tree, appending errors as the rules fire; the tree is a value and
      is left as it was. */
  method ValidatePackage(package: Package, types: set<string>) returns (errors: seq<ValidationError>)
    ensures errors == PackageErrors(package, types)
    decreases package
  {
    errors := ValidateClasses(package.path, package.classes, types);
    ghost var classErrors := errors;
    for k := 0 to |package.children|
      invariant errors == classErrors + ChildrenErrors(package, k, types)
    {
      var childErrors := ValidatePackage(package.children[k], types);
      ChildrenErrorsStep(package, k, types, classErrors, childErrors);
      errors := errors + childErrors;
    }
  }

  /** One turn of the children loop extends the accumulated errors by one child's. */
  lemma ChildrenErrorsStep(p: Package, k: nat, types: set<string>, prefix: seq<ValidationError>,
                           childErrors: seq<ValidationError>)
    requires k < |p.children|
    requires childErrors == PackageErrors(p.children[k], types)
    ensures (prefix + ChildrenErrors(p, k, types)) + childErrors == prefix + ChildrenErrors(p, k + 1, types)
  {
    AppendAssociative(prefix, ChildrenErrors(p, k, types), childErrors);
  }

  /** The loop over the classes of one package. */
  method ValidateClasses(path: string, classes: seq<UmlClass>, types: set<string>) returns (errors: seq<ValidationError>)
    ensures errors == ClassesErrors(path, classes, |classes|, types)
  {
    errors := [];
    for i := 0 to |classes|
      invariant errors == ClassesErrors(path, classes, i, types)
    {
      var clsErrors := ValidateClass(path, classes[i], types);
      errors := errors + clsErrors;
    }
  }

  /** The body of the class loop: the class rules, then the attribute loop, which
      threads the "an ID attribute was already seen" flag. */
  method ValidateClass(path: string, cls: UmlClass, types: set<string>) returns (errors: seq<ValidationError>)
    ensures errors == ClassErrors(path, cls, types)
  {
    errors := ValidateClassRules(path, cls);
    var hasId := false;
    for j := 0 to |cls.attributes|
      invariant hasId == SeenId(cls.attributes, j)
      invariant errors == ClassRuleErrors(path, cls) + AttributesErrors(path, cls.name, cls.attributes, j, types)
    {
      var attrErrors;
      attrErrors, hasId := ValidateAttribute(path, cls.name, cls.attributes[j], hasId, types);
      AppendAssociative(ClassRuleErrors(path, cls), AttributesErrors(path, cls.name, cls.attributes, j, types), attrErrors);
      errors := errors + attrErrors;
    }
  }

  /** The domain rule, then the primary-key rule with the polymorphism rule in
      its `elif` branch. */
  method ValidateClassRules(path: string, cls: UmlClass) returns (errors: seq<ValidationError>)
    ensures errors == ClassRuleErrors(path, cls)
  {
    errors := [];
    if cls.domain.None? {
      errors := errors + [ClassError(path, cls.name, NoDomain)];
    }
    assert errors == DomainRuleErrors(path, cls);
    if cls.idAttribute.None? && !cls.isAbstract {
      if cls.supertype.None? || cls.supertype.value.idAttribute.None? {
        errors := errors + [ClassError(path, cls.name, NoPrimaryKey)];
      }
    } else if cls.supertype.Some? {
      if cls.supertype.value.idAttribute.Some? && cls.idAttribute != cls.supertype.value.idAttribute {
        errors := errors + [ClassError(path, cls.name, Polymorphism)];
      }
    }
  }

  /** The body of the attribute loop: the four attribute rules for `attr`, given
      whether an ID attribute was already seen; also returns the updated flag. */
  method ValidateAttribute(path: string, className: string, attr: Attribute, hasId: bool, types: set<string>)
    returns (errors: seq<ValidationError>, hasIdAfter: bool)
    ensures errors == AttributeRuleErrors(path, className, attr, hasId, types)
    ensures hasIdAfter == (hasId || attr.isId)
  {
    errors := [];
    hasIdAfter := hasId;
    if attr.stereotype == Some("auto") && attr.typ != "int" {
      errors := errors + [AttributeError(path, className, attr.name, AutoNotInt)];
    }
    assert errors == AutoRuleErrors(path, className, attr);
    if attr.classification.None? && attr.typ !in types {
      errors := errors + [AttributeError(path, className, attr.name, UnknownType(attr.typ))];
    }
    assert errors == AutoRuleErrors(path, className, attr) + TypeRuleErrors(path, className, attr, types);
    if attr.isId {
      if hasIdAfter {
        errors := errors + [AttributeError(path, className, attr.name, MultipleIds)];
      }
      hasIdAfter := true;
    }
    assert errors == AutoRuleErrors(path, className, attr) + TypeRuleErrors(path, className, attr, types)
                     + IdRuleErrors(path, className, attr, hasId);
    if attr.name == "is_deleted" {
      errors := errors + [AttributeError(path, className, attr.name, ReservedName)];
    }
  }

  lemma AppendAssociative(a: seq<ValidationError>, b: seq<ValidationError>, c: seq<ValidationError>)
    ensures (a + b) + c == a + (b + c)
  {
  }

  /** The `has_id` flag means what it says: some attribute among the first `n`
      is an ID. */
  lemma {:induction false} SeenIdIff(attrs: seq<Attribute>, n: nat)
    requires n <= |attrs|
    ensures SeenId(attrs, n) <==> exists i :: 0 <= i < n && attrs[i].isId
  {
    if n > 0 {
      SeenIdIff(attrs, n - 1);
      if !attrs[n - 1].isId && (exists i :: 0 <= i < n && attrs[i].isId) {
        var i :| 0 <= i < n && attrs[i].isId;
        assert i < n - 1;
      }
    }
  }

  // ---------------------------------------------------------------------------
  // Counting errors
  // ---------------------------------------------------------------------------

  /** The number of class errors with message `m` in `errs`. */
  function CountClassErrors(errs: seq<ValidationError>, m: Message): nat
    decreases |errs|
  {
    if errs == [] then 0
    else
      var e := errs[|errs| - 1];
      CountClassErrors(errs[..|errs| - 1], m) + (if e.ClassError? && e.message == m then 1 else 0)
  }

  /** The number of attribute errors with message `m` in `errs`. */
  function CountAttributeErrors(errs: seq<ValidationError>, m: Message): nat
    decreases |errs|
  {
    if errs == [] then 0
    else
      var e := errs[|errs| - 1];
      CountAttributeErrors(errs[..|errs| - 1], m) + (if e.AttributeError? && e.message == m then 1 else 0)
  }

  lemma {:induction false} CountClassErrorsAppend(a: seq<ValidationError>, b: seq<ValidationError>, m: Message)
    ensures CountClassErrors(a + b, m) == CountClassErrors(a, m) + CountClassErrors(b, m)
    decreases |b|
  {
    if b != [] {
      assert (a + b)[..|a + b| - 1] == a + b[..|b| - 1];
      CountClassErrorsAppend(a, b[..|b| - 1], m);
    } else {
      assert a + b == a;
    }
  }

  lemma {:induction false} CountAttributeErrorsAppend(a: seq<ValidationError>, b: seq<ValidationError>, m: Message)
    ensures CountAttributeErrors(a + b, m) == CountAttributeErrors(a, m) + CountAttributeErrors(b, m)
    decreases |b|
  {
    if b != [] {
      assert (a + b)[..|a + b| - 1] == a + b[..|b| - 1];
      CountAttributeErrorsAppend(a, b[..|b| - 1], m);
    } else {
      assert a + b == a;
    }
  }

  /** Counting in a one-element sequence. */
  lemma CountOne(e: ValidationError, m: Message)
    ensures CountClassErrors([e], m) == (if e.ClassError? && e.message == m then 1 else 0)
    ensures CountAttributeErrors([e], m) == (if e.AttributeError? && e.message == m then 1 else 0)
  {
    assert [e][..0] == [];
  }

  /** The count of `m` in a rule's output: one if the rule fired with message `m`. */
  lemma CountRule(errs: seq<ValidationError>, fired: bool, e: ValidationError, m: Message)
    requires errs == if fired then [e] else []
    ensures CountClassErrors(errs, m) == if fired && e.ClassError? && e.message == m then 1 else 0
    ensures CountAttributeErrors(errs, m) == if fired && e.AttributeError? && e.message == m then 1 else 0
  {
    if fired { CountOne(e, m); }
  }

  /** The concatenation of the first `n` blocks of errors. */
  function Flatten(blocks: seq<seq<ValidationError>>, n: nat): seq<ValidationError>
    requires n <= |blocks|
  {
    if n == 0 then [] else Flatten(blocks, n - 1) + blocks[n - 1]
  }

  /** The class errors with message `m`, counted block by block. */
  function SumClassCounts(blocks: seq<seq<ValidationError>>, n: nat, m: Message): nat
    requires n <= |blocks|
  {
    if n == 0 then 0 else SumClassCounts(blocks, n - 1, m) + CountClassErrors(blocks[n - 1], m)
  }

  /** The attribute errors with message `m`, counted block by block. */
  function SumAttributeCounts(blocks: seq<seq<ValidationError>>, n: nat, m: Message): nat
    requires n <= |blocks|
  {
    if n == 0 then 0 else SumAttributeCounts(blocks, n - 1, m) + CountAttributeErrors(blocks[n - 1], m)
  }

  /** Counting over a concatenation is counting block by block. */
  lemma {:induction false} CountFlatten(blocks: seq<seq<ValidationError>>, n: nat, m: Message)
    requires n <= |blocks|
    ensures CountClassErrors(Flatten(blocks, n), m) == SumClassCounts(blocks, n, m)
    ensures CountAttributeErrors(Flatten(blocks, n), m) == SumAttributeCounts(blocks, n, m)
    decreases n
  {
    if n > 0 {
      CountFlatten(blocks, n - 1, m);
      CountClassErrorsAppend(Flatten(blocks, n - 1), blocks[n - 1], m);
      CountAttributeErrorsAppend(Flatten(blocks, n - 1), blocks[n - 1], m);
    }
  }

  /** Equal prefixes and equal suffixes make equal concatenations. */
  lemma AppendCongruent(a: seq<ValidationError>, b: seq<ValidationError>, c: seq<ValidationError>, d: seq<ValidationError>)
    requires a == c && b == d
    ensures a + b == c + d
  {
  }

  /** The errors of each class of a list, one block per class. */
  function ClassBlocks(path: string, classes: seq<UmlClass>, types: set<string>): seq<seq<ValidationError>>
  {
    seq(|classes|, i requires 0 <= i < |classes| => ClassErrors(path, classes[i], types))
  }

  /** The errors of each attribute of a class, one block per attribute. */
  function AttributeBlocks(path: string, className: string, attrs: seq<Attribute>, types: set<string>)
    : seq<seq<ValidationError>>
  {
    seq(|attrs|, i requires 0 <= i < |attrs| => AttributeRuleErrors(path, className, attrs[i], SeenId(attrs, i), types))
  }

  /** The errors of each child package, one block per child. */
  function ChildBlocks(p: Package, types: set<string>): seq<seq<ValidationError>>
  {
    seq(|p.children|, i requires 0 <= i < |p.children| => PackageErrors(p.children[i], types))
  }

  lemma {:induction false} ClassesErrorsFlatten(
    path: string, classes: seq<UmlClass>, blocks: seq<seq<ValidationError>>, n: nat, types: set<string>)
    requires n <= |classes| == |blocks|
    requires forall i :: 0 <= i < |classes| ==> blocks[i] == ClassErrors(path, classes[i], types)
    ensures ClassesErrors(path, classes, n, types) == Flatten(blocks, n)
    decreases n
  {
    if n > 0 {
      ClassesErrorsFlatten(path, classes, blocks, n - 1, types);
      AppendCongruent(ClassesErrors(path, classes, n - 1, types), ClassErrors(path, classes[n - 1], types),
                      Flatten(blocks, n - 1), blocks[n - 1]);
    }
  }

  lemma {:induction false} AttributesErrorsFlatten(path: string, className: string, attrs: seq<Attribute>,
                                                   blocks: seq<seq<ValidationError>>, n: nat, types: set<string>)
    requires n <= |attrs| == |blocks|
    requires forall i :: 0 <= i < |attrs| ==>
               blocks[i] == AttributeRuleErrors(path, className, attrs[i], SeenId(attrs, i), types)
    ensures AttributesErrors(path, className, attrs, n, types) == Flatten(blocks, n)
    decreases n
  {
    if n > 0 {
      AttributesErrorsFlatten(path, className, attrs, blocks, n - 1, types);
      assert AttributesErrors(path, className, attrs, n, types)
          == AttributesErrors(path, className, attrs, n - 1, types) + blocks[n - 1];
    }
  }

  lemma {:induction false} ChildrenErrorsFlatten(p: Package, blocks: seq<seq<ValidationError>>, n: nat, types: set<string>)
    requires n <= |p.children| == |blocks|
    requires forall i :: 0 <= i < |p.children| ==> blocks[i] == PackageErrors(p.children[i], types)
    ensures ChildrenErrors(p, n, types) == Flatten(blocks, n)
    decreases n
  {
    if n > 0 {
      ChildrenErrorsFlatten(p, blocks, n - 1, types);
      AppendCongruent(ChildrenErrors(p, n - 1, types), PackageErrors(p.children[n - 1], types),
                      Flatten(blocks, n - 1), blocks[n - 1]);
    }
  }

  /** The number of attributes among the first `n` satisfying `P`. */
  function CountAttributes(attrs: seq<Attribute>, n: nat, P: Attribute -> bool): nat
    requires n <= |attrs|
  {
    if n == 0 then 0
    else CountAttributes(attrs, n - 1, P) + (if P(attrs[n - 1]) then 1 else 0)
  }

  predicate IsAutoNotInt(a: Attribute) { a.stereotype == Some("auto") && a.typ != "int" }
  predicate IsReservedName(a: Attribute) { a.name == "is_deleted" }
  predicate IsIdFlagged(a: Attribute) { a.isId }

  // ---------------------------------------------------------------------------
  // Class rules
  // ---------------------------------------------------------------------------

  /** The rules for one attribute only produce attribute errors about it. */
  lemma AttributeErrorsAbout(path: string, className: string, attr: Attribute, seenId: bool, types: set<string>)
    ensures forall e :: e in AttributeRuleErrors(path, className, attr, seenId, types) ==>
              e.AttributeError? && e.path == path && e.className == className && e.attrName == attr.name
  {
  }

  /** Attribute rules only ever produce attribute errors about this class. */
  lemma {:induction false} AttributesErrorsAreAttributeErrors(
    path: string, className: string, attrs: seq<Attribute>, n: nat, types: set<string>)
    requires n <= |attrs|
    ensures forall e :: e in AttributesErrors(path, className, attrs, n, types) ==>
              e.AttributeError? && e.path == path && e.className == className
    decreases n
  {
    if n > 0 {
      var before := AttributesErrors(path, className, attrs, n - 1, types);
      var last := AttributeRuleErrors(path, className, attrs[n - 1], SeenId(attrs, n - 1), types);
      AttributesErrorsAreAttributeErrors(path, className, attrs, n - 1, types);
      AttributeErrorsAbout(path, className, attrs[n - 1], SeenId(attrs, n - 1), types);
      forall e: ValidationError | e in before + last
        ensures e.AttributeError? && e.path == path && e.className == className
      {
        assert e in before || e in last;
      }
    }
  }

  lemma {:induction false} NoClassErrorsCounted(errs: seq<ValidationError>, m: Message)
    requires forall e :: e in errs ==> e.AttributeError?
    ensures CountClassErrors(errs, m) == 0
    decreases |errs|
  {
    if errs != [] {
      assert errs[|errs| - 1] in errs;
      NoClassErrorsCounted(errs[..|errs| - 1], m);
    }
  }

  predicate LacksDomain(c: UmlClass) { c.domain.None? }

  /** The condition of the "no primary key" rule. */
  predicate LacksKey(c: UmlClass)
  {
    c.idAttribute.None? && !c.isAbstract && (c.supertype.None? || c.supertype.value.idAttribute.None?)
  }

  /** The condition of the polymorphism rule, reached only in the `elif`. */
  predicate RedefinesKey(c: UmlClass)
  {
    !(c.idAttribute.None? && !c.isAbstract)
    && c.supertype.Some? && c.supertype.value.idAttribute.Some?
    && c.idAttribute != c.supertype.value.idAttribute
  }

  /** How often a message `m` occurs among a class's class errors: once for each
      class rule that fires with that message. */
  lemma ClassMessageCount(path: string, cls: UmlClass, types: set<string>, m: Message)
    ensures CountClassErrors(ClassErrors(path, cls, types), m)
            == (if LacksDomain(cls) && m == NoDomain then 1 else 0)
               + (if LacksKey(cls) && m == NoPrimaryKey then 1 else 0)
               + (if RedefinesKey(cls) && m == Polymorphism then 1 else 0)
  {
    var attrPart := AttributesErrors(path, cls.name, cls.attributes, |cls.attributes|, types);
    AttributesErrorsAreAttributeErrors(path, cls.name, cls.attributes, |cls.attributes|, types);
    NoClassErrorsCounted(attrPart, m);
    CountClassErrorsAppend(ClassRuleErrors(path, cls), attrPart, m);
    CountClassErrorsAppend(DomainRuleErrors(path, cls), KeyRuleErrors(path, cls), m);
    CountRule(DomainRuleErrors(path, cls), LacksDomain(cls), ClassError(path, cls.name, NoDomain), m);
    if LacksKey(cls) {
      CountRule(KeyRuleErrors(path, cls), true, ClassError(path, cls.name, NoPrimaryKey), m);
    } else {
      CountRule(KeyRuleErrors(path, cls), RedefinesKey(cls), ClassError(path, cls.name, Polymorphism), m);
    }
  }

  /**
   * Exactly how many of each class-level error a class receives:
   * - one "no domain" error iff it has no domain;
   * - one "no primary key" error iff it has no key of its own, is concrete, and
   *   has no supertype or a supertype without a key;
   * - one polymorphism error iff it is not (keyless and concrete), it has a
   *   supertype whose key is set, and its own key differs from that key.
   */
  lemma ClassRuleCounts(path: string, cls: UmlClass, types: set<string>)
    ensures CountClassErrors(ClassErrors(path, cls, types), NoDomain)
            == (if cls.domain.None? then 1 else 0)
    ensures CountClassErrors(ClassErrors(path, cls, types), NoPrimaryKey)
            == (if cls.idAttribute.None? && !cls.isAbstract
                   && (cls.supertype.None? || cls.supertype.value.idAttribute.None?)
                then 1 else 0)
    ensures CountClassErrors(ClassErrors(path, cls, types), Polymorphism)
            == (if !(cls.idAttribute.None? && !cls.isAbstract)
                   && cls.supertype.Some?
                   && cls.supertype.value.idAttribute.Some?
                   && cls.idAttribute != cls.supertype.value.idAttribute
                then 1 else 0)
  {
    ClassMessageCount(path, cls, types, NoDomain);
    ClassMessageCount(path, cls, types, NoPrimaryKey);
    ClassMessageCount(path, cls, types, Polymorphism);
  }

  /** At most one of the two key errors is ever reported for a class. */
  lemma KeyErrorsExclusive(path: string, cls: UmlClass, types: set<string>)
    ensures CountClassErrors(ClassErrors(path, cls, types), NoPrimaryKey)
            + CountClassErrors(ClassErrors(path, cls, types), Polymorphism) <= 1
  {
    ClassRuleCounts(path, cls, types);
  }

  /** A concrete keyless subclass of a keyed supertype gets neither key error;
      an abstract keyless one gets the polymorphism error. */
  lemma KeylessSubclassOfKeyedSupertype(path: string, cls: UmlClass, types: set<string>)
    requires cls.idAttribute.None? && cls.supertype.Some? && cls.supertype.value.idAttribute.Some?
    ensures !cls.isAbstract ==>
              CountClassErrors(ClassErrors(path, cls, types), NoPrimaryKey) == 0
              && CountClassErrors(ClassErrors(path, cls, types), Polymorphism) == 0
    ensures cls.isAbstract ==>
              CountClassErrors(ClassErrors(path, cls, types), Polymorphism) == 1
  {
    ClassRuleCounts(path, cls, types);
  }

  /** The key rules read nothing of the supertype but its key: replacing the
      supertype by any class with the same key (a different grandparent, name or
      attributes) changes no error. */
  lemma OnlyImmediateSupertypeKeyConsulted(path: string, cls: UmlClass, other: UmlClass, types: set<string>)
    requires cls.supertype.Some? && other.idAttribute == cls.supertype.value.idAttribute
    ensures ClassErrors(path, cls.(supertype := Some(other)), types) == ClassErrors(path, cls, types)
  {
  }

  // ---------------------------------------------------------------------------
  // Attribute rules
  // ---------------------------------------------------------------------------

  /** Counting over four consecutive pieces of at most one error each. */
  lemma CountAttributeErrorsFour(a: seq<ValidationError>, u: seq<ValidationError>, d: seq<ValidationError>,
                                 r: seq<ValidationError>, m: Message)
    ensures CountAttributeErrors(a + u + d + r, m)
            == CountAttributeErrors(a, m) + CountAttributeErrors(u, m) + CountAttributeErrors(d, m)
               + CountAttributeErrors(r, m)
  {
    CountAttributeErrorsAppend(a + u + d, r, m);
    CountAttributeErrorsAppend(a + u, d, m);
    CountAttributeErrorsAppend(a, u, m);
  }

  /** How often a message `m` occurs among one attribute's errors: once for each
      rule that fires and has that message. */
  lemma AttributeRuleCount(path: string, className: string, attr: Attribute, seenId: bool, types: set<string>, m: Message)
    ensures CountAttributeErrors(AttributeRuleErrors(path, className, attr, seenId, types), m)
            == (if IsAutoNotInt(attr) && m == AutoNotInt then 1 else 0)
               + (if attr.classification.None? && attr.typ !in types && m == UnknownType(attr.typ) then 1 else 0)
               + (if attr.isId && seenId && m == MultipleIds then 1 else 0)
               + (if IsReservedName(attr) && m == ReservedName then 1 else 0)
  {
    CountAttributeErrorsFour(AutoRuleErrors(path, className, attr), TypeRuleErrors(path, className, attr, types),
      IdRuleErrors(path, className, attr, seenId), ReservedRuleErrors(path, className, attr), m);
    CountRule(AutoRuleErrors(path, className, attr), IsAutoNotInt(attr),
      AttributeError(path, className, attr.name, AutoNotInt), m);
    CountRule(TypeRuleErrors(path, className, attr, types), attr.classification.None? && attr.typ !in types,
      AttributeError(path, className, attr.name, UnknownType(attr.typ)), m);
    CountRule(IdRuleErrors(path, className, attr, seenId), attr.isId && seenId,
      AttributeError(path, className, attr.name, MultipleIds), m);
    CountRule(ReservedRuleErrors(path, className, attr), IsReservedName(attr),
      AttributeError(path, className, attr.name, ReservedName), m);
  }

  /** What the four rules report about one attribute: each message at most once,
      under its own condition, and always about this attribute of this class. */
  lemma AttributeRuleCounts(path: string, className: string, attr: Attribute, seenId: bool, types: set<string>, t: string)
    ensures forall e :: e in AttributeRuleErrors(path, className, attr, seenId, types) ==>
              e.AttributeError? && e.path == path && e.className == className && e.attrName == attr.name
    ensures CountAttributeErrors(AttributeRuleErrors(path, className, attr, seenId, types), AutoNotInt)
            == (if IsAutoNotInt(attr) then 1 else 0)
    ensures CountAttributeErrors(AttributeRuleErrors(path, className, attr, seenId, types), UnknownType(t))
            == (if attr.classification.None? && attr.typ !in types && attr.typ == t then 1 else 0)
    ensures CountAttributeErrors(AttributeRuleErrors(path, className, attr, seenId, types), MultipleIds)
            == (if attr.isId && seenId then 1 else 0)
    ensures CountAttributeErrors(AttributeRuleErrors(path, className, attr, seenId, types), ReservedName)
            == (if IsReservedName(attr) then 1 else 0)
  {
    AttributeErrorsAbout(path, className, attr, seenId, types);
    AttributeRuleCount(path, className, attr, seenId, types, AutoNotInt);
    AttributeRuleCount(path, className, attr, seenId, types, UnknownType(t));
    AttributeRuleCount(path, className, attr, seenId, types, MultipleIds);
    AttributeRuleCount(path, className, attr, seenId, types, ReservedName);
  }

  /** Summing, over attribute blocks, counts of one for the attributes that
      satisfy `P` and zero for the others. */
  lemma {:induction false} HitBlocks(
    attrs: seq<Attribute>, blocks: seq<seq<ValidationError>>, n: nat, m: Message, P: Attribute -> bool)
    requires n <= |attrs| == |blocks|
    requires forall i :: 0 <= i < |attrs| ==> CountAttributeErrors(blocks[i], m) == if P(attrs[i]) then 1 else 0
    ensures SumAttributeCounts(blocks, n, m) == CountAttributes(attrs, n, P)
    decreases n
  {
    if n > 0 {
      HitBlocks(attrs, blocks, n - 1, m, P);
    }
  }

  /** Every "auto" attribute whose type is not "int" yields exactly one error, and
      no other attribute yields one. */
  lemma AutoIncrementErrorCount(
    path: string, className: string, attrs: seq<Attribute>, n: nat, types: set<string>)
    requires n <= |attrs|
    ensures CountAttributeErrors(AttributesErrors(path, className, attrs, n, types), AutoNotInt)
            == CountAttributes(attrs, n, IsAutoNotInt)
  {
    var blocks := AttributeBlocks(path, className, attrs, types);
    AttributesErrorsFlatten(path, className, attrs, blocks, n, types);
    CountFlatten(blocks, n, AutoNotInt);
    forall i | 0 <= i < |attrs|
      ensures CountAttributeErrors(blocks[i], AutoNotInt) == if IsAutoNotInt(attrs[i]) then 1 else 0
    {
      AttributeRuleCount(path, className, attrs[i], SeenId(attrs, i), types, AutoNotInt);
    }
    HitBlocks(attrs, blocks, n, AutoNotInt, IsAutoNotInt);
  }

  /** Every attribute named "is_deleted" yields exactly one reserved-name error,
      whatever its type. */
  lemma ReservedNameErrorCount(
    path: string, className: string, attrs: seq<Attribute>, n: nat, types: set<string>)
    requires n <= |attrs|
    ensures CountAttributeErrors(AttributesErrors(path, className, attrs, n, types), ReservedName)
            == CountAttributes(attrs, n, IsReservedName)
  {
    var blocks := AttributeBlocks(path, className, attrs, types);
    AttributesErrorsFlatten(path, className, attrs, blocks, n, types);
    CountFlatten(blocks, n, ReservedName);
    forall i | 0 <= i < |attrs|
      ensures CountAttributeErrors(blocks[i], ReservedName) == if IsReservedName(attrs[i]) then 1 else 0
    {
      AttributeRuleCount(path, className, attrs[i], SeenId(attrs, i), types, ReservedName);
    }
    HitBlocks(attrs, blocks, n, ReservedName, IsReservedName);
  }

  lemma {:induction false} SeenIdIffCounted(attrs: seq<Attribute>, n: nat)
    requires n <= |attrs|
    ensures SeenId(attrs, n) <==> CountAttributes(attrs, n, IsIdFlagged) > 0
    decreases n
  {
    if n > 0 {
      SeenIdIffCounted(attrs, n - 1);
    }
  }

  /** A class with k >= 1 ID attributes gets exactly k - 1 "multiple ID" errors
      (the i-th attribute gets one iff it is an ID and an earlier one was); with
      none it gets none. */
  lemma MultipleIdErrorCount(
    path: string, className: string, attrs: seq<Attribute>, n: nat, types: set<string>)
    requires n <= |attrs|
    ensures var k := CountAttributes(attrs, n, IsIdFlagged);
      CountAttributeErrors(AttributesErrors(path, className, attrs, n, types), MultipleIds)
      == if k == 0 then 0 else k - 1
  {
    var blocks := AttributeBlocks(path, className, attrs, types);
    AttributesErrorsFlatten(path, className, attrs, blocks, n, types);
    CountFlatten(blocks, n, MultipleIds);
    forall i | 0 <= i < |attrs|
      ensures CountAttributeErrors(blocks[i], MultipleIds) == if attrs[i].isId && SeenId(attrs, i) then 1 else 0
    {
      AttributeRuleCount(path, className, attrs[i], SeenId(attrs, i), types, MultipleIds);
    }
    MultipleIdBlocks(attrs, blocks, n);
  }

  lemma {:induction false} MultipleIdBlocks(attrs: seq<Attribute>, blocks: seq<seq<ValidationError>>, n: nat)
    requires n <= |attrs| == |blocks|
    requires forall i :: 0 <= i < |attrs| ==>
               CountAttributeErrors(blocks[i], MultipleIds) == if attrs[i].isId && SeenId(attrs, i) then 1 else 0
    ensures var k := CountAttributes(attrs, n, IsIdFlagged);
      SumAttributeCounts(blocks, n, MultipleIds) == if k == 0 then 0 else k - 1
    decreases n
  {
    if n > 0 {
      MultipleIdBlocks(attrs, blocks, n - 1);
      SeenIdIffCounted(attrs, n - 1);
    }
  }

  // ---------------------------------------------------------------------------
  // The whole tree
  // ---------------------------------------------------------------------------

  /** The number of classes among the first `n` satisfying `P`. */
  function CountClasses(classes: seq<UmlClass>, n: nat, P: UmlClass -> bool): nat
    requires n <= |classes|
  {
    if n == 0 then 0
    else CountClasses(classes, n - 1, P) + (if P(classes[n - 1]) then 1 else 0)
  }

  /** The number of classes satisfying `P` in the whole tree under `p`. */
  function TreeCountClasses(p: Package, P: UmlClass -> bool): nat
    decreases p, |p.children| + 1
  {
    CountClasses(p.classes, |p.classes|, P) + ChildrenCountClasses(p, |p.children|, P)
  }

  function ChildrenCountClasses(p: Package, n: nat, P: UmlClass -> bool): nat
    requires n <= |p.children|
    decreases p, n
  {
    if n == 0 then 0 else ChildrenCountClasses(p, n - 1, P) + TreeCountClasses(p.children[n - 1], P)
  }

  lemma ClassesNoDomainCount(path: string, classes: seq<UmlClass>, n: nat, types: set<string>)
    requires n <= |classes|
    ensures CountClassErrors(ClassesErrors(path, classes, n, types), NoDomain) == CountClasses(classes, n, LacksDomain)
  {
    var blocks := ClassBlocks(path, classes, types);
    ClassesErrorsFlatten(path, classes, blocks, n, types);
    CountFlatten(blocks, n, NoDomain);
    forall i | 0 <= i < |classes|
      ensures CountClassErrors(blocks[i], NoDomain) == if LacksDomain(classes[i]) then 1 else 0
    {
      ClassMessageCount(path, classes[i], types, NoDomain);
    }
    DomainBlocks(classes, blocks, n);
  }

  /** Summing per-class counts of one or zero. */
  lemma {:induction false} DomainBlocks(classes: seq<UmlClass>, blocks: seq<seq<ValidationError>>, n: nat)
    requires n <= |classes| == |blocks|
    requires forall i :: 0 <= i < |classes| ==>
               CountClassErrors(blocks[i], NoDomain) == if LacksDomain(classes[i]) then 1 else 0
    ensures SumClassCounts(blocks, n, NoDomain) == CountClasses(classes, n, LacksDomain)
    decreases n
  {
    if n > 0 {
      DomainBlocks(classes, blocks, n - 1);
    }
  }

  /** The walk is exhaustive: over the whole tree, the number of "no domain"
      errors equals the number of classes, at any depth, that lack a domain. */
  lemma {:induction false} TreeNoDomainCount(p: Package, types: set<string>)
    ensures CountClassErrors(PackageErrors(p, types), NoDomain) == TreeCountClasses(p, LacksDomain)
    decreases p, |p.children| + 1
  {
    ClassesNoDomainCount(p.path, p.classes, |p.classes|, types);
    ChildrenNoDomainCount(p, |p.children|, types);
    CountClassErrorsAppend(ClassesErrors(p.path, p.classes, |p.classes|, types), ChildrenErrors(p, |p.children|, types), NoDomain);
  }

  lemma {:induction false} ChildrenNoDomainCount(p: Package, n: nat, types: set<string>)
    requires n <= |p.children|
    ensures CountClassErrors(ChildrenErrors(p, n, types), NoDomain) == ChildrenCountClasses(p, n, LacksDomain)
    decreases p, n
  {
    var blocks := ChildBlocks(p, types);
    ChildrenErrorsFlatten(p, blocks, n, types);
    CountFlatten(blocks, n, NoDomain);
    forall i | 0 <= i < |p.children|
      ensures CountClassErrors(blocks[i], NoDomain) == TreeCountClasses(p.children[i], LacksDomain)
    {
      TreeNoDomainCount(p.children[i], types);
    }
    ChildBlocksNoDomain(p, blocks, n);
  }

  /** Summing the children's counts. */
  lemma {:induction false} ChildBlocksNoDomain(p: Package, blocks: seq<seq<ValidationError>>, n: nat)
    requires n <= |p.children| == |blocks|
    requires forall i :: 0 <= i < |p.children| ==>
               CountClassErrors(blocks[i], NoDomain) == TreeCountClasses(p.children[i], LacksDomain)
    ensures SumClassCounts(blocks, n, NoDomain) == ChildrenCountClasses(p, n, LacksDomain)
    decreases n
  {
    if n > 0 {
      ChildBlocksNoDomain(p, blocks, n - 1);
    }
  }
}
