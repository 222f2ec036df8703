/** The decision logic of the code generator: which (template rule, model
    element) pairs `output_model` renders, in which order, and the writes of
    `output_test_cases`. Template rendering and the file system are not modelled
    as such: an `Engine` value stands for the template engine and path
    resolution, and the generator's effect is the ordered stream of files it
    writes. */
module Generator {
  import opened Wrappers
  import opened UmlModel
  import opened Serializer

  // ---------------------------------------------------------------------------
  // Recipes, candidates and the template engine
  // ---------------------------------------------------------------------------

  /** The level strings the generator dispatches on. The association level is
      spelt as the dispatch spells it; a rule that says "association" matches
      no branch. */
  const PackageLevel: string := "package"
  const ClassLevel: string := "class"
  const EnumerationLevel: string := "enumeration"
  const AssociationLevel: string := "assocication"

  /** One entry of the recipe's `templates` list: the template file, the
      file-name template, the level and the optional filter template. */
  datatype TemplateRule = TemplateRule(source: string, dest: string, level: string, filter: Option<string>)

  /** The object a template is rendered with (`package=`, `cls=`, `enum=`,
      `association=` or, for test cases, `ins=`). */
  datatype Candidate =
    | PackageCandidate(package: Package)
    | ClassCandidate(cls: UmlClass)
    | EnumerationCandidate(enumeration: Enumeration)
    | AssociationCandidate(association: Association)
    | InstanceCandidate(instance: Instance)

  /** The template engine and path resolution, left abstract: rendering an
      inline template text, rendering a template file by name, and making a
      path absolute. */
  datatype Engine = Engine(
    renderText: (string, Candidate) -> string,
    renderFile: (string, Candidate) -> string,
    absPath: string -> string)

  /** A file written by `output_model`: its absolute path and its text. */
  datatype FileWrite = FileWrite(path: string, content: string)

  /** The decision to render rule number `index` for `candidate`. */
  datatype Emission = Emission(index: nat, rule: TemplateRule, candidate: Candidate)

  /** A rule fires for a candidate when it has no filter or its filter renders
      to exactly "True". */
  predicate Matches(engine: Engine, rule: TemplateRule, c: Candidate)
  {
    rule.filter.None? || engine.renderText(rule.filter.value, c) == "True"
  }

  /** The four levels the generator dispatches on, and every other string. */
  datatype Level = PackageRule | ClassRule | EnumerationRule | AssociationRule | UnknownRule

  /** The branch a level string takes: the literals are compared in the order of
      the dispatch. */
  function LevelOf(level: string): (l: Level)
    ensures l == UnknownRule <==> level !in {PackageLevel, ClassLevel, EnumerationLevel, AssociationLevel}
  {
    if level == PackageLevel then PackageRule
    else if level == ClassLevel then ClassRule
    else if level == EnumerationLevel then EnumerationRule
    else if level == AssociationLevel then AssociationRule
    else UnknownRule
  }

  /** The candidates a rule of the given level looks at in one package, in list
      order; an unknown level looks at none. */
  function Candidates(level: Level, p: Package): seq<Candidate>
  {
    match level
    case PackageRule => [PackageCandidate(p)]
    case ClassRule => seq(|p.classes|, i requires 0 <= i < |p.classes| => ClassCandidate(p.classes[i]))
    case EnumerationRule => seq(|p.enumerations|, i requires 0 <= i < |p.enumerations| => EnumerationCandidate(p.enumerations[i]))
    case AssociationRule => seq(|p.associations|, i requires 0 <= i < |p.associations| => AssociationCandidate(p.associations[i]))
    case UnknownRule => []
  }

  /** The kind of candidate a level selects. */
  predicate Fits(level: Level, c: Candidate)
  {
    match level
    case PackageRule => c.PackageCandidate?
    case ClassRule => c.ClassCandidate?
    case EnumerationRule => c.EnumerationCandidate?
    case AssociationRule => c.AssociationCandidate?
    case UnknownRule => false
  }

  // ---------------------------------------------------------------------------
  // What output_model decides
  // ---------------------------------------------------------------------------

  /** The candidates a rule's filter accepts, in order. */
  function Matching(engine: Engine, rule: TemplateRule, cands: seq<Candidate>): seq<Candidate>
  {
    if |cands| == 0 then []
    else (if Matches(engine, rule, cands[0]) then [cands[0]] else []) + Matching(engine, rule, cands[1..])
  }

  /** The emissions of rule `index` for the given candidates. */
  function Tag(index: nat, rule: TemplateRule, cands: seq<Candidate>): seq<Emission>
  {
    if |cands| == 0 then [] else [Emission(index, rule, cands[0])] + Tag(index, rule, cands[1..])
  }

  /** The emissions of one rule in one package. */
  function RuleEmissions(engine: Engine, index: nat, rule: TemplateRule, p: Package): seq<Emission>
  {
    Tag(index, rule, Matching(engine, rule, Candidates(LevelOf(rule.level), p)))
  }

  /** The emissions of the first `n` rules in one package, in recipe order. */
  function LocalEmissions(engine: Engine, rules: seq<TemplateRule>, p: Package, n: nat): seq<Emission>
    requires n <= |rules|
  {
    if n == 0 then [] else LocalEmissions(engine, rules, p, n - 1) + RuleEmissions(engine, n - 1, rules[n - 1], p)
  }

  /** The emissions of a package tree: all rules on this package, then each
      child's tree in child order. */
  function TreeEmissions(engine: Engine, rules: seq<TemplateRule>, p: Package): seq<Emission>
    decreases p, |p.children| + 1
  {
    LocalEmissions(engine, rules, p, |rules|) + ChildrenEmissions(engine, rules, p, |p.children|)
  }

  function ChildrenEmissions(engine: Engine, rules: seq<TemplateRule>, p: Package, n: nat): seq<Emission>
    requires n <= |p.children|
    decreases p, n
  {
    if n == 0 then [] else ChildrenEmissions(engine, rules, p, n - 1) + TreeEmissions(engine, rules, p.children[n - 1])
  }

  /** The file an emission writes: the rendered file name made absolute, holding
      the rendered template file. */
  function WriteOf(engine: Engine, e: Emission): FileWrite
  {
    FileWrite(engine.absPath(engine.renderText(e.rule.dest, e.candidate)), engine.renderFile(e.rule.source, e.candidate))
  }

  function WritesOf(engine: Engine, es: seq<Emission>): seq<FileWrite>
  {
    if |es| == 0 then [] else [WriteOf(engine, es[0])] + WritesOf(engine, es[1..])
  }

  // ---------------------------------------------------------------------------
  // The generator loops
  // ---------------------------------------------------------------------------

  /** Every rule on this package in recipe order, then every child package. */
  method OutputModel(engine: Engine, rules: seq<TemplateRule>, package: Package) returns (writes: seq<FileWrite>)
    ensures writes == WritesOf(engine, TreeEmissions(engine, rules, package))
    decreases package, 1
  {
    var localWrites := OutputRules(engine, rules, package);
    var childWrites := OutputChildren(engine, rules, package);
    WritesOfAppend(engine, LocalEmissions(engine, rules, package, |rules|), ChildrenEmissions(engine, rules, package, |package.children|));
    writes := localWrites + childWrites;
  }

  /** The loop over the child packages. */
  method OutputChildren(engine: Engine, rules: seq<TemplateRule>, package: Package) returns (writes: seq<FileWrite>)
    ensures writes == WritesOf(engine, ChildrenEmissions(engine, rules, package, |package.children|))
    decreases package, 0
  {
    writes := [];
    for k := 0 to |package.children|
      invariant writes == WritesOf(engine, ChildrenEmissions(engine, rules, package, k))
    {
      var childWrites := OutputModel(engine, rules, package.children[k]);
      WritesOfAppend(engine, ChildrenEmissions(engine, rules, package, k), TreeEmissions(engine, rules, package.children[k]));
      writes := writes + childWrites;
    }
  }

  /** The loop over the recipe's rules for one package. */
  method OutputRules(engine: Engine, rules: seq<TemplateRule>, package: Package) returns (writes: seq<FileWrite>)
    ensures writes == WritesOf(engine, LocalEmissions(engine, rules, package, |rules|))
  {
    writes := [];
    for r := 0 to |rules|
      invariant writes == WritesOf(engine, LocalEmissions(engine, rules, package, r))
    {
      var ruleWrites := OutputRule(engine, r, rules[r], package);
      WritesOfAppend(engine, LocalEmissions(engine, rules, package, r), RuleEmissions(engine, r, rules[r], package));
      writes := writes + ruleWrites;
    }
  }

  /** The level dispatch for one rule on one package. */
  method OutputRule(engine: Engine, index: nat, rule: TemplateRule, package: Package) returns (writes: seq<FileWrite>)
    ensures writes == WritesOf(engine, RuleEmissions(engine, index, rule, package))
  {
    if rule.level == PackageLevel {
      var c := PackageCandidate(package);
      if Matches(engine, rule, c) {
        writes := [WriteOf(engine, Emission(index, rule, c))];
      } else {
        writes := [];
      }
      assert Candidates(LevelOf(rule.level), package) == [c];
      assert [c][1..] == [];
      assert Matching(engine, rule, [c]) == if Matches(engine, rule, c) then [c] else [];
      if Matches(engine, rule, c) {
        assert Tag(index, rule, [c]) == [Emission(index, rule, c)];
        assert WritesOf(engine, [Emission(index, rule, c)]) == writes;
      }
    } else if rule.level == ClassLevel {
      assert LevelOf(rule.level) == ClassRule;
      writes := OutputMatching(engine, index, rule, Candidates(ClassRule, package));
    } else if rule.level == EnumerationLevel {
      assert LevelOf(rule.level) == EnumerationRule;
      writes := OutputMatching(engine, index, rule, Candidates(EnumerationRule, package));
    } else if rule.level == AssociationLevel {
      assert LevelOf(rule.level) == AssociationRule;
      writes := OutputMatching(engine, index, rule, Candidates(AssociationRule, package));
    } else {
      writes := [];
    }
  }

  /** The loop over the elements of one level: one write per element the rule's
      filter accepts. */
  method OutputMatching(engine: Engine, index: nat, rule: TemplateRule, cands: seq<Candidate>) returns (writes: seq<FileWrite>)
    ensures writes == WritesOf(engine, Tag(index, rule, Matching(engine, rule, cands)))
  {
    writes := [];
    for i := 0 to |cands|
      invariant writes == WritesOf(engine, Tag(index, rule, Matching(engine, rule, cands[..i])))
    {
      var c := cands[i];
      MatchingStep(engine, rule, cands, i);
      var accepted := Matching(engine, rule, cands[..i]);
      TagAppend(index, rule, accepted, Matching(engine, rule, [c]));
      WritesOfAppend(engine, Tag(index, rule, accepted), Tag(index, rule, Matching(engine, rule, [c])));
      if Matches(engine, rule, c) {
        writes := writes + [WriteOf(engine, Emission(index, rule, c))];
      }
    }
    assert cands[..|cands|] == cands;
  }

  // ---------------------------------------------------------------------------
  // Sequence helpers
  // ---------------------------------------------------------------------------

  /** One write per emission, in emission order. */
  lemma {:induction false} WritesOfAppend(engine: Engine, a: seq<Emission>, b: seq<Emission>)
    ensures WritesOf(engine, a + b) == WritesOf(engine, a) + WritesOf(engine, b)
    decreases |a|
  {
    if |a| > 0 {
      assert (a + b)[1..] == a[1..] + b;
      WritesOfAppend(engine, a[1..], b);
    } else {
      assert a + b == b;
    }
  }

  lemma {:induction false} WritesOfLength(engine: Engine, es: seq<Emission>)
    ensures |WritesOf(engine, es)| == |es|
    ensures forall i :: 0 <= i < |es| ==> WritesOf(engine, es)[i] == WriteOf(engine, es[i])
    decreases |es|
  {
    if |es| > 0 {
      WritesOfLength(engine, es[1..]);
    }
  }

  lemma {:induction false} TagAppend(index: nat, rule: TemplateRule, a: seq<Candidate>, b: seq<Candidate>)
    ensures Tag(index, rule, a + b) == Tag(index, rule, a) + Tag(index, rule, b)
    decreases |a|
  {
    if |a| > 0 {
      assert (a + b)[1..] == a[1..] + b;
      TagAppend(index, rule, a[1..], b);
    } else {
      assert a + b == b;
    }
  }

  lemma {:induction false} MatchingAppend(engine: Engine, rule: TemplateRule, a: seq<Candidate>, b: seq<Candidate>)
    ensures Matching(engine, rule, a + b) == Matching(engine, rule, a) + Matching(engine, rule, b)
    decreases |a|
  {
    if |a| > 0 {
      assert (a + b)[1..] == a[1..] + b;
      MatchingAppend(engine, rule, a[1..], b);
    } else {
      assert a + b == b;
    }
  }

  /** The filter loop's step: one more candidate adds itself when accepted. */
  lemma MatchingStep(engine: Engine, rule: TemplateRule, cands: seq<Candidate>, i: nat)
    requires i < |cands|
    ensures Matching(engine, rule, cands[..i + 1]) == Matching(engine, rule, cands[..i]) + Matching(engine, rule, [cands[i]])
    ensures Matching(engine, rule, [cands[i]]) == if Matches(engine, rule, cands[i]) then [cands[i]] else []
  {
    assert cands[..i + 1] == cands[..i] + [cands[i]];
    MatchingAppend(engine, rule, cands[..i], [cands[i]]);
    assert [cands[i]][1..] == [];
  }

  // ---------------------------------------------------------------------------
  // Soundness: what is written is a matching candidate of the rule's level
  // ---------------------------------------------------------------------------

  /** An emission names a rule of the recipe, whose filter accepts a candidate of
      the rule's level. */
  predicate Sound(engine: Engine, rules: seq<TemplateRule>, e: Emission)
  {
    e.index < |rules| && e.rule == rules[e.index] && Matches(engine, e.rule, e.candidate) && Fits(LevelOf(e.rule.level), e.candidate)
  }

  /** A level looks only at elements of its own kind. */
  lemma CandidatesFit(level: Level, p: Package)
    ensures forall c :: c in Candidates(level, p) ==> Fits(level, c)
  {
  }

  lemma {:induction false} MatchingSound(engine: Engine, rule: TemplateRule, cands: seq<Candidate>)
    ensures forall c :: c in Matching(engine, rule, cands) ==> c in cands && Matches(engine, rule, c)
    decreases |cands|
  {
    if |cands| > 0 {
      MatchingSound(engine, rule, cands[1..]);
    }
  }

  lemma {:induction false} TagSound(index: nat, rule: TemplateRule, cands: seq<Candidate>)
    ensures forall e :: e in Tag(index, rule, cands) ==> e.index == index && e.rule == rule && e.candidate in cands
    decreases |cands|
  {
    if |cands| > 0 {
      TagSound(index, rule, cands[1..]);
    }
  }

  lemma RuleSound(engine: Engine, rules: seq<TemplateRule>, index: nat, p: Package)
    requires index < |rules|
    ensures forall e :: e in RuleEmissions(engine, index, rules[index], p) ==> Sound(engine, rules, e)
  {
    var cands := Candidates(LevelOf(rules[index].level), p);
    CandidatesFit(LevelOf(rules[index].level), p);
    MatchingSound(engine, rules[index], cands);
    TagSound(index, rules[index], Matching(engine, rules[index], cands));
  }

  lemma {:induction false} LocalSound(engine: Engine, rules: seq<TemplateRule>, p: Package, n: nat)
    requires n <= |rules|
    ensures forall e :: e in LocalEmissions(engine, rules, p, n) ==> Sound(engine, rules, e)
  {
    if n > 0 {
      LocalSound(engine, rules, p, n - 1);
      RuleSound(engine, rules, n - 1, p);
    }
  }

  /** Everything `output_model` writes comes from a rule of the recipe whose
      filter accepts an element of the rule's level. */
  lemma {:induction false} TreeSound(engine: Engine, rules: seq<TemplateRule>, p: Package)
    ensures forall e :: e in TreeEmissions(engine, rules, p) ==> Sound(engine, rules, e)
    decreases p, |p.children| + 1
  {
    LocalSound(engine, rules, p, |rules|);
    ChildrenSound(engine, rules, p, |p.children|);
  }

  lemma {:induction false} ChildrenSound(engine: Engine, rules: seq<TemplateRule>, p: Package, n: nat)
    requires n <= |p.children|
    ensures forall e :: e in ChildrenEmissions(engine, rules, p, n) ==> Sound(engine, rules, e)
    decreases p, n
  {
    if n > 0 {
      ChildrenSound(engine, rules, p, n - 1);
      TreeSound(engine, rules, p.children[n - 1]);
    }
  }

  // ---------------------------------------------------------------------------
  // Per-rule projection: a rule renders the matching candidates of the whole
  // tree, in pre-order
  // ---------------------------------------------------------------------------

  /** The candidates rule `r` was rendered for, in emission order. */
  function CandidatesOf(es: seq<Emission>, r: nat): seq<Candidate>
  {
    if |es| == 0 then [] else (if es[0].index == r then [es[0].candidate] else []) + CandidatesOf(es[1..], r)
  }

  /** The candidates of a level in a whole tree, package by package in pre-order. */
  function TreeCandidates(level: Level, p: Package): seq<Candidate>
    decreases p, |p.children| + 1
  {
    Candidates(level, p) + ChildrenCandidates(level, p, |p.children|)
  }

  function ChildrenCandidates(level: Level, p: Package, n: nat): seq<Candidate>
    requires n <= |p.children|
    decreases p, n
  {
    if n == 0 then [] else ChildrenCandidates(level, p, n - 1) + TreeCandidates(level, p.children[n - 1])
  }

  lemma {:induction false} CandidatesOfAppend(a: seq<Emission>, b: seq<Emission>, r: nat)
    ensures CandidatesOf(a + b, r) == CandidatesOf(a, r) + CandidatesOf(b, r)
    decreases |a|
  {
    if |a| > 0 {
      assert (a + b)[1..] == a[1..] + b;
      CandidatesOfAppend(a[1..], b, r);
    } else {
      assert a + b == b;
    }
  }

  /** The emissions of one rule project back onto exactly its candidates. */
  lemma {:induction false} CandidatesOfTag(index: nat, rule: TemplateRule, cands: seq<Candidate>, r: nat)
    ensures CandidatesOf(Tag(index, rule, cands), r) == if r == index then cands else []
    decreases |cands|
  {
    if |cands| > 0 {
      CandidatesOfTag(index, rule, cands[1..], r);
      assert Tag(index, rule, cands)[1..] == Tag(index, rule, cands[1..]);
      assert [cands[0]] + cands[1..] == cands;
    }
  }

  /** One rule in one package is rendered for the candidates of its level that
      its filter accepts, and no other rule's emissions come from it. */
  lemma RuleProjection(engine: Engine, index: nat, rule: TemplateRule, p: Package, r: nat)
    ensures CandidatesOf(RuleEmissions(engine, index, rule, p), r) ==
              if r == index then Matching(engine, rule, Candidates(LevelOf(rule.level), p)) else []
  {
    CandidatesOfTag(index, rule, Matching(engine, rule, Candidates(LevelOf(rule.level), p)), r);
  }

  /** What each rule of the recipe accepts in one package, rule by rule. */
  function Accepted(engine: Engine, rules: seq<TemplateRule>, p: Package): seq<seq<Candidate>>
  {
    seq(|rules|, i requires 0 <= i < |rules| => Matching(engine, rules[i], Candidates(LevelOf(rules[i].level), p)))
  }

  /** The emissions of the first `n` rules, given what each rule accepts. */
  function Stacked(rules: seq<TemplateRule>, accepted: seq<seq<Candidate>>, n: nat): seq<Emission>
    requires n <= |rules| && n <= |accepted|
  {
    if n == 0 then [] else Stacked(rules, accepted, n - 1) + Tag(n - 1, rules[n - 1], accepted[n - 1])
  }

  /** The emissions of one package's rules are those of the rules stacked with
      what each accepts. */
  lemma {:induction false} LocalIsStacked(engine: Engine, rules: seq<TemplateRule>, p: Package, n: nat)
    requires n <= |rules|
    ensures LocalEmissions(engine, rules, p, n) == Stacked(rules, Accepted(engine, rules, p), n)
  {
    if n > 0 {
      LocalIsStacked(engine, rules, p, n - 1);
    }
  }

  /** Appending one rule's emissions adds its candidates to that rule's
      projection and nothing to any other rule's. */
  lemma StackStep(before: seq<Emission>, index: nat, rule: TemplateRule, cands: seq<Candidate>, r: nat)
    ensures r == index ==> CandidatesOf(before + Tag(index, rule, cands), r) == CandidatesOf(before, r) + cands
    ensures r == index && CandidatesOf(before, r) == [] ==> CandidatesOf(before + Tag(index, rule, cands), r) == cands
    ensures r != index ==> CandidatesOf(before + Tag(index, rule, cands), r) == CandidatesOf(before, r)
  {
    CandidatesOfAppend(before, Tag(index, rule, cands), r);
    CandidatesOfTag(index, rule, cands, r);
    if r != index {
      assert CandidatesOf(before, r) + [] == CandidatesOf(before, r);
    } else if CandidatesOf(before, r) == [] {
      assert [] + cands == cands;
    }
  }

  /** Rules from `n` on have no emissions among those of the first `n` rules. */
  lemma {:induction false} StackedProjectionOther(rules: seq<TemplateRule>, accepted: seq<seq<Candidate>>, n: nat, r: nat)
    requires n <= |rules| && n <= |accepted| && n <= r
    ensures CandidatesOf(Stacked(rules, accepted, n), r) == []
  {
    if n > 0 {
      StackedProjectionOther(rules, accepted, n - 1, r);
      StackStep(Stacked(rules, accepted, n - 1), n - 1, rules[n - 1], accepted[n - 1], r);
    }
  }

  /** Among the first `n` rules, rule `r < n` is rendered for exactly what it
      accepts. */
  lemma {:induction false} StackedProjection(rules: seq<TemplateRule>, accepted: seq<seq<Candidate>>, n: nat, r: nat)
    requires r < n <= |rules| && n <= |accepted|
    ensures CandidatesOf(Stacked(rules, accepted, n), r) == accepted[r]
  {
    StackStep(Stacked(rules, accepted, n - 1), n - 1, rules[n - 1], accepted[n - 1], r);
    if r == n - 1 {
      StackedProjectionOther(rules, accepted, n - 1, r);
    } else {
      StackedProjection(rules, accepted, n - 1, r);
    }
  }

  /** In one package, rule `r` is rendered for exactly the candidates of its
      level that its filter accepts. */
  lemma LocalProjection(engine: Engine, rules: seq<TemplateRule>, p: Package, r: nat)
    requires r < |rules|
    ensures CandidatesOf(LocalEmissions(engine, rules, p, |rules|), r) == Matching(engine, rules[r], Candidates(LevelOf(rules[r].level), p))
  {
    LocalIsStacked(engine, rules, p, |rules|);
    StackedProjection(rules, Accepted(engine, rules, p), |rules|, r);
  }

  /** Rule `r` is rendered for exactly the candidates of its level in the whole
      tree that its filter accepts, in pre-order: every child is visited whether
      or not anything matched above it. */
  lemma {:induction false} TreeProjection(engine: Engine, rules: seq<TemplateRule>, p: Package, r: nat)
    requires r < |rules|
    ensures CandidatesOf(TreeEmissions(engine, rules, p), r) == Matching(engine, rules[r], TreeCandidates(LevelOf(rules[r].level), p))
    decreases p, |p.children| + 1
  {
    LocalProjection(engine, rules, p, r);
    ChildrenProjection(engine, rules, p, |p.children|, r);
    CandidatesOfAppend(LocalEmissions(engine, rules, p, |rules|), ChildrenEmissions(engine, rules, p, |p.children|), r);
    MatchingAppend(engine, rules[r], Candidates(LevelOf(rules[r].level), p), ChildrenCandidates(LevelOf(rules[r].level), p, |p.children|));
  }

  lemma {:induction false} ChildrenProjection(engine: Engine, rules: seq<TemplateRule>, p: Package, n: nat, r: nat)
    requires r < |rules|
    requires n <= |p.children|
    ensures CandidatesOf(ChildrenEmissions(engine, rules, p, n), r) ==
              Matching(engine, rules[r], ChildrenCandidates(LevelOf(rules[r].level), p, n))
    decreases p, n
  {
    if n > 0 {
      ChildrenProjection(engine, rules, p, n - 1, r);
      TreeProjection(engine, rules, p.children[n - 1], r);
      CandidatesOfAppend(ChildrenEmissions(engine, rules, p, n - 1), TreeEmissions(engine, rules, p.children[n - 1]), r);
      MatchingAppend(engine, rules[r], ChildrenCandidates(LevelOf(rules[r].level), p, n - 1), TreeCandidates(LevelOf(rules[r].level), p.children[n - 1]));
    }
  }

  // ---------------------------------------------------------------------------
  // Consequences for filters and levels
  // ---------------------------------------------------------------------------

  /** A filter keeps at most every candidate; no filter keeps them all; a filter
      that never renders "True" keeps none. */
  lemma {:induction false} MatchingBounded(engine: Engine, rule: TemplateRule, cands: seq<Candidate>)
    ensures |Matching(engine, rule, cands)| <= |cands|
    ensures rule.filter.None? ==> Matching(engine, rule, cands) == cands
    ensures (rule.filter.Some? && forall c :: engine.renderText(rule.filter.value, c) != "True") ==>
              Matching(engine, rule, cands) == []
    decreases |cands|
  {
    if |cands| > 0 {
      MatchingBounded(engine, rule, cands[1..]);
      assert [cands[0]] + cands[1..] == cands;
    }
  }

  /** In one package a rule writes at most once for the package itself or once
      per class, enumeration or association, by its level; any other level
      string writes nothing there. */
  lemma LocalCountBound(engine: Engine, rules: seq<TemplateRule>, p: Package, r: nat)
    requires r < |rules|
    ensures |CandidatesOf(LocalEmissions(engine, rules, p, |rules|), r)| <=
        match LevelOf(rules[r].level)
        case PackageRule => 1
        case ClassRule => |p.classes|
        case EnumerationRule => |p.enumerations|
        case AssociationRule => |p.associations|
        case UnknownRule => 0
  {
    LocalProjection(engine, rules, p, r);
    MatchingBounded(engine, rules[r], Candidates(LevelOf(rules[r].level), p));
  }

  lemma {:induction false} TreeCandidatesUnknownLevel(p: Package)
    ensures TreeCandidates(UnknownRule, p) == []
    decreases p, |p.children| + 1
  {
    ChildrenCandidatesUnknownLevel(p, |p.children|);
  }

  lemma {:induction false} ChildrenCandidatesUnknownLevel(p: Package, n: nat)
    requires n <= |p.children|
    ensures ChildrenCandidates(UnknownRule, p, n) == []
    decreases p, n
  {
    if n > 0 {
      ChildrenCandidatesUnknownLevel(p, n - 1);
      TreeCandidatesUnknownLevel(p.children[n - 1]);
    }
  }

  /** A rule whose level is none of the four dispatched strings never writes. */
  lemma UnknownLevelWritesNothing(engine: Engine, rules: seq<TemplateRule>, p: Package, r: nat)
    requires r < |rules|
    requires rules[r].level !in {PackageLevel, ClassLevel, EnumerationLevel, AssociationLevel}
    ensures CandidatesOf(TreeEmissions(engine, rules, p), r) == []
  {
    TreeProjection(engine, rules, p, r);
    TreeCandidatesUnknownLevel(p);
  }

  /** In particular a rule whose level is the correctly spelt "association"
      never writes. */
  lemma AssociationSpeltRightWritesNothing(engine: Engine, rules: seq<TemplateRule>, p: Package, r: nat)
    requires r < |rules|
    requires rules[r].level == "association"
    ensures CandidatesOf(TreeEmissions(engine, rules, p), r) == []
  {
    UnknownLevelWritesNothing(engine, rules, p, r);
  }

  /** A rule without a filter is rendered for every candidate of its level in the
      whole tree; a filter that never renders "True" writes nothing. */
  lemma FilterExtremes(engine: Engine, rules: seq<TemplateRule>, p: Package, r: nat)
    requires r < |rules|
    ensures rules[r].filter.None? ==> CandidatesOf(TreeEmissions(engine, rules, p), r) == TreeCandidates(LevelOf(rules[r].level), p)
    ensures (rules[r].filter.Some? && forall c :: engine.renderText(rules[r].filter.value, c) != "True") ==>
              CandidatesOf(TreeEmissions(engine, rules, p), r) == []
  {
    TreeProjection(engine, rules, p, r);
    MatchingBounded(engine, rules[r], TreeCandidates(LevelOf(rules[r].level), p));
  }

  /** The number of classes in a package tree. */
  function ClassCount(p: Package): nat
    decreases p, |p.children| + 1
  {
    |p.classes| + ChildrenClassCount(p, |p.children|)
  }

  function ChildrenClassCount(p: Package, n: nat): nat
    requires n <= |p.children|
    decreases p, n
  {
    if n == 0 then 0 else ChildrenClassCount(p, n - 1) + ClassCount(p.children[n - 1])
  }

  lemma {:induction false} TreeClassCandidates(p: Package)
    ensures |TreeCandidates(ClassRule, p)| == ClassCount(p)
    decreases p, |p.children| + 1
  {
    ChildrenClassCandidates(p, |p.children|);
  }

  lemma {:induction false} ChildrenClassCandidates(p: Package, n: nat)
    requires n <= |p.children|
    ensures |ChildrenCandidates(ClassRule, p, n)| == ChildrenClassCount(p, n)
    decreases p, n
  {
    if n > 0 {
      ChildrenClassCandidates(p, n - 1);
      TreeClassCandidates(p.children[n - 1]);
    }
  }

  /** An unfiltered class rule writes once for every class in the whole tree. */
  lemma UnfilteredClassRuleCount(engine: Engine, rules: seq<TemplateRule>, p: Package, r: nat)
    requires r < |rules|
    requires rules[r].level == ClassLevel && rules[r].filter.None?
    ensures |CandidatesOf(TreeEmissions(engine, rules, p), r)| == ClassCount(p)
  {
    FilterExtremes(engine, rules, p, r);
    TreeClassCandidates(p);
  }
}
