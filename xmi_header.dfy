/** The header checks of `parse`: the document must have a root element, the
    root must carry XMI version "2.1", the root must have a `uml:Model` child,
    and the root package is the first `packagedElement` of the whole document,
    in document order, whose `name` is the configured root package name.
    Reading the file and building the model from the root package are not part
    of this module. */
module XmiHeader {
  import opened Wrappers

  /** An XML element: its tag in `{namespace}local` form, its attributes (keyed
      the same way) and its children in document order. */
  datatype XmlElement = XmlElement(tag: string, attributes: map<string, string>, children: seq<XmlElement>)

  /** The namespace URIs bound to the `xmi` and `uml` prefixes. */
  datatype Namespaces = Namespaces(xmi: string, uml: string)

  /** Why `parse` gives up, in the order it checks. */
  datatype HeaderError = NotValidXmi | NoXmiVersion | WrongXmiVersion | NoUmlModel

  /** The message `parse` raises for each error. */
  function Message(e: HeaderError): string
  {
    match e
    case NotValidXmi => "Not a valid XMI"
    case NoXmiVersion => "No XMI version specified"
    case WrongXmiVersion => "XMI version must be 2.1"
    case NoUmlModel => "Could not find model, UML version must be 2.1"
  }

  /** The only XMI version accepted. */
  const SupportedVersion: string := "2.1"

  /** The tag of a namespaced element or attribute name. */
  function Qualified(namespace: string, local: string): string
  {
    "{" + namespace + "}" + local
  }

  /** The value of the root's `xmi:version` attribute, if present. */
  function Version(ns: Namespaces, root: XmlElement): Option<string>
  {
    var key := Qualified(ns.xmi, "version");
    if key in root.attributes then Some(root.attributes[key]) else None
  }

  /** Whether an element is a `uml:Model`. */
  predicate IsModel(ns: Namespaces, e: XmlElement)
  {
    e.tag == Qualified(ns.uml, "Model")
  }

  /** The first `uml:Model` among the root's children (ElementTree's `find`
      looks at direct children only). */
  function FindModel(ns: Namespaces, children: seq<XmlElement>): Option<XmlElement>
  {
    if |children| == 0 then None
    else if IsModel(ns, children[0]) then Some(children[0])
    else FindModel(ns, children[1..])
  }

  /** An element that the root package query selects: a `packagedElement` with
      no namespace whose `name` attribute is the configured name. */
  predicate IsRootPackage(name: string, e: XmlElement)
  {
    e.tag == "packagedElement" && "name" in e.attributes && e.attributes["name"] == name
  }

  /** The elements the query `//packagedElement[@name=...]` selects in the
      subtree of `e`, in document order (an element before its descendants). */
  function Selected(name: string, e: XmlElement): seq<XmlElement>
    decreases e, |e.children| + 1
  {
    (if IsRootPackage(name, e) then [e] else []) + SelectedChildren(name, e, |e.children|)
  }

  function SelectedChildren(name: string, e: XmlElement, n: nat): seq<XmlElement>
    requires n <= |e.children|
    decreases e, n
  {
    if n == 0 then [] else SelectedChildren(name, e, n - 1) + Selected(name, e.children[n - 1])
  }

  /** The header checks and the root package lookup. `Ok(None)` is the case in
      which `parse` reports that the root package was not found and returns
      nothing; the query runs from the document root, not from the model
      element. */
  function ParseHeader(ns: Namespaces, root: Option<XmlElement>, rootPackage: string): Result<Option<XmlElement>, HeaderError>
  {
    if root.None? then Err(NotValidXmi)
    else if Version(ns, root.value).None? then Err(NoXmiVersion)
    else if Version(ns, root.value).value != SupportedVersion then Err(WrongXmiVersion)
    else if FindModel(ns, root.value.children).None? then Err(NoUmlModel)
    else
      var found := Selected(rootPackage, root.value);
      if |found| == 0 then Ok(None) else Ok(Some(found[0]))
  }

  // ---------------------------------------------------------------------------
  // Properties
  // ---------------------------------------------------------------------------

  /** Each error has its own message. */
  lemma MessagesDistinct(a: HeaderError, b: HeaderError)
    ensures Message(a) == Message(b) <==> a == b
  {
  }

  /** `find` returns a `uml:Model` child, and finds one whenever there is one. */
  lemma {:induction false} FindModelSpec(ns: Namespaces, children: seq<XmlElement>)
    ensures FindModel(ns, children).Some? ==> FindModel(ns, children).value in children && IsModel(ns, FindModel(ns, children).value)
    ensures FindModel(ns, children).None? <==> forall i :: 0 <= i < |children| ==> !IsModel(ns, children[i])
    decreases |children|
  {
    if |children| > 0 && !IsModel(ns, children[0]) {
      FindModelSpec(ns, children[1..]);
      assert forall i :: 1 <= i < |children| ==> children[i] == children[1..][i - 1];
    }
  }

  /** Whether the subtree of `e` holds an element the query selects. */
  predicate Contains(name: string, e: XmlElement)
    decreases e
  {
    IsRootPackage(name, e) || exists i :: 0 <= i < |e.children| && Contains(name, e.children[i])
  }

  /** The query selects only matching elements, and selects something exactly
      when the tree contains a match. */
  lemma {:induction false} SelectedSpec(name: string, e: XmlElement)
    ensures forall x :: x in Selected(name, e) ==> IsRootPackage(name, x)
    ensures |Selected(name, e)| > 0 <==> Contains(name, e)
    decreases e, |e.children| + 1
  {
    SelectedChildrenSpec(name, e, |e.children|);
  }

  lemma {:induction false} SelectedChildrenSpec(name: string, e: XmlElement, n: nat)
    requires n <= |e.children|
    ensures forall x :: x in SelectedChildren(name, e, n) ==> IsRootPackage(name, x)
    ensures |SelectedChildren(name, e, n)| > 0 <==> exists i :: 0 <= i < n && Contains(name, e.children[i])
    decreases e, n
  {
    if n > 0 {
      SelectedChildrenSpec(name, e, n - 1);
      SelectedSpec(name, e.children[n - 1]);
    }
  }

  /** The checks run in order and each applies only when the earlier ones have
      passed; a document that gets through them has a root with version "2.1"
      and a `uml:Model` child. */
  lemma CheckOrder(ns: Namespaces, root: Option<XmlElement>, rootPackage: string)
    ensures ParseHeader(ns, root, rootPackage) == Err(NotValidXmi) <==> root.None?
    ensures ParseHeader(ns, root, rootPackage) == Err(NoXmiVersion) <==>
              root.Some? && !(Qualified(ns.xmi, "version") in root.value.attributes)
    ensures ParseHeader(ns, root, rootPackage) == Err(WrongXmiVersion) <==>
              root.Some? && Qualified(ns.xmi, "version") in root.value.attributes &&
              root.value.attributes[Qualified(ns.xmi, "version")] != "2.1"
    ensures ParseHeader(ns, root, rootPackage) == Err(NoUmlModel) <==>
              root.Some? && Version(ns, root.value) == Some("2.1") &&
              forall i :: 0 <= i < |root.value.children| ==> !IsModel(ns, root.value.children[i])
    ensures ParseHeader(ns, root, rootPackage).Ok? ==>
              root.Some? && Version(ns, root.value) == Some("2.1") &&
              exists i :: 0 <= i < |root.value.children| && IsModel(ns, root.value.children[i])
  {
    if root.Some? {
      FindModelSpec(ns, root.value.children);
    }
  }

  /** A header that passes the checks yields a root package exactly when the
      document holds a matching `packagedElement` anywhere, and the one it
      yields is such an element. */
  lemma RootPackageFound(ns: Namespaces, root: XmlElement, rootPackage: string)
    requires ParseHeader(ns, Some(root), rootPackage).Ok?
    ensures ParseHeader(ns, Some(root), rootPackage).value.Some? <==> Contains(rootPackage, root)
    ensures ParseHeader(ns, Some(root), rootPackage).value.Some? ==>
              IsRootPackage(rootPackage, ParseHeader(ns, Some(root), rootPackage).value.value)
  {
    SelectedSpec(rootPackage, root);
  }

  /** When the root element is itself a match it comes first in document order,
      so it is the one chosen. */
  lemma RootElementFirst(ns: Namespaces, root: XmlElement, rootPackage: string)
    requires ParseHeader(ns, Some(root), rootPackage).Ok?
    requires IsRootPackage(rootPackage, root)
    ensures ParseHeader(ns, Some(root), rootPackage) == Ok(Some(root))
  {
  }
}
