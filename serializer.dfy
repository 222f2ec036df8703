/** Serialization of a test-case instance into a nested key/value document
    (`serialize_instance`). The dictionary the source builds is an ordered list
    of entries: assigning an existing key keeps its position, a new key goes
    last, exactly as a Python `dict` behaves. */
module Serializer {
  import opened Wrappers
  import opened UmlModel

  /** A serialized value: an attribute value, a list built by to-many
      associations, or the dictionary of a nested instance. */
  datatype Doc = Text(text: string) | List(items: seq<Doc>) | Object(entries: seq<Entry>)
  datatype Entry = Entry(key: string, value: Doc)

  /** The one way serialization fails: a to-many association whose key already
      holds something that is not a list, so `.append` does not exist on it. */
  datatype SerializeError = AppendToNonList(key: string)

  // ---------------------------------------------------------------------------
  // The ordered dictionary
  // ---------------------------------------------------------------------------

  /** The keys in insertion order. */
  function Keys(d: seq<Entry>): (r: seq<string>)
    ensures |r| == |d|
    ensures forall i :: 0 <= i < |d| ==> r[i] == d[i].key
  {
    if |d| == 0 then [] else [d[0].key] + Keys(d[1..])
  }

  /** `d[k]`, or `None` when `k not in d.keys()`. */
  function Lookup(d: seq<Entry>, k: string): Option<Doc>
  {
    if |d| == 0 then None
    else if d[0].key == k then Some(d[0].value)
    else Lookup(d[1..], k)
  }

  /** `d[k] = v`: an existing key is overwritten in place, a new one is appended. */
  function Put(d: seq<Entry>, k: string, v: Doc): seq<Entry>
  {
    if |d| == 0 then [Entry(k, v)]
    else if d[0].key == k then [Entry(k, v)] + d[1..]
    else [d[0]] + Put(d[1..], k, v)
  }

  /** `d[k] = v` keeps the insertion order: an existing key stays where it was,
      a new one comes last. */
  lemma {:induction false} KeysPut(d: seq<Entry>, k: string, v: Doc)
    ensures Keys(Put(d, k, v)) == if k in Keys(d) then Keys(d) else Keys(d) + [k]
  {
    if |d| > 0 && d[0].key != k {
      KeysPut(d[1..], k, v);
      var rest := Put(d[1..], k, v);
      assert ([d[0]] + rest)[1..] == rest;
      assert Keys(d) == [d[0].key] + Keys(d[1..]);
    } else if |d| > 0 {
      assert ([Entry(k, v)] + d[1..])[1..] == d[1..];
    }
  }

  /** A key is present exactly when it is among the keys. */
  lemma {:induction false} LookupKeys(d: seq<Entry>, k: string)
    ensures Lookup(d, k).Some? <==> k in Keys(d)
  {
    if |d| > 0 {
      LookupKeys(d[1..], k);
      assert Keys(d) == [d[0].key] + Keys(d[1..]);
    }
  }

  /** After `d[k] = v`, `k` maps to `v` and every other key to what it mapped to. */
  lemma {:induction false} LookupPut(d: seq<Entry>, k: string, v: Doc, k': string)
    ensures Lookup(Put(d, k, v), k') == if k' == k then Some(v) else Lookup(d, k')
  {
    if |d| > 0 && d[0].key != k {
      LookupPut(d[1..], k, v, k');
      assert ([d[0]] + Put(d[1..], k, v))[1..] == Put(d[1..], k, v);
    } else if |d| > 0 {
      assert ([Entry(k, v)] + d[1..])[1..] == d[1..];
    }
  }

  // ---------------------------------------------------------------------------
  // What serialize_instance computes
  // ---------------------------------------------------------------------------

  /** The dictionary after the attribute loop has run over the first `n` slots. */
  function AttributesDict(slots: seq<Slot>, n: nat): seq<Entry>
    requires n <= |slots|
  {
    if n == 0 then [] else Put(AttributesDict(slots, n - 1), slots[n - 1].name, Text(slots[n - 1].value))
  }

  /** One to-many association: a missing key starts a one-element list, a list is
      appended to, and anything else fails before the destination is serialized. */
  function ToManyStep(d: seq<Entry>, key: string, sub: Result<seq<Entry>, SerializeError>): Result<seq<Entry>, SerializeError>
  {
    match Lookup(d, key)
    case None => if sub.Err? then Err(sub.error) else Ok(Put(d, key, List([Object(sub.value)])))
    case Some(List(items)) => if sub.Err? then Err(sub.error) else Ok(Put(d, key, List(items + [Object(sub.value)])))
    case Some(_) => Err(AppendToNonList(key))
  }

  /** One to-one association: the key is (over)written with the destination. */
  function ToOneStep(d: seq<Entry>, key: string, sub: Result<seq<Entry>, SerializeError>): Result<seq<Entry>, SerializeError>
  {
    if sub.Err? then Err(sub.error) else Ok(Put(d, key, Object(sub.value)))
  }

  /** The dictionary after the association loop has run over the first `n`
      outgoing associations, or the error that stopped it. */
  function AddLinks(inst: Instance, n: nat): Result<seq<Entry>, SerializeError>
    requires n <= |inst.associationsFrom|
    decreases inst, 0, n
  {
    if n == 0 then Ok(AttributesDict(inst.attributes, |inst.attributes|))
    else
      match AddLinks(inst, n - 1)
      case Err(e) => Err(e)
      case Ok(d) =>
        var link := inst.associationsFrom[n - 1];
        var sub := Serialize(link.dest);
        if IsToMany(link.destMultiplicity) then ToManyStep(d, link.dest.name, sub)
        else ToOneStep(d, link.dest.name, sub)
  }

  /** The document of an instance. */
  function Serialize(inst: Instance): Result<seq<Entry>, SerializeError>
    decreases inst, 1
  {
    AddLinks(inst, |inst.associationsFrom|)
  }

  // ---------------------------------------------------------------------------
  // The serializer itself
  // ---------------------------------------------------------------------------

  /** Builds the dictionary as the source does: attribute slots first, then the
      outgoing associations, recursing into each destination. */
  method SerializeInstance(inst: Instance) returns (r: Result<seq<Entry>, SerializeError>)
    ensures r == Serialize(inst)
    decreases inst
  {
    var ret: seq<Entry> := [];
    for i := 0 to |inst.attributes|
      invariant ret == AttributesDict(inst.attributes, i)
    {
      ret := Put(ret, inst.attributes[i].name, Text(inst.attributes[i].value));
    }
    for j := 0 to |inst.associationsFrom|
      invariant AddLinks(inst, j) == Ok(ret)
    {
      var link := inst.associationsFrom[j];
      var key := link.dest.name;
      if IsToMany(link.destMultiplicity) {
        var existing := Lookup(ret, key);
        if existing.Some? && !existing.value.List? {
          ErrorSticks(inst, j + 1, |inst.associationsFrom|);
          return Err(AppendToNonList(key));
        }
        var sub := SerializeInstance(link.dest);
        if sub.Err? {
          ErrorSticks(inst, j + 1, |inst.associationsFrom|);
          return Err(sub.error);
        }
        if existing.None? {
          ret := Put(ret, key, List([Object(sub.value)]));
        } else {
          ret := Put(ret, key, List(existing.value.items + [Object(sub.value)]));
        }
      } else {
        var sub := SerializeInstance(link.dest);
        if sub.Err? {
          ErrorSticks(inst, j + 1, |inst.associationsFrom|);
          return Err(sub.error);
        }
        ret := Put(ret, key, Object(sub.value));
      }
    }
    r := Ok(ret);
  }

  // ---------------------------------------------------------------------------
  // Properties
  // ---------------------------------------------------------------------------

  /** What one association does to key `k` in a run that goes on without error:
      a key it does not name is untouched, a to-one association overwrites it, a
      to-many association starts or extends its list. */
  lemma StepLookup(inst: Instance, n: nat, k: string)
    requires 0 < n <= |inst.associationsFrom|
    requires AddLinks(inst, n).Ok?
    ensures AddLinks(inst, n - 1).Ok? && Serialize(inst.associationsFrom[n - 1].dest).Ok?
    ensures
      var link := inst.associationsFrom[n - 1];
      var before := Lookup(AddLinks(inst, n - 1).value, k);
      var doc := Object(Serialize(link.dest).value);
      Lookup(AddLinks(inst, n).value, k) ==
        if link.dest.name != k then before
        else if !IsToMany(link.destMultiplicity) then Some(doc)
        else if before.None? then Some(List([doc]))
        else Some(List(before.value.items + [doc]))
    ensures
      var link := inst.associationsFrom[n - 1];
      var before := Lookup(AddLinks(inst, n - 1).value, k);
      link.dest.name == k && IsToMany(link.destMultiplicity) ==> before.None? || before.value.List?
  {
    var d := AddLinks(inst, n - 1).value;
    var link := inst.associationsFrom[n - 1];
    var sub := Serialize(link.dest);
    var key := link.dest.name;
    if IsToMany(link.destMultiplicity) {
      match Lookup(d, key)
      case None =>
        LookupPut(d, key, List([Object(sub.value)]), k);
      case Some(List(items)) =>
        LookupPut(d, key, List(items + [Object(sub.value)]), k);
      case Some(_) =>
    } else {
      LookupPut(d, key, Object(sub.value), k);
    }
  }

  /** An error raised by one association ends the loop: later associations are
      never looked at. */
  lemma {:induction false} ErrorSticks(inst: Instance, m: nat, n: nat)
    requires m <= n <= |inst.associationsFrom|
    requires AddLinks(inst, m).Err?
    ensures AddLinks(inst, n) == AddLinks(inst, m)
    decreases n - m
  {
    if m < n {
      ErrorSticks(inst, m, n - 1);
    }
  }

  /** A complete run means every earlier prefix of the loop and every destination
      it visited serialized without error. */
  lemma OkPrefix(inst: Instance, m: nat, n: nat)
    requires m <= n <= |inst.associationsFrom|
    requires AddLinks(inst, n).Ok?
    ensures AddLinks(inst, m).Ok?
    ensures forall i :: 0 <= i < m ==> Serialize(inst.associationsFrom[i].dest).Ok?
  {
    if AddLinks(inst, m).Err? {
      ErrorSticks(inst, m, n);
    }
    forall i | 0 <= i < m
      ensures Serialize(inst.associationsFrom[i].dest).Ok?
    {
      if AddLinks(inst, i + 1).Err? {
        ErrorSticks(inst, i + 1, n);
      }
    }
  }

  /** After the attribute loop, a name no slot carries is absent. */
  lemma {:induction false} AttributesDictAbsent(slots: seq<Slot>, n: nat, k: string)
    requires n <= |slots|
    requires forall i :: 0 <= i < n ==> slots[i].name != k
    ensures Lookup(AttributesDict(slots, n), k) == None
  {
    if n > 0 {
      AttributesDictAbsent(slots, n - 1, k);
      LookupPut(AttributesDict(slots, n - 1), slots[n - 1].name, Text(slots[n - 1].value), k);
    }
  }

  /** After the attribute loop, a slot's name maps to the value of the last slot
      carrying that name. */
  lemma {:induction false} AttributesDictLast(slots: seq<Slot>, n: nat, i: nat)
    requires i < n <= |slots|
    requires forall j :: i < j < n ==> slots[j].name != slots[i].name
    ensures Lookup(AttributesDict(slots, n), slots[i].name) == Some(Text(slots[i].value))
  {
    LookupPut(AttributesDict(slots, n - 1), slots[n - 1].name, Text(slots[n - 1].value), slots[i].name);
    if i < n - 1 {
      AttributesDictLast(slots, n - 1, i);
    }
  }

  /** Associations whose destination is not named `k` leave key `k` as the
      attribute loop left it. */
  lemma {:induction false} LinksKeepOtherKeys(inst: Instance, n: nat, k: string)
    requires n <= |inst.associationsFrom|
    requires AddLinks(inst, n).Ok?
    requires forall i :: 0 <= i < n ==> inst.associationsFrom[i].dest.name != k
    ensures Lookup(AddLinks(inst, n).value, k) == Lookup(AttributesDict(inst.attributes, |inst.attributes|), k)
  {
    if n > 0 {
      StepLookup(inst, n, k);
      LinksKeepOtherKeys(inst, n - 1, k);
    }
  }

  /** When no association destination is named like an attribute, every attribute
      name maps to its value (the last slot's, should a name repeat). */
  lemma AttributesRecorded(inst: Instance, i: nat)
    requires i < |inst.attributes|
    requires Serialize(inst).Ok?
    requires forall a, l :: 0 <= a < |inst.attributes| && 0 <= l < |inst.associationsFrom| ==>
               inst.associationsFrom[l].dest.name != inst.attributes[a].name
    requires forall j :: i < j < |inst.attributes| ==> inst.attributes[j].name != inst.attributes[i].name
    ensures Lookup(Serialize(inst).value, inst.attributes[i].name) == Some(Text(inst.attributes[i].value))
  {
    var k := inst.attributes[i].name;
    LinksKeepOtherKeys(inst, |inst.associationsFrom|, k);
    AttributesDictLast(inst.attributes, |inst.attributes|, i);
  }

  /** The number of the first `n` associations leading to an instance named `k`. */
  function CountLinksTo(links: seq<Link>, n: nat, k: string): (c: nat)
    requires n <= |links|
    ensures c <= n
  {
    if n == 0 then 0 else CountLinksTo(links, n - 1, k) + (if links[n - 1].dest.name == k then 1 else 0)
  }

  /** The serialized destinations of the first `n` associations leading to an
      instance named `k`, in association order. */
  function CollectedDocs(inst: Instance, n: nat, k: string): seq<Doc>
    requires n <= |inst.associationsFrom|
  {
    if n == 0 then []
    else
      var link := inst.associationsFrom[n - 1];
      CollectedDocs(inst, n - 1, k)
        + (if link.dest.name == k && Serialize(link.dest).Ok? then [Object(Serialize(link.dest).value)] else [])
  }

  /** A key reached only through to-many associations, and named by no attribute,
      holds a list of the serialized destinations in association order, one per
      association; with no such association the key is absent. */
  lemma {:induction false} ToManyAccumulates(inst: Instance, n: nat, k: string)
    requires n <= |inst.associationsFrom|
    requires AddLinks(inst, n).Ok?
    requires forall a :: 0 <= a < |inst.attributes| ==> inst.attributes[a].name != k
    requires forall i :: 0 <= i < n && inst.associationsFrom[i].dest.name == k ==>
               IsToMany(inst.associationsFrom[i].destMultiplicity)
    ensures |CollectedDocs(inst, n, k)| == CountLinksTo(inst.associationsFrom, n, k)
    ensures Lookup(AddLinks(inst, n).value, k) ==
              if CountLinksTo(inst.associationsFrom, n, k) == 0 then None
              else Some(List(CollectedDocs(inst, n, k)))
  {
    if n == 0 {
      AttributesDictAbsent(inst.attributes, |inst.attributes|, k);
    } else {
      StepLookup(inst, n, k);
      ToManyAccumulates(inst, n - 1, k);
      var link := inst.associationsFrom[n - 1];
      if link.dest.name == k {
        var doc := Object(Serialize(link.dest).value);
        assert IsToMany(link.destMultiplicity);
        assert CollectedDocs(inst, n, k) == CollectedDocs(inst, n - 1, k) + [doc];
        if CountLinksTo(inst.associationsFrom, n - 1, k) == 0 {
          assert CollectedDocs(inst, n - 1, k) == [];
          assert CollectedDocs(inst, n, k) == [doc];
        }
      } else {
        assert CollectedDocs(inst, n, k) == CollectedDocs(inst, n - 1, k);
      }
    }
  }

  /** A to-one association is overwritten by nothing but a later association to
      the same name: when it is the last one, its destination is the value. */
  lemma {:induction false} ToOneLastWins(inst: Instance, n: nat, j: nat)
    requires j < n <= |inst.associationsFrom|
    requires AddLinks(inst, n).Ok?
    requires !IsToMany(inst.associationsFrom[j].destMultiplicity)
    requires forall i :: j < i < n ==> inst.associationsFrom[i].dest.name != inst.associationsFrom[j].dest.name
    ensures Serialize(inst.associationsFrom[j].dest).Ok?
    ensures Lookup(AddLinks(inst, n).value, inst.associationsFrom[j].dest.name) ==
              Some(Object(Serialize(inst.associationsFrom[j].dest).value))
    decreases n
  {
    StepLookup(inst, n, inst.associationsFrom[j].dest.name);
    if j < n - 1 {
      ToOneLastWins(inst, n - 1, j);
    }
  }

  /** A to-many association whose key already holds an attribute value or a
      to-one destination makes the whole serialization fail on that key. */
  lemma AppendToNonListFails(inst: Instance, j: nat)
    requires j < |inst.associationsFrom|
    requires IsToMany(inst.associationsFrom[j].destMultiplicity)
    requires AddLinks(inst, j).Ok?
    requires Lookup(AddLinks(inst, j).value, inst.associationsFrom[j].dest.name).Some?
    requires !Lookup(AddLinks(inst, j).value, inst.associationsFrom[j].dest.name).value.List?
    ensures Serialize(inst) == Err(AppendToNonList(inst.associationsFrom[j].dest.name))
  {
    ErrorSticks(inst, j + 1, |inst.associationsFrom|);
  }

  /** The keys of a successful serialization are exactly the attribute names and
      the names of the destinations of the outgoing associations. */
  lemma {:induction false} KeysOfResult(inst: Instance, n: nat, k: string)
    requires n <= |inst.associationsFrom|
    requires AddLinks(inst, n).Ok?
    ensures Lookup(AddLinks(inst, n).value, k).Some? <==>
              (exists a :: 0 <= a < |inst.attributes| && inst.attributes[a].name == k)
              || (exists i :: 0 <= i < n && inst.associationsFrom[i].dest.name == k)
  {
    if n == 0 {
      if exists a :: 0 <= a < |inst.attributes| && inst.attributes[a].name == k {
        var a :| 0 <= a < |inst.attributes| && inst.attributes[a].name == k;
        var i := LastNamed(inst.attributes, a, k);
        AttributesDictLast(inst.attributes, |inst.attributes|, i);
      } else {
        AttributesDictAbsent(inst.attributes, |inst.attributes|, k);
      }
    } else {
      StepLookup(inst, n, k);
      KeysOfResult(inst, n - 1, k);
    }
  }

  /** Some slot is the last of those named `k`. */
  lemma {:induction false} LastNamed(slots: seq<Slot>, a: nat, k: string) returns (i: nat)
    requires a < |slots| && slots[a].name == k
    ensures a <= i < |slots| && slots[i].name == k
    ensures forall j :: i < j < |slots| ==> slots[j].name != k
    decreases |slots| - a
  {
    if exists b :: a < b < |slots| && slots[b].name == k {
      var b :| a < b < |slots| && slots[b].name == k;
      i := LastNamed(slots, b, k);
    } else {
      i := a;
    }
  }
}
