/** What DeferrableMixin (mixins.py) keeps of a processor when it saves one: the state
    dict `save` writes, the default operation name, and the class check `load` makes. */
module Snapshots {
  import opened Values
  import opened States

  /** A processor class as `(__module__, __name__)`. */
  datatype ClassId = ClassId(moduleName: string, name: string)

  /** `status()` of a DeferrableMixin processor: the base status plus `result_id`,
      `saved_error_id` and `waiting`. */
  datatype DeferredStatus = DeferredStatus(base: Status, resultId: Attr, savedErrorId: Attr, waiting: bool)

  /** An instance attribute other than the processing state: a scalar, a list, a set, or
      the status dict a finished commit task handed back. */
  datatype Attr =
    | Plain(v: Value)
    | ListOf(items: seq<Value>)
    | SetOf(members: set<Value>)
    | StatusDict(status: DeferredStatus)

  /** Python truthiness of an attribute value. */
  predicate AttrTruthy(a: Attr) {
    match a
    case Plain(v) => Truthy(v)
    case ListOf(xs) => xs != []
    case SetOf(s) => s != {}
    case StatusDict(_) => true
  }

  /** Extra attributes in the order they were set, as `self.__dict__` keeps them. */
  type Attrs = seq<(string, Attr)>

  /** The value under `key`, if any (the first, when a key repeats). */
  function Lookup(attrs: Attrs, key: string): (r: Option<Attr>)
    ensures r.Some? <==> exists k :: 0 <= k < |attrs| && attrs[k].0 == key
    ensures r.Some? ==> (key, r.value) in attrs
    decreases |attrs|
  {
    if attrs == [] then None
    else if attrs[0].0 == key then Some(attrs[0].1)
    else
      var r := Lookup(attrs[1..], key);
      assert forall k :: 1 <= k < |attrs| ==> attrs[k] == attrs[1..][k - 1];
      r
  }

  /** `getattr(self, key, None)` */
  function GetAttr(attrs: Attrs, key: string): Attr {
    match Lookup(attrs, key)
    case Some(a) => a
    case None => Plain(VNull)
  }

  /** `setattr(self, key, value)`: an existing attribute keeps its place. */
  function SetAttr(attrs: Attrs, key: string, value: Attr): (r: Attrs)
    ensures Lookup(r, key) == Some(value)
    ensures forall k :: k != key ==> Lookup(r, k) == Lookup(attrs, k)
    decreases |attrs|
  {
    if attrs == [] then [(key, value)]
    else if attrs[0].0 == key then [(key, value)] + attrs[1..]
    else [attrs[0]] + SetAttr(attrs[1..], key, value)
  }

  /** Attributes whose name starts with `_` are not saved. */
  predicate Private(key: string) {
    |key| > 0 && key[0] == '_'
  }

  /** The attributes `save` keeps, in order, before their values are converted. */
  function Public(attrs: Attrs): (r: Attrs)
    ensures forall p :: p in r <==> p in attrs && !Private(p.0)
    decreases |attrs|
  {
    if attrs == [] then []
    else
      var init := attrs[..|attrs| - 1];
      var last := attrs[|attrs| - 1];
      assert attrs == init + [last];
      Public(init) + (if Private(last.0) then [] else [last])
  }

  /** `list(v)` of a set: each member once, in some order. */
  ghost predicate ListsSet(xs: seq<Value>, s: set<Value>) {
    && |xs| == |s|
    && (forall x :: x in xs <==> x in s)
    && (forall i, j :: 0 <= i < j < |xs| ==> xs[i] != xs[j])
  }

  /** A saved value: a set becomes a list of its members, anything else is kept. */
  ghost predicate Converted(a: Attr, b: Attr) {
    if a.SetOf? then b.ListOf? && ListsSet(b.items, a.members) else b == a
  }

  /** `saved` is what `save`'s loop leaves of `attrs`. */
  ghost predicate Filtered(attrs: Attrs, saved: Attrs) {
    var kept := Public(attrs);
    && |saved| == |kept|
    && forall k :: 0 <= k < |saved| ==> saved[k].0 == kept[k].0 && Converted(kept[k].1, saved[k].1)
  }

  /** No private name and no set: what a saved state holds. */
  ghost predicate Clean(attrs: Attrs) {
    forall k :: 0 <= k < |attrs| ==> !Private(attrs[k].0) && !attrs[k].1.SetOf?
  }

  /** `list(v)` */
  method ListOfSet(s: set<Value>) returns (xs: seq<Value>)
    ensures ListsSet(xs, s)
  {
    xs := [];
    var rest := s;
    while rest != {}
      invariant rest <= s
      invariant forall x :: x in xs <==> x in s && x !in rest
      invariant |xs| + |rest| == |s|
      invariant forall i, j :: 0 <= i < j < |xs| ==> xs[i] != xs[j]
      decreases |rest|
    {
      var x :| x in rest;
      xs := xs + [x];
      rest := rest - {x};
    }
  }

  /** The loop of `save` over a copy of the instance dict: private attributes are
      dropped and sets are replaced by lists, every other attribute kept in its place. */
  method FilterState(attrs: Attrs) returns (saved: Attrs)
    ensures Filtered(attrs, saved)
  {
    saved := [];
    var i := 0;
    while i < |attrs|
      invariant 0 <= i <= |attrs|
      invariant Filtered(attrs[..i], saved)
    {
      var (key, value) := attrs[i];
      assert attrs[..i + 1] == attrs[..i] + [attrs[i]];
      assert attrs[..i + 1][..i] == attrs[..i];
      if !Private(key) {
        var kept := value;
        if value.SetOf? {
          var items := ListOfSet(value.members);
          kept := ListOf(items);
        }
        saved := saved + [(key, kept)];
      }
      i := i + 1;
    }
    assert attrs[..i] == attrs;
  }

  /** A saved state holds no private attribute and no set; every public attribute is
      there, under its own name and in its original order. */
  lemma FilteredClean(attrs: Attrs, saved: Attrs)
    requires Filtered(attrs, saved)
    ensures Clean(saved)
    ensures forall key :: (exists k :: 0 <= k < |saved| && saved[k].0 == key) <==>
                          !Private(key) && exists k :: 0 <= k < |attrs| && attrs[k].0 == key
  {
    var kept := Public(attrs);
    forall k | 0 <= k < |saved|
      ensures !Private(saved[k].0) && !saved[k].1.SetOf?
    {
      assert kept[k] in kept;
    }
    forall key | !Private(key) && exists k :: 0 <= k < |attrs| && attrs[k].0 == key
      ensures exists k :: 0 <= k < |saved| && saved[k].0 == key
    {
      var k :| 0 <= k < |attrs| && attrs[k].0 == key;
      assert attrs[k] in kept;
      var j :| 0 <= j < |kept| && kept[j] == attrs[k];
      assert saved[j].0 == key;
    }
    forall key | exists k :: 0 <= k < |saved| && saved[k].0 == key
      ensures !Private(key) && exists k :: 0 <= k < |attrs| && attrs[k].0 == key
    {
      var k :| 0 <= k < |saved| && saved[k].0 == key;
      assert kept[k] in kept;
      var j :| 0 <= j < |attrs| && attrs[j] == kept[k];
    }
  }

  /** Saving a saved state again keeps it as it is. */
  lemma {:induction false} RefilterClean(attrs: Attrs, saved: Attrs)
    requires Clean(attrs) && Filtered(attrs, saved)
    ensures saved == attrs
  {
    PublicOfClean(attrs);
  }

  lemma {:induction false} PublicOfClean(attrs: Attrs)
    requires Clean(attrs)
    ensures Public(attrs) == attrs
    decreases |attrs|
  {
    if attrs != [] {
      var init := attrs[..|attrs| - 1];
      PublicOfClean(init);
      assert attrs == init + [attrs[|attrs| - 1]];
    }
  }

  /** `operation_name or ('stage' if self.can_commit else 'commit')`; the empty name
      stands for None as well. */
  function DefaultOperationName(name: string, canCommit: bool): (r: string)
    ensures name != "" ==> r == name
    ensures name == "" ==> (r == "stage" <==> canCommit) && (r == "commit" <==> !canCommit)
  {
    if name != "" then name else if canCommit then "stage" else "commit"
  }

  /** What `load` instantiates: the class it was called on, the recorded class imported
      by module and name, or nothing, with a ValueError. */
  datatype Resolution = Same | Import(id: ClassId) | Refused(message: string)

  /** str(ValueError("%s != %s" % (classname, cls.__name__))) */
  function MismatchText(recorded: string, expected: string): string {
    recorded + " != " + expected
  }

  /** The class check of `load(operation_id, load_subclasses)` called on class `expected`. */
  function LoadClass(recorded: ClassId, expected: string, loadSubclasses: bool): (r: Resolution)
    ensures r.Same? <==> recorded.name == expected
    ensures r.Refused? <==> recorded.name != expected && !loadSubclasses
    ensures r.Refused? ==> r.message == MismatchText(recorded.name, expected)
    ensures r.Import? ==> r.id == recorded && loadSubclasses
  {
    if recorded.name == expected then Same
    else if !loadSubclasses then Refused(MismatchText(recorded.name, expected))
    else Import(recorded)
  }
}
