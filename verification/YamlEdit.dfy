/** Edits of the configuration document that keep everything they do not touch. */
module YamlEdit {
  import opened Wrappers

  datatype Kind = Scalar | Mapping | Sequence | Alias

  /** A document node by value; a mapping's content alternates keys and values. */
  datatype Doc = Doc(kind: Kind, tag: string, value: string, content: seq<Doc>)

  datatype Edit = Done(doc: Doc) | NotASection | NotAScalar | NoTemplate

  function Plain(tag: string, value: string): Doc {
    Doc(Scalar, tag, value, [])
  }

  const EMPTY_SECTION := Doc(Mapping, "!!map", "", [])

  /** The position of the first value under a key. */
  function Find(content: seq<Doc>, key: string): (at: Option<nat>)
    ensures at.Some? ==> 0 < at.value < |content| && at.value % 2 == 1 && content[at.value - 1].value == key
  {
    FindIsOdd(content, key, 0);
    FindFrom(content, key, 0)
  }

  function FindFrom(content: seq<Doc>, key: string, i: nat): (at: Option<nat>)
    ensures at.Some? ==> i < at.value < |content| && content[at.value - 1].value == key
    decreases |content| - i
  {
    if i + 1 >= |content| then None
    else if content[i].value == key then Some(i + 1)
    else FindFrom(content, key, i + 2)
  }

  /** Values stand at odd positions. */
  lemma {:induction false} FindIsOdd(content: seq<Doc>, key: string, i: nat)
    requires i % 2 == 0
    ensures FindFrom(content, key, i).Some? ==> FindFrom(content, key, i).value % 2 == 1
    decreases |content| - i
  {
    if i + 1 < |content| && content[i].value != key {
      FindIsOdd(content, key, i + 2);
    }
  }

  function Lookup(d: Doc, path: seq<string>): Option<Doc>
    decreases |path|
  {
    if path == [] then Some(d)
    else if d.kind != Mapping then None
    else match Find(d.content, path[0])
      case None => None
      case Some(k) => Lookup(d.content[k], path[1..])
  }

  /** Writes a scalar at a path, with sections made on the way where there are none.
      A field that was a string stays one; otherwise `tagOf` says what the text is. */
  function Set(d: Doc, path: seq<string>, value: string, tagOf: string -> string): Edit
    decreases |path|
  {
    if path == [] then Done(d)
    else if d.kind != Mapping then NotASection
    else
      var at := Find(d.content, path[0]);
      if |path| == 1 then
        if at.None? then Done(d.(content := d.content + [Plain("!!str", path[0]), Plain(tagOf(value), value)]))
        else if d.content[at.value].kind != Scalar then NotAScalar
        else
          var tag := if d.content[at.value].tag == "!!str" then "!!str" else tagOf(value);
          Done(d.(content := d.content[at.value := Plain(tag, value)]))
      else
        match Set(if at.None? then EMPTY_SECTION else d.content[at.value], path[1..], value, tagOf)
        case Done(child) =>
          if at.None? then Done(d.(content := d.content + [Plain("!!str", path[0]), child]))
          else Done(d.(content := d.content[at.value := child]))
        case e => e
  }

  /** As a parser builds it: no mapping has a key without a value. */
  predicate Paired(d: Doc) {
    (d.kind == Mapping ==> |d.content| % 2 == 0) && forall i | 0 <= i < |d.content| :: Paired(d.content[i])
  }

  // ------------------------------------------------------------------
  // What an edit changes
  // ------------------------------------------------------------------

  lemma {:induction false} FindAppended(content: seq<Doc>, k: Doc, v: Doc, key: string, i: nat)
    requires |content| % 2 == i % 2 && i <= |content|
    ensures FindFrom(content + [k, v], key, i) ==
              if FindFrom(content, key, i).Some? then FindFrom(content, key, i)
              else if k.value == key then Some(|content| + 1) else None
    decreases |content| - i
  {
    if i + 1 < |content| && content[i].value != key {
      FindAppended(content, k, v, key, i + 2);
    }
  }

  lemma {:induction false} FindUpdated(content: seq<Doc>, at: nat, v: Doc, key: string, i: nat)
    requires at < |content| && at % 2 != i % 2
    ensures FindFrom(content[at := v], key, i) == FindFrom(content, key, i)
    decreases |content| - i
  {
    if i + 1 < |content| && content[i].value != key {
      FindUpdated(content, at, v, key, i + 2);
    }
  }

  lemma {:induction false} SetStaysPaired(d: Doc, path: seq<string>, value: string, tagOf: string -> string)
    requires Paired(d) && Set(d, path, value, tagOf).Done?
    ensures Paired(Set(d, path, value, tagOf).doc)
    decreases |path|
  {
    if |path| > 1 {
      var at := Find(d.content, path[0]);
      SetStaysPaired(if at.None? then EMPTY_SECTION else d.content[at.value], path[1..], value, tagOf);
    }
  }

  /** What was written is found, as a scalar with that text. */
  lemma {:induction false} SetIsRead(d: Doc, path: seq<string>, value: string, tagOf: string -> string)
    requires Paired(d) && path != [] && Set(d, path, value, tagOf).Done?
    ensures var was, now := Lookup(d, path), Lookup(Set(d, path, value, tagOf).doc, path);
            now == Some(Plain(if was.Some? && was.value.tag == "!!str" then "!!str" else tagOf(value), value))
    decreases |path|
  {
    var at := Find(d.content, path[0]);
    var d' := Set(d, path, value, tagOf).doc;
    var child := if at.None? then EMPTY_SECTION else d.content[at.value];
    if |path| > 1 {
      SetIsRead(child, path[1..], value, tagOf);
      EmptyFinds(path[1..]);
    }
    if at.None? {
      FindAppended(d.content, Plain("!!str", path[0]), d'.content[|d.content| + 1], path[0], 0);
    } else {
      FindUpdated(d.content, at.value, d'.content[at.value], path[0], 0);
    }
  }

  lemma EmptyFinds(path: seq<string>)
    requires path != []
    ensures Lookup(EMPTY_SECTION, path) == None
  {
  }

  /** Paths of which neither leads through the other. */
  predicate Apart(p: seq<string>, q: seq<string>) {
    !(p <= q) && !(q <= p)
  }

  /** One level of an edit: a pair is appended, or one value replaced. */
  lemma SetStep(d: Doc, path: seq<string>, value: string, tagOf: string -> string)
    requires path != [] && Set(d, path, value, tagOf).Done?
    ensures var d', at := Set(d, path, value, tagOf).doc, Find(d.content, path[0]);
            && d.kind == Mapping
            && (at.None? ==> (&& |d'.content| == |d.content| + 2
                              && d' == d.(content := d.content + [Plain("!!str", path[0]), d'.content[|d.content| + 1]])))
            && (at.Some? ==> |d'.content| == |d.content| && d' == d.(content := d.content[at.value := d'.content[at.value]]))
            && (|path| > 1 && at.None? ==> Set(EMPTY_SECTION, path[1..], value, tagOf) == Done(d'.content[|d.content| + 1]))
            && (|path| > 1 && at.Some? ==> Set(d.content[at.value], path[1..], value, tagOf) == Done(d'.content[at.value]))
  {
    hide FindFrom;
  }

  /** And no other path is read differently. */
  lemma {:induction false} SetKeepsOthers(d: Doc, path: seq<string>, value: string, tagOf: string -> string, other: seq<string>)
    requires Paired(d) && Set(d, path, value, tagOf).Done? && Apart(path, other)
    ensures Lookup(Set(d, path, value, tagOf).doc, other) == Lookup(d, other)
    decreases |path|
  {
    ApartBelow(path, other);
    var at := Find(d.content, path[0]);
    var d' := Set(d, path, value, tagOf).doc;
    SetStep(d, path, value, tagOf);
    hide Set, FindFrom, Apart;
    var v := d'.content[if at.None? then |d.content| + 1 else at.value];
    if at.None? {
      FindAppended(d.content, Plain("!!str", path[0]), v, other[0], 0);
    } else {
      FindUpdated(d.content, at.value, v, other[0], 0);
    }
    if other[0] == path[0] {
      var child := if at.None? then EMPTY_SECTION else d.content[at.value];
      SetKeepsOthers(child, path[1..], value, tagOf, other[1..]);
      EmptyFinds(other[1..]);
    }
  }

  lemma ApartBelow(p: seq<string>, q: seq<string>)
    requires Apart(p, q)
    ensures p != [] && q != []
    ensures p[0] == q[0] ==> Apart(p[1..], q[1..]) && |p| > 1 && |q| > 1
  {
    assert p != [] ==> p == [p[0]] + p[1..];
    assert q != [] ==> q == [q[0]] + q[1..];
  }

  /** It fails exactly when the path leads through something that is not a section,
      or to something that is not a scalar. */
  lemma {:induction false} SetFails(d: Doc, path: seq<string>, value: string, tagOf: string -> string)
    ensures Set(d, path, value, tagOf).NotASection? <==>
              exists k :: 0 <= k < |path| && Lookup(d, path[..k]).Some? && Lookup(d, path[..k]).value.kind != Mapping
    ensures Set(d, path, value, tagOf).NotAScalar? <==>
              path != [] && Lookup(d, path).Some? && Lookup(d, path).value.kind != Scalar
    ensures !Set(d, path, value, tagOf).NoTemplate?
    decreases |path|
  {
    if path != [] && d.kind == Mapping {
      var at := Find(d.content, path[0]);
      var child := if at.None? then EMPTY_SECTION else d.content[at.value];
      SetFails(child, path[1..], value, tagOf);
      forall k | 0 <= k < |path|
        ensures Lookup(d, path[..k]) == if k == 0 then Some(d) else if at.None? then None else Lookup(child, path[1..][..k - 1])
      {
        if k > 0 {
          assert path[..k][0] == path[0] && path[..k][1..] == path[1..][..k - 1];
        }
      }
      if at.None? && |path| > 1 {
        NewSectionsTakeAll(path[1..], value, tagOf);
      }
      if k :| 0 <= k < |path[1..]| && Lookup(child, path[1..][..k]).Some? && Lookup(child, path[1..][..k]).value.kind != Mapping {
        assert Lookup(d, path[..k + 1]) == if at.None? then None else Lookup(child, path[1..][..k]);
      }
    } else if path != [] {
      assert path[..0] == [] && Lookup(d, path[..0]) == Some(d);
    }
  }

  lemma {:induction false} NewSectionsTakeAll(path: seq<string>, value: string, tagOf: string -> string)
    ensures Set(EMPTY_SECTION, path, value, tagOf).Done?
    decreases |path|
  {
    if |path| > 1 {
      NewSectionsTakeAll(path[1..], value, tagOf);
    }
  }

  // ------------------------------------------------------------------
  // Deleting a key
  // ------------------------------------------------------------------

  function Delete(content: seq<Doc>, key: string): seq<Doc> {
    var at := Find(content, key);
    if at.None? then content else content[..at.value - 1] + content[at.value + 1..]
  }

  /** Where a key is found once the pair at `n` is gone. */
  function Moved(at: Option<nat>, n: nat): Option<nat> {
    match at
    case None => None
    case Some(k) => Some(if k >= n + 2 then k - 2 else k)
  }

  lemma FindBehind(content: seq<Doc>, less: seq<Doc>, n: nat, key: string)
    requires n + 2 <= |content| == |less| + 2 && content[n].value != key
    requires forall k | n + 2 <= k < |content| :: less[k - 2] == content[k]
    ensures FindFrom(less, key, n) == Moved(FindFrom(content, key, n), n)
  {
    FindShifted(content, less, n + 2, n, key);
    assert FindFrom(content, key, n) == FindFrom(content, key, n + 2);
    hide FindFrom;
  }

  lemma {:induction false} FindDropped(content: seq<Doc>, less: seq<Doc>, n: nat, key: string, i: nat)
    requires n + 2 <= |content| == |less| + 2 && n % 2 == i % 2 && i <= n && content[n].value != key
    requires forall k | n + 2 <= k < |content| :: less[k - 2] == content[k]
    requires forall k | 0 <= k < n :: less[k] == content[k]
    ensures FindFrom(less, key, i) == Moved(FindFrom(content, key, i), n)
    decreases n - i
  {
    if i == n {
      FindBehind(content, less, n, key);
    } else {
      assert i + 2 <= n && less[i] == content[i];
      FindDropped(content, less, n, key, i + 2);
    }
  }

  lemma {:induction false} FindShifted(a: seq<Doc>, b: seq<Doc>, i: nat, j: nat, key: string)
    requires i <= |a| && |a| - i == |b| - j
    requires forall k | i <= k < |a| :: b[k - i + j] == a[k]
    ensures FindFrom(b, key, j) == match FindFrom(a, key, i) case None => None case Some(k) => Some(k - i + j)
    decreases |a| - i
  {
    if i + 1 < |a| {
      assert a[i] == b[j];
      if a[i].value != key {
        FindShifted(a, b, i + 2, j + 2, key);
      }
    }
  }

  /** The other keys keep their values. */
  lemma DeleteKeepsOthers(content: seq<Doc>, key: string, other: string)
    requires key != other
    ensures var was, now := Find(content, other), Find(Delete(content, key), other);
            was.Some? == now.Some? && (now.Some? ==> Delete(content, key)[now.value] == content[was.value])
  {
    var at := Find(content, key);
    if at.Some? {
      var n, less := at.value - 1, Delete(content, key);
      assert |less| == |content| - 2 && content[n].value == key;
      assert forall k | 0 <= k < n :: less[k] == content[k];
      assert forall k | n + 2 <= k < |content| :: less[k - 2] == content[k];
      hide Delete, FindFrom;
      FindDropped(content, less, n, other, 0);
    }
  }

  /** The key is gone exactly if it stood there once. */
  lemma DeleteIsComplete(content: seq<Doc>, key: string)
    ensures var at := Find(content, key);
            Find(Delete(content, key), key) == None <==> at.None? || FindFrom(content, key, at.value + 1) == None
  {
    var at := Find(content, key);
    if at.Some? {
      var less := Delete(content, key);
      SkipsTo(content, less, at.value - 1, key, 0);
      FindShifted(content, less, at.value + 1, at.value - 1, key);
    }
  }

  lemma {:induction false} SkipsTo(content: seq<Doc>, less: seq<Doc>, n: nat, key: string, i: nat)
    requires FindFrom(content, key, i) == Some(n + 1) && i <= n && (n - i) % 2 == 0 && n <= |less| && n < |content|
    requires forall k | 0 <= k < n :: less[k] == content[k]
    ensures FindFrom(less, key, i) == FindFrom(less, key, n)
    decreases n - i
  {
    if i < n {
      SkipsTo(content, less, n, key, i + 2);
    }
  }

  // ------------------------------------------------------------------
  // The document on the heap
  // ------------------------------------------------------------------

  class Node {
    var kind: Kind
    var tag: string
    var value: string
    var content: seq<Node>
    /** This node and all below it. */
    ghost var repr: set<Node>

    constructor (kind: Kind, tag: string, value: string)
      ensures Shows(Doc(kind, tag, value, [])) && fresh(repr)
    {
      this.kind, this.tag, this.value, content := kind, tag, value, [];
      repr := {this};
    }

    /** The tree below this node, which shares nothing, reads as `d`. */
    ghost predicate Shows(d: Doc)
      reads this, repr
      decreases d
    {
      && this in repr
      && kind == d.kind && tag == d.tag && value == d.value && |content| == |d.content|
      && (forall i | 0 <= i < |content| ::
            content[i] in repr && content[i].repr <= repr && this !in content[i].repr && content[i].Shows(d.content[i]))
      && (forall i, j | 0 <= i < j < |content| :: content[i].repr !! content[j].repr)
    }
  }

  method FindKey(m: Node, key: string, ghost d: Doc) returns (at: Option<nat>)
    requires m.Shows(d)
    ensures at == Find(d.content, key)
  {
    var i := 0;
    while i + 1 < |m.content|
      invariant i % 2 == 0 && Find(d.content, key) == FindFrom(d.content, key, i)
    {
      assert m.content[i].Shows(d.content[i]);
      if m.content[i].value == key {
        return Some(i + 1);
      }
      i := i + 2;
    }
    return None;
  }

  /** `tagOf` is what YAML makes of an unquoted text. */
  method SetPath(m: Node, path: seq<string>, value: string, tagOf: string -> string, ghost d: Doc) returns (r: Option<Edit>)
    requires m.Shows(d)
    modifies m.repr
    ensures r.None? <==> Set(d, path, value, tagOf).Done?
    ensures r.Some? ==> r.value == Set(d, path, value, tagOf) && m.Shows(d) && unchanged(old(m.repr)) && m.repr == old(m.repr)
    ensures r.None? ==> m.Shows(Set(d, path, value, tagOf).doc) && fresh(m.repr - old(m.repr))
    decreases |path|, 1
  {
    if path == [] {
      return None;
    }
    if m.kind != Mapping {
      return Some(NotASection);
    }
    var at := FindKey(m, path[0], d);
    if |path| == 1 {
      assert path == [path[0]];
      r := SetField(m, path[0], at, value, tagOf, d);
      return;
    }
    if at.None? {
      var section := new Node(Mapping, "!!map", "");
      NewSectionsTakeAll(path[1..], value, tagOf);
      r := SetPath(section, path[1..], value, tagOf, EMPTY_SECTION);
      AppendField(m, path[0], section, d, Set(EMPTY_SECTION, path[1..], value, tagOf).doc);
      return None;
    }
    r := SetBelow(m, at.value, path[1..], value, tagOf, d);
  }

  method SetField(m: Node, key: string, at: Option<nat>, value: string, tagOf: string -> string, ghost d: Doc) returns (r: Option<Edit>)
    requires m.Shows(d) && d.kind == Mapping && at == Find(d.content, key)
    modifies m.repr
    ensures r.None? <==> Set(d, [key], value, tagOf).Done?
    ensures r.Some? ==> r.value == Set(d, [key], value, tagOf) && m.Shows(d) && unchanged(old(m.repr)) && m.repr == old(m.repr)
    ensures r.None? ==> m.Shows(Set(d, [key], value, tagOf).doc) && fresh(m.repr - old(m.repr))
  {
    hide Find;
    if at.None? {
      var field := new Node(Scalar, tagOf(value), value);
      AppendField(m, key, field, d, Plain(tagOf(value), value));
      return None;
    }
    var done := WriteScalar(m, at.value, value, tagOf, d);
    return if done then None else Some(NotAScalar);
  }

  method SetBelow(m: Node, k: nat, path: seq<string>, value: string, tagOf: string -> string, ghost d: Doc) returns (r: Option<Edit>)
    requires m.Shows(d) && k < |m.content|
    modifies m.repr
    ensures r.None? <==> Set(d.content[k], path, value, tagOf).Done?
    ensures r.Some? ==> r.value == Set(d.content[k], path, value, tagOf) && m.Shows(d) && unchanged(old(m.repr)) && m.repr == old(m.repr)
    ensures r.None? ==> m.Shows(d.(content := d.content[k := Set(d.content[k], path, value, tagOf).doc])) && fresh(m.repr - old(m.repr))
    decreases |path|, 2
  {
    hide Set;
    var child := m.content[k];
    r := SetPath(child, path, value, tagOf, d.content[k]);
    if r.None? {
      m.repr := m.repr + child.repr;
      assert forall i | 0 <= i < |m.content| && i != k :: m.content[i].Shows(d.content[i]);
    }
  }

  /** The new field shares nothing with the mapping. */
  method AppendField(m: Node, key: string, field: Node, ghost d: Doc, ghost f: Doc)
    requires m.Shows(d) && field.Shows(f) && m.repr !! field.repr
    modifies m
    ensures m.Shows(d.(content := d.content + [Plain("!!str", key), f])) && fresh(m.repr - old(m.repr) - field.repr)
  {
    var k := new Node(Scalar, "!!str", key);
    assert forall i | 0 <= i < |m.content| :: m.content[i].Shows(d.content[i]);
    m.content := m.content + [k, field];
    m.repr := m.repr + k.repr + field.repr;
    assert forall i | 0 <= i < |d.content| :: m.content[i].Shows(d.content[i]);
  }

  /** Overwrites the node itself: whoever points to it sees the new scalar. */
  method WriteScalar(m: Node, k: nat, value: string, tagOf: string -> string, ghost d: Doc) returns (done: bool)
    requires m.Shows(d) && k < |m.content|
    modifies m.repr
    ensures done == (d.content[k].kind == Scalar) && m.repr == old(m.repr)
    ensures !done ==> m.Shows(d) && unchanged(old(m.repr))
    ensures done ==>
              m.Shows(d.(content := d.content[k := Plain(if d.content[k].tag == "!!str" then "!!str" else tagOf(value), value)]))
  {
    var cur := m.content[k];
    assert cur.Shows(d.content[k]);
    if cur.kind != Scalar {
      return false;
    }
    var tag := tagOf(value);
    if cur.tag == "!!str" {
      tag := "!!str";
    }
    cur.tag, cur.value, cur.content := tag, value, [];
    assert cur.Shows(Plain(tag, value));
    assert forall i | 0 <= i < |m.content| && i != k :: m.content[i].Shows(d.content[i]);
    return true;
  }

  /** Reports whether the key was there; the first pair goes. */
  method DeleteKey(m: Node, key: string, ghost d: Doc) returns (present: bool)
    requires m.Shows(d)
    modifies m`content
    ensures present == Find(d.content, key).Some?
    ensures m.Shows(d.(content := Delete(d.content, key))) && m.repr == old(m.repr)
  {
    var at := FindKey(m, key, d);
    if at.None? {
      return false;
    }
    DropPair(m, at.value - 1, d);
    return true;
  }

  method DropPair(m: Node, k: nat, ghost d: Doc)
    requires m.Shows(d) && k + 2 <= |m.content|
    modifies m`content
    ensures m.Shows(d.(content := d.content[..k] + d.content[k + 2..])) && m.repr == old(m.repr)
  {
    ghost var was, left := m.content, d.content[..k] + d.content[k + 2..];
    assert forall i | 0 <= i < |was| :: was[i].Shows(d.content[i]);
    m.content := m.content[..k] + m.content[k + 2..];
    forall i | 0 <= i < |left|
      ensures m.content[i] == was[if i < k then i else i + 2] && m.content[i].Shows(left[i])
    {
    }
  }

  /** A copy that shares no node with the original, which stays as it is. */
  method CloneNode(n: Node, ghost d: Doc) returns (c: Node)
    requires n.Shows(d)
    ensures c.Shows(d) && fresh(c.repr)
    decreases d
  {
    c := new Node(n.kind, n.tag, n.value);
    for i := 0 to |n.content|
      invariant c.Shows(d.(content := d.content[..i])) && fresh(c.repr) && n.Shows(d)
    {
      assert n.content[i].Shows(d.content[i]);
      var child := CloneNode(n.content[i], d.content[i]);
      AppendChild(c, child, d.(content := d.content[..i]), d.content[i]);
      assert d.content[..i + 1] == d.content[..i] + [d.content[i]];
    }
    assert d.content[..|d.content|] == d.content;
  }

  method AppendChild(m: Node, child: Node, ghost d: Doc, ghost f: Doc)
    requires m.Shows(d) && child.Shows(f) && m.repr !! child.repr
    modifies m
    ensures m.Shows(d.(content := d.content + [f])) && m.repr == old(m.repr) + child.repr
  {
    assert forall i | 0 <= i < |m.content| :: m.content[i].Shows(d.content[i]);
    m.content := m.content + [child];
    m.repr := m.repr + child.repr;
    assert forall i | 0 <= i < |d.content| :: m.content[i].Shows(d.content[i]);
  }

  // ------------------------------------------------------------------
  // A runner from a template
  // ------------------------------------------------------------------

  datatype Override = Override(path: seq<string>, value: string)

  function Stripped(block: Doc, keys: seq<string>): Doc {
    if keys == [] then block
    else
      var d := Stripped(block, keys[..|keys| - 1]);
      d.(content := Delete(d.content, keys[|keys| - 1]))
  }

  function Overridden(block: Doc, sets: seq<Override>, tagOf: string -> string): Edit {
    if sets == [] then Done(block)
    else match Overridden(block, sets[..|sets| - 1], tagOf)
      case Done(d) => Set(d, sets[|sets| - 1].path, sets[|sets| - 1].value, tagOf)
      case e => e
  }

  /** The runners section with a new runner, made from the template's block. */
  function WithRunner(d: Doc, template: string, name: string, identity: seq<string>, sets: seq<Override>, tagOf: string -> string): Edit {
    var at := Find(d.content, template);
    if at.None? || d.content[at.value].kind != Mapping then NoTemplate
    else
      match Overridden(Stripped(d.content[at.value], identity), sets, tagOf)
      case Done(block) => Done(d.(content := d.content + [Plain("!!str", name), block]))
      case e => e
  }

  /** A copy of the template's block without what identifies the template. */
  method CopyOf(src: Node, identity: seq<string>, ghost d: Doc) returns (block: Node)
    requires src.Shows(d)
    ensures block.Shows(Stripped(d, identity)) && fresh(block.repr)
  {
    hide Delete;
    block := CloneNode(src, d);
    ghost var b := d;
    for i := 0 to |identity|
      invariant b == Stripped(d, identity[..i]) && block.Shows(b) && fresh(block.repr)
    {
      assert identity[..i + 1][..i] == identity[..i];
      var _ := DeleteKey(block, identity[i], b);
      b := b.(content := Delete(b.content, identity[i]));
    }
    assert identity[..|identity|] == identity;
  }

  method ApplySets(block: Node, sets: seq<Override>, tagOf: string -> string, ghost d: Doc) returns (r: Option<Edit>)
    requires block.Shows(d)
    modifies block.repr
    ensures r.None? <==> Overridden(d, sets, tagOf).Done?
    ensures r.None? ==> block.Shows(Overridden(d, sets, tagOf).doc) && fresh(block.repr - old(block.repr))
    ensures r.Some? ==> r.value == Overridden(d, sets, tagOf)
  {
    hide Set;
    ghost var b := d;
    for i := 0 to |sets|
      invariant Overridden(d, sets[..i], tagOf) == Done(b) && block.Shows(b) && fresh(block.repr - old(block.repr))
    {
      assert sets[..i + 1][..i] == sets[..i];
      r := SetPath(block, sets[i].path, sets[i].value, tagOf, b);
      if r.Some? {
        OverrideFails(d, sets, i, tagOf);
        return;
      }
      b := Set(b, sets[i].path, sets[i].value, tagOf).doc;
    }
    assert sets[..|sets|] == sets;
    return None;
  }

  /** The copy is changed and appended; the template's own nodes are not touched, and
      on an error nothing is appended. */
  method AddRunner(runners: Node, template: string, name: string, identity: seq<string>, sets: seq<Override>,
                   tagOf: string -> string, ghost d: Doc) returns (r: Option<Edit>)
    requires runners.Shows(d)
    modifies runners
    ensures r.None? <==> WithRunner(d, template, name, identity, sets, tagOf).Done?
    ensures r.None? ==> runners.Shows(WithRunner(d, template, name, identity, sets, tagOf).doc)
    ensures r.Some? ==> r.value == WithRunner(d, template, name, identity, sets, tagOf) && runners.Shows(d) && unchanged(runners)
  {
    hide Stripped, Overridden;
    var at := FindKey(runners, template, d);
    if at.None? {
      return Some(NoTemplate);
    }
    var src := runners.content[at.value];
    assert src.Shows(d.content[at.value]);
    if src.kind != Mapping {
      return Some(NoTemplate);
    }
    var block := CopyOf(src, identity, d.content[at.value]);
    ghost var stripped := Stripped(d.content[at.value], identity);
    r := ApplySets(block, sets, tagOf, stripped);
    if r.None? {
      AppendField(runners, name, block, d, Overridden(stripped, sets, tagOf).doc);
    }
  }

  lemma {:induction false} OverrideFails(block: Doc, sets: seq<Override>, i: nat, tagOf: string -> string)
    requires i < |sets| && !Overridden(block, sets[..i + 1], tagOf).Done?
    ensures Overridden(block, sets, tagOf) == Overridden(block, sets[..i + 1], tagOf)
  {
    if i == |sets| - 1 {
      assert sets[..i + 1] == sets;
    } else {
      var front := sets[..|sets| - 1];
      assert front[..i + 1] == sets[..i + 1];
      OverrideFails(block, front, i, tagOf);
    }
  }

  /** Every runner that was there, the template first of all, reads as before. */
  lemma OthersKeepTheirBlocks(d: Doc, template: string, name: string, identity: seq<string>, sets: seq<Override>, tagOf: string -> string,
                              path: seq<string>)
    requires Paired(d) && d.kind == Mapping && WithRunner(d, template, name, identity, sets, tagOf).Done?
    requires path != [] && Find(d.content, path[0]).Some?
    ensures Lookup(WithRunner(d, template, name, identity, sets, tagOf).doc, path) == Lookup(d, path)
  {
    var block := Overridden(Stripped(d.content[Find(d.content, template).value], identity), sets, tagOf).doc;
    FindAppended(d.content, Plain("!!str", name), block, path[0], 0);
    hide Overridden, Stripped, FindFrom;
  }

  lemma {:induction false} OverridesStayPaired(block: Doc, sets: seq<Override>, tagOf: string -> string)
    requires Paired(block) && Overridden(block, sets, tagOf).Done?
    ensures Paired(Overridden(block, sets, tagOf).doc)
  {
    hide Set, Paired;
    if sets != [] {
      var front, last := sets[..|sets| - 1], sets[|sets| - 1];
      OverridesStayPaired(block, front, tagOf);
      SetStaysPaired(Overridden(block, front, tagOf).doc, last.path, last.value, tagOf);
    }
  }

  /** What an override wrote is read in the end, unless a later one touches its path. */
  lemma {:induction false} OverridesAreRead(block: Doc, sets: seq<Override>, tagOf: string -> string, k: nat)
    requires Paired(block) && Overridden(block, sets, tagOf).Done?
    requires k < |sets| && sets[k].path != [] && forall j | k < j < |sets| :: Apart(sets[j].path, sets[k].path)
    ensures var r := Lookup(Overridden(block, sets, tagOf).doc, sets[k].path);
            r.Some? && r.value.kind == Scalar && r.value.value == sets[k].value
  {
    hide Set, Paired, Lookup, Apart;
    var front, last := sets[..|sets| - 1], sets[|sets| - 1];
    var before := Overridden(block, front, tagOf).doc;
    OverridesStayPaired(block, front, tagOf);
    if k < |front| {
      assert forall j | k < j < |front| :: front[j] == sets[j];
      OverridesAreRead(block, front, tagOf, k);
      SetKeepsOthers(before, last.path, last.value, tagOf, sets[k].path);
    } else {
      SetIsRead(before, last.path, last.value, tagOf);
    }
  }

  /** What no override touches is read as in the block. */
  lemma {:induction false} OverridesKeepTheRest(block: Doc, sets: seq<Override>, tagOf: string -> string, path: seq<string>)
    requires Paired(block) && Overridden(block, sets, tagOf).Done?
    requires forall j | 0 <= j < |sets| :: Apart(sets[j].path, path)
    ensures Lookup(Overridden(block, sets, tagOf).doc, path) == Lookup(block, path)
  {
    hide Set, Paired, Lookup, Apart;
    if sets != [] {
      var front, last := sets[..|sets| - 1], sets[|sets| - 1];
      OverridesStayPaired(block, front, tagOf);
      OverridesKeepTheRest(block, front, tagOf, path);
      SetKeepsOthers(Overridden(block, front, tagOf).doc, last.path, last.value, tagOf, path);
    }
  }

  lemma PartStaysPaired(d: Doc, part: seq<Doc>)
    requires Paired(d) && |part| % 2 == |d.content| % 2 && forall x | x in part :: x in d.content
    ensures Paired(d.(content := part))
  {
    forall i | 0 <= i < |part|
      ensures Paired(part[i])
    {
      assert part[i] in d.content;
    }
  }

  lemma PairGone<T>(s: seq<T>, n: nat)
    requires n + 2 <= |s|
    ensures var less := s[..n] + s[n + 2..]; |less| == |s| - 2 && forall x | x in less :: x in s
  {
    assert s == s[..n] + s[n..n + 2] + s[n + 2..];
  }

  lemma DeleteStaysPaired(d: Doc, key: string)
    requires Paired(d)
    ensures Paired(d.(content := Delete(d.content, key)))
  {
    hide Paired, FindFrom;
    var at := Find(d.content, key);
    if at.Some? {
      PairGone(d.content, at.value - 1);
      PartStaysPaired(d, d.content[..at.value - 1] + d.content[at.value - 1 + 2..]);
    }
  }

  lemma {:induction false} StrippedStaysPaired(block: Doc, keys: seq<string>)
    requires Paired(block)
    ensures Paired(Stripped(block, keys))
  {
    hide Delete, Paired;
    if keys != [] {
      StrippedStaysPaired(block, keys[..|keys| - 1]);
      DeleteStaysPaired(Stripped(block, keys[..|keys| - 1]), keys[|keys| - 1]);
    }
  }

  /** Under the new name, each override is read that no later one touches, and what
      none touches is as in the template without what identifies it. */
  lemma NewRunnerReads(d: Doc, template: string, name: string, identity: seq<string>, sets: seq<Override>, tagOf: string -> string,
                       path: seq<string>)
    requires Paired(d) && d.kind == Mapping && WithRunner(d, template, name, identity, sets, tagOf).Done?
    requires Find(d.content, name).None? && path != []
    ensures var made := Lookup(WithRunner(d, template, name, identity, sets, tagOf).doc, [name] + path);
            && (forall k | 0 <= k < |sets| && sets[k].path == path && (forall j | k < j < |sets| :: Apart(sets[j].path, path)) ::
                  made.Some? && made.value.kind == Scalar && made.value.value == sets[k].value)
            && ((forall j | 0 <= j < |sets| :: Apart(sets[j].path, path)) ==>
                  made == Lookup(Stripped(d.content[Find(d.content, template).value], identity), path))
  {
    var source := d.content[Find(d.content, template).value];
    var stripped := Stripped(source, identity);
    var block := Overridden(stripped, sets, tagOf).doc;
    FindAppended(d.content, Plain("!!str", name), block, name, 0);
    assert ([name] + path)[1..] == path;
    assert Lookup(WithRunner(d, template, name, identity, sets, tagOf).doc, [name] + path) == Lookup(block, path);
    StrippedStaysPaired(source, identity);
    hide Stripped, Overridden, Lookup, Find, Paired, Apart;
    forall k | 0 <= k < |sets| && sets[k].path == path && (forall j | k < j < |sets| :: Apart(sets[j].path, path))
      ensures Lookup(block, path).Some? && Lookup(block, path).value.kind == Scalar && Lookup(block, path).value.value == sets[k].value
    {
      OverridesAreRead(stripped, sets, tagOf, k);
    }
    if forall j | 0 <= j < |sets| :: Apart(sets[j].path, path) {
      OverridesKeepTheRest(stripped, sets, tagOf, path);
    }
  }

  // ------------------------------------------------------------------
  // Dropping a runner's routes
  // ------------------------------------------------------------------

  function FieldOf(item: Doc, key: string): string {
    if item.kind != Mapping then ""
    else match Find(item.content, key)
      case None => ""
      case Some(k) => item.content[k].value
  }

  function Kept(items: seq<Doc>, name: string): seq<Doc> {
    if items == [] then []
    else Kept(items[..|items| - 1], name)
         + if FieldOf(items[|items| - 1], "runner") == name then [] else [items[|items| - 1]]
  }

  function Targets(items: seq<Doc>, name: string): seq<string> {
    if items == [] then []
    else
      var item := items[|items| - 1];
      Targets(items[..|items| - 1], name)
      + if FieldOf(item, "runner") != name then []
        else [if FieldOf(item, "channel") == "" then "<dm>" else FieldOf(item, "channel")]
  }

  /** The kept items are written over the front of the buffer they are read from. */
  method DropRoutes(items: array<Doc>, name: string) returns (kept: nat, dropped: seq<string>)
    modifies items
    ensures kept <= items.Length && items[..kept] == Kept(old(items[..]), name)
    ensures dropped == Targets(old(items[..]), name)
  {
    hide FieldOf;
    ghost var was := items[..];
    kept, dropped := 0, [];
    for i := 0 to items.Length
      invariant kept <= i
      invariant items[..kept] == Kept(was[..i], name) && dropped == Targets(was[..i], name)
      invariant forall k | i <= k < items.Length :: items[k] == was[k]
    {
      assert was[..i + 1][..i] == was[..i] && was[..i + 1][i] == items[i];
      if FieldOf(items[i], "runner") == name {
        var target := FieldOf(items[i], "channel");
        if target == "" {
          target := "<dm>";
        }
        dropped := dropped + [target];
        continue;
      }
      items[kept] := items[i];
      kept := kept + 1;
    }
    assert was[..|was|] == was;
  }

  lemma {:induction false} KeptInOrder(front: seq<Doc>, rest: seq<Doc>, name: string)
    ensures Kept(front + rest, name) == Kept(front, name) + Kept(rest, name)
    decreases |rest|
  {
    if rest == [] {
      assert front + rest == front;
    } else {
      KeptInOrder(front, rest[..|rest| - 1], name);
      assert (front + rest)[..|front + rest| - 1] == front + rest[..|rest| - 1];
    }
  }

  /** No route to the runner is left, and every other one is, as often as before and in
      the order it was in: what is kept of the whole is what is kept of any front part,
      followed by what is kept of the rest. */
  lemma OnlyItsRoutesGo(items: seq<Doc>, name: string, item: Doc)
    ensures multiset(Kept(items, name))[item] == if FieldOf(item, "runner") == name then 0 else multiset(items)[item]
    ensures forall i | 0 <= i <= |items| :: Kept(items, name) == Kept(items[..i], name) + Kept(items[i..], name)
  {
    KeptCounts(items, name, item);
    hide Kept;
    forall i | 0 <= i <= |items|
      ensures Kept(items, name) == Kept(items[..i], name) + Kept(items[i..], name)
    {
      KeptInOrder(items[..i], items[i..], name);
      assert items[..i] + items[i..] == items;
    }
  }

  lemma {:induction false} KeptCounts(items: seq<Doc>, name: string, item: Doc)
    ensures multiset(Kept(items, name))[item] == if FieldOf(item, "runner") == name then 0 else multiset(items)[item]
  {
    hide FieldOf;
    if items != [] {
      var front, last := items[..|items| - 1], items[|items| - 1];
      KeptCounts(front, name, item);
      assert items == front + [last];
      var part := if FieldOf(last, "runner") == name then [] else [last];
      assert Kept(items, name) == Kept(front, name) + part;
      assert multiset(Kept(front, name) + part)[item] == multiset(Kept(front, name))[item] + multiset(part)[item];
      hide Kept;
    }
  }

  /** Each route that goes is reported. */
  lemma {:induction false} EveryDropIsReported(items: seq<Doc>, name: string)
    ensures |Kept(items, name)| + |Targets(items, name)| == |items|
  {
    hide FieldOf;
    if items != [] {
      EveryDropIsReported(items[..|items| - 1], name);
    }
  }
}
