/** What a runner made from a template has of it, read in the template itself. */
module YamlStripped {
  import opened Wrappers
  import opened YamlEdit

  /** How often a key stands in a mapping, from position `i` on. */
  function Times(content: seq<Doc>, key: string, i: nat): nat
    decreases |content| - i
  {
    if i + 1 >= |content| then 0
    else (if content[i].value == key then 1 else 0) + Times(content, key, i + 2)
  }

  lemma {:induction false} FoundExactly(content: seq<Doc>, key: string, i: nat)
    ensures FindFrom(content, key, i).Some? <==> Times(content, key, i) > 0
    decreases |content| - i
  {
    if i + 1 < |content| {
      FoundExactly(content, key, i + 2);
    }
  }

  lemma {:induction false} TimesShifted(content: seq<Doc>, less: seq<Doc>, n: nat, key: string, i: nat)
    requires n + 2 <= i && |content| == |less| + 2 && forall k | n + 2 <= k < |content| :: less[k - 2] == content[k]
    ensures Times(less, key, i - 2) == Times(content, key, i)
    decreases |content| - i
  {
    if i + 1 < |content| {
      TimesShifted(content, less, n, key, i + 2);
    }
  }

  lemma {:induction false} TimesDropped(content: seq<Doc>, less: seq<Doc>, n: nat, key: string, i: nat)
    requires i <= n && (n - i) % 2 == 0 && n + 2 <= |content| == |less| + 2
    requires (forall k | 0 <= k < n :: less[k] == content[k]) && forall k | n + 2 <= k < |content| :: less[k - 2] == content[k]
    ensures Times(content, key, i) == Times(less, key, i) + if content[n].value == key then 1 else 0
    decreases n - i
  {
    if i == n {
      TimesShifted(content, less, n, key, n + 2);
    } else {
      TimesDropped(content, less, n, key, i + 2);
    }
  }

  lemma DeleteTimes(content: seq<Doc>, key: string, other: string)
    ensures var was, now := Times(content, other, 0), Times(Delete(content, key), other, 0);
            now == if key == other && was > 0 then was - 1 else was
  {
    FoundExactly(content, key, 0);
    var at := Find(content, key);
    if at.Some? {
      var n, less := at.value - 1, Delete(content, key);
      assert forall k | 0 <= k < n :: less[k] == content[k];
      assert forall k | n + 2 <= k < |content| :: less[k - 2] == content[k];
      TimesDropped(content, less, n, other, 0);
    }
    hide FindFrom, Times;
  }

  /** Each mention of a key takes one pair with that key away. */
  lemma {:induction false} StrippedTimes(block: Doc, keys: seq<string>, key: string)
    ensures var was, now := Times(block.content, key, 0), Times(Stripped(block, keys).content, key, 0);
            now == if was > multiset(keys)[key] then was - multiset(keys)[key] else 0
  {
    hide Delete, Times;
    if keys != [] {
      var front, last := keys[..|keys| - 1], keys[|keys| - 1];
      assert keys == front + [last];
      StrippedTimes(block, front, key);
      DeleteTimes(Stripped(block, front).content, last, key);
    }
  }

  /** What no key mentions is as it was. */
  lemma {:induction false} StrippedElse(block: Doc, keys: seq<string>, key: string)
    requires key !in keys
    ensures var was, now := Find(block.content, key), Find(Stripped(block, keys).content, key);
            was.Some? == now.Some? && (now.Some? ==> Stripped(block, keys).content[now.value] == block.content[was.value])
  {
    hide Delete, Find;
    if keys != [] {
      var front, last := keys[..|keys| - 1], keys[|keys| - 1];
      assert keys[|keys| - 1] in keys && forall k | k in front :: k in keys;
      StrippedElse(block, front, key);
      DeleteKeepsOthers(Stripped(block, front).content, last, key);
    }
  }

  lemma {:induction false} StrippedKind(block: Doc, keys: seq<string>)
    ensures Stripped(block, keys).kind == block.kind
  {
    hide Delete;
    if keys != [] {
      StrippedKind(block, keys[..|keys| - 1]);
    }
  }

  /** A key that is stripped as often as it stands there is gone, and all that hangs under
      other keys is read as before. */
  lemma StrippedReads(block: Doc, keys: seq<string>, path: seq<string>)
    requires path != []
    ensures path[0] !in keys ==> Lookup(Stripped(block, keys), path) == Lookup(block, path)
    ensures path[0] in keys && Times(block.content, path[0], 0) <= multiset(keys)[path[0]] ==>
              Lookup(Stripped(block, keys), path) == None
  {
    StrippedKind(block, keys);
    StrippedTimes(block, keys, path[0]);
    FoundExactly(Stripped(block, keys).content, path[0], 0);
    if path[0] !in keys {
      StrippedElse(block, keys, path[0]);
    }
    hide Stripped, Times, FindFrom;
  }

  /** A new runner has, apart from its overrides, all that the template has, except what
      identifies the template. */
  lemma NewRunnerIsAnother(d: Doc, template: string, name: string, identity: seq<string>, sets: seq<Override>, tagOf: string -> string,
                           path: seq<string>)
    requires Paired(d) && d.kind == Mapping && WithRunner(d, template, name, identity, sets, tagOf).Done?
    requires Find(d.content, name).None? && path != [] && forall j | 0 <= j < |sets| :: Apart(sets[j].path, path)
    ensures Find(d.content, template).Some?
    ensures var made := Lookup(WithRunner(d, template, name, identity, sets, tagOf).doc, [name] + path);
            var block := d.content[Find(d.content, template).value];
            && (path[0] !in identity ==> made == Lookup(block, path))
            && (path[0] in identity && Times(block.content, path[0], 0) <= 1 ==> made == None)
  {
    NewRunnerReads(d, template, name, identity, sets, tagOf, path);
    StrippedReads(d.content[Find(d.content, template).value], identity, path);
    hide Times, Lookup, Stripped, Overridden, Find, Paired, Apart;
  }

  /** A scalar can be written there: only through sections, and over nothing but a scalar. */
  predicate Writable(d: Doc, path: seq<string>) {
    && (forall k | 0 <= k < |path| && Lookup(d, path[..k]).Some? :: Lookup(d, path[..k]).value.kind == Mapping)
    && (path != [] && Lookup(d, path).Some? ==> Lookup(d, path).value.kind == Scalar)
  }

  lemma {:induction false} OverriddenExactly(block: Doc, sets: seq<Override>, tagOf: string -> string)
    ensures !Overridden(block, sets, tagOf).NoTemplate?
    ensures Overridden(block, sets, tagOf).Done? <==>
              forall k | 0 <= k < |sets| && Overridden(block, sets[..k], tagOf).Done? ::
                Writable(Overridden(block, sets[..k], tagOf).doc, sets[k].path)
  {
    hide Set, Writable;
    if sets != [] {
      var n := |sets| - 1;
      var front := sets[..n];
      OverriddenExactly(block, front, tagOf);
      assert forall k | 0 <= k < n :: front[..k] == sets[..k] && front[k] == sets[k];
      if Overridden(block, front, tagOf).Done? {
        var d := Overridden(block, front, tagOf).doc;
        SetFails(d, sets[n].path, sets[n].value, tagOf);
        SetsExactly(d, sets[n].path, sets[n].value, tagOf);
      }
    }
  }

  lemma SetsExactly(d: Doc, path: seq<string>, value: string, tagOf: string -> string)
    ensures Set(d, path, value, tagOf).Done? <==> Writable(d, path)
  {
    SetFails(d, path, value, tagOf);
    hide Set, Lookup;
  }

  /** A runner is made exactly if the template is there and is a section, and each override
      can be written into what the ones before it left. */
  lemma MadeExactly(d: Doc, template: string, name: string, identity: seq<string>, sets: seq<Override>, tagOf: string -> string)
    requires d.kind == Mapping
    ensures var r, block := WithRunner(d, template, name, identity, sets, tagOf), Lookup(d, [template]);
            && (r.NoTemplate? <==> block.None? || block.value.kind != Mapping)
            && (r.Done? <==>
                  && block.Some? && block.value.kind == Mapping
                  && var copy := Stripped(block.value, identity);
                     forall k | 0 <= k < |sets| && Overridden(copy, sets[..k], tagOf).Done? ::
                       Writable(Overridden(copy, sets[..k], tagOf).doc, sets[k].path))
  {
    var at := Find(d.content, template);
    assert Lookup(d, [template]) == if at.None? then None else Some(d.content[at.value]);
    if at.Some? && d.content[at.value].kind == Mapping {
      OverriddenExactly(Stripped(d.content[at.value], identity), sets, tagOf);
    }
    hide Stripped, Overridden, Find, Writable, Lookup;
  }

  /** The text of a field of a mapping; what is missing reads as nothing. */
  lemma FieldReads(item: Doc, key: string)
    ensures FieldOf(item, key) == match Lookup(item, [key])
                                  case Some(v) => v.value
                                  case None => ""
  {
    hide FindFrom;
  }

  /** Every dropped route is reported, in order, by its channel, or as the direct messages. */
  lemma {:induction false} TargetsAre(items: seq<Doc>, name: string) returns (at: seq<nat>)
    ensures (forall k | 0 <= k < |at| :: at[k] < |items|) && forall j, k | 0 <= j < k < |at| :: at[j] < at[k]
    ensures forall i | 0 <= i < |items| :: i in at <==> FieldOf(items[i], "runner") == name
    ensures |Targets(items, name)| == |at|
    ensures forall k | 0 <= k < |at| ::
              Targets(items, name)[k] == (if FieldOf(items[at[k]], "channel") == "" then "<dm>" else FieldOf(items[at[k]], "channel"))
  {
    hide FieldOf;
    if items == [] {
      at := [];
    } else {
      at := TargetsAre(items[..|items| - 1], name);
      if FieldOf(items[|items| - 1], "runner") == name {
        at := at + [|items| - 1];
      }
    }
  }
}
