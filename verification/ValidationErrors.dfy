/** Flattening a tree of validation errors to dotted paths. */
module ValidationErrors {
  import opened Options

  /** `constraints` holds the messages in order; absent or empty `children` are alike to the code. */
  datatype Error = Error(property: string, constraints: Option<seq<string>>, children: seq<Error>)

  type Messages = map<string, seq<string>>

  function PathOf(parent: string, property: string): string {
    if parent != "" then parent + "." + property else property
  }

  function Flatten(errors: seq<Error>, parent: string): Messages
    decreases errors
  {
    if errors == [] then map[]
    else Flatten(errors[..|errors| - 1], parent) + FlattenOne(errors[|errors| - 1], parent)
  }

  function FlattenOne(e: Error, parent: string): Messages
    decreases e
  {
    var path := PathOf(parent, e.property);
    OwnMessages(e, path) + Flatten(e.children, path)
  }

  function OwnMessages(e: Error, path: string): Messages {
    match e.constraints case Some(messages) => map[path := messages] case None => map[]
  }

  function Assigned(acc: Messages, e: Error, path: string): Messages {
    match e.constraints case Some(messages) => acc[path := messages] case None => acc
  }

  lemma AssignedAddsOwn(acc: Messages, e: Error, path: string, nested: Messages)
    ensures acc + (OwnMessages(e, path) + nested) == Assigned(acc, e, path) + nested
    ensures nested == map[] ==> acc + (OwnMessages(e, path) + nested) == Assigned(acc, e, path)
  {
    match e.constraints
    case Some(messages) => assert acc[path := messages] == acc + map[path := messages];
    case None =>
  }

  lemma AccumulateOne(errors: seq<Error>, i: nat, parent: string, acc: Messages)
    requires i < |errors| && acc == Flatten(errors[..i], parent)
    ensures var path := PathOf(parent, errors[i].property);
            Flatten(errors[..i + 1], parent) == Assigned(acc, errors[i], path) + Flatten(errors[i].children, path)
    ensures errors[i].children == [] ==>
              Flatten(errors[..i + 1], parent) == Assigned(acc, errors[i], PathOf(parent, errors[i].property))
  {
    var path := PathOf(parent, errors[i].property);
    assert errors[..i + 1][..i] == errors[..i];
    assert Flatten(errors[..i + 1], parent) == acc + FlattenOne(errors[i], parent);
    AssignedAddsOwn(acc, errors[i], path, Flatten(errors[i].children, path));
  }

  /** The reduce over siblings, updating one accumulator in place. */
  method FlattenValidationErrors(errors: seq<Error>, parent: string) returns (acc: Messages)
    ensures acc == Flatten(errors, parent)
    decreases errors
  {
    acc := map[];
    for i := 0 to |errors|
      invariant acc == Flatten(errors[..i], parent)
    {
      var error := errors[i];
      AccumulateOne(errors, i, parent, acc);
      var path := PathOf(parent, error.property);
      if error.constraints.Some? {
        acc := acc[path := error.constraints.value];
      }
      if |error.children| > 0 {
        var nested := FlattenValidationErrors(error.children, path);
        acc := acc + nested;
      }
    }
    assert errors[..|errors|] == errors;
  }

  // ----- paths and their printed form -----

  predicate GoodName(name: string) {
    name != "" && '.' !in name
  }

  predicate GoodPath(path: seq<string>) {
    forall i | 0 <= i < |path| :: GoodName(path[i])
  }

  function Join(path: seq<string>): string {
    if path == [] then ""
    else if |path| == 1 then path[0]
    else path[0] + "." + Join(path[1..])
  }

  function Split(s: string): (parts: seq<string>)
    ensures |parts| >= 1
  {
    if s == "" then [""]
    else
      var rest := Split(s[1..]);
      if s[0] == '.' then [""] + rest else [[s[0]] + rest[0]] + rest[1..]
  }

  lemma {:induction false} SplitName(name: string)
    requires '.' !in name
    ensures Split(name) == [name]
  {
    if name != "" {
      SplitName(name[1..]);
      assert [name[0]] + name[1..] == name;
    }
  }

  lemma {:induction false} SplitAtFirstDot(name: string, rest: string)
    requires '.' !in name
    ensures Split(name + "." + rest) == [name] + Split(rest)
  {
    var s := name + "." + rest;
    if name == "" {
      assert s[1..] == rest;
    } else {
      assert s[1..] == name[1..] + "." + rest;
      SplitAtFirstDot(name[1..], rest);
      assert [name[0]] + name[1..] == name;
    }
  }

  /** Splitting a printed path at its dots recovers the path. */
  lemma {:induction false} SplitJoin(path: seq<string>)
    requires GoodPath(path) && path != []
    ensures Split(Join(path)) == path
  {
    if |path| == 1 {
      SplitName(path[0]);
    } else {
      SplitJoin(path[1..]);
      SplitAtFirstDot(path[0], Join(path[1..]));
      assert [path[0]] + path[1..] == path;
    }
  }

  lemma JoinInjective(a: seq<string>, b: seq<string>)
    requires GoodPath(a) && GoodPath(b) && a != [] && b != []
    ensures Join(a) == Join(b) <==> a == b
  {
    SplitJoin(a);
    SplitJoin(b);
  }

  lemma {:induction false} JoinExtends(path: seq<string>, name: string)
    requires GoodPath(path)
    ensures Join(path + [name]) == PathOf(Join(path), name)
  {
    if path == [] {
      assert path + [name] == [name];
    } else {
      assert (path + [name])[1..] == path[1..] + [name];
      JoinExtends(path[1..], name);
      assert Join(path) != "";
      if |path| > 1 {
        assert Join(path[1..]) != "" by {
          assert path[1..][0] == path[1];
        }
      }
    }
  }

  // ----- the tree -----

  /** Names are non-empty, without dots, and distinct among siblings, at every level. */
  predicate WellNamed(errors: seq<Error>)
    decreases errors
  {
    errors != [] ==>
      var e := errors[|errors| - 1];
      && GoodName(e.property)
      && (forall i | 0 <= i < |errors| - 1 :: errors[i].property != e.property)
      && WellNamedOne(e)
      && WellNamed(errors[..|errors| - 1])
  }

  predicate WellNamedOne(e: Error)
    decreases e
  {
    WellNamed(e.children)
  }

  /** The node a path of names leads to. */
  function NodeAt(errors: seq<Error>, path: seq<string>): Option<Error>
    decreases errors
  {
    if errors == [] || path == [] then None
    else
      var e := errors[|errors| - 1];
      if e.property == path[0] then Below(e, path[1..]) else NodeAt(errors[..|errors| - 1], path)
  }

  function Below(e: Error, path: seq<string>): Option<Error>
    decreases e
  {
    if path == [] then Some(e) else NodeAt(e.children, path)
  }

  /** There is a node at the path and it carries constraints. */
  predicate Constrained(errors: seq<Error>, path: seq<string>) {
    NodeAt(errors, path).Some? && NodeAt(errors, path).value.constraints.Some?
  }

  lemma {:induction false} NoNodeWithoutName(errors: seq<Error>, path: seq<string>)
    requires path != [] && forall i | 0 <= i < |errors| :: errors[i].property != path[0]
    ensures NodeAt(errors, path) == None
    decreases |errors|
  {
    if errors != [] {
      NoNodeWithoutName(errors[..|errors| - 1], path);
    }
  }

  /** Every key extends the parent's path by the name of one of the errors and a path below it. */
  ghost predicate KeyBelow(errors: seq<Error>, above: seq<string>, key: string, path: seq<string>) {
    && path != [] && GoodPath(path) && key == Join(above + path)
    && exists i :: 0 <= i < |errors| && errors[i].property == path[0]
  }

  lemma {:induction false} KeysArePaths(errors: seq<Error>, above: seq<string>, key: string) returns (path: seq<string>)
    requires WellNamed(errors) && GoodPath(above) && key in Flatten(errors, Join(above))
    ensures KeyBelow(errors, above, key, path)
    decreases errors
  {
    var init, e := errors[..|errors| - 1], errors[|errors| - 1];
    if key in FlattenOne(e, Join(above)) {
      path := KeysOfOne(e, above, key);
    } else {
      path := KeysArePaths(init, above, key);
      var i :| 0 <= i < |init| && init[i].property == path[0];
      assert errors[i].property == path[0];
    }
  }

  lemma {:induction false} KeysOfOne(e: Error, above: seq<string>, key: string) returns (path: seq<string>)
    requires GoodName(e.property) && WellNamedOne(e) && GoodPath(above) && key in FlattenOne(e, Join(above))
    ensures path != [] && path[0] == e.property && GoodPath(path) && key == Join(above + path)
    decreases e
  {
    var here := above + [e.property];
    OwnKeyOrBelow(e, above, key);
    if key == Join(here) {
      path := [e.property];
    } else {
      var sub := KeysArePaths(e.children, here, key);
      path := [e.property] + sub;
      Regroup(above, e.property, sub);
    }
  }

  lemma Regroup(above: seq<string>, name: string, sub: seq<string>)
    requires GoodName(name) && GoodPath(sub)
    ensures above + ([name] + sub) == above + [name] + sub && GoodPath([name] + sub)
  {
  }

  lemma OwnKeyOrBelow(e: Error, above: seq<string>, key: string)
    requires GoodPath(above) && key in FlattenOne(e, Join(above))
    ensures key == Join(above + [e.property]) || key in Flatten(e.children, Join(above + [e.property]))
  {
    JoinExtends(above, e.property);
  }

  lemma LongerPathsDiffer(here: seq<string>, sub: seq<string>)
    requires GoodPath(here) && GoodPath(sub) && here != [] && sub != []
    ensures Join(here) != Join(here + sub)
  {
    JoinInjective(here, here + sub);
    assert |here + sub| > |here|;
  }

  lemma OtherNamesDiffer(above: seq<string>, path: seq<string>, other: seq<string>)
    requires GoodPath(above) && GoodPath(path) && GoodPath(other) && path != [] && other != []
    requires path[0] != other[0]
    ensures Join(above + path) != Join(above + other)
  {
    JoinInjective(above + path, above + other);
    assert (above + path)[|above|] == path[0] && (above + other)[|above|] == other[0];
  }

  lemma NotUnderAnotherName(e: Error, above: seq<string>, path: seq<string>)
    requires GoodName(e.property) && WellNamedOne(e) && GoodPath(above) && GoodPath(path)
    requires path != [] && path[0] != e.property
    ensures Join(above + path) !in FlattenOne(e, Join(above))
  {
    if Join(above + path) in FlattenOne(e, Join(above)) {
      var other := KeysOfOne(e, above, Join(above + path));
      OtherNamesDiffer(above, path, other);
    }
  }

  /** A printed path is a key exactly when its node has constraints, and then it maps to that node's messages. */
  lemma {:induction false} KeyIffConstrained(errors: seq<Error>, above: seq<string>, path: seq<string>)
    requires WellNamed(errors) && GoodPath(above) && GoodPath(path) && path != []
    ensures var key := Join(above + path);
            && (key in Flatten(errors, Join(above)) <==> Constrained(errors, path))
            && (Constrained(errors, path) ==>
                  Flatten(errors, Join(above))[key] == NodeAt(errors, path).value.constraints.value)
    decreases errors
  {
    if errors != [] {
      var init, e := errors[..|errors| - 1], errors[|errors| - 1];
      KeyIffConstrained(init, above, path);
      if e.property == path[0] {
        NoNodeWithoutName(init, path);
        KeyOfOneIffConstrained(e, above, path);
      } else {
        NotUnderAnotherName(e, above, path);
      }
    }
  }

  lemma {:induction false} KeyOfOneIffConstrained(e: Error, above: seq<string>, path: seq<string>)
    requires GoodName(e.property) && WellNamedOne(e) && GoodPath(above) && GoodPath(path)
    requires path != [] && path[0] == e.property
    ensures var key := Join(above + path);
            var node := Below(e, path[1..]);
            && (key in FlattenOne(e, Join(above)) <==> node.Some? && node.value.constraints.Some?)
            && (node.Some? && node.value.constraints.Some? ==>
                  FlattenOne(e, Join(above))[key] == node.value.constraints.value)
    decreases e
  {
    var here := above + [e.property];
    var key := Join(above + path);
    JoinExtends(above, e.property);
    if |path| == 1 {
      assert above + path == here;
      if key in Flatten(e.children, Join(here)) {
        var sub := KeysArePaths(e.children, here, key);
        LongerPathsDiffer(here, sub);
      }
    } else {
      assert above + path == here + path[1..];
      KeyIffConstrained(e.children, here, path[1..]);
      JoinInjective(here, above + path);
    }
  }

  /** Flattening invents nothing: a string is a key exactly when splitting it at its dots gives the path of a node
      with constraints, of which it is then the printed form. */
  lemma FlatteningInventsNothing(errors: seq<Error>, key: string)
    requires WellNamed(errors)
    ensures key in Flatten(errors, "") <==>
              GoodPath(Split(key)) && Join(Split(key)) == key && Constrained(errors, Split(key))
  {
    if key in Flatten(errors, "") {
      var path := KeysArePaths(errors, [], key);
      assert [] + path == path;
      SplitJoin(path);
      KeyIffConstrained(errors, [], path);
    } else if GoodPath(Split(key)) && Join(Split(key)) == key && Constrained(errors, Split(key)) {
      FlatteningLosesNothing(errors, Split(key));
    }
  }

  /** Flattening loses nothing: every node with constraints has its dotted path as a key, mapped to its own
      messages, and splitting the key gives the path back, so different nodes have different keys. */
  lemma FlatteningLosesNothing(errors: seq<Error>, path: seq<string>)
    requires WellNamed(errors) && GoodPath(path) && Constrained(errors, path)
    ensures Join(path) in Flatten(errors, "")
    ensures Flatten(errors, "")[Join(path)] == NodeAt(errors, path).value.constraints.value
    ensures Split(Join(path)) == path
  {
    assert [] + path == path;
    KeyIffConstrained(errors, [], path);
    SplitJoin(path);
  }

  // ----- any tree at all -----

  type Entry = (string, seq<string>)

  /** The nodes with constraints in the order the code visits them, each as its printed path and its messages. */
  function Entries(errors: seq<Error>, parent: string): seq<Entry>
    decreases errors
  {
    if errors == [] then []
    else Entries(errors[..|errors| - 1], parent) + EntriesOfOne(errors[|errors| - 1], parent)
  }

  function EntriesOfOne(e: Error, parent: string): seq<Entry>
    decreases e
  {
    var path := PathOf(parent, e.property);
    OwnEntry(e, path) + Entries(e.children, path)
  }

  function OwnEntry(e: Error, path: string): seq<Entry> {
    match e.constraints case Some(messages) => [(path, messages)] case None => []
  }

  /** The map that assigning the entries in order leaves behind. */
  function LastWins(entries: seq<Entry>): Messages {
    if entries == [] then map[]
    else
      var last := entries[|entries| - 1];
      LastWins(entries[..|entries| - 1])[last.0 := last.1]
  }

  predicate DistinctPaths(entries: seq<Entry>) {
    forall i, j | 0 <= i < j < |entries| :: entries[i].0 != entries[j].0
  }

  /** Entry i is the last one with its path. */
  predicate IsLast(entries: seq<Entry>, i: nat) {
    i < |entries| && forall j | i < j < |entries| :: entries[j].0 != entries[i].0
  }

  lemma {:induction false} LastWinsAppend(a: seq<Entry>, b: seq<Entry>)
    ensures LastWins(a + b) == LastWins(a) + LastWins(b)
    decreases |b|
  {
    if b == [] {
      assert a + b == a;
    } else {
      var n := |b| - 1;
      assert (a + b)[..|a + b| - 1] == a + b[..n];
      LastWinsAppend(a, b[..n]);
      assert (LastWins(a) + LastWins(b[..n]))[b[n].0 := b[n].1] == LastWins(a) + LastWins(b[..n])[b[n].0 := b[n].1];
    }
  }

  lemma {:induction false} FlattenIsLastWins(errors: seq<Error>, parent: string)
    ensures Flatten(errors, parent) == LastWins(Entries(errors, parent))
    decreases errors
  {
    if errors != [] {
      var init, e := errors[..|errors| - 1], errors[|errors| - 1];
      FlattenIsLastWins(init, parent);
      FlattenOneIsLastWins(e, parent);
      LastWinsAppend(Entries(init, parent), EntriesOfOne(e, parent));
    }
  }

  lemma {:induction false} FlattenOneIsLastWins(e: Error, parent: string)
    ensures FlattenOne(e, parent) == LastWins(EntriesOfOne(e, parent))
    decreases e
  {
    var path := PathOf(parent, e.property);
    FlattenIsLastWins(e.children, path);
    LastWinsAppend(OwnEntry(e, path), Entries(e.children, path));
    assert LastWins(OwnEntry(e, path)) == OwnMessages(e, path) by {
      if e.constraints.Some? {
        assert OwnEntry(e, path)[..0] == [];
      }
    }
  }

  predicate HasPath(entries: seq<Entry>, key: string) {
    exists i :: 0 <= i < |entries| && entries[i].0 == key
  }

  lemma {:induction false} LastWinsKeys(entries: seq<Entry>, key: string)
    ensures key in LastWins(entries) <==> HasPath(entries, key)
    decreases |entries|
  {
    if entries != [] {
      var n := |entries| - 1;
      LastWinsKeys(entries[..n], key);
      if i :| 0 <= i < |entries| && entries[i].0 == key {
        assert i < n ==> entries[..n][i].0 == key;
      }
      if i :| 0 <= i < n && entries[..n][i].0 == key {
        assert entries[i].0 == key;
      }
    }
  }

  lemma {:induction false} LastWinsValue(entries: seq<Entry>, i: nat)
    requires IsLast(entries, i)
    ensures entries[i].0 in LastWins(entries) && LastWins(entries)[entries[i].0] == entries[i].1
    decreases |entries|
  {
    var n := |entries| - 1;
    if i < n {
      assert IsLast(entries[..n], i);
      LastWinsValue(entries[..n], i);
    }
  }

  /** There are as many keys as entries exactly if no two entries share a path. */
  lemma {:induction false} LastWinsCount(entries: seq<Entry>)
    ensures |LastWins(entries)| <= |entries|
    ensures |LastWins(entries)| == |entries| <==> DistinctPaths(entries)
    decreases |entries|
  {
    if entries != [] {
      var n := |entries| - 1;
      var m := LastWins(entries[..n]);
      LastWinsCount(entries[..n]);
      LastWinsKeys(entries[..n], entries[n].0);
      MapUpdateCount(m, entries[n].0, entries[n].1);
      assert DistinctPaths(entries) <==> DistinctPaths(entries[..n]) && !HasPath(entries[..n], entries[n].0) by {
        if DistinctPaths(entries[..n]) && !HasPath(entries[..n], entries[n].0) {
          assert forall i | 0 <= i < n :: entries[..n][i] == entries[i];
        }
      }
    }
  }

  lemma MapUpdateCount(m: Messages, key: string, messages: seq<string>)
    ensures |m[key := messages]| == |m| + (if key in m then 0 else 1)
  {
    assert m[key := messages].Keys == m.Keys + {key};
    assert |m| == |m.Keys| && |m[key := messages]| == |m[key := messages].Keys|;
  }

  /** The number of nodes with constraints. */
  function Constraineds(errors: seq<Error>): nat
    decreases errors
  {
    if errors == [] then 0
    else Constraineds(errors[..|errors| - 1]) + ConstrainedsOfOne(errors[|errors| - 1])
  }

  function ConstrainedsOfOne(e: Error): nat
    decreases e
  {
    (if e.constraints.Some? then 1 else 0) + Constraineds(e.children)
  }

  lemma {:induction false} OneEntryEach(errors: seq<Error>, parent: string)
    ensures |Entries(errors, parent)| == Constraineds(errors)
    decreases errors
  {
    if errors != [] {
      var e := errors[|errors| - 1];
      OneEntryEach(errors[..|errors| - 1], parent);
      OneEntryEachOfOne(e, parent);
    }
  }

  lemma {:induction false} OneEntryEachOfOne(e: Error, parent: string)
    ensures |EntriesOfOne(e, parent)| == ConstrainedsOfOne(e)
    decreases e
  {
    OneEntryEach(e.children, PathOf(parent, e.property));
  }

  /** For every tree whatever: the keys are the printed paths of the nodes with constraints; where paths coincide the
      node visited last keeps the key; so a node's messages are lost exactly if two such nodes print alike. */
  lemma NothingIsLostIff(errors: seq<Error>)
    ensures var entries := Entries(errors, "");
            && (forall key :: key in Flatten(errors, "") <==> HasPath(entries, key))
            && (forall i: nat | IsLast(entries, i) ::
                  entries[i].0 in Flatten(errors, "") && Flatten(errors, "")[entries[i].0] == entries[i].1)
            && |Flatten(errors, "")| <= Constraineds(errors)
            && (|Flatten(errors, "")| == Constraineds(errors) <==> DistinctPaths(entries))
  {
    var entries := Entries(errors, "");
    FlattenIsLastWins(errors, "");
    forall key ensures key in LastWins(entries) <==> HasPath(entries, key) {
      LastWinsKeys(entries, key);
    }
    forall i: nat | IsLast(entries, i)
      ensures entries[i].0 in LastWins(entries) && LastWins(entries)[entries[i].0] == entries[i].1
    {
      LastWinsValue(entries, i);
    }
    LastWinsCount(entries);
    OneEntryEach(errors, "");
  }

  /** Every entry's path is a key. */
  lemma EntryIsKey(errors: seq<Error>, parent: string, i: nat)
    requires i < |Entries(errors, parent)|
    ensures Entries(errors, parent)[i].0 in Flatten(errors, parent)
  {
    FlattenIsLastWins(errors, parent);
    LastWinsKeys(Entries(errors, parent), Entries(errors, parent)[i].0);
  }

  lemma EntryOfOneIsKey(e: Error, parent: string, i: nat)
    requires i < |EntriesOfOne(e, parent)|
    ensures EntriesOfOne(e, parent)[i].0 in FlattenOne(e, parent)
  {
    FlattenOneIsLastWins(e, parent);
    LastWinsKeys(EntriesOfOne(e, parent), EntriesOfOne(e, parent)[i].0);
  }

  /** Well-named trees have distinct paths, so they lose nothing. */
  lemma {:induction false} WellNamedPathsAreDistinct(errors: seq<Error>, above: seq<string>)
    requires WellNamed(errors) && GoodPath(above)
    ensures DistinctPaths(Entries(errors, Join(above)))
    decreases errors
  {
    if errors != [] {
      var init, e := errors[..|errors| - 1], errors[|errors| - 1];
      var a, b := Entries(init, Join(above)), EntriesOfOne(e, Join(above));
      WellNamedPathsAreDistinct(init, above);
      WellNamedPathsOfOneAreDistinct(e, above);
      forall i, j | 0 <= i < |a| && 0 <= j < |b| ensures a[i].0 != b[j].0 {
        EntryIsKey(init, Join(above), i);
        EntryOfOneIsKey(e, Join(above), j);
        var path := KeysArePaths(init, above, a[i].0);
        NotUnderAnotherName(e, above, path);
      }
    }
  }

  lemma {:induction false} WellNamedPathsOfOneAreDistinct(e: Error, above: seq<string>)
    requires GoodName(e.property) && WellNamedOne(e) && GoodPath(above)
    ensures DistinctPaths(EntriesOfOne(e, Join(above)))
    decreases e
  {
    var here := above + [e.property];
    JoinExtends(above, e.property);
    WellNamedPathsAreDistinct(e.children, here);
    var below := Entries(e.children, Join(here));
    forall i | 0 <= i < |below| ensures below[i].0 != Join(here) {
      EntryIsKey(e.children, Join(here), i);
      var sub := KeysArePaths(e.children, here, below[i].0);
      LongerPathsDiffer(here, sub);
    }
  }

  /** A tree that is not well named and does lose a message: a dot in a name makes two nodes print alike. */
  lemma DottedNamesCollide(first: seq<string>, second: seq<string>)
    ensures var errors := [Error("a.b", Some(first), []), Error("a", None, [Error("b", Some(second), [])])];
            Constraineds(errors) == 2 && Flatten(errors, "") == map["a.b" := second]
  {
    var one := Error("a.b", Some(first), []);
    var leaf := Error("b", Some(second), []);
    var two := Error("a", None, [leaf]);
    Single(leaf, "a");
    Single(one, "");
    assert PathOf("a", "b") == "a.b" && [one, two][..1] == [one];
    assert Flatten([one, two], "") == Flatten([one], "") + FlattenOne(two, "");
    assert Constraineds([one, two]) == Constraineds([one]) + ConstrainedsOfOne(two);
  }

  lemma Single(e: Error, parent: string)
    ensures Flatten([e], parent) == FlattenOne(e, parent) && Constraineds([e]) == ConstrainedsOfOne(e)
  {
    assert [e][..0] == [];
  }
}
