/** The rows of a group, the list of groups a run starts from, and folding one group by update and delete. */
module Grouping {
  import opened Domain
  import opened Folding

  /** A group as the first pass lists it: its key and the numbers of its first and last row. */
  datatype Bounds = Bounds(key: Key, first: nat, last: nat)

  function Group(log: seq<Event>, s: Selection, k: Key): (r: seq<Event>)
    ensures forall e :: e in r <==> e in log && InGroup(s, k, e)
  {
    if log == [] then []
    else (if InGroup(s, k, log[0]) then [log[0]] else []) + Group(log[1..], s, k)
  }

  function Nums(log: seq<Event>): (r: set<nat>)
    ensures forall n :: n in r <==> exists e :: e in log && e.num == n
  {
    if log == [] then {} else {log[0].num} + Nums(log[1..])
  }

  function InRange(log: seq<Event>, scope: Option<Id>, lo: nat, hi: nat): seq<Event> {
    if log == [] then []
    else (if Scoped(scope, log[0]) && lo <= log[0].num <= hi then [log[0]] else []) + InRange(log[1..], scope, lo, hi)
  }

  function ListFrom(all: seq<Event>, log: seq<Event>, s: Selection, seen: set<Key>): seq<Bounds> {
    if log == [] then []
    else if Picks(s, log[0]) && KeyOf(log[0]) !in seen && |Group(all, s, KeyOf(log[0]))| > 1 then
      var k := KeyOf(log[0]);
      var g := Group(all, s, k);
      [Bounds(k, g[0].num, g[|g| - 1].num)] + ListFrom(all, log[1..], s, seen + {k})
    else ListFrom(all, log[1..], s, seen)
  }

  /** The groups with more than one row, in the order they first appear. */
  function Groups(log: seq<Event>, scope: Option<Id>): seq<Bounds> {
    var s := Everything(log, scope, Keys(log));
    ListFrom(log, log, s, {})
  }

  function KeysOf(list: seq<Bounds>): (r: set<Key>)
    ensures forall k :: k in r <==> exists i :: 0 <= i < |list| && list[i].key == k
  {
    if list == [] then {} else {list[0].key} + KeysOf(list[1..])
  }

  ghost predicate Listed(all: seq<Event>, s: Selection, b: Bounds) {
    var g := Group(all, s, b.key);
    |g| > 1 && b.first == g[0].num && b.last == g[|g| - 1].num
  }

  ghost predicate HasKey(list: seq<Bounds>, k: Key) {
    exists i :: 0 <= i < |list| && list[i].key == k
  }

  lemma HasKeyCons(b: Bounds, list: seq<Bounds>, k: Key)
    ensures HasKey([b] + list, k) <==> b.key == k || HasKey(list, k)
  {
    if i :| 0 <= i < |list| && list[i].key == k { assert ([b] + list)[i + 1].key == k; }
    assert ([b] + list)[0] == b;
  }

  ghost predicate AllListed(all: seq<Event>, s: Selection, list: seq<Bounds>) {
    forall i :: 0 <= i < |list| ==> Listed(all, s, list[i])
  }

  ghost predicate NewKeys(list: seq<Bounds>, seen: set<Key>) {
    && (forall i :: 0 <= i < |list| ==> list[i].key !in seen)
    && (forall i, j :: 0 <= i < j < |list| ==> list[i].key != list[j].key)
  }

  /** A list of groups with more than one row, none twice and none already seen. */
  ghost predicate Lists(all: seq<Event>, s: Selection, list: seq<Bounds>, seen: set<Key>) {
    AllListed(all, s, list) && NewKeys(list, seen)
  }

  lemma NewKeysCons(b: Bounds, list: seq<Bounds>, seen: set<Key>)
    requires NewKeys(list, seen + {b.key}) && b.key !in seen
    ensures NewKeys([b] + list, seen)
  {
    var more := [b] + list;
    forall i | 0 < i < |more| ensures more[i] == list[i - 1] {}
    forall i, j | 0 <= i < j < |more| ensures more[i].key != more[j].key {
      if i == 0 { assert list[j - 1].key !in seen + {b.key}; } else { assert list[i - 1].key != list[j - 1].key; }
    }
  }

  lemma ListsCons(all: seq<Event>, s: Selection, b: Bounds, list: seq<Bounds>, seen: set<Key>)
    requires Lists(all, s, list, seen + {b.key}) && Listed(all, s, b) && b.key !in seen
    ensures Lists(all, s, [b] + list, seen)
  {
    NewKeysCons(b, list, seen);
    forall i | 0 <= i < |list| + 1 ensures Listed(all, s, ([b] + list)[i]) {
      if i > 0 { assert ([b] + list)[i] == list[i - 1]; }
    }
  }

  /** Every group with more than one row is listed, once, with its bounds. */
  lemma {:induction false} ListSpec(all: seq<Event>, log: seq<Event>, s: Selection, seen: set<Key>)
    ensures Lists(all, s, ListFrom(all, log, s, seen), seen)
    ensures forall e :: e in log && Picks(s, e) && KeyOf(e) !in seen && |Group(all, s, KeyOf(e))| > 1 ==>
              HasKey(ListFrom(all, log, s, seen), KeyOf(e))
    decreases |log|
  {
    if log != [] {
      var rest, list := log[1..], ListFrom(all, log, s, seen);
      var met := Picks(s, log[0]) && KeyOf(log[0]) !in seen && |Group(all, s, KeyOf(log[0]))| > 1;
      var known := if met then seen + {KeyOf(log[0])} else seen;
      var tail := ListFrom(all, rest, s, known);
      ListSpec(all, rest, s, known);
      if met {
        assert list == [list[0]] + tail;
        ListsCons(all, s, list[0], tail, seen);
      }
      forall e | e in log && Picks(s, e) && KeyOf(e) !in seen && |Group(all, s, KeyOf(e))| > 1
        ensures HasKey(list, KeyOf(e))
      {
        assert e == log[0] || e in rest;
        if met { HasKeyCons(list[0], tail, KeyOf(e)); }
      }
    }
  }

  /** The rows of a listed group lie within its bounds. */
  lemma {:induction false} GroupAscends(log: seq<Event>, s: Selection, k: Key)
    requires Ascending(log)
    ensures Ascending(Group(log, s, k))
    decreases |log|
  {
    if log != [] {
      var rest := log[1..];
      assert forall i :: 0 <= i < |rest| ==> rest[i] == log[i + 1];
      GroupAscends(rest, s, k);
      forall e | e in Group(rest, s, k) ensures log[0].num < e.num {
        var j :| 0 <= j < |rest| && rest[j] == e;
      }
    }
  }

  lemma WithinBounds(log: seq<Event>, s: Selection, b: Bounds)
    requires Ascending(log) && Listed(log, s, b)
    ensures forall e :: e in log && InGroup(s, b.key, e) ==> b.first <= e.num <= b.last
    ensures b.last <= Top(log)
  {
    var g := Group(log, s, b.key);
    GroupAscends(log, s, b.key);
    forall e | e in log && InGroup(s, b.key, e) ensures b.first <= e.num <= b.last {
      assert e in g;
      var j :| 0 <= j < |g| && g[j] == e;
      assert j > 0 ==> g[0].num < g[j].num;
      assert j < |g| - 1 ==> g[j].num < g[|g| - 1].num;
    }
    assert g[|g| - 1] in log;
    var j :| 0 <= j < |log| && log[j] == g[|g| - 1];
    assert j < |log| - 1 ==> log[j].num < log[|log| - 1].num;
  }

  // ---- Reading the rows of a range ----

  lemma {:induction false} RangeGroups(log: seq<Event>, s: Selection, k: Key)
    ensures Group(InRange(log, s.scope, s.lo, s.hi), s, k) == Group(log, s, k)
    ensures TextOf(InRange(log, s.scope, s.lo, s.hi), s, k) == TextOf(log, s, k)
    decreases |log|
  {
    if log != [] {
      RangeGroups(log[1..], s, k);
      var tail := InRange(log[1..], s.scope, s.lo, s.hi);
      if Scoped(s.scope, log[0]) && s.lo <= log[0].num <= s.hi {
        assert ([log[0]] + tail)[1..] == tail;
      } else {
        assert [] + tail == tail;
      }
    }
  }

  lemma {:induction false} GroupSnoc(log: seq<Event>, e: Event, s: Selection, k: Key)
    ensures Group(log + [e], s, k) == Group(log, s, k) + (if InGroup(s, k, e) then [e] else [])
    decreases |log|
  {
    if log == [] {
      assert [] + [e] == [e];
    } else {
      var rest := log[1..];
      assert (log + [e])[0] == log[0] && (log + [e])[1..] == rest + [e];
      GroupSnoc(rest, e, s, k);
      var head := if InGroup(s, k, log[0]) then [log[0]] else [];
      var last := if InGroup(s, k, e) then [e] else [];
      assert head + (Group(rest, s, k) + last) == (head + Group(rest, s, k)) + last;
    }
  }

  lemma {:induction false} TextSnoc(log: seq<Event>, e: Event, s: Selection, k: Key)
    ensures TextOf(log + [e], s, k) == TextOf(log, s, k) + (if InGroup(s, k, e) then e.payload.text else "")
    decreases |log|
  {
    if log == [] {
      assert [] + [e] == [e];
    } else {
      var rest := log[1..];
      assert (log + [e])[0] == log[0] && (log + [e])[1..] == rest + [e];
      TextSnoc(rest, e, s, k);
      var head := if InGroup(s, k, log[0]) then log[0].payload.text else "";
      var last := if InGroup(s, k, e) then e.payload.text else "";
      assert head + (TextOf(rest, s, k) + last) == (head + TextOf(rest, s, k)) + last;
    }
  }

  lemma {:induction false} OtherGroup(log: seq<Event>, s: Selection, r: Selection, seen: set<Key>, k: Key)
    requires k !in s.want
    ensures Group(FoldFrom(log, s, seen), r, k) == Group(log, r, k)
    decreases |log|
  {
    if log != [] {
      OtherGroup(log[1..], s, r, if Picks(s, log[0]) then seen + {KeyOf(log[0])} else seen, k);
      if Picks(s, log[0]) && KeyOf(log[0]) in seen {
        assert seen + {KeyOf(log[0])} == seen;
        assert [] + Group(log[1..], r, k) == Group(log[1..], r, k);
      } else {
        var head := if Picks(s, log[0]) then WithText(log[0], TextOf(log, s, KeyOf(log[0]))) else log[0];
        var tail := FoldFrom(log[1..], s, if Picks(s, log[0]) then seen + {KeyOf(log[0])} else seen);
        assert FoldFrom(log, s, seen) == [head] + tail && ([head] + tail)[1..] == tail;
      }
    }
  }

  // ---- One group by update and delete ----

  /** UPDATE events SET payload WHERE seq. */
  function Rewritten(log: seq<Event>, num: nat, text: string): seq<Event> {
    if log == [] then []
    else
      var head := if log[0].num == num && log[0].payload.ItemDelta? then WithText(log[0], text) else log[0];
      [head] + Rewritten(log[1..], num, text)
  }

  /** DELETE FROM events WHERE seq IN. */
  function Without(log: seq<Event>, gone: set<nat>): seq<Event> {
    if log == [] then []
    else (if log[0].num in gone then [] else [log[0]]) + Without(log[1..], gone)
  }

  lemma {:induction false} WithoutTwice(log: seq<Event>, a: set<nat>, b: set<nat>)
    ensures Without(Without(log, a), b) == Without(log, a + b)
    decreases |log|
  {
    if log != [] {
      WithoutTwice(log[1..], a, b);
      var tail := Without(log[1..], a);
      if log[0].num in a {
        assert [] + tail == tail && [] + Without(tail, b) == Without(tail, b);
      } else {
        assert ([log[0]] + tail)[1..] == tail;
      }
    }
  }

  lemma {:induction false} WithoutNone(log: seq<Event>, gone: set<nat>)
    requires forall e :: e in log ==> e.num !in gone
    ensures Without(log, gone) == log
    decreases |log|
  {
    if log != [] {
      assert log[0] in log;
      forall e | e in log[1..] ensures e in log {}
      WithoutNone(log[1..], gone);
    }
  }

  lemma {:induction false} RewrittenNone(log: seq<Event>, num: nat, text: string)
    requires forall e :: e in log ==> e.num != num
    ensures Rewritten(log, num, text) == log
    decreases |log|
  {
    if log != [] {
      assert log[0] in log;
      forall e | e in log[1..] ensures e in log {}
      RewrittenNone(log[1..], num, text);
    }
  }

  /** Once the group has been met, folding it deletes the rest of its rows. */
  lemma {:induction false} FoldRest(log: seq<Event>, s: Selection, k: Key, gone: set<nat>)
    requires Ascending(log) && s.want == {k}
    requires forall e :: e in log ==> (e.num in gone <==> InGroup(s, k, e))
    ensures FoldFrom(log, s, {k}) == Without(log, gone)
    decreases |log|
  {
    if log != [] {
      var rest := log[1..];
      assert log[0] in log;
      forall e | e in rest ensures e in log {}
      assert forall i :: 0 <= i < |rest| ==> rest[i] == log[i + 1];
      FoldRest(rest, s, k, gone);
      assert [] + Without(rest, gone) == Without(rest, gone);
    }
  }

  lemma AscendingTail(log: seq<Event>)
    requires Ascending(log) && log != []
    ensures Ascending(log[1..])
    ensures forall e :: e in log[1..] ==> e.num > log[0].num
  {
    var rest := log[1..];
    assert forall i :: 0 <= i < |rest| ==> rest[i] == log[i + 1];
    forall e | e in rest ensures e.num > log[0].num {
      var j :| 0 <= j < |rest| && rest[j] == e;
    }
  }

  lemma FoldOneFirst(log: seq<Event>, s: Selection, k: Key)
    requires Ascending(log) && s.want == {k} && log != [] && InGroup(s, k, log[0])
    ensures Fold(log, s) == Without(Rewritten(log, log[0].num, TextOf(log, s, k)), Nums(Group(log[1..], s, k)))
  {
    var rest, text := log[1..], TextOf(log, s, k);
    var gone := Nums(Group(rest, s, k));
    AscendingTail(log);
    forall e | e in rest ensures e.num in gone <==> InGroup(s, k, e) {
      if e.num in gone {
        var x :| x in Group(rest, s, k) && x.num == e.num;
        SameRow(rest, x, e);
      }
    }
    FoldRest(rest, s, k, gone);
    RewrittenNone(rest, log[0].num, text);
    var head := WithText(log[0], text);
    assert Rewritten(log, log[0].num, text) == [head] + rest && ([head] + rest)[1..] == rest;
    assert head.num !in gone;
    assert {} + {k} == {k};
  }

  /** Folding a single group: its first row takes the text, the others are deleted. */
  lemma {:induction false} FoldOne(log: seq<Event>, s: Selection, k: Key)
    requires Ascending(log) && s.want == {k} && Group(log, s, k) != []
    ensures var g := Group(log, s, k);
            Fold(log, s) == Without(Rewritten(log, g[0].num, TextOf(log, s, k)), Nums(g[1..]))
    decreases |log|
  {
    var g := Group(log, s, k);
    var rest, text := log[1..], TextOf(log, s, k);
    if InGroup(s, k, log[0]) {
      assert g == [log[0]] + Group(rest, s, k) && g[1..] == Group(rest, s, k);
      FoldOneFirst(log, s, k);
    } else {
      assert g == Group(rest, s, k) && TextOf(rest, s, k) == text;
      AscendingTail(log);
      FoldOne(rest, s, k);
      assert g[0] in g && log[0].num < g[0].num;
      assert log[0].num !in Nums(g[1..]);
      var tail := Rewritten(rest, g[0].num, text);
      assert Rewritten(log, g[0].num, text) == [log[0]] + tail && ([log[0]] + tail)[1..] == tail;
    }
  }

  lemma SameRow(log: seq<Event>, a: Event, b: Event)
    requires Ascending(log) && a in log && b in log && a.num == b.num
    ensures a == b
  {
    var i :| 0 <= i < |log| && log[i] == a;
    var j :| 0 <= j < |log| && log[j] == b;
  }

  lemma {:induction false} RewrittenSame(log: seq<Event>, e: Event)
    requires Ascending(log) && e in log && e.payload.ItemDelta?
    ensures Rewritten(log, e.num, e.payload.text) == log
    decreases |log|
  {
    var rest := log[1..];
    assert forall i :: 0 <= i < |rest| ==> rest[i] == log[i + 1];
    if log[0] == e {
      forall x | x in rest ensures x.num != e.num { var j :| 0 <= j < |rest| && rest[j] == x; assert log[j + 1] == x; }
      RewrittenNone(rest, e.num, e.payload.text);
    } else {
      assert e in rest;
      assert log[0].num != e.num by { var j :| 0 <= j < |rest| && rest[j] == e; assert log[j + 1] == e; }
      RewrittenSame(rest, e);
    }
  }

  /** A group with one row has that row's text. */
  lemma {:induction false} LoneText(log: seq<Event>, s: Selection, k: Key, e: Event)
    requires Group(log, s, k) == [e] && e.payload.ItemDelta?
    ensures TextOf(log, s, k) == e.payload.text
    decreases |log|
  {
    if InGroup(s, k, log[0]) {
      var rest := Group(log[1..], s, k);
      assert [log[0]] + rest == [e];
      assert [e][0] == log[0] && rest == [];
      forall x | x in log[1..] ensures !InGroup(s, k, x) { assert x !in rest; }
      AbsentText(log[1..], s, k);
    } else {
      assert Group(log, s, k) == Group(log[1..], s, k);
      LoneText(log[1..], s, k, e);
    }
  }

  // ---- Groups of one row need no folding ----

  lemma {:induction false} GroupLength(log: seq<Event>, s: Selection, k: Key, i: nat, j: nat)
    requires i < j < |log| && InGroup(s, k, log[i]) && InGroup(s, k, log[j])
    ensures |Group(log, s, k)| > 1
    decreases |log|
  {
    if i == 0 {
      assert log[j] == log[1..][j - 1];
      assert log[j] in Group(log[1..], s, k);
    } else {
      GroupLength(log[1..], s, k, i - 1, j - 1);
    }
  }

  lemma ListedAreKeys(log: seq<Event>, scope: Option<Id>, k: Key)
    requires k in KeysOf(Groups(log, scope))
    ensures k in Keys(log)
  {
    var all, list := Everything(log, scope, Keys(log)), Groups(log, scope);
    ListSpec(log, log, all, {});
    assert Lists(log, all, list, {});
    var i :| 0 <= i < |list| && list[i].key == k;
    assert Listed(log, all, list[i]);
    var g := Group(log, all, k);
    assert g[0] in g;
    InKeys(log);
  }

  /** The groups that are not listed have one row, and no more when the others are folded. */
  lemma UnlistedAreSingle(log: seq<Event>, scope: Option<Id>, k: Key, i: nat, j: nat)
    requires k in Keys(log) - KeysOf(Groups(log, scope))
    requires var all := Everything(log, scope, Keys(log));
             var many := KeysOf(Groups(log, scope));
             var f := Fold(log, all.(want := many));
             i < j < |f| && Picks(all.(want := Keys(log) - many), f[i]) && KeyOf(f[i]) == k
             && Picks(all.(want := Keys(log) - many), f[j])
    ensures KeyOf(Fold(log, Everything(log, scope, KeysOf(Groups(log, scope))))[j]) != k
  {
    var all, many := Everything(log, scope, Keys(log)), KeysOf(Groups(log, scope));
    var listed, s := all.(want := many), all.(want := Keys(log) - many);
    var f, g := Fold(log, listed), Group(log, all, k);
    ListSpec(log, log, all, {});
    assert g == [] || g[0] in g;
    OtherGroup(log, listed, s, {}, k);
    WiderGroup(log, s, all, k);
    if KeyOf(f[j]) == k {
      GroupLength(f, s, k, i, j);
      assert false;
    }
  }

  /** Folding the listed groups folds them all. */
  lemma ListedSuffice(log: seq<Event>, scope: Option<Id>)
    requires Ascending(log)
    ensures Fold(log, Everything(log, scope, KeysOf(Groups(log, scope)))) == Compacted(log, scope)
  {
    var all, many := Everything(log, scope, Keys(log)), KeysOf(Groups(log, scope));
    var listed, ones := all.(want := many), Keys(log) - many;
    var f, s := Fold(log, listed), all.(want := ones);
    FoldTwice(log, listed, ones, {}, {});
    forall i, j | 0 <= i < j < |f| && Picks(s, f[i]) && Picks(s, f[j]) ensures KeyOf(f[i]) != KeyOf(f[j]) {
      UnlistedAreSingle(log, scope, KeyOf(f[i]), i, j);
    }
    SingleStays(f, s, {});
    forall k | k in many ensures k in Keys(log) { ListedAreKeys(log, scope, k); }
    assert many + ones == Keys(log);
    var none: set<Key> := {};
    assert none + none == none;
  }

  lemma {:induction false} WiderGroup(log: seq<Event>, s: Selection, r: Selection, k: Key)
    requires s.scope == r.scope && s.lo == r.lo && s.hi == r.hi && k in s.want && k in r.want
    ensures Group(log, s, k) == Group(log, r, k)
    decreases |log|
  {
    if log != [] { WiderGroup(log[1..], s, r, k); }
  }
}
