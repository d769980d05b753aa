/** The orders of the linker, and the sorted copy of a composition it works on. */
module Proposal {
  import opened Strings
  import opened Orders
  import opened Composition
  import opened Scopes

  function CompareScopes(a: Scope, b: Scope): int {
    Compare(a.id, b.id)
  }

  function CompareNodes(a: Node, b: Node): int {
    Compare(a.id, b.id)
  }

  function CompareProvided(a: ProvidedPort, b: ProvidedPort): int {
    Compare(a.id, b.id)
  }

  function CompareRequired(a: RequiredPort, b: RequiredPort): int {
    Compare(a.id, b.id)
  }

  function CompareBindings(a: Binding, b: Binding): int {
    Then(Compare(a.consumer.node, b.consumer.node),
         Then(Compare(a.consumer.port, b.consumer.port),
              Then(Compare(a.provider.node, b.provider.node),
                   Then(Compare(a.provider.port, b.provider.port),
                        Compare(a.revision, b.revision)))))
  }

  function CompareSites(a: Site, b: Site): int {
    if a.ServiceSite? != b.ServiceSite? then if a.ServiceSite? then -1 else 1
    else Then(Compare(a.serviceId, b.serviceId),
              if a.MachineSite? && b.MachineSite? then Compare(a.machineId, b.machineId) else 0)
  }

  function NodeId(n: Node): Id {
    n.id
  }

  function ProvidedId(p: ProvidedPort): Id {
    p.id
  }

  function RequiredId(p: RequiredPort): Id {
    p.id
  }

  function SortPorts(n: Node): Node {
    n.(provided := Sort(n.provided, CompareProvided), required := Sort(n.required, CompareRequired))
  }

  function SortAllPorts(ns: seq<Node>): (r: seq<Node>)
    ensures |r| == |ns|
    ensures forall i :: 0 <= i < |ns| ==> r[i] == SortPorts(ns[i])
  {
    seq(|ns|, i requires 0 <= i < |ns| => SortPorts(ns[i]))
  }

  function Proposed(c: Composition): Composition {
    Composition(
      Sort(c.scopes, CompareScopes),
      Sort(SortAllPorts(c.nodes), CompareNodes),
      Sort(c.bindings, CompareBindings))
  }

  /* The comparators order, and those on identifiers tell unique elements apart. */

  /** `z` compares the ends of the two comparisons `x` and `y`. */
  ghost predicate Transits(x: int, y: int, z: int) {
    && (x <= 0 && y <= 0 ==> z <= 0)
    && (x <= 0 && y <= 0 && (x < 0 || y < 0) ==> z < 0)
    && (x == 0 && y == 0 ==> z == 0)
  }

  lemma CompareTransits(a: Str, b: Str, c: Str)
    ensures Transits(Compare(a, b), Compare(b, c), Compare(a, c))
  {
    CompareZero(a, b);
    CompareZero(b, c);
    CompareZero(a, c);
    if Compare(a, b) <= 0 && Compare(b, c) <= 0 {
      CompareTransitive(a, b, c);
    }
  }

  lemma ById<T(!new)>(cmp: (T, T) -> int, key: T -> Id)
    requires forall a, b :: cmp(a, b) == Compare(key(a), key(b))
    ensures Comparator(cmp)
    ensures forall a, b :: cmp(a, b) == 0 <==> key(a) == key(b)
  {
    forall a, b ensures Flips(cmp, a, b) {
      CompareFlips(key(a), key(b));
    }
    forall a, b, c ensures Chains(cmp, a, b, c) {
      CompareTransits(key(a), key(b), key(c));
    }
    forall a, b ensures cmp(a, b) == 0 <==> key(a) == key(b) {
      CompareZero(key(a), key(b));
    }
  }

  lemma BindingsFlip(a: Binding, b: Binding)
    ensures CompareBindings(a, b) == -CompareBindings(b, a)
    ensures CompareBindings(a, b) == 0 <==> a == b
  {
    CompareFlips(a.consumer.node, b.consumer.node);
    CompareFlips(a.consumer.port, b.consumer.port);
    CompareFlips(a.provider.node, b.provider.node);
    CompareFlips(a.provider.port, b.provider.port);
    CompareFlips(a.revision, b.revision);
    CompareZero(a.consumer.node, b.consumer.node);
    CompareZero(a.consumer.port, b.consumer.port);
    CompareZero(a.provider.node, b.provider.node);
    CompareZero(a.provider.port, b.provider.port);
    CompareZero(a.revision, b.revision);
  }

  lemma BindingsTransit(a: Binding, b: Binding, c: Binding)
    ensures Transits(CompareBindings(a, b), CompareBindings(b, c), CompareBindings(a, c))
  {
    CompareTransits(a.consumer.node, b.consumer.node, c.consumer.node);
    CompareTransits(a.consumer.port, b.consumer.port, c.consumer.port);
    CompareTransits(a.provider.node, b.provider.node, c.provider.node);
    CompareTransits(a.provider.port, b.provider.port, c.provider.port);
    CompareTransits(a.revision, b.revision, c.revision);
  }

  lemma BindingsOrdered()
    ensures Comparator(CompareBindings)
    ensures forall a, b :: CompareBindings(a, b) == 0 <==> a == b
  {
    forall a, b ensures Flips(CompareBindings, a, b) && (CompareBindings(a, b) == 0 <==> a == b) {
      BindingsFlip(a, b);
    }
    forall a, b, c ensures Chains(CompareBindings, a, b, c) {
      BindingsTransit(a, b, c);
    }
  }

  lemma SitesFlip(a: Site, b: Site)
    ensures CompareSites(a, b) == -CompareSites(b, a)
    ensures CompareSites(a, b) == 0 <==> a == b
  {
    CompareFlips(a.serviceId, b.serviceId);
    CompareZero(a.serviceId, b.serviceId);
    if a.MachineSite? && b.MachineSite? {
      CompareFlips(a.machineId, b.machineId);
      CompareZero(a.machineId, b.machineId);
    }
  }

  lemma SitesTransit(a: Site, b: Site, c: Site)
    ensures Transits(CompareSites(a, b), CompareSites(b, c), CompareSites(a, c))
  {
    CompareTransits(a.serviceId, b.serviceId, c.serviceId);
    if a.MachineSite? && b.MachineSite? && c.MachineSite? {
      CompareTransits(a.machineId, b.machineId, c.machineId);
    }
  }

  lemma SitesOrdered()
    ensures Comparator(CompareSites)
    ensures forall a, b :: CompareSites(a, b) == 0 <==> a == b
  {
    forall a, b ensures Flips(CompareSites, a, b) && (CompareSites(a, b) == 0 <==> a == b) {
      SitesFlip(a, b);
    }
    forall a, b, c ensures Chains(CompareSites, a, b, c) {
      SitesTransit(a, b, c);
    }
  }

  lemma UniqueSeparates<T(!new)>(s: seq<T>, cmp: (T, T) -> int, key: T -> Id)
    requires UniqueBy(s, key) && forall a, b :: cmp(a, b) == 0 <==> key(a) == key(b)
    ensures Separates(s, cmp)
  {
    forall a, b | a in s && b in s && cmp(a, b) == 0 ensures a == b {
      var i :| 0 <= i < |s| && s[i] == a;
      var j :| 0 <= j < |s| && s[j] == b;
      UniqueAt(s, key, i, j);
    }
  }

  lemma UniqueAt<T, K>(s: seq<T>, key: T -> K, i: nat, j: nat)
    requires UniqueBy(s, key) && i < |s| && j < |s| && key(s[i]) == key(s[j])
    ensures i == j
  {
  }

  /** Elements with unique identifiers sort to one listing, however they come. */
  lemma SortById<T(!new)>(s: seq<T>, t: seq<T>, cmp: (T, T) -> int, key: T -> Id)
    requires multiset(s) == multiset(t) && UniqueBy(s, key)
    requires forall a, b :: cmp(a, b) == Compare(key(a), key(b))
    ensures Sort(s, cmp) == Sort(t, cmp)
  {
    ById(cmp, key);
    UniqueSeparates(s, cmp, key);
    SortForgetsOrder(s, t, cmp);
  }

  lemma SortBindingsForgets(s: seq<Binding>, t: seq<Binding>)
    requires multiset(s) == multiset(t)
    ensures Sort(s, CompareBindings) == Sort(t, CompareBindings)
  {
    BindingsOrdered();
    SortForgetsOrder(s, t, CompareBindings);
  }

  /** Sharing an identifier is a matter of content, not of order. */
  lemma UniqueForgetsOrder<T, K>(s: seq<T>, t: seq<T>, key: T -> K)
    requires multiset(s) == multiset(t) && UniqueBy(s, key)
    ensures UniqueBy(t, key)
  {
    forall i, j | 0 <= i < j < |t| ensures key(t[i]) != key(t[j]) {
      if key(t[i]) == key(t[j]) {
        assert t[i] in multiset(t) && t[j] in multiset(t);
        OnceOnly(s, key, t[i], t[j]);
        Twice(t, i, j);
        assert false;
      }
    }
  }

  lemma OnceOnly<T, K>(s: seq<T>, key: T -> K, x: T, y: T)
    requires UniqueBy(s, key) && x in multiset(s) && y in multiset(s) && key(x) == key(y)
    ensures x == y && multiset(s)[x] == 1
  {
    var i :| 0 <= i < |s| && s[i] == x;
    var j :| 0 <= j < |s| && s[j] == y;
    UniqueAt(s, key, i, j);
    assert s == s[..i] + [s[i]] + s[i + 1..];
    forall k | 0 <= k < |s| && k != i ensures s[k] != x {
      assert if k < i then key(s[k]) != key(s[i]) else key(s[i]) != key(s[k]);
    }
    assert x !in s[..i] && x !in s[i + 1..];
  }

  /* What the orders put first. */

  /** `a` is a proper prefix of `b`, or smaller at the first unit that differs. */
  ghost predicate Precedes(a: Str, b: Str) {
    exists i: nat :: BeforeAt(a, b, i)
  }

  /** Of the first texts that differ, the one of `a` comes first. */
  ghost predicate FirstPrecedes(a: seq<Str>, b: seq<Str>) {
    |a| == |b| && exists i :: 0 <= i < |a| && Precedes(a[i], b[i]) && a[..i] == b[..i]
  }

  lemma {:induction false} FirstPrecedesCons(x: Str, y: Str, a: seq<Str>, b: seq<Str>)
    requires |a| == |b|
    ensures FirstPrecedes([x] + a, [y] + b) <==> Precedes(x, y) || (x == y && FirstPrecedes(a, b))
  {
    var s, t := [x] + a, [y] + b;
    if Precedes(x, y) {
      assert Precedes(s[0], t[0]) && s[..0] == t[..0];
    }
    if x == y && FirstPrecedes(a, b) {
      var i :| 0 <= i < |a| && Precedes(a[i], b[i]) && a[..i] == b[..i];
      assert s[..i + 1] == [x] + a[..i] && t[..i + 1] == [y] + b[..i];
      assert Precedes(s[i + 1], t[i + 1]);
    }
    if FirstPrecedes(s, t) {
      var i :| 0 <= i < |s| && Precedes(s[i], t[i]) && s[..i] == t[..i];
      if i > 0 {
        assert s[..i][0] == x && t[..i][0] == y;
        assert a[..i - 1] == s[..i][1..] && b[..i - 1] == t[..i][1..];
        assert Precedes(a[i - 1], b[i - 1]);
      }
    }
  }

  /** The comparison of a list of texts, the first that differs deciding. */
  function CompareAll(a: seq<Str>, b: seq<Str>): int
    requires |a| == |b|
  {
    if a == [] then 0 else Then(Compare(a[0], b[0]), CompareAll(a[1..], b[1..]))
  }

  lemma {:induction false} CompareAllIff(a: seq<Str>, b: seq<Str>)
    requires |a| == |b|
    ensures CompareAll(a, b) < 0 <==> FirstPrecedes(a, b)
  {
    if a != [] {
      CompareAllIff(a[1..], b[1..]);
      CompareBefore(a[0], b[0]);
      CompareZero(a[0], b[0]);
      assert a == [a[0]] + a[1..] && b == [b[0]] + b[1..];
      FirstPrecedesCons(a[0], b[0], a[1..], b[1..]);
    }
  }

  function EndsOf(b: Binding): seq<Str> {
    [b.consumer.node, b.consumer.port, b.provider.node, b.provider.port, b.revision]
  }

  /** Bindings are ordered by consumer, then by provider, then by revision. */
  lemma BindingsOrder(a: Binding, b: Binding)
    ensures CompareBindings(a, b) < 0 <==> FirstPrecedes(EndsOf(a), EndsOf(b))
  {
    var s, t := EndsOf(a), EndsOf(b);
    CompareAllIff(s, t);
    CompareAllFrom(s, t, 0);
    CompareAllFrom(s, t, 1);
    CompareAllFrom(s, t, 2);
    CompareAllFrom(s, t, 3);
    CompareAllFrom(s, t, 4);
    assert CompareAll(s[5..], t[5..]) == 0;
    assert s[0..] == s && t[0..] == t;
  }

  lemma CompareAllFrom(a: seq<Str>, b: seq<Str>, i: nat)
    requires |a| == |b| && i < |a|
    ensures CompareAll(a[i..], b[i..]) == Then(Compare(a[i], b[i]), CompareAll(a[i + 1..], b[i + 1..]))
  {
    assert a[i..][1..] == a[i + 1..] && b[i..][1..] == b[i + 1..];
  }

  /** The services come before the machines; then the service decides, then the machine. */
  lemma SitesOrder(a: Site, b: Site)
    ensures CompareSites(a, b) < 0 <==>
      || (a.ServiceSite? && b.MachineSite?)
      || (a.ServiceSite? && b.ServiceSite? && Precedes(a.serviceId, b.serviceId))
      || (a.MachineSite? && b.MachineSite?
          && (Precedes(a.serviceId, b.serviceId) || (a.serviceId == b.serviceId && Precedes(a.machineId, b.machineId))))
  {
    CompareBefore(a.serviceId, b.serviceId);
    CompareZero(a.serviceId, b.serviceId);
    if a.MachineSite? && b.MachineSite? {
      CompareBefore(a.machineId, b.machineId);
    }
  }
}
