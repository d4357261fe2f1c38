/**
 * The pure side of `VesselListController`: the type-count table, the four
 * `RemoveAll` filters, a reference definition of the vessels that survive all
 * of them, the body search, and the per-body buckets of the grouped view.
 * The controller class (module VesselListControl) is proved against these.
 */
module VesselFilters {
  import opened Wrappers
  import opened Text
  import opened Game

  // ---------------------------------------------------------------------------
  // Counting vessels per type

  /** Number of vessels in `vs` whose type string is `t`. */
  function CountOfType(vs: seq<Vessel>, t: string): nat {
    if vs == [] then 0
    else CountOfType(vs[..|vs| - 1], t) + (if vs[|vs| - 1].vesselType == t then 1 else 0)
  }

  function TypesIn(vs: seq<Vessel>): set<string> {
    set v | v in vs :: v.vesselType
  }

  /** The table `FetchVesselList` builds: one entry per type that occurs, holding its count. */
  function TypeCounts(vs: seq<Vessel>): map<string, int> {
    map t | t in TypesIn(vs) :: CountOfType(vs, t)
  }

  lemma {:induction false} CountOfTypeOccurs(vs: seq<Vessel>, t: string)
    ensures CountOfType(vs, t) > 0 <==> t in TypesIn(vs)
  {
    if vs != [] {
      var init := vs[..|vs| - 1];
      CountOfTypeOccurs(init, t);
      assert vs == init + [vs[|vs| - 1]];
      assert TypesIn(vs) == TypesIn(init) + {vs[|vs| - 1].vesselType};
    }
  }

  /** A type has an entry exactly when some vessel has it, and the entry is its (positive) count. */
  lemma TypeCountsSpec(vs: seq<Vessel>, t: string)
    ensures t in TypeCounts(vs) <==> exists v :: v in vs && v.vesselType == t
    ensures t in TypeCounts(vs) ==> TypeCounts(vs)[t] == CountOfType(vs, t) >= 1
  {
    CountOfTypeOccurs(vs, t);
  }

  lemma TypesInSnoc(vs: seq<Vessel>, v: Vessel)
    ensures TypesIn(vs + [v]) == TypesIn(vs) + {v.vesselType}
  {
    var s := vs + [v];
    forall t | t in TypesIn(s) ensures t in TypesIn(vs) + {v.vesselType} {
      var w :| w in s && w.vesselType == t;
    }
    forall t | t in TypesIn(vs) ensures t in TypesIn(s) {
      var w :| w in vs && w.vesselType == t;
      assert w in s;
    }
    assert v in s;
  }

  lemma CountOfTypeSnoc(vs: seq<Vessel>, v: Vessel, t: string)
    ensures CountOfType(vs + [v], t) == CountOfType(vs, t) + if v.vesselType == t then 1 else 0
  {
    var s := vs + [v];
    assert s[..|s| - 1] == vs;
  }

  /** Counting one more vessel is the dictionary step of the counting loop. */
  lemma TypeCountsSnoc(vs: seq<Vessel>, v: Vessel)
    ensures var t, m := v.vesselType, TypeCounts(vs);
      TypeCounts(vs + [v]) == if t in m then m[t := m[t] + 1] else m[t := 1]
  {
    var t, m := v.vesselType, TypeCounts(vs);
    var m' := TypeCounts(vs + [v]);
    var expected := if t in m then m[t := m[t] + 1] else m[t := 1];
    TypesInSnoc(vs, v);
    assert m'.Keys == expected.Keys;
    forall k | k in m' ensures m'[k] == expected[k] {
      CountOfTypeSnoc(vs, v, k);
      if k != t {
        assert k in m && expected[k] == m[k];
      } else if t in m {
        assert expected[k] == m[t] + 1;
      } else {
        CountOfTypeOccurs(vs, t);
        assert expected[k] == 1;
      }
    }
  }

  /** The counting loop's step, stated on the prefix it has counted. */
  lemma TypeCountsStep(vs: seq<Vessel>, i: nat)
    requires i < |vs|
    ensures var t, m := vs[i].vesselType, TypeCounts(vs[..i]);
      TypeCounts(vs[..i + 1]) == if t in m then m[t := m[t] + 1] else m[t := 1]
  {
    assert vs[..i + 1] == vs[..i] + [vs[i]];
    TypeCountsSnoc(vs[..i], vs[i]);
  }

  /** No vessels, no entries. */
  lemma TypeCountsEmpty()
    ensures TypeCounts([]) == map[]
  {
  }

  // ---------------------------------------------------------------------------
  // The four filters

  /** The names of the types marked invisible (`FindAll(type => type.visible == false).Select(type => type.name)`). */
  function InvisibleTypeNames(types: seq<VesselType>): set<string> {
    set vt | vt in types && !vt.visible :: vt.name
  }

  /** The filter stages of `performFilters`, each with the data its `RemoveAll` predicate reads. */
  datatype VesselFilter =
    | TypeVisibility(invisible: set<string>)
    | HiddenSet(hidden: set<VesselId>)
    | NearbyOnly(localBody: Body)
    | NameSearch(term: string)

  /** The predicate each stage hands to `RemoveAll`: true for the vessels it removes. */
  predicate Removes(f: VesselFilter, v: Vessel) {
    match f
    case TypeVisibility(invisible) => v.vesselType in invisible
    case HiddenSet(hidden) => v.id in hidden
    case NearbyOnly(localBody) => v.referenceBody != localBody
    case NameSearch(term) =>
      v.destroyed || v.vesselName.None? || IndexOfIgnoreCase(v.vesselName.value, term) == -1
  }

  /** `List<Vessel>.RemoveAll(predicate)`: keeps, in order, the vessels the stage does not remove. */
  function RemoveAll(s: seq<Vessel>, f: VesselFilter): (r: seq<Vessel>)
    ensures |r| <= |s|
  {
    if s == [] then []
    else (if Removes(f, s[0]) then [] else [s[0]]) + RemoveAll(s[1..], f)
  }

  /** `RemoveAll` keeps a vessel exactly when the stage does not remove it, and keeps the order. */
  lemma {:induction false} RemoveAllSpec(s: seq<Vessel>, f: VesselFilter)
    ensures forall v :: v in RemoveAll(s, f) <==> v in s && !Removes(f, v)
    ensures forall v :: multiset(RemoveAll(s, f))[v] == if Removes(f, v) then 0 else multiset(s)[v]
    ensures IsSubsequence(RemoveAll(s, f), s)
  {
    if s != [] {
      RemoveAllSpec(s[1..], f);
      var rest := RemoveAll(s[1..], f);
      if Removes(f, s[0]) {
        assert [] + rest == rest;
        SubsequenceOfTail(rest, s);
      } else {
        assert ([s[0]] + rest)[1..] == rest;
      }
      assert s == [s[0]] + s[1..];
    }
  }

  /** No stage in `fs` removes `v`. */
  predicate PassesAll(v: Vessel, fs: seq<VesselFilter>) {
    forall i :: 0 <= i < |fs| ==> !Removes(fs[i], v)
  }

  /** One pass keeping the vessels that pass every stage in `fs`. */
  function KeepAll(s: seq<Vessel>, fs: seq<VesselFilter>): seq<Vessel> {
    if s == [] then []
    else (if PassesAll(s[0], fs) then [s[0]] else []) + KeepAll(s[1..], fs)
  }

  lemma {:induction false} KeepAllNoStages(s: seq<Vessel>)
    ensures KeepAll(s, []) == s
  {
    if s != [] {
      KeepAllNoStages(s[1..]);
      assert s == [s[0]] + s[1..];
    }
  }

  /** Running one more `RemoveAll` after the stages `fs` is one pass over the extended stage list. */
  lemma {:induction false} RemoveAllAfterKeepAll(s: seq<Vessel>, fs: seq<VesselFilter>, f: VesselFilter)
    ensures RemoveAll(KeepAll(s, fs), f) == KeepAll(s, fs + [f])
  {
    if s != [] {
      var x := s[0];
      var rest := KeepAll(s[1..], fs);
      RemoveAllAfterKeepAll(s[1..], fs, f);
      assert PassesAll(x, fs + [f]) <==> PassesAll(x, fs) && !Removes(f, x) by {
        var gs := fs + [f];
        assert gs[|fs|] == f;
        assert forall i :: 0 <= i < |fs| ==> gs[i] == fs[i];
      }
      if PassesAll(x, fs) {
        var kept := [x] + rest;
        assert kept[0] == x && kept[1..] == rest;
      } else {
        assert [] + rest == rest;
      }
    }
  }

  // ---------------------------------------------------------------------------
  // Reference definition of the filtered list

  /** What `performFilters` reads from the game, the bottom buttons and the search field. */
  datatype FilterSettings = FilterSettings(
    vesselTypes: Option<seq<VesselType>>,
    hiddenVessels: set<VesselId>,
    hiddenToggled: bool,
    nearbyBody: Option<Body>,
    searchTerm: Option<string>)

  /** Collects the settings; the nearby body is the active vessel's, when nearby-only is on in flight. */
  function SettingsFor(game: GameState, hiddenToggled: bool, nearbyOnly: bool, searchTerm: Option<string>): (c: FilterSettings)
    requires game.Wellformed()
    ensures c.nearbyBody.Some? <==> nearbyOnly && game.inFlight
    ensures c.nearbyBody.Some? ==> c.nearbyBody.value == game.activeVessel.value.referenceBody
  {
    FilterSettings(game.vesselTypes, game.hiddenVessels, hiddenToggled,
      if nearbyOnly && game.inFlight then Some(game.LocalBody()) else None, searchTerm)
  }

  /** A vessel is listed when it passes every active filter. */
  ghost predicate Admitted(v: Vessel, c: FilterSettings) {
    && (c.vesselTypes.Some? ==> !exists vt :: vt in c.vesselTypes.value && !vt.visible && vt.name == v.vesselType)
    && (c.hiddenToggled || v.id !in c.hiddenVessels)
    && (c.nearbyBody.Some? ==> v.referenceBody == c.nearbyBody.value)
    && (IsNullOrEmpty(c.searchTerm) ||
        (!v.destroyed && v.vesselName.Some? && ContainsIgnoreCase(v.vesselName.value, c.searchTerm.value)))
  }

  /** The subsequence of `s`, in order, of the admitted vessels. */
  ghost function FilterSpec(s: seq<Vessel>, c: FilterSettings): seq<Vessel> {
    if s == [] then []
    else (if Admitted(s[0], c) then [s[0]] else []) + FilterSpec(s[1..], c)
  }

  /** The stages `performFilters` runs, in its order, for the given settings. */
  function ActiveFilters(c: FilterSettings): seq<VesselFilter> {
    (if c.vesselTypes.Some? then [TypeVisibility(InvisibleTypeNames(c.vesselTypes.value))] else [])
    + (if !c.hiddenToggled then [HiddenSet(c.hiddenVessels)] else [])
    + (if c.nearbyBody.Some? then [NearbyOnly(c.nearbyBody.value)] else [])
    + (if !IsNullOrEmpty(c.searchTerm) then [NameSearch(c.searchTerm.value)] else [])
  }

  /** Passing every active stage is being admitted. */
  lemma ActiveFiltersAdmit(v: Vessel, c: FilterSettings)
    ensures PassesAll(v, ActiveFilters(c)) <==> Admitted(v, c)
  {
    var f1 := if c.vesselTypes.Some? then [TypeVisibility(InvisibleTypeNames(c.vesselTypes.value))] else [];
    var f2 := if !c.hiddenToggled then [HiddenSet(c.hiddenVessels)] else [];
    var f3 := if c.nearbyBody.Some? then [NearbyOnly(c.nearbyBody.value)] else [];
    var f4 := if !IsNullOrEmpty(c.searchTerm) then [NameSearch(c.searchTerm.value)] else [];
    var fs := ActiveFilters(c);
    assert fs == f1 + f2 + f3 + f4;
    PassesAllConcat(v, f1, f2);
    PassesAllConcat(v, f1 + f2, f3);
    PassesAllConcat(v, f1 + f2 + f3, f4);
    assert PassesAll(v, f1) <==> (c.vesselTypes.Some? ==>
      !exists vt :: vt in c.vesselTypes.value && !vt.visible && vt.name == v.vesselType) by {
      if c.vesselTypes.Some? {
        assert f1[0] == TypeVisibility(InvisibleTypeNames(c.vesselTypes.value));
      }
    }
    assert PassesAll(v, f2) <==> (c.hiddenToggled || v.id !in c.hiddenVessels) by {
      if !c.hiddenToggled { assert f2[0] == HiddenSet(c.hiddenVessels); }
    }
    assert PassesAll(v, f3) <==> (c.nearbyBody.Some? ==> v.referenceBody == c.nearbyBody.value) by {
      if c.nearbyBody.Some? { assert f3[0] == NearbyOnly(c.nearbyBody.value); }
    }
    assert PassesAll(v, f4) <==> (IsNullOrEmpty(c.searchTerm) ||
        (!v.destroyed && v.vesselName.Some? && ContainsIgnoreCase(v.vesselName.value, c.searchTerm.value))) by {
      if !IsNullOrEmpty(c.searchTerm) {
        assert f4[0] == NameSearch(c.searchTerm.value);
        if v.vesselName.Some? {
          IndexOfIgnoreCaseSpec(v.vesselName.value, c.searchTerm.value);
        }
      }
    }
  }

  lemma PassesAllConcat(v: Vessel, a: seq<VesselFilter>, b: seq<VesselFilter>)
    ensures PassesAll(v, a + b) <==> PassesAll(v, a) && PassesAll(v, b)
  {
    if PassesAll(v, a) && PassesAll(v, b) {
      forall i | 0 <= i < |a + b| ensures !Removes((a + b)[i], v) {
        if i >= |a| { assert (a + b)[i] == b[i - |a|]; }
      }
    }
    if PassesAll(v, a + b) {
      forall i | 0 <= i < |a| ensures !Removes(a[i], v) {
        assert (a + b)[i] == a[i];
      }
      forall i | 0 <= i < |b| ensures !Removes(b[i], v) {
        assert (a + b)[|a| + i] == b[i];
      }
    }
  }

  /** The staged filtering of the source computes the reference definition. */
  lemma {:induction false} ActiveFiltersComputeSpec(s: seq<Vessel>, c: FilterSettings)
    ensures KeepAll(s, ActiveFilters(c)) == FilterSpec(s, c)
  {
    if s != [] {
      ActiveFiltersAdmit(s[0], c);
      ActiveFiltersComputeSpec(s[1..], c);
    }
  }

  /** `a` is `b` with some elements dropped and the rest in their order. */
  predicate IsSubsequence<T(==)>(a: seq<T>, b: seq<T>)
    decreases |b|
  {
    if a == [] then true
    else if b == [] then false
    else if a[0] == b[0] then IsSubsequence(a[1..], b[1..])
    else IsSubsequence(a, b[1..])
  }

  lemma {:induction false} SubsequenceOfTail<T>(a: seq<T>, b: seq<T>)
    requires b != [] && IsSubsequence(a, b[1..])
    ensures IsSubsequence(a, b)
    decreases |b|, |a|
  {
    if a != [] && a[0] == b[0] {
      // a[1..] is a subsequence of b[1..], as a is a subsequence of b[1..].
      DropHead(a, b[1..]);
    }
  }

  lemma {:induction false} DropHead<T>(a: seq<T>, b: seq<T>)
    requires a != [] && IsSubsequence(a, b)
    ensures IsSubsequence(a[1..], b)
    decreases |b|, |a|
  {
    if a[0] == b[0] {
      if a[1..] != [] {
        DropHead(a[1..], b[1..]);
        SubsequenceOfTail(a[1..], b);
      }
    } else {
      DropHead(a, b[1..]);
      SubsequenceOfTail(a[1..], b);
    }
  }

  /** The admitted vessels, in master-list order, and exactly those. */
  lemma {:induction false} FilterSpecSubsequence(s: seq<Vessel>, c: FilterSettings)
    ensures IsSubsequence(FilterSpec(s, c), s)
    ensures forall v :: v in FilterSpec(s, c) <==> v in s && Admitted(v, c)
    ensures forall v :: multiset(FilterSpec(s, c))[v] == if Admitted(v, c) then multiset(s)[v] else 0
  {
    if s != [] {
      FilterSpecSubsequence(s[1..], c);
      var rest := FilterSpec(s[1..], c);
      if Admitted(s[0], c) {
        assert ([s[0]] + rest)[1..] == rest;
      } else {
        assert [] + rest == rest;
        SubsequenceOfTail(rest, s);
      }
      assert s == [s[0]] + s[1..];
    }
  }

  // ---------------------------------------------------------------------------
  // The body list

  /** `filteredBodyList.RemoveAll(cb => -1 == cb.bodyName.IndexOf(term, OrdinalIgnoreCase))`. */
  function RemoveUnmatchedBodies(bs: seq<Body>, term: string): (r: seq<Body>)
    ensures forall b :: b in r <==> b in bs && IndexOfIgnoreCase(b.bodyName, term) != -1
    ensures IsSubsequence(r, bs)
  {
    if bs == [] then []
    else
      var rest := RemoveUnmatchedBodies(bs[1..], term);
      if IndexOfIgnoreCase(bs[0].bodyName, term) == -1 then
        SubsequenceOfTail(rest, bs); rest
      else
        assert ([bs[0]] + rest)[1..] == rest;
        [bs[0]] + rest
  }

  /** The body list after `performFilters`: all bodies, narrowed only by the search term. */
  function BodiesFor(bs: seq<Body>, term: Option<string>): seq<Body> {
    if IsNullOrEmpty(term) then bs else RemoveUnmatchedBodies(bs, term.value)
  }

  lemma BodiesForSpec(bs: seq<Body>, term: Option<string>)
    ensures IsSubsequence(BodiesFor(bs, term), bs)
    ensures forall b :: b in BodiesFor(bs, term) <==>
      b in bs && (IsNullOrEmpty(term) || ContainsIgnoreCase(b.bodyName, term.value))
  {
    if IsNullOrEmpty(term) {
      SubsequenceRefl(bs);
    } else {
      forall b | b in bs ensures IndexOfIgnoreCase(b.bodyName, term.value) != -1 <==> ContainsIgnoreCase(b.bodyName, term.value) {
        IndexOfIgnoreCaseSpec(b.bodyName, term.value);
      }
    }
  }

  lemma {:induction false} SubsequenceRefl<T>(s: seq<T>)
    ensures IsSubsequence(s, s)
  {
    if s != [] { SubsequenceRefl(s[1..]); }
  }

  // ---------------------------------------------------------------------------
  // Grouping by reference body

  /** The vessels of `s` orbiting `b`, in the order of `s`. */
  function Bucket(s: seq<Vessel>, b: Body): seq<Vessel> {
    if s == [] then []
    else
      var last := s[|s| - 1];
      Bucket(s[..|s| - 1], b) + (if last.referenceBody == b then [last] else [])
  }

  /** A bucket holds exactly the vessels orbiting its body. */
  lemma {:induction false} BucketMembers(s: seq<Vessel>, b: Body)
    ensures forall v :: v in Bucket(s, b) <==> v in s && v.referenceBody == b
  {
    if s != [] {
      var last := s[|s| - 1];
      BucketMembers(s[..|s| - 1], b);
      assert s == s[..|s| - 1] + [last];
    }
  }

  function BodiesOf(s: seq<Vessel>): set<Body> {
    set v | v in s :: v.referenceBody
  }

  lemma {:induction false} BucketOfAbsentBody(s: seq<Vessel>, b: Body)
    requires b !in BodiesOf(s)
    ensures Bucket(s, b) == []
  {
    if s != [] {
      var init := s[..|s| - 1];
      assert s == init + [s[|s| - 1]];
      assert BodiesOf(init) <= BodiesOf(s);
      BucketOfAbsentBody(init, b);
    }
  }

  /** The reference bodies of `s`, each once, in the order they first occur. */
  function FirstSeenBodies(s: seq<Vessel>): (r: seq<Body>)
    ensures forall b :: b in r <==> b in BodiesOf(s)
    ensures forall i, j :: 0 <= i < j < |r| ==> r[i] != r[j]
  {
    if s == [] then []
    else
      var init := s[..|s| - 1];
      var keys := FirstSeenBodies(init);
      var b := s[|s| - 1].referenceBody;
      assert s == init + [s[|s| - 1]];
      assert BodiesOf(s) == BodiesOf(init) + {b};
      if b in keys then keys else keys + [b]
  }

  /** The dictionary of buckets, one per body that occurs. */
  function Buckets(s: seq<Vessel>): map<Body, seq<Vessel>> {
    map b | b in BodiesOf(s) :: Bucket(s, b)
  }

  lemma BodiesOfSnoc(s: seq<Vessel>, v: Vessel)
    ensures BodiesOf(s + [v]) == BodiesOf(s) + {v.referenceBody}
  {
    var s' := s + [v];
    forall b | b in BodiesOf(s') ensures b in BodiesOf(s) + {v.referenceBody} {
      var w :| w in s' && w.referenceBody == b;
    }
    forall b | b in BodiesOf(s) ensures b in BodiesOf(s') {
      var w :| w in s && w.referenceBody == b;
      assert w in s';
    }
    assert v in s';
  }

  lemma BucketSnoc(s: seq<Vessel>, v: Vessel, b: Body)
    ensures Bucket(s + [v], b) == Bucket(s, b) + if v.referenceBody == b then [v] else []
  {
    var s' := s + [v];
    assert s'[..|s'| - 1] == s;
  }

  /** Appending a vessel is the dictionary step of the grouping loop. */
  lemma BucketsSnoc(s: seq<Vessel>, v: Vessel)
    ensures var b, g := v.referenceBody, Buckets(s);
      Buckets(s + [v]) == if b in g then g[b := g[b] + [v]] else g[b := [v]]
  {
    var b, g, g' := v.referenceBody, Buckets(s), Buckets(s + [v]);
    var expected := if b in g then g[b := g[b] + [v]] else g[b := [v]];
    BodiesOfSnoc(s, v);
    assert g'.Keys == expected.Keys;
    forall k | k in g' ensures g'[k] == expected[k] {
      BucketSnoc(s, v, k);
      if k == b && b !in g {
        BucketOfAbsentBody(s, k);
      }
    }
  }

  lemma FirstSeenBodiesSnoc(s: seq<Vessel>, v: Vessel)
    ensures var keys := FirstSeenBodies(s);
      FirstSeenBodies(s + [v]) == if v.referenceBody in keys then keys else keys + [v.referenceBody]
  {
    var s' := s + [v];
    assert s'[..|s'| - 1] == s;
  }

  /** A vessel's multiplicity in a bucket: all of it in its own body's bucket, none elsewhere. */
  lemma {:induction false} BucketMultiplicity(s: seq<Vessel>, b: Body, v: Vessel)
    ensures multiset(Bucket(s, b))[v] == if v.referenceBody == b then multiset(s)[v] else 0
  {
    if s != [] {
      var init := s[..|s| - 1];
      BucketMultiplicity(init, b, v);
      assert s == init + [s[|s| - 1]];
    }
  }

  /** The multiset union of the buckets named by `keys`. */
  function UnionOf(keys: seq<Body>, g: map<Body, seq<Vessel>>): multiset<Vessel>
    requires forall k :: k in keys ==> k in g
  {
    if keys == [] then multiset{}
    else UnionOf(keys[..|keys| - 1], g) + multiset(g[keys[|keys| - 1]])
  }

  lemma {:induction false} UnionOfAgree(keys: seq<Body>, g1: map<Body, seq<Vessel>>, g2: map<Body, seq<Vessel>>)
    requires forall k :: k in keys ==> k in g1 && k in g2 && multiset(g1[k]) == multiset(g2[k])
    ensures UnionOf(keys, g1) == UnionOf(keys, g2)
  {
    if keys != [] {
      UnionOfAgree(keys[..|keys| - 1], g1, g2);
    }
  }

  lemma {:induction false} UnionOfAppendAt(keys: seq<Body>, g: map<Body, seq<Vessel>>, b: Body, v: Vessel)
    requires forall k :: k in keys ==> k in g
    requires b in keys && forall i, j :: 0 <= i < j < |keys| ==> keys[i] != keys[j]
    ensures UnionOf(keys, g[b := g[b] + [v]]) == UnionOf(keys, g) + multiset{v}
  {
    var init := keys[..|keys| - 1];
    var last := keys[|keys| - 1];
    var g' := g[b := g[b] + [v]];
    if last == b {
      assert b !in init;
      UnionOfAgree(init, g, g');
    } else {
      assert b in init by {
        var i :| 0 <= i < |keys| && keys[i] == b;
        assert i < |keys| - 1;
        assert init[i] == b;
      }
      UnionOfAppendAt(init, g, b, v);
    }
  }

  /** The buckets are a partition: their multiset union is the grouped list. */
  lemma {:induction false} BucketsPartition(s: seq<Vessel>)
    ensures UnionOf(FirstSeenBodies(s), Buckets(s)) == multiset(s)
  {
    if s != [] {
      var init := s[..|s| - 1];
      var v := s[|s| - 1];
      assert s == init + [v];
      BucketsPartition(init);
      BucketsSnoc(init, v);
      FirstSeenBodiesSnoc(init, v);
      var keys, g := FirstSeenBodies(init), Buckets(init);
      if v.referenceBody in keys {
        UnionOfAppendAt(keys, g, v.referenceBody, v);
      } else {
        var g' := g[v.referenceBody := [v]];
        UnionOfAgree(keys, g, g');
        assert (keys + [v.referenceBody])[..|keys|] == keys;
      }
    }
  }
}
