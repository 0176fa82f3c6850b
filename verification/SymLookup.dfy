/**
 Symbol lookup through the hash tables of shared objects, against a scan of
 their symbols, and the search through a list of objects of either table kind.
 */
module SymLookup {
  import opened Powers
  import opened SymHash
  import opened Wrappers

  /** visible: the object has no version table, or the symbol's entry in it is not negative. */
  datatype Sym = Sym(name: Name, shndx: nat, value: nat, kind: nat, bind: nat, visible: bool)

  /** A GNU table: index of the first hashed symbol, filter, buckets, and stored hash values. */
  datatype Gnu = Gnu(first: nat, shift: nat, bloom: seq<nat>, buckets: seq<nat>, values: seq<nat>)

  /** sysv: bucket count, symbol count, buckets, chains, in one array of words. */
  datatype Dso = Dso(syms: seq<Sym>, sysv: seq<nat>, gnu: Option<Gnu>)

  // ---- The meaning of a lookup ----

  /** The symbols that the table of the object covers. */
  predicate Hashed(d: Dso, i: nat) {
    i < |d.syms| && match d.gnu case Some(t) => t.first <= i case None => 1 <= i
  }

  predicate Matches(d: Dso, i: nat, s: Name) {
    Hashed(d, i) && d.syms[i].name == s && d.syms[i].visible
  }

  /** What a scan of all hashed symbols says: r is a match, or 0 and there is none. */
  ghost predicate Scanned(d: Dso, s: Name, r: nat) {
    if r != 0 then Matches(d, r, s) else forall i: nat :: !Matches(d, i, s)
  }

  // ---- System V tables ----

  predicate SysvShape(d: Dso) {
    |d.sysv| > 0 && d.sysv[0] > 0 && |d.sysv| == 2 + d.sysv[0] + |d.syms|
  }

  /** The entry of the table that leads to place k of the chain of bucket b. */
  function Lead(d: Dso, b: nat, chain: seq<nat>, k: nat): nat
    requires SysvShape(d) && k <= |chain|
  {
    if k == 0 then 2 + b else 2 + d.sysv[0] + chain[k - 1]
  }

  ghost predicate LeadsTo(d: Dso, b: nat, chain: seq<nat>, k: nat)
    requires SysvShape(d)
  {
    k <= |chain| ==>
      && Lead(d, b, chain, k) < |d.sysv|
      && d.sysv[Lead(d, b, chain, k)] == (if k < |chain| then chain[k] else 0)
      && (k < |chain| ==> 0 < chain[k] < |d.syms|)
  }

  function SysvBucket(d: Dso, s: Name): nat
    requires SysvShape(d)
  {
    GabiHash(s) as nat % d.sysv[0]
  }

  ghost predicate OnChain(d: Dso, chains: seq<seq<nat>>, i: nat)
    requires SysvShape(d) && |chains| == d.sysv[0]
  {
    1 <= i < |d.syms| ==> i in chains[SysvBucket(d, d.syms[i].name)]
  }

  /** The table spells these chains, and every symbol is on the chain of its name. */
  ghost predicate Chained(d: Dso, chains: seq<seq<nat>>) {
    && SysvShape(d) && |chains| == d.sysv[0]
    && (forall b: nat, k: nat | b < |chains| :: LeadsTo(d, b, chains[b], k))
    && (forall i: nat :: OnChain(d, chains, i))
  }

  /** The chains are determined by the table. */
  lemma {:induction false} ChainUnique(d: Dso, b: nat, c: seq<nat>, e: seq<nat>, k: nat)
    requires SysvShape(d) && k <= |c| && k <= |e|
    requires (forall j: nat :: LeadsTo(d, b, c, j)) && (forall j: nat :: LeadsTo(d, b, e, j)) && c[..k] == e[..k]
    ensures c == e
    decreases |c| - k
  {
    assert LeadsTo(d, b, c, k) && LeadsTo(d, b, e, k);
    assert k > 0 ==> c[..k][k - 1] == e[..k][k - 1];
    if k < |c| && k < |e| {
      assert c[..k + 1] == c[..k] + [c[k]] && e[..k + 1] == e[..k] + [e[k]];
      ChainUnique(d, b, c, e, k + 1);
    } else {
      assert c == c[..k] && e == e[..k];
    }
  }

  lemma SysvOrder(d: Dso, s: Name, chains: seq<seq<nat>>)
    requires d.gnu.None? && Chained(d, chains)
    ensures TableOk(d) && TableOrder(d, s) == chains[SysvBucket(d, s)]
  {
    var b := SysvBucket(d, s);
    var other := ChainsOf(d);
    assert forall j: nat :: LeadsTo(d, b, chains[b], j);
    assert forall j: nat :: LeadsTo(d, b, other[b], j);
    ChainUnique(d, b, chains[b], other[b], 0);
  }

  method SysvLookup(d: Dso, s: Name, h: bv32, ghost chains: seq<seq<nat>>) returns (r: nat)
    requires d.gnu.None? && Chained(d, chains) && h == GabiHash(s)
    ensures TableOk(d) && r == FirstMatch(d, s)
  {
    SysvOrder(d, s, chains);
    var b := h as nat % d.sysv[0];
    ghost var chain := chains[b];
    ghost var k := 0;
    assert LeadsTo(d, b, chain, 0);
    r := d.sysv[2 + b];
    while r != 0
      invariant k <= |chain| && r == (if k < |chain| then chain[k] else 0)
      invariant FirstFrom(d, s, chain, k) == FirstMatch(d, s)
      decreases |chain| - k
    {
      assert LeadsTo(d, b, chain, k) && LeadsTo(d, b, chain, k + 1);
      if d.syms[r].visible && s == d.syms[r].name {
        return;
      }
      r := d.sysv[2 + d.sysv[0] + r];
      k := k + 1;
    }
    assert LeadsTo(d, b, chain, k);
  }

  // ---- GNU tables ----

  predicate GnuShape(d: Dso, t: Gnu) {
    d.gnu == Some(t) && 0 < t.first <= |d.syms| && |t.values| == |d.syms| - t.first && |t.buckets| > 0 && IsPow2(|t.bloom|)
  }

  predicate Last(t: Gnu, i: nat) {
    t.first <= i < t.first + |t.values| && t.values[i - t.first] % 2 == 1
  }

  function GnuBucket(t: Gnu, h: nat): (b: nat)
    requires |t.buckets| > 0
    ensures b < |t.buckets|
  {
    h % |t.buckets|
  }

  /** A stored value is the hash, except that its lowest bit marks the last symbol of a bucket. */
  ghost predicate Stored(d: Dso, t: Gnu, i: nat)
    requires GnuShape(d, t)
  {
    t.first <= i < |d.syms| ==> t.values[i - t.first] / 2 == GnuHashOf(d.syms[i].name) / 2
  }

  /** Bucket b holds the symbols from its entry up to end, the last of them marked. */
  ghost predicate BucketIs(d: Dso, t: Gnu, b: nat, end: nat)
    requires GnuShape(d, t) && b < |t.buckets|
  {
    t.buckets[b] != 0 ==>
      && t.first <= t.buckets[b] < end <= |d.syms|
      && (forall i: nat | t.buckets[b] <= i < end :: Last(t, i) <==> i == end - 1)
  }

  /** A hashed symbol is among those of the bucket of its hash. */
  ghost predicate InBucket(d: Dso, t: Gnu, ends: seq<nat>, i: nat)
    requires GnuShape(d, t) && |ends| == |t.buckets|
  {
    t.first <= i < |d.syms| ==>
      var b := GnuBucket(t, GnuHashOf(d.syms[i].name)); t.buckets[b] != 0 && t.buckets[b] <= i < ends[b]
  }

  /** The word of the filter that a hash selects: a mask, for a number of words that is a power of two. */
  function WordOf(t: Gnu, h: nat): (w: nat)
    requires IsPow2(|t.bloom|)
    ensures w < |t.bloom|
  {
    h / 64 % |t.bloom|
  }

  /** A hashed symbol has set its two bits in its word of the filter. */
  ghost predicate Filtered(d: Dso, t: Gnu, i: nat)
    requires GnuShape(d, t)
  {
    t.first <= i < |d.syms| ==>
      var h := GnuHashOf(d.syms[i].name);
      BitOf(t.bloom[WordOf(t, h)], h % 64) && BitOf(t.bloom[WordOf(t, h)], Shifted(h, t.shift) % 64)
  }

  ghost predicate Bucketed(d: Dso, t: Gnu, ends: seq<nat>) {
    && GnuShape(d, t) && |ends| == |t.buckets|
    && (forall i: nat :: Stored(d, t, i))
    && (forall i: nat :: Filtered(d, t, i))
    && (forall b: nat | b < |t.buckets| :: BucketIs(d, t, b, ends[b]))
    && (forall i: nat :: InBucket(d, t, ends, i))
  }

  function Range(lo: nat, hi: nat): (c: seq<nat>) {
    if lo < hi then seq(hi - lo, i requires 0 <= i => lo + i) else []
  }

  function BucketOrder(t: Gnu, b: nat, end: nat): seq<nat>
    requires b < |t.buckets|
  {
    if t.buckets[b] == 0 then [] else Range(t.buckets[b], end)
  }

  lemma GnuOrder(d: Dso, t: Gnu, s: Name, ends: seq<nat>)
    requires Bucketed(d, t, ends)
    ensures TableOk(d)
    ensures var b := GnuBucket(t, GnuHashOf(s)); TableOrder(d, s) == BucketOrder(t, b, ends[b])
  {
    var b := GnuBucket(t, GnuHashOf(s));
    var other := EndsOf(d, t);
    assert BucketIs(d, t, b, ends[b]) && BucketIs(d, t, b, other[b]);
    if t.buckets[b] != 0 {
      assert Last(t, ends[b] - 1) && Last(t, other[b] - 1);
    }
  }

  method GnuLookup(h: nat, d: Dso, t: Gnu, s: Name, ghost ends: seq<nat>) returns (r: nat)
    requires Bucketed(d, t, ends) && h == GnuHashOf(s)
    ensures TableOk(d) && r == FirstMatch(d, s)
  {
    GnuOrder(d, t, s, ends);
    var b := GnuBucket(t, h);
    assert BucketIs(d, t, b, ends[b]);
    var i := t.buckets[b];
    if i != 0 {
      while true
        invariant t.buckets[b] <= i < ends[b]
        invariant FirstFrom(d, s, TableOrder(d, s), i - t.buckets[b]) == FirstMatch(d, s)
        decreases ends[b] - i
      {
        assert Stored(d, t, i);
        if h / 2 == t.values[i - t.first] / 2 && d.syms[i].visible && s == d.syms[i].name {
          return i;
        }
        if Last(t, i) {
          break;
        }
        i := i + 1;
      }
    }
    return 0;
  }

  /** The lookup with the filter first: what the filter turns away is not in the table. */
  method GnuLookupFiltered(h: nat, d: Dso, t: Gnu, s: Name, ghost ends: seq<nat>) returns (r: nat)
    requires Bucketed(d, t, ends) && h == GnuHashOf(s)
    ensures TableOk(d) && r == FirstMatch(d, s)
  {
    var f := t.bloom[WordOf(t, h)];
    if !BitOf(f, h % 64) || !BitOf(f, Shifted(h, t.shift) % 64) {
      forall j: nat
        ensures !Matches(d, j, s)
      {
        assert Filtered(d, t, j);
      }
      FirstMatchScanned(d, s);
      return 0;
    }
    r := GnuLookup(h, d, t, s, ends);
  }

  // ---- The first match in table order ----

  ghost predicate TableOk(d: Dso) {
    match d.gnu
    case Some(t) => exists ends :: Bucketed(d, t, ends)
    case None => exists chains :: Chained(d, chains)
  }

  ghost function ChainsOf(d: Dso): (chains: seq<seq<nat>>)
    requires TableOk(d) && d.gnu.None?
    ensures Chained(d, chains)
  {
    var chains :| Chained(d, chains); chains
  }

  ghost function EndsOf(d: Dso, t: Gnu): (ends: seq<nat>)
    requires TableOk(d) && d.gnu == Some(t)
    ensures Bucketed(d, t, ends)
  {
    var ends :| Bucketed(d, t, ends); ends
  }

  /** The symbols that the table holds for a name, in the order of its chain or bucket. */
  ghost function TableOrder(d: Dso, s: Name): seq<nat>
    requires TableOk(d)
  {
    match d.gnu
    case Some(t) => var b := GnuBucket(t, GnuHashOf(s)); BucketOrder(t, b, EndsOf(d, t)[b])
    case None => ChainsOf(d)[SysvBucket(d, s)]
  }

  /** The first symbol of the name from place k on, or 0. */
  ghost function FirstFrom(d: Dso, s: Name, order: seq<nat>, k: nat): nat
    decreases |order| - k
  {
    if k >= |order| then 0 else if Matches(d, order[k], s) then order[k] else FirstFrom(d, s, order, k + 1)
  }

  ghost function FirstMatch(d: Dso, s: Name): nat
    requires TableOk(d)
  {
    FirstFrom(d, s, TableOrder(d, s), 0)
  }

  /** Place p of the order holds the first symbol of the name. */
  ghost predicate FirstAt(d: Dso, s: Name, order: seq<nat>, p: nat) {
    p < |order| && Matches(d, order[p], s) && forall j | 0 <= j < p :: !Matches(d, order[j], s)
  }

  lemma {:induction false} FirstFromAt(d: Dso, s: Name, order: seq<nat>, k: nat) returns (p: nat)
    requires k <= |order| && forall j | 0 <= j < k :: !Matches(d, order[j], s)
    ensures if p < |order| then FirstAt(d, s, order, p) && FirstFrom(d, s, order, k) == order[p]
            else FirstFrom(d, s, order, k) == 0 && forall j | 0 <= j < |order| :: !Matches(d, order[j], s)
    decreases |order| - k
  {
    if k == |order| || Matches(d, order[k], s) {
      p := k;
    } else {
      p := FirstFromAt(d, s, order, k + 1);
    }
  }

  /** Every symbol of the name is in the order of the table. */
  lemma MatchInOrder(d: Dso, s: Name, i: nat)
    requires TableOk(d) && Matches(d, i, s)
    ensures i in TableOrder(d, s)
  {
    match d.gnu
    case Some(t) =>
      var ends :| Bucketed(d, t, ends);
      GnuOrder(d, t, s, ends);
      assert InBucket(d, t, ends, i);
      var b := GnuBucket(t, GnuHashOf(s));
      assert TableOrder(d, s)[i - t.buckets[b]] == i;
    case None =>
      var chains :| Chained(d, chains);
      SysvOrder(d, s, chains);
      assert OnChain(d, chains, i);
  }

  lemma MatchPositive(d: Dso, s: Name, i: nat)
    requires TableOk(d) && Matches(d, i, s)
    ensures i > 0
  {
    if d.gnu.Some? {
      var ends :| Bucketed(d, d.gnu.value, ends);
    }
  }

  /** The first match in table order is a match, and is 0 only if no hashed symbol of the object matches. */
  lemma FirstMatchScanned(d: Dso, s: Name)
    requires TableOk(d)
    ensures Scanned(d, s, FirstMatch(d, s))
  {
    var order := TableOrder(d, s);
    var p := FirstFromAt(d, s, order, 0);
    forall i: nat
      ensures p >= |order| ==> !Matches(d, i, s)
    {
      if Matches(d, i, s) {
        MatchInOrder(d, s, i);
      }
    }
    if p < |order| {
      MatchPositive(d, s, order[p]);
    }
  }

  // ---- The search through a scope ----

  const STT_TLS := 6

  /** Kinds none, object, function, common and TLS; bindings global, weak and unique. */
  predicate Usable(sym: Sym) {
    sym.kind in {0, 1, 2, 5, STT_TLS} && sym.bind in {1, 2, 10}
  }

  /** A symbol that the search takes; an undefined one only if no definition is asked for. */
  predicate Acceptable(sym: Sym, needDef: bool) {
    && (sym.shndx == 0 ==> !needDef && sym.kind != STT_TLS)
    && (sym.value == 0 ==> sym.kind == STT_TLS)
    && Usable(sym)
  }

  /** The object defines the name acceptably. */
  ghost predicate Defines(d: Dso, s: Name, needDef: bool) {
    exists i: nat :: Matches(d, i, s) && Acceptable(d.syms[i], needDef)
  }

  /** The search takes the first match of the object. */
  ghost predicate Takes(d: Dso, s: Name, needDef: bool)
    requires TableOk(d)
  {
    var r := FirstMatch(d, s); 0 < r < |d.syms| && Acceptable(d.syms[r], needDef)
  }

  /** In table order the first symbol of the name is not acceptable, and a later one is. */
  ghost predicate EclipsedAt(d: Dso, s: Name, needDef: bool, p: nat, q: nat)
    requires TableOk(d)
  {
    var order := TableOrder(d, s);
    && p < q < |order| && FirstAt(d, s, order, p) && !Acceptable(d.syms[order[p]], needDef)
    && Matches(d, order[q], s) && Acceptable(d.syms[order[q]], needDef)
  }

  ghost predicate Eclipsed(d: Dso, s: Name, needDef: bool)
    requires TableOk(d)
  {
    exists p: nat, q: nat :: EclipsedAt(d, s, needDef, p, q)
  }

  lemma FirstIsOne(d: Dso, s: Name, order: seq<nat>, p: nat, p': nat)
    requires FirstAt(d, s, order, p) && FirstAt(d, s, order, p')
    ensures p == p'
  {
  }

  /** An object that defines the name is not taken exactly when its definition is eclipsed. */
  lemma PassedOver(d: Dso, s: Name, needDef: bool)
    requires TableOk(d)
    ensures Defines(d, s, needDef) && !Takes(d, s, needDef) <==> Eclipsed(d, s, needDef)
    ensures Takes(d, s, needDef) ==> Defines(d, s, needDef)
  {
    var order := TableOrder(d, s);
    var p := FirstFromAt(d, s, order, 0);
    if p < |order| {
      MatchPositive(d, s, order[p]);
    }
    if Defines(d, s, needDef) && !Takes(d, s, needDef) {
      var i: nat :| Matches(d, i, s) && Acceptable(d.syms[i], needDef);
      MatchInOrder(d, s, i);
      var q :| 0 <= q < |order| && order[q] == i;
      assert EclipsedAt(d, s, needDef, p, q);
    }
    if Eclipsed(d, s, needDef) {
      var p', q: nat :| EclipsedAt(d, s, needDef, p', q);
      FirstIsOne(d, s, order, p, p');
    }
  }

  /** With no two visible symbols of the name nothing is eclipsed. */
  lemma UnambiguousTakes(d: Dso, s: Name, needDef: bool)
    requires TableOk(d) && forall i: nat, j: nat | Matches(d, i, s) && Matches(d, j, s) :: i == j
    ensures Takes(d, s, needDef) <==> Defines(d, s, needDef)
  {
    PassedOver(d, s, needDef);
  }

  /** An undefined symbol before a good definition of the same name on one chain. */
  function TwoOfAName(s: Name): Dso {
    Dso([Sym([], 0, 0, 0, 0, true), Sym(s, 0, 0, 2, 1, true), Sym(s, 5, 64, 2, 1, true)], [1, 3, 1, 0, 2, 0], None)
  }

  lemma EclipsedWitness(s: Name)
    ensures var d := TwoOfAName(s);
            && TableOk(d) && Defines(d, s, true) && Eclipsed(d, s, true)
            && FirstMatch(d, s) == 1 && !Takes(d, s, true)
  {
    var d, chains := TwoOfAName(s), [[1, 2]];
    assert Chained(d, chains);
    SysvOrder(d, s, chains);
    assert Matches(d, 2, s) && Acceptable(d.syms[2], true);
    PassedOver(d, s, true);
  }

  /** One lookup, by whichever table the object has. */
  method Lookup(d: Dso, s: Name, gh: nat, h0: bv32) returns (r: nat, h: bv32)
    requires TableOk(d) && gh == GnuHashOf(s) && (h0 == 0 || h0 == GabiHash(s))
    ensures r == FirstMatch(d, s) && (h == 0 || h == GabiHash(s))
  {
    h := h0;
    if d.gnu.Some? {
      ghost var ends :| Bucketed(d, d.gnu.value, ends);
      r := GnuLookupFiltered(gh, d, d.gnu.value, s, ends);
    } else {
      if h == 0 {
        h := SysvHash(s);
      }
      ghost var chains :| Chained(d, chains);
      r := SysvLookup(d, s, h, chains);
    }
  }

  /**
   Finds the first object of the scope whose first match in table order is acceptable, or
   k == |scope|. An object passed over defines the name exactly when its definition is eclipsed.
   */
  method FindSym(scope: seq<Dso>, s: Name, needDef: bool) returns (k: nat, r: nat)
    requires forall j | 0 <= j < |scope| :: TableOk(scope[j])
    ensures k <= |scope| && forall j | 0 <= j < k :: !Takes(scope[j], s, needDef)
    ensures forall j | 0 <= j < k :: Defines(scope[j], s, needDef) <==> Eclipsed(scope[j], s, needDef)
    ensures k < |scope| ==> Takes(scope[k], s, needDef) && r == FirstMatch(scope[k], s)
    ensures k < |scope| ==> Matches(scope[k], r, s) && Acceptable(scope[k].syms[r], needDef)
  {
    var gh := GnuHash(s);
    var h: bv32 := 0;
    k, r := 0, 0;
    while k < |scope|
      invariant k <= |scope| && (h == 0 || h == GabiHash(s))
      invariant forall j | 0 <= j < k :: !Takes(scope[j], s, needDef)
      invariant forall j | 0 <= j < k :: Defines(scope[j], s, needDef) <==> Eclipsed(scope[j], s, needDef)
    {
      var d := scope[k];
      r, h := Lookup(d, s, gh, h);
      FirstMatchScanned(d, s);
      PassedOver(d, s, needDef);
      if r != 0 {
        var sym := d.syms[r];
        if !(sym.shndx == 0 && (needDef || sym.kind == STT_TLS)) && !(sym.value == 0 && sym.kind != STT_TLS) {
          if Usable(sym) {
            return;
          }
        }
      }
      k := k + 1;
    }
  }
}
