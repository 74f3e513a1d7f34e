/**
 `ServerRecordsSet`: an ordered set of records, compared by server only.

 The set is kept as the sequence its iterators run over, strictly sorted by
 (hostname, port).  `Contents` is the map it stands for; every operation is
 proved to be the corresponding map operation.
 */
module RecordSet {
  import opened SwimTypes

  /** `std::string::operator<`. */
  predicate StringLess(a: string, b: string) {
    b != [] && (a == [] || a[0] < b[0] || (a[0] == b[0] && StringLess(a[1..], b[1..])))
  }

  /** `operator<` on servers. */
  predicate Less(a: Server, b: Server) {
    if a.hostname == b.hostname then a.port < b.port else StringLess(a.hostname, b.hostname)
  }

  /** The first `i` characters agree, and the next one of `a` is smaller or missing. */
  ghost predicate DiffersAt(a: string, b: string, i: nat) {
    i <= |a| && i < |b| && a[..i] == b[..i] && (i == |a| || a[i] < b[i])
  }

  lemma SameStart(a: string, b: string, i: nat)
    requires DiffersAt(a, b, i)
    ensures i > 0 ==> a != [] && a[0] == b[0]
  {
    assert i > 0 ==> a[..i][0] == b[..i][0];
  }

  lemma DiffersLater(a: string, b: string, i: nat)
    requires a != [] && b != [] && a[0] == b[0]
    ensures DiffersAt(a[1..], b[1..], i) <==> DiffersAt(a, b, i + 1)
  {
    if i < |a| && i < |b| {
      assert a[..i + 1] == [a[0]] + a[1..][..i] && b[..i + 1] == [b[0]] + b[1..][..i];
      assert a[1..][..i] == a[..i + 1][1..] && b[1..][..i] == b[..i + 1][1..];
    }
  }

  /** Strings compare as in a dictionary: at the first difference, with the end of a string before any character. */
  lemma {:induction false} StringLessIsLexicographic(a: string, b: string)
    ensures StringLess(a, b) <==> exists i: nat :: DiffersAt(a, b, i)
  {
    if a == [] || b == [] || a[0] != b[0] {
      assert StringLess(a, b) ==> DiffersAt(a, b, 0);
      forall i: nat | DiffersAt(a, b, i) ensures StringLess(a, b) {
        SameStart(a, b, i);
      }
    } else {
      StringLessIsLexicographic(a[1..], b[1..]);
      forall i: nat | DiffersAt(a[1..], b[1..], i) ensures DiffersAt(a, b, i + 1) {
        DiffersLater(a, b, i);
      }
      forall i: nat | DiffersAt(a, b, i) ensures i > 0 && DiffersAt(a[1..], b[1..], i - 1) {
        assert i > 0;
        DiffersLater(a, b, i - 1);
      }
    }
  }

  lemma {:induction false} StringLessTransitive(a: string, b: string, c: string)
    requires StringLess(a, b) && StringLess(b, c)
    ensures StringLess(a, c)
  {
    if a != [] && a[0] == b[0] == c[0] {
      StringLessTransitive(a[1..], b[1..], c[1..]);
    }
  }

  lemma {:induction false} StringLessTrichotomy(a: string, b: string)
    ensures a == b <==> !StringLess(a, b) && !StringLess(b, a)
    ensures !(StringLess(a, b) && StringLess(b, a))
  {
    if a == [] || b == [] {
    } else {
      StringLessTrichotomy(a[1..], b[1..]);
      assert a == [a[0]] + a[1..] && b == [b[0]] + b[1..];
    }
  }

  /** Servers compare by host name, and those with the same host name by port, the lower one first. */
  lemma LessIsLexicographic(a: Server, b: Server)
    ensures Less(a, b) <==>
      (exists i: nat :: DiffersAt(a.hostname, b.hostname, i)) || (a.hostname == b.hostname && a.port < b.port)
  {
    StringLessIsLexicographic(a.hostname, b.hostname);
    StringLessTrichotomy(a.hostname, b.hostname);
  }

  /** `operator<` is a strict total order, so `operator==` is equality of host name and port. */
  lemma LessIsStrictTotalOrder(a: Server, b: Server, c: Server)
    ensures !Less(a, a)
    ensures Less(a, b) && Less(b, c) ==> Less(a, c)
    ensures !Less(a, b) && !Less(b, a) <==> a == b
  {
    StringLessTrichotomy(a.hostname, b.hostname);
    StringLessTrichotomy(b.hostname, c.hostname);
    StringLessTrichotomy(a.hostname, c.hostname);
    if StringLess(a.hostname, b.hostname) && StringLess(b.hostname, c.hostname) {
      StringLessTransitive(a.hostname, b.hostname, c.hostname);
    }
  }

  ghost predicate Sorted(s: seq<Record>) {
    forall i, j :: 0 <= i < j < |s| ==> Less(s[i].server, s[j].server)
  }

  /** No two records of a sorted sequence share a key. */
  lemma SortedDistinct(s: seq<Record>)
    requires Sorted(s)
    ensures forall i, j :: 0 <= i < j < |s| ==> s[i].server != s[j].server
    ensures forall r, r' :: r in s && r' in s && r.server == r'.server ==> r == r'
  {
  }

  /** The map a sorted sequence stands for. */
  ghost function Contents(s: seq<Record>): (m: map<Server, Record>)
    requires Sorted(s)
    ensures forall r :: r in s ==> r.server in m && m[r.server] == r
    ensures forall k :: k in m ==> m[k].server == k && m[k] in s
  {
    SortedDistinct(s);
    map r | r in s :: r.server := r
  }

  /** The position at which `k` is stored, or would be. */
  function LowerBound(s: seq<Record>, k: Server): (p: nat)
    requires Sorted(s)
    ensures p <= |s|
    ensures forall j :: 0 <= j < p ==> Less(s[j].server, k)
    ensures p < |s| ==> s[p].server == k || Less(k, s[p].server)
    ensures forall j :: p < j < |s| ==> Less(k, s[j].server)
  {
    if s == [] then 0
    else if Less(s[0].server, k) then
      assert forall j :: 1 <= j < |s| ==> s[j] == s[1..][j - 1];
      1 + LowerBound(s[1..], k)
    else
      LessIsStrictTotalOrder(s[0].server, k, k);
      assert forall j :: 0 < j < |s| ==> Less(k, s[j].server) by {
        forall j | 0 < j < |s| ensures Less(k, s[j].server) {
          LessIsStrictTotalOrder(k, s[0].server, s[j].server);
        }
      }
      0
  }

  /** `find`: the position of the record of `k`, if any. */
  function Find(s: seq<Record>, k: Server): (r: Option<nat>)
    requires Sorted(s)
    ensures r.Some? ==> r.value < |s| && s[r.value].server == k && Contents(s)[k] == s[r.value]
    ensures r.Some? <==> k in Contents(s)
  {
    var p := LowerBound(s, k);
    if p < |s| && !Less(k, s[p].server) then
      LessIsStrictTotalOrder(k, s[p].server, k);
      Some(p)
    else
      assert k !in Contents(s) by {
        LessIsStrictTotalOrder(k, k, k);
      }
      None
  }

  /** `insert`: keeps the set unchanged when the key is already present. */
  function Insert(s: seq<Record>, r: Record): (t: seq<Record>)
    requires Sorted(s)
    ensures Sorted(t)
    ensures Contents(t) == if r.server in Contents(s) then Contents(s) else Contents(s)[r.server := r]
  {
    if Find(s, r.server).Some? then s
    else
      var p := LowerBound(s, r.server);
      var t := s[..p] + [r] + s[p..];
      InsertAt(s, p, r);
      t
  }

  lemma InsertAt(s: seq<Record>, p: nat, r: Record)
    requires Sorted(s) && p <= |s|
    requires forall j :: 0 <= j < p ==> Less(s[j].server, r.server)
    requires forall j :: p <= j < |s| ==> Less(r.server, s[j].server)
    ensures var t := s[..p] + [r] + s[p..]; Sorted(t) && Contents(t) == Contents(s)[r.server := r]
  {
    var t := s[..p] + [r] + s[p..];
    assert forall j :: 0 <= j < |t| ==> t[j] == if j < p then s[j] else if j == p then r else s[j - 1];
    assert Sorted(t);
    assert s == s[..p] + s[p..];
    assert forall x :: x in t <==> x in s || x == r;
    LessIsStrictTotalOrder(r.server, r.server, r.server);
    SameRecords(t, Contents(s)[r.server := r]);
  }

  lemma SameRecords(s: seq<Record>, m: map<Server, Record>)
    requires Sorted(s)
    requires forall r :: r in s ==> r.server in m && m[r.server] == r
    requires forall k :: k in m ==> m[k].server == k && m[k] in s
    ensures Contents(s) == m
  {
  }

  /** `erase` by key. */
  function Erase(s: seq<Record>, k: Server): (t: seq<Record>)
    requires Sorted(s)
    ensures Sorted(t) && Contents(t) == Contents(s) - {k}
  {
    var f := Find(s, k);
    if f.None? then s
    else
      var t := s[..f.value] + s[f.value + 1..];
      assert Contents(t) == Contents(s) - {k} by {
        EraseAt(s, f.value);
      }
      t
  }

  lemma EraseAt(s: seq<Record>, p: nat)
    requires Sorted(s) && p < |s|
    ensures var t := s[..p] + s[p + 1..]; Sorted(t) && Contents(t) == Contents(s) - {s[p].server}
  {
    var t := s[..p] + s[p + 1..];
    assert forall j :: 0 <= j < |t| ==> t[j] == if j < p then s[j] else s[j + 1];
    assert Sorted(t);
    SortedDistinct(s);
    RemainingRecords(s, p);
    SameRecords(t, Contents(s) - {s[p].server});
  }

  lemma RemainingRecords(s: seq<Record>, p: nat)
    requires p < |s| && forall i, j :: 0 <= i < j < |s| ==> s[i].server != s[j].server
    ensures forall x :: x in s[..p] + s[p + 1..] <==> x in s && x.server != s[p].server
  {
    assert s == s[..p] + [s[p]] + s[p + 1..];
  }

  /** Editing a stored record in place, without touching its key. */
  lemma Replace(s: seq<Record>, p: nat, r: Record)
    requires Sorted(s) && p < |s| && r.server == s[p].server
    ensures Sorted(s[p := r]) && Contents(s[p := r]) == Contents(s)[r.server := r]
  {
    EraseAt(s, p);
    ReplacedRecords(s, p, r, s[p := r], s[..p] + s[p + 1..]);
    SameRecords(s[p := r], Contents(s)[r.server := r]);
  }

  lemma ReplacedRecords(s: seq<Record>, p: nat, r: Record, t: seq<Record>, rest: seq<Record>)
    requires p < |s| && t == s[p := r] && rest == s[..p] + s[p + 1..]
    ensures forall x :: x in t <==> x == r || x in rest
  {
    assert t == s[..p] + [r] + s[p + 1..];
  }

  lemma ErasedAndInserted(s: seq<Record>, p: nat, r: Record)
    requires Sorted(s) && p < |s| && r.server == s[p].server
    ensures Contents(Insert(Erase(s, s[p].server), r)) == Contents(s)[r.server := r]
  {
    assert r.server in Contents(s);
  }

  /** Extracting a node, raising its incarnation and inserting it again puts it back where it was. */
  lemma ExtractAndReinsert(s: seq<Record>, p: nat, r: Record)
    requires Sorted(s) && p < |s| && r.server == s[p].server
    ensures Insert(Erase(s, s[p].server), r) == s[p := r]
  {
    Replace(s, p, r);
    ErasedAndInserted(s, p, r);
    SameContents(Insert(Erase(s, s[p].server), r), s[p := r]);
  }

  lemma Tail(s: seq<Record>)
    requires Sorted(s) && s != []
    ensures Sorted(s[1..]) && Contents(s[1..]) == Contents(s) - {s[0].server}
    ensures s[0].server in Contents(s) && Contents(s)[s[0].server] == s[0]
  {
    EraseAt(s, 0);
    assert s[..0] + s[0 + 1..] == s[1..];
  }

  lemma EmptyContents(s: seq<Record>)
    requires Sorted(s)
    ensures Contents(s) == map[] <==> s == []
  {
    if s != [] {
      assert s[0].server in Contents(s);
    }
  }

  /** The iteration order is a function of the contents. */
  lemma {:induction false} SameContents(s: seq<Record>, t: seq<Record>)
    requires Sorted(s) && Sorted(t) && Contents(s) == Contents(t)
    ensures s == t
    decreases |s|
  {
    EmptyContents(s);
    EmptyContents(t);
    if s == [] {
    } else {
      SameFirst(s, t);
      SameContents(s[1..], t[1..]);
      SameHeadAndTail(s, t);
    }
  }

  lemma SameHeadAndTail(s: seq<Record>, t: seq<Record>)
    requires s != [] && t != [] && s[0] == t[0] && s[1..] == t[1..]
    ensures s == t
  {
  }

  lemma SameFirst(s: seq<Record>, t: seq<Record>)
    requires Sorted(s) && Sorted(t) && Contents(s) == Contents(t) && s != [] && t != []
    ensures s[0] == t[0]
    ensures Sorted(s[1..]) && Sorted(t[1..]) && Contents(s[1..]) == Contents(t[1..])
  {
    FirstIsLeast(s, t);
    FirstIsLeast(t, s);
    LessIsStrictTotalOrder(s[0].server, t[0].server, s[0].server);
    Tail(s);
    Tail(t);
  }

  lemma FirstIsLeast(s: seq<Record>, t: seq<Record>)
    requires Sorted(s) && Sorted(t) && Contents(s) == Contents(t) && s != [] && t != []
    ensures !Less(t[0].server, s[0].server)
  {
    assert t[0] in s;
    var i :| 0 <= i < |s| && s[i] == t[0];
    LessIsStrictTotalOrder(s[0].server, s[i].server, s[0].server);
    LessIsStrictTotalOrder(s[0].server, s[0].server, s[0].server);
  }

  /** The size of the set is the number of keys: iterating reaches each key exactly once. */
  lemma {:induction false} SizeIsKeyCount(s: seq<Record>)
    requires Sorted(s)
    ensures |s| == |Contents(s)|
    decreases |s|
  {
    if s == [] {
      assert Contents(s) == map[];
    } else {
      Tail(s);
      SizeIsKeyCount(s[1..]);
      KeyCount(Contents(s), s[0].server);
    }
  }

  lemma KeyCount(m: map<Server, Record>, k: Server)
    requires k in m
    ensures |m - {k}| == |m| - 1
  {
  }

  // ----- The order of the keys -----

  /** The keys before `k`; their number is the index of `k`. */
  ghost function Smaller(keys: set<Server>, k: Server): set<Server> {
    set x | x in keys && Less(x, k)
  }

  /** The key at an index, where an index past the end starts over. */
  ghost predicate IsKeyAt(keys: set<Server>, index: nat, k: Server) {
    k in keys && |Smaller(keys, k)| == if index < |keys| then index else 0
  }

  lemma SubsetSize(a: set<Server>, b: set<Server>)
    requires a <= b
    ensures |a| <= |b|
    ensures a != b ==> |a| < |b|
  {
    if a == b {
    } else {
      var x :| x in b && x !in a;
      assert a <= b - {x};
      SubsetSize(a, b - {x});
    }
  }

  lemma RankFollowsOrder(keys: set<Server>, a: Server, b: Server)
    requires a in keys && b in keys && Less(a, b)
    ensures |Smaller(keys, a)| < |Smaller(keys, b)|
  {
    forall x | Less(x, a) ensures Less(x, b) {
      LessIsStrictTotalOrder(x, a, b);
    }
    LessIsStrictTotalOrder(a, a, a);
    assert a in Smaller(keys, b) && a !in Smaller(keys, a);
    SubsetSize(Smaller(keys, a), Smaller(keys, b));
  }

  /** Each key has exactly one index, and different keys have different ones. */
  lemma EachKeyAtOneIndex(keys: set<Server>, k: Server, other: Server)
    requires k in keys && other in keys
    ensures |Smaller(keys, k)| < |keys|
    ensures forall index :: 0 <= index < |keys| ==> (IsKeyAt(keys, index, k) <==> index == |Smaller(keys, k)|)
    ensures |Smaller(keys, k)| == |Smaller(keys, other)| <==> k == other
  {
    LessIsStrictTotalOrder(k, other, k);
    assert k !in Smaller(keys, k);
    SubsetSize(Smaller(keys, k), keys);
    if Less(k, other) {
      RankFollowsOrder(keys, k, other);
    } else if Less(other, k) {
      RankFollowsOrder(keys, other, k);
    }
  }

  lemma RankIsPosition(s: seq<Record>, i: nat)
    requires Sorted(s) && i < |s|
    ensures |Smaller(Contents(s).Keys, s[i].server)| == i
  {
    var before, k := s[..i], s[i].server;
    forall x ensures x in Smaller(Contents(s).Keys, k) <==> x in Contents(before).Keys {
      if x in Smaller(Contents(s).Keys, k) {
        var j :| 0 <= j < |s| && s[j] == Contents(s)[x];
        LessIsStrictTotalOrder(x, k, x);
        assert before[j] == s[j];
      }
    }
    assert Smaller(Contents(s).Keys, k) == Contents(before).Keys;
    SizeIsKeyCount(before);
  }

  /** Stepping through the set from the start visits the keys in order, each at its index. */
  lemma KeyAtPosition(s: seq<Record>, index: nat, k: Server)
    requires Sorted(s) && s != []
    ensures IsKeyAt(Contents(s).Keys, index, k) <==> k == s[if index < |s| then index else 0].server
  {
    var keys, i := Contents(s).Keys, if index < |s| then index else 0;
    SizeIsKeyCount(s);
    RankIsPosition(s, i);
    if k in keys {
      EachKeyAtOneIndex(keys, k, s[i].server);
    }
  }
}
